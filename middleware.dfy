/** The Next.js middleware: a request for '/mypage' without an `access_token` cookie is
    redirected to '/login'; every other request passes through. */
module Middleware {

  /** A parsed URL: everything before the path (scheme, host and port), the path, and
      the query and fragment. */
  datatype Url = Url(origin: string, pathname: string, search: string, hash: string)

  datatype Request = Request(url: Url, cookies: map<string, string>)

  datatype Decision = Redirect(location: Url) | Next

  /** `new URL(path, base)` for a path that starts with '/': the base's origin with the
      new path, and no query or fragment. */
  function ResolvePath(path: string, base: Url): Url
    requires |path| > 0 && path[0] == '/'
  {
    Url(base.origin, path, "", "")
  }

  /** `middleware(request)`. `cookies.get` gives a cookie object, which is truthy even
      when its value is empty, so only the cookie's presence matters. */
  function Decide(request: Request): (d: Decision)
    ensures d.Redirect? <==> "access_token" !in request.cookies && request.url.pathname == "/mypage"
    ensures d.Redirect? ==> d.location == ResolvePath("/login", request.url)
  {
    if "access_token" !in request.cookies && request.url.pathname == "/mypage" then
      Redirect(ResolvePath("/login", request.url))
    else Next
  }

  /** `config.matcher`: the middleware runs only for '/mypage'. */
  predicate Matches(pathname: string) {
    pathname == "/mypage"
  }

  /** The request handling the matcher describes, read as written: run the middleware
      where the matcher selects it, and pass the request through elsewhere. */
  function Serve(request: Request): (d: Decision)
    ensures !Matches(request.url.pathname) ==> d == Next
  {
    if Matches(request.url.pathname) then Decide(request) else Next
  }

  /** A request carrying the cookie always passes through, whatever its path. */
  lemma TokenPassesThrough(request: Request)
    requires "access_token" in request.cookies
    ensures Serve(request) == Next && Decide(request) == Next
  {
  }

  /** The matcher changes nothing: the middleware itself already passes every other
      path through, so serving with or without the matcher decides the same. */
  lemma MatcherIsRedundant(request: Request)
    ensures Serve(request) == Decide(request)
  {
  }

  /** The redirect keeps the request's origin and drops its query and fragment. */
  lemma RedirectTarget(request: Request)
    requires "access_token" !in request.cookies && request.url.pathname == "/mypage"
    ensures Serve(request) == Redirect(Url(request.url.origin, "/login", "", ""))
  {
  }
}
