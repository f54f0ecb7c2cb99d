/** The login page: its `handleSubmit` posts the credentials through `api`, logs the
    returned user in and re-checks the session on success, and on any failure shows
    the error lines and replaces the route with '/login'. `loading` is set when the
    submit starts and cleared when it ends. */
module Login {
  import opened Js
  import opened Http
  import opened ErrorMessages
  import Api
  import Auth

  const LoginUrl: string := "http://localhost:3001/api/v1/login"

  /** A call of the router. */
  datatype Navigation = Push(path: string) | Replace(path: string)

  /** How the try block ends once `api` has settled: with the user to log in, or with
      what it throws. */
  datatype Attempt = Accepted(user: JsValue) | Rejected(thrown: Throwable)

  /** The request options; the body is the object handed to `JSON.stringify`. */
  function LoginOptions(email: string, password: string): Api.Options {
    map[
      "method" := Str("POST"),
      "headers" := Obj([("Content-Type", Str("application/json"))]),
      "body" := Obj([("email", Str(email)), ("password", Str(password))])
    ]
  }

  /** The try block from `await response.json()` on: a body that does not parse, a
      non-ok status and a null or undefined body all end in a throw; an ok answer gives
      `data.user`. */
  function TryLogin(result: FetchOutcome): (a: Attempt)
    ensures result.Threw? ==> a == Rejected(result.thrown)
    ensures result.Got? && result.response.body.Malformed? ==> a == Rejected(ErrorObj(result.response.body.message))
    ensures result.Got? && !Ok(result.response) && result.response.body.Json? ==>
      a == Rejected(ServerError(result.response.body.value))
    ensures a.Accepted? <==>
      result.Got? && Ok(result.response) && result.response.body.Json?
      && !result.response.body.value.Null? && !result.response.body.value.Undefined?
    ensures a.Accepted? ==> a.user == OptionalGet(result.response.body.value, "user")
  {
    match result
    case Threw(t) => Rejected(t)
    case Got(response) =>
      match ParseBody(response)
      case Failure(t) => Rejected(t)
      case Success(data) =>
        if !Ok(response) then Rejected(ServerError(data))
        else
          match Get(data, "user")
          case Success(u) => Accepted(u)
          case Failure(t) => Rejected(t)
  }

  /** A rejected login whose payload lists string errors, none containing ", ", shows
      exactly those errors. */
  lemma RejectedLoginShowsServerErrors(response: Response, data: JsValue, msgs: seq<string>)
    requires !Ok(response) && response.body == Json(data)
    requires OptionalGet(data, "errors") == Arr(Texts(msgs))
    requires msgs != [] && forall k :: 0 <= k < |msgs| ==> !Text.Contains(msgs[k], Separator)
    ensures TryLogin(Got(response)).Rejected?
    ensures Displayed(TryLogin(Got(response)).thrown) == msgs
  {
    ShownErrorsRoundTrip(data, msgs);
  }

  /** A failed refresh inside `api` makes the login show 'Authentication failed'. */
  lemma FailedRefreshShowsAuthenticationFailed(email: string, password: string, first: FetchOutcome, retry: FetchOutcome)
    requires first.Got? && first.response.status == 401
    ensures Displayed(TryLogin(Api.ApiCall(LoginUrl, LoginOptions(email, password), first, false, retry).result).thrown)
      == ["Authentication failed"]
  {
    Api.FailsWhenRefreshFails(LoginUrl, LoginOptions(email, password), first, retry);
    Text.NoCommaNoCommaSpace(Api.AuthenticationFailed);
    Text.SplitJoinCommaSpace([Api.AuthenticationFailed]);
  }

  class LoginPage {
    const auth: Auth.AuthContext
    var email: string
    var password: string
    var loading: bool
    var error: seq<string>
    var navigation: seq<Navigation>
    /** The request options the running submit built from the fields when it started;
        the fields stay editable while it waits, and later edits do not reach it. */
    var submitted: Api.Options

    constructor(auth: Auth.AuthContext)
      ensures this.auth == auth
      ensures email == "" && password == "" && !loading && error == [] && navigation == []
      ensures submitted == map[]
    {
      this.auth := auth;
      email, password := "", "";
      loading := false;
      error := [];
      navigation := [];
      submitted := map[];
    }

    method SetEmail(value: string)
      modifies this`email
      ensures email == value
    {
      email := value;
    }

    method SetPassword(value: string)
      modifies this`password
      ensures password == value
    {
      password := value;
    }

    /** `handleSubmit` up to its first `await`: loading on, errors cleared, and the
        request options built from the current e-mail and password. */
    method BeginSubmit()
      modifies this`loading, this`error, this`submitted
      ensures loading && error == []
      ensures submitted == LoginOptions(email, password)
    {
      loading := true;
      error := [];
      submitted := LoginOptions(email, password);
    }

    /** `handleSubmit` from the `api` call on, sending the options `BeginSubmit` built
        (edits made to the fields in the meantime do not reach the request). `first`, `refresh` and `retry` answer the
        login request, the refresh request `api` makes on a 401, and the retry; `rounds`
        answer the session re-check. `finished` is false when the re-check is still
        retrying when `rounds` run out: the submit has then not ended. */
    method FinishSubmit(first: FetchOutcome, refresh: FetchOutcome, retry: FetchOutcome, rounds: seq<Auth.Round>)
      returns (trace: seq<Api.Event>, finished: bool)
      modifies this`loading, this`error, this`navigation, auth
      ensures var call := Api.ApiCall(LoginUrl, submitted, first, Auth.RefreshSucceeds(refresh), retry);
        && trace == call.trace
        && match TryLogin(call.result)
           case Rejected(t) =>
             && finished && !loading
             && error == Displayed(t)
             && navigation == old(navigation) + [Replace("/login")]
           case Accepted(u) =>
             && finished == Auth.CheckStatus(rounds).Settled?
             && error == old(error)
             && (finished ==> !loading && navigation == old(navigation) + [Push("/")])
             && (!finished ==> loading == old(loading) && navigation == old(navigation))
             && (finished ==> auth.isAuthenticated == Auth.CheckStatus(rounds).isAuthenticated
                              && auth.user == Auth.CheckStatus(rounds).user)
             && (!finished ==> auth.isAuthenticated && auth.user == u)
      ensures Api.NeedsRefresh(first) && !Auth.RefreshSucceeds(refresh) ==> !auth.isAuthenticated && auth.user == Null
      ensures var call := Api.ApiCall(LoginUrl, submitted, first, Auth.RefreshSucceeds(refresh), retry);
        TryLogin(call.result).Rejected? && !(Api.NeedsRefresh(first) && !Auth.RefreshSucceeds(refresh)) ==>
          auth.isAuthenticated == old(auth.isAuthenticated) && auth.user == old(auth.user)
    {
      var refreshed := Auth.RefreshSucceeds(refresh);
      if Api.NeedsRefresh(first) {
        refreshed := auth.RefreshToken(refresh);
      }
      var call := Api.ApiCall(LoginUrl, submitted, first, refreshed, retry);
      trace := call.trace;
      match TryLogin(call.result)
      case Rejected(t) =>
        error := Displayed(t);
        navigation := navigation + [Replace("/login")];
        loading := false;
        finished := true;
      case Accepted(u) =>
        auth.Login(u);
        finished := auth.CheckAuthStatus(rounds);
        if finished {
          navigation := navigation + [Push("/")];
          loading := false;
        }
    }
  }
}
