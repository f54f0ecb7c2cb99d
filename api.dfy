/** The request wrapper `api(url, options, refreshToken)`: one request with the
    session cookie included and, when it is answered with 401, one call of the
    refresh callback followed by at most one retry. */
module Api {
  import opened Js
  import opened Http

  /** A `RequestInit` as a property map. */
  type Options = map<string, JsValue>

  datatype Request = Request(url: string, options: Options)

  /** What the wrapper does, in order: send a request, or call the refresh callback. */
  datatype Event = Sent(request: Request) | RefreshCalled

  /** What a call settles to, and the events it produced on the way. */
  datatype Call = Call(result: FetchOutcome, trace: seq<Event>)

  const AuthenticationFailed: string := "Authentication failed"

  /** `{ ...options, credentials: 'include' }`: the spread keeps every property and the
      literal that follows overrides `credentials`. */
  function WithCredentials(options: Options): (sent: Options)
    ensures sent.Keys == options.Keys + {"credentials"}
    ensures sent["credentials"] == Str("include")
    ensures forall k :: k in options && k != "credentials" ==> sent[k] == options[k]
  {
    options["credentials" := Str("include")]
  }

  /** The wrapper calls the refresh callback exactly when the first response has status 401. */
  predicate NeedsRefresh(first: FetchOutcome) {
    first.Got? && first.response.status == 401
  }

  /** The call, given what the first request settles to, what the refresh callback
      resolves to, and what the retry settles to (`refreshed` and `retry` are only
      consulted when they are reached). A rejected `fetch` propagates as it is. */
  function ApiCall(url: string, options: Options, first: FetchOutcome, refreshed: bool, retry: FetchOutcome): (c: Call)
    ensures |c.trace| >= 1 && c.trace[0] == Sent(Request(url, WithCredentials(options)))
  {
    var request := Request(url, WithCredentials(options));
    if NeedsRefresh(first) then
      if refreshed then Call(retry, [Sent(request), RefreshCalled, Sent(request)])
      else Call(Threw(ErrorObj(AuthenticationFailed)), [Sent(request), RefreshCalled])
    else Call(first, [Sent(request)])
  }

  function CountSent(trace: seq<Event>): nat {
    if trace == [] then 0 else (if trace[0].Sent? then 1 else 0) + CountSent(trace[1..])
  }

  function CountRefreshes(trace: seq<Event>): nat {
    if trace == [] then 0 else (if trace[0].RefreshCalled? then 1 else 0) + CountRefreshes(trace[1..])
  }

  /** Every request the wrapper sends goes to `url` with `credentials: 'include'` and
      otherwise the caller's options unchanged. */
  lemma EveryRequestIncludesCredentials(url: string, options: Options, first: FetchOutcome, refreshed: bool, retry: FetchOutcome)
    ensures forall e :: e in ApiCall(url, options, first, refreshed, retry).trace && e.Sent? ==>
      && e.request.url == url
      && e.request.options["credentials"] == Str("include")
      && forall k :: k in options && k != "credentials" ==> k in e.request.options && e.request.options[k] == options[k]
  {
  }

  /** A first answer other than 401 (or a rejected first request) is the result, and the
      refresh callback is not called. */
  lemma FirstAnswerReturned(url: string, options: Options, first: FetchOutcome, refreshed: bool, retry: FetchOutcome)
    requires !(first.Got? && first.response.status == 401)
    ensures ApiCall(url, options, first, refreshed, retry).result == first
    ensures RefreshCalled !in ApiCall(url, options, first, refreshed, retry).trace
    ensures CountSent(ApiCall(url, options, first, refreshed, retry).trace) == 1
  {
    var c := ApiCall(url, options, first, refreshed, retry);
    assert c.trace[1..] == [];
  }

  /** After a 401 and a successful refresh, the one retry is the result, whatever its
      status (a second 401 is returned, not retried). */
  lemma RetriedOnceAfterRefresh(url: string, options: Options, first: FetchOutcome, retry: FetchOutcome)
    requires first.Got? && first.response.status == 401
    ensures ApiCall(url, options, first, true, retry).result == retry
    ensures CountSent(ApiCall(url, options, first, true, retry).trace) == 2
    ensures CountRefreshes(ApiCall(url, options, first, true, retry).trace) == 1
  {
    var request := Request(url, WithCredentials(options));
    var t := ApiCall(url, options, first, true, retry).trace;
    assert t == [Sent(request), RefreshCalled, Sent(request)];
    assert t[1..] == [RefreshCalled, Sent(request)];
    assert t[1..][1..] == [Sent(request)];
    assert t[1..][1..][1..] == [];
    assert CountSent(t[1..][1..]) == 1 && CountRefreshes(t[1..][1..]) == 0;
    assert CountSent(t[1..]) == 1 && CountRefreshes(t[1..]) == 1;
  }

  /** After a 401 and a failed refresh, the call rejects with 'Authentication failed'
      and sends nothing more. */
  lemma FailsWhenRefreshFails(url: string, options: Options, first: FetchOutcome, retry: FetchOutcome)
    requires first.Got? && first.response.status == 401
    ensures ApiCall(url, options, first, false, retry).result == Threw(ErrorObj("Authentication failed"))
    ensures CountSent(ApiCall(url, options, first, false, retry).trace) == 1
  {
    var request := Request(url, WithCredentials(options));
    var t := ApiCall(url, options, first, false, retry).trace;
    assert t == [Sent(request), RefreshCalled];
    assert t[1..] == [RefreshCalled];
    assert t[1..][1..] == [];
    assert CountSent(t[1..]) == 0;
  }

  /** Whatever the answers, a call sends at most two requests and calls the refresh
      callback at most once, and it calls it exactly when the first answer is a 401. */
  lemma AtMostTwoRequestsOneRefresh(url: string, options: Options, first: FetchOutcome, refreshed: bool, retry: FetchOutcome)
    ensures CountSent(ApiCall(url, options, first, refreshed, retry).trace) <= 2
    ensures CountRefreshes(ApiCall(url, options, first, refreshed, retry).trace) <= 1
    ensures RefreshCalled in ApiCall(url, options, first, refreshed, retry).trace <==> NeedsRefresh(first)
  {
    var t := ApiCall(url, options, first, refreshed, retry).trace;
    if NeedsRefresh(first) {
      if refreshed {
        RetriedOnceAfterRefresh(url, options, first, retry);
      } else {
        FailsWhenRefreshFails(url, options, first, retry);
        assert t[1..] == [RefreshCalled];
        assert t[1..][1..] == [];
        assert CountRefreshes(t[1..]) == 1;
      }
    } else {
      FirstAnswerReturned(url, options, first, refreshed, retry);
    }
  }
}
