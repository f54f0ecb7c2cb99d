/** The authentication context: two pieces of state, `isAuthenticated` and `user`,
    changed by `login`, `logout`, `refreshToken` and `checkAuthStatus` according to
    how the server answers. */
module Auth {
  import opened Js
  import opened Http

  /** One pass of `checkAuthStatus`: the answer to GET /user and, used only when that
      answer is a 401, the answer to POST /refresh. */
  datatype Round = Round(user: FetchOutcome, refresh: FetchOutcome)

  /** How a `checkAuthStatus` call ends: still waiting on the server, or settled with
      the state it leaves behind. */
  datatype Check = Pending | Settled(isAuthenticated: bool, user: JsValue)

  /** `refreshToken` reports success exactly when the refresh request answers with an ok status. */
  predicate RefreshSucceeds(o: FetchOutcome) {
    o.Got? && Ok(o.response)
  }

  /** A round that sends `checkAuthStatus` round again: a 401 followed by a successful refresh. */
  predicate Retries(r: Round) {
    r.user.Got? && r.user.response.status == 401 && RefreshSucceeds(r.refresh)
  }

  /** The state a round that does not retry leaves: authenticated with `data.user` after
      an ok answer whose body parses to an object-like value, and logged out otherwise
      (another status, a 401 whose refresh fails, a rejected request, a body that does
      not parse, or a body that is null or undefined). */
  function Settle(r: Round): (c: Check)
    ensures c.Settled?
    ensures c.isAuthenticated <==>
      r.user.Got? && Ok(r.user.response) && r.user.response.body.Json?
      && !r.user.response.body.value.Null? && !r.user.response.body.value.Undefined?
    ensures c.isAuthenticated ==> c.user == OptionalGet(r.user.response.body.value, "user")
    ensures !c.isAuthenticated ==> c.user == Null
  {
    match r.user
    case Threw(_) => Settled(false, Null)
    case Got(response) =>
      if Ok(response) then
        match ParseBody(response)
        case Failure(_) => Settled(false, Null)
        case Success(data) =>
          match Get(data, "user")
          case Success(u) => Settled(true, u)
          case Failure(_) => Settled(false, Null)
      else Settled(false, Null)
  }

  /** `checkAuthStatus` over the server's answers, one round per pass: a round that
      retries hands over to the next pass; running out of rounds leaves the call pending. */
  function CheckStatus(rounds: seq<Round>): (c: Check)
    decreases |rounds|
  {
    if rounds == [] then Pending
    else if Retries(rounds[0]) then CheckStatus(rounds[1..])
    else Settle(rounds[0])
  }

  /** The call settles with the first round that does not retry, however many retrying
      rounds come before it: the retry has no bound. */
  lemma {:induction false} SettlesAtFirstNonRetry(rounds: seq<Round>, k: nat)
    requires k < |rounds| && !Retries(rounds[k])
    requires forall j :: 0 <= j < k ==> Retries(rounds[j])
    ensures CheckStatus(rounds) == Settle(rounds[k])
    decreases k
  {
    if k > 0 {
      SettlesAtFirstNonRetry(rounds[1..], k - 1);
    }
  }

  /** While every round retries, the call stays pending. */
  lemma {:induction false} PendingWhileRetrying(rounds: seq<Round>)
    requires forall j :: 0 <= j < |rounds| ==> Retries(rounds[j])
    ensures CheckStatus(rounds) == Pending
    decreases |rounds|
  {
    if rounds != [] {
      PendingWhileRetrying(rounds[1..]);
    }
  }

  /** A settled call leaves either the authenticated state with some user, or the
      logged-out state with a null user. */
  lemma {:induction false} SettledLoggedOutHasNullUser(rounds: seq<Round>)
    requires CheckStatus(rounds).Settled? && !CheckStatus(rounds).isAuthenticated
    ensures CheckStatus(rounds).user == Null
    decreases |rounds|
  {
    if Retries(rounds[0]) {
      SettledLoggedOutHasNullUser(rounds[1..]);
    }
  }

  class AuthContext {
    var isAuthenticated: bool
    var user: JsValue

    /** The provider starts logged out with a null user. */
    constructor()
      ensures !isAuthenticated && user == Null
    {
      isAuthenticated := false;
      user := Null;
    }

    /** `login(userData)` */
    method Login(userData: JsValue)
      modifies this
      ensures isAuthenticated && user == userData
    {
      isAuthenticated := true;
      user := userData;
    }

    /** `logout()`: the client state is cleared whatever the server answers, including
      a non-ok answer (which the source rethrows and catches) and a rejected request. */
    method Logout(response: FetchOutcome)
      modifies this
      ensures !isAuthenticated && user == Null
    {
      match response
      case Got(r) =>
        if Ok(r) {
          isAuthenticated := false;
          user := Null;
        } else {
          // `throw new Error('Logout failed')`, caught below
          isAuthenticated := false;
          user := Null;
        }
      case Threw(_) =>
        isAuthenticated := false;
        user := Null;
    }

    /** `refreshToken()`: true on an ok answer, leaving the state alone; false otherwise,
        logging out. */
    method RefreshToken(response: FetchOutcome) returns (refreshed: bool)
      modifies this
      ensures refreshed == RefreshSucceeds(response)
      ensures refreshed ==> isAuthenticated == old(isAuthenticated) && user == old(user)
      ensures !refreshed ==> !isAuthenticated && user == Null
    {
      match response
      case Got(r) =>
        if Ok(r) {
          refreshed := true;
        } else {
          isAuthenticated := false;
          user := Null;
          refreshed := false;
        }
      case Threw(_) =>
        isAuthenticated := false;
        user := Null;
        refreshed := false;
    }

    /** `checkAuthStatus()`, answered by `rounds`. `settled` is false when the rounds run
        out before the call ends; the state is then what it was, since only successful
        refreshes happened. */
    method CheckAuthStatus(rounds: seq<Round>) returns (settled: bool)
      modifies this
      ensures settled == CheckStatus(rounds).Settled?
      ensures settled ==> isAuthenticated == CheckStatus(rounds).isAuthenticated && user == CheckStatus(rounds).user
      ensures !settled ==> isAuthenticated == old(isAuthenticated) && user == old(user)
      decreases |rounds|
    {
      if rounds == [] {
        return false;
      }
      var round := rounds[0];
      settled := true;
      match round.user
      case Threw(_) =>
        isAuthenticated := false;
        user := Null;
      case Got(response) =>
        if Ok(response) {
          match ParseBody(response)
          case Failure(_) =>
            isAuthenticated := false;
            user := Null;
          case Success(data) =>
            isAuthenticated := true;
            match Get(data, "user")
            case Success(u) =>
              user := u;
            case Failure(_) =>
              isAuthenticated := false;
              user := Null;
        } else if response.status == 401 {
          var refreshed := RefreshToken(round.refresh);
          if refreshed {
            settled := CheckAuthStatus(rounds[1..]);
          } else {
            isAuthenticated := false;
            user := Null;
          }
        } else {
          isAuthenticated := false;
          user := Null;
        }
    }
  }
}
