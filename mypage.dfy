/** The my-page form: the name and e-mail fields start from the logged-in user, the
    "update info" handler sends only the fields that differ from the user's, and both
    handlers report their outcome in `message`. */
module MyPage {
  import opened Js
  import opened Http
  import Auth

  const PasswordChanged: string := "Password changed successfully"
  const PasswordFailed: string := "Failed to change password"
  const ErrorOccurred: string := "An error occurred"
  const NoChanges: string := "No changes to update"
  const InfoUpdated: string := "User information updated successfully"
  const InfoFailed: string := "Failed to update user information"

  /** `user.USER_NAME || ''` for a truthy user: the field when it is truthy, '' otherwise. */
  function FieldOrEmpty(user: JsValue, key: string): JsValue {
    var field := OptionalGet(user, key);
    if Truthy(field) then field else Str("")
  }

  /** The `updateData` object: `name` is included exactly when it is not strictly equal to
      `user?.USER_NAME`, and `email` exactly when it is not strictly equal to `user?.USER_ID`. */
  function UpdateData(name: JsValue, email: JsValue, user: JsValue): (d: map<string, JsValue>)
    ensures "name" in d <==> name != OptionalGet(user, "USER_NAME")
    ensures "email" in d <==> email != OptionalGet(user, "USER_ID")
    ensures "name" in d ==> d["name"] == name
    ensures "email" in d ==> d["email"] == email
    ensures d.Keys <= {"name", "email"}
  {
    var withName: map<string, JsValue> := if name != OptionalGet(user, "USER_NAME") then map["name" := name] else map[];
    if email != OptionalGet(user, "USER_ID") then withName["email" := email] else withName
  }

  /** With no user, a string field never equals `undefined`, so both fields are sent. */
  lemma NoUserSendsBothFields(name: string, email: string, user: JsValue)
    requires user.Null? || user.Undefined?
    ensures UpdateData(Str(name), Str(email), user) == map["name" := Str(name), "email" := Str(email)]
  {
  }

  /** Right after the fields are taken from a user, nothing is to be sent exactly when each
      of the user's two fields is truthy or the empty string; a missing or falsy non-string
      field is replaced by '' and so always counts as a change. */
  lemma SyncedFieldsUnchangedIff(user: JsValue)
    requires Truthy(user)
    ensures UpdateData(FieldOrEmpty(user, "USER_NAME"), FieldOrEmpty(user, "USER_ID"), user) == map[]
      <==> (forall key :: key in {"USER_NAME", "USER_ID"} ==>
              Truthy(OptionalGet(user, key)) || OptionalGet(user, key) == Str(""))
  {
    var d := UpdateData(FieldOrEmpty(user, "USER_NAME"), FieldOrEmpty(user, "USER_ID"), user);
    if d == map[] {
      assert "name" !in d && "email" !in d;
    } else {
      assert "name" in d || "email" in d;
    }
  }

  /** `data.message || fallback`: the server's message when it is truthy. Reading it
      throws when the body is null or undefined. */
  function ServerMessageOr(data: JsValue, fallback: string): (r: Result<JsValue, Throwable>)
    ensures r.Failure? <==> data.Null? || data.Undefined?
    ensures r.Success? && Truthy(OptionalGet(data, "message")) ==> r.value == OptionalGet(data, "message")
    ensures r.Success? && !Truthy(OptionalGet(data, "message")) ==> r.value == Str(fallback)
  {
    match Get(data, "message")
    case Failure(t) => Failure(t)
    case Success(m) => Success(if Truthy(m) then m else Str(fallback))
  }

  /** The message `handlePasswordChange` shows and whether it clears the two password
      fields: success needs an ok status and a body that parses; any throw (a rejected
      request, a body that does not parse, a null body on failure) shows 'An error occurred'. */
  function PasswordChangeOutcome(result: FetchOutcome): (r: (JsValue, bool))
    ensures r.1 <==> result.Got? && Ok(result.response) && result.response.body.Json?
    ensures r.1 ==> r.0 == Str(PasswordChanged)
    ensures result.Threw? || (result.Got? && result.response.body.Malformed?) ==> r == (Str(ErrorOccurred), false)
  {
    match result
    case Threw(_) => (Str(ErrorOccurred), false)
    case Got(response) =>
      match ParseBody(response)
      case Failure(_) => (Str(ErrorOccurred), false)
      case Success(data) =>
        if Ok(response) then (Str(PasswordChanged), true)
        else
          match ServerMessageOr(data, PasswordFailed)
          case Success(m) => (m, false)
          case Failure(_) => (Str(ErrorOccurred), false)
  }

  /** The message `handleInfoUpdate` shows once its request settles, and whether it asks
      the auth context to re-check the session (on success only). */
  function InfoUpdateOutcome(result: FetchOutcome): (r: (JsValue, bool))
    ensures r.1 <==> result.Got? && Ok(result.response) && result.response.body.Json?
    ensures r.1 ==> r.0 == Str(InfoUpdated)
    ensures result.Threw? || (result.Got? && result.response.body.Malformed?) ==> r == (Str(ErrorOccurred), false)
  {
    match result
    case Threw(_) => (Str(ErrorOccurred), false)
    case Got(response) =>
      match ParseBody(response)
      case Failure(_) => (Str(ErrorOccurred), false)
      case Success(data) =>
        if Ok(response) then (Str(InfoUpdated), true)
        else
          match ServerMessageOr(data, InfoFailed)
          case Success(m) => (m, false)
          case Failure(_) => (Str(ErrorOccurred), false)
  }

  /** A failed password change shows the body's truthy `message`; any other body that
      is not null or undefined (an object without one, a string, a number, an array)
      reads `message` as undefined or falsy and shows 'Failed to change password'; a
      null body makes the read throw, which shows 'An error occurred'. */
  lemma FailedPasswordChangeMessage(response: Response, data: JsValue)
    requires !Ok(response) && response.body == Json(data)
    ensures !PasswordChangeOutcome(Got(response)).1
    ensures data.Obj? && Truthy(Lookup(data.fields, "message")) ==>
      PasswordChangeOutcome(Got(response)).0 == Lookup(data.fields, "message")
    ensures !data.Null? && !data.Undefined? && !(data.Obj? && Truthy(Lookup(data.fields, "message"))) ==>
      PasswordChangeOutcome(Got(response)).0 == Str(PasswordFailed)
    ensures data.Null? || data.Undefined? ==> PasswordChangeOutcome(Got(response)).0 == Str(ErrorOccurred)
  {
  }

  /** The same for a failed information update, with 'Failed to update user information'. */
  lemma FailedUpdateMessage(response: Response, data: JsValue)
    requires !Ok(response) && response.body == Json(data)
    ensures !InfoUpdateOutcome(Got(response)).1
    ensures data.Obj? && Truthy(Lookup(data.fields, "message")) ==>
      InfoUpdateOutcome(Got(response)).0 == Lookup(data.fields, "message")
    ensures !data.Null? && !data.Undefined? && !(data.Obj? && Truthy(Lookup(data.fields, "message"))) ==>
      InfoUpdateOutcome(Got(response)).0 == Str(InfoFailed)
    ensures data.Null? || data.Undefined? ==> InfoUpdateOutcome(Got(response)).0 == Str(ErrorOccurred)
  {
  }

  class MyPageForm {
    const auth: Auth.AuthContext
    var currentPassword: string
    var newPassword: string
    var name: JsValue
    var email: JsValue
    var message: JsValue

    constructor(auth: Auth.AuthContext)
      ensures this.auth == auth
      ensures currentPassword == "" && newPassword == ""
      ensures name == Str("") && email == Str("") && message == Str("")
    {
      this.auth := auth;
      currentPassword, newPassword := "", "";
      name, email, message := Str(""), Str(""), Str("");
    }

    /** The effect that runs when `user` changes: a truthy user fills both fields,
        defaulting to ''; otherwise the fields keep their values. */
    method SyncFromUser()
      modifies this`name, this`email
      ensures Truthy(auth.user) ==> name == FieldOrEmpty(auth.user, "USER_NAME") && email == FieldOrEmpty(auth.user, "USER_ID")
      ensures !Truthy(auth.user) ==> name == old(name) && email == old(email)
    {
      if Truthy(auth.user) {
        name := FieldOrEmpty(auth.user, "USER_NAME");
        email := FieldOrEmpty(auth.user, "USER_ID");
      }
    }

    method SetName(value: string)
      modifies this`name
      ensures name == Str(value)
    {
      name := Str(value);
    }

    method SetEmail(value: string)
      modifies this`email
      ensures email == Str(value)
    {
      email := Str(value);
    }

    method SetCurrentPassword(value: string)
      modifies this`currentPassword
      ensures currentPassword == value
    {
      currentPassword := value;
    }

    method SetNewPassword(value: string)
      modifies this`newPassword
      ensures newPassword == value
    {
      newPassword := value;
    }

    /** `handlePasswordChange` once its request settles to `result`. */
    method HandlePasswordChange(result: FetchOutcome)
      modifies this`message, this`currentPassword, this`newPassword
      ensures message == PasswordChangeOutcome(result).0
      ensures PasswordChangeOutcome(result).1 ==> currentPassword == "" && newPassword == ""
      ensures !PasswordChangeOutcome(result).1 ==> currentPassword == old(currentPassword) && newPassword == old(newPassword)
    {
      var (shown, clear) := PasswordChangeOutcome(result);
      message := shown;
      if clear {
        currentPassword := "";
        newPassword := "";
      }
    }

    /** `handleInfoUpdate`: `sent` is the body of the update request, or `None` when no
        field changed and no request is made; `result` answers the request. `recheck`
        says whether `checkAuthStatus` was started (it is not awaited). */
    method HandleInfoUpdate(result: FetchOutcome) returns (sent: Option<map<string, JsValue>>, recheck: bool)
      modifies this`message
      ensures var d := UpdateData(name, email, auth.user);
        && (d == map[] ==> sent == None && !recheck && message == Str(NoChanges))
        && (d != map[] ==> sent == Some(d) && (message, recheck) == InfoUpdateOutcome(result))
    {
      var d := UpdateData(name, email, auth.user);
      if d == map[] {
        message := Str(NoChanges);
        return None, false;
      }
      sent := Some(d);
      var (shown, again) := InfoUpdateOutcome(result);
      message := shown;
      recheck := again;
    }
  }
}
