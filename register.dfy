/** The register page: its `handleSubmit` posts the new account with a plain `fetch`
    (no refresh-and-retry) and shows the error lines on any failure; success changes
    nothing but `loading`. */
module Register {
  import opened Js
  import opened Http
  import opened ErrorMessages

  /** What the try block throws once the request has settled, or `None` when the
      account was accepted. Unlike the login page, success reads no property of the
      body, so a null body is accepted. */
  function TryRegister(result: FetchOutcome): (thrown: Option<Throwable>)
    ensures thrown.None? <==> result.Got? && Ok(result.response) && result.response.body.Json?
    ensures result.Threw? ==> thrown == Some(result.thrown)
    ensures result.Got? && result.response.body.Malformed? ==> thrown == Some(ErrorObj(result.response.body.message))
    ensures result.Got? && !Ok(result.response) && result.response.body.Json? ==>
      thrown == Some(ServerError(result.response.body.value))
  {
    match result
    case Threw(t) => Some(t)
    case Got(response) =>
      match ParseBody(response)
      case Failure(t) => Some(t)
      case Success(data) =>
        if !Ok(response) then Some(ServerError(data)) else None
  }

  /** A rejected registration shows the payload's `message` when it has no `errors`
      array and the message is a non-empty string without ", ". */
  lemma RejectedRegistrationShowsMessage(response: Response, data: JsValue, message: string)
    requires !Ok(response) && response.body == Json(data)
    requires !data.Null? && !data.Undefined? && !OptionalGet(data, "errors").Arr?
    requires OptionalGet(data, "message") == Str(message) && message != ""
    requires !Text.Contains(message, Separator)
    ensures TryRegister(Got(response)).Some?
    ensures Displayed(TryRegister(Got(response)).value) == [message]
  {
    ShownMessage(data, message);
  }

  /** A thrown value that is not an `Error` shows the fixed text. */
  lemma NonErrorShowsUnexpected(v: JsValue)
    ensures Displayed(TryRegister(Threw(NonError(v))).value) == ["An unexpected error occurred"]
  {
  }

  class RegisterPage {
    var name: string
    var email: string
    var password: string
    var loading: bool
    var error: seq<string>

    constructor()
      ensures name == "" && email == "" && password == "" && !loading && error == []
    {
      name, email, password := "", "", "";
      loading := false;
      error := [];
    }

    method SetName(value: string)
      modifies this`name
      ensures name == value
    {
      name := value;
    }

    method SetEmail(value: string)
      modifies this`email
      ensures email == value
    {
      email := value;
    }

    method SetPassword(value: string)
      modifies this`password
      ensures password == value
    {
      password := value;
    }

    /** `handleSubmit` up to its `await fetch`: loading on, errors cleared. */
    method BeginSubmit()
      modifies this`loading, this`error
      ensures loading && error == []
    {
      loading := true;
      error := [];
    }

    /** `handleSubmit` after the request settles to `result`: the error lines on failure,
        and loading off in every case. */
    method FinishSubmit(result: FetchOutcome)
      modifies this`loading, this`error
      ensures !loading
      ensures TryRegister(result).None? ==> error == old(error)
      ensures TryRegister(result).Some? ==> error == Displayed(TryRegister(result).value)
    {
      match TryRegister(result) {
        case None =>
        case Some(t) =>
          error := Displayed(t);
      }
      loading := false;
    }
  }
}
