/** Network responses as abstract inputs. A `fetch` either resolves to a response or
    rejects; `response.json()` either resolves to a value or rejects with a
    SyntaxError carrying a message. */
module Http {
  import opened Js

  datatype Body = Json(value: JsValue) | Malformed(message: string)

  datatype Response = Response(status: int, body: Body)

  /** `response.ok` */
  predicate Ok(r: Response) {
    200 <= r.status <= 299
  }

  datatype FetchOutcome = Got(response: Response) | Threw(thrown: Throwable)

  /** `await response.json()` */
  function ParseBody(r: Response): Result<JsValue, Throwable> {
    match r.body
    case Json(value) => Success(value)
    case Malformed(message) => Failure(ErrorObj(message))
  }
}
