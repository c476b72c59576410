/** Option, Result and Outcome: the shapes the handlers' early returns take. */
module Wrappers {

  datatype Option<+T> = None | Some(value: T)

  /** A handler's answer: the success body, or the error it reports. */
  datatype Result<+R, +E> = Success(value: R) | Failure(error: E)

  /** The outcome of a validation step that carries no value. */
  datatype Outcome<+E> = Pass | Fail(error: E)
}

/** The error responses the route handlers send (status code and message). */
module Http {
  import opened Wrappers

  datatype Failure = BadRequest(message: string) | NotFound(message: string) {

    /** The HTTP status code the handler sets before sending the message. */
    function Status(): (code: int)
      ensures code == 400 <==> BadRequest?
      ensures code == 404 <==> NotFound?
    {
      match this
      case BadRequest(_) => 400
      case NotFound(_) => 404
    }
  }

  const MissingRequiredFields := "Missing required fields"
  const InvalidFasAnswers := "Invalid FAS answers"
  const InvalidPsqiAnswers := "Invalid PSQI answers"
  const InvalidPaAnswer := "Invalid Physical Activity answer"

  /** JavaScript truthiness of an optional string field: present and not empty. */
  predicate Truthy(field: Option<string>)
  {
    field.Some? && |field.value| > 0
  }
}
