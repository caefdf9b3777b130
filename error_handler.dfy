/** The final Express error handler: it picks the response status from the error's
    `statusCode` and hides the message of every error answered with 500. */
module ErrorHandler {
  import opened Wrappers
  import opened Errors

  const GenericMessage: string := "На сервере произошла ошибка"

  /** The response the handler sends: the status and the body `{ message }`. */
  datatype ErrorResponse = ErrorResponse(status: int, message: string)

  /** `err.statusCode || 500`: a missing or zero status code falls back to 500. */
  function ResponseStatus(statusCode: Option<int>): (s: int)
    ensures statusCode.Some? && statusCode.value != 0 ==> s == statusCode.value
    ensures statusCode.None? || statusCode.value == 0 ==> s == 500
  {
    if statusCode.Some? && statusCode.value != 0 then statusCode.value else 500
  }

  /** The handler on the two properties it reads from the error. */
  function Respond(statusCode: Option<int>, message: string): (r: ErrorResponse)
    ensures r.status == ResponseStatus(statusCode)
    ensures r.status == 500 ==> r.message == GenericMessage
    ensures r.status != 500 ==> r.message == message
  {
    var status := ResponseStatus(statusCode);
    ErrorResponse(status, if status == 500 then GenericMessage else message)
  }

  /** The handler applied to an error of the model. */
  function HandleError(e: Error): ErrorResponse
  {
    Respond(StatusCode(e), Message(e))
  }

  /** An error of the application's own classes reaches the client with its status
      and its own message. */
  lemma OwnErrorsKeepMessage(e: Error)
    requires e.BadRequest? || e.Unauthorized? || e.NotFound? || e.Conflict?
    ensures HandleError(e).status == StatusCode(e).value
    ensures HandleError(e).message == Message(e)
  {
  }

  /** Every foreign error (Mongoose, MongoDB, jsonwebtoken, TypeError) becomes a 500
      with the generic message; its own message is never sent. */
  lemma ForeignErrorsAreHidden(e: Error)
    requires StatusCode(e).None?
    ensures HandleError(e) == ErrorResponse(500, GenericMessage)
  {
  }
}
