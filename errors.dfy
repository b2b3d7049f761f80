/** The error middleware of `src/middleware/error.js`: `notFound` raises a 404 and
    `errorHandler` turns any error into a status and an `{ error: message }` body. */
module Errors {
  import opened Common

  /** The fields the handler reads from a JavaScript error; a missing or falsy value is `None`
      (a status of 0 or an empty message is falsy too). */
  datatype JsError = JsError(status: Option<nat>, statusCode: Option<nat>, message: Option<string>)

  datatype ErrorBody = ErrorBody(error: string)

  datatype Reply = Reply(status: nat, body: ErrorBody)

  predicate TruthyStatus(s: Option<nat>) {
    s.Some? && s.value != 0
  }

  /** `notFound`: an error with status 404 and message `Not Found`. */
  function NotFound(): (e: JsError)
    ensures e.status == Some(404) && e.message == Some("Not Found")
  {
    JsError(Some(404), None, Some("Not Found"))
  }

  /** `errorHandler`: `err.status || err.statusCode || 500`, `err.message || 'Internal Server Error'`. */
  function ErrorHandler(err: JsError): (r: Reply)
    ensures TruthyStatus(err.status) ==> r.status == err.status.value
    ensures !TruthyStatus(err.status) && TruthyStatus(err.statusCode) ==> r.status == err.statusCode.value
    ensures !TruthyStatus(err.status) && !TruthyStatus(err.statusCode) ==> r.status == 500
    ensures r.status != 0
    ensures Given(err.message) ==> r.body == ErrorBody(err.message.value)
    ensures !Given(err.message) ==> r.body == ErrorBody("Internal Server Error")
  {
    var status := if TruthyStatus(err.status) then err.status.value
                  else if TruthyStatus(err.statusCode) then err.statusCode.value
                  else 500;
    var message := if Given(err.message) then err.message.value else "Internal Server Error";
    Reply(status, ErrorBody(message))
  }

  /** `createError(status, message)`, which sets both `status` and `statusCode`. */
  function HttpError(f: Failure): (e: JsError)
    ensures e.status == Some(f.status) && e.statusCode == Some(f.status) && e.message == Some(f.message)
  {
    JsError(Some(f.status), Some(f.status), Some(f.message))
  }

  /** A failure raised by a route reaches the client with its own status and message. */
  lemma HandlerKeepsFailure(f: Failure)
    requires f.status != 0 && f.message != ""
    ensures ErrorHandler(HttpError(f)) == Reply(f.status, ErrorBody(f.message))
  {
  }

  /** An unmatched route is answered 404 with `{ error: "Not Found" }`. */
  lemma UnmatchedRouteReply()
    ensures ErrorHandler(NotFound()) == Reply(404, ErrorBody("Not Found"))
  {
  }

  /** An error without a status or message, such as a thrown `TypeError` whose message is
      empty, becomes a 500 with the default message. */
  lemma BareErrorReply()
    ensures ErrorHandler(JsError(None, None, None)) == Reply(500, ErrorBody("Internal Server Error"))
  {
  }
}
