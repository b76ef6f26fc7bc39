/**
 * How a rejected backend request becomes the error the pages catch.  A
 * non-OK response's body is read as JSON; its `error` member (or "Request
 * failed") becomes the message of a thrown `Error`.
 *
 * `RejectionAsWritten` is that conversion.  It drops every other member of
 * the body, in particular the `upgrade` flag the queue list tests.
 * `Rejection` is the conversion the queue list relies on; it carries the
 * flag over.
 */
module ApiClient {
  import opened Wrappers
  import opened Entities

  const RequestFailed: string := "Request failed"

  /** The members of an error body that the pages look at. */
  datatype ErrorBody = ErrorBody(error: Option<string>, upgrade: bool)

  /** `error.error || 'Request failed'`, with a body that is not JSON read as `{ error: 'Request failed' }`. */
  function RejectionMessage(body: Option<ErrorBody>): (m: string)
    ensures m != ""
    ensures body.Some? && body.value.error.Some? && body.value.error.value != "" ==> m == body.value.error.value
    ensures !(body.Some? && body.value.error.Some? && body.value.error.value != "") ==> m == RequestFailed
  {
    if body.Some? && body.value.error.Some? && body.value.error.value != "" then body.value.error.value
    else RequestFailed
  }

  /** The thrown `new Error(message)`: an `Error` with a non-empty message and no `upgrade` member. */
  function RejectionAsWritten(body: Option<ErrorBody>): (f: Failure)
    ensures f.isError && f.message == RejectionMessage(body)
    ensures !f.upgrade
  {
    Failure(true, RejectionMessage(body), false)
  }

  /** The same error carrying the body's `upgrade` flag. */
  function Rejection(body: Option<ErrorBody>): (f: Failure)
    ensures f.isError && f.message == RejectionMessage(body)
    ensures f.upgrade <==> body.Some? && body.value.upgrade
  {
    Failure(true, RejectionMessage(body), body.Some? && body.value.upgrade)
  }
}
