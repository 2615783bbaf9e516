/** `processError`: how a thrown error becomes an HTTP reply. */
module Errors {
  import opened Types

  /** NotFound, tested first, answers 404 with the message; a DoNotRespond
      error answers nothing at all; anything else answers 500 with the
      message. */
  function ProcessError(e: Error): (reply: Option<Reply>)
    ensures reply.None? <==> e.DoNotRespond?
    ensures e.NotFound? ==> reply == Some(Reply(NotFound404, Text(e.message)))
    ensures e.Failure? ==> reply == Some(Reply(InternalServerError500, Text(e.message)))
  {
    if e.NotFound? then Some(Reply(NotFound404, Text(e.message)))
    else if e.DoNotRespond? then None
    else Some(Reply(InternalServerError500, Text(e.message)))
  }

  /** The error handling of the artifact fetches: NotFound passes through,
      every other error is rethrown as DoNotRespond with its message. */
  function WrapFetchError(e: Error): (w: Error)
    ensures e.NotFound? <==> w.NotFound?
    ensures w.message == e.message
    ensures !w.Failure?
  {
    if e.NotFound? then e else DoNotRespond(e.message)
  }

  /** A failed artifact fetch answers 404 or nothing; never 500. */
  lemma FetchErrorReply(e: Error)
    ensures e.NotFound? ==> ProcessError(WrapFetchError(e)) == Some(Reply(NotFound404, Text(e.message)))
    ensures !e.NotFound? ==> ProcessError(WrapFetchError(e)).None?
  {
  }
}
