/** Small value types shared by every part of the model: an optional value
    (the source's `T | null`) and the outcome of one HTTP round trip, which
    the model receives as a parameter instead of performing the request. */
module Wrappers {

  datatype Option<+T> = None | Some(value: T)

  /** Why a request failed: the server answered with an error status, or
      no response arrived at all (timeout, refused connection). */
  datatype Fault = HttpStatus(code: int) | NoResponse

  /** The outcome of one awaited request: the response body, or the error
      that the awaiting code sees thrown. */
  datatype Reply<+T> = Ok(body: T) | Failed(fault: Fault)

  /** The error a caller sees rethrown after awaiting `reply`, if any. */
  function Thrown<T>(reply: Reply<T>): (e: Option<Fault>)
    ensures e.None? <==> reply.Ok?
    ensures e.Some? ==> e.value == reply.fault
  {
    match reply
    case Ok(_) => None
    case Failed(f) => Some(f)
  }
}
