/**
 The request and byte accounting shared by every network guard, with its sticky first violation.
 A policy guard calls it while it holds its own lock, so each call is one step.
 */
module NetworkGuard {
  import opened Wrappers

  newtype Int64 = x: int | -0x8000_0000_0000_0000 <= x < 0x8000_0000_0000_0000

  datatype Code =
    | RequestLimit | ResponseLimit | OriginEscape | ChildFrame | PersistentResource | MutationMethod
    | UnexpectedNavigation | PostBudget | VerificationPolicy | PageClosed | OtherCode(text: string)

  /** The value of the accounting: requests seen, response bytes counted, and the first violation. */
  datatype Core = Core(maxRequests: int, maxBytes: int, requests: int, bytes: int, violation: Option<Code>)

  function NewCore(maxRequests: int, maxBytes: int): Core {
    Core(maxRequests, maxBytes, 0, 0, None)
  }

  predicate CoreOk(c: Core) {
    0 <= c.bytes <= c.maxBytes && 0 <= c.requests && (c.violation.None? ==> c.requests <= c.maxRequests)
  }

  function Violated(c: Core, code: Code): Core {
    if c.violation.None? then c.(violation := Some(code)) else c
  }

  /** Counts a request; it may go ahead only while nothing was violated and the limit is kept. */
  function Counted(c: Core): (r: (Core, bool))
    ensures r.1 <==> c.violation.None? && c.requests < c.maxRequests
    ensures r.0.requests == c.requests + 1 && r.0.bytes == c.bytes
    ensures r.1 ==> r.0.violation.None?
    ensures !r.1 ==> r.0.violation.Some?
  {
    var counted := c.(requests := c.requests + 1);
    if c.violation.Some? then (counted, false)
    else if counted.requests > c.maxRequests then (Violated(counted, RequestLimit), false)
    else (counted, true)
  }

  function ContentLength(c: Core, length: int): Core {
    if length < 0 || length > c.maxBytes then Violated(c, ResponseLimit) else c
  }

  /** Counts a finished response, or records a violation when it would pass the limit. */
  function FinishResponse(c: Core, size: int): (r: Core)
    ensures CoreOk(c) ==> CoreOk(r)
    ensures r.bytes == c.bytes || (0 <= size && r.bytes == c.bytes + size && r.violation == c.violation)
  {
    if size < 0 || size > c.maxBytes || c.bytes > c.maxBytes - size then Violated(c, ResponseLimit)
    else c.(bytes := c.bytes + size)
  }

  /** The accounting object. Byte counts are machine integers: no step overflows them. */
  class NetworkGuardCore {
    const maxRequests: int
    const maxResponseBytes: Int64
    var requests: int
    var responseBytes: Int64
    var violation: Option<Code>

    function State(): Core
      reads this
    {
      Core(maxRequests, maxResponseBytes as int, requests, responseBytes as int, violation)
    }

    ghost predicate Valid()
      reads this
    {
      CoreOk(State())
    }

    constructor (maxRequests: int, maxResponseBytes: Int64)
      requires maxRequests >= 0 && maxResponseBytes >= 0
      ensures Valid() && State() == NewCore(maxRequests, maxResponseBytes as int)
    {
      this.maxRequests, this.maxResponseBytes := maxRequests, maxResponseBytes;
      requests, responseBytes, violation := 0, 0, None;
    }

    method BeginRequest() returns (ok: bool)
      requires Valid()
      modifies this
      ensures Valid() && (State(), ok) == Counted(old(State()))
      ensures ok <==> old(violation).None? && old(requests) < maxRequests
      ensures requests == old(requests) + 1 && responseBytes == old(responseBytes)
      ensures violation == if old(violation).None? && !ok then Some(RequestLimit) else old(violation)
    {
      requests := requests + 1;
      if violation.Some? { return false; }
      if requests > maxRequests {
        Violate(RequestLimit);
        return false;
      }
      ok := true;
    }

    method ObserveContentLength(length: Int64)
      requires Valid()
      modifies this
      ensures Valid() && State() == ContentLength(old(State()), length as int)
      ensures requests == old(requests) && responseBytes == old(responseBytes)
      ensures violation == if old(violation).None? && !(0 <= length <= maxResponseBytes) then Some(ResponseLimit)
                           else old(violation)
    {
      if length < 0 || length > maxResponseBytes { Violate(ResponseLimit); }
    }

    method ObserveFinishedResponse(size: Int64) returns (ok: bool)
      requires Valid()
      modifies this
      ensures Valid() && State() == FinishResponse(old(State()), size as int)
      ensures ok <==> 0 <= size && old(responseBytes) as int + size as int <= maxResponseBytes as int
      ensures responseBytes == old(responseBytes) + (if ok then size else 0) && requests == old(requests)
      ensures violation == if old(violation).None? && !ok then Some(ResponseLimit) else old(violation)
    {
      if size < 0 || size > maxResponseBytes || responseBytes > maxResponseBytes - size {
        Violate(ResponseLimit);
        return false;
      }
      responseBytes := responseBytes + size;
      ok := true;
    }

    method Violate(code: Code)
      modifies this`violation
      ensures State() == Violated(old(State()), code)
      ensures violation == if old(violation).None? then Some(code) else old(violation)
    {
      if violation.None? { violation := Some(code); }
    }
  }
}
