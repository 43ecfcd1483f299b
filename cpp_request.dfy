/** The C++ `Request` handle: a move-only owner of one boxed request record, with chaining
    setters and a timeout given as a `steady_clock` duration. */
module CppRequest {
  import opened Common
  import opened Ffi
  import opened Requests

  /** A signed 64-bit count, the representation of `std::chrono::steady_clock::duration`. */
  type i64 = x: int | -0x8000_0000_0000_0000 <= x < 0x8000_0000_0000_0000

  /** `steady_clock` ticks are nanoseconds. */
  const NANOS_PER_MILLI: int := 1_000_000

  /** `duration_cast<milliseconds>`: the whole milliseconds of a nanosecond count, rounded
      toward zero like C++ integer division. */
  function TruncateToMillis(nanos: i64): (ms: int)
    ensures 0 <= nanos ==> 0 <= ms && ms * NANOS_PER_MILLI <= nanos < (ms + 1) * NANOS_PER_MILLI
    ensures nanos < 0 ==> ms <= 0 && (ms - 1) * NANOS_PER_MILLI < nanos <= ms * NANOS_PER_MILLI
  {
    if nanos >= 0 then nanos / NANOS_PER_MILLI else -((-(nanos as int)) / NANOS_PER_MILLI)
  }

  /** `timeout` as written: the truncated count goes through `static_cast<uint64_t>`, which
      wraps a negative count around modulo 2^64. */
  function TimeoutMillisAsWritten(nanos: i64): (ms: u64)
    ensures (ms - TruncateToMillis(nanos)) % U64_MODULUS == 0
  {
    TruncateToMillis(nanos) % U64_MODULUS
  }

  /** As written, a duration that is already over by a millisecond or more (a deadline in the
      past) becomes a timeout longer than the one any non-negative duration gives. */
  lemma ExpiredTimeoutOutlastsAnyAsWritten(expired: i64, positive: i64)
    requires expired <= -NANOS_PER_MILLI && 0 <= positive
    ensures TimeoutMillisAsWritten(expired) > TimeoutMillisAsWritten(positive)
  {
    var k := (-(expired as int)) / NANOS_PER_MILLI;
    assert 1 <= k <= 0x8000_0000_0000_0000 / NANOS_PER_MILLI;
    assert TruncateToMillis(expired) == -k;
    assert TimeoutMillisAsWritten(expired) == U64_MODULUS - k;
    assert TimeoutMillisAsWritten(positive) == positive / NANOS_PER_MILLI <= 0x8000_0000_0000_0000 / NANOS_PER_MILLI;
  }

  /** `timeout` as intended: the duration in whole milliseconds, rounded down, and no time at
      all for a duration that is already over. */
  function TimeoutMillis(nanos: i64): (ms: u64)
    ensures nanos < 0 ==> ms == 0
    ensures 0 <= nanos ==> ms * NANOS_PER_MILLI <= nanos < (ms + 1) * NANOS_PER_MILLI
  {
    if nanos < 0 then 0 else TruncateToMillis(nanos)
  }

  /** A longer duration never gives a shorter timeout. */
  lemma TimeoutMillisMonotone(a: i64, b: i64)
    requires a <= b
    ensures TimeoutMillis(a) <= TimeoutMillis(b)
  {
    if 0 <= a {
      assert TimeoutMillis(a) * NANOS_PER_MILLI <= b < (TimeoutMillis(b) + 1) * NANOS_PER_MILLI;
    }
  }

  /** On every duration that is not over, the intended timeout is the one the code computes. */
  lemma TimeoutMillisAgreesWhenNotOver(nanos: i64)
    requires 0 <= nanos
    ensures TimeoutMillis(nanos) == TimeoutMillisAsWritten(nanos)
  {
    assert 0 <= TruncateToMillis(nanos) <= nanos < U64_MODULUS;
  }

  /** `Request`: owns the boxed record `request` when non-null. */
  class Request {
    var request: AsyncRequest?

    /** The handle owns a live box, if any. */
    ghost predicate Valid(heap: Heap)
      reads this, heap
    {
      request != null ==> request in heap.live
    }

    /** `Request()`: a new box with no inbox, no timeout and no payload. */
    constructor (heap: Heap)
      modifies heap
      ensures request != null && fresh(request) && Valid(heap)
      ensures request.inbox == None && request.timeoutMillis == None && request.payload == None
      ensures heap.live == old(heap.live) + {request} && heap.log == old(heap.log)
    {
      var r := NewRequest(heap);
      request := r;
    }

    /** `Request(Request&&)`: takes the other handle's box and empties it. */
    constructor MoveFrom(o: Request)
      modifies o`request
      ensures request == old(o.request) && o.request == null
    {
      request := o.request;
      new;
      o.request := null;
    }

    /** `~Request`: deletes the box only when there is one. */
    method Destroy(heap: Heap)
      requires Valid(heap)
      modifies heap
      ensures request != null ==> heap.live == old(heap.live) - {request}
      ensures request == null ==> heap.live == old(heap.live)
      ensures heap.log == old(heap.log)
    {
      if request != null {
        DeleteRequest(heap, request);
      }
    }

    /** `operator=(Request&&)`: self-assignment changes nothing; otherwise the old box (if any)
        is deleted first, then the other handle's box is taken and that handle emptied. */
    method MoveAssign(heap: Heap, o: Request) returns (self: Request)
      requires Valid(heap) && o.Valid(heap)
      requires this != o && request != null ==> request != o.request
      modifies heap, `request, o`request
      ensures self == this
      ensures this == o ==> request == old(request) && heap.live == old(heap.live)
      ensures this != o ==> request == old(o.request) && o.request == null && Valid(heap)
      ensures this != o && old(request) != null ==> heap.live == old(heap.live) - {old(request)}
      ensures this != o && old(request) == null ==> heap.live == old(heap.live)
      ensures heap.log == old(heap.log)
    {
      self := this;
      if this == o {
        return;
      }
      if request != null {
        DeleteRequest(heap, request);
      }
      request := o.request;
      o.request := null;
    }

    /** `inbox`: sets the inbox of the box and returns this same handle. */
    method Inbox(inbox: string) returns (self: Request)
      requires request != null
      modifies request`inbox
      ensures self == this && request.inbox == Some(inbox)
    {
      request.SetInbox(inbox);
      self := this;
    }

    /** `data`: sets the payload to a copy of the buffer and returns this same handle. */
    method Data(data: Bytes) returns (self: Request)
      requires request != null
      modifies request`payload
      ensures self == this && request.payload == Some(data)
    {
      request.SetMessage(data);
      self := this;
    }

    /** `timeout`: sets the timeout to the duration's truncated millisecond count cast to
        `uint64_t`, which wraps a duration that is over, and returns this same handle. On a
        duration that is not over this is the duration in whole milliseconds. */
    method Timeout(nanos: i64) returns (self: Request)
      requires request != null
      modifies request`timeoutMillis
      ensures self == this && request.timeoutMillis == Some(TimeoutMillisAsWritten(nanos))
      ensures 0 <= nanos ==> request.timeoutMillis == Some(TimeoutMillis(nanos))
    {
      if 0 <= nanos {
        TimeoutMillisAgreesWhenNotOver(nanos);
      }
      request.SetTimeout(TimeoutMillisAsWritten(nanos));
      self := this;
    }

    /** `timeout` as intended: a duration that is over gives no time at all. */
    method TimeoutIntended(nanos: i64) returns (self: Request)
      requires request != null
      modifies request`timeoutMillis
      ensures self == this && request.timeoutMillis == Some(TimeoutMillis(nanos))
      ensures nanos < 0 ==> request.timeoutMillis == Some(0)
    {
      request.SetTimeout(TimeoutMillis(nanos));
      self := this;
    }

    /** `release`: hands the box over to the caller and leaves the handle empty. */
    method Release() returns (r: AsyncRequest?)
      modifies `request
      ensures r == old(request) && request == null
    {
      r := request;
      request := null;
    }
  }
}
