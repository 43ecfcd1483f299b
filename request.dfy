/** Requests with a reply: the builder record of optional inbox, timeout and payload that the C
    side fills in, and the dispatch of the engine's answer into the callback's two pointers, of
    which exactly one is non-null. */
module Requests {
  import opened Common
  import opened Ffi
  import opened ErrorKinds

  /** The request handed to the engine's `send_request` (`async_nats::Request`); an absent field
      keeps the engine's own default (a fresh inbox, the client's timeout, an empty payload). */
  datatype OutgoingRequest = OutgoingRequest(inbox: Option<string>, timeoutMillis: Option<u64>, payload: Option<Bytes>)

  /** `async_nats::Request::new()`: nothing set. */
  const Bare: OutgoingRequest := OutgoingRequest(None, None, None)

  /** `AsyncNatsRequest`: the builder record behind a C `AsyncNatsRequest*`. */
  class AsyncRequest {
    var inbox: Option<string>
    /** The timeout, as the exact number of milliseconds the caller passed. */
    var timeoutMillis: Option<u64>
    var payload: Option<Bytes>

    /** `AsyncNatsRequest::default()`: no inbox, no timeout, no payload. */
    constructor ()
      ensures inbox == None && timeoutMillis == None && payload == None
    {
      inbox := None;
      timeoutMillis := None;
      payload := None;
    }

    /** `async_nats_request_inbox`: replaces the inbox and nothing else. */
    method SetInbox(inbox: string)
      modifies `inbox
      ensures this.inbox == Some(inbox)
      ensures timeoutMillis == old(timeoutMillis) && payload == old(payload)
    {
      this.inbox := Some(inbox);
    }

    /** `async_nats_request_timeout`: replaces the timeout by exactly `millis` milliseconds and
        changes nothing else. */
    method SetTimeout(millis: u64)
      modifies `timeoutMillis
      ensures timeoutMillis == Some(millis)
      ensures inbox == old(inbox) && payload == old(payload)
    {
      timeoutMillis := Some(millis);
    }

    /** `async_nats_request_message`: replaces the payload by a copy of the caller's bytes and
        changes nothing else. */
    method SetMessage(data: Bytes)
      modifies `payload
      ensures payload == Some(data)
      ensures inbox == old(inbox) && timeoutMillis == old(timeoutMillis)
    {
      payload := Some(data);
    }

    /** `build`: moves every field that is set into a bare outgoing request and leaves the
        record empty, so the outgoing request carries exactly the fields that were set. */
    method Build() returns (r: OutgoingRequest)
      modifies `inbox, `timeoutMillis, `payload
      ensures r.inbox == old(inbox) && r.timeoutMillis == old(timeoutMillis) && r.payload == old(payload)
      ensures inbox == None && timeoutMillis == None && payload == None
    {
      r := Bare;
      if inbox.Some? {
        r := r.(inbox := inbox);
        inbox := None;
      }
      if timeoutMillis.Some? {
        r := r.(timeoutMillis := timeoutMillis);
        timeoutMillis := None;
      }
      if payload.Some? {
        r := r.(payload := payload);
        payload := None;
      }
    }
  }

  /** Building twice: the second build yields a bare request, whatever the first one carried. */
  method BuildTwice(req: AsyncRequest) returns (first: OutgoingRequest, second: OutgoingRequest)
    modifies req
    ensures first == OutgoingRequest(old(req.inbox), old(req.timeoutMillis), old(req.payload))
    ensures second == Bare
  {
    first := req.Build();
    second := req.Build();
  }

  /** `async_nats_request_new`: a boxed empty record handed out through a pointer. */
  method NewRequest(heap: Heap) returns (r: AsyncRequest)
    modifies heap
    ensures fresh(r) && r.inbox == None && r.timeoutMillis == None && r.payload == None
    ensures heap.live == old(heap.live) + {r} && heap.log == old(heap.log)
  {
    r := new AsyncRequest();
    heap.Allocate(r);
  }

  /** `async_nats_request_delete`: drops the box. */
  method DeleteRequest(heap: Heap, r: AsyncRequest)
    requires r in heap.live
    modifies heap
    ensures heap.live == old(heap.live) - {r} && heap.log == old(heap.log)
  {
    heap.Free(r);
  }

  /** A library request error as the engine reports it: its kind and its display text. */
  datatype RequestFailure = RequestFailure(kind: RequestErrorKind, description: string)

  /** The engine's answer to a request: the reply message, or an error. */
  datatype Response = Replied(msg: Message) | Failed(failure: RequestFailure)

  /** What the callback's two pointers point to: a message, an error, or nothing (null). */
  datatype CallbackArgs = CallbackArgs(msg: Option<Message>, err: Option<RequestFailure>)

  /** The callback arguments of a well-formed completion: exactly one pointer is non-null. */
  predicate ExactlyOne(a: CallbackArgs)
  {
    a.msg.Some? != a.err.Some?
  }

  /** The `match response` of both request functions: a reply becomes a message and a null
      error, an error becomes a null message and the error. */
  function Dispatch(r: Response): (a: CallbackArgs)
    ensures ExactlyOne(a)
    ensures r.Replied? ==> a.msg == Some(r.msg)
    ensures r.Failed? ==> a.err == Some(r.failure)
  {
    match r
    case Replied(m) => CallbackArgs(Some(m), None)
    case Failed(f) => CallbackArgs(None, Some(f))
  }

  /** What a callback can tell about the engine's answer from its two pointers. */
  function ResponseOf(a: CallbackArgs): (r: Response)
    requires ExactlyOne(a)
    ensures a.msg.Some? ==> r == Replied(a.msg.value)
    ensures a.err.Some? ==> r == Failed(a.err.value)
  {
    if a.msg.Some? then Replied(a.msg.value) else Failed(a.err.value)
  }

  /** Dispatch loses nothing: the callback recovers the engine's answer exactly, and every
      well-formed pair of callback arguments is the dispatch of one answer. */
  lemma DispatchRoundTrip(r: Response, a: CallbackArgs)
    ensures ResponseOf(Dispatch(r)) == r
    ensures ExactlyOne(a) ==> Dispatch(ResponseOf(a)) == a
  {
  }

  /** One completion, as the callback receives it: the reply message (a value here), or a newly
      boxed error that is live from now on and belongs to the callback. */
  method Deliver(heap: Heap, r: Response) returns (msg: Option<Message>, err: ErrorObj?<RequestErrorKind>)
    modifies heap
    ensures msg == Dispatch(r).msg
    ensures (err != null) == Dispatch(r).err.Some?
    ensures err != null ==> fresh(err) && err.kind == r.failure.kind && err.description == r.failure.description
    ensures heap.live == old(heap.live) + (if err == null then {} else {err}) && heap.log == old(heap.log)
  {
    var a := Dispatch(r);
    msg := a.msg;
    err := null;
    if a.err.Some? {
      err := new ErrorObj(a.err.value.kind, a.err.value.description);
      heap.Allocate(err);
    }
  }

  /** `async_nats_connection_request_async`, from start to callback: the spawned task copies
      the caller's borrowed buffer, whose contents at that moment are `data`, hands the copy to
      the engine's `request`, and `response` is the engine's answer to it. `sent` is the payload
      handed to the engine; that it equals `data` holds only by this abstraction, which takes
      `data` to be the buffer as the task reads it. */
  method RequestAsync(heap: Heap, data: Bytes, response: Response)
    returns (sent: Bytes, msg: Option<Message>, err: ErrorObj?<RequestErrorKind>)
    modifies heap
    ensures sent == data
    ensures ExactlyOne(CallbackArgs(msg, if err == null then None else Some(RequestFailure(err.kind, err.description))))
    ensures msg == Dispatch(response).msg && (err != null) == response.Failed?
    ensures err != null ==> fresh(err) && err.kind == response.failure.kind && err.description == response.failure.description
    ensures heap.live == old(heap.live) + (if err == null then {} else {err}) && heap.log == old(heap.log)
  {
    sent := data;
    msg, err := Deliver(heap, response);
  }

  /** `async_nats_connection_send_request_async`, from start to callback: takes the request box
      (the pointer is no longer live), builds the outgoing request from it, and `response` is
      the engine's answer to that request. */
  method SendRequestAsync(heap: Heap, request: AsyncRequest, response: Response)
    returns (sent: OutgoingRequest, msg: Option<Message>, err: ErrorObj?<RequestErrorKind>)
    requires request in heap.live
    modifies heap, request
    ensures sent == OutgoingRequest(old(request.inbox), old(request.timeoutMillis), old(request.payload))
    ensures msg == Dispatch(response).msg && (err != null) == response.Failed?
    ensures err != null ==> fresh(err) && err.kind == response.failure.kind && err.description == response.failure.description
    ensures heap.live == old(heap.live) - {request} + (if err == null then {} else {err})
    ensures heap.log == old(heap.log)
  {
    heap.Free(request);
    sent := request.Build();
    msg, err := Deliver(heap, response);
  }
}
