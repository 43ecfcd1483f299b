/** The backpressure send queue behind a named sender: a semaphore of `capacity` permits beside
    an unbounded FIFO of outgoing messages, drained by a forwarding loop that publishes each
    message and only then gives its permit back. */
module NamedSender {
  import opened Common
  import opened Ffi

  /** An entry of the send queue: an optional per-message topic, the copied payload, and
      whether the entry holds one of the sender's permits. */
  datatype QueuedMessage = QueuedMessage(topic: Option<string>, payload: Bytes, permit: bool)

  /** What the forwarding loop hands to the connection's `publish`. */
  datatype Publication = Publication(subject: string, payload: Bytes)

  /** The number of permits held by the entries of `q`. */
  function Held(q: seq<QueuedMessage>): (n: nat)
    ensures n <= |q|
  {
    if q == [] then 0 else (if q[0].permit then 1 else 0) + Held(q[1..])
  }

  /** Appending an entry adds its permit, if it holds one. */
  lemma {:induction false} HeldAppend(q: seq<QueuedMessage>, m: QueuedMessage)
    ensures Held(q + [m]) == Held(q) + (if m.permit then 1 else 0)
  {
    if q == [] {
      assert q + [m] == [m];
    } else {
      assert (q + [m])[1..] == q[1..] + [m];
      HeldAppend(q[1..], m);
    }
  }

  /** The subject an entry is published on: its own topic if it has one, otherwise the
      sender's topic. */
  function Subject(m: QueuedMessage, default: string): (s: string)
    ensures m.topic.None? ==> s == default
    ensures m.topic.Some? ==> s == m.topic.value
  {
    match m.topic
    case Some(t) => t
    case None => default
  }

  /** What publishing the entries of `q`, oldest first, hands to the connection. */
  function Publications(q: seq<QueuedMessage>, default: string): (ps: seq<Publication>)
    ensures |ps| == |q|
    ensures forall i :: 0 <= i < |q| ==> ps[i] == Publication(Subject(q[i], default), q[i].payload)
  {
    if q == [] then [] else [Publication(Subject(q[0], default), q[0].payload)] + Publications(q[1..], default)
  }

  /** Publishing one more entry extends the publications by exactly that entry. */
  lemma PublicationsAppend(q: seq<QueuedMessage>, m: QueuedMessage, default: string)
    ensures Publications(q + [m], default) == Publications(q, default) + [Publication(Subject(m, default), m.payload)]
  {
    var lhs := Publications(q + [m], default);
    var rhs := Publications(q, default) + [Publication(Subject(m, default), m.payload)];
    assert |lhs| == |rhs|;
    forall i | 0 <= i < |lhs| ensures lhs[i] == rhs[i] {
      if i < |q| {
        assert (q + [m])[i] == q[i];
      } else {
        assert (q + [m])[i] == m;
      }
    }
  }

  /** What one `rx.recv()` of the forwarding loop yields: the oldest entry; the end of the
      channel once nothing is queued and no sender of the channel is alive; otherwise nothing
      yet (the loop waits). */
  datatype RecvStep = Next(m: QueuedMessage) | Closed | Wait

  function ChannelRecv(queue: seq<QueuedMessage>, senders: nat): (r: RecvStep)
    ensures r.Next? <==> queue != []
    ensures r == Closed <==> queue == [] && senders == 0
  {
    if queue != [] then Next(queue[0]) else if senders == 0 then Closed else Wait
  }

  /** The strong count of the shared state: one per live handle, plus the clone the spawned
      task keeps for as long as it runs. */
  function Owners(handles: set<NamedSender>, taskAlive: bool): (n: nat)
    ensures n == 0 <==> handles == {} && !taskAlive
  {
    |handles| + (if taskAlive then 1 else 0)
  }

  /** `recv` as written: the channel's only sender lives in the shared state, so it is alive
      exactly while the state has an owner, and the running task is one of them. */
  function RecvAsWritten(queue: seq<QueuedMessage>, handles: set<NamedSender>, taskAlive: bool): RecvStep
  {
    ChannelRecv(queue, if Owners(handles, taskAlive) > 0 then 1 else 0)
  }

  /** As written, the forwarding loop of a running task never sees the end of the channel,
      even after every handle has been deleted and the queue is empty. */
  lemma ForwardingNeverEndsAsWritten(queue: seq<QueuedMessage>, handles: set<NamedSender>)
    ensures RecvAsWritten(queue, handles, true) != Closed
  {
  }

  /** `recv` as intended: the channel ends once the handles are gone and the queue is drained. */
  function Recv(queue: seq<QueuedMessage>, handles: set<NamedSender>): RecvStep
  {
    ChannelRecv(queue, |handles|)
  }

  /** As intended, the loop ends exactly when no handle is left and nothing is queued. */
  lemma ForwardingEndsWhenIdle(queue: seq<QueuedMessage>, handles: set<NamedSender>)
    ensures Recv(queue, handles) == Closed <==> queue == [] && handles == {}
  {
    assert |handles| == 0 <==> handles == {};
  }

  /** The state every clone of a sender shares (`NamedSenderInner`, its channel and the task
      that drains it). */
  class SenderInner {
    /** The sender's own topic. */
    const topic: string
    /** The number of permits the semaphore was created with. */
    const capacity: nat
    /** Permits the semaphore can still hand out. */
    var permits: nat
    /** Entries in the channel, oldest first. */
    var queue: seq<QueuedMessage>
    /** The entry the forwarding loop has received and is publishing. */
    var inFlight: Option<QueuedMessage>
    /** Everything handed to the connection's `publish`, in order. */
    var published: seq<Publication>
    /** The live handles that share this state. */
    var handles: set<NamedSender>
    /** Whether the forwarding task is still alive. */
    var running: bool

    ghost function InFlightPermits(): nat
      reads this
    {
      if inFlight.Some? && inFlight.value.permit then 1 else 0
    }

    /** Every permit is either free or held by exactly one queued or in-flight entry; once the
        task is gone nothing is queued or in flight. */
    ghost predicate Valid()
      reads this
    {
      && permits + Held(queue) + InFlightPermits() == capacity
      && (!running ==> queue == [] && inFlight.None?)
    }

    constructor (topic: string, capacity: nat)
      ensures Valid()
      ensures this.topic == topic && this.capacity == capacity && permits == capacity
      ensures queue == [] && inFlight == None && published == [] && handles == {} && running
    {
      this.topic := topic;
      this.capacity := capacity;
      permits := capacity;
      queue := [];
      inFlight := None;
      published := [];
      handles := {};
      running := true;
    }

    /** `sender.send(message).ok()` on the unbounded channel: the entry is queued while the task
        is alive; otherwise the send fails silently and the entry is dropped with its permit. */
    method Push(m: QueuedMessage)
      requires permits + Held(queue) + InFlightPermits() + (if m.permit then 1 else 0) == capacity
      requires !running ==> queue == [] && inFlight.None?
      modifies `queue, `permits
      ensures Valid()
      ensures running ==> queue == old(queue) + [m] && permits == old(permits)
      ensures !running ==> queue == old(queue) && permits == old(permits) + (if m.permit then 1 else 0)
    {
      if running {
        HeldAppend(queue, m);
        queue := queue + [m];
      } else {
        permits := permits + (if m.permit then 1 else 0);
      }
    }

    /** The loop's `rx.recv()` yielding the oldest entry, which is now in flight. */
    method BeginPublish() returns (m: QueuedMessage)
      requires Valid() && running && inFlight.None? && queue != []
      modifies `queue, `inFlight
      ensures Valid()
      ensures m == old(queue)[0] && queue == old(queue)[1..] && inFlight == Some(m)
    {
      m := queue[0];
      queue := queue[1..];
      inFlight := Some(m);
    }

    /** The end of one loop iteration: the in-flight entry is published on its subject and its
        permit is released only then. If the connection rejects it, `expect` ends the task:
        every queued entry is dropped and all permits are free again. */
    method FinishPublish(accepted: bool)
      requires Valid() && inFlight.Some?
      modifies `published, `permits, `inFlight, `queue, `running
      ensures Valid() && inFlight.None?
      ensures accepted ==> published == old(published) + [Publication(Subject(old(inFlight).value, topic), old(inFlight).value.payload)]
      ensures accepted ==> permits == old(permits) + old(InFlightPermits())
      ensures accepted ==> queue == old(queue) && running == old(running)
      ensures !accepted ==> published == old(published) && queue == [] && !running && permits == capacity
    {
      var m := inFlight.value;
      if accepted {
        published := published + [Publication(Subject(m, topic), m.payload)];
        permits := permits + (if m.permit then 1 else 0);
        inFlight := None;
      } else {
        permits := capacity;
        queue := [];
        inFlight := None;
        running := false;
      }
    }

    /** The forwarding loop as written, with every publish accepted, from one wake-up until
        `recv` has to wait: every queued entry is published in FIFO order on its subject and
        every permit it held is free again. The task's own clone keeps the channel's sender
        alive, so `recv` never reports the end and the task keeps running even when no handle
        is left (`ended` is always false). */
    method Forward() returns (ended: bool)
      requires Valid() && running && inFlight.None?
      modifies `queue, `inFlight, `published, `permits, `running
      ensures Valid() && queue == [] && inFlight.None?
      ensures published == old(published) + Publications(old(queue), topic)
      ensures permits == old(permits) + Held(old(queue)) == capacity
      ensures !ended && running
    {
      ghost var k := 0;
      while true
        invariant Valid() && running && inFlight.None?
        invariant 0 <= k <= |old(queue)| && queue == old(queue)[k..]
        invariant published == old(published) + Publications(old(queue)[..k], topic)
        invariant permits + Held(queue) == old(permits) + Held(old(queue))
        decreases |queue|
      {
        var step := RecvAsWritten(queue, handles, running);
        if step.Next? {
          var m := BeginPublish();
          FinishPublish(true);
          assert old(queue)[..k + 1] == old(queue)[..k] + [m];
          PublicationsAppend(old(queue)[..k], m, topic);
          k := k + 1;
        } else {
          ForwardingNeverEndsAsWritten(queue, handles);
          assert old(queue)[..k] == old(queue);
          return false;
        }
      }
    }

    /** The forwarding loop as intended, with every publish accepted: as `Forward`, but the
        task holds no owner of its own, so once the last handle is gone and the queue is
        drained `recv` reports the end of the channel (`ended` true) and the task stops. */
    method ForwardIntended() returns (ended: bool)
      requires Valid() && running && inFlight.None?
      modifies `queue, `inFlight, `published, `permits, `running
      ensures Valid() && queue == [] && inFlight.None?
      ensures published == old(published) + Publications(old(queue), topic)
      ensures permits == old(permits) + Held(old(queue)) == capacity
      ensures ended == (handles == {}) && running == !ended
    {
      ghost var k := 0;
      while true
        invariant Valid() && running && inFlight.None?
        invariant 0 <= k <= |old(queue)| && queue == old(queue)[k..]
        invariant published == old(published) + Publications(old(queue)[..k], topic)
        invariant permits + Held(queue) == old(permits) + Held(old(queue))
        decreases |queue|
      {
        match Recv(queue, handles)
        case Next(_) =>
          var m := BeginPublish();
          FinishPublish(true);
          assert old(queue)[..k + 1] == old(queue)[..k] + [m];
          PublicationsAppend(old(queue)[..k], m, topic);
          k := k + 1;
        case Closed =>
          ForwardingEndsWhenIdle(queue, handles);
          assert old(queue)[..k] == old(queue);
          running := false;
          return true;
        case Wait =>
          ForwardingEndsWhenIdle(queue, handles);
          assert old(queue)[..k] == old(queue);
          return false;
      }
    }
  }

  /** A boxed sender handle (`AsyncNatsNamedSender`): a reference to the shared state. */
  class NamedSender {
    const inner: SenderInner

    /** `with_capacity`: fresh shared state with every permit free and the forwarding task
        running; this handle is its only owner. */
    constructor WithCapacity(topic: string, capacity: nat)
      ensures fresh(inner) && inner.Valid()
      ensures inner.topic == topic && inner.capacity == capacity && inner.permits == capacity
      ensures inner.queue == [] && inner.inFlight.None? && inner.published == [] && inner.running
      ensures inner.handles == {this}
    {
      inner := new SenderInner(topic, capacity);
      new;
      inner.handles := {this};
    }

    constructor Share(inner: SenderInner)
      ensures this.inner == inner
    {
      this.inner := inner;
    }

    /** `clone`: a new handle to the same queue and permit pool. */
    method Clone() returns (c: NamedSender)
      modifies inner`handles
      ensures fresh(c) && c.inner == inner
      ensures inner.handles == old(inner.handles) + {c}
    {
      c := new NamedSender.Share(inner);
      inner.handles := inner.handles + {c};
    }

    /** `async_nats_named_sender_try_send`: refuses (false, nothing queued) when no permit is
        free; otherwise queues exactly the caller's bytes under the given topic, holding one
        permit, and reports true. */
    method TrySend(topic: Option<string>, data: Bytes) returns (ok: bool)
      requires inner.Valid()
      modifies inner`permits, inner`queue
      ensures inner.Valid()
      ensures ok == (old(inner.permits) > 0)
      ensures ok && inner.running ==>
        inner.queue == old(inner.queue) + [QueuedMessage(topic, data, true)] && inner.permits == old(inner.permits) - 1
      ensures !(ok && inner.running) ==> inner.queue == old(inner.queue) && inner.permits == old(inner.permits)
    {
      if inner.permits == 0 {
        return false;
      }
      inner.permits := inner.permits - 1;
      inner.Push(QueuedMessage(topic, data, true));
      ok := true;
    }

    /** `async_nats_named_sender_send`: always queues exactly the caller's bytes, with a permit
        when one is free and without one otherwise, so the queue may outgrow the capacity. */
    method Send(topic: Option<string>, data: Bytes)
      requires inner.Valid()
      modifies inner`permits, inner`queue
      ensures inner.Valid()
      ensures var m := QueuedMessage(topic, data, old(inner.permits) > 0);
        if inner.running then
          inner.queue == old(inner.queue) + [m] && inner.permits == old(inner.permits) - (if m.permit then 1 else 0)
        else
          inner.queue == old(inner.queue) && inner.permits == old(inner.permits)
    {
      var permit := inner.permits > 0;
      if permit {
        inner.permits := inner.permits - 1;
      }
      inner.Push(QueuedMessage(topic, data, permit));
    }
  }

  /** `async_nats_named_sender_new`: a new handle, boxed and handed out through a pointer. */
  method New(heap: Heap, topic: string, capacity: nat) returns (s: NamedSender)
    modifies heap
    ensures fresh(s) && fresh(s.inner) && s.inner.Valid()
    ensures s.inner.topic == topic && s.inner.capacity == capacity && s.inner.permits == capacity
    ensures s.inner.queue == [] && s.inner.inFlight.None? && s.inner.published == [] && s.inner.running
    ensures s.inner.handles == {s}
    ensures heap.live == old(heap.live) + {s} && heap.log == old(heap.log)
  {
    s := new NamedSender.WithCapacity(topic, capacity);
    heap.Allocate(s);
  }

  /** `async_nats_named_sender_clone` through a pointer: the clone is boxed as well. */
  method CloneBoxed(heap: Heap, s: NamedSender) returns (c: NamedSender)
    modifies heap, s.inner`handles
    ensures fresh(c) && c.inner == s.inner && s.inner.handles == old(s.inner.handles) + {c}
    ensures heap.live == old(heap.live) + {c} && heap.log == old(heap.log)
  {
    c := s.Clone();
    heap.Allocate(c);
  }

  /** `async_nats_named_sender_delete`: drops the box; the shared state loses one owner. */
  method Delete(heap: Heap, s: NamedSender)
    requires s in heap.live
    modifies heap, s.inner`handles
    ensures heap.live == old(heap.live) - {s} && heap.log == old(heap.log)
    ensures s.inner.handles == old(s.inner.handles) - {s}
  {
    heap.Free(s);
    s.inner.handles := s.inner.handles - {s};
  }
}
