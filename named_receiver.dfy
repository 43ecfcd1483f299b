/** The bounded receive buffer behind a named receiver: a task moves messages from a subscription
    into a buffer of fixed capacity, dropping those that arrive while it is full, and every
    clone of the receiver takes messages out of the one shared buffer. */
module NamedReceiver {
  import opened Common
  import opened Ffi
  import opened Engine

  /** The forwarding task's `try_send` of one message: kept if there is room, dropped otherwise. */
  function Offer(buffer: seq<Message>, m: Message, capacity: nat): (r: seq<Message>)
    ensures |buffer| < capacity ==> r == buffer + [m]
    ensures |buffer| >= capacity ==> r == buffer
  {
    if |buffer| < capacity then buffer + [m] else buffer
  }

  /** The buffer after the task has offered every message of `stream`, oldest first. */
  function Admit(buffer: seq<Message>, stream: seq<Message>, capacity: nat): seq<Message>
    decreases |stream|
  {
    if stream == [] then buffer
    else Offer(Admit(buffer, stream[..|stream| - 1], capacity), stream[|stream| - 1], capacity)
  }

  function Min(a: int, b: int): int
  {
    if a <= b then a else b
  }

  /** Starting from a buffer within capacity, the task keeps the oldest messages of the stream
      that fit and drops every later one, never waiting for room. */
  lemma {:induction false} AdmitKeepsOldest(buffer: seq<Message>, stream: seq<Message>, capacity: nat)
    requires |buffer| <= capacity
    ensures Admit(buffer, stream, capacity) == buffer + stream[..Min(capacity - |buffer|, |stream|)]
    decreases |stream|
  {
    if stream != [] {
      var init := stream[..|stream| - 1];
      AdmitKeepsOldest(buffer, init, capacity);
      var kept := Min(capacity - |buffer|, |init|);
      if kept < |init| {
        assert init[..kept] == stream[..kept];
      } else {
        assert init[..kept] == init;
        if |buffer| + |init| < capacity {
          assert stream == init + [stream[|stream| - 1]];
        } else {
          assert init == stream[..Min(capacity - |buffer|, |stream|)];
        }
      }
    }
  }

  /** The buffer never holds more than its capacity. */
  lemma {:induction false} AdmitWithinCapacity(buffer: seq<Message>, stream: seq<Message>, capacity: nat)
    requires |buffer| <= capacity
    ensures |Admit(buffer, stream, capacity)| <= capacity
  {
    AdmitKeepsOldest(buffer, stream, capacity);
  }

  /** With nothing consumed yet, the first `capacity` messages forwarded (or all of them, if
      fewer) are all in the buffer, in order. */
  lemma {:induction false} AdmitFromEmpty(stream: seq<Message>, capacity: nat)
    ensures Admit([], stream, capacity) == stream[..Min(capacity, |stream|)]
  {
    AdmitKeepsOldest([], stream, capacity);
    assert [] + stream[..Min(capacity, |stream|)] == stream[..Min(capacity, |stream|)];
  }

  /** The bounded channel every clone of a receiver shares, with the task that fills it. */
  class BoundedChannel {
    /** The subscription the forwarding task consumes. */
    const source: SubscriptionObj
    /** The channel's capacity. */
    const capacity: nat
    /** Buffered messages, oldest first. */
    var buffer: seq<Message>
    /** Whether the forwarding task, the channel's only sender, is still alive. */
    var connected: bool
    /** The live receiver handles on this channel. */
    var receivers: set<NamedReceiver>

    ghost predicate Valid()
      reads this
    {
      |buffer| <= capacity
    }

    constructor (source: SubscriptionObj, capacity: nat)
      ensures Valid()
      ensures this.source == source && this.capacity == capacity
      ensures buffer == [] && connected && receivers == {}
    {
      this.source := source;
      this.capacity := capacity;
      buffer := [];
      connected := true;
      receivers := {};
    }

    /** The forwarding loop from one wake-up until the subscription has nothing more for now:
        each message popped is offered to the buffer (dropped when it is full, or when no
        receiver is left to disconnect the channel), and when the subscription yields no
        message the task returns and the channel is disconnected. */
    method Forward()
      requires Valid() && connected
      modifies `buffer, `connected, source`pending
      ensures Valid()
      ensures source.pending == []
      ensures buffer == (if receivers == {} then old(buffer) else Admit(old(buffer), old(source.pending), capacity))
      ensures connected == source.open
    {
      ghost var k := 0;
      while true
        invariant Valid() && connected
        invariant 0 <= k <= |old(source.pending)| && source.pending == old(source.pending)[k..]
        invariant buffer == (if receivers == {} then old(buffer) else Admit(old(buffer), old(source.pending)[..k], capacity))
        decreases |source.pending|
      {
        var next := source.Pop();
        match next
        case Pending =>
          assert old(source.pending)[..k] == old(source.pending);
          return;
        case Ready(None) =>
          assert old(source.pending)[..k] == old(source.pending);
          connected := false;
          return;
        case Ready(Some(m)) =>
          assert old(source.pending)[..k + 1][..k] == old(source.pending)[..k];
          if receivers != {} {
            buffer := Offer(buffer, m, capacity);
          }
          k := k + 1;
      }
    }
  }

  /** A boxed receiver handle (`AsyncNatsNamedReceiver`): a reference to the shared channel. */
  class NamedReceiver {
    const chan: BoundedChannel

    /** `AsyncNatsNamedReceiver::new`: a channel of `capacity` fed from `source`; this handle is
        its only receiver. */
    constructor (source: SubscriptionObj, capacity: nat)
      ensures fresh(chan) && chan.Valid()
      ensures chan.source == source && chan.capacity == capacity
      ensures chan.buffer == [] && chan.connected && chan.receivers == {this}
    {
      chan := new BoundedChannel(source, capacity);
      new;
      chan.receivers := {this};
    }

    constructor Share(chan: BoundedChannel)
      ensures this.chan == chan
    {
      this.chan := chan;
    }

    /** `clone`: a new handle on the same buffer. */
    method Clone() returns (c: NamedReceiver)
      modifies chan`receivers
      ensures fresh(c) && c.chan == chan
      ensures chan.receivers == old(chan.receivers) + {c}
    {
      c := new NamedReceiver.Share(chan);
      chan.receivers := chan.receivers + {c};
    }

    /** `async_nats_named_receiver_try_recv`: the oldest buffered message, removed from the
        buffer; an empty result, without waiting, when nothing is buffered. */
    method TryRecv() returns (m: Option<Message>)
      modifies chan`buffer
      ensures old(chan.Valid()) ==> chan.Valid()
      ensures old(chan.buffer) == [] ==> m == None && chan.buffer == []
      ensures old(chan.buffer) != [] ==> m == Some(old(chan.buffer)[0]) && chan.buffer == old(chan.buffer)[1..]
    {
      if chan.buffer == [] {
        return None;
      }
      m := Some(chan.buffer[0]);
      chan.buffer := chan.buffer[1..];
    }

    /** `async_nats_named_receiver_recv`: the oldest buffered message, removed from the buffer;
        when nothing is buffered, the caller waits while the forwarding task is alive and gets
        an empty result once it has gone. */
    method Recv() returns (r: Poll<Option<Message>>)
      modifies chan`buffer
      ensures old(chan.Valid()) ==> chan.Valid()
      ensures old(chan.buffer) != [] ==> r == Ready(Some(old(chan.buffer)[0])) && chan.buffer == old(chan.buffer)[1..]
      ensures old(chan.buffer) == [] ==> chan.buffer == [] && r == (if chan.connected then Pending else Ready(None))
    {
      if chan.buffer != [] {
        r := Ready(Some(chan.buffer[0]));
        chan.buffer := chan.buffer[1..];
      } else if chan.connected {
        r := Pending;
      } else {
        r := Ready(None);
      }
    }
  }

  /** Two handles on one channel compete: whatever the buffer holds, a message taken through
      one is gone for the other, which gets the next one or nothing. */
  method CompetingReceivers(a: NamedReceiver, b: NamedReceiver) returns (x: Option<Message>, y: Option<Message>)
    requires a.chan == b.chan
    modifies a.chan`buffer
    ensures old(a.chan.buffer) == [] ==> x == None && y == None && a.chan.buffer == []
    ensures |old(a.chan.buffer)| == 1 ==> x == Some(old(a.chan.buffer)[0]) && y == None && a.chan.buffer == []
    ensures |old(a.chan.buffer)| >= 2 ==>
      && x == Some(old(a.chan.buffer)[0]) && y == Some(old(a.chan.buffer)[1])
      && a.chan.buffer == old(a.chan.buffer)[2..]
  {
    x := a.TryRecv();
    y := b.TryRecv();
  }

  /** `async_nats_named_receiver_new`: takes the subscription's box (the pointer is no longer
      live) and moves the subscription into the forwarding task of a new boxed receiver. */
  method New(heap: Heap, s: SubscriptionObj, capacity: nat) returns (r: NamedReceiver)
    requires s in heap.live
    modifies heap
    ensures fresh(r) && fresh(r.chan) && r.chan.Valid()
    ensures r.chan.source == s && r.chan.capacity == capacity
    ensures r.chan.buffer == [] && r.chan.connected && r.chan.receivers == {r}
    ensures heap.live == old(heap.live) - {s} + {r} && heap.log == old(heap.log)
  {
    heap.Free(s);
    r := new NamedReceiver(s, capacity);
    heap.Allocate(r);
  }

  /** `async_nats_named_receiver_clone` through a pointer: the clone is boxed as well. */
  method CloneBoxed(heap: Heap, r: NamedReceiver) returns (c: NamedReceiver)
    modifies heap, r.chan`receivers
    ensures fresh(c) && c.chan == r.chan && r.chan.receivers == old(r.chan.receivers) + {c}
    ensures heap.live == old(heap.live) + {c} && heap.log == old(heap.log)
  {
    c := r.Clone();
    heap.Allocate(c);
  }

  /** `async_nats_named_receiver_delete`: drops the box; the channel loses one receiver. */
  method Delete(heap: Heap, r: NamedReceiver)
    requires r in heap.live
    modifies heap, r.chan`receivers
    ensures heap.live == old(heap.live) - {r} && heap.log == old(heap.log)
    ensures r.chan.receivers == old(r.chan.receivers) - {r}
  {
    heap.Free(r);
    r.chan.receivers := r.chan.receivers - {r};
  }
}
