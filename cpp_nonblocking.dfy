/** The C++ `nonblocking::Sender` and `nonblocking::Receiver` handles: copyable owners of one
    boxed named sender or receiver each, whose copies share the queue or buffer behind them. */
module CppNonblocking {
  import opened Common
  import opened Ffi
  import NamedSender
  import NamedReceiver
  import opened CppSubscription
  import opened CppConnection

  /** The capacity of a sender constructed without one. */
  const DEFAULT_SEND_CAPACITY: nat := 128

  /** The capacity of a receiver constructed without one. */
  const DEFAULT_RECEIVE_CAPACITY: nat := 1024

  // ---------------------------------------------------------------------------------------
  // Sender

  /** `Sender`: owns the boxed named sender `sender` when non-null. */
  class Sender {
    var sender: NamedSender.NamedSender?

    ghost predicate Valid(heap: Heap)
      reads this, heap
    {
      sender != null ==> sender in heap.live
    }

    /** The constructors with a capacity: a new boxed sender on `topic`, whose queue has exactly
        `capacity` permits and publishes through `conn`. */
    constructor (heap: Heap, topic: string, conn: Connection, capacity: nat)
      requires conn.conn != null
      modifies heap
      ensures sender != null && fresh(sender) && fresh(sender.inner) && sender.inner.Valid() && Valid(heap)
      ensures sender.inner.topic == topic && sender.inner.capacity == capacity && sender.inner.permits == capacity
      ensures sender.inner.queue == [] && sender.inner.running && sender.inner.handles == {sender}
      ensures heap.live == old(heap.live) + {sender} && heap.log == old(heap.log)
    {
      var s := NamedSender.New(heap, topic, capacity);
      sender := s;
    }

    /** The constructors without a capacity: as above, with 128 permits. */
    constructor WithDefaultCapacity(heap: Heap, topic: string, conn: Connection)
      requires conn.conn != null
      modifies heap
      ensures sender != null && fresh(sender) && fresh(sender.inner) && sender.inner.Valid() && Valid(heap)
      ensures sender.inner.topic == topic && sender.inner.capacity == DEFAULT_SEND_CAPACITY
      ensures sender.inner.permits == DEFAULT_SEND_CAPACITY
      ensures sender.inner.queue == [] && sender.inner.running && sender.inner.handles == {sender}
      ensures heap.live == old(heap.live) + {sender} && heap.log == old(heap.log)
    {
      var s := NamedSender.New(heap, topic, DEFAULT_SEND_CAPACITY);
      sender := s;
    }

    /** The copy constructor: a new boxed handle on the same queue and permit pool. */
    constructor CopyFrom(heap: Heap, o: Sender)
      requires o.sender != null
      modifies heap, o.sender.inner`handles
      ensures sender != null && fresh(sender) && sender.inner == o.sender.inner && Valid(heap)
      ensures o.sender.inner.handles == old(o.sender.inner.handles) + {sender}
      ensures heap.live == old(heap.live) + {sender} && heap.log == old(heap.log)
    {
      var c := NamedSender.CloneBoxed(heap, o.sender);
      sender := c;
    }

    /** The move constructor: takes the other handle's box and empties it. */
    constructor MoveFrom(o: Sender)
      modifies o`sender
      ensures sender == old(o.sender) && o.sender == null
    {
      sender := o.sender;
      new;
      o.sender := null;
    }

    /** `~Sender`: deletes the box only when there is one; the queue loses one owner. */
    method Destroy(heap: Heap)
      requires Valid(heap)
      modifies heap, (if sender != null then {sender.inner} else {})`handles
      ensures sender != null ==> heap.live == old(heap.live) - {sender}
      ensures sender != null ==> sender.inner.handles == old(sender.inner.handles) - {sender}
      ensures sender == null ==> heap.live == old(heap.live)
      ensures heap.log == old(heap.log)
    {
      if sender != null {
        NamedSender.Delete(heap, sender);
      }
    }

    /** The copy assignment: self-assignment changes nothing; otherwise the old box (if any) is
        deleted first, then a new boxed handle on the other's queue is taken. */
    method CopyAssign(heap: Heap, o: Sender) returns (self: Sender)
      requires Valid(heap) && (this != o ==> o.sender != null && (sender != null ==> sender != o.sender))
      modifies heap, `sender
      modifies (if sender != null then {sender.inner} else {})`handles, (if o.sender != null then {o.sender.inner} else {})`handles
      ensures self == this
      ensures this == o ==> sender == old(sender) && heap.live == old(heap.live)
      ensures this != o ==> sender != null && fresh(sender) && sender.inner == o.sender.inner && Valid(heap)
      ensures this != o && old(sender) == null ==> o.sender.inner.handles == old(o.sender.inner.handles) + {sender}
      ensures this != o && old(sender) != null && old(sender).inner == o.sender.inner ==>
        o.sender.inner.handles == old(o.sender.inner.handles) - {old(sender)} + {sender}
      ensures this != o && old(sender) != null && old(sender).inner != o.sender.inner ==>
        && old(sender).inner.handles == old(sender.inner.handles) - {old(sender)}
        && o.sender.inner.handles == old(o.sender.inner.handles) + {sender}
      ensures this != o ==> heap.live == old(heap.live) - (if old(sender) == null then {} else {old(sender)}) + {sender}
      ensures heap.log == old(heap.log)
    {
      self := this;
      if this == o {
        return;
      }
      if sender != null {
        NamedSender.Delete(heap, sender);
      }
      var c := NamedSender.CloneBoxed(heap, o.sender);
      sender := c;
    }

    /** The move assignment: self-assignment changes nothing; otherwise the old box (if any) is
        deleted first, then the other handle's box is taken and that handle emptied. */
    method MoveAssign(heap: Heap, o: Sender) returns (self: Sender)
      requires Valid(heap) && o.Valid(heap) && (this != o && sender != null ==> sender != o.sender)
      modifies heap, `sender, o`sender, (if sender != null then {sender.inner} else {})`handles
      ensures self == this
      ensures this == o ==> sender == old(sender) && heap.live == old(heap.live)
      ensures this != o ==> sender == old(o.sender) && o.sender == null && Valid(heap)
      ensures this != o && old(sender) != null ==> old(sender).inner.handles == old(sender.inner.handles) - {old(sender)}
      ensures this != o ==> heap.live == old(heap.live) - (if old(sender) == null then {} else {old(sender)})
      ensures heap.log == old(heap.log)
    {
      self := this;
      if this == o {
        return;
      }
      if sender != null {
        NamedSender.Delete(heap, sender);
      }
      sender := o.sender;
      o.sender := null;
    }

    /** `try_send(data)`: a null topic, so the message goes to the sender's own topic; true
        exactly when a permit was free. */
    method TrySend(data: Bytes) returns (ok: bool)
      requires sender != null && sender.inner.Valid()
      modifies sender.inner`permits, sender.inner`queue
      ensures sender.inner.Valid() && ok == (old(sender.inner.permits) > 0)
      ensures ok && sender.inner.running ==>
        sender.inner.queue == old(sender.inner.queue) + [NamedSender.QueuedMessage(None, data, true)]
      ensures !(ok && sender.inner.running) ==> sender.inner.queue == old(sender.inner.queue)
    {
      ok := sender.TrySend(None, data);
    }

    /** `try_send(topic, data)`: the given topic, for this message only; true exactly when a
        permit was free. */
    method TrySendTo(topic: string, data: Bytes) returns (ok: bool)
      requires sender != null && sender.inner.Valid()
      modifies sender.inner`permits, sender.inner`queue
      ensures sender.inner.Valid() && ok == (old(sender.inner.permits) > 0)
      ensures ok && sender.inner.running ==>
        sender.inner.queue == old(sender.inner.queue) + [NamedSender.QueuedMessage(Some(topic), data, true)]
      ensures !(ok && sender.inner.running) ==> sender.inner.queue == old(sender.inner.queue)
    {
      ok := sender.TrySend(Some(topic), data);
    }

    /** `send(data)`: a null topic; always queued (while the forwarding task lives), with a
        permit only if one was free, so the queue is not bounded by the capacity. */
    method Send(data: Bytes)
      requires sender != null && sender.inner.Valid()
      modifies sender.inner`permits, sender.inner`queue
      ensures sender.inner.Valid()
      ensures sender.inner.running ==>
        sender.inner.queue == old(sender.inner.queue) + [NamedSender.QueuedMessage(None, data, old(sender.inner.permits) > 0)]
      ensures !sender.inner.running ==> sender.inner.queue == old(sender.inner.queue) && sender.inner.permits == old(sender.inner.permits)
    {
      sender.Send(None, data);
    }

    /** `send(topic, data)`: the given topic, for this message only; otherwise as `send(data)`. */
    method SendTo(topic: string, data: Bytes)
      requires sender != null && sender.inner.Valid()
      modifies sender.inner`permits, sender.inner`queue
      ensures sender.inner.Valid()
      ensures sender.inner.running ==>
        sender.inner.queue == old(sender.inner.queue) + [NamedSender.QueuedMessage(Some(topic), data, old(sender.inner.permits) > 0)]
      ensures !sender.inner.running ==> sender.inner.queue == old(sender.inner.queue) && sender.inner.permits == old(sender.inner.permits)
    {
      sender.Send(Some(topic), data);
    }
  }

  /** Publishing what `try_send(data)` queued uses the sender's own topic; what
      `try_send(topic, data)` queued uses the given one. */
  lemma TopicSelection(own: string, topic: string, data: Bytes, permit: bool)
    ensures NamedSender.Subject(NamedSender.QueuedMessage(None, data, permit), own) == own
    ensures NamedSender.Subject(NamedSender.QueuedMessage(Some(topic), data, permit), own) == topic
  {
  }

  // ---------------------------------------------------------------------------------------
  // Receiver

  /** `Receiver`: owns the boxed named receiver `receiver` when non-null. */
  class Receiver {
    var receiver: NamedReceiver.NamedReceiver?

    ghost predicate Valid(heap: Heap)
      reads this, heap
    {
      receiver != null ==> receiver in heap.live
    }

    /** `Receiver(Subscribtion&&, capacity)`: takes the subscription's box with `release_raw`,
        leaving the subscription empty, and moves it into a new boxed receiver whose buffer
        holds at most `capacity` messages. */
    constructor (heap: Heap, sub: Subscribtion, capacity: nat)
      requires sub.sub != null && sub.sub in heap.live
      modifies heap, sub`sub
      ensures sub.sub == null
      ensures receiver != null && fresh(receiver) && fresh(receiver.chan) && receiver.chan.Valid() && Valid(heap)
      ensures receiver.chan.source == old(sub.sub) && receiver.chan.capacity == capacity
      ensures receiver.chan.buffer == [] && receiver.chan.connected && receiver.chan.receivers == {receiver}
      ensures heap.live == old(heap.live) - {old(sub.sub)} + {receiver} && heap.log == old(heap.log)
    {
      var raw := sub.ReleaseRaw();
      var r := NamedReceiver.New(heap, raw, capacity);
      receiver := r;
    }

    /** `Receiver(Subscribtion&&)`: as above, with a capacity of 1024. */
    constructor WithDefaultCapacity(heap: Heap, sub: Subscribtion)
      requires sub.sub != null && sub.sub in heap.live
      modifies heap, sub`sub
      ensures sub.sub == null
      ensures receiver != null && fresh(receiver) && fresh(receiver.chan) && receiver.chan.Valid() && Valid(heap)
      ensures receiver.chan.source == old(sub.sub) && receiver.chan.capacity == DEFAULT_RECEIVE_CAPACITY
      ensures receiver.chan.buffer == [] && receiver.chan.connected && receiver.chan.receivers == {receiver}
      ensures heap.live == old(heap.live) - {old(sub.sub)} + {receiver} && heap.log == old(heap.log)
    {
      var raw := sub.ReleaseRaw();
      var r := NamedReceiver.New(heap, raw, DEFAULT_RECEIVE_CAPACITY);
      receiver := r;
    }

    /** The copy constructor: a new boxed handle on the same buffer. */
    constructor CopyFrom(heap: Heap, o: Receiver)
      requires o.receiver != null
      modifies heap, o.receiver.chan`receivers
      ensures receiver != null && fresh(receiver) && receiver.chan == o.receiver.chan && Valid(heap)
      ensures o.receiver.chan.receivers == old(o.receiver.chan.receivers) + {receiver}
      ensures heap.live == old(heap.live) + {receiver} && heap.log == old(heap.log)
    {
      var c := NamedReceiver.CloneBoxed(heap, o.receiver);
      receiver := c;
    }

    /** The move constructor: takes the other handle's box and empties it. */
    constructor MoveFrom(o: Receiver)
      modifies o`receiver
      ensures receiver == old(o.receiver) && o.receiver == null
    {
      receiver := o.receiver;
      new;
      o.receiver := null;
    }

    /** `~Receiver`: deletes the box only when there is one; the buffer loses one receiver. */
    method Destroy(heap: Heap)
      requires Valid(heap)
      modifies heap, (if receiver != null then {receiver.chan} else {})`receivers
      ensures receiver != null ==> heap.live == old(heap.live) - {receiver}
      ensures receiver != null ==> receiver.chan.receivers == old(receiver.chan.receivers) - {receiver}
      ensures receiver == null ==> heap.live == old(heap.live)
      ensures heap.log == old(heap.log)
    {
      if receiver != null {
        NamedReceiver.Delete(heap, receiver);
      }
    }

    /** The copy assignment: self-assignment changes nothing; otherwise the old box (if any) is
        deleted first, then a new boxed handle on the other's buffer is taken. */
    method CopyAssign(heap: Heap, o: Receiver) returns (self: Receiver)
      requires Valid(heap) && (this != o ==> o.receiver != null && (receiver != null ==> receiver != o.receiver))
      modifies heap, `receiver
      modifies (if receiver != null then {receiver.chan} else {})`receivers, (if o.receiver != null then {o.receiver.chan} else {})`receivers
      ensures self == this
      ensures this == o ==> receiver == old(receiver) && heap.live == old(heap.live)
      ensures this != o ==> receiver != null && fresh(receiver) && receiver.chan == o.receiver.chan && Valid(heap)
      ensures this != o && old(receiver) == null ==> o.receiver.chan.receivers == old(o.receiver.chan.receivers) + {receiver}
      ensures this != o && old(receiver) != null && old(receiver).chan == o.receiver.chan ==>
        o.receiver.chan.receivers == old(o.receiver.chan.receivers) - {old(receiver)} + {receiver}
      ensures this != o && old(receiver) != null && old(receiver).chan != o.receiver.chan ==>
        && old(receiver).chan.receivers == old(receiver.chan.receivers) - {old(receiver)}
        && o.receiver.chan.receivers == old(o.receiver.chan.receivers) + {receiver}
      ensures this != o ==> heap.live == old(heap.live) - (if old(receiver) == null then {} else {old(receiver)}) + {receiver}
      ensures heap.log == old(heap.log)
    {
      self := this;
      if this == o {
        return;
      }
      if receiver != null {
        NamedReceiver.Delete(heap, receiver);
      }
      var c := NamedReceiver.CloneBoxed(heap, o.receiver);
      receiver := c;
    }

    /** The move assignment: self-assignment changes nothing; otherwise the old box (if any) is
        deleted first, then the other handle's box is taken and that handle emptied. */
    method MoveAssign(heap: Heap, o: Receiver) returns (self: Receiver)
      requires Valid(heap) && o.Valid(heap) && (this != o && receiver != null ==> receiver != o.receiver)
      modifies heap, `receiver, o`receiver, (if receiver != null then {receiver.chan} else {})`receivers
      ensures self == this
      ensures this == o ==> receiver == old(receiver) && heap.live == old(heap.live)
      ensures this != o ==> receiver == old(o.receiver) && o.receiver == null && Valid(heap)
      ensures this != o && old(receiver) != null ==> old(receiver).chan.receivers == old(receiver.chan.receivers) - {old(receiver)}
      ensures this != o ==> heap.live == old(heap.live) - (if old(receiver) == null then {} else {old(receiver)})
      ensures heap.log == old(heap.log)
    {
      self := this;
      if this == o {
        return;
      }
      if receiver != null {
        NamedReceiver.Delete(heap, receiver);
      }
      receiver := o.receiver;
      o.receiver := null;
    }

    /** `receive`: the oldest buffered message; with nothing buffered the caller waits while
        the stream may still deliver, and gets an empty `Message` once it has ended. */
    method Receive() returns (m: Poll<Option<Message>>)
      requires receiver != null
      modifies receiver.chan`buffer
      ensures old(receiver.chan.Valid()) ==> receiver.chan.Valid()
      ensures old(receiver.chan.buffer) != [] ==>
        m == Ready(Some(old(receiver.chan.buffer)[0])) && receiver.chan.buffer == old(receiver.chan.buffer)[1..]
      ensures old(receiver.chan.buffer) == [] ==>
        receiver.chan.buffer == [] && m == (if receiver.chan.connected then Pending else Ready(None))
    {
      m := receiver.Recv();
    }

    /** `try_receive`: never waits; the oldest buffered message, or an empty `Message`. */
    method TryReceive() returns (m: Option<Message>)
      requires receiver != null
      modifies receiver.chan`buffer
      ensures old(receiver.chan.Valid()) ==> receiver.chan.Valid()
      ensures old(receiver.chan.buffer) == [] ==> m == None && receiver.chan.buffer == []
      ensures old(receiver.chan.buffer) != [] ==>
        m == Some(old(receiver.chan.buffer)[0]) && receiver.chan.buffer == old(receiver.chan.buffer)[1..]
    {
      m := receiver.TryRecv();
    }
  }

  /** Two copies of a receiver calling `receive` one after the other, whatever is buffered:
      the first gets the oldest message, the second the next one; a message is never delivered
      twice, and with nothing left the second waits or, once the stream has ended, gets an
      empty `Message`. */
  method OnlyOneReceiverGetsAMessage(a: Receiver, b: Receiver) returns (x: Poll<Option<Message>>, y: Poll<Option<Message>>)
    requires a.receiver != null && b.receiver != null && a.receiver.chan == b.receiver.chan
    modifies a.receiver.chan`buffer
    ensures var buf := old(a.receiver.chan.buffer); var ended := if a.receiver.chan.connected then Pending else Ready(None);
      && (|buf| >= 1 ==> x == Ready(Some(buf[0])))
      && (|buf| >= 2 ==> y == Ready(Some(buf[1])) && a.receiver.chan.buffer == buf[2..])
      && (|buf| == 1 ==> y == ended && a.receiver.chan.buffer == [])
      && (buf == [] ==> x == ended && y == ended && a.receiver.chan.buffer == [])
  {
    x := a.Receive();
    y := b.Receive();
  }
}
