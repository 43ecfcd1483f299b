/** The cancellable subscription channel: a message stream beside a one-shot shutdown signal
    whose sending end sits in a shared slot, taken at most once by whichever cancellation token
    (or the channel itself) closes first. */
module Channel {
  import opened Common
  import opened Engine

  /** The one-shot shutdown signal as the channel's receiving end sees it: still armed, sent by
      a token, completed because its sender was dropped without sending, or already handled. */
  datatype Signal = Armed | Sent | SenderDropped | Observed

  /** The shared slot holding the signal's sending end (`Arc<Mutex<Option<oneshot::Sender>>>`),
      together with the state of the signal it controls. */
  class ShutdownSlot {
    /** Whether the slot still holds the sending end. */
    var full: bool
    var signal: Signal

    /** The signal stays armed exactly as long as its sending end is in the slot. */
    ghost predicate Valid()
      reads this
    {
      full <==> signal == Armed
    }

    /** The slot of a freshly created channel holds its sender. */
    constructor ()
      ensures Valid() && full && signal == Armed
    {
      full := true;
      signal := Armed;
    }
  }

  /** A cancellation token: a shared reference to the slot, nothing more. */
  class CancellationToken {
    const shutdown: ShutdownSlot

    constructor (shutdown: ShutdownSlot)
      ensures this.shutdown == shutdown
    {
      this.shutdown := shutdown;
    }

    /** `CancellationToken::close`: the first close through any token (or the channel) takes the
        sender out of the slot and sends the shutdown signal; every later close does nothing. */
    method Close()
      requires shutdown.Valid()
      modifies shutdown
      ensures shutdown.Valid()
      ensures old(shutdown.full) ==> !shutdown.full && shutdown.signal == Sent
      ensures !old(shutdown.full) ==> unchanged(shutdown)
    {
      if shutdown.full {
        shutdown.full := false;
        shutdown.signal := Sent;
      }
    }
  }

  /** `Channel`: a subscription's message stream and the receiving end of the shutdown signal. */
  class Channel {
    /** The subscription's stream. */
    const chan: SubscriptionObj
    /** The slot shared with every cancellation token of this channel. */
    const shutdown: ShutdownSlot
    /** How many times the channel has asked the engine to unsubscribe. */
    var unsubscribes: nat

    /** `new_with_size`, once the subscription exists: the slot is full. */
    constructor (chan: SubscriptionObj)
      ensures fresh(shutdown) && shutdown.Valid() && shutdown.full
      ensures this.chan == chan && unsubscribes == 0
    {
      this.chan := chan;
      shutdown := new ShutdownSlot();
      unsubscribes := 0;
    }

    /** `get_cancellation_token`: a new token sharing this channel's slot. */
    method GetCancellationToken() returns (t: CancellationToken)
      ensures fresh(t) && t.shutdown == shutdown
    {
      t := new CancellationToken(shutdown);
    }

    /** `unsubscribe`: the broker delivers nothing new; what is already pending stays. */
    method Unsubscribe()
      modifies chan`open, `unsubscribes
      ensures !chan.open && unsubscribes == old(unsubscribes) + 1
    {
      chan.open := false;
      unsubscribes := unsubscribes + 1;
    }

    /** `Channel::close`: unsubscribes only if the slot still held the sender, which it takes
        (and drops without sending); otherwise does nothing. */
    method Close()
      requires shutdown.Valid()
      modifies shutdown, chan`open, `unsubscribes
      ensures shutdown.Valid()
      ensures old(shutdown.full) ==>
        !shutdown.full && shutdown.signal == SenderDropped && !chan.open && unsubscribes == old(unsubscribes) + 1
      ensures !old(shutdown.full) ==>
        unchanged(shutdown) && chan.open == old(chan.open) && unsubscribes == old(unsubscribes)
    {
      if shutdown.full {
        shutdown.full := false;
        shutdown.signal := SenderDropped;
        Unsubscribe();
      }
    }

    /** `pop`: a ready message (or the end of the stream) is returned in preference to handling
        shutdown; a completed shutdown signal makes it unsubscribe and poll the stream again, so
        its result still comes from the stream (the end of the stream once drained); with
        neither ready it waits. */
    method Pop() returns (r: Poll<Option<Message>>)
      requires shutdown.Valid()
      modifies chan`pending, chan`open, shutdown`signal, `unsubscribes
      ensures shutdown.Valid() && shutdown.full == old(shutdown.full)
      ensures old(chan.pending) != [] ==>
        && r == Ready(Some(old(chan.pending)[0])) && chan.pending == old(chan.pending)[1..]
        && chan.open == old(chan.open) && shutdown.signal == old(shutdown.signal)
        && unsubscribes == old(unsubscribes)
      ensures old(chan.pending) == [] ==>
        var fired := old(chan.open) && (old(shutdown.signal) == Sent || old(shutdown.signal) == SenderDropped);
        && chan.pending == []
        && chan.open == (old(chan.open) && !fired)
        && shutdown.signal == (if fired then Observed else old(shutdown.signal))
        && unsubscribes == old(unsubscribes) + (if fired then 1 else 0)
        && r == (if chan.open then Pending else Ready(None))
    {
      while true
        invariant shutdown.Valid() && shutdown.full == old(shutdown.full)
        invariant old(chan.pending) == [] ==> chan.pending == []
        invariant shutdown.signal == old(shutdown.signal) ==>
          chan.open == old(chan.open) && chan.pending == old(chan.pending) && unsubscribes == old(unsubscribes)
        invariant shutdown.signal != old(shutdown.signal) ==>
          && (old(shutdown.signal) == Sent || old(shutdown.signal) == SenderDropped)
          && shutdown.signal == Observed && old(chan.pending) == [] && old(chan.open)
          && !chan.open && unsubscribes == old(unsubscribes) + 1
        decreases if shutdown.signal == Sent || shutdown.signal == SenderDropped then 1 else 0
      {
        var next := chan.Pop();
        if next.Ready? {
          return next;
        }
        if shutdown.signal == Sent || shutdown.signal == SenderDropped {
          shutdown.signal := Observed;
          Unsubscribe();
        } else {
          return Pending;
        }
      }
    }

    /** `nats_channel_recv`: the result of `pop`, with the end of the stream as a null pointer,
        which happens exactly when nothing is pending and the stream is closed afterwards. */
    method Recv() returns (r: Poll<Option<Message>>)
      requires shutdown.Valid()
      modifies chan`pending, chan`open, shutdown`signal, `unsubscribes
      ensures shutdown.Valid()
      ensures r == Ready(None) <==> old(chan.pending) == [] && !chan.open
      ensures r.Ready? && r.value.Some? <==> old(chan.pending) != []
      ensures r.Ready? && r.value.Some? ==> r.value.value == old(chan.pending)[0]
    {
      r := Pop();
    }
  }

  /** Tokens share the channel's slot: from any state, the first close through a token sends
      the signal if the slot still held its sender, and then a close through any other token
      and the channel's own close change nothing, so the channel never unsubscribes through
      `close`. */
  method TokensShareOneSlot(c: Channel, a: CancellationToken, b: CancellationToken)
    requires a.shutdown == c.shutdown && b.shutdown == c.shutdown && c.shutdown.Valid()
    modifies c.shutdown, c.chan`open, c`unsubscribes
    ensures c.shutdown.Valid() && !c.shutdown.full
    ensures c.shutdown.signal == (if old(c.shutdown.full) then Sent else old(c.shutdown.signal))
    ensures c.unsubscribes == old(c.unsubscribes) && c.chan.open == old(c.chan.open)
  {
    a.Close();
    b.Close();
    c.Close();
  }
}
