/** Objects of the protocol engine that the modelled layer only passes around: an established
    connection, the options it is built from, and a subscription's message stream. Their inner
    workings (wire protocol, reconnection, delivery) are not part of this model. */
module Engine {
  import opened Common

  /** An established connection handle (`AsyncNatsConnection`); clones share one `client`. */
  class ConnectionObj {
    const client: nat

    constructor (client: nat)
      ensures this.client == client
    {
      this.client := client;
    }
  }

  /** Connection options (`AsyncNatsConnetionParams`): the client name and the server
      addresses, in the order they were added. */
  class ConfigObj {
    var name: Option<string>
    var addresses: seq<string>

    /** `AsyncNatsConnetionParams::default()`: no name, no address. */
    constructor ()
      ensures name == None && addresses == []
    {
      name := None;
      addresses := [];
    }
  }

  /** A subscription's stream: messages the engine has already received for it and not yet
      handed out, and whether the broker may still deliver more. */
  class SubscriptionObj {
    var pending: seq<Message>
    var open: bool

    constructor (pending: seq<Message>, open: bool)
      ensures this.pending == pending && this.open == open
    {
      this.pending := pending;
      this.open := open;
    }

    /** One `pop`: the oldest pending message; once the stream is closed and drained, the end of
        the stream (`None`); otherwise the caller keeps waiting. */
    method Pop() returns (r: Poll<Option<Message>>)
      modifies `pending
      ensures old(pending) != [] ==> r == Ready(Some(old(pending)[0])) && pending == old(pending)[1..]
      ensures old(pending) == [] ==> pending == [] && r == (if open then Pending else Ready(None))
    {
      if pending != [] {
        r := Ready(Some(pending[0]));
        pending := pending[1..];
      } else if open {
        r := Pending;
      } else {
        r := Ready(None);
      }
    }
  }
}
