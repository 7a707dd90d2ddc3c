/**
  Outbound messages: the bounded channel of a connection, and the senders that tag every message
  with the chain position it enters the outbound processing at.
 */
module Messaging {
  import opened Nostr

  datatype RelayMessage =
    | EventMsg(sub: SubId, event: Event)
    | Eose(sub: SubId)
    | Ok(id: EventId, accepted: bool, text: string)
    | AuthMsg(challenge: string)

  datatype Queued = Queued(message: RelayMessage, position: nat)

  datatype SendResult = Sent | Full | Disconnected

  /** A bounded channel; sending never waits. */
  class Channel {
    const capacity: nat
    var queue: seq<Queued>
    var connected: bool

    constructor (capacity: nat)
      ensures this.capacity == capacity && queue == [] && connected
    {
      this.capacity := capacity;
      queue, connected := [], true;
    }

    /** How many more messages the channel accepts if nobody receives. */
    ghost function Room(): (n: nat)
      reads this
    {
      if connected && |queue| < capacity then capacity - |queue| else 0
    }

    method TrySend(m: Queued) returns (r: SendResult)
      modifies this`queue
      ensures r == Sent <==> old(Room()) > 0
      ensures r == Disconnected <==> !connected
      ensures queue == if r == Sent then old(queue) + [m] else old(queue)
    {
      if !connected {
        r := Disconnected;
      } else if |queue| >= capacity {
        r := Full;
      } else {
        queue := queue + [m];
        r := Sent;
      }
    }
  }

  /** The channel has taken what it had room for of the messages sent to it. */
  ghost predicate Received(ch: Channel, queue: seq<Queued>, room: nat, ms: seq<Queued>)
    reads ch
  {
    ch.queue == queue + Take(ms, room) && ch.Room() == if |ms| <= room then room - |ms| else 0
  }

  /** The tag of a bypassing send, as computed: one position further in, not out. */
  function Inward(position: nat): (p: nat)
  {
    if position > 0 then position - 1 else 0
  }

  /** A handle on a connection's channel, held by the middleware at a chain position. */
  datatype MessageSender = MessageSender(channel: Channel, position: nat) {

    function BypassPosition(): (p: nat)
    {
      Inward(position)
    }

    method Send(m: RelayMessage) returns (r: SendResult)
      modifies channel`queue
      ensures r == Sent <==> old(channel.Room()) > 0
      ensures channel.queue == old(channel.queue) + if r == Sent then [Queued(m, position)] else []
    {
      r := channel.TrySend(Queued(m, position));
    }

    method SendBypass(m: RelayMessage) returns (r: SendResult)
      modifies channel`queue
      ensures r == Sent <==> old(channel.Room()) > 0
      ensures channel.queue == old(channel.queue) + if r == Sent then [Queued(m, BypassPosition())] else []
    {
      r := channel.TrySend(Queued(m, BypassPosition()));
    }
  }
}
