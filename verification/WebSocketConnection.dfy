/**
  The websocket connection in the source's form: an object with a queue, a ping deadline and two
  counters that its methods update. Each method is proved to do what `WebSocketModel` says.
 */
module WebSocketConnection {
  import opened Common
  import opened WebSocketModel
  import opened WebSocketSafety

  class Connection {
    const config: Config
    var queue: seq<Unconfirmed>
    var pingTime: Time
    var pingMessage: nat
    var pingsSent: nat
    var status: Status

    ghost function View(): WebSocketModel.Connection
      reads this
    {
      WebSocketModel.Connection(queue, pingTime, pingMessage, pingsSent, status)
    }

    ghost var lastRead: Time   // the latest clock reading

    /** With a clock that never goes back, deadlines stay in queue order. */
    ghost predicate Valid()
      reads this
    {
      && Sorted(queue)
      && (forall i :: 0 <= i < |queue| ==> queue[i].retryAt <= lastRead + config.retryInterval)
      && pingsSent <= 2 && pingMessage < U32_SIZE
      && pingTime <= lastRead + config.pingInterval
    }

    constructor (config: Config, now: Time)
      ensures Valid() && lastRead == now
      ensures this.config == config
      ensures View() == Start(config, now)
    {
      this.config := config;
      queue := [];
      pingTime := now + config.pingInterval;
      pingMessage := 0;
      pingsSent := 0;
      status := Open;
      lastRead := now;
    }

    /** The deadline `try_run` sleeps until: the front's, which with deadlines in order is the earliest. */
    method RetryTime(now: Time) returns (t: Time)
      requires Valid()
      ensures queue == [] ==> t == now
      ensures queue != [] ==> forall u :: u in queue ==> t <= u.retryAt
      ensures queue != [] ==> exists u :: u in queue && t == u.retryAt
    {
      if queue == [] {
        return now;
      }
      assert queue[0] in queue;
      return queue[0].retryAt;
    }

    method ProcessPing(sent: bool, now: Time)
      requires Valid() && status.Open? && lastRead <= now
      modifies this
      ensures Valid() && lastRead == now
      ensures View() == PingFires(old(View()), config, sent, now)
      ensures status == if old(pingsSent) >= 2 then Closed(Silent) else if sent then Open else Closed(SendFailed)
    {
      lastRead := now;
      if pingsSent > 1 {
        status := Closed(Silent);
        return;
      }
      if pingsSent == 0 {
        pingMessage := (pingMessage + 1) % U32_SIZE;
      }
      if !sent {
        status := Closed(SendFailed);
        return;
      }
      pingsSent := pingsSent + 1;
      pingTime := now + config.pingInterval;
    }

    /** `iter().position(..)` for the first copy of a message. */
    method Position(id: MessageId) returns (idx: Option<nat>)
      ensures idx == if FirstCopy(queue, id) < |queue| then Some(FirstCopy(queue, id)) else None
    {
      for i := 0 to |queue|
        invariant forall j :: 0 <= j < i ==> queue[j].message.id != id
      {
        if queue[i].message.id == id {
          return Some(i);
        }
      }
      return None;
    }

    /** Returns the message whose callback, if any, is to run for this user. */
    method ProcessBinary(confirmation: Option<MessageId>, now: Time) returns (confirmed: Option<Message>)
      requires Valid() && status.Open? && lastRead <= now
      modifies this
      ensures Valid() && lastRead == now
      ensures View() == FrameReceived(old(View()), config, Binary(confirmation), now)
      ensures confirmed.Some? <==> |queue| < |old(queue)|
      ensures confirmed.Some? ==>
                && confirmation == Some(confirmed.value.id)
                && confirmed.value == old(queue)[FirstCopy(old(queue), confirmed.value.id)].message
    {
      lastRead := now;
      if confirmation.None? {
        status := Closed(ProtocolError);
        return None;
      }
      var idx := Position(confirmation.value);
      if idx.None? {
        return None;
      }
      pingTime := now + config.pingInterval;
      pingsSent := 0;
      var queued := queue[idx.value];
      WithoutSorted(queue, idx.value);
      queue := queue[..idx.value] + queue[idx.value + 1..];
      return Some(queued.message);
    }

    method ProcessPong(payload: seq<Byte>, now: Time)
      requires Valid() && status.Open? && lastRead <= now
      modifies this
      ensures Valid() && lastRead == now
      ensures View() == FrameReceived(old(View()), config, Pong(payload), now)
    {
      lastRead := now;
      if |payload| != 4 {
        status := Closed(ProtocolError);
        return;
      }
      var pongMessage := FromBytes(payload);
      if pingsSent == 0 {
        return;
      }
      if pongMessage != pingMessage {
        return;
      }
      pingTime := now + config.pingInterval;
      pingsSent := 0;
    }

    method ProcessIncomingMessage(frame: Frame, now: Time) returns (confirmed: Option<Message>)
      requires Valid() && status.Open? && lastRead <= now
      modifies this
      ensures Valid() && lastRead == now
      ensures View() == FrameReceived(old(View()), config, frame, now)
    {
      confirmed := None;
      lastRead := now;
      match frame
      case Binary(confirmation) => confirmed := ProcessBinary(confirmation, now);
      case Text => status := Closed(ProtocolError);
      case Ping =>
      case Pong(payload) => ProcessPong(payload, now);
      case Close => status := Closed(ClientClosed);
      case Failure => status := Closed(StreamFailed);
      case End => status := Closed(StreamFailed);
    }

    method ProcessMessage(delivery: Delivery, sent: bool, now: Time)
      requires Valid() && status.Open? && lastRead <= now
      modifies this
      ensures Valid() && lastRead == now
      ensures View() == DeliveryReceived(old(View()), config, delivery, sent, now)
    {
      lastRead := now;
      match delivery
      case LagError => status := Closed(Lagged);
      case ChannelClosed => status := Closed(ForcefullyClosed);
      case Delivered(message) =>
        if !sent {
          status := Closed(SendFailed);
          return;
        }
        queue := queue + [Unconfirmed(message, now + config.retryInterval, config.retryMaxCount)];
    }

    /** The retry branch: the front is popped, then resent or given up. */
    method ProcessUnconfirmed(sent: bool, now: Time)
      requires Valid() && status.Open? && queue != [] && lastRead <= now
      modifies this
      ensures Valid() && lastRead == now
      ensures View() == RetryFires(old(View()), config, sent, now)
    {
      lastRead := now;
      var unconfirmed := queue[0];
      queue := queue[1..];
      if unconfirmed.retriesRemaining == 0 {
        status := Closed(NotConfirmed);
        return;
      }
      unconfirmed := unconfirmed.(retryAt := now + config.retryInterval,
                                  retriesRemaining := unconfirmed.retriesRemaining - 1);
      if !sent {
        status := Closed(SendFailed);
        return;
      }
      queue := queue + [unconfirmed];
    }
  }
}
