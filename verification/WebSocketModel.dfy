/**
  One websocket connection: the queue of messages waiting for the client's confirmation, each with
  its retry deadline, and the two-ping heartbeat, under a biased select.

  The functions on `Connection` are the code between await points; `World` adds the clock and a
  record of what was sent and when, which no function on `Connection` reads.
 */
module WebSocketModel {
  import opened Common

  type Time = int
  type MessageId = nat
  type NotificationId = nat

  /** `notification` is the one the delivered callback reports, if the message has a callback. */
  datatype Message = Message(id: MessageId, payload: seq<Byte>, notification: Option<NotificationId>)

  datatype Config = Config(pingInterval: nat, retryMaxCount: nat, retryInterval: nat)

  datatype Unconfirmed = Unconfirmed(message: Message, retryAt: Time, retriesRemaining: nat)

  datatype CloseReason =
    | Silent            // two pings without an answer
    | NotConfirmed      // a message ran out of retries
    | SendFailed
    | ProtocolError     // text frame, undecodable confirmation, wrong pong length
    | ClientClosed
    | StreamFailed
    | Lagged
    | ForcefullyClosed

  datatype Status = Open | Closed(reason: CloseReason)

  datatype Connection = Connection(
    queue: seq<Unconfirmed>,
    pingTime: Time,
    pingMessage: nat,
    pingsSent: nat,
    status: Status)

  function Start(config: Config, now: Time): Connection {
    Connection([], now + config.pingInterval, 0, 0, Open)
  }

  // ----- u32 as four bytes, most significant first

  function ToBytes(n: nat): seq<Byte>
    requires n < U32_SIZE
  {
    [(n / 0x100_0000) as Byte, (n / 0x1_0000 % 0x100) as Byte, (n / 0x100 % 0x100) as Byte, (n % 0x100) as Byte]
  }

  function FromBytes(b: seq<Byte>): nat
    requires |b| == 4
  {
    ((b[0] as nat * 0x100 + b[1] as nat) * 0x100 + b[2] as nat) * 0x100 + b[3] as nat
  }

  // ----- heartbeat

  function HeartbeatReset(c: Connection, config: Config, now: Time): Connection {
    c.(pingTime := now + config.pingInterval, pingsSent := 0)
  }

  /** `process_ping`; `now` is read after the send. */
  function PingFires(c: Connection, config: Config, sent: bool, now: Time): Connection {
    if c.pingsSent > 1 then c.(status := Closed(Silent))
    else
      var number := if c.pingsSent == 0 then (c.pingMessage + 1) % U32_SIZE else c.pingMessage;
      if !sent then c.(pingMessage := number, status := Closed(SendFailed))
      else c.(pingMessage := number, pingsSent := c.pingsSent + 1, pingTime := now + config.pingInterval)
  }

  /** `process_incomming_pong_message`. */
  function PongReceived(c: Connection, config: Config, payload: seq<Byte>, now: Time): Connection {
    if |payload| != 4 then c.(status := Closed(ProtocolError))
    else if c.pingsSent == 0 || FromBytes(payload) != c.pingMessage then c
    else HeartbeatReset(c, config, now)
  }

  // ----- messages and confirmations

  /** Position of the first queued copy of a message, or the queue's length. */
  function FirstCopy(q: seq<Unconfirmed>, id: MessageId): (i: nat)
    ensures i <= |q|
    ensures i < |q| ==> q[i].message.id == id
    ensures forall j :: 0 <= j < i ==> q[j].message.id != id
  {
    if q == [] || q[0].message.id == id then 0 else 1 + FirstCopy(q[1..], id)
  }

  function Without<T>(s: seq<T>, i: nat): seq<T>
    requires i < |s|
  {
    s[..i] + s[i + 1..]
  }

  /** `process_incomming_binary_message` for a well-formed confirmation. */
  function Confirmed(c: Connection, config: Config, id: MessageId, now: Time): Connection {
    var i := FirstCopy(c.queue, id);
    if i == |c.queue| then c
    else HeartbeatReset(c.(queue := Without(c.queue, i)), config, now)
  }

  datatype Frame =
    | Binary(messageId: Option<MessageId>)   // None: not a confirmation
    | Text
    | Ping
    | Pong(payload: seq<Byte>)
    | Close
    | Failure
    | End

  /** `process_incomming_message`. */
  function FrameReceived(c: Connection, config: Config, frame: Frame, now: Time): Connection {
    match frame
    case Binary(Some(id)) => Confirmed(c, config, id, now)
    case Binary(None) => c.(status := Closed(ProtocolError))
    case Text => c.(status := Closed(ProtocolError))
    case Ping => c
    case Pong(payload) => PongReceived(c, config, payload, now)
    case Close => c.(status := Closed(ClientClosed))
    case Failure => c.(status := Closed(StreamFailed))
    case End => c.(status := Closed(StreamFailed))
  }

  datatype Delivery = Delivered(message: Message) | LagError | ChannelClosed

  /** `process_message`; `now` is read after the send. */
  function DeliveryReceived(c: Connection, config: Config, d: Delivery, sent: bool, now: Time): Connection {
    match d
    case LagError => c.(status := Closed(Lagged))
    case ChannelClosed => c.(status := Closed(ForcefullyClosed))
    case Delivered(m) =>
      if !sent then c.(status := Closed(SendFailed))
      else c.(queue := c.queue + [Unconfirmed(m, now + config.retryInterval, config.retryMaxCount)])
  }

  /** `process_unconfirmed_message` on the front of the queue; `now` is read before the send. */
  function RetryFires(c: Connection, config: Config, sent: bool, now: Time): Connection
    requires c.queue != []
  {
    var u, rest := c.queue[0], c.queue[1..];
    if u.retriesRemaining == 0 then c.(queue := rest, status := Closed(NotConfirmed))
    else if !sent then c.(queue := rest, status := Closed(SendFailed))
    else c.(queue := rest + [Unconfirmed(u.message, now + config.retryInterval, u.retriesRemaining - 1)])
  }

  // ----- the world

  /** One ping put on the wire: which heartbeat it belongs to and its payload. */
  datatype PingRecord = PingRecord(heartbeat: nat, payload: seq<Byte>)

  datatype World = World(
    c: Connection,
    clock: Time,
    sends: seq<seq<Time>>,    // for each queue entry, when it was sent
    lastReset: Time,          // start, or the last heartbeat reset
    resets: nat,
    heartbeats: nat,          // heartbeats begun
    pings: seq<PingRecord>,
    lastDropped: seq<Time>)   // the send times of the entry a retry popped last

  datatype Event =
    | Pass(time: nat)
    | PingDue(pingSent: bool, pingTook: nat)
    | FrameIn(frame: Frame)
    | DeliveryIn(delivery: Delivery, deliverySent: bool, deliveryTook: nat)
    | RetryDue(retrySent: bool, retryTook: nat)

  /** The ping deadline comes first in the biased select, the retry deadline last. */
  predicate Enabled(w: World, e: Event) {
    match e
    case Pass(_) => true
    case PingDue(_, _) => w.c.status.Open? && w.clock >= w.c.pingTime
    case FrameIn(_) => w.c.status.Open? && w.clock < w.c.pingTime
    case DeliveryIn(_, _, _) => w.c.status.Open? && w.clock < w.c.pingTime
    case RetryDue(_, _) =>
      w.c.status.Open? && w.clock < w.c.pingTime && w.c.queue != [] && w.clock >= w.c.queue[0].retryAt
  }

  /** A confirmation that matches a queued message, or a pong that matches an outstanding ping. */
  predicate Resets(c: Connection, frame: Frame) {
    match frame
    case Binary(Some(id)) => exists i :: 0 <= i < |c.queue| && c.queue[i].message.id == id
    case Pong(payload) => c.pingsSent > 0 && c.pingMessage < U32_SIZE && payload == ToBytes(c.pingMessage)
    case _ => false
  }

  /** The record of sends without the entry a confirmation takes out. */
  function SendsAfter(w: World, frame: Frame): seq<seq<Time>> {
    if frame.Binary? && frame.messageId.Some? && FirstCopy(w.c.queue, frame.messageId.value) < |w.sends|
    then Without(w.sends, FirstCopy(w.c.queue, frame.messageId.value)) else w.sends
  }

  function Apply(w: World, config: Config, e: Event): World
    requires Enabled(w, e)
  {
    match e
    case Pass(t) => w.(clock := w.clock + t)
    case PingDue(sent, took) =>
      var now := w.clock + took;
      var c := PingFires(w.c, config, sent, now);
      if w.c.pingsSent > 1 then w.(c := c)
      else
        var beat := if w.c.pingsSent == 0 then w.heartbeats + 1 else w.heartbeats;
        w.(c := c, clock := now, heartbeats := beat,
           pings := w.pings + if sent then [PingRecord(beat, ToBytes(c.pingMessage % U32_SIZE))] else [])
    case FrameIn(frame) =>
      var c := FrameReceived(w.c, config, frame, w.clock);
      if Resets(w.c, frame) then
        w.(c := c, lastReset := w.clock, resets := w.resets + 1, sends := SendsAfter(w, frame))
      else w.(c := c)
    case DeliveryIn(d, sent, took) =>
      var now := w.clock + took;
      var c := DeliveryReceived(w.c, config, d, sent, now);
      if d.Delivered? && sent then w.(c := c, clock := now, sends := w.sends + [[now]]) else w.(c := c)
    case RetryDue(sent, took) =>
      var c := RetryFires(w.c, config, sent, w.clock);
      var log := if w.sends == [] then [] else w.sends[0];
      var again := w.c.queue[0].retriesRemaining > 0 && sent;
      w.(c := c, clock := w.clock + took, lastDropped := log,
         sends := (if w.sends == [] then [] else w.sends[1..]) + if again then [log + [w.clock]] else [])
  }

  predicate Init(w: World, config: Config) {
    w == World(Start(config, w.clock), w.clock, [], w.clock, 0, 0, [], [])
  }
}
