/**
  The publisher-confirm producer as a step machine.

  `Machine` is the state the Rust `StateMachine` owns or receives through its channels; each
  function on it is the code between two await points. `History` is bookkeeping of the outside
  world (what callers handed over, what went on the wire, what the broker did) that no machine
  function reads. `World` puts both together and `Apply` runs one event.
 */
module ProducerModel {
  import opened Common

  datatype Message = Message(routingKey: string, properties: string, content: seq<Byte>)

  /** One element of `unconfirmed_messages`. */
  datatype Entry = Entry(tag: nat, message: Message)

  datatype Confirm = Confirm(tag: nat, multiple: bool, ack: bool)

  datatype Phase =
    | Ok
    | WaitingForConnection
    | ProcessingPendingConfirmations
    | RecreatingChannel
    | RestoringProducer

  type Connection = nat
  type Channel = nat

  datatype Machine = Machine(
    phase: Phase,
    connection: Option<Connection>,
    connectionWatch: Watch<Option<Connection>>,
    channel: Channel,
    channelOpened: bool,
    unconfirmed: seq<Entry>,
    pending: seq<Message>,
    confirms: seq<Confirm>,
    flowWatch: Watch<bool>,
    blockedWatch: Watch<bool>,
    flow: bool,
    blocked: bool,
    messageCount: nat,
    publishing: Option<Message>)

  // ----- confirms

  predicate Covers(c: Confirm, tag: nat) {
    if c.multiple then tag <= c.tag else tag == c.tag
  }

  /** The entries a confirm leaves in the queue. */
  function Kept(q: seq<Entry>, c: Confirm): seq<Entry> {
    if q == [] then []
    else if Covers(c, q[0].tag) then Kept(q[1..], c)
    else [q[0]] + Kept(q[1..], c)
  }

  /** The entries a confirm takes out of the queue, in queue order. */
  function Removed(q: seq<Entry>, c: Confirm): seq<Entry> {
    if q == [] then []
    else if Covers(c, q[0].tag) then [q[0]] + Removed(q[1..], c)
    else Removed(q[1..], c)
  }

  function Messages(q: seq<Entry>): (ms: seq<Message>)
    ensures |ms| == |q|
    ensures forall i :: 0 <= i < |q| ==> ms[i] == q[i].message
  {
    seq(|q|, i requires 0 <= i < |q| => q[i].message)
  }

  ghost predicate Sorted(q: seq<Entry>) {
    forall i, j :: 0 <= i < j < |q| ==> q[i].tag < q[j].tag
  }

  /** `process_confirm`. */
  function Settle(m: Machine, c: Confirm): Machine {
    m.(unconfirmed := Kept(m.unconfirmed, c),
       pending := if c.ack then m.pending else m.pending + Messages(Removed(m.unconfirmed, c)))
  }

  // ----- the Ok state

  datatype Branch = ConnectionChanged | FlowChanged | BlockedChanged | ConfirmReady | MessageReady | NothingReady

  /** The branch the biased select takes. */
  function Selected(m: Machine): Branch {
    if m.connectionWatch.Unseen() then ConnectionChanged
    else if m.flowWatch.Unseen() then FlowChanged
    else if m.blockedWatch.Unseen() then BlockedChanged
    else if m.confirms != [] then ConfirmReady
    else if !m.blocked && m.flow && m.pending != [] then MessageReady
    else NothingReady
  }

  /** One iteration of the loop in `ok_state`, up to the await on `basic_publish`. */
  function OkIteration(m: Machine): Machine {
    match Selected(m)
    case ConnectionChanged => m.(connectionWatch := m.connectionWatch.MarkSeen(), phase := WaitingForConnection)
    case FlowChanged => m.(flowWatch := m.flowWatch.MarkSeen(), flow := m.flowWatch.value)
    case BlockedChanged => m.(blockedWatch := m.blockedWatch.MarkSeen(), blocked := m.blockedWatch.value)
    case ConfirmReady => Settle(m.(confirms := m.confirms[1..]), m.confirms[0])
    case MessageReady =>
      m.(pending := m.pending[1..], messageCount := m.messageCount + 1, publishing := Some(m.pending[0]))
    case NothingReady => m
  }

  /** `basic_publish` returned. */
  function PublishReturned(m: Machine, success: bool): Machine
    requires m.publishing.Some?
  {
    if success then
      m.(unconfirmed := m.unconfirmed + [Entry(m.messageCount, m.publishing.value)], publishing := None)
    else
      m.(pending := m.pending + [m.publishing.value], publishing := None, phase := ProcessingPendingConfirmations)
  }

  /** Entering `ok_state`: both watched flags are read and the message counter restarts. */
  function EnterOk(m: Machine): Machine {
    m.(phase := Ok,
       flow := m.flowWatch.value, flowWatch := m.flowWatch.MarkSeen(),
       blocked := m.blockedWatch.value, blockedWatch := m.blockedWatch.MarkSeen(),
       messageCount := 0)
  }

  // ----- recovery

  /** One turn of the loop in `waiting_for_connection_state`. */
  function ReadConnection(m: Machine): Machine {
    m.(connection := m.connectionWatch.value,
       connectionWatch := m.connectionWatch.MarkSeen(),
       phase := if m.connectionWatch.value.Some? then ProcessingPendingConfirmations else WaitingForConnection)
  }

  function DrainConfirm(m: Machine): Machine
    requires m.confirms != []
  {
    Settle(m.(confirms := m.confirms[1..]), m.confirms[0])
  }

  /** Every unconfirmed message goes back behind the pending ones. */
  function Reschedule(m: Machine): Machine {
    m.(pending := m.pending + Messages(m.unconfirmed), unconfirmed := [],
       phase := RecreatingChannel, channelOpened := false)
  }

  /** `processing_pending_confirmations_state` when no further confirm arrives meanwhile. */
  function ProcessPending(m: Machine): Machine
    decreases |m.confirms|
  {
    if m.confirms == [] then Reschedule(m) else ProcessPending(DrainConfirm(m))
  }

  /** The first branch of the selects in the two restoring states. */
  function ConnectionInterrupt(m: Machine): Machine {
    m.(connectionWatch := m.connectionWatch.MarkSeen(), phase := WaitingForConnection)
  }

  function ChannelOpens(m: Machine, newChannel: Channel): Machine {
    m.(channel := newChannel, channelOpened := true, flowWatch := m.flowWatch.Send(true))
  }

  function RestoreReturned(m: Machine, success: bool): Machine {
    if success then EnterOk(m) else m.(phase := RecreatingChannel, channelOpened := false)
  }

  // ----- the world

  /** The `tag`-th publish on `channel` after confirm_select. */
  datatype Publish = Publish(channel: Channel, tag: nat, message: Message)

  datatype History = History(
    handed: multiset<Message>,
    wire: set<Publish>,
    taken: set<Publish>,      // the broker took responsibility for these
    nacked: set<Publish>,     // covered by a nack the broker sent
    acked: seq<Publish>,      // left the producer, in order
    source: Channel,          // the channel Ok was last entered with: the only one confirms come from
    nextChannel: Channel)

  datatype World = World(m: Machine, h: History)

  datatype Event =
    // the environment
    | Send(message: Message)
    | ConnectionPublished(connection: Option<Connection>)
    | FlowSignal(active: bool)
    | BlockedSignal(isBlocked: bool)
    | BrokerTakes(publish: Publish)
    | BrokerConfirms(confirm: Confirm)
    // the machine
    | OkStep
    | PublishResult(success: bool)
    | ConnectionRead
    | Drain
    | RescheduleAll
    | Interrupted
    | ChannelOpened
    | CallbackRegistered
    | RestoreResult(restored: bool)

  /** Publishes on the confirming channel that a confirm speaks about. */
  ghost function Addressed(w: World, c: Confirm): set<Publish> {
    set p | p in w.h.wire && p.channel == w.h.source && Covers(c, p.tag)
  }

  ghost predicate Enabled(w: World, e: Event) {
    match e
    case Send(_) => true
    case ConnectionPublished(_) => true
    case FlowSignal(_) => true
    case BlockedSignal(_) => true
    case BrokerTakes(p) => p in w.h.wire
    // an ack is only sent for publishes the broker took; those it nacked before are settled already
    case BrokerConfirms(c) => c.ack ==> Addressed(w, c) <= w.h.taken + w.h.nacked
    case OkStep => w.m.phase.Ok? && w.m.publishing.None?
    case PublishResult(_) => w.m.phase.Ok? && w.m.publishing.Some?
    case ConnectionRead => w.m.phase.WaitingForConnection?
    case Drain => w.m.phase.ProcessingPendingConfirmations? && w.m.confirms != []
    case RescheduleAll => w.m.phase.ProcessingPendingConfirmations? && w.m.confirms == []
    case Interrupted => (w.m.phase.RecreatingChannel? || w.m.phase.RestoringProducer?) && w.m.connectionWatch.Unseen()
    case ChannelOpened => w.m.phase.RecreatingChannel? && !w.m.channelOpened && !w.m.connectionWatch.Unseen()
    case CallbackRegistered => w.m.phase.RecreatingChannel? && w.m.channelOpened && !w.m.connectionWatch.Unseen()
    case RestoreResult(_) => w.m.phase.RestoringProducer? && !w.m.connectionWatch.Unseen()
  }

  /** The publishes a confirm retires when it is processed now. */
  function Retired(w: World, c: Confirm): seq<Publish> {
    if c.ack then Records(w.h.source, Removed(w.m.unconfirmed, c)) else []
  }

  function Records(channel: Channel, q: seq<Entry>): (ps: seq<Publish>)
    ensures |ps| == |q|
    ensures forall i :: 0 <= i < |q| ==> ps[i] == Publish(channel, q[i].tag, q[i].message)
  {
    seq(|q|, i requires 0 <= i < |q| => Publish(channel, q[i].tag, q[i].message))
  }

  ghost function Apply(w: World, e: Event): World
    requires Enabled(w, e)
  {
    var m, h := w.m, w.h;
    match e
    case Send(msg) => World(m.(pending := m.pending + [msg]), h.(handed := h.handed + multiset{msg}))
    case ConnectionPublished(c) => w.(m := m.(connectionWatch := m.connectionWatch.Send(c)))
    case FlowSignal(b) => w.(m := m.(flowWatch := m.flowWatch.Send(b)))
    case BlockedSignal(b) => w.(m := m.(blockedWatch := m.blockedWatch.Send(b)))
    case BrokerTakes(p) => w.(h := h.(taken := h.taken + {p}))
    case BrokerConfirms(c) =>
      World(m.(confirms := m.confirms + [c]),
            if c.ack then h else h.(nacked := h.nacked + Addressed(w, c)))
    case OkStep =>
      World(OkIteration(m),
            match Selected(m)
            case ConfirmReady => h.(acked := h.acked + Retired(w, m.confirms[0]))
            case MessageReady => h.(wire := h.wire + {Publish(m.channel, m.messageCount + 1, m.pending[0])})
            case _ => h)
    case PublishResult(ok) => w.(m := PublishReturned(m, ok))
    case ConnectionRead => w.(m := ReadConnection(m))
    case Drain => World(DrainConfirm(m), h.(acked := h.acked + Retired(w, m.confirms[0])))
    case RescheduleAll => w.(m := Reschedule(m))
    case Interrupted => w.(m := ConnectionInterrupt(m))
    case ChannelOpened => World(ChannelOpens(m, h.nextChannel), h.(nextChannel := h.nextChannel + 1))
    case CallbackRegistered => w.(m := m.(phase := RestoringProducer))
    case RestoreResult(ok) => World(RestoreReturned(m, ok), if ok then h.(source := m.channel) else h)
  }

  /** A freshly created producer (`RabbitmqProducer::new`): channel 0 is declared, confirming and
      has its callback; the watches it was given may already have moved on. */
  ghost predicate Init(w: World) {
    && w.m.phase.Ok? && w.m.connection.Some? && w.m.channel == 0 && w.m.messageCount == 0
    && w.m.unconfirmed == [] && w.m.pending == [] && w.m.confirms == [] && w.m.publishing.None?
    && w.m.connectionWatch.Valid() && w.m.flowWatch.Valid() && w.m.blockedWatch.Valid()
    && (!w.m.connectionWatch.Unseen() ==> w.m.connection == w.m.connectionWatch.value)
    && !w.m.flowWatch.Unseen() && w.m.flow == w.m.flowWatch.value
    && !w.m.blockedWatch.Unseen() && w.m.blocked == w.m.blockedWatch.value
    && w.h == History(multiset{}, {}, {}, {}, [], 0, 1)
  }

  /** `ws` is a run driven by `es`. */
  ghost predicate Run(ws: seq<World>, es: seq<Event>) {
    && |ws| == |es| + 1
    && Init(ws[0])
    && forall i :: 0 <= i < |es| ==> Enabled(ws[i], es[i]) && ws[i + 1] == Apply(ws[i], es[i])
  }
}
