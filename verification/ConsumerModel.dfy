/**
  The machine that keeps the RabbitMQ connection alive (`Keeper`) and the reconnecting consumer,
  coupled by a watch channel and a cancel permit, in a world where connections die and the server
  cancels consumers at any time.
 */
module ConsumerModel {
  import opened Common

  type Connection = nat
  type Channel = nat

  // ----- the connection machine

  datatype KeeperPhase =
    | KeeperOk
    | ClosingConnection
    | AwaitingClose        // still closing, None already published
    | RestoringConnection
    | RestoringCallback

  datatype Keeper = Keeper(phase: KeeperPhase, connection: Connection)

  /** The machine together with the watch channel it sends on. */
  datatype Publisher = Publisher(keeper: Keeper, watch: Watch<Option<Connection>>)

  /** `listen_network_io_failure` completed, in `ok_state` or while registering the callback. */
  function FailureNoticed(p: Publisher): Publisher {
    p.(keeper := p.keeper.(phase := ClosingConnection))
  }

  /** `closing_connection_state` up to its await. */
  function ClosingStarted(p: Publisher): Publisher {
    Publisher(p.keeper.(phase := AwaitingClose), p.watch.Send(None))
  }

  function CloseReturned(p: Publisher): Publisher {
    p.(keeper := p.keeper.(phase := RestoringConnection))
  }

  /** The new connection is kept back until its callback is registered. */
  function Reopened(p: Publisher, newConnection: Connection): Publisher {
    p.(keeper := Keeper(RestoringCallback, newConnection))
  }

  function ConnectionPublished(p: Publisher): Publisher {
    Publisher(p.keeper.(phase := KeeperOk), p.watch.Send(Some(p.keeper.connection)))
  }

  // ----- the consumer machine

  datatype Next = Listen | WaitForConnection | Restore

  datatype ConsumerPhase =
    | Announcing(consuming: bool, stored: bool, next: Next)  // inside the status callback
    | Listening                                              // the select in `ok_state`
    | WaitingForConnection
    | RecreatingChannel(channelOpened: bool)
    | RestoringConsumer(consumed: bool)

  /** `permit` is the one of the current `consumer_cancelled`, made together with `channel`. */
  datatype Consumer = Consumer(
    phase: ConsumerPhase,
    connection: Option<Connection>,
    watch: Watch<Option<Connection>>,
    channel: Channel,
    permit: bool)

  /** The status callback: `update_network_status` stores, then broadcasts. */
  function StatusStored(c: Consumer): Consumer
    requires c.phase.Announcing?
  {
    c.(phase := c.phase.(stored := true))
  }

  function CallbackReturned(c: Consumer): Consumer
    requires c.phase.Announcing?
  {
    c.(phase := match c.phase.next
                case Listen => Listening
                case WaitForConnection => WaitingForConnection
                case Restore => RestoringConsumer(false))
  }

  /** The biased select in `ok_state`, when one of its branches is ready. */
  function Wakes(c: Consumer): Consumer {
    if c.watch.Unseen() then
      c.(watch := c.watch.MarkSeen(), phase := Announcing(false, false, WaitForConnection))
    else c.(permit := false, phase := Announcing(false, false, Restore))
  }

  function ReadsConnection(c: Consumer): Consumer {
    c.(connection := c.watch.value, watch := c.watch.MarkSeen(),
       phase := if c.watch.value.Some? then RecreatingChannel(false) else WaitingForConnection)
  }

  function Interrupted(c: Consumer): Consumer {
    c.(watch := c.watch.MarkSeen(), phase := WaitingForConnection)
  }

  /** A new channel, and with it a new Notify without a permit. */
  function ChannelOpens(c: Consumer, newChannel: Channel): Consumer {
    c.(channel := newChannel, permit := false, phase := RecreatingChannel(true))
  }

  function CallbackHooked(c: Consumer): Consumer {
    c.(phase := RestoringConsumer(false))
  }

  /** `basic_consume` answered: the server delivers on the channel. */
  function Consumed(c: Consumer): Consumer {
    c.(phase := RestoringConsumer(true))
  }

  /** The channel callback's `cancel`: `notify_one`. */
  function Notified(c: Consumer): Consumer {
    c.(permit := true)
  }

  function RestoreReturned(c: Consumer, success: bool): Consumer {
    c.(phase := if success then Announcing(true, false, Listen) else RecreatingChannel(false))
  }

  // ----- the world

  datatype World = World(
    keeper: Keeper,
    consumer: Consumer,
    alive: set<Connection>,
    home: map<Channel, Connection>,   // the connection each channel lives on
    hooked: set<Channel>,             // channels whose callback is registered
    registered: set<Channel>,         // channels the server delivers to
    nextConnection: Connection,
    nextChannel: Channel,
    trace: seq<bool>)                 // status callbacks so far, true for Consuming

  datatype Event =
    // the environment
    | ConnectionDies(dead: Connection)
    | ServerCancels(cancelled: Channel)
    | ChannelCloses(closing: Channel)
    // the connection machine
    | NoticesFailure
    | PublishesNone
    | CloseReturns
    | Reopens
    | CallbackFails
    | PublishesConnection
    // the consumer
    | StoresStatus
    | ReturnsFromCallback
    | WakesUp
    | Reads
    | GetsInterrupted
    | OpensChannel
    | HooksCallback
    | Consumes
    | RestoreEnds(success: bool)

  predicate Enabled(w: World, e: Event) {
    var c := w.consumer;
    match e
    case ConnectionDies(_) => true
    case ServerCancels(g) => g in w.registered
    // channels die with their connection, or are closed by the consumer before it makes a new one
    case ChannelCloses(g) => g != c.channel || c.phase == RecreatingChannel(false)
    case NoticesFailure => w.keeper.phase.KeeperOk? && w.keeper.connection !in w.alive
    case PublishesNone => w.keeper.phase.ClosingConnection?
    case CloseReturns => w.keeper.phase.AwaitingClose?
    case Reopens => w.keeper.phase.RestoringConnection?
    case CallbackFails => w.keeper.phase.RestoringCallback? && w.keeper.connection !in w.alive
    case PublishesConnection => w.keeper.phase.RestoringCallback?
    case StoresStatus => c.phase.Announcing? && !c.phase.stored
    case ReturnsFromCallback => c.phase.Announcing? && c.phase.stored
    case WakesUp => c.phase.Listening? && (c.watch.Unseen() || c.permit)
    case Reads => c.phase.WaitingForConnection?
    case GetsInterrupted => (c.phase.RecreatingChannel? || c.phase.RestoringConsumer?) && c.watch.Unseen()
    case OpensChannel =>
      c.phase == RecreatingChannel(false) && !c.watch.Unseen() && c.connection.Some? && c.connection.value in w.alive
    case HooksCallback => c.phase == RecreatingChannel(true) && !c.watch.Unseen()
    case Consumes =>
      c.phase == RestoringConsumer(false) && c.channel in w.home && w.home[c.channel] in w.alive
    case RestoreEnds(success) =>
      c.phase.RestoringConsumer? && !c.watch.Unseen() && (success ==> c.phase.consumed)
  }

  /** The sending half of a world, whose watch channel the consumer receives on. */
  function PublisherOf(w: World): Publisher {
    Publisher(w.keeper, w.consumer.watch)
  }

  function WithPublisher(w: World, p: Publisher): World {
    w.(keeper := p.keeper, consumer := w.consumer.(watch := p.watch))
  }

  function Apply(w: World, e: Event): World
    requires Enabled(w, e)
  {
    var c, p := w.consumer, PublisherOf(w);
    match e
    case ConnectionDies(id) =>
      w.(alive := w.alive - {id}, registered := set g | g in w.registered && !(g in w.home && w.home[g] == id))
    case ServerCancels(g) =>
      w.(registered := w.registered - {g}, consumer := if g == c.channel && g in w.hooked then Notified(c) else c)
    case ChannelCloses(g) => w.(registered := w.registered - {g})
    case NoticesFailure => WithPublisher(w, FailureNoticed(p))
    case PublishesNone => WithPublisher(w, ClosingStarted(p))
    case CloseReturns => WithPublisher(w, CloseReturned(p))
    case Reopens =>
      WithPublisher(w, Reopened(p, w.nextConnection)).(
      alive := w.alive + {w.nextConnection}, nextConnection := w.nextConnection + 1)
    case CallbackFails => WithPublisher(w, FailureNoticed(p))
    case PublishesConnection => WithPublisher(w, ConnectionPublished(p))
    case StoresStatus => w.(consumer := StatusStored(c), trace := w.trace + [c.phase.consuming])
    case ReturnsFromCallback => w.(consumer := CallbackReturned(c))
    case WakesUp => w.(consumer := Wakes(c))
    case Reads => w.(consumer := ReadsConnection(c))
    case GetsInterrupted => w.(consumer := Interrupted(c))
    case OpensChannel =>
      w.(consumer := ChannelOpens(c, w.nextChannel), home := w.home[w.nextChannel := c.connection.value],
         nextChannel := w.nextChannel + 1)
    case HooksCallback => w.(consumer := CallbackHooked(c), hooked := w.hooked + {c.channel})
    case Consumes => w.(consumer := Consumed(c), registered := w.registered + {c.channel})
    case RestoreEnds(success) => w.(consumer := RestoreReturned(c, success))
  }

  /** A consumer just created on connection 0 (`RabbitmqConsumer::new`), already registered on channel 0. */
  const INITIAL := World(
    Keeper(KeeperOk, 0),
    Consumer(Announcing(true, false, Listen), Some(0), Watch(Some(0), 0, 0), 0, false),
    {0}, map[0 := 0], {0}, {0}, 1, 1, [])

  ghost predicate Run(ws: seq<World>, es: seq<Event>) {
    && |ws| == |es| + 1 && ws[0] == INITIAL
    && forall i :: 0 <= i < |es| ==> Enabled(ws[i], es[i]) && ws[i + 1] == Apply(ws[i], es[i])
  }
}
