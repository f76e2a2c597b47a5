/**
  The connection and consumer machines in the source's form: objects whose state methods reassign
  their fields, sharing one watch channel. Each method is proved to do what `ConsumerModel` says, and
  the two objects together take exactly the steps of its world.
 */
module Consumer {
  import opened Common
  import opened ConsumerModel
  import opened ConsumerSafety

  /** The watch channel: the connection machine holds its sender, the consumer its receiver. */
  class ConnectionWatch {
    var value: Option<Connection>
    var version: nat
    var seen: nat

    ghost function View(): Watch<Option<Connection>>
      reads this
    {
      Watch(value, version, seen)
    }

    constructor (initial: Connection)
      ensures View() == Watch(Some(initial), 0, 0)
    {
      value := Some(initial);
      version := 0;
      seen := 0;
    }

    /** `send_replace`. */
    method SendReplace(value: Option<Connection>)
      modifies this
      ensures View() == old(View()).Send(value)
    {
      this.value := value;
      version := version + 1;
    }

    predicate Changed()
      reads this
      ensures Changed() <==> View().Unseen()
    {
      seen != version
    }

    method BorrowAndUpdate() returns (current: Option<Connection>)
      modifies this`seen
      ensures View() == old(View()).MarkSeen() && current == View().value
    {
      seen := version;
      current := value;
    }
  }

  class ConnectionStateMachine {
    var phase: KeeperPhase
    var connection: Connection
    const watch: ConnectionWatch

    ghost function View(): Publisher
      reads this, watch
    {
      Publisher(Keeper(phase, connection), watch.View())
    }

    ghost predicate Valid()
      reads this, watch
    {
      PublisherInv(View())
    }

    constructor (connection: Connection, watch: ConnectionWatch)
      requires watch.View().Valid() && watch.value == Some(connection)
      ensures Valid() && this.watch == watch
      ensures View() == Publisher(Keeper(KeeperOk, connection), watch.View())
    {
      this.connection := connection;
      this.watch := watch;
      phase := KeeperOk;
    }

    method NoticeFailure()
      requires Valid() && (phase.KeeperOk? || phase.RestoringCallback?)
      modifies this
      ensures Valid()
      ensures View() == FailureNoticed(old(View()))
    {
      phase := ClosingConnection;
    }

    /** `closing_connection_state` up to its await. */
    method StartClosing()
      requires Valid() && phase.ClosingConnection?
      modifies this, watch
      ensures Valid()
      ensures View() == ClosingStarted(old(View()))
    {
      watch.SendReplace(None);
      phase := AwaitingClose;
    }

    method CloseReturned()
      requires Valid() && phase.AwaitingClose?
      modifies this
      ensures Valid()
      ensures View() == ConsumerModel.CloseReturned(old(View()))
    {
      phase := RestoringConnection;
    }

    method Reopened(newConnection: Connection)
      requires Valid() && phase.RestoringConnection?
      modifies this
      ensures Valid()
      ensures View() == ConsumerModel.Reopened(old(View()), newConnection)
    {
      connection := newConnection;
      phase := RestoringCallback;
    }

    method CallbackRegistered()
      requires Valid() && phase.RestoringCallback?
      modifies this, watch
      ensures Valid()
      ensures View() == ConnectionPublished(old(View()))
    {
      watch.SendReplace(Some(connection));
      phase := KeeperOk;
    }
  }

  class ConsumerStateMachine {
    var phase: ConsumerPhase
    var connection: Option<Connection>
    const watch: ConnectionWatch
    var channel: Channel
    var permit: bool

    ghost function View(): ConsumerModel.Consumer
      reads this, watch
    {
      ConsumerModel.Consumer(phase, connection, watch.View(), channel, permit)
    }

    ghost predicate Valid()
      reads this, watch
    {
      watch.View().Valid() && CacheInv(View())
    }

    constructor (connection: Connection, watch: ConnectionWatch, channel: Channel)
      requires watch.View().Valid() && (!watch.Changed() ==> watch.value == Some(connection))
      ensures Valid() && this.watch == watch
      ensures View() ==
                ConsumerModel.Consumer(Announcing(true, false, Listen), Some(connection), watch.View(), channel, false)
    {
      phase := Announcing(true, false, Listen);
      this.connection := Some(connection);
      this.watch := watch;
      this.channel := channel;
      permit := false;
    }

    /** The select between the two status callbacks of `ok_state`. */
    method Select()
      requires Valid() && phase.Listening? && (watch.Changed() || permit)
      modifies this, watch
      ensures Valid()
      ensures View() == Wakes(old(View()))
    {
      if watch.Changed() {
        var _ := watch.BorrowAndUpdate();
        phase := Announcing(false, false, WaitForConnection);
      } else {
        permit := false;
        phase := Announcing(false, false, Restore);
      }
    }

    method StatusStored()
      requires Valid() && phase.Announcing?
      modifies this
      ensures Valid()
      ensures View() == ConsumerModel.StatusStored(old(View()))
    {
      phase := Announcing(phase.consuming, true, phase.next);
    }

    method CallbackReturned()
      requires Valid() && phase.Announcing?
      modifies this
      ensures Valid()
      ensures View() == ConsumerModel.CallbackReturned(old(View()))
    {
      match phase.next
      case Listen => phase := Listening;
      case WaitForConnection => phase := WaitingForConnection;
      case Restore => phase := RestoringConsumer(false);
    }

    /** One turn of the loop in `waiting_for_connection_state`. */
    method ReadConnection()
      requires Valid() && phase.WaitingForConnection?
      modifies this, watch
      ensures Valid()
      ensures View() == ReadsConnection(old(View()))
    {
      connection := watch.BorrowAndUpdate();
      if connection.Some? {
        phase := RecreatingChannel(false);
      }
    }

    /** The first branch of the selects in `recreating_channel_state` and `restoring_consumer_state`. */
    method Interrupt()
      requires Valid() && (phase.RecreatingChannel? || phase.RestoringConsumer?) && watch.Changed()
      modifies this, watch
      ensures Valid()
      ensures View() == Interrupted(old(View()))
    {
      var _ := watch.BorrowAndUpdate();
      phase := WaitingForConnection;
    }

    method ChannelOpened(newChannel: Channel)
      requires Valid() && phase == RecreatingChannel(false) && connection.Some?
      modifies this
      ensures Valid()
      ensures View() == ChannelOpens(old(View()), newChannel)
    {
      channel := newChannel;
      permit := false;
      phase := RecreatingChannel(true);
    }

    method CallbackRegistered()
      requires Valid() && phase == RecreatingChannel(true)
      modifies this
      ensures Valid()
      ensures View() == CallbackHooked(old(View()))
    {
      phase := RestoringConsumer(false);
    }

    method ConsumeReturned()
      requires Valid() && phase == RestoringConsumer(false)
      modifies this
      ensures Valid()
      ensures View() == Consumed(old(View()))
    {
      phase := RestoringConsumer(true);
    }

    method RestoreReturned(success: bool)
      requires Valid() && phase.RestoringConsumer? && (success ==> phase.consumed)
      modifies this
      ensures Valid()
      ensures View() == ConsumerModel.RestoreReturned(old(View()), success)
    {
      phase := if success then Announcing(true, false, Listen) else RecreatingChannel(false);
    }

    /** `notify_one`, called by the callback of the current channel. */
    method Notify()
      requires Valid()
      modifies this
      ensures Valid()
      ensures View() == Notified(old(View()))
    {
      permit := true;
    }
  }

  /** Both machines on the watch channel they share, and the broker around them. */
  class Recovery {
    const watch: ConnectionWatch
    const keeper: ConnectionStateMachine
    const consumer: ConsumerStateMachine
    var alive: set<Connection>
    var home: map<Channel, Connection>
    var hooked: set<Channel>
    var registered: set<Channel>
    var nextConnection: Connection
    var nextChannel: Channel
    var trace: seq<bool>

    ghost function View(): World
      reads this, watch, keeper, consumer, keeper.watch, consumer.watch
    {
      World(keeper.View().keeper, consumer.View(), alive, home, hooked, registered, nextConnection, nextChannel, trace)
    }

    ghost predicate Valid()
      reads this, watch, keeper, consumer, keeper.watch, consumer.watch
    {
      keeper.watch == watch && consumer.watch == watch && Inv(View())
    }

    constructor ()
      ensures Valid() && fresh(watch) && fresh(keeper) && fresh(consumer)
      ensures View() == INITIAL
    {
      var shared := new ConnectionWatch(0);
      watch := shared;
      keeper := new ConnectionStateMachine(0, shared);
      consumer := new ConsumerStateMachine(0, shared, 0);
      alive, home, hooked, registered := {0}, map[0 := 0], {0}, {0};
      nextConnection, nextChannel, trace := 1, 1, [];
    }

    /** A step of the connection machine. */
    method KeeperStep(e: Event)
      requires Valid() && Enabled(View(), e) && Outside(e)
      requires !e.ConnectionDies? && !e.ServerCancels? && !e.ChannelCloses?
      modifies this, watch, keeper
      ensures Valid()
      ensures View() == Apply(old(View()), e)
    {
      StepInv(View(), e);
      match e
      case NoticesFailure => keeper.NoticeFailure();
      case PublishesNone => keeper.StartClosing();
      case CloseReturns => keeper.CloseReturned();
      case Reopens =>
        keeper.Reopened(nextConnection);
        alive, nextConnection := alive + {nextConnection}, nextConnection + 1;
      case CallbackFails => keeper.NoticeFailure();
      case PublishesConnection => keeper.CallbackRegistered();
    }

    /** A step of the broker; it may call the channel's callback. */
    method BrokerStep(e: Event)
      requires Valid() && Enabled(View(), e) && (e.ConnectionDies? || e.ServerCancels? || e.ChannelCloses?)
      modifies this, consumer
      ensures Valid()
      ensures View() == Apply(old(View()), e)
    {
      StepInv(View(), e);
      match e
      case ConnectionDies(id) =>
        alive, registered := alive - {id}, set g | g in registered && !(g in home && home[g] == id);
      case ServerCancels(g) =>
        registered := registered - {g};
        if g == consumer.channel && g in hooked {
          consumer.Notify();
        }
      case ChannelCloses(g) => registered := registered - {g};
    }

    method ConsumerStep(e: Event)
      requires Valid() && Enabled(View(), e) && !Outside(e)
      modifies this, watch, consumer
      ensures Valid()
      ensures View() == Apply(old(View()), e)
    {
      StepInv(View(), e);
      match e
      case StoresStatus =>
        trace := trace + [consumer.phase.consuming];
        consumer.StatusStored();
      case ReturnsFromCallback => consumer.CallbackReturned();
      case WakesUp => consumer.Select();
      case Reads => consumer.ReadConnection();
      case GetsInterrupted => consumer.Interrupt();
      case OpensChannel =>
        home := home[nextChannel := consumer.connection.value];
        consumer.ChannelOpened(nextChannel);
        nextChannel := nextChannel + 1;
      case HooksCallback =>
        consumer.CallbackRegistered();
        hooked := hooked + {consumer.channel};
      case Consumes =>
        consumer.ConsumeReturned();
        registered := registered + {consumer.channel};
      case RestoreEnds(success) => consumer.RestoreReturned(success);
    }

    method Step(e: Event)
      requires Valid() && Enabled(View(), e)
      modifies this, watch, keeper, consumer
      ensures Valid()
      ensures View() == Apply(old(View()), e)
    {
      if !Outside(e) {
        ConsumerStep(e);
      } else if e.ConnectionDies? || e.ServerCancels? || e.ChannelCloses? {
        BrokerStep(e);
      } else {
        KeeperStep(e);
      }
    }

    /** The objects driven by the events of a run end in its last world, so they never sleep through a
        connection change or a cancel either: at rest, the consumer object is registered on the
        connection the watch channel holds, unless that is dead and yet to be noticed. */
    method Drive(es: seq<Event>, ghost ws: seq<World>)
      requires Valid() && Run(ws, es) && View() == ws[0]
      modifies this, watch, keeper, consumer
      ensures Valid() && View() == ws[|es|]
      ensures consumer.phase.Listening? && !watch.Changed() && !consumer.permit ==>
                && consumer.connection == watch.value == Some(keeper.connection)
                && (consumer.channel in registered || keeper.connection !in alive)
    {
      for i := 0 to |es|
        invariant Valid() && View() == ws[i]
      {
        Step(es[i]);
      }
      if consumer.phase.Listening? && !watch.Changed() && !consumer.permit {
        NoLostWakeup(ws, es, |es|);
      }
    }
  }
}
