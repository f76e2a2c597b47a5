/**
  What the two machines guarantee together on every run: the consumer never sleeps through a
  connection change or a cancel of its own registration, and reports its status in alternation.
 */
module ConsumerSafety {
  import opened Common
  import opened ConsumerModel

  /** The published value tells the keeper's phase apart: it is the current connection, published in
      Ok and withdrawn before the connection is closed. */
  ghost predicate PublisherInv(p: Publisher) {
    && p.watch.Valid()
    && (p.watch.value.Some? ==>
          && p.watch.value.value == p.keeper.connection
          && (p.keeper.phase.KeeperOk? || p.keeper.phase.ClosingConnection?))
    && (p.watch.value.None? ==> !p.keeper.phase.KeeperOk?)
  }

  ghost predicate KeeperInv(w: World) {
    PublisherInv(PublisherOf(w)) && w.keeper.connection < w.nextConnection
  }

  /** The consumer has been told of a change but has not read it yet. */
  predicate MustRead(p: ConsumerPhase) {
    p.WaitingForConnection? || (p.Announcing? && p.next.WaitForConnection?)
  }

  /** The consumer uses `channel` as one of its current connection. */
  predicate HasChannel(p: ConsumerPhase) {
    !MustRead(p) && p != RecreatingChannel(false)
  }

  predicate HasCallback(p: ConsumerPhase) {
    HasChannel(p) && !p.RecreatingChannel?
  }

  /** The server confirmed the consumer on `channel`, and no cancel has been acted on since. */
  predicate Subscribed(p: ConsumerPhase) {
    p == RestoringConsumer(true) || p.Listening? || (p.Announcing? && p.next.Listen?)
  }

  /** The cached connection is the published one unless a change is unseen or still to be read. */
  ghost predicate CacheInv(c: Consumer) {
    && (!c.phase.WaitingForConnection? ==> c.connection.Some?)
    && (!MustRead(c.phase) && !c.watch.Unseen() ==> c.connection == c.watch.value)
  }

  ghost predicate ConsumerInv(w: World) {
    var c := w.consumer;
    && CacheInv(c)
    && (HasChannel(c.phase) ==> c.channel in w.home && c.connection == Some(w.home[c.channel]))
    && (HasCallback(c.phase) ==> c.channel in w.hooked)
    && (Subscribed(c.phase) ==> c.channel in w.registered || c.permit || w.home[c.channel] !in w.alive)
    && c.channel < w.nextChannel
    && (forall g :: g in w.home || g in w.hooked || g in w.registered ==> g < w.nextChannel)
    && (forall id :: id in w.alive ==> id < w.nextConnection)
    && (forall g :: g in w.home ==> w.home[g] < w.nextConnection)
    && (c.connection.Some? ==> c.connection.value < w.nextConnection)
  }

  /** Whether the last status reported, or about to be, is Consuming. */
  ghost predicate TraceInv(w: World) {
    && (forall i :: 0 <= i < |w.trace| ==> (w.trace[i] <==> i % 2 == 0))
    && (|w.trace| % 2 == 1 <==> SaysConsuming(w.consumer.phase))
    && (w.consumer.phase.Announcing? ==> (w.consumer.phase.consuming <==> w.consumer.phase.next.Listen?))
  }

  predicate SaysConsuming(p: ConsumerPhase) {
    p.Listening? || (p.Announcing? && p.consuming == p.stored)
  }

  ghost predicate Inv(w: World) {
    KeeperInv(w) && ConsumerInv(w) && TraceInv(w)
  }

  lemma KeeperStepInv(w: World, e: Event)
    requires Inv(w) && Enabled(w, e)
    ensures KeeperInv(Apply(w, e))
  {
  }

  /** Steps of the connection machine and of the environment. */
  predicate Outside(e: Event) {
    || e.ConnectionDies? || e.ServerCancels? || e.ChannelCloses? || e.NoticesFailure? || e.PublishesNone?
    || e.CloseReturns? || e.Reopens? || e.CallbackFails? || e.PublishesConnection?
  }

  lemma OutsideStepInv(w: World, e: Event)
    requires Inv(w) && Enabled(w, e) && Outside(e)
    ensures ConsumerInv(Apply(w, e))
  {
  }

  lemma OwnStepInv(w: World, e: Event)
    requires Inv(w) && Enabled(w, e) && !Outside(e)
    ensures ConsumerInv(Apply(w, e))
  {
  }

  lemma TraceStepInv(w: World, e: Event)
    requires Inv(w) && Enabled(w, e)
    ensures TraceInv(Apply(w, e))
  {
  }

  lemma StepInv(w: World, e: Event)
    requires Inv(w) && Enabled(w, e)
    ensures Inv(Apply(w, e))
  {
    KeeperStepInv(w, e);
    if Outside(e) {
      OutsideStepInv(w, e);
    } else {
      OwnStepInv(w, e);
    }
    TraceStepInv(w, e);
  }

  lemma {:induction false} RunInv(ws: seq<World>, es: seq<Event>, n: nat)
    requires Run(ws, es) && n < |ws|
    ensures Inv(ws[n])
  {
    if n > 0 {
      RunInv(ws, es, n - 1);
      StepInv(ws[n - 1], es[n - 1]);
    }
  }

  // ----- main results

  /** However changes coalesce: a consumer at rest, with nothing unseen and no permit, uses a channel of
      the published connection and is registered on it, unless that connection just died and the
      keeper has yet to say so. */
  lemma NoLostWakeup(ws: seq<World>, es: seq<Event>, n: nat)
    requires Run(ws, es) && n < |ws|
    requires ws[n].consumer.phase.Listening? && !ws[n].consumer.watch.Unseen() && !ws[n].consumer.permit
    ensures var w, c := ws[n], ws[n].consumer;
            && c.connection.Some? && c.connection == c.watch.value == Some(w.keeper.connection)
            && c.channel in w.home && w.home[c.channel] == w.keeper.connection
            && (c.channel in w.registered || w.keeper.connection !in w.alive)
            && (w.keeper.connection !in w.alive ==> Enabled(w, NoticesFailure) || Enabled(w, PublishesNone))
  {
    RunInv(ws, es, n);
  }

  // ----- recovery ends

  /** The consumer is delivered to, on the published connection, and nothing is waiting to be handled. */
  predicate AtRest(w: World) {
    var c := w.consumer;
    c.phase.Listening? && !c.watch.Unseen() && !c.permit && w.keeper.phase.KeeperOk? && w.keeper.connection in w.alive
  }

  predicate OnDeadConnection(w: World) {
    w.consumer.channel in w.home && w.home[w.consumer.channel] !in w.alive
  }

  /** Steps of the two machines other than looking once more for a connection that is still missing,
      and the server refusing to restore a consumer on a live connection. */
  predicate Progress(w: World, e: Event) {
    match e
    case ConnectionDies(_) => false
    case ServerCancels(_) => false
    case ChannelCloses(_) => false
    case Reads => w.consumer.watch.value.Some? || w.consumer.watch.Unseen()
    case RestoreEnds(success) => success || OnDeadConnection(w)
    case _ => true
  }

  /** A step that makes progress, wherever there is one. */
  ghost function NextStep(w: World): Event {
    var c, k := w.consumer, w.keeper;
    if c.phase.Announcing? then (if c.phase.stored then ReturnsFromCallback else StoresStatus)
    else if c.phase.WaitingForConnection? && (c.watch.value.Some? || c.watch.Unseen()) then Reads
    else if (c.phase.RecreatingChannel? || c.phase.RestoringConsumer?) && c.watch.Unseen() then GetsInterrupted
    else if c.phase.Listening? && (c.watch.Unseen() || c.permit) then WakesUp
    else if c.phase == RecreatingChannel(true) then HooksCallback
    else if c.phase == RestoringConsumer(true) then RestoreEnds(true)
    else if c.phase == RestoringConsumer(false) then (if OnDeadConnection(w) then RestoreEnds(false) else Consumes)
    else
      match k.phase
      case KeeperOk => if k.connection in w.alive then OpensChannel else NoticesFailure
      case ClosingConnection => PublishesNone
      case AwaitingClose => CloseReturns
      case RestoringConnection => Reopens
      case RestoringCallback => PublishesConnection
  }

  lemma NextStepProgresses(w: World)
    requires Inv(w) && !AtRest(w)
    ensures Enabled(w, NextStep(w)) && Progress(w, NextStep(w))
  {
  }

  /** Never stuck: whatever has died or been cancelled, the machines have a step that makes progress
      exactly as long as the consumer is not at rest, and at rest it is registered on a channel of the
      live connection. */
  lemma NeverStuck(ws: seq<World>, es: seq<Event>, n: nat)
    requires Run(ws, es) && n < |ws|
    ensures AtRest(ws[n]) <==> forall e :: Enabled(ws[n], e) ==> !Progress(ws[n], e)
    ensures var w, c := ws[n], ws[n].consumer;
            AtRest(w) ==> c.channel in w.registered && c.channel in w.home && w.home[c.channel] == w.keeper.connection
  {
    RunInv(ws, es, n);
    if !AtRest(ws[n]) {
      NextStepProgresses(ws[n]);
    }
  }

  /** How far the connection machine is from Ok with a live connection. */
  function KeeperRank(w: World): nat {
    var live := w.keeper.connection in w.alive;
    match w.keeper.phase
    case KeeperOk => if live then 0 else 5
    case ClosingConnection => 4
    case AwaitingClose => 3
    case RestoringConnection => 2
    case RestoringCallback => if live then 1 else 6
  }

  /** How far the consumer is from listening, if its connection stays as it is. */
  function ConsumerRank(w: World): nat {
    var dead := OnDeadConnection(w);
    match w.consumer.phase
    case Listening => 0
    case Announcing(_, stored, Listen) => if stored then 1 else 2
    case RestoringConsumer(consumed) => if dead then 8 else if consumed then 3 else 4
    case RecreatingChannel(channelOpened) => if !channelOpened then 6 else if dead then 9 else 5
    case WaitingForConnection => 7
    case Announcing(_, stored, WaitForConnection) => if stored then 8 else 9
    case Announcing(_, stored, Restore) => (if dead then 9 else 5) + (if stored then 0 else 1)
  }

  function Distance(w: World): nat {
    50 * KeeperRank(w) + ConsumerRank(w) + (if w.consumer.permit then 12 else 0)
    + (if w.consumer.watch.Unseen() then 20 else 0)
  }

  lemma KeeperComesCloser(w: World, e: Event)
    requires Inv(w) && Enabled(w, e) && Progress(w, e) && Outside(e)
    ensures Distance(Apply(w, e)) < Distance(w)
  {
  }

  lemma ConsumerComesCloser(w: World, e: Event)
    requires Inv(w) && Enabled(w, e) && Progress(w, e) && !Outside(e)
    ensures Distance(Apply(w, e)) < Distance(w)
  {
  }

  /** A step that leaves things as they are: neither the environment nor a refusal. */
  predicate Calm(w: World, e: Event) {
    Progress(w, e) || e.Reads?
  }

  function ProgressSteps(ws: seq<World>, es: seq<Event>, m: nat, n: nat): nat
    requires m <= n <= |es| < |ws|
    decreases n - m
  {
    if m == n then 0 else (if Progress(ws[m], es[m]) then 1 else 0) + ProgressSteps(ws, es, m + 1, n)
  }

  /** And recovery ends: from any moment of any run, while no connection dies, nothing is cancelled and
      the server refuses nothing on a live connection, at most 342 steps make progress, and when no
      more can the consumer is at rest. */
  lemma {:induction false} RecoveryEnds(ws: seq<World>, es: seq<Event>, m: nat, n: nat)
    requires Run(ws, es) && m <= n < |ws|
    requires forall i :: m <= i < n ==> Calm(ws[i], es[i])
    ensures ProgressSteps(ws, es, m, n) + Distance(ws[n]) <= Distance(ws[m]) <= 342
    decreases n - m
  {
    if m < n {
      RecoveryEnds(ws, es, m + 1, n);
      RunInv(ws, es, m);
      if Progress(ws[m], es[m]) {
        if Outside(es[m]) {
          KeeperComesCloser(ws[m], es[m]);
        } else {
          ConsumerComesCloser(ws[m], es[m]);
        }
      }
    }
  }

  /** A cancel sets the permit exactly when it is of the channel the consumer uses now; one of an
      earlier channel leaves the consumer as it is. */
  lemma CancelReachesCurrentConsumer(ws: seq<World>, es: seq<Event>, n: nat, g: Channel)
    requires Run(ws, es) && n < |ws| && Enabled(ws[n], ServerCancels(g)) && HasCallback(ws[n].consumer.phase)
    ensures var w, c := ws[n], ws[n].consumer;
            Apply(w, ServerCancels(g)).consumer == if g == c.channel then c.(permit := true) else c
  {
    RunInv(ws, es, n);
  }

  /** Channels are numbered as they are opened, and only opened ones are hooked. */
  lemma {:induction false} ChannelsGrow(ws: seq<World>, es: seq<Event>, m: nat, n: nat)
    requires Run(ws, es) && m <= n < |ws|
    ensures ws[m].consumer.channel <= ws[n].consumer.channel
    ensures forall g :: g in ws[m].hooked ==> g <= ws[m].consumer.channel
    decreases n
  {
    if m < n {
      ChannelsGrow(ws, es, m, n - 1);
      assert Enabled(ws[n - 1], es[n - 1]);
      RunInv(ws, es, n - 1);
    } else if n > 0 {
      ChannelsGrow(ws, es, n - 1, n - 1);
      assert Enabled(ws[n - 1], es[n - 1]);
      RunInv(ws, es, n - 1);
    }
  }

  /** Channel `g` was cancelled at step `i`, after its callback was registered, and no cancel has been
      acted on since. */
  ghost predicate CancelledAt(ws: seq<World>, es: seq<Event>, i: nat, n: nat, g: Channel)
    requires n <= |es| < |ws|
  {
    && i < n && es[i] == ServerCancels(g) && g in ws[i].hooked
    && forall j :: i < j < n ==> es[j] != WakesUp || ws[j].consumer.watch.Unseen()
  }

  lemma PermitChanges(w: World, e: Event)
    requires Enabled(w, e)
    ensures Apply(w, e).consumer.channel == if e.OpensChannel? then w.nextChannel else w.consumer.channel
    ensures Apply(w, e).consumer.permit ==
            if e == ServerCancels(w.consumer.channel) && w.consumer.channel in w.hooked then true
            else !e.OpensChannel? && (e != WakesUp || w.consumer.watch.Unseen()) && w.consumer.permit
  {
  }

  lemma NewChannelNotCancelled(ws: seq<World>, es: seq<Event>, n: nat, i: nat)
    requires Run(ws, es) && n < |ws|
    ensures !CancelledAt(ws, es, i, n, ws[n].nextChannel)
  {
    assert ws[n].consumer.channel < ws[n].nextChannel by {
      RunInv(ws, es, n);
    }
    if i < n {
      ChannelsGrow(ws, es, i, n);
    }
  }

  /** A permit is there exactly if the server cancelled the channel in use since the last cancel was
      acted on; none is left over from an earlier channel, and a connection change uses none up. */
  lemma {:induction false} PermitExactly(ws: seq<World>, es: seq<Event>, n: nat)
    requires Run(ws, es) && n < |ws|
    ensures ws[n].consumer.permit <==> exists i :: CancelledAt(ws, es, i, n, ws[n].consumer.channel)
  {
    if n > 0 {
      var p := n - 1;
      var w, e, g := ws[p], es[p], ws[n].consumer.channel;
      PermitExactly(ws, es, p);
      PermitChanges(w, e);
      if i :| CancelledAt(ws, es, i, n, g) {
        CancelledStep(ws, es, i, p, g);
        if e.OpensChannel? {
          NewChannelNotCancelled(ws, es, p, i);
        }
      }
      if e == ServerCancels(g) && g in w.hooked {
        CancelledStep(ws, es, p, p, g);
      } else if w.consumer.permit {
        var i :| CancelledAt(ws, es, i, p, w.consumer.channel);
        CancelledStep(ws, es, i, p, w.consumer.channel);
      }
    }
  }

  lemma CancelledStep(ws: seq<World>, es: seq<Event>, i: nat, n: nat, g: Channel)
    requires Run(ws, es) && n < |es|
    ensures CancelledAt(ws, es, i, n + 1, g) <==>
              || (i == n && es[n] == ServerCancels(g) && g in ws[n].hooked)
              || (CancelledAt(ws, es, i, n, g) && (es[n] != WakesUp || ws[n].consumer.watch.Unseen()))
  {
  }

  lemma {:induction false} WokenStays(ws: seq<World>, es: seq<Event>, k: nat, n: nat)
    requires Run(ws, es) && k < n < |ws| && es[k] == WakesUp
    requires forall i :: k < i < n ==> es[i] != ReturnsFromCallback
    ensures ws[n].consumer.phase.Announcing? && ws[n].consumer.channel == ws[k].consumer.channel
    ensures ws[n].consumer.phase.next == if ws[k].consumer.watch.Unseen() then WaitForConnection else Restore
    decreases n
  {
    var w, e := ws[n - 1], es[n - 1];
    assert Enabled(w, e) && ws[n] == Apply(w, e);
    if k + 1 < n {
      WokenStays(ws, es, k, n - 1);
      AnnouncingStays(w, e);
    }
  }

  lemma AnnouncingStays(w: World, e: Event)
    requires Enabled(w, e) && w.consumer.phase.Announcing? && e != ReturnsFromCallback
    ensures var c, c' := w.consumer, Apply(w, e).consumer;
            c'.phase.Announcing? && c'.phase.next == c.phase.next && c'.channel == c.channel
  {
  }

  /** What a wakeup leads to when its status callback returns: after a connection change the new one is
      waited for, after a cancel the consumer is restored on the channel it has. */
  lemma WakesToExactly(ws: seq<World>, es: seq<Event>, k: nat, n: nat)
    requires Run(ws, es) && k < n < |es| && es[k] == WakesUp && es[n] == ReturnsFromCallback
    requires forall i :: k < i < n ==> es[i] != ReturnsFromCallback
    ensures ws[n + 1].consumer.phase ==
            if ws[k].consumer.watch.Unseen() then WaitingForConnection else RestoringConsumer(false)
    ensures ws[n + 1].consumer.channel == ws[k].consumer.channel
  {
    WokenStays(ws, es, k, n);
    assert Enabled(ws[n], es[n]);
  }

  /** Opening a channel in RecreatingChannel never meets a missing connection. */
  lemma UnwrapIsSafe(ws: seq<World>, es: seq<Event>, n: nat)
    requires Run(ws, es) && n < |ws| && ws[n].consumer.phase.RecreatingChannel?
    ensures ws[n].consumer.connection.Some?
  {
    RunInv(ws, es, n);
  }

  /** Statuses alternate Consuming, Recovering, Consuming, ... */
  lemma StatusAlternates(ws: seq<World>, es: seq<Event>, n: nat, i: nat)
    requires Run(ws, es) && n < |ws| && i < |ws[n].trace|
    ensures ws[n].trace[i] <==> i % 2 == 0
    ensures SaysConsuming(ws[n].consumer.phase) <==> |ws[n].trace| % 2 == 1
  {
    RunInv(ws, es, n);
  }
}
