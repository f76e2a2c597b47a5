/**
  What one websocket connection guarantees on every run with a clock that never goes back: the retry
  queue stays ordered by deadline, nobody is dropped early, and the heartbeat is bounded and answered
  only by its own pong.
 */
module WebSocketSafety {
  import opened Common
  import opened WebSocketModel

  // ----- bytes

  lemma BytesRoundTrip(n: nat)
    requires n < U32_SIZE
    ensures |ToBytes(n)| == 4 && FromBytes(ToBytes(n)) == n
  {
    assert n / 0x1_0000 == n / 0x100_0000 * 0x100 + n / 0x1_0000 % 0x100;
    assert n / 0x100 == n / 0x1_0000 * 0x100 + n / 0x100 % 0x100;
  }

  lemma LastByte(high: nat, low: Byte)
    ensures (high * 0x100 + low as nat) / 0x100 == high && (high * 0x100 + low as nat) % 0x100 == low as nat
  {
  }

  lemma DivTwice(n: nat)
    ensures n / 0x1_0000 == n / 0x100 / 0x100 && n / 0x100_0000 == n / 0x100 / 0x100 / 0x100
  {
  }

  lemma BytesUnique(b: seq<Byte>)
    requires |b| == 4
    ensures FromBytes(b) < U32_SIZE && ToBytes(FromBytes(b)) == b
  {
    var two := b[0] as nat * 0x100 + b[1] as nat;
    var three := two * 0x100 + b[2] as nat;
    LastByte(b[0] as nat, b[1]);
    LastByte(two, b[2]);
    LastByte(three, b[3]);
    DivTwice(FromBytes(b));
  }

  // ----- invariants

  ghost predicate Sorted(q: seq<Unconfirmed>) {
    forall i, j :: 0 <= i < j < |q| ==> q[i].retryAt <= q[j].retryAt
  }

  /** Consecutive sends are at least the retry interval apart. */
  ghost predicate Spaced(log: seq<Time>, interval: nat) {
    forall i :: 0 < i < |log| ==> log[i - 1] + interval <= log[i]
  }

  /** An entry's deadline and remaining retries are determined by the times it was sent. */
  ghost predicate EntryOk(config: Config, u: Unconfirmed, log: seq<Time>) {
    && log != []
    && |log| + u.retriesRemaining == config.retryMaxCount + 1
    && u.retryAt == log[|log| - 1] + config.retryInterval
    && Spaced(log, config.retryInterval)
  }

  ghost predicate QueueInv(w: World, config: Config) {
    && |w.sends| == |w.c.queue|
    && Sorted(w.c.queue)
    && (forall i :: 0 <= i < |w.c.queue| ==> w.c.queue[i].retryAt <= w.clock + config.retryInterval)
    && (forall i :: 0 <= i < |w.c.queue| ==> EntryOk(config, w.c.queue[i], w.sends[i]))
  }

  /** The earliest time the next ping may fall due. */
  function PingFloor(lastReset: Time, pingsSent: nat, interval: nat): Time {
    if pingsSent == 0 then lastReset + interval
    else if pingsSent == 1 then lastReset + 2 * interval
    else lastReset + 3 * interval
  }

  ghost predicate HeartbeatInv(w: World, config: Config) {
    && w.c.pingsSent <= 2
    && w.lastReset <= w.clock
    && w.c.pingTime >= PingFloor(w.lastReset, w.c.pingsSent, config.pingInterval)
    && w.c.pingMessage == w.heartbeats % U32_SIZE
    && w.heartbeats <= w.resets + 1
    && (w.c.pingsSent > 0 ==> w.heartbeats > 0)
    && (w.c.status.Open? && w.c.pingsSent == 0 ==> w.heartbeats <= w.resets)
    && |w.pings| <= 2 * w.resets + w.c.pingsSent
  }

  ghost predicate PingsInv(w: World) {
    && (forall i :: 0 <= i < |w.pings| ==> PingOk(w.pings[i], w.heartbeats))
    && (forall i, j :: 0 <= i < j < |w.pings| ==> w.pings[i].heartbeat <= w.pings[j].heartbeat)
    && (forall i :: 0 <= i < |w.pings| - 2 ==> w.pings[i].heartbeat < w.pings[i + 2].heartbeat)
    && (w.c.pingsSent == 1 ==> forall i :: 0 <= i < |w.pings| - 1 ==> w.pings[i].heartbeat < w.heartbeats)
  }

  /** A ping carries its heartbeat's number, so both pings of a heartbeat carry the same. */
  predicate PingOk(p: PingRecord, heartbeats: nat) {
    1 <= p.heartbeat <= heartbeats && p.payload == ToBytes(p.heartbeat % U32_SIZE)
  }

  /** Why a connection may be closed for not answering. */
  ghost predicate ClosedFairly(w: World, config: Config) {
    && (w.c.status == Closed(Silent) ==> w.clock >= w.lastReset + 3 * config.pingInterval)
    && (w.c.status == Closed(NotConfirmed) ==>
          && |w.lastDropped| == config.retryMaxCount + 1
          && Spaced(w.lastDropped, config.retryInterval)
          && w.clock >= w.lastDropped[config.retryMaxCount] + config.retryInterval)
  }

  ghost predicate Inv(w: World, config: Config) {
    QueueInv(w, config) && HeartbeatInv(w, config) && PingsInv(w) && ClosedFairly(w, config)
  }

  // ----- preservation

  lemma PongMatches(c: Connection, payload: seq<Byte>)
    requires c.pingMessage < U32_SIZE
    ensures |payload| == 4 ==> (FromBytes(payload) == c.pingMessage <==> payload == ToBytes(c.pingMessage))
    ensures payload == ToBytes(c.pingMessage) ==> |payload| == 4
  {
    BytesRoundTrip(c.pingMessage);
    if |payload| == 4 {
      BytesUnique(payload);
    }
  }

  lemma NextNumber(n: nat)
    ensures (n + 1) % U32_SIZE == (n % U32_SIZE + 1) % U32_SIZE
    ensures n % U32_SIZE % U32_SIZE == n % U32_SIZE
  {
  }

  lemma PingInv(w: World, config: Config, e: Event)
    requires Inv(w, config) && Enabled(w, e) && e.PingDue?
    ensures Inv(Apply(w, config, e), config)
  {
    var w' := Apply(w, config, e);
    if w.c.pingsSent <= 1 {
      NextNumber(w.heartbeats);
      NextNumber(w'.heartbeats);
      assert w'.c.pingMessage == w'.heartbeats % U32_SIZE;
      PingsGrow(w, w', config, e.pingSent);
      assert HeartbeatInv(w', config);
    }
  }

  lemma PingsGrow(w: World, w': World, config: Config, sent: bool)
    requires PingsInv(w) && HeartbeatInv(w, config) && w.c.status.Open? && w.c.pingsSent <= 1
    requires w'.heartbeats == w.heartbeats + if w.c.pingsSent == 0 then 1 else 0
    requires w'.c.pingsSent == w.c.pingsSent + if sent then 1 else 0
    requires w'.pings == w.pings + if sent then [PingRecord(w'.heartbeats, ToBytes(w'.heartbeats % U32_SIZE))] else []
    ensures PingsInv(w')
  {
    assert forall i :: 0 <= i < |w.pings| ==> PingOk(w.pings[i], w.heartbeats) && PingOk(w.pings[i], w'.heartbeats);
  }

  lemma WithoutSorted(q: seq<Unconfirmed>, i: nat)
    requires Sorted(q) && i < |q|
    ensures Sorted(Without(q, i))
  {
  }

  lemma ConfirmInv(w: World, config: Config, id: MessageId)
    requires Inv(w, config) && Enabled(w, FrameIn(Binary(Some(id))))
    ensures Inv(Apply(w, config, FrameIn(Binary(Some(id)))), config)
  {
    var w' := Apply(w, config, FrameIn(Binary(Some(id))));
    var i := FirstCopy(w.c.queue, id);
    if i < |w.c.queue| {
      WithoutSorted(w.c.queue, i);
      assert w'.c.queue == Without(w.c.queue, i) && w'.sends == Without(w.sends, i);
      assert QueueInv(w', config) by {
        WithoutQueueInv(w, w', config, i);
      }
    }
  }

  lemma WithoutQueueInv(w: World, w': World, config: Config, i: nat)
    requires QueueInv(w, config) && i < |w.c.queue| && w'.clock == w.clock
    requires w'.c.queue == Without(w.c.queue, i) && w'.sends == Without(w.sends, i)
    ensures QueueInv(w', config)
  {
    WithoutSorted(w.c.queue, i);
    forall k | 0 <= k < |w'.c.queue|
      ensures EntryOk(config, w'.c.queue[k], w'.sends[k]) && w'.c.queue[k].retryAt <= w.clock + config.retryInterval
    {
      var k' := if k < i then k else k + 1;
      assert w'.c.queue[k] == w.c.queue[k'] && w'.sends[k] == w.sends[k'];
    }
  }

  lemma FrameInv(w: World, config: Config, frame: Frame)
    requires Inv(w, config) && Enabled(w, FrameIn(frame)) && !(frame.Binary? && frame.messageId.Some?)
    ensures Inv(Apply(w, config, FrameIn(frame)), config)
  {
    if frame.Pong? {
      PongMatches(w.c, frame.payload);
    }
  }

  lemma QueuedInv(w: World, w': World, config: Config, u: Unconfirmed, log: seq<Time>)
    requires QueueInv(w, config) && w.clock <= w'.clock
    requires w'.c.queue == w.c.queue + [u] && w'.sends == w.sends + [log]
    requires EntryOk(config, u, log) && u.retryAt == w'.clock + config.retryInterval
    ensures QueueInv(w', config)
  {
  }

  lemma DeliveryInv(w: World, config: Config, e: Event)
    requires Inv(w, config) && Enabled(w, e) && e.DeliveryIn?
    ensures Inv(Apply(w, config, e), config)
  {
    var w' := Apply(w, config, e);
    if e.delivery.Delivered? && e.deliverySent {
      QueuedInv(w, w', config, w'.c.queue[|w.c.queue|], [w'.clock]);
    }
  }

  lemma RetryInv(w: World, config: Config, e: Event)
    requires Inv(w, config) && Enabled(w, e) && e.RetryDue?
    ensures Inv(Apply(w, config, e), config)
  {
    var w' := Apply(w, config, e);
    var u, rest := w.c.queue[0], w.c.queue[1..];
    var log := w.sends[0];
    assert EntryOk(config, u, log);
    if u.retriesRemaining > 0 && e.retrySent {
      var u' := Unconfirmed(u.message, w.clock + config.retryInterval, u.retriesRemaining - 1);
      assert w'.c.queue == rest + [u'] && w'.sends == w.sends[1..] + [log + [w.clock]];
      assert EntryOk(config, u', log + [w.clock]);
      assert forall k :: 0 <= k < |rest| ==> w'.c.queue[k] == w.c.queue[k + 1] && w'.sends[k] == w.sends[k + 1];
    } else {
      assert forall k :: 0 <= k < |rest| ==> w'.c.queue[k] == w.c.queue[k + 1] && w'.sends[k] == w.sends[k + 1];
    }
  }

  lemma StepInv(w: World, config: Config, e: Event)
    requires Inv(w, config) && Enabled(w, e)
    ensures Inv(Apply(w, config, e), config)
  {
    match e
    case Pass(t) =>
    case PingDue(_, _) => PingInv(w, config, e);
    case FrameIn(Binary(Some(id))) => ConfirmInv(w, config, id);
    case FrameIn(frame) => FrameInv(w, config, frame);
    case DeliveryIn(_, _, _) => DeliveryInv(w, config, e);
    case RetryDue(_, _) => RetryInv(w, config, e);
  }

  ghost predicate Run(ws: seq<World>, es: seq<Event>, config: Config) {
    && |ws| == |es| + 1
    && Init(ws[0], config)
    && forall i :: 0 <= i < |es| ==>
         Enabled(ws[i], es[i]) && ws[i + 1] == Apply(ws[i], config, es[i])
  }

  lemma {:induction false} RunInv(ws: seq<World>, es: seq<Event>, config: Config, n: nat)
    requires Run(ws, es, config) && n < |ws|
    ensures Inv(ws[n], config)
  {
    if n > 0 {
      RunInv(ws, es, config, n - 1);
      StepInv(ws[n - 1], config, es[n - 1]);
    }
  }

  // ----- main results

  lemma {:induction false} SpacedTotal(log: seq<Time>, interval: nat, n: nat)
    requires Spaced(log, interval) && n < |log|
    ensures log[n] >= log[0] + n * interval
  {
    if n > 0 {
      SpacedTotal(log, interval, n - 1);
      assert n * interval == (n - 1) * interval + interval;
    }
  }

  /** Waiting for the front of the queue is waiting for the earliest deadline, and every entry keeps to
      its schedule: sent at most max + 1 times, with its next deadline a full interval per send after
      the first. */
  lemma RetrySchedule(ws: seq<World>, es: seq<Event>, config: Config, n: nat)
    requires Run(ws, es, config) && n < |ws|
    ensures |ws[n].sends| == |ws[n].c.queue|
    ensures forall i :: 0 <= i < |ws[n].c.queue| ==> ws[n].c.queue[0].retryAt <= ws[n].c.queue[i].retryAt
    ensures forall i :: 0 <= i < |ws[n].c.queue| ==>
              && 1 <= |ws[n].sends[i]| <= config.retryMaxCount + 1
              && |ws[n].sends[i]| == config.retryMaxCount - ws[n].c.queue[i].retriesRemaining + 1
              && ws[n].c.queue[i].retryAt >= ws[n].sends[i][0] + |ws[n].sends[i]| * config.retryInterval
  {
    RunInv(ws, es, config, n);
    forall i | 0 <= i < |ws[n].c.queue|
      ensures ws[n].c.queue[i].retryAt >= ws[n].sends[i][0] + |ws[n].sends[i]| * config.retryInterval
    {
      var log := ws[n].sends[i];
      assert EntryOk(config, ws[n].c.queue[i], log);
      SpacedTotal(log, config.retryInterval, |log| - 1);
      assert |log| * config.retryInterval == (|log| - 1) * config.retryInterval + config.retryInterval;
    }
  }

  /** A client is dropped for an unconfirmed message only after max + 1 sends of it and max + 1 full
      intervals since the first. */
  lemma NotDroppedEarly(ws: seq<World>, es: seq<Event>, config: Config, n: nat)
    requires Run(ws, es, config) && n < |ws|
    requires ws[n].c.status == Closed(NotConfirmed)
    ensures |ws[n].lastDropped| == config.retryMaxCount + 1
    ensures ws[n].clock >= ws[n].lastDropped[0] + (config.retryMaxCount + 1) * config.retryInterval
  {
    RunInv(ws, es, config, n);
    var log := ws[n].lastDropped;
    SpacedTotal(log, config.retryInterval, config.retryMaxCount);
    assert (config.retryMaxCount + 1) * config.retryInterval
        == config.retryMaxCount * config.retryInterval + config.retryInterval;
  }

  /** Heartbeat bounds. */
  lemma HeartbeatBounds(ws: seq<World>, es: seq<Event>, config: Config, n: nat)
    requires Run(ws, es, config) && n < |ws|
    ensures ws[n].c.pingsSent <= 2
    ensures ws[n].c.pingTime >= ws[n].lastReset + (ws[n].c.pingsSent + 1) * config.pingInterval
    ensures |ws[n].pings| <= 2 * (ws[n].resets + 1)
    ensures ws[n].c.status == Closed(Silent) ==> ws[n].clock >= ws[n].lastReset + 3 * config.pingInterval
  {
    RunInv(ws, es, config, n);
    var k := ws[n].c.pingsSent;
    assert k == 0 || k == 1 || k == 2;
    assert k == 0 ==> (k + 1) * config.pingInterval == config.pingInterval;
    assert k == 1 ==> (k + 1) * config.pingInterval == 2 * config.pingInterval;
    assert k == 2 ==> (k + 1) * config.pingInterval == 3 * config.pingInterval;
  }

  /** The two pings of a heartbeat carry the same number, and no heartbeat has a third. */
  lemma TwoPingsPerHeartbeat(ws: seq<World>, es: seq<Event>, config: Config, n: nat, i: nat, j: nat)
    requires Run(ws, es, config) && n < |ws| && i < j < |ws[n].pings|
    requires ws[n].pings[i].heartbeat == ws[n].pings[j].heartbeat
    ensures ws[n].pings[i].payload == ws[n].pings[j].payload && j == i + 1
  {
    RunInv(ws, es, config, n);
    var ps := ws[n].pings;
    assert PingOk(ps[i], ws[n].heartbeats) && PingOk(ps[j], ws[n].heartbeats);
    assert forall k :: 0 <= k < |ps| - 2 ==> ps[k].heartbeat < ps[k + 2].heartbeat;
    assert forall k :: i + 2 <= k < |ps| ==> ps[i].heartbeat < ps[i + 2].heartbeat <= ps[k].heartbeat;
  }

  /** A pong counts exactly when a ping is outstanding and the payload is the current number. */
  lemma PongResetsExactly(c: Connection, config: Config, payload: seq<Byte>, now: Time)
    requires c.pingMessage < U32_SIZE && c.status.Open?
    ensures c.pingsSent > 0 && payload == ToBytes(c.pingMessage)
            ==> PongReceived(c, config, payload, now) == c.(pingsSent := 0, pingTime := now + config.pingInterval)
    ensures !(c.pingsSent > 0 && payload == ToBytes(c.pingMessage))
            ==> PongReceived(c, config, payload, now) == if |payload| == 4 then c else c.(status := Closed(ProtocolError))
  {
    PongMatches(c, payload);
  }

  /** The answer to a ping of heartbeat `h` counts for the current heartbeat exactly when the numbers
      of the two agree modulo 2^32: never for an earlier one among the last 2^32 - 1. */
  lemma OldPongsIgnored(ws: seq<World>, es: seq<Event>, config: Config, n: nat, i: nat)
    requires Run(ws, es, config) && n < |ws| && i < |ws[n].pings|
    requires ws[n].c.status.Open?
    ensures var w, p := ws[n], ws[n].pings[i];
            Resets(w.c, Pong(p.payload)) <==> w.c.pingsSent > 0 && (w.heartbeats - p.heartbeat) % U32_SIZE == 0
    ensures var w, p := ws[n], ws[n].pings[i];
            0 < w.heartbeats - p.heartbeat < U32_SIZE ==>
              !Resets(w.c, Pong(p.payload)) && PongReceived(w.c, config, p.payload, w.clock) == w.c
  {
    RunInv(ws, es, config, n);
    var w, p := ws[n], ws[n].pings[i];
    assert PingOk(p, w.heartbeats);
    BytesRoundTrip(p.heartbeat % U32_SIZE);
    BytesRoundTrip(w.c.pingMessage);
    SameRemainder(w.heartbeats, p.heartbeat);
    if 0 < w.heartbeats - p.heartbeat < U32_SIZE {
      assert (w.heartbeats - p.heartbeat) % U32_SIZE == w.heartbeats - p.heartbeat;
      PongResetsExactly(w.c, config, p.payload, w.clock);
    }
  }

  lemma SameRemainder(a: nat, b: nat)
    requires b <= a
    ensures a % U32_SIZE == b % U32_SIZE <==> (a - b) % U32_SIZE == 0
  {
    var q, r := a / U32_SIZE - b / U32_SIZE, a % U32_SIZE - b % U32_SIZE;
    assert a - b == q * U32_SIZE + r;
  }

  /** Only a matching confirmation or pong takes back pings: a frame that answers restarts the heartbeat,
      with no ping outstanding and the next one a full interval away, and any other frame leaves it as it
      is; every other step leaves it too, except that a ping sent counts as outstanding and puts the next
      one interval after its own send. */
  lemma OnlyAnswersReset(w: World, config: Config, e: Event)
    requires w.c.pingMessage < U32_SIZE && Enabled(w, e)
    ensures var c, c' := w.c, Apply(w, config, e).c;
            (c'.pingTime, c'.pingsSent) ==
            if e.FrameIn? && Resets(c, e.frame) then (w.clock + config.pingInterval, 0)
            else if e.PingDue? && e.pingSent && c.pingsSent < 2
            then (w.clock + e.pingTook + config.pingInterval, c.pingsSent + 1)
            else (c.pingTime, c.pingsSent)
    ensures Apply(w, config, e).resets == w.resets + if e.FrameIn? && Resets(w.c, e.frame) then 1 else 0
    ensures Apply(w, config, e).lastReset == if e.FrameIn? && Resets(w.c, e.frame) then w.clock else w.lastReset
  {
    if e.FrameIn? && e.frame.Pong? {
      PongMatches(w.c, e.frame.payload);
    }
  }

  /** What closes a connection, and nothing else does: for each reason the one kind of event. */
  lemma ClosedExactly(w: World, config: Config, e: Event)
    requires Enabled(w, e) && w.c.status.Open?
    ensures var status := Apply(w, config, e).c.status;
            && (status == Closed(Silent) <==> e.PingDue? && w.c.pingsSent >= 2)
            && (status == Closed(NotConfirmed) <==> e.RetryDue? && w.c.queue[0].retriesRemaining == 0)
            && (status == Closed(SendFailed) <==>
                  || (e.PingDue? && w.c.pingsSent < 2 && !e.pingSent)
                  || (e.RetryDue? && w.c.queue[0].retriesRemaining > 0 && !e.retrySent)
                  || (e.DeliveryIn? && e.delivery.Delivered? && !e.deliverySent))
            && (status == Closed(ProtocolError) <==>
                  e.FrameIn? && (|| e.frame.Text? || e.frame == Binary(None)
                                 || (e.frame.Pong? && |e.frame.payload| != 4)))
            && (status == Closed(ClientClosed) <==> e.FrameIn? && e.frame.Close?)
            && (status == Closed(StreamFailed) <==> e.FrameIn? && (e.frame.Failure? || e.frame.End?))
            && (status == Closed(Lagged) <==> e.DeliveryIn? && e.delivery.LagError?)
            && (status == Closed(ForcefullyClosed) <==> e.DeliveryIn? && e.delivery.ChannelClosed?)
  {
    if e.FrameIn? && e.frame.Binary? && e.frame.messageId.Some? {
      assert FrameReceived(w.c, config, e.frame, w.clock).status.Open?;
    }
  }

  /** A closed connection takes no further step. */
  lemma ClosedStaysClosed(w: World, config: Config, e: Event)
    requires Enabled(w, e) && w.c.status.Closed?
    ensures e.Pass? && Apply(w, config, e).c == w.c
  {
  }

  /** The pings fired in a stretch of a run. */
  function PingsFired(es: seq<Event>, m: nat, n: nat): nat
    requires m <= n <= |es|
    decreases n - m
  {
    if m == n then 0 else PingsFired(es, m, n - 1) + if es[n - 1].PingDue? then 1 else 0
  }

  /** A client that answers nothing is closed: over any stretch of a run without an answer at most two
      ping deadlines pass while the connection stays open, so the third closes it. */
  lemma {:induction false} SilentClientIsClosed(ws: seq<World>, es: seq<Event>, config: Config, m: nat, n: nat)
    requires Run(ws, es, config) && m <= n < |ws| && ws[n].c.status.Open?
    requires forall i :: m <= i < n && es[i].FrameIn? ==> !Resets(ws[i].c, es[i].frame)
    ensures ws[m].c.pingsSent + PingsFired(es, m, n) == ws[n].c.pingsSent <= 2
    decreases n - m
  {
    if m < n {
      PingsOnRun(ws, es, config, n - 1);
      SilentClientIsClosed(ws, es, config, m, n - 1);
    } else {
      assert HeartbeatInv(ws[n], config) by {
        RunInv(ws, es, config, n);
      }
    }
  }

  /** A step without an answer that leaves the connection open sends a ping if one was due. */
  lemma PingsOnRun(ws: seq<World>, es: seq<Event>, config: Config, n: nat)
    requires Run(ws, es, config) && n < |es| && ws[n + 1].c.status.Open?
    requires es[n].FrameIn? ==> !Resets(ws[n].c, es[n].frame)
    ensures ws[n].c.status.Open?
    ensures ws[n + 1].c.pingsSent == ws[n].c.pingsSent + (if es[n].PingDue? then 1 else 0) <= 2
  {
    var w, e := ws[n], es[n];
    assert HeartbeatInv(w, config) by {
      RunInv(ws, es, config, n);
    }
    if w.c.status.Closed? {
      ClosedStaysClosed(w, config, e);
    }
    ClosedExactly(w, config, e);
    OnlyAnswersReset(w, config, e);
  }

  function Queued(q: seq<Unconfirmed>): (ms: seq<Message>)
    ensures |ms| == |q|
    ensures forall i :: 0 <= i < |q| ==> ms[i] == q[i].message
  {
    seq(|q|, i requires 0 <= i < |q| => q[i].message)
  }

  /** Which messages wait for a confirmation after a step that leaves the connection open: a delivered
      one joins at the back, the front one goes to the back when it is sent again, and only a
      confirmation takes one out (`ConfirmationRemovesOneCopy`). */
  lemma QueueExactly(w: World, config: Config, e: Event)
    requires Enabled(w, e) && Apply(w, config, e).c.status.Open?
    requires !(e.FrameIn? && e.frame.Binary?)
    ensures var before, after := Queued(w.c.queue), Queued(Apply(w, config, e).c.queue);
            after == if e.DeliveryIn? && e.delivery.Delivered? then before + [e.delivery.message]
                     else if e.RetryDue? then before[1..] + [before[0]]
                     else before
  {
  }

  lemma WithoutMultiset(q: seq<Unconfirmed>, i: nat)
    requires i < |q|
    ensures multiset(q) == multiset(Without(q, i)) + multiset{q[i]}
  {
    assert q == q[..i] + [q[i]] + q[i + 1..];
  }

  /** A confirmation takes out the first copy of its message and nothing else. */
  lemma ConfirmationRemovesOneCopy(c: Connection, config: Config, id: MessageId, now: Time)
    ensures var c' := Confirmed(c, config, id, now);
            if exists u :: u in c.queue && u.message.id == id then
              exists i :: && 0 <= i < |c.queue| && c.queue[i].message.id == id
                          && c'.queue == c.queue[..i] + c.queue[i + 1..]
                          && multiset(c.queue) == multiset(c'.queue) + multiset{c.queue[i]}
                          && forall j :: 0 <= j < i ==> c.queue[j].message.id != id
            else c' == c
  {
    var i := FirstCopy(c.queue, id);
    if i < |c.queue| {
      assert c.queue[i] in c.queue;
      WithoutMultiset(c.queue, i);
      assert Confirmed(c, config, id, now).queue == Without(c.queue, i);
    }
  }
}
