/**
  Delivery confirmations: the once-only flag of a message shared by every connection it was queued
  to. Connections run `WebSocketModel`; a step of one of them may execute the callback.
 */
module Confirmations {
  import opened Common
  import opened WebSocketModel

  type UserId = nat
  type ConnectionId = nat

  datatype NotificationStatus = New | Updated | Deleted

  /** What `create_message` is given. */
  datatype Source = Source(payload: seq<Byte>, notification: Option<(NotificationId, NotificationStatus)>)

  /** `create_message`: only a NEW notification gets a delivered callback. */
  function CreateMessage(id: MessageId, s: Source): Message {
    Message(id, s.payload,
            if s.notification.Some? && s.notification.value.1.New? then Some(s.notification.value.0) else None)
  }

  datatype Report = Report(message: MessageId, user: UserId, notification: NotificationId)

  /** The shared callback: `execute` reports at most once, whoever calls it. */
  class Callback {
    const message: MessageId
    const notification: NotificationId
    var wasCalled: bool

    constructor (message: MessageId, notification: NotificationId)
      ensures this.message == message && this.notification == notification && !wasCalled
    {
      this.message := message;
      this.notification := notification;
      wasCalled := false;
    }

    /** This object is the flag of message `m` in system `s`. */
    ghost predicate StandsFor(s: System, m: Message)
      reads this
    {
      m.id == message && m.notification == Some(notification) && (wasCalled <==> message in s.called)
    }

    /** Run for `m` by connection `c`, it does to the flag and hands over to send what the model says. */
    method Execute(user: UserId, ghost s: System, ghost c: ConnectionId, ghost m: Message) returns (report: Option<Report>)
      requires StandsFor(s, m) && c !in s.sending
      modifies this
      ensures StandsFor(ExecuteCallback(s, c, user, m), m)
      ensures wasCalled
      ensures report == if old(wasCalled) then None else Some(Report(message, user, notification))
      ensures ExecuteCallback(s, c, user, m).sending ==
              if report.Some? then s.sending[c := report.value] else s.sending
    {
      var before := wasCalled;
      wasCalled := true;
      if before {
        return None;
      }
      return Some(Report(message, user, notification));
    }
  }

  datatype Client = Client(user: UserId, connection: Connection)

  datatype System = System(
    created: map<MessageId, Source>,
    clients: map<ConnectionId, Client>,
    called: set<MessageId>,                  // messages whose flag is set
    sending: map<ConnectionId, Report>,      // between the swap and the end of the send
    produced: seq<Report>,
    confirmations: seq<(MessageId, UserId)>) // every accepted confirmation, in order

  datatype Event =
    | Create(id: MessageId, source: Source)
    | Connect(newConnection: ConnectionId, user: UserId, time: Time)
    | Queue(queueTo: ConnectionId, queued: MessageId, queueSent: bool, queueTime: Time)
    | Retry(retryOn: ConnectionId, retrySent: bool, retryTime: Time)
    | Beat(beatOn: ConnectionId, beatSent: bool, beatTime: Time)
    | Incoming(from: ConnectionId, frame: Frame, frameTime: Time)
    | Produced(sender: ConnectionId)

  predicate Running(s: System, c: ConnectionId) {
    c in s.clients && s.clients[c].connection.status.Open? && c !in s.sending
  }

  predicate Enabled(s: System, e: Event) {
    match e
    case Create(id, _) => id !in s.created
    case Connect(c, _, _) => c !in s.clients && c !in s.sending
    case Queue(c, m, _, _) => Running(s, c) && m in s.created
    case Retry(c, _, _) => Running(s, c) && s.clients[c].connection.queue != []
    case Beat(c, _, _) => Running(s, c)
    case Incoming(c, _, _) => Running(s, c)
    case Produced(c) => c in s.sending
  }

  function With(s: System, c: ConnectionId, connection: Connection): System
    requires c in s.clients
  {
    s.(clients := s.clients[c := s.clients[c].(connection := connection)])
  }

  /** The callback of a confirmed message, run by the connection that confirmed it. */
  function ExecuteCallback(s: System, c: ConnectionId, user: UserId, m: Message): System {
    var s := s.(confirmations := s.confirmations + [(m.id, user)]);
    if m.notification.None? || m.id in s.called then s
    else s.(called := s.called + {m.id}, sending := s.sending[c := Report(m.id, user, m.notification.value)])
  }

  function Apply(s: System, config: Config, e: Event): System
    requires Enabled(s, e)
  {
    match e
    case Create(id, source) => s.(created := s.created[id := source])
    case Connect(c, u, now) => s.(clients := s.clients[c := Client(u, Start(config, now))])
    case Queue(c, m, sent, now) =>
      With(s, c, DeliveryReceived(s.clients[c].connection, config, Delivered(CreateMessage(m, s.created[m])), sent, now))
    case Retry(c, sent, now) => With(s, c, RetryFires(s.clients[c].connection, config, sent, now))
    case Beat(c, sent, now) => With(s, c, PingFires(s.clients[c].connection, config, sent, now))
    case Incoming(c, frame, now) =>
      var before := s.clients[c].connection;
      var s' := With(s, c, FrameReceived(before, config, frame, now));
      if frame.Binary? && frame.messageId.Some? && FirstCopy(before.queue, frame.messageId.value) < |before.queue| then
        ExecuteCallback(s', c, s.clients[c].user, before.queue[FirstCopy(before.queue, frame.messageId.value)].message)
      else s'
    case Produced(c) => s.(produced := s.produced + [s.sending[c]], sending := s.sending - {c})
  }

  /** A confirmation of message `m` comes from a client that has a copy of it queued. */
  predicate Confirms(s: System, e: Event, m: MessageId) {
    && e.Incoming? && e.from in s.clients && e.frame == Binary(Some(m))
    && exists i :: 0 <= i < |s.clients[e.from].connection.queue| && s.clients[e.from].connection.queue[i].message.id == m
  }

  /** No other step touches the flag, so an object that stands for it keeps doing so. */
  lemma FlagStays(s: System, config: Config, e: Event, m: MessageId)
    requires Enabled(s, e) && !Confirms(s, e, m)
    ensures m in Apply(s, config, e).called <==> m in s.called
  {
  }

  const INITIAL := System(map[], map[], {}, map[], [], [])

  ghost predicate Run(ss: seq<System>, es: seq<Event>, config: Config) {
    && |ss| == |es| + 1 && ss[0] == INITIAL
    && forall i :: 0 <= i < |es| ==> Enabled(ss[i], es[i]) && ss[i + 1] == Apply(ss[i], config, es[i])
  }

  // ----- invariant

  /** The user whose confirmation of a message was accepted first. */
  function FirstConfirmer(log: seq<(MessageId, UserId)>, m: MessageId): Option<UserId> {
    if log == [] then None
    else if log[0].0 == m then Some(log[0].1)
    else FirstConfirmer(log[1..], m)
  }

  lemma {:induction false} FirstConfirmerAppend(log: seq<(MessageId, UserId)>, x: (MessageId, UserId), m: MessageId)
    ensures FirstConfirmer(log + [x], m) ==
            if FirstConfirmer(log, m).Some? then FirstConfirmer(log, m)
            else if x.0 == m then Some(x.1) else None
  {
    if log != [] {
      FirstConfirmerAppend(log[1..], x, m);
      assert (log + [x])[1..] == log[1..] + [x];
    }
  }

  /** Built from a NEW notification. */
  predicate Reportable(s: System, m: MessageId) {
    m in s.created && CreateMessage(m, s.created[m]).notification.Some?
  }

  predicate Truthful(s: System, r: Report) {
    && r.message in s.called && Reportable(s, r.message)
    && CreateMessage(r.message, s.created[r.message]).notification == Some(r.notification)
    && FirstConfirmer(s.confirmations, r.message) == Some(r.user)
  }

  ghost predicate QueuesGenuine(s: System) {
    forall c, i :: c in s.clients && 0 <= i < |s.clients[c].connection.queue| ==>
      Genuine(s, s.clients[c].connection.queue[i].message)
  }

  predicate Genuine(s: System, m: Message) {
    m.id in s.created && m == CreateMessage(m.id, s.created[m.id])
  }

  ghost predicate Reported(s: System, m: MessageId) {
    || (exists c :: c in s.sending && s.sending[c].message == m)
    || (exists i :: 0 <= i < |s.produced| && s.produced[i].message == m)
  }

  /** No two reports, sent or under way, are about the same message. */
  ghost predicate OneReportEach(s: System) {
    && (forall i, j :: 0 <= i < j < |s.produced| ==> s.produced[i].message != s.produced[j].message)
    && (forall c, i :: c in s.sending && 0 <= i < |s.produced| ==> s.sending[c].message != s.produced[i].message)
    && (forall c, d :: c in s.sending && d in s.sending && c != d ==> s.sending[c].message != s.sending[d].message)
  }

  ghost predicate Inv(s: System) {
    && QueuesGenuine(s)
    && (forall m :: m in s.called <==> Reportable(s, m) && FirstConfirmer(s.confirmations, m).Some?)
    && (forall x :: x in s.confirmations ==> x.0 in s.created)
    && (forall c :: c in s.sending ==> Truthful(s, s.sending[c]))
    && (forall i :: 0 <= i < |s.produced| ==> Truthful(s, s.produced[i]))
    && OneReportEach(s)
    && (forall m :: m in s.called ==> Reported(s, m))
  }

  lemma {:induction false} ConfirmerInLog(log: seq<(MessageId, UserId)>, m: MessageId)
    ensures FirstConfirmer(log, m).Some? <==> exists x :: x in log && x.0 == m
  {
    if log != [] {
      ConfirmerInLog(log[1..], m);
      assert log == [log[0]] + log[1..];
    }
  }

  lemma CreateInv(s: System, config: Config, id: MessageId, source: Source)
    requires Inv(s) && id !in s.created
    ensures Inv(Apply(s, config, Create(id, source)))
  {
    var s' := Apply(s, config, Create(id, source));
    ConfirmerInLog(s.confirmations, id);
    assert forall m :: m in s.created ==> s'.created[m] == s.created[m];
    assert forall m :: m in s.called ==> (Reported(s, m) ==> Reported(s', m));
  }

  /** A connection step that runs no callback only rearranges genuine messages. */
  lemma QueueInv(s: System, c: ConnectionId, connection: Connection)
    requires Inv(s) && c in s.clients
    requires forall i :: 0 <= i < |connection.queue| ==> Genuine(s, connection.queue[i].message)
    ensures Inv(With(s, c, connection))
  {
    var s' := With(s, c, connection);
    assert forall m :: Reported(s, m) ==> Reported(s', m);
  }

  lemma TruthfulStays(s: System, s': System, x: (MessageId, UserId), r: Report)
    requires Truthful(s, r) && s.called <= s'.called && s'.created == s.created
    requires s'.confirmations == s.confirmations + [x]
    ensures Truthful(s', r)
  {
    FirstConfirmerAppend(s.confirmations, x, r.message);
  }

  /** Only the record of confirmations grows: the flag was set already, or there is no callback. */
  lemma SilentInv(s: System, s': System, m: Message, user: UserId)
    requires Inv(s) && Genuine(s, m) && (m.notification.None? || m.id in s.called)
    requires s' == s.(confirmations := s.confirmations + [(m.id, user)])
    ensures Inv(s')
  {
    forall k
      ensures k in s'.called <==> Reportable(s', k) && FirstConfirmer(s'.confirmations, k).Some?
    {
      FirstConfirmerAppend(s.confirmations, (m.id, user), k);
      assert k in s.called <==> Reportable(s, k) && FirstConfirmer(s.confirmations, k).Some?;
    }
    forall r: Report | Truthful(s, r)
      ensures Truthful(s', r)
    {
      TruthfulStays(s, s', (m.id, user), r);
    }
    assert forall k :: Reported(s, k) ==> Reported(s', k);
  }

  /** The flag is set by this caller, who is then the first confirmer. */
  lemma ReportingInv(s: System, s': System, c: ConnectionId, m: Message, user: UserId)
    requires Inv(s) && Genuine(s, m) && m.notification.Some? && m.id !in s.called && c !in s.sending
    requires s' == s.(confirmations := s.confirmations + [(m.id, user)], called := s.called + {m.id},
                      sending := s.sending[c := Report(m.id, user, m.notification.value)])
    ensures Inv(s')
  {
    assert FirstConfirmer(s.confirmations, m.id).None?;
    forall k
      ensures k in s'.called <==> Reportable(s', k) && FirstConfirmer(s'.confirmations, k).Some?
    {
      FirstConfirmerAppend(s.confirmations, (m.id, user), k);
      assert k in s.called <==> Reportable(s, k) && FirstConfirmer(s.confirmations, k).Some?;
    }
    assert Truthful(s', s'.sending[c]) by {
      FirstConfirmerAppend(s.confirmations, (m.id, user), m.id);
    }
    forall r: Report | Truthful(s, r)
      ensures Truthful(s', r) && r.message != m.id
    {
      TruthfulStays(s, s', (m.id, user), r);
    }
    assert forall d :: d in s'.sending ==> d == c || (d in s.sending && s'.sending[d] == s.sending[d]);
    forall k | k in s'.called
      ensures Reported(s', k)
    {
      if k == m.id {
        assert s'.sending[c].message == k;
      } else {
        ReportedStays(s, s', k);
      }
    }
  }

  lemma ReportedStays(s: System, s': System, k: MessageId)
    requires Reported(s, k) && s'.produced == s.produced
    requires forall d :: d in s.sending ==> d in s'.sending && s'.sending[d] == s.sending[d]
    ensures Reported(s', k)
  {
    if x :| x in s.sending && s.sending[x].message == k {
      assert s'.sending[x].message == k;
    }
  }

  lemma ExecuteInv(s: System, c: ConnectionId, user: UserId, m: Message)
    requires Inv(s) && c !in s.sending && Genuine(s, m)
    ensures Inv(ExecuteCallback(s, c, user, m))
  {
    if m.notification.None? || m.id in s.called {
      SilentInv(s, ExecuteCallback(s, c, user, m), m, user);
    } else {
      ReportingInv(s, ExecuteCallback(s, c, user, m), c, m, user);
    }
  }

  lemma ReportedMoves(s: System, s': System, c: ConnectionId, m: MessageId)
    requires Reported(s, m) && c in s.sending
    requires s'.produced == s.produced + [s.sending[c]] && s'.sending == s.sending - {c}
    ensures Reported(s', m)
  {
    if x :| x in s.sending && s.sending[x].message == m {
      if x == c {
        assert s'.produced[|s.produced|].message == m;
      } else {
        assert s'.sending[x].message == m;
      }
    } else {
      var i :| 0 <= i < |s.produced| && s.produced[i].message == m;
      assert s'.produced[i].message == m;
    }
  }

  lemma OneReportMoves(s: System, s': System, c: ConnectionId)
    requires OneReportEach(s) && c in s.sending
    requires s'.produced == s.produced + [s.sending[c]] && s'.sending == s.sending - {c}
    ensures OneReportEach(s')
  {
  }

  lemma ProducedInv(s: System, config: Config, c: ConnectionId)
    requires Inv(s) && c in s.sending
    ensures Inv(Apply(s, config, Produced(c)))
  {
    var s' := Apply(s, config, Produced(c));
    OneReportMoves(s, s', c);
    forall m | m in s'.called
      ensures Reported(s', m)
    {
      ReportedMoves(s, s', c, m);
    }
  }

  lemma IncomingInv(s: System, config: Config, c: ConnectionId, frame: Frame, now: Time)
    requires Inv(s) && Running(s, c)
    ensures Inv(Apply(s, config, Incoming(c, frame, now)))
  {
    var before := s.clients[c].connection;
    var after := FrameReceived(before, config, frame, now);
    QueueInv(s, c, after);
    if frame.Binary? && frame.messageId.Some? && FirstCopy(before.queue, frame.messageId.value) < |before.queue| {
      ExecuteInv(With(s, c, after), c, s.clients[c].user, before.queue[FirstCopy(before.queue, frame.messageId.value)].message);
    }
  }

  lemma StepInv(s: System, config: Config, e: Event)
    requires Inv(s) && Enabled(s, e)
    ensures Inv(Apply(s, config, e))
  {
    match e
    case Create(id, source) => CreateInv(s, config, id, source);
    case Connect(c, u, now) =>
      var s' := Apply(s, config, e);
      assert forall m :: Reported(s, m) ==> Reported(s', m);
    case Queue(c, m, sent, now) =>
      QueueInv(s, c, DeliveryReceived(s.clients[c].connection, config, Delivered(CreateMessage(m, s.created[m])), sent, now));
    case Retry(c, sent, now) => QueueInv(s, c, RetryFires(s.clients[c].connection, config, sent, now));
    case Beat(c, sent, now) => QueueInv(s, c, PingFires(s.clients[c].connection, config, sent, now));
    case Incoming(c, frame, now) => IncomingInv(s, config, c, frame, now);
    case Produced(c) => ProducedInv(s, config, c);
  }

  lemma {:induction false} RunInv(ss: seq<System>, es: seq<Event>, config: Config, n: nat)
    requires Run(ss, es, config) && n < |ss|
    ensures Inv(ss[n])
  {
    if n > 0 {
      RunInv(ss, es, config, n - 1);
      StepInv(ss[n - 1], config, es[n - 1]);
    }
  }

  // ----- the record of confirmations is what happened on the run

  /** The connection was made for that user before position `n`. */
  ghost predicate ConnectedAs(es: seq<Event>, n: nat, c: ConnectionId, u: UserId)
    requires n <= |es|
  {
    exists j :: 0 <= j < n && es[j].Connect? && es[j].newConnection == c && es[j].user == u
  }

  /** The message was built from that source before position `n`. */
  ghost predicate CreatedFrom(es: seq<Event>, n: nat, m: MessageId, source: Source)
    requires n <= |es|
  {
    exists j :: 0 <= j < n && es[j] == Create(m, source)
  }

  lemma StepClients(s: System, config: Config, e: Event, c: ConnectionId)
    requires Enabled(s, e)
    ensures c in Apply(s, config, e).clients <==> c in s.clients || (e.Connect? && e.newConnection == c)
    ensures c in s.clients ==> Apply(s, config, e).clients[c].user == s.clients[c].user
    ensures e.Connect? && e.newConnection == c ==> Apply(s, config, e).clients[c].user == e.user
  {
  }

  lemma {:induction false} ClientsAreConnected(ss: seq<System>, es: seq<Event>, config: Config, n: nat, c: ConnectionId, u: UserId)
    requires Run(ss, es, config) && n < |ss|
    ensures c in ss[n].clients && ss[n].clients[c].user == u <==> ConnectedAs(es, n, c, u)
  {
    if n > 0 {
      ClientsAreConnected(ss, es, config, n - 1, c, u);
      StepClients(ss[n - 1], config, es[n - 1], c);
    }
  }

  lemma StepCreated(s: System, config: Config, e: Event)
    requires Enabled(s, e)
    ensures Apply(s, config, e).created == if e.Create? then s.created[e.id := e.source] else s.created
  {
  }

  lemma {:induction false} CreatedByEvents(ss: seq<System>, es: seq<Event>, config: Config, n: nat, m: MessageId, source: Source)
    requires Run(ss, es, config) && n < |ss|
    ensures m in ss[n].created && ss[n].created[m] == source <==> CreatedFrom(es, n, m, source)
  {
    if n > 0 {
      CreatedByEvents(ss, es, config, n - 1, m, source);
      StepCreated(ss[n - 1], config, es[n - 1]);
    }
  }

  lemma StepLog(s: System, config: Config, e: Event)
    requires Enabled(s, e)
    ensures forall m :: Confirms(s, e, m) ==>
              Apply(s, config, e).confirmations == s.confirmations + [(m, s.clients[e.from].user)]
    ensures (forall m :: !Confirms(s, e, m)) ==> Apply(s, config, e).confirmations == s.confirmations
  {
    if e.Incoming? && e.frame.Binary? && e.frame.messageId.Some? {
      var m, q := e.frame.messageId.value, s.clients[e.from].connection.queue;
      assert FirstCopy(q, m) < |q| ==> Confirms(s, e, m);
    }
  }

  /** On every run a confirmation is recorded exactly when an incoming frame confirms a queued message,
      and for the user the connection was made for. */
  lemma LogIsRun(ss: seq<System>, es: seq<Event>, config: Config, n: nat, m: MessageId, u: UserId)
    requires Run(ss, es, config) && n < |es|
    ensures ss[n + 1].confirmations == ss[n].confirmations + [(m, u)] <==>
            Confirms(ss[n], es[n], m) && ConnectedAs(es, n, es[n].from, u)
    ensures (forall k :: !Confirms(ss[n], es[n], k)) ==> ss[n + 1].confirmations == ss[n].confirmations
  {
    var s, e, log := ss[n], es[n], ss[n].confirmations;
    StepLog(s, config, e);
    if e.Incoming? {
      ClientsAreConnected(ss, es, config, n, e.from, u);
    }
    if k: MessageId :| Confirms(s, e, k) {
      assert (log + [(k, s.clients[e.from].user)])[|log|] == (k, s.clients[e.from].user);
      assert (log + [(m, u)])[|log|] == (m, u);
    } else {
      assert |log + [(m, u)]| == |log| + 1;
    }
  }

  /** No confirmation of message `m` on the run before position `n`. */
  ghost predicate Unconfirmed(ss: seq<System>, es: seq<Event>, n: nat, m: MessageId)
    requires n <= |es| < |ss|
  {
    forall i :: 0 <= i < n ==> !Confirms(ss[i], es[i], m)
  }

  /** Of all confirmations of message `m` on the run before position `n`, the first came from `u`. */
  ghost predicate ConfirmedFirstBy(ss: seq<System>, es: seq<Event>, n: nat, m: MessageId, u: UserId)
    requires n <= |es| < |ss|
  {
    exists i :: 0 <= i < n && Confirms(ss[i], es[i], m) && ConnectedAs(es, i, es[i].from, u) && Unconfirmed(ss, es, i, m)
  }

  lemma FirstConfirmerStep(ss: seq<System>, es: seq<Event>, config: Config, n: nat, m: MessageId)
    requires Run(ss, es, config) && n < |es|
    ensures FirstConfirmer(ss[n].confirmations, m).Some? ==>
              FirstConfirmer(ss[n + 1].confirmations, m) == FirstConfirmer(ss[n].confirmations, m)
    ensures FirstConfirmer(ss[n].confirmations, m).None? && !Confirms(ss[n], es[n], m) ==>
              FirstConfirmer(ss[n + 1].confirmations, m).None?
    ensures FirstConfirmer(ss[n].confirmations, m).None? && Confirms(ss[n], es[n], m) ==>
              && FirstConfirmer(ss[n + 1].confirmations, m).Some?
              && ConnectedAs(es, n, es[n].from, FirstConfirmer(ss[n + 1].confirmations, m).value)
  {
    var s, e, log := ss[n], es[n], ss[n].confirmations;
    StepLog(s, config, e);
    if k: MessageId :| Confirms(s, e, k) {
      FirstConfirmerAppend(log, (k, s.clients[e.from].user), m);
      ClientsAreConnected(ss, es, config, n, e.from, s.clients[e.from].user);
    }
  }

  lemma {:induction false} FirstConfirmerOnRun(ss: seq<System>, es: seq<Event>, config: Config, n: nat, m: MessageId)
    requires Run(ss, es, config) && n < |ss|
    ensures FirstConfirmer(ss[n].confirmations, m).None? <==> Unconfirmed(ss, es, n, m)
    ensures FirstConfirmer(ss[n].confirmations, m).Some? ==>
              ConfirmedFirstBy(ss, es, n, m, FirstConfirmer(ss[n].confirmations, m).value)
  {
    if n > 0 {
      var k := n - 1;
      FirstConfirmerOnRun(ss, es, config, k, m);
      FirstConfirmerStep(ss, es, config, k, m);
      UnconfirmedStep(ss, es, k, m);
      if FirstConfirmer(ss[n].confirmations, m).Some? {
        ConfirmedFirstStep(ss, es, k, m, FirstConfirmer(ss[n].confirmations, m).value);
      }
    }
  }

  lemma UnconfirmedStep(ss: seq<System>, es: seq<Event>, n: nat, m: MessageId)
    requires n < |es| < |ss|
    ensures Unconfirmed(ss, es, n + 1, m) <==> Unconfirmed(ss, es, n, m) && !Confirms(ss[n], es[n], m)
  {
  }

  lemma ConfirmedFirstStep(ss: seq<System>, es: seq<Event>, n: nat, m: MessageId, u: UserId)
    requires n < |es| < |ss|
    ensures ConfirmedFirstBy(ss, es, n, m, u) ==> ConfirmedFirstBy(ss, es, n + 1, m, u)
    ensures Unconfirmed(ss, es, n, m) && Confirms(ss[n], es[n], m) && ConnectedAs(es, n, es[n].from, u) ==>
              ConfirmedFirstBy(ss, es, n + 1, m, u)
  {
  }

  // ----- main results

  /** Every queued message is one that was created, with its payload, and carries a callback exactly if
      it was created from a NEW notification. */
  lemma QueuedAsCreated(ss: seq<System>, es: seq<Event>, config: Config, n: nat, c: ConnectionId, i: nat)
    requires Run(ss, es, config) && n < |ss| && c in ss[n].clients && i < |ss[n].clients[c].connection.queue|
    ensures var m := ss[n].clients[c].connection.queue[i].message;
            exists source :: && CreatedFrom(es, n, m.id, source) && m.payload == source.payload
                             && (m.notification.Some? <==> source.notification.Some? && source.notification.value.1 == New)
                             && (m.notification.Some? ==> m.notification.value == source.notification.value.0)
  {
    RunInv(ss, es, config, n);
    var m := ss[n].clients[c].connection.queue[i].message;
    assert Genuine(ss[n], m);
    CreatedByEvents(ss, es, config, n, m.id, ss[n].created[m.id]);
  }

  /** No message is confirmed to the core twice, however many connections share it. */
  lemma AtMostOneConfirmation(ss: seq<System>, es: seq<Event>, config: Config, n: nat, i: nat, j: nat)
    requires Run(ss, es, config) && n < |ss| && i < j < |ss[n].produced|
    ensures ss[n].produced[i].message != ss[n].produced[j].message
  {
    RunInv(ss, es, config, n);
  }

  function QueueOf(s: System, c: ConnectionId): seq<MessageId>
    requires c in s.clients
  {
    var q := s.clients[c].connection.queue;
    seq(|q|, i requires 0 <= i < |q| => q[i].message.id)
  }

  /** Confirming takes the first copy out of the queue, if there is one. */
  predicate TakesOut(q: seq<MessageId>, q': seq<MessageId>, m: MessageId) {
    if m in q then exists i :: 0 <= i < |q| && q[i] == m && m !in q[..i] && q' == q[..i] + q[i + 1..]
    else q' == q
  }

  lemma ConfirmedQueue(s: System, config: Config, c: ConnectionId, m: MessageId, now: Time)
    requires Running(s, c)
    ensures var s' := Apply(s, config, Incoming(c, Binary(Some(m)), now));
            c in s'.clients && TakesOut(QueueOf(s, c), QueueOf(s', c), m)
  {
    var q, k := QueueOf(s, c), FirstCopy(s.clients[c].connection.queue, m);
    var q' := QueueOf(Apply(s, config, Incoming(c, Binary(Some(m)), now)), c);
    assert forall i :: 0 <= i < |q| ==> q[i] == s.clients[c].connection.queue[i].message.id;
    if k < |q| {
      assert q' == q[..k] + q[k + 1..] && q[k] == m && m !in q[..k];
    }
  }

  lemma StepQueues(s: System, config: Config, e: Event, c: ConnectionId)
    requires Enabled(s, e) && c in s.clients && !(e.Incoming? && e.frame.Binary?)
    requires c in Apply(s, config, e).clients && Apply(s, config, e).clients[c].connection.status.Open?
    ensures var q, q' := QueueOf(s, c), QueueOf(Apply(s, config, e), c);
            match e
            case Queue(d, m, _, _) => q' == if d == c then q + [m] else q
            case Retry(d, _, _) => q' == if d == c then q[1..] + [q[0]] else q
            case _ => q' == q
  {
  }

  /** On every run, while a connection stays open, its queue changes only by its own steps: a message
      sent joins at the back, a retry moves the front to the back, and a confirmation takes out the first
      copy of what it confirms. */
  lemma QueuesOnRun(ss: seq<System>, es: seq<Event>, config: Config, n: nat, c: ConnectionId)
    requires Run(ss, es, config) && n < |es| && c in ss[n].clients && c in ss[n + 1].clients
    requires ss[n + 1].clients[c].connection.status.Open?
    ensures var q, q' := QueueOf(ss[n], c), QueueOf(ss[n + 1], c);
            match es[n]
            case Queue(d, m, _, _) => q' == if d == c then q + [m] else q
            case Retry(d, _, _) => q' == if d == c then q[1..] + [q[0]] else q
            case Incoming(d, Binary(Some(m)), _) => if d == c then TakesOut(q, q', m) else q' == q
            case _ => q' == q
  {
    match es[n]
    case Incoming(d, Binary(Some(m)), now) =>
      if d == c {
        ConfirmedQueue(ss[n], config, c, m, now);
      }
    case Incoming(d, Binary(None), now) =>
    case _ => StepQueues(ss[n], config, es[n], c);
  }

  /** A heartbeat that falls due closes a connection with two pings outstanding, and otherwise sends one
      more on that connection alone. */
  lemma HeartbeatsOnRun(ss: seq<System>, es: seq<Event>, config: Config, n: nat, c: ConnectionId)
    requires Run(ss, es, config) && n < |es| && c in ss[n].clients && es[n].Beat?
    ensures c in ss[n + 1].clients
    ensures var before, after := ss[n].clients[c].connection, ss[n + 1].clients[c].connection;
            if es[n].beatOn != c then after == before
            else if before.pingsSent >= 2 then after == before.(status := Closed(Silent))
            else if es[n].beatSent then
              after.status.Open? && after.pingsSent == before.pingsSent + 1
              && after.pingTime == es[n].beatTime + config.pingInterval && after.queue == before.queue
            else after.status == Closed(SendFailed)
  {
    assert Enabled(ss[n], es[n]);
  }

  /** A produced confirmation names the user whose connection was the first to confirm the message on the
      run, and the NEW notification the message was created from. */
  lemma ConfirmationNamesFirst(ss: seq<System>, es: seq<Event>, config: Config, n: nat, i: nat)
    requires Run(ss, es, config) && n < |ss| && i < |ss[n].produced|
    ensures var r := ss[n].produced[i];
            && ConfirmedFirstBy(ss, es, n, r.message, r.user)
            && exists payload :: CreatedFrom(es, n, r.message, Source(payload, Some((r.notification, New))))
  {
    RunInv(ss, es, config, n);
    var s, r := ss[n], ss[n].produced[i];
    assert Truthful(s, r);
    FirstConfirmerOnRun(ss, es, config, n, r.message);
    CreatedByEvents(ss, es, config, n, r.message, s.created[r.message]);
    assert s.created[r.message] == Source(s.created[r.message].payload, Some((r.notification, New)));
  }

  ghost predicate CreatedNew(es: seq<Event>, n: nat, m: MessageId)
    requires n <= |es|
  {
    exists j :: 0 <= j < n && es[j].Create? && es[j].id == m
                && es[j].source.notification.Some? && es[j].source.notification.value.1 == New
  }

  /** When no send is under way, a message has been reported exactly if some client that had it queued
      confirmed it on the run and it was created from a NEW notification. */
  lemma ConfirmedExactlyWhenNew(ss: seq<System>, es: seq<Event>, config: Config, n: nat, m: MessageId)
    requires Run(ss, es, config) && n < |ss| && ss[n].sending == map[]
    ensures (exists r :: r in ss[n].produced && r.message == m) <==>
            !Unconfirmed(ss, es, n, m) && CreatedNew(es, n, m)
  {
    RunInv(ss, es, config, n);
    FirstConfirmerOnRun(ss, es, config, n, m);
    var s := ss[n];
    assert CreatedNew(es, n, m) <==> Reportable(s, m) by {
      if m in s.created {
        CreatedByEvents(ss, es, config, n, m, s.created[m]);
      }
      forall j | 0 <= j < n && es[j].Create? && es[j].id == m
        ensures m in s.created && s.created[m] == es[j].source
      {
        CreatedByEvents(ss, es, config, n, m, es[j].source);
      }
    }
    assert m in s.called <==> Reportable(s, m) && FirstConfirmer(s.confirmations, m).Some?;
    if m in s.called {
      assert Reported(s, m);
      var i :| 0 <= i < |s.produced| && s.produced[i].message == m;
      assert s.produced[i] in s.produced;
    }
    if r :| r in s.produced && r.message == m {
      var i :| 0 <= i < |s.produced| && s.produced[i] == r;
      assert Truthful(s, s.produced[i]);
    }
  }
}
