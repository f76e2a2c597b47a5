/**
  What the producer guarantees on every run: nothing is lost or duplicated inside it, a message
  leaves only when the broker took its own publish, stale confirms are harmless, recovery never
  meets a missing connection, and flow control is obeyed.
 */
module ProducerSafety {
  import opened Common
  import opened ProducerModel

  // ----- confirms act as a filter on the tag-ordered queue

  /** A confirm takes out the entries up to its tag, or the one of its tag, and keeps the others. */
  lemma KeptRemovedMembers(q: seq<Entry>, c: Confirm)
    ensures forall e :: e in Kept(q, c) <==> e in q && !(if c.multiple then e.tag <= c.tag else e.tag == c.tag)
    ensures forall e :: e in Removed(q, c) <==> e in q && if c.multiple then e.tag <= c.tag else e.tag == c.tag
    ensures Sorted(q) ==> Sorted(Kept(q, c)) && Sorted(Removed(q, c))
  {
    CoveredRemoved(q, c);
  }

  lemma {:induction false} CoveredRemoved(q: seq<Entry>, c: Confirm)
    ensures forall e :: e in Kept(q, c) <==> e in q && !Covers(c, e.tag)
    ensures forall e :: e in Removed(q, c) <==> e in q && Covers(c, e.tag)
    ensures Sorted(q) ==> Sorted(Kept(q, c)) && Sorted(Removed(q, c))
  {
    if q != [] {
      var rest := q[1..];
      CoveredRemoved(rest, c);
      assert q == [q[0]] + rest;
      if Sorted(q) {
        assert forall e :: e in rest ==> q[0].tag < e.tag;
        SortedCons(q[0], Kept(rest, c));
        SortedCons(q[0], Removed(rest, c));
      }
    }
  }

  lemma SortedCons(e: Entry, q: seq<Entry>)
    requires Sorted(q) && forall x :: x in q ==> e.tag < x.tag
    ensures Sorted([e] + q)
  {
  }

  /** Nothing is created or dropped by a confirm: kept and removed entries make up the queue. */
  lemma {:induction false} KeptRemovedPartition(q: seq<Entry>, c: Confirm)
    ensures multiset(q) == multiset(Kept(q, c)) + multiset(Removed(q, c))
  {
    if q != [] {
      KeptRemovedPartition(q[1..], c);
      assert q == [q[0]] + q[1..];
    }
  }

  lemma {:induction false} MessagesMultiset(q: seq<Entry>, c: Confirm)
    ensures multiset(Messages(q)) == multiset(Messages(Kept(q, c))) + multiset(Messages(Removed(q, c)))
  {
    if q != [] {
      MessagesMultiset(q[1..], c);
      MessagesCons(q);
      MessagesCons(Kept(q, c));
      MessagesCons(Removed(q, c));
      assert Covers(c, q[0].tag) ==> Removed(q, c)[1..] == Removed(q[1..], c);
      assert !Covers(c, q[0].tag) ==> Kept(q, c)[1..] == Kept(q[1..], c);
    }
  }

  lemma MessagesCons(q: seq<Entry>)
    ensures q != [] ==> Messages(q) == [q[0].message] + Messages(q[1..])
  {
  }

  // ----- acks in any order

  /** The queue after a series of confirms. */
  function KeptAll(q: seq<Entry>, cs: seq<Confirm>): seq<Entry>
    decreases |cs|
  {
    if cs == [] then q else KeptAll(Kept(q, cs[0]), cs[1..])
  }

  function Survivors(q: seq<Entry>, cs: set<Confirm>): seq<Entry> {
    if q == [] then []
    else (if forall c :: c in cs ==> !Covers(c, q[0].tag) then [q[0]] else []) + Survivors(q[1..], cs)
  }

  lemma {:induction false} SurvivorsOfKept(q: seq<Entry>, c: Confirm, cs: set<Confirm>)
    ensures Survivors(Kept(q, c), cs) == Survivors(q, cs + {c})
  {
    if q != [] {
      SurvivorsOfKept(q[1..], c, cs);
      if !Covers(c, q[0].tag) {
        assert Kept(q, c)[1..] == Kept(q[1..], c);
      }
    }
  }

  lemma {:induction false} SurvivorsOfNone(q: seq<Entry>)
    ensures Survivors(q, {}) == q
  {
    if q != [] {
      SurvivorsOfNone(q[1..]);
    }
  }

  lemma {:induction false} KeptAllIsSurvivors(q: seq<Entry>, cs: seq<Confirm>)
    ensures KeptAll(q, cs) == Survivors(q, set c | c in cs)
    decreases |cs|
  {
    if cs == [] {
      assert (set c | c in cs) == {};
      SurvivorsOfNone(q);
    } else {
      KeptAllIsSurvivors(Kept(q, cs[0]), cs[1..]);
      SurvivorsOfKept(q, cs[0], set c | c in cs[1..]);
      assert (set c | c in cs) == (set c | c in cs[1..]) + {cs[0]};
    }
  }

  /** Only the set of confirms matters for what stays unconfirmed, not order or repetition. */
  lemma ConfirmOrderIrrelevant(q: seq<Entry>, cs: seq<Confirm>, ds: seq<Confirm>)
    requires forall c :: c in cs <==> c in ds
    ensures KeptAll(q, cs) == KeptAll(q, ds)
  {
    KeptAllIsSurvivors(q, cs);
    KeptAllIsSurvivors(q, ds);
    assert (set c | c in cs) == (set c | c in ds);
  }

  // ----- invariants

  /** Entries whose publish was started on the confirming channel and not settled yet. */
  function Outstanding(m: Machine): seq<Entry> {
    m.unconfirmed + if m.publishing.Some? then [Entry(m.messageCount, m.publishing.value)] else []
  }

  function Record(w: World, e: Entry): Publish {
    Publish(w.h.source, e.tag, e.message)
  }

  /** Connection, channels and watched flags. */
  ghost predicate Control(w: World) {
    && w.m.connectionWatch.Valid() && w.m.flowWatch.Valid() && w.m.blockedWatch.Valid()
    && (!w.m.phase.WaitingForConnection? ==> w.m.connection.Some?)
    && (!w.m.phase.WaitingForConnection? && !w.m.connectionWatch.Unseen()
        ==> w.m.connection == w.m.connectionWatch.value)
    && (w.m.phase.Ok? && !w.m.flowWatch.Unseen() ==> w.m.flow == w.m.flowWatch.value)
    && (w.m.phase.Ok? && !w.m.blockedWatch.Unseen() ==> w.m.blocked == w.m.blockedWatch.value)
    && (w.m.publishing.Some? ==> w.m.phase.Ok?)
    && (w.m.phase.RecreatingChannel? || w.m.phase.RestoringProducer? ==> w.m.unconfirmed == [])
    && w.h.source <= w.m.channel < w.h.nextChannel
    && (w.m.phase.Ok? || w.m.unconfirmed != [] ==> w.m.channel == w.h.source)
    && (w.m.phase.RestoringProducer? || (w.m.phase.RecreatingChannel? && w.m.channelOpened)
        ==> w.m.channel > w.h.source)
  }

  /** Tags number the publishes of the confirming channel. */
  ghost predicate Tags(w: World) {
    && Sorted(Outstanding(w.m))
    && (forall e :: e in Outstanding(w.m) ==> 1 <= e.tag <= w.m.messageCount && Record(w, e) in w.h.wire)
    && (forall p :: p in w.h.wire ==> p.channel <= w.h.source)
    && (forall p :: p in w.h.wire && p.channel == w.h.source ==> 1 <= p.tag <= w.m.messageCount)
    && Numbered(w.h.wire)
  }

  /** A channel and a tag determine the publish. */
  ghost predicate Numbered(wire: set<Publish>) {
    forall p, q :: p in wire && q in wire && p.channel == q.channel && p.tag == q.tag ==> p == q
  }

  ghost predicate Distinct(ps: seq<Publish>) {
    forall i, j :: 0 <= i < j < |ps| ==> ps[i] != ps[j]
  }

  /** What left the producer was taken by the broker, one publish for each. */
  ghost predicate Ledger(w: World) {
    && w.h.taken <= w.h.wire && w.h.nacked <= w.h.wire
    && Distinct(w.h.acked)
    && (forall p :: p in w.h.acked ==> p in w.h.taken)
    && (forall e :: e in Outstanding(w.m) ==> Record(w, e) !in w.h.acked)
  }

  function Acked(w: World): seq<Message> {
    MessagesOf(w.h.acked)
  }

  function MessagesOf(ps: seq<Publish>): (ms: seq<Message>)
    ensures |ms| == |ps|
    ensures forall i :: 0 <= i < |ps| ==> ms[i] == ps[i].message
  {
    seq(|ps|, i requires 0 <= i < |ps| => ps[i].message)
  }

  /** Everything the producer still holds. */
  function Inside(m: Machine): multiset<Message> {
    multiset(m.pending) + multiset(Messages(Outstanding(m)))
  }

  ghost predicate Conserved(w: World) {
    w.h.handed == Inside(w.m) + multiset(Acked(w))
  }

  ghost predicate NackAmong(cs: seq<Confirm>, n: nat, tag: nat)
    requires n <= |cs|
  {
    exists j :: 0 <= j < n && !cs[j].ack && Covers(cs[j], tag)
  }

  /** Confirms waiting in the queue are truthful about every outstanding entry: an ack covering it
      means that the broker took it, unless a nack covering it comes first. */
  ghost predicate Truthful(w: World) {
    && (forall i, e :: 0 <= i < |w.m.confirms| && e in Outstanding(w.m)
          && w.m.confirms[i].ack && Covers(w.m.confirms[i], e.tag)
          ==> Record(w, e) in w.h.taken || NackAmong(w.m.confirms, i, e.tag))
    && (forall e :: e in Outstanding(w.m) && Record(w, e) in w.h.nacked
          ==> NackAmong(w.m.confirms, |w.m.confirms|, e.tag))
  }

  ghost predicate Inv(w: World) {
    Control(w) && Tags(w) && Ledger(w) && Conserved(w) && Truthful(w)
  }

  // ----- preservation

  lemma InitInv(w: World)
    requires Init(w)
    ensures Inv(w)
  {
  }

  /** A queue of confirms stays truthful when it grows. */
  lemma NackAmongGrows(cs: seq<Confirm>, c: Confirm, n: nat, tag: nat)
    requires n <= |cs| && NackAmong(cs, n, tag)
    ensures NackAmong(cs + [c], n, tag) && NackAmong(cs + [c], |cs| + 1, tag)
  {
    var j :| 0 <= j < n && !cs[j].ack && Covers(cs[j], tag);
    assert (cs + [c])[j] == cs[j];
  }

  /** Processing the head confirm keeps the rest truthful for the entries it leaves. */
  lemma NackAmongShifts(cs: seq<Confirm>, n: nat, tag: nat)
    requires 0 < n <= |cs| && NackAmong(cs, n, tag)
    requires cs[0].ack || !Covers(cs[0], tag)
    ensures NackAmong(cs[1..], n - 1, tag)
  {
    var j :| 0 <= j < n && !cs[j].ack && Covers(cs[j], tag);
    assert cs[1..][j - 1] == cs[j];
  }

  lemma ConfirmEnqueuedInv(w: World, c: Confirm)
    requires Inv(w) && Enabled(w, BrokerConfirms(c))
    ensures Inv(Apply(w, BrokerConfirms(c)))
  {
    var w' := Apply(w, BrokerConfirms(c));
    var n := |w.m.confirms|;
    assert Outstanding(w'.m) == Outstanding(w.m);
    forall i, e | 0 <= i < n + 1 && e in Outstanding(w'.m) && w'.m.confirms[i].ack && Covers(w'.m.confirms[i], e.tag)
      ensures Record(w', e) in w'.h.taken || NackAmong(w'.m.confirms, i, e.tag)
    {
      if i < n {
        assert w.m.confirms[i].ack && Covers(w.m.confirms[i], e.tag);
        if Record(w, e) !in w.h.taken {
          NackAmongGrows(w.m.confirms, c, i, e.tag);
        }
      } else {
        assert Record(w, e) in Addressed(w, c);
        if Record(w, e) !in w.h.taken {
          NackAmongGrows(w.m.confirms, c, n, e.tag);
        }
      }
    }
    forall e | e in Outstanding(w'.m) && Record(w', e) in w'.h.nacked
      ensures NackAmong(w'.m.confirms, n + 1, e.tag)
    {
      if Record(w, e) in w.h.nacked {
        NackAmongGrows(w.m.confirms, c, n, e.tag);
      } else {
        assert w'.m.confirms[n] == c;
      }
    }
  }

  /** The world after the machine takes the head of the confirm queue. */
  function AfterConfirm(w: World): World
    requires w.m.confirms != []
  {
    World(DrainConfirm(w.m), w.h.(acked := w.h.acked + Retired(w, w.m.confirms[0])))
  }

  lemma ConfirmProcessedLedger(w: World)
    requires Inv(w) && w.m.confirms != [] && w.m.publishing.None?
    ensures Ledger(AfterConfirm(w))
  {
    var c := w.m.confirms[0];
    var q := w.m.unconfirmed;
    CoveredRemoved(q, c);
    assert Outstanding(w.m) == q;
    if c.ack {
      forall e | e in Removed(q, c)
        ensures Record(w, e) in w.h.taken
      {
        assert e in Outstanding(w.m) && !NackAmong(w.m.confirms, 0, e.tag);
      }
      LedgerRetires(w, AfterConfirm(w), Removed(q, c), Kept(q, c));
    } else {
      LedgerRetires(w, AfterConfirm(w), [], Kept(q, c));
    }
  }

  /** Retiring taken entries that are no longer outstanding. */
  lemma LedgerRetires(w: World, w': World, gone: seq<Entry>, kept: seq<Entry>)
    requires Ledger(w) && Sorted(gone) && Outstanding(w'.m) == kept
    requires forall e :: e in gone ==> e in Outstanding(w.m) && Record(w, e) in w.h.taken && e !in kept
    requires forall e :: e in kept ==> e in Outstanding(w.m)
    requires w'.h == w.h.(acked := w.h.acked + Records(w.h.source, gone))
    ensures Ledger(w')
  {
    var ps := Records(w.h.source, gone);
    assert forall i :: 0 <= i < |gone| ==> gone[i] in gone && ps[i] == Record(w, gone[i]);
    assert forall e :: e in kept ==> Record(w', e) == Record(w, e);
  }

  lemma ConfirmProcessedTruthful(w: World)
    requires Inv(w) && w.m.confirms != [] && w.m.publishing.None?
    ensures Truthful(AfterConfirm(w))
  {
    var cs := w.m.confirms;
    var w' := AfterConfirm(w);
    CoveredRemoved(w.m.unconfirmed, cs[0]);
    assert Outstanding(w.m) == w.m.unconfirmed && Outstanding(w'.m) == Kept(w.m.unconfirmed, cs[0]);
    forall i, e | 0 <= i < |cs| - 1 && e in Outstanding(w'.m) && w'.m.confirms[i].ack && Covers(w'.m.confirms[i], e.tag)
      ensures Record(w', e) in w'.h.taken || NackAmong(w'.m.confirms, i, e.tag)
    {
      assert cs[i + 1] == w'.m.confirms[i];
      if Record(w, e) !in w.h.taken {
        assert e in Outstanding(w.m) && cs[i + 1].ack && Covers(cs[i + 1], e.tag);
        NackAmongShifts(cs, i + 1, e.tag);
      }
    }
    forall e | e in Outstanding(w'.m) && Record(w', e) in w'.h.nacked
      ensures NackAmong(w'.m.confirms, |cs| - 1, e.tag)
    {
      assert e in Outstanding(w.m);
      NackAmongShifts(cs, |cs|, e.tag);
    }
  }

  /** What a confirm takes out of the producer are exactly the messages it retires. */
  lemma InsideAfterConfirm(w: World)
    requires w.m.confirms != [] && w.m.publishing.None?
    ensures Inside(w.m) == Inside(AfterConfirm(w).m) + multiset(MessagesOf(Retired(w, w.m.confirms[0])))
  {
    var c := w.m.confirms[0];
    var gone := Messages(Removed(w.m.unconfirmed, c));
    MessagesMultiset(w.m.unconfirmed, c);
    assert Outstanding(w.m) == w.m.unconfirmed;
    assert Outstanding(AfterConfirm(w).m) == AfterConfirm(w).m.unconfirmed;
    assert MessagesOf(Retired(w, c)) == if c.ack then gone else [];
    assert AfterConfirm(w).m.pending == w.m.pending + if c.ack then [] else gone;
  }

  lemma ConfirmProcessedConserved(w: World)
    requires Conserved(w) && w.m.confirms != [] && w.m.publishing.None?
    ensures Conserved(AfterConfirm(w))
  {
    InsideAfterConfirm(w);
    assert Acked(AfterConfirm(w)) == Acked(w) + MessagesOf(Retired(w, w.m.confirms[0]));
  }

  lemma ConfirmProcessedInv(w: World)
    requires Inv(w) && w.m.confirms != [] && w.m.publishing.None?
    requires w.m.phase.Ok? || w.m.phase.ProcessingPendingConfirmations?
    ensures Inv(AfterConfirm(w))
  {
    CoveredRemoved(w.m.unconfirmed, w.m.confirms[0]);
    assert Outstanding(w.m) == w.m.unconfirmed;
    assert Outstanding(AfterConfirm(w).m) == Kept(w.m.unconfirmed, w.m.confirms[0]);
    ConfirmProcessedLedger(w);
    ConfirmProcessedTruthful(w);
    ConfirmProcessedConserved(w);
  }

  /** One more publish on the confirming channel, numbered next. */
  lemma TagsExtended(w: World, w': World, e: Entry)
    requires Tags(w) && e.tag == w.m.messageCount + 1
    requires Outstanding(w'.m) == Outstanding(w.m) + [e] && w'.m.messageCount == e.tag
    requires w'.h.source == w.h.source && w'.h.wire == w.h.wire + {Record(w, e)}
    ensures Tags(w') && Record(w, e) !in w.h.wire
  {
    var q, q' := Outstanding(w.m), Outstanding(w'.m);
    assert forall i :: 0 <= i < |q| ==> q[i] in q;
    assert forall x :: x in q' ==> x == e || x in q;
    assert forall x :: Record(w', x) == Record(w, x);
  }

  lemma LedgerExtended(w: World, w': World, e: Entry)
    requires Ledger(w) && Record(w, e) !in w.h.wire
    requires Outstanding(w'.m) == Outstanding(w.m) + [e]
    requires w'.h == w.h.(wire := w.h.wire + {Record(w, e)})
    ensures Ledger(w')
  {
    assert forall x :: x in Outstanding(w'.m) ==> x == e || x in Outstanding(w.m);
    assert forall x :: Record(w', x) == Record(w, x);
  }

  lemma ConservedExtended(w: World, w': World, e: Entry)
    requires Conserved(w) && w.m.pending == [e.message] + w'.m.pending
    requires Outstanding(w'.m) == Outstanding(w.m) + [e]
    requires w'.h.acked == w.h.acked && w'.h.handed == w.h.handed
    ensures Conserved(w')
  {
    assert Messages(Outstanding(w'.m)) == Messages(Outstanding(w.m)) + [e.message];
    assert Acked(w') == Acked(w);
  }

  lemma TruthfulExtended(w: World, w': World, e: Entry)
    requires Truthful(w) && w.m.confirms == [] == w'.m.confirms
    requires Outstanding(w'.m) == Outstanding(w.m) + [e]
    requires w'.h.source == w.h.source && w'.h.nacked == w.h.nacked && Record(w, e) !in w.h.nacked
    ensures Truthful(w')
  {
    forall x | x in Outstanding(w'.m)
      ensures Record(w', x) !in w'.h.nacked
    {
      assert Record(w', x) == Record(w, x);
      assert x == e || x in Outstanding(w.m);
      assert !NackAmong(w.m.confirms, |w.m.confirms|, x.tag);
    }
  }

  /** Starting a publish: by the bias of the select no confirm is waiting, so none can be about it. */
  lemma PublishStartedInv(w: World)
    requires Inv(w) && Enabled(w, OkStep) && Selected(w.m).MessageReady?
    ensures Inv(Apply(w, OkStep))
  {
    var w' := Apply(w, OkStep);
    var e := Entry(w.m.messageCount + 1, w.m.pending[0]);
    assert Outstanding(w'.m) == Outstanding(w.m) + [e];
    assert w.m.pending == [e.message] + w'.m.pending;
    TagsExtended(w, w', e);
    LedgerExtended(w, w', e);
    ConservedExtended(w, w', e);
    TruthfulExtended(w, w', e);
  }

  /** A publish that failed gives its entry back to the pending messages. */
  lemma PublishFailedInv(w: World, w': World, q: seq<Entry>, e: Entry)
    requires Inv(w) && Control(w') && Outstanding(w.m) == q + [e] && Outstanding(w'.m) == q
    requires w'.m.pending == w.m.pending + [e.message] && w'.m.confirms == w.m.confirms
    requires w'.m.messageCount == w.m.messageCount && w'.h == w.h
    ensures Inv(w')
  {
    assert forall x :: x in q ==> x in Outstanding(w.m);
    assert forall x :: Record(w', x) == Record(w, x);
    assert Sorted(q) by {
      assert q == Outstanding(w.m)[..|q|];
    }
    FailedConserved(w, w', q, e);
  }

  lemma FailedConserved(w: World, w': World, q: seq<Entry>, e: Entry)
    requires Conserved(w) && Outstanding(w.m) == q + [e] && Outstanding(w'.m) == q
    requires w'.m.pending == w.m.pending + [e.message] && w'.h == w.h
    ensures Conserved(w')
  {
    assert Messages(q + [e]) == Messages(q) + [e.message];
  }

  lemma PublishReturnedInv(w: World, ok: bool)
    requires Inv(w) && Enabled(w, PublishResult(ok))
    ensures Inv(Apply(w, PublishResult(ok)))
  {
    var w' := Apply(w, PublishResult(ok));
    var e := Entry(w.m.messageCount, w.m.publishing.value);
    if ok {
      QuietInv(w, w');
    } else {
      PublishFailedInv(w, w', w.m.unconfirmed, e);
    }
  }

  /** Steps that touch neither the queues nor the history of publishes. */
  lemma QuietInv(w: World, w': World)
    requires Inv(w) && Control(w')
    requires Outstanding(w'.m) == Outstanding(w.m) && w'.m.pending == w.m.pending && w'.m.confirms == w.m.confirms
    requires w'.m.messageCount == w.m.messageCount
    requires w'.h == w.h.(nextChannel := w'.h.nextChannel)
    ensures Inv(w')
  {
    assert forall e :: Record(w', e) == Record(w, e);
  }

  lemma RescheduledInv(w: World)
    requires Inv(w) && Enabled(w, RescheduleAll)
    ensures Inv(Apply(w, RescheduleAll))
  {
    assert Outstanding(w.m) == w.m.unconfirmed;
    assert Outstanding(Apply(w, RescheduleAll).m) == [];
  }

  lemma HandedInv(w: World, msg: Message)
    requires Inv(w)
    ensures Inv(Apply(w, Send(msg)))
  {
    assert Outstanding(Apply(w, Send(msg)).m) == Outstanding(w.m);
  }

  lemma TakenInv(w: World, p: Publish)
    requires Inv(w) && Enabled(w, BrokerTakes(p))
    ensures Inv(Apply(w, BrokerTakes(p)))
  {
    assert Outstanding(Apply(w, BrokerTakes(p)).m) == Outstanding(w.m);
  }

  lemma RestoredInv(w: World, ok: bool)
    requires Inv(w) && Enabled(w, RestoreResult(ok))
    ensures Inv(Apply(w, RestoreResult(ok)))
  {
    assert Outstanding(w.m) == [] && Outstanding(Apply(w, RestoreResult(ok)).m) == [];
  }

  lemma OkStepInv(w: World)
    requires Inv(w) && Enabled(w, OkStep)
    ensures Inv(Apply(w, OkStep))
  {
    match Selected(w.m)
    case ConfirmReady =>
      ConfirmProcessedInv(w);
      assert Apply(w, OkStep) == AfterConfirm(w);
    case MessageReady => PublishStartedInv(w);
    case _ => QuietInv(w, Apply(w, OkStep));
  }

  /** Events that move no message and no confirm. */
  predicate Quiet(e: Event) {
    || e.ConnectionPublished? || e.FlowSignal? || e.BlockedSignal? || e.ConnectionRead?
    || e.Interrupted? || e.ChannelOpened? || e.CallbackRegistered?
  }

  lemma QuietStepControl(w: World, e: Event)
    requires Control(w) && Enabled(w, e) && Quiet(e)
    ensures Control(Apply(w, e))
  {
  }

  lemma QuietStepInv(w: World, e: Event)
    requires Inv(w) && Enabled(w, e) && Quiet(e)
    ensures Inv(Apply(w, e))
  {
    QuietStepControl(w, e);
    QuietInv(w, Apply(w, e));
  }

  lemma StepInv(w: World, e: Event)
    requires Inv(w) && Enabled(w, e)
    ensures Inv(Apply(w, e))
  {
    match e
    case Send(msg) => HandedInv(w, msg);
    case BrokerTakes(p) => TakenInv(w, p);
    case BrokerConfirms(c) => ConfirmEnqueuedInv(w, c);
    case OkStep => OkStepInv(w);
    case PublishResult(ok) => PublishReturnedInv(w, ok);
    case Drain => ConfirmProcessedInv(w);
    case RescheduleAll => RescheduledInv(w);
    case RestoreResult(ok) => RestoredInv(w, ok);
    case _ => QuietStepInv(w, e);
  }

  lemma {:induction false} RunInv(ws: seq<World>, es: seq<Event>, n: nat)
    requires Run(ws, es) && n < |ws|
    ensures Inv(ws[n])
  {
    if n == 0 {
      InitInv(ws[0]);
    } else {
      RunInv(ws, es, n - 1);
      StepInv(ws[n - 1], es[n - 1]);
    }
  }

  /** The drain loop and the rescheduling that follows it, as a series of steps. */
  ghost function DrainedAndRescheduled(w: World): World
    requires w.m.phase.ProcessingPendingConfirmations?
    decreases |w.m.confirms|
  {
    if w.m.confirms == [] then Apply(w, RescheduleAll) else DrainedAndRescheduled(Apply(w, Drain))
  }

  /** What the whole method does to the machine is what those steps do, so it keeps the invariant. */
  lemma {:induction false} ProcessPendingInv(w: World)
    requires Inv(w) && w.m.phase.ProcessingPendingConfirmations?
    ensures DrainedAndRescheduled(w).m == ProcessPending(w.m)
    ensures Inv(DrainedAndRescheduled(w))
    decreases |w.m.confirms|
  {
    if w.m.confirms == [] {
      StepInv(w, RescheduleAll);
    } else {
      StepInv(w, Drain);
      ProcessPendingInv(Apply(w, Drain));
    }
  }

  // ----- main results

  /** Conservation: on every run, what callers handed over is exactly what is pending, being
      published, awaiting a confirm, or retired by an ack. */
  lemma MessagesConserved(ws: seq<World>, es: seq<Event>, n: nat)
    requires Run(ws, es) && n < |ws|
    ensures ws[n].h.handed ==
            multiset(ws[n].m.pending) + multiset(Messages(ws[n].m.unconfirmed))
            + (if ws[n].m.publishing.Some? then multiset{ws[n].m.publishing.value} else multiset{})
            + multiset(Acked(ws[n]))
  {
    RunInv(ws, es, n);
    var m := ws[n].m;
    assert Messages(Outstanding(m)) ==
           Messages(m.unconfirmed) + (if m.publishing.Some? then [m.publishing.value] else []);
  }

  ghost function TakenCopies(w: World, msg: Message): set<Publish> {
    set p | p in w.h.taken && p.message == msg
  }

  lemma {:induction false} DistinctRecordsCount(ps: seq<Publish>, msg: Message, s: set<Publish>)
    requires Distinct(ps)
    requires forall p :: p in ps && p.message == msg ==> p in s
    ensures multiset(MessagesOf(ps))[msg] <= |s|
  {
    if ps != [] {
      var last := ps[|ps| - 1];
      var init := ps[..|ps| - 1];
      assert ps == init + [last];
      assert MessagesOf(ps) == MessagesOf(init) + [last.message];
      if last.message == msg {
        assert last !in init;
        assert last in ps;
        DistinctRecordsCount(init, msg, s - {last});
      } else {
        DistinctRecordsCount(init, msg, s);
      }
    }
  }

  /** At-least-once delivery: of every message, as many copies as were handed over are still inside
      or were taken by the broker under distinct publishes. */
  lemma AtLeastOnce(ws: seq<World>, es: seq<Event>, n: nat, msg: Message)
    requires Run(ws, es) && n < |ws|
    ensures ws[n].h.handed[msg] <= Inside(ws[n].m)[msg] + |TakenCopies(ws[n], msg)|
  {
    RunInv(ws, es, n);
    DistinctRecordsCount(ws[n].h.acked, msg, TakenCopies(ws[n], msg));
  }

  predicate ProcessesConfirm(w: World, e: Event) {
    (e.OkStep? && w.m.phase.Ok? && Selected(w.m).ConfirmReady?) || (e.Drain? && w.m.confirms != [])
  }

  /** A confirm keeps everything inside unless it is an ack, and what an ack takes out was covered by
      it, was published under exactly that tag on the current channel, and was taken by the broker. */
  lemma AckRetiresOwnPublish(w: World)
    requires Inv(w) && w.m.confirms != [] && w.m.publishing.None?
    ensures Inside(w.m) == Inside(AfterConfirm(w).m) + multiset(MessagesOf(Retired(w, w.m.confirms[0])))
    ensures forall p :: p in Retired(w, w.m.confirms[0]) ==>
              && w.m.confirms[0].ack && Covers(w.m.confirms[0], p.tag)
              && p.channel == w.m.channel && p in w.h.taken
              && Entry(p.tag, p.message) in w.m.unconfirmed
  {
    var c := w.m.confirms[0];
    var retired := Retired(w, c);
    InsideAfterConfirm(w);
    forall p | p in retired
      ensures Covers(c, p.tag) && p.channel == w.m.channel && p in w.h.taken && Entry(p.tag, p.message) in w.m.unconfirmed
    {
      RetiredIsTaken(w, p);
    }
  }

  lemma RetiredIsTaken(w: World, p: Publish)
    requires Inv(w) && w.m.confirms != [] && w.m.publishing.None?
    requires p in Retired(w, w.m.confirms[0])
    ensures Covers(w.m.confirms[0], p.tag) && p.channel == w.m.channel && p in w.h.taken
    ensures Entry(p.tag, p.message) in w.m.unconfirmed
  {
    assert p in w.h.taken by {
      ConfirmProcessedLedger(w);
      assert p in AfterConfirm(w).h.acked;
    }
    var gone := Removed(w.m.unconfirmed, w.m.confirms[0]);
    var i :| 0 <= i < |gone| && p == Publish(w.h.source, gone[i].tag, gone[i].message);
    CoveredRemoved(w.m.unconfirmed, w.m.confirms[0]);
    assert gone[i] in gone;
  }

  lemma OtherStepsHistory(w: World, e: Event)
    requires Enabled(w, e) && !ProcessesConfirm(w, e)
    ensures Apply(w, e).h.acked == w.h.acked
    ensures Apply(w, e).h.handed == w.h.handed + if e.Send? then multiset{e.message} else multiset{}
  {
  }

  /** Nothing but an ack takes a message out: every other step keeps all messages inside, together
      with one just handed over. */
  lemma OtherStepsKeepEverything(w: World, e: Event)
    requires Inv(w) && Enabled(w, e) && !ProcessesConfirm(w, e)
    ensures Apply(w, e).h.acked == w.h.acked
    ensures Inside(Apply(w, e).m) == Inside(w.m) + if e.Send? then multiset{e.message} else multiset{}
  {
    OtherStepsHistory(w, e);
    StepInv(w, e);
    ConservedDifference(w, Apply(w, e), if e.Send? then multiset{e.message} else multiset{});
  }

  lemma ConservedDifference(w: World, w': World, more: multiset<Message>)
    requires Conserved(w) && Conserved(w')
    requires w'.h.acked == w.h.acked && w'.h.handed == w.h.handed + more
    ensures Inside(w'.m) == Inside(w.m) + more
  {
    var out := multiset(Acked(w));
    assert Acked(w') == Acked(w);
    forall msg
      ensures Inside(w'.m)[msg] == (Inside(w.m) + more)[msg]
    {
      assert w'.h.handed[msg] == Inside(w'.m)[msg] + out[msg];
      assert w.h.handed[msg] == Inside(w.m)[msg] + out[msg];
    }
  }

  /** On every run an unconfirmed entry is the one publish of its number on the current channel. */
  lemma UnconfirmedIsItsPublish(ws: seq<World>, es: seq<Event>, n: nat, e: Entry)
    requires Run(ws, es) && n < |ws| && e in ws[n].m.unconfirmed
    ensures Publish(ws[n].m.channel, e.tag, e.message) in ws[n].h.wire && 1 <= e.tag <= ws[n].m.messageCount
    ensures forall p :: p in ws[n].h.wire && p.channel == ws[n].m.channel && p.tag == e.tag ==> p.message == e.message
    ensures Sorted(ws[n].m.unconfirmed)
  {
    assert Control(ws[n]) && Tags(ws[n]) by {
      RunInv(ws, es, n);
    }
    var w := ws[n];
    assert e in Outstanding(w.m);
    assert w.m.unconfirmed == Outstanding(w.m)[..|w.m.unconfirmed|];
    assert Record(w, e) in w.h.wire;
  }

  /** A confirm left over from an earlier channel is met before anything was published on the new
      one, and processing it changes nothing. */
  lemma StaleConfirmsAreHarmless(w: World, e: Event)
    requires Inv(w) && Enabled(w, e) && ProcessesConfirm(w, e) && w.m.messageCount == 0
    ensures Apply(w, e) == w.(m := w.m.(confirms := w.m.confirms[1..]))
  {
    assert Outstanding(w.m) == w.m.unconfirmed;
    assert forall i :: 0 <= i < |w.m.unconfirmed| ==> w.m.unconfirmed[i] in Outstanding(w.m);
    assert |w.m.unconfirmed| > 0 ==> w.m.unconfirmed[0].tag >= 1;
    assert w.m.pending + [] == w.m.pending;
    assert w.h.acked + [] == w.h.acked;
  }

  lemma OnlyOkPublishes(w: World, e: Event)
    requires Enabled(w, e) && w.m.publishing.None? && Apply(w, e).m.publishing.Some?
    ensures e.OkStep? && Selected(w.m).MessageReady?
  {
  }

  /** A publish starts only with no confirm waiting and nothing unseen, on the live channel, with the
      broker's flow flag on and the connection not blocked. */
  lemma PublishRespectsFlowControl(w: World, e: Event)
    requires Inv(w) && Enabled(w, e) && w.m.publishing.None? && Apply(w, e).m.publishing.Some?
    ensures w.m.phase.Ok? && w.m.confirms == [] && w.m.pending != []
    ensures w.m.flowWatch.value && !w.m.flowWatch.Unseen()
    ensures !w.m.blockedWatch.value && !w.m.blockedWatch.Unseen()
    ensures w.m.connection == w.m.connectionWatch.value && w.m.connection.Some?
    ensures var p := Publish(w.m.channel, w.m.messageCount + 1, w.m.pending[0]);
            p !in w.h.wire && Apply(w, e).h.wire == w.h.wire + {p}
  {
    OnlyOkPublishes(w, e);
  }

  /** And a publish is held back only for a reason: once the select finds nothing to do, no message is
      pending, or the broker has switched the flow off, or it blocks the connection. */
  lemma NothingHeldBack(ws: seq<World>, es: seq<Event>, n: nat)
    requires Run(ws, es) && n < |ws|
    requires ws[n].m.phase.Ok? && ws[n].m.publishing.None? && Selected(ws[n].m).NothingReady?
    ensures ws[n].m.pending == [] || !ws[n].m.flowWatch.value || ws[n].m.blockedWatch.value
    ensures ws[n].m.confirms == [] && ws[n].m.connection == ws[n].m.connectionWatch.value
  {
    assert Control(ws[n]) by {
      RunInv(ws, es, n);
    }
  }

  /** Through recovery, on every run: past WaitingForConnection there is a connection to unwrap, and
      a new channel is opened and restored with nothing unconfirmed. */
  lemma RecoveryIsSafe(ws: seq<World>, es: seq<Event>, n: nat)
    requires Run(ws, es) && n < |ws|
    ensures !ws[n].m.phase.WaitingForConnection? ==> ws[n].m.connection.Some?
    ensures ws[n].m.phase.RecreatingChannel? || ws[n].m.phase.RestoringProducer? ==> ws[n].m.unconfirmed == []
  {
    assert Control(ws[n]) by {
      RunInv(ws, es, n);
    }
  }

  /** Ok is entered with nothing unconfirmed, counting from 0, on a channel nothing was published on. */
  lemma OkStartsClean(w: World, e: Event)
    requires Inv(w) && Enabled(w, e) && !w.m.phase.Ok? && Apply(w, e).m.phase.Ok?
    ensures Apply(w, e).m.unconfirmed == [] && Apply(w, e).m.messageCount == 0
    ensures forall p :: p in Apply(w, e).h.wire ==> p.channel < Apply(w, e).m.channel
  {
    assert e == RestoreResult(true);
  }

  /** What a step puts behind the pending messages: what was handed over, or is to be sent again. */
  function Requeued(w: World, e: Event): seq<Message> {
    if e.Send? then [e.message]
    else if e == PublishResult(false) && w.m.publishing.Some? then [w.m.publishing.value]
    else if e.RescheduleAll? then Messages(w.m.unconfirmed)
    else if (e.OkStep? || e.Drain?) && w.m.confirms != [] && ProcessesConfirm(w, e) && !w.m.confirms[0].ack
    then Messages(Removed(w.m.unconfirmed, w.m.confirms[0]))
    else []
  }

  /** Pending messages form a queue: a step appends at its back, in the order of the tags of what is to
      be sent again, or takes the front into a publish. */
  lemma PendingIsQueue(w: World, e: Event)
    requires Enabled(w, e)
    ensures if e.OkStep? && Selected(w.m).MessageReady?
            then [Apply(w, e).m.publishing.value] + Apply(w, e).m.pending == w.m.pending
            else Apply(w, e).m.pending == w.m.pending + Requeued(w, e)
  {
    assert w.m.pending + [] == w.m.pending;
  }

  // ----- a channel that failed is given up

  /** Publishes can only go to channels newer than `g` from here on. */
  ghost predicate GivenUp(w: World, g: Channel) {
    && g < w.h.nextChannel
    && (|| w.m.phase.Ok? || w.m.phase.RestoringProducer? || (w.m.phase.RecreatingChannel? && w.m.channelOpened)
        ==> w.m.channel > g)
  }

  lemma GivenUpStep(w: World, e: Event, g: Channel)
    requires Enabled(w, e) && GivenUp(w, g)
    ensures GivenUp(Apply(w, e), g) && OnlyNewer(w, Apply(w, e), g)
  {
  }

  lemma {:induction false} GivenUpForever(ws: seq<World>, es: seq<Event>, k: nat, n: nat, g: Channel)
    requires Run(ws, es) && k <= n < |ws| && GivenUp(ws[k], g)
    ensures GivenUp(ws[n], g) && OnlyNewer(ws[k], ws[n], g)
  {
    if k < n {
      GivenUpForever(ws, es, k, n - 1, g);
      GivenUpOnRun(ws, es, n - 1, g);
    }
  }

  /** What was published between the two worlds went to channels newer than `g`. */
  ghost predicate OnlyNewer(w: World, w': World, g: Channel) {
    forall p :: p in w'.h.wire ==> p in w.h.wire || p.channel > g
  }

  lemma GivenUpOnRun(ws: seq<World>, es: seq<Event>, n: nat, g: Channel)
    requires Run(ws, es) && n < |es| && GivenUp(ws[n], g)
    ensures GivenUp(ws[n + 1], g) && OnlyNewer(ws[n], ws[n + 1], g)
  {
    GivenUpStep(ws[n], es[n], g);
  }

  /** A failed publish, a failed restore or a noticed connection change gives up the channel: on every
      run whatever is published afterwards goes to a newer one. */
  lemma FailedChannelAbandoned(ws: seq<World>, es: seq<Event>, k: nat, n: nat, p: Publish)
    requires Run(ws, es) && k < n < |ws| && p in ws[n].h.wire && p !in ws[k].h.wire
    requires || es[k] == PublishResult(false) || es[k] == RestoreResult(false) || es[k] == Interrupted
             || (es[k] == OkStep && ws[k].m.connectionWatch.Unseen())
    ensures p.channel > ws[k].m.channel
  {
    assert Control(ws[k]) by {
      RunInv(ws, es, k);
    }
    assert GivenUp(ws[k + 1], ws[k].m.channel) && ws[k + 1].h.wire == ws[k].h.wire;
    GivenUpForever(ws, es, k + 1, n, ws[k].m.channel);
  }

  // ----- recovery ends

  /** Steps of the machine outside Ok, other than looking once more for a connection that is still
      missing and the broker refusing to restore the producer. */
  predicate Advances(w: World, e: Event) {
    match e
    case ConnectionRead => w.m.connectionWatch.value.Some? || w.m.connectionWatch.Unseen()
    case Drain => true
    case RescheduleAll => true
    case Interrupted => true
    case ChannelOpened => true
    case CallbackRegistered => true
    case RestoreResult(restored) => restored
    case _ => false
  }

  /** Outside Ok the machine can go on, unless it waits for a connection and none is published. */
  lemma NeverStuck(ws: seq<World>, es: seq<Event>, n: nat)
    requires Run(ws, es) && n < |ws| && !ws[n].m.phase.Ok?
    ensures (exists e :: Enabled(ws[n], e) && Advances(ws[n], e)) <==>
            !(ws[n].m.phase.WaitingForConnection? && ws[n].m.connectionWatch.value.None? && !ws[n].m.connectionWatch.Unseen())
  {
    var w := ws[n];
    var next :=
      match w.m.phase
      case Ok => OkStep
      case WaitingForConnection => ConnectionRead
      case ProcessingPendingConfirmations => if w.m.confirms == [] then RescheduleAll else Drain
      case RecreatingChannel =>
        if w.m.connectionWatch.Unseen() then Interrupted
        else if w.m.channelOpened then CallbackRegistered else ChannelOpened
      case RestoringProducer => if w.m.connectionWatch.Unseen() then Interrupted else RestoreResult(true);
    assert Enabled(w, next);
  }

  /** How far the machine is from Ok. */
  function StepsToOk(m: Machine): nat {
    var behind := if m.connectionWatch.Unseen() then 6 + |m.confirms| else 0;
    match m.phase
    case Ok => 0
    case RestoringProducer => 1 + behind
    case RecreatingChannel => (if m.channelOpened then 2 else 3) + behind
    case ProcessingPendingConfirmations => 4 + |m.confirms| + behind
    case WaitingForConnection => 5 + |m.confirms| + behind
  }

  function AdvanceCount(ws: seq<World>, es: seq<Event>, m: nat, n: nat): nat
    requires m <= n <= |es| < |ws|
    decreases n - m
  {
    if m == n then 0 else (if Advances(ws[m], es[m]) then 1 else 0) + AdvanceCount(ws, es, m + 1, n)
  }

  /** The connection is stable, and the broker sends no further confirms and refuses nothing. */
  predicate Calm(e: Event) {
    !e.ConnectionPublished? && !e.BrokerConfirms? && e != RestoreResult(false)
  }

  lemma ComesCloser(w: World, e: Event)
    requires Enabled(w, e) && Calm(e) && !w.m.phase.Ok?
    ensures StepsToOk(Apply(w, e).m) + (if Advances(w, e) then 1 else 0) <= StepsToOk(w.m)
  {
  }

  /** And so it comes back: from any moment of any run, while it is calm, Ok is reached after at most
      11 steps and two for each waiting confirm, whatever else happens in between. */
  lemma {:induction false} RecoveryReachesOk(ws: seq<World>, es: seq<Event>, m: nat, n: nat)
    requires Run(ws, es) && m <= n < |ws|
    requires forall i :: m <= i < n ==> Calm(es[i]) && !ws[i].m.phase.Ok?
    ensures AdvanceCount(ws, es, m, n) + StepsToOk(ws[n].m) <= StepsToOk(ws[m].m) <= 11 + 2 * |ws[m].m.confirms|
    ensures ws[n].m.phase.Ok? <==> StepsToOk(ws[n].m) == 0
    decreases n - m
  {
    if m < n {
      RecoveryReachesOk(ws, es, m + 1, n);
      ComesCloser(ws[m], es[m]);
    }
  }

  lemma OkStepKeepsWatches(m: Machine)
    ensures OkIteration(m).connectionWatch.value == m.connectionWatch.value
    ensures OkIteration(m).flowWatch.value == m.flowWatch.value
    ensures OkIteration(m).blockedWatch.value == m.blockedWatch.value
  {
  }

  /** Each watched value is what was said last: by whoever publishes connections, the broker for flow and
      blocked, and, when a channel is opened, the machine itself, for which flow is on. */
  lemma WatchesExactly(w: World, e: Event)
    requires Enabled(w, e)
    ensures Apply(w, e).m.connectionWatch.value ==
            if e.ConnectionPublished? then e.connection else w.m.connectionWatch.value
    ensures Apply(w, e).m.flowWatch.value == if FlowSaid(e).Some? then FlowSaid(e).value else w.m.flowWatch.value
    ensures Apply(w, e).m.blockedWatch.value ==
            if BlockedSaid(e).Some? then BlockedSaid(e).value else w.m.blockedWatch.value
  {
    match e
    case OkStep => OkStepKeepsWatches(w.m);
    case _ =>
  }

  /** Whatever is said is unseen until the machine reads it. */
  lemma SignalsUnseen(w: World, e: Event)
    requires Control(w) && Enabled(w, e)
    ensures e.ConnectionPublished? ==> Apply(w, e).m.connectionWatch.Unseen()
    ensures FlowSaid(e).Some? ==> Apply(w, e).m.flowWatch.Unseen()
    ensures BlockedSaid(e).Some? ==> Apply(w, e).m.blockedWatch.Unseen()
  {
  }

  lemma WatchesOnRun(ws: seq<World>, es: seq<Event>, n: nat)
    requires Run(ws, es) && n < |es|
    ensures ws[n + 1].m.flowWatch.value == if FlowSaid(es[n]).Some? then FlowSaid(es[n]).value else ws[n].m.flowWatch.value
    ensures ws[n + 1].m.blockedWatch.value ==
            if BlockedSaid(es[n]).Some? then BlockedSaid(es[n]).value else ws[n].m.blockedWatch.value
  {
    WatchesExactly(ws[n], es[n]);
  }

  /** A value that only changes to what is said is what was said last. */
  lemma {:induction false} LastSaid(values: seq<bool>, said: seq<Option<bool>>, k: nat, n: nat)
    requires |values| == |said| + 1 && k < n <= |said| && said[k].Some?
    requires forall i :: 0 <= i < |said| ==> values[i + 1] == if said[i].Some? then said[i].value else values[i]
    requires forall i :: k < i < n ==> said[i].None?
    ensures values[n] == said[k].value
  {
    if k + 1 < n {
      LastSaid(values, said, k, n - 1);
    }
    assert said[n - 1].None? || n - 1 == k;
  }

  function FlowSaid(e: Event): Option<bool> {
    if e.FlowSignal? then Some(e.active) else if e.ChannelOpened? then Some(true) else None
  }

  function BlockedSaid(e: Event): Option<bool> {
    if e.BlockedSignal? then Some(e.isBlocked) else None
  }

  /** In Ok with nothing unseen the machine goes by the flow that was said last, which after opening a
      channel is on, and by the blocked flag that was said last. */
  lemma FlagsAreLastSaid(ws: seq<World>, es: seq<Event>, k: nat, n: nat)
    requires Run(ws, es) && k < n < |ws| && ws[n].m.phase.Ok?
    ensures && !ws[n].m.flowWatch.Unseen() && FlowSaid(es[k]).Some? && (forall i :: k < i < n ==> FlowSaid(es[i]).None?)
            ==> ws[n].m.flow == FlowSaid(es[k]).value
    ensures && !ws[n].m.blockedWatch.Unseen() && BlockedSaid(es[k]).Some? && (forall i :: k < i < n ==> BlockedSaid(es[i]).None?)
            ==> ws[n].m.blocked == BlockedSaid(es[k]).value
  {
    assert Control(ws[n]) by {
      RunInv(ws, es, n);
    }
    var flows := seq(|ws|, i requires 0 <= i < |ws| => ws[i].m.flowWatch.value);
    var blocks := seq(|ws|, i requires 0 <= i < |ws| => ws[i].m.blockedWatch.value);
    var flowSaid := seq(|es|, i requires 0 <= i < |es| => FlowSaid(es[i]));
    var blockedSaid := seq(|es|, i requires 0 <= i < |es| => BlockedSaid(es[i]));
    forall i | 0 <= i < |es|
      ensures flows[i + 1] == if flowSaid[i].Some? then flowSaid[i].value else flows[i]
      ensures blocks[i + 1] == if blockedSaid[i].Some? then blockedSaid[i].value else blocks[i]
    {
      WatchesOnRun(ws, es, i);
    }
    if FlowSaid(es[k]).Some? && forall i :: k < i < n ==> FlowSaid(es[i]).None? {
      LastSaid(flows, flowSaid, k, n);
    }
    if BlockedSaid(es[k]).Some? && forall i :: k < i < n ==> BlockedSaid(es[i]).None? {
      LastSaid(blocks, blockedSaid, k, n);
    }
  }

  /** Tag 0 with `multiple` settles nothing, because tags start at 1. */
  lemma TagZeroSettlesNothing(w: World, ack: bool)
    requires Inv(w)
    ensures Settle(w.m, Confirm(0, true, ack)) == w.m
  {
    var c := Confirm(0, true, ack);
    forall e | e in w.m.unconfirmed
      ensures !Covers(c, e.tag)
    {
      assert e in Outstanding(w.m);
    }
    NothingCovered(w.m.unconfirmed, c);
    assert w.m.pending + [] == w.m.pending;
  }

  /** Tag 0 with `multiple` as section 1.8.3.13 of the AMQP 0-9-1 reference has it: everything
      outstanding is settled. */
  function SettleEverything(m: Machine, ack: bool): Machine {
    m.(unconfirmed := [], pending := if ack then m.pending else m.pending + Messages(m.unconfirmed))
  }

  /** The code does what the protocol says for that confirm exactly when nothing is outstanding. */
  lemma TagZeroAsSpecifiedExactly(w: World, ack: bool)
    requires Inv(w)
    ensures Settle(w.m, Confirm(0, true, ack)) == SettleEverything(w.m, ack) <==> w.m.unconfirmed == []
  {
    TagZeroSettlesNothing(w, ack);
    assert w.m.pending + [] == w.m.pending;
  }

  lemma {:induction false} NothingCovered(q: seq<Entry>, c: Confirm)
    requires forall e :: e in q ==> !Covers(c, e.tag)
    ensures Kept(q, c) == q && Removed(q, c) == []
  {
    if q != [] {
      NothingCovered(q[1..], c);
    }
  }
}
