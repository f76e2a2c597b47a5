/**
  What the registry guarantees in every reachable state: no live receiver is cut off silently, no
  entry leaks, and every registered client has been told the stored network status last.
 */
module RegistrySafety {
  import opened Common
  import opened RegistryModel

  // ----- invariant

  /** Each channel belongs to one user, and the map only holds channels that are still open. */
  ghost predicate Owned(s: Registry) {
    && (forall g :: g in s.owner ==> g < s.nextChannel)
    && (forall u :: u in s.users ==>
          && s.users[u] in s.owner && s.owner[s.users[u]] == u
          && s.users[u] !in s.closing && s.users[u] !in s.closed)
    && (forall c :: c in s.clients ==>
          s.clients[c].channel in s.owner && s.owner[s.clients[c].channel] == s.clients[c].user)
    && (forall g :: g in s.closing || g in s.closed ==> g in s.owner)
  }

  /** A live receiver is subscribed to its user's channel, or its channel is closed (or about to be). */
  ghost predicate Reachable(s: Registry) {
    forall c :: c in s.clients && s.clients[c].phase.Running? ==>
      Registered(s, c) || s.clients[c].channel in s.closing || s.clients[c].channel in s.closed
  }

  /** A task that holds, or has yet to clean up after, a receiver of channel `g`. */
  ghost predicate Attended(s: Registry, g: Channel) {
    exists c :: c in s.clients && !s.clients[c].phase.Finished? && s.clients[c].channel == g
  }

  ghost predicate NoLeak(s: Registry) {
    forall u :: u in s.users ==> Attended(s, s.users[u])
  }

  ghost predicate Informed(s: Registry) {
    && (s.announcing.Some? ==> s.announcing.value == s.statusOk)
    && (s.announcing.None? ==>
          forall c :: c in s.clients && Registered(s, c) ==> LastStatus(s.clients[c].queue) == s.statusOk)
  }

  ghost predicate Inv(s: Registry) {
    Owned(s) && Reachable(s) && NoLeak(s) && Informed(s)
  }

  // ----- sends only append to queues

  /** `s'` differs from `s` in the queues alone. */
  ghost predicate SameShape(s: Registry, s': Registry) {
    && s' == s.(clients := s'.clients)
    && s'.clients.Keys == s.clients.Keys
    && forall c :: c in s.clients ==> s'.clients[c] == s.clients[c].(queue := s'.clients[c].queue)
  }

  lemma SameShapeInv(s: Registry, s': Registry)
    requires SameShape(s, s')
    ensures Owned(s) ==> Owned(s')
    ensures Reachable(s) ==> Reachable(s')
    ensures NoLeak(s) ==> NoLeak(s')
    ensures forall c :: Registered(s', c) <==> Registered(s, c)
    ensures forall c, g :: Receives(s', c, g) <==> Receives(s, c, g)
  {
    assert forall c :: Registered(s', c) <==> Registered(s, c);
    forall g | Attended(s, g)
      ensures Attended(s', g)
    {
      var c :| c in s.clients && !s.clients[c].phase.Finished? && s.clients[c].channel == g;
      assert c in s'.clients && s'.clients[c].channel == g;
    }
  }

  lemma LastStatusAppend(q: seq<Message>, m: Message)
    ensures LastStatus(q + [m]) == if m.StatusOnly? then m.ok else LastStatus(q)
  {
    assert (q + [m])[..|q|] == q;
  }

  /** Receivers of the channel the map holds for a user are exactly that user's registered clients. */
  lemma ReceiversAreRegistered(s: Registry, u: UserId, c: ClientId)
    requires Owned(s) && u in s.users && c in s.clients
    ensures Receives(s, c, s.users[u]) <==> Registered(s, c) && s.clients[c].user == u
  {
  }

  function Count(ids: seq<UserId>, u: UserId): nat {
    if ids == [] then 0 else (if ids[0] == u then 1 else 0) + Count(ids[1..], u)
  }

  function Copies<T>(m: T, n: nat): seq<T> {
    seq(n, _ => m)
  }

  /** The copies a client is due from a multicast. */
  function Due(s: Registry, c: ClientId, ids: seq<UserId>, m: Message): seq<Message>
    requires c in s.clients
  {
    if Registered(s, c) then Copies(m, Count(ids, s.clients[c].user)) else []
  }

  /** The first send of a multicast gives a client one of the copies it is due. */
  lemma FirstSend(s: Registry, s': Registry, ids: seq<UserId>, m: Message, c: ClientId)
    requires Owned(s) && ids != [] && c in s.clients
    requires s' == if ids[0] in s.users then SendTo(s, s.users[ids[0]], m) else s
    ensures SameShape(s, s')
    ensures s'.clients[c].queue + Due(s', c, ids[1..], m) == s.clients[c].queue + Due(s, c, ids, m)
  {
    var n := Count(ids[1..], s.clients[c].user);
    assert Registered(s', c) <==> Registered(s, c);
    if ids[0] in s.users {
      ReceiversAreRegistered(s, ids[0], c);
    }
    assert [m] + Copies(m, n) == Copies(m, n + 1);
  }

  /** A multicast queues the message once per occurrence of the client's user in the list, to
      registered clients only, and changes nothing else. */
  lemma {:induction false} MulticastDelivers(s: Registry, ids: seq<UserId>, m: Message)
    requires Owned(s)
    ensures SameShape(s, Multicast(s, ids, m))
    ensures forall c :: c in s.clients ==>
              Multicast(s, ids, m).clients[c].queue == s.clients[c].queue + Due(s, c, ids, m)
    decreases |ids|
  {
    if ids != [] {
      var s' := if ids[0] in s.users then SendTo(s, s.users[ids[0]], m) else s;
      SameShapeInv(s, s');
      MulticastDelivers(s', ids[1..], m);
      forall c | c in s.clients
        ensures Multicast(s, ids, m).clients[c].queue == s.clients[c].queue + Due(s, c, ids, m)
      {
        FirstSend(s, s', ids, m, c);
      }
    }
  }

  lemma {:induction false} LastStatusOfCopies(q: seq<Message>, m: Message, n: nat)
    requires m.Notification?
    ensures LastStatus(q + Copies(m, n)) == LastStatus(q)
  {
    if n == 0 {
      assert q + Copies(m, 0) == q;
    } else {
      LastStatusOfCopies(q, m, n - 1);
      LastStatusAppend(q + Copies(m, n - 1), m);
      assert q + Copies(m, n) == (q + Copies(m, n - 1)) + [m];
    }
  }

  /** A broadcast that has reached the channels of the users in `done`. */
  function BroadcastSoFar(s: Registry, done: set<UserId>, m: Message): Registry {
    s.(clients := map c | c in s.clients ::
         if Registered(s, c) && s.clients[c].user in done
         then s.clients[c].(queue := s.clients[c].queue + [m]) else s.clients[c])
  }

  /** Channels are not shared between users, so sending on one more channel reaches that user's
      registered clients and nobody twice. */
  lemma BroadcastReachesUser(s: Registry, done: set<UserId>, u: UserId, m: Message)
    requires Owned(s) && u in s.users && u !in done
    ensures SendTo(BroadcastSoFar(s, done, m), s.users[u], m) == BroadcastSoFar(s, done + {u}, m)
  {
    var s1 := BroadcastSoFar(s, done, m);
    var lhs, rhs := SendTo(s1, s.users[u], m), BroadcastSoFar(s, done + {u}, m);
    forall c | c in s.clients
      ensures lhs.clients[c] == rhs.clients[c]
    {
      ReceiversAreRegistered(s, u, c);
      assert Receives(s1, c, s.users[u]) <==> Receives(s, c, s.users[u]);
    }
    assert lhs.clients == rhs.clients;
  }

  lemma BroadcastReachesAll(s: Registry, m: Message)
    ensures BroadcastSoFar(s, {}, m) == s
    ensures BroadcastSoFar(s, s.users.Keys, m) == Broadcast(s, m)
  {
    assert BroadcastSoFar(s, {}, m).clients == s.clients;
    assert BroadcastSoFar(s, s.users.Keys, m).clients == Broadcast(s, m).clients;
  }

  // ----- preservation

  lemma SubscribeInv(s: Registry, c: ClientId, u: UserId)
    requires Inv(s) && c !in s.clients
    ensures Owned(Subscribe(s, c, u)) && Reachable(Subscribe(s, c, u)) && NoLeak(Subscribe(s, c, u))
    ensures forall d :: Registered(Subscribe(s, c, u), d) <==> d == c || Registered(s, d)
  {
    var s' := Subscribe(s, c, u);
    var g := s'.users[u];
    assert u in s.users ==> s'.users == s.users && s'.owner == s.owner;
    assert forall d :: Registered(s', d) <==> d == c || Registered(s, d);
    forall v | v in s'.users
      ensures Attended(s', s'.users[v])
    {
      if v == u {
        assert c in s'.clients && s'.clients[c].channel == g;
      } else {
        StillAttended(s, s', s.users[v]);
      }
    }
  }

  lemma StillAttended(s: Registry, s': Registry, g: Channel)
    requires Attended(s, g)
    requires forall d :: d in s.clients && s.clients[d].channel == g && !s.clients[d].phase.Finished? ==>
               d in s'.clients && s'.clients[d].channel == g && !s'.clients[d].phase.Finished?
    ensures Attended(s', g)
  {
    var d :| d in s.clients && !s.clients[d].phase.Finished? && s.clients[d].channel == g;
    assert d in s'.clients && !s'.clients[d].phase.Finished? && s'.clients[d].channel == g;
  }

  /** A problem message to one channel keeps the invariant when everyone else is informed already. */
  lemma ProblemInv(s: Registry, g: Channel)
    requires Owned(s) && Reachable(s) && NoLeak(s) && !s.statusOk
    requires s.announcing.Some? ==> s.announcing.value == s.statusOk
    requires s.announcing.None? ==>
               forall c :: c in s.clients && Registered(s, c) && !Receives(s, c, g) ==> !LastStatus(s.clients[c].queue)
    ensures Inv(SendTo(s, g, StatusOnly(false)))
  {
    var m := StatusOnly(false);
    var s' := SendTo(s, g, m);
    SameShapeInv(s, s');
    forall c | c in s'.clients && Registered(s', c) && s'.announcing.None?
      ensures LastStatus(s'.clients[c].queue) == s'.statusOk
    {
      LastStatusAppend(s.clients[c].queue, m);
      assert Registered(s, c);
    }
  }

  lemma ConnectInv(s: Registry, c: ClientId, u: UserId)
    requires Inv(s) && c !in s.clients
    ensures Inv(Connect(s, c, u))
  {
    var s1 := Subscribe(s, c, u);
    SubscribeInv(s, c, u);
    assert forall d :: d in s1.clients && d != c ==> s1.clients[d] == s.clients[d];
    if !s1.statusOk {
      assert Receives(s1, c, s1.users[u]);
      ProblemInv(s1, s1.users[u]);
    }
  }

  lemma EndInv(s: Registry, c: ClientId)
    requires Inv(s) && c in s.clients && s.clients[c].phase.Running?
    ensures Inv(End(s, c))
  {
    var s' := End(s, c);
    assert forall d :: d in s'.clients && Registered(s', d) ==> Registered(s, d);
    assert forall d :: d in s.clients && d != c && Registered(s, d) ==> Registered(s', d);
    forall v | v in s'.users
      ensures Attended(s', s'.users[v])
    {
      assert Attended(s, s.users[v]);
      var d :| d in s.clients && !s.clients[d].phase.Finished? && s.clients[d].channel == s.users[v];
      assert d in s'.clients && !s'.clients[d].phase.Finished? && s'.clients[d].channel == s.users[v];
    }
  }

  lemma CleanUpKeepsRegistered(s: Registry, c: ClientId)
    requires Owned(s) && c in s.clients && s.clients[c].phase.CleaningUp?
    ensures forall d :: Registered(CleanUp(s, c), d) <==> Registered(s, d)
  {
    var s' := CleanUp(s, c);
    var u := s.clients[c].user;
    var s1 := Finish(s, c);
    forall d
      ensures Registered(s', d) <==> Registered(s, d)
    {
      assert Registered(s1, d) <==> Registered(s, d);
      if Registered(s1, d) && s1.clients[d].user == u {
        assert d in Receivers(s1, s.users[u]);
      }
    }
  }

  lemma CleanUpNoLeak(s: Registry, c: ClientId)
    requires Owned(s) && NoLeak(s) && c in s.clients && s.clients[c].phase.CleaningUp?
    ensures NoLeak(CleanUp(s, c))
  {
    var s' := CleanUp(s, c);
    var u := s.clients[c].user;
    forall v | v in s'.users
      ensures Attended(s', s'.users[v])
    {
      if v == u {
        var d :| d in Receivers(Finish(s, c), s.users[u]);
        assert d in s'.clients && !s'.clients[d].phase.Finished? && s'.clients[d].channel == s.users[u];
      } else {
        assert s.clients[c].channel != s.users[v];
        StillAttended(s, s', s.users[v]);
      }
    }
  }

  lemma CleanUpInv(s: Registry, c: ClientId)
    requires Inv(s) && c in s.clients && s.clients[c].phase.CleaningUp?
    ensures Inv(CleanUp(s, c))
  {
    CleanUpKeepsRegistered(s, c);
    CleanUpNoLeak(s, c);
    assert Owned(CleanUp(s, c));
  }

  lemma TakeOutInv(s: Registry, u: UserId)
    requires Inv(s)
    ensures Inv(TakeOut(s, u))
  {
    var s' := TakeOut(s, u);
    assert forall c :: c in s'.clients && Registered(s', c) ==> Registered(s, c);
    forall v | v in s'.users
      ensures Attended(s', s'.users[v])
    {
      assert Attended(s, s.users[v]);
      var d :| d in s.clients && !s.clients[d].phase.Finished? && s.clients[d].channel == s.users[v];
      assert d in s'.clients;
    }
  }

  lemma DropSenderInv(s: Registry, g: Channel)
    requires Inv(s) && g in s.closing
    ensures Inv(DropSender(s, g))
  {
    var s' := DropSender(s, g);
    assert forall c :: Registered(s', c) <==> Registered(s, c);
    assert forall h :: Attended(s, h) ==> Attended(s', h);
  }

  lemma BroadcastShape(s: Registry, m: Message)
    ensures SameShape(s, Broadcast(s, m))
  {
  }

  lemma NotifyInv(s: Registry, ids: seq<UserId>, id: nat)
    requires Inv(s)
    ensures Inv(SendNotification(s, ids, id))
  {
    var s' := SendNotification(s, ids, id);
    var m := Notification(id);
    MulticastDelivers(s, ids, m);
    BroadcastShape(s, m);
    SameShapeInv(s, s');
    forall c | c in s'.clients && Registered(s', c)
      ensures LastStatus(s'.clients[c].queue) == LastStatus(s.clients[c].queue)
    {
      LastStatusAppend(s.clients[c].queue, m);
      LastStatusOfCopies(s.clients[c].queue, m, Count(ids, s.clients[c].user));
    }
  }

  lemma AnnounceInv(s: Registry)
    requires Inv(s) && s.announcing.Some?
    ensures Inv(AnnounceStatus(s, s.announcing.value))
  {
    var m := StatusOnly(s.announcing.value);
    var s1 := Broadcast(s, m);
    BroadcastShape(s, m);
    SameShapeInv(s, s1);
    var s' := AnnounceStatus(s, s.announcing.value);
    assert forall c :: Registered(s', c) <==> Registered(s1, c);
    assert forall h :: Attended(s1, h) ==> Attended(s', h);
    forall c | c in s'.clients && Registered(s', c)
      ensures LastStatus(s'.clients[c].queue) == s'.statusOk
    {
      LastStatusAppend(s.clients[c].queue, m);
    }
  }

  lemma StoreInv(s: Registry, ok: bool)
    requires Inv(s)
    ensures Inv(StoreStatus(s, ok))
  {
    var s' := StoreStatus(s, ok);
    assert forall c :: Registered(s', c) <==> Registered(s, c);
    assert forall h :: Attended(s, h) ==> Attended(s', h);
  }

  lemma StepInv(s: Registry, e: Event)
    requires Inv(s) && Enabled(s, e)
    ensures Inv(Apply(s, e))
  {
    match e
    case Connects(c, u) => ConnectInv(s, c, u);
    case Ends(c) => EndInv(s, c);
    case CleansUp(c) => CleanUpInv(s, c);
    case ForcesClose(u) => TakeOutInv(s, u);
    case DropsSender(g) => DropSenderInv(s, g);
    case Notifies(ids, id) => NotifyInv(s, ids, id);
    case StoresStatus(ok) => StoreInv(s, ok);
    case AnnouncesStatus => AnnounceInv(s);
  }

  lemma {:induction false} RunInv(ss: seq<Registry>, es: seq<Event>, n: nat)
    requires Run(ss, es) && n < |ss|
    ensures Inv(ss[n])
  {
    if n > 0 {
      RunInv(ss, es, n - 1);
      StepInv(ss[n - 1], es[n - 1]);
    }
  }

  // ----- main results

  /** On every run a live receiver is subscribed to the channel the map holds for its user, or that
      channel has been taken out of the map to be closed. */
  lemma NobodyCutOff(ss: seq<Registry>, es: seq<Event>, n: nat, c: ClientId)
    requires Run(ss, es) && n < |ss| && c in ss[n].clients && ss[n].clients[c].phase.Running?
    ensures Registered(ss[n], c) || ss[n].clients[c].channel in ss[n].closing + ss[n].closed
    ensures !(Registered(ss[n], c) && ss[n].clients[c].channel in ss[n].closing + ss[n].closed)
  {
    RunInv(ss, es, n);
  }

  /** Only a forced close of its own user ends a live client's registration: neither the cleanup of an
      earlier connection nor anything else does. */
  lemma RegistrationLasts(ss: seq<Registry>, es: seq<Event>, n: nat, c: ClientId)
    requires Run(ss, es) && n < |es| && Registered(ss[n], c)
    requires es[n] != ForcesClose(ss[n].clients[c].user) && es[n] != Ends(c)
    ensures Registered(ss[n + 1], c)
  {
    RunInv(ss, es, n);
    var s, e := ss[n], es[n];
    match e {
      case Connects(d, u) => SubscribeInv(s, d, u);
      case CleansUp(d) => CleanUpKeepsRegistered(s, d);
      case Notifies(ids, id) => MulticastDelivers(s, ids, Notification(id));
      case _ =>
    }
  }

  /** Nothing leaks: an entry without receivers has a cleanup of its own channel coming, so when no
      cleanup is pending every entry is in use, and when nobody is connected the map is empty. */
  lemma NoEntryLeaks(ss: seq<Registry>, es: seq<Event>, n: nat)
    requires Run(ss, es) && n < |ss|
    ensures forall u :: u in ss[n].users && |Receivers(ss[n], ss[n].users[u])| == 0 ==>
              exists c :: c in ss[n].clients && ss[n].clients[c].phase.CleaningUp?
                          && ss[n].clients[c].channel == ss[n].users[u]
    ensures (forall c :: c in ss[n].clients ==> ss[n].clients[c].phase.Finished?) ==> ss[n].users == map[]
  {
    RunInv(ss, es, n);
    var s := ss[n];
    forall u | u in s.users && |Receivers(s, s.users[u])| == 0
      ensures exists c :: c in s.clients && s.clients[c].phase.CleaningUp? && s.clients[c].channel == s.users[u]
    {
      assert Attended(s, s.users[u]);
      var c :| c in s.clients && !s.clients[c].phase.Finished? && s.clients[c].channel == s.users[u];
      assert c !in Receivers(s, s.users[u]);
    }
    if forall c :: c in s.clients ==> s.clients[c].phase.Finished? {
      assert forall u :: u in s.users ==> Attended(s, s.users[u]);
    }
  }

  /** The unchecked send while connecting has a receiver, the new client itself, and tells it of a
      network problem exactly when one is stored. */
  lemma ConnectSendHasReceiver(s: Registry, c: ClientId, u: UserId)
    requires Inv(s) && c !in s.clients
    ensures Registered(Connect(s, c, u), c)
    ensures Connect(s, c, u).clients[c].queue == if s.statusOk then [] else [StatusOnly(false)]
    ensures c in Receivers(Connect(s, c, u), Connect(s, c, u).users[u])
  {
  }

  lemma {:induction false} CountIsMultiset(ids: seq<UserId>, u: UserId)
    ensures Count(ids, u) == multiset(ids)[u]
  {
    if ids != [] {
      CountIsMultiset(ids[1..], u);
      assert ids == [ids[0]] + ids[1..];
    }
  }

  /** What a step sends to a client: a notification for everyone once to each registered client, one for
      listed users once per occurrence of its user, a status broadcast the stored status; a connecting
      client's problem message reaches the other clients of its user too; and nothing else is sent. */
  function SentTo(s: Registry, e: Event, c: ClientId): seq<Message>
    requires c in s.clients
  {
    if !Registered(s, c) then []
    else
      match e
      case Notifies(ids, id) => Copies(Notification(id), if ids == [] then 1 else multiset(ids)[s.clients[c].user])
      case AnnouncesStatus => [StatusOnly(s.statusOk)]
      case Connects(_, u) => if u == s.clients[c].user && !s.statusOk then [StatusOnly(false)] else []
      case _ => []
  }

  lemma NotifySends(s: Registry, ids: seq<UserId>, id: nat, c: ClientId)
    requires Inv(s) && c in s.clients
    ensures c in SendNotification(s, ids, id).clients
    ensures SendNotification(s, ids, id).clients[c] ==
            s.clients[c].(queue := s.clients[c].queue + SentTo(s, Notifies(ids, id), c))
  {
    MulticastDelivers(s, ids, Notification(id));
    CountIsMultiset(ids, s.clients[c].user);
  }

  lemma StepSends(s: Registry, e: Event, c: ClientId)
    requires Inv(s) && Enabled(s, e) && c in s.clients
    ensures c in Apply(s, e).clients
    ensures Apply(s, e).clients[c].queue == s.clients[c].queue + SentTo(s, e, c)
  {
    match e
    case Notifies(ids, id) => NotifySends(s, ids, id, c);
    case Connects(d, u) => if u in s.users { ReceiversAreRegistered(s, u, c); }
    case _ =>
  }

  /** On every run a client's queue grows by exactly what each step sends to it. */
  lemma QueuesExactly(ss: seq<Registry>, es: seq<Event>, n: nat, c: ClientId)
    requires Run(ss, es) && n < |es| && c in ss[n].clients
    ensures c in ss[n + 1].clients
    ensures ss[n + 1].clients[c].queue == ss[n].clients[c].queue + SentTo(ss[n], es[n], c)
  {
    RunInv(ss, es, n);
    StepSends(ss[n], es[n], c);
  }

  /** A forced close unregisters every client of the user and nobody else, and leaves the channel they
      receive on to be closed. */
  lemma ForcedCloseExactly(ss: seq<Registry>, es: seq<Event>, n: nat, u: UserId, c: ClientId)
    requires Run(ss, es) && n < |es| && es[n] == ForcesClose(u) && c in ss[n].clients
    ensures c in ss[n + 1].clients && u !in ss[n + 1].users
    ensures Registered(ss[n + 1], c) <==> Registered(ss[n], c) && ss[n].clients[c].user != u
    ensures Registered(ss[n], c) && ss[n].clients[c].user == u ==> ss[n].clients[c].channel in ss[n + 1].closing
  {
    RunInv(ss, es, n);
  }

  /** A channel taken out is closed once its sender is dropped, stays so for the rest of the run, and its
      clients are sent nothing any more. */
  lemma {:induction false} ClosedForGood(ss: seq<Registry>, es: seq<Event>, m: nat, n: nat, c: ClientId)
    requires Run(ss, es) && m <= n < |ss| && c in ss[m].clients
    requires ss[m].clients[c].channel in ss[m].closing + ss[m].closed
    ensures c in ss[n].clients && ss[n].clients[c].channel == ss[m].clients[c].channel
    ensures ss[n].clients[c].channel in ss[n].closing + ss[n].closed
    ensures (exists i :: m <= i < n && es[i] == DropsSender(ss[m].clients[c].channel)) ==>
              ss[n].clients[c].channel in ss[n].closed
    ensures !Registered(ss[n], c) && ss[n].clients[c].queue == ss[m].clients[c].queue
  {
    RunInv(ss, es, n);
    if m < n {
      ClosedForGood(ss, es, m, n - 1, c);
      RunInv(ss, es, n - 1);
      StepSends(ss[n - 1], es[n - 1], c);
      ChannelStays(ss[n - 1], es[n - 1], c);
    }
  }

  lemma ChannelStays(s: Registry, e: Event, c: ClientId)
    requires Inv(s) && Enabled(s, e) && c in s.clients
    ensures c in Apply(s, e).clients && Apply(s, e).clients[c].channel == s.clients[c].channel
    ensures s.closed <= Apply(s, e).closed
    ensures s.closing - Apply(s, e).closing <= if e.DropsSender? then {e.channel} else {}
    ensures e.DropsSender? ==> e.channel in Apply(s, e).closed
  {
    if e.Notifies? {
      MulticastDelivers(s, e.ids, Notification(e.notification));
    }
  }

  /** Whenever no status update is between its store and its broadcast, the last status-only message
      queued to every registered client is the stored status, whenever the client connected. */
  lemma EveryoneKnowsStatus(ss: seq<Registry>, es: seq<Event>, n: nat, c: ClientId)
    requires Run(ss, es) && n < |ss| && ss[n].announcing.None? && Registered(ss[n], c)
    ensures LastStatus(ss[n].clients[c].queue) == ss[n].statusOk
  {
    RunInv(ss, es, n);
  }

  /** Why updates must not overlap: two of them whose broadcasts come in the other order than their
      stores leave every registered client with the opposite of what is stored. */
  lemma OverlappingUpdatesDisagree(s: Registry, c: ClientId)
    requires Inv(s) && Registered(s, c)
    ensures var stored := StoreStatus(StoreStatus(s, true), false);
            var s' := AnnounceStatus(AnnounceStatus(stored, false), true);
            !s'.statusOk && Registered(s', c) && LastStatus(s'.clients[c].queue)
  {
    var stored := StoreStatus(StoreStatus(s, true), false);
    var s1 := AnnounceStatus(stored, false);
    assert Registered(stored, c) && Registered(s1, c);
    LastStatusAppend(s1.clients[c].queue, StatusOnly(true));
  }
}
