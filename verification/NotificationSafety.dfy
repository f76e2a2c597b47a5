/**
  What holds of every notification and user on every interleaving of store updates: one confirmation
  at most, only for recipients, moving from undelivered to delivered to deleted; one DELETED event at
  most; and a fetch that marks everything it returns.
 */
module NotificationSafety {
  import opened Common
  import opened NotificationModel

  datatype Status = Undelivered | Delivered(seen: bool) | Deleted

  function StatusOf(d: Document, u: UserId): Status {
    var i := FirstMatch(d.confirmations, u, false);
    if i == |d.confirmations| then Undelivered
    else if d.confirmations[i].deleted then Deleted
    else Delivered(d.confirmations[i].seen)
  }

  /** One confirmation per user at most, and only for recipients. */
  ghost predicate Sound(d: Document) {
    && (forall i, j :: 0 <= i < j < |d.confirmations| ==> d.confirmations[i].user != d.confirmations[j].user)
    && (forall i :: 0 <= i < |d.confirmations| ==> Addressed(d, d.confirmations[i].user))
  }

  ghost predicate StoreSound(s: Store) {
    && (forall id :: id in s ==> Sound(s[id]))
    && (forall a, b :: a in s && b in s && a != b ==>
          s[a].producer != s[b].producer || s[a].producerNotification != s[b].producerNotification)
  }

  // ----- what each update does to the status of each user

  /** In a sound document the first match is the only one. */
  lemma OnlyMatch(d: Document, u: UserId, onlyLive: bool, k: nat)
    requires Sound(d) && k < |d.confirmations| && Matches(d.confirmations[k], u, onlyLive)
    ensures FirstMatch(d.confirmations, u, onlyLive) == k
  {
  }

  lemma {:induction false} FirstMatchAppend(cs: seq<Confirmation>, c: Confirmation, u: UserId, onlyLive: bool)
    ensures FirstMatch(cs + [c], u, onlyLive) ==
            if FirstMatch(cs, u, onlyLive) < |cs| then FirstMatch(cs, u, onlyLive)
            else if Matches(c, u, onlyLive) then |cs| else |cs| + 1
  {
    if cs != [] {
      FirstMatchAppend(cs[1..], c, u, onlyLive);
      assert (cs + [c])[1..] == cs[1..] + [c];
    }
  }

  /** Replacing a confirmation by one of the same user moves no one else's. */
  lemma {:induction false} FirstMatchUpdate(cs: seq<Confirmation>, i: nat, c: Confirmation, u: UserId)
    requires i < |cs| && c.user == cs[i].user
    ensures FirstMatch(cs[i := c], u, false) == FirstMatch(cs, u, false)
  {
    if i > 0 && cs[0].user != u {
      FirstMatchUpdate(cs[1..], i - 1, c, u);
      assert cs[i := c][1..] == cs[1..][i - 1 := c];
    } else if i == 0 && cs[0].user != u {
      assert cs[i := c][1..] == cs[1..];
    }
  }

  /** Nothing but confirmations of `u` differs, and their number and order do not. */
  ghost predicate OnlyOwn(d: Document, d': Document, u: UserId) {
    && d' == d.(confirmations := d'.confirmations)
    && |d'.confirmations| == |d.confirmations|
    && forall k :: 0 <= k < |d.confirmations| && d.confirmations[k].user != u ==>
         d'.confirmations[k] == d.confirmations[k]
  }

  lemma ConfirmStatus(d: Document, u: UserId, now: Time, v: UserId)
    requires Sound(d)
    ensures Sound(Confirm(d, u, now))
    ensures StatusOf(Confirm(d, u, now), v) ==
            if v == u && Confirmable(d, u, now) then Delivered(false) else StatusOf(d, v)
    ensures Confirm(d, u, now) != d <==> Addressed(d, u) && Unexpired(d, now) && StatusOf(d, u).Undelivered?
    ensures Confirm(d, u, now) ==
            if Addressed(d, u) && Unexpired(d, now) && StatusOf(d, u).Undelivered?
            then d.(confirmations := d.confirmations + [Confirmation(u, now, false, false)]) else d
  {
    FirstMatchAppend(d.confirmations, Confirmation(u, now, false, false), v, false);
  }

  lemma SetSeenOwn(d: Document, u: UserId, seen: bool)
    requires Sound(d)
    ensures Sound(SetSeen(d, u, seen)) && OnlyOwn(d, SetSeen(d, u, seen), u)
    ensures forall k :: 0 <= k < |d.confirmations| && d.confirmations[k].user == u ==>
              SetSeen(d, u, seen).confirmations[k] ==
              if d.confirmations[k].deleted then d.confirmations[k] else d.confirmations[k].(seen := seen)
  {
    forall k | 0 <= k < |d.confirmations| && d.confirmations[k].user == u && !d.confirmations[k].deleted
      ensures FirstMatch(d.confirmations, u, true) == k
    {
      OnlyMatch(d, u, true, k);
    }
  }

  lemma SetSeenStatus(d: Document, u: UserId, seen: bool, v: UserId)
    requires Sound(d)
    ensures Sound(SetSeen(d, u, seen))
    ensures StatusOf(SetSeen(d, u, seen), v) ==
            if v == u && StatusOf(d, u).Delivered? then Delivered(seen) else StatusOf(d, v)
    ensures FirstMatch(d.confirmations, u, true) < |d.confirmations| <==> StatusOf(d, u).Delivered?
    ensures OnlyOwn(d, SetSeen(d, u, seen), u)
    ensures forall k :: 0 <= k < |d.confirmations| && d.confirmations[k].user == u ==>
              SetSeen(d, u, seen).confirmations[k] ==
              if d.confirmations[k].deleted then d.confirmations[k] else d.confirmations[k].(seen := seen)
  {
    SetSeenOwn(d, u, seen);
    var i := FirstMatch(d.confirmations, u, true);
    if i < |d.confirmations| {
      OnlyMatch(d, u, false, i);
      FirstMatchUpdate(d.confirmations, i, d.confirmations[i].(seen := seen), v);
    }
  }

  lemma MarkDeletedStatus(d: Document, u: UserId, v: UserId)
    requires Sound(d)
    ensures Sound(MarkDeleted(d, u))
    ensures StatusOf(MarkDeleted(d, u), v) ==
            if v == u && !StatusOf(d, u).Undelivered? then Deleted else StatusOf(d, v)
    ensures MarkDeleted(d, u) != d <==> StatusOf(d, u).Delivered?
    ensures OnlyOwn(d, MarkDeleted(d, u), u)
    ensures forall k :: 0 <= k < |d.confirmations| && d.confirmations[k].user == u ==>
              MarkDeleted(d, u).confirmations[k] == d.confirmations[k].(deleted := true)
  {
    forall k | 0 <= k < |d.confirmations| && d.confirmations[k].user == u
      ensures FirstMatch(d.confirmations, u, false) == k
    {
      OnlyMatch(d, u, false, k);
    }
    var i := FirstMatch(d.confirmations, u, false);
    if i < |d.confirmations| {
      FirstMatchUpdate(d.confirmations, i, d.confirmations[i].(deleted := true), v);
      if !d.confirmations[i].deleted {
        assert d.confirmations[i := d.confirmations[i].(deleted := true)][i].deleted;
      } else {
        assert d.confirmations[i := d.confirmations[i].(deleted := true)] == d.confirmations;
      }
    }
  }

  /** Exactly when each operation of the repository reports success, in terms of the pair's status. */
  lemma SuccessExactly(s: Store, id: Id, u: UserId, now: Time, seen: bool)
    requires StoreSound(s)
    ensures InsertConfirmation(s, id, u, now).1 <==>
              && id in s && (u in s[id].userIds || s[id].userIds == [])
              && (s[id].invalidateAt.None? || s[id].invalidateAt.value > now) && StatusOf(s[id], u).Undelivered?
    ensures UpdateSeen(s, id, u, seen).1 <==> id in s && StatusOf(s[id], u).Delivered?
    ensures Delete(s, id, u).1 <==> id in s && StatusOf(s[id], u).Delivered?
    ensures id in FindUndelivered(s, u, now) <==>
              && id in s && (u in s[id].userIds || s[id].userIds == [])
              && (s[id].invalidateAt.None? || s[id].invalidateAt.value > now) && StatusOf(s[id], u).Undelivered?
  {
    if id in s {
      ConfirmStatus(s[id], u, now, u);
      SetSeenStatus(s[id], u, seen, u);
      MarkDeletedStatus(s[id], u, u);
    }
  }

  // ----- steps

  /** The pair an event may touch. */
  predicate Touches(w: World, e: Event, id: Id, u: UserId) {
    match e
    case Confirms(i, v, _) => i == id && v == u
    case SetsSeen(i, v, _) => i == id && v == u
    case Deletes(i, v) => i == id && v == u
    case FetchInserts(f, i) => f in w.fetches && i == id && w.fetches[f].user == u
    case _ => false
  }

  /** A step forward: to delivered and unseen, between seen and unseen, or to deleted. */
  predicate Forward(before: Status, after: Status) {
    || after == before
    || (before.Undelivered? && after == Delivered(false))
    || (before.Delivered? && !after.Undelivered?)
  }

  /** Each step moves the status of the pair it is about forward, leaves every other pair alone, and
      never removes a notification or changes its recipients. */
  lemma StepStatus(w: World, e: Event, id: Id, u: UserId)
    requires StoreSound(w.store) && Enabled(w, e) && id in w.store
    ensures id in Apply(w, e).store
    ensures Apply(w, e).store[id].userIds == w.store[id].userIds
    ensures Forward(StatusOf(w.store[id], u), StatusOf(Apply(w, e).store[id], u))
    ensures !Touches(w, e, id, u) ==> StatusOf(Apply(w, e).store[id], u) == StatusOf(w.store[id], u)
    ensures var cs, cs' := w.store[id].confirmations, Apply(w, e).store[id].confirmations;
            !Touches(w, e, id, u) ==>
              forall k :: 0 <= k < |cs| && cs[k].user == u ==> k < |cs'| && cs'[k] == cs[k]
  {
    StepKeepsConfirmations(w, e, id);
    match e
    case Confirms(i, v, now) => if i == id { ConfirmStatus(w.store[id], v, now, u); }
    case FetchInserts(f, i) => if i == id { ConfirmStatus(w.store[id], w.fetches[f].user, w.fetches[f].phase.now, u); }
    case SetsSeen(i, v, seen) => if i == id { SetSeenStatus(w.store[id], v, seen, u); }
    case Deletes(i, v) => if i == id { MarkDeletedStatus(w.store[id], v, u); }
    case _ =>
  }

  /** What a step makes of the status of each pair: confirming an undelivered pair of an addressed and
      unexpired notification delivers it, marking sets the flag of a delivered one, deleting deletes a
      delivered one, and nothing else changes a status. */
  lemma StepStatusExactly(w: World, e: Event, id: Id, u: UserId)
    requires StoreSound(w.store) && Enabled(w, e) && id in w.store
    ensures id in Apply(w, e).store
    ensures var d, before := w.store[id], StatusOf(w.store[id], u);
            StatusOf(Apply(w, e).store[id], u) ==
            match e
            case Confirms(i, v, now) => if i == id && v == u then ConfirmedStatus(d, u, now) else before
            case FetchInserts(f, i) =>
              if i == id && w.fetches[f].user == u then ConfirmedStatus(d, u, w.fetches[f].phase.now) else before
            case SetsSeen(i, v, seen) => if i == id && v == u && before.Delivered? then Delivered(seen) else before
            case Deletes(i, v) => if i == id && v == u && before.Delivered? then Deleted else before
            case _ => before
  {
    match e
    case Confirms(i, v, now) => if i == id { ConfirmStatus(w.store[id], v, now, u); }
    case FetchInserts(f, i) => if i == id { ConfirmStatus(w.store[id], w.fetches[f].user, w.fetches[f].phase.now, u); }
    case SetsSeen(i, v, seen) => if i == id { SetSeenStatus(w.store[id], v, seen, u); }
    case Deletes(i, v) => if i == id { MarkDeletedStatus(w.store[id], v, u); }
    case _ =>
  }

  function ConfirmedStatus(d: Document, u: UserId, now: Time): Status {
    var unexpired := d.invalidateAt.None? || d.invalidateAt.value > now;
    if StatusOf(d, u).Undelivered? && (u in d.userIds || d.userIds == []) && unexpired then Delivered(false)
    else StatusOf(d, u)
  }

  lemma ReplacedSound(s: Store, id: Id, d: Document)
    requires StoreSound(s) && id in s && Sound(d)
    requires d.producer == s[id].producer && d.producerNotification == s[id].producerNotification
    ensures StoreSound(s[id := d])
  {
  }

  lemma InsertedSound(s: Store, id: Id, d: Document)
    requires StoreSound(s) && id !in s
    ensures StoreSound(Insert(s, id, d).0)
  {
  }

  lemma ConfirmedSound(s: Store, id: Id, u: UserId, now: Time)
    requires StoreSound(s)
    ensures StoreSound(InsertConfirmation(s, id, u, now).0)
  {
    if id in s {
      ConfirmStatus(s[id], u, now, u);
      ReplacedSound(s, id, Confirm(s[id], u, now));
    }
  }

  lemma InvalidatedSound(s: Store, id: Id, producer: ProducerId, at: Option<Time>)
    requires StoreSound(s)
    ensures StoreSound(UpdateInvalidateAt(s, id, producer, at).0)
  {
    if id in s && s[id].producer == producer {
      ReplacedSound(s, id, s[id].(invalidateAt := at));
    }
  }

  lemma SeenSound(s: Store, id: Id, u: UserId, seen: bool)
    requires StoreSound(s)
    ensures StoreSound(UpdateSeen(s, id, u, seen).0)
  {
    if id in s {
      SetSeenStatus(s[id], u, seen, u);
      ReplacedSound(s, id, SetSeen(s[id], u, seen));
    }
  }

  lemma DeletedSound(s: Store, id: Id, u: UserId)
    requires StoreSound(s)
    ensures StoreSound(Delete(s, id, u).0)
  {
    if id in s {
      MarkDeletedStatus(s[id], u, u);
      ReplacedSound(s, id, MarkDeleted(s[id], u));
    }
  }

  /** Same user and delivery time; a deleted confirmation stays deleted. */
  predicate SameDelivery(c: Confirmation, c': Confirmation) {
    c'.user == c.user && c'.deliveredAt == c.deliveredAt && (c.deleted ==> c'.deleted)
  }

  /** Every confirmation is where it was, for the same delivery; new ones only come behind. */
  ghost predicate KeepsDeliveries(d: Document, d': Document) {
    && |d.confirmations| <= |d'.confirmations|
    && forall k :: 0 <= k < |d.confirmations| ==> SameDelivery(d.confirmations[k], d'.confirmations[k])
  }

  ghost predicate KeepsOthers(d: Document, d': Document, u: UserId) {
    && KeepsDeliveries(d, d') && d' == d.(confirmations := d'.confirmations)
    && forall k :: 0 <= k < |d.confirmations| && d.confirmations[k].user != u ==>
         d'.confirmations[k] == d.confirmations[k]
  }

  lemma UpdatesKeepOthers(d: Document, u: UserId, now: Time, seen: bool)
    requires Sound(d)
    ensures KeepsOthers(d, Confirm(d, u, now), u)
    ensures KeepsOthers(d, SetSeen(d, u, seen), u)
    ensures KeepsOthers(d, MarkDeleted(d, u), u)
  {
    SetSeenOwn(d, u, seen);
  }

  /** Each step keeps every confirmation of a notification at its index, with its user and its delivery
      time, and outright equal unless the step is about that user; new ones only come behind. Content,
      producer and creation time never change, and the expiry becomes what its producer changes it to. */
  lemma StepKeepsConfirmations(w: World, e: Event, id: Id)
    requires StoreSound(w.store) && Enabled(w, e) && id in w.store
    ensures id in Apply(w, e).store
    ensures var d, d' := w.store[id], Apply(w, e).store[id];
            && d' == d.(confirmations := d'.confirmations, invalidateAt := d'.invalidateAt)
            && d'.invalidateAt == (if e.ChangesInvalidateAt? && e.changed == id && e.producer == d.producer
                                   then e.at else d.invalidateAt)
            && KeepsDeliveries(d, d')
    ensures var d, d' := w.store[id], Apply(w, e).store[id];
            forall k :: 0 <= k < |d.confirmations| && !Touches(w, e, id, d.confirmations[k].user) ==>
              d'.confirmations[k] == d.confirmations[k]
  {
    match e
    case Confirms(i, v, now) => if i == id { UpdatesKeepOthers(w.store[id], v, now, false); }
    case FetchInserts(f, i) => if i == id { UpdatesKeepOthers(w.store[id], w.fetches[f].user, w.fetches[f].phase.now, false); }
    case SetsSeen(i, v, seen) => if i == id { UpdatesKeepOthers(w.store[id], v, 0, seen); }
    case Deletes(i, v) => if i == id { UpdatesKeepOthers(w.store[id], v, 0, false); }
    case _ =>
  }

  lemma StepSound(w: World, e: Event)
    requires StoreSound(w.store) && Enabled(w, e)
    ensures StoreSound(Apply(w, e).store)
  {
    match e
    case Saves(id, d) => InsertedSound(w.store, id, d);
    case ChangesInvalidateAt(id, p, at) => InvalidatedSound(w.store, id, p, at);
    case Confirms(i, v, now) => ConfirmedSound(w.store, i, v, now);
    case FetchInserts(f, i) => ConfirmedSound(w.store, i, w.fetches[f].user, w.fetches[f].phase.now);
    case SetsSeen(i, v, seen) => SeenSound(w.store, i, v, seen);
    case Deletes(i, v) => DeletedSound(w.store, i, v);
    case _ =>
  }

  // ----- outgoing events

  ghost predicate Genuine(s: Store, o: Outgoing) {
    match o
    case NewEvent(id, _, _, _, _) => id in s && o == Announcement(id, s[id])
    case UpdatedEvent(id, u, _) => id in s && !StatusOf(s[id], u).Undelivered?
    case DeletedEvent(id, u) => id in s && StatusOf(s[id], u).Deleted?
  }

  predicate OnceOnly(o: Outgoing) {
    o.NewEvent? || o.DeletedEvent?
  }

  ghost predicate EventsInv(w: World) {
    && (forall o :: o in w.sending || o in w.sent ==> Genuine(w.store, o))
    && (forall o :: OnceOnly(o) ==> multiset(w.sending)[o] + multiset(w.sent)[o] <= 1)
  }

  lemma GenuineStays(w: World, e: Event, o: Outgoing)
    requires StoreSound(w.store) && Enabled(w, e) && Genuine(w.store, o)
    ensures Genuine(Apply(w, e).store, o)
  {
    match o
    case NewEvent(id, _, _, _, _) => StepKeepsConfirmations(w, e, id);
    case UpdatedEvent(id, u, _) => StepStatus(w, e, id, u);
    case DeletedEvent(id, u) => StepStatus(w, e, id, u);
  }

  /** A new event is genuine, and if it may come once only, it has not come before. */
  lemma NewEventOk(w: World, e: Event, o: Outgoing)
    requires StoreSound(w.store) && EventsInv(w) && Enabled(w, e)
    requires Apply(w, e).sending == w.sending + [o] && !e.Sends?
    ensures Genuine(Apply(w, e).store, o)
    ensures OnceOnly(o) ==> o !in w.sending && o !in w.sent
  {
    assert |w.sending + [o]| == |w.sending| + 1;
    assert (w.sending + [o])[|w.sending|] == o;
    match e
    case Saves(id, d) =>
      assert o == Announcement(id, d);
      assert forall p :: Genuine(w.store, p) && p.NewEvent? ==> p.id != id;
    case SetsSeen(id, u, seen) =>
      assert o == UpdatedEvent(id, u, seen);
      SetSeenStatus(w.store[id], u, seen, u);
    case Deletes(id, u) =>
      assert o == DeletedEvent(id, u);
      MarkDeletedStatus(w.store[id], u, u);
    case _ => assert false;
  }

  /** Each step sends one event that was waiting, or queues one, or does neither. */
  lemma EventQueues(w: World, e: Event)
    requires Enabled(w, e)
    ensures e.Sends? ==>
              && Apply(w, e).sending == w.sending[..e.index] + w.sending[e.index + 1..]
              && Apply(w, e).sent == w.sent + [w.sending[e.index]]
    ensures !e.Sends? ==>
              && Apply(w, e).sent == w.sent
              && (Apply(w, e).sending == w.sending || exists o :: Apply(w, e).sending == w.sending + [o])
  {
  }

  lemma SentInv(w: World, w': World, i: nat)
    requires EventsInv(w) && i < |w.sending|
    requires w'.sending == w.sending[..i] + w.sending[i + 1..] && w'.sent == w.sent + [w.sending[i]]
    requires forall o :: Genuine(w.store, o) ==> Genuine(w'.store, o)
    ensures EventsInv(w')
  {
    assert w.sending == w.sending[..i] + [w.sending[i]] + w.sending[i + 1..];
    assert multiset(w.sending) + multiset(w.sent) == multiset(w'.sending) + multiset(w'.sent);
    forall o | o in w'.sending || o in w'.sent
      ensures o in w.sending || o in w.sent
    {
      assert o in multiset(w'.sending) + multiset(w'.sent);
    }
    forall o | OnceOnly(o)
      ensures multiset(w'.sending)[o] + multiset(w'.sent)[o] <= 1
    {
      assert (multiset(w'.sending) + multiset(w'.sent))[o] == (multiset(w.sending) + multiset(w.sent))[o];
    }
  }

  lemma QueuedInv(w: World, w': World, o: Outgoing)
    requires EventsInv(w) && w'.sending == w.sending + [o] && w'.sent == w.sent
    requires Genuine(w'.store, o) && (OnceOnly(o) ==> o !in w.sending && o !in w.sent)
    requires forall x :: Genuine(w.store, x) ==> Genuine(w'.store, x)
    ensures EventsInv(w')
  {
  }

  lemma EventsStep(w: World, e: Event)
    requires StoreSound(w.store) && EventsInv(w) && Enabled(w, e)
    ensures EventsInv(Apply(w, e))
  {
    var w' := Apply(w, e);
    EventQueues(w, e);
    forall o: Outgoing | Genuine(w.store, o)
      ensures Genuine(w'.store, o)
    {
      GenuineStays(w, e, o);
    }
    if e.Sends? {
      SentInv(w, w', e.index);
    } else if w'.sending != w.sending {
      var o :| w'.sending == w.sending + [o];
      NewEventOk(w, e, o);
      QueuedInv(w, w', o);
    }
  }

  predicate Queued(w: World, o: Outgoing) {
    o in w.sending || o in w.sent
  }

  /** Nothing the store says goes unannounced. */
  ghost predicate AllAnnounced(w: World) {
    && (forall id :: id in w.store ==> Queued(w, Announcement(id, w.store[id])))
    && (forall id, u :: id in w.store && StatusOf(w.store[id], u).Deleted? ==> Queued(w, DeletedEvent(id, u)))
  }

  lemma QueuedStays(w: World, e: Event, o: Outgoing)
    requires Enabled(w, e) && Queued(w, o)
    ensures Queued(Apply(w, e), o)
  {
    EventQueues(w, e);
    if e.Sends? && o in w.sending && o != w.sending[e.index] {
      assert w.sending == w.sending[..e.index] + [w.sending[e.index]] + w.sending[e.index + 1..];
    }
  }

  lemma AnnouncedStep(w: World, e: Event)
    requires StoreSound(w.store) && AllAnnounced(w) && Enabled(w, e)
    ensures AllAnnounced(Apply(w, e))
  {
    var w' := Apply(w, e);
    forall id | id in w'.store
      ensures Queued(w', Announcement(id, w'.store[id]))
    {
      if id in w.store {
        StepKeepsConfirmations(w, e, id);
        QueuedStays(w, e, Announcement(id, w.store[id]));
      }
    }
    forall id, u | id in w'.store && StatusOf(w'.store[id], u).Deleted?
      ensures Queued(w', DeletedEvent(id, u))
    {
      DeletionAnnounced(w, e, id, u);
    }
  }

  lemma DeletionAnnounced(w: World, e: Event, id: Id, u: UserId)
    requires StoreSound(w.store) && AllAnnounced(w) && Enabled(w, e)
    requires id in Apply(w, e).store && StatusOf(Apply(w, e).store[id], u).Deleted?
    ensures Queued(Apply(w, e), DeletedEvent(id, u))
  {
    if id in w.store {
      if StatusOf(w.store[id], u).Deleted? {
        QueuedStays(w, e, DeletedEvent(id, u));
      } else {
        DeletedByDelete(w, e, id, u);
      }
    }
  }

  /** Only a delete that reports success makes a pair deleted. */
  lemma DeletedByDelete(w: World, e: Event, id: Id, u: UserId)
    requires StoreSound(w.store) && Enabled(w, e) && id in w.store
    requires !StatusOf(w.store[id], u).Deleted? && StatusOf(Apply(w, e).store[id], u).Deleted?
    ensures e == Deletes(id, u) && Delete(w.store, id, u).1
  {
    match e
    case Confirms(i, v, now) => if i == id { ConfirmStatus(w.store[id], v, now, u); }
    case FetchInserts(f, i) => if i == id { ConfirmStatus(w.store[id], w.fetches[f].user, w.fetches[f].phase.now, u); }
    case SetsSeen(i, v, seen) => if i == id { SetSeenStatus(w.store[id], v, seen, u); }
    case Deletes(i, v) => if i == id { MarkDeletedStatus(w.store[id], v, u); }
    case _ =>
  }

  // ----- fetches

  /** What the cursor has passed is found unless it had expired, is confirmed, or is not for the user. */
  ghost predicate CursorOk(s: Store, f: Fetch) {
    && f.unseen <= f.stored
    && (forall id :: id in f.stored ==> id in s)
    && (forall id :: id in f.stored && id !in f.unseen ==>
          id in f.found || id in f.lapsed || !Addressed(s[id], f.user) || !StatusOf(s[id], f.user).Undelivered?)
    && (forall id :: id in f.lapsed ==> f.lapsed[id] <= f.openedAt)
    && (!f.phase.Finding? ==> f.unseen == {})
  }

  /** What a fetch has dealt with is confirmed for its user, or was expired when the insert met it. */
  ghost predicate FetchOk(s: Store, f: Fetch) {
    && f.todo <= f.found
    && (forall id :: id in f.found ==> id in s)
    && (forall id :: id in f.found && id !in f.todo ==> !StatusOf(s[id], f.user).Undelivered? || id in f.expired)
    && (forall id :: id in f.found ==> Addressed(s[id], f.user))
    && (forall id :: id in f.expired ==> f.expired[id] <= f.insertedAt)
    && (f.phase.Inserting? ==> f.insertedAt == f.phase.now)
    && (f.phase.Returned? ==> f.todo == {})
    && (f.phase.Finding? || f.phase.Found? ==> f.todo == f.found && f.expired == map[])
    && CursorOk(s, f)
  }

  ghost predicate FetchesInv(w: World) {
    forall f :: f in w.fetches ==> FetchOk(w.store, w.fetches[f])
  }

  /** A fetch stays right whatever step runs in between. */
  lemma FetchUndisturbed(w: World, e: Event, f: Fetch)
    requires StoreSound(w.store) && Enabled(w, e) && FetchOk(w.store, f)
    ensures FetchOk(Apply(w, e).store, f)
  {
    CursorUndisturbed(w, e, f);
    forall id | id in f.found
      ensures id in Apply(w, e).store
      ensures Addressed(Apply(w, e).store[id], f.user)
      ensures !StatusOf(w.store[id], f.user).Undelivered? ==> !StatusOf(Apply(w, e).store[id], f.user).Undelivered?
    {
      StepStatus(w, e, id, f.user);
    }
  }

  lemma CursorUndisturbed(w: World, e: Event, f: Fetch)
    requires StoreSound(w.store) && Enabled(w, e) && CursorOk(w.store, f)
    ensures CursorOk(Apply(w, e).store, f)
  {
    forall id | id in f.stored
      ensures id in Apply(w, e).store
      ensures Addressed(Apply(w, e).store[id], f.user) <==> Addressed(w.store[id], f.user)
      ensures !StatusOf(w.store[id], f.user).Undelivered? ==> !StatusOf(Apply(w, e).store[id], f.user).Undelivered?
    {
      StepStatus(w, e, id, f.user);
    }
  }

  lemma LookOk(s: Store, f: Fetch, id: Id)
    requires StoreSound(s) && FetchOk(s, f) && f.phase.Finding? && id in s
    ensures FetchOk(s, LookStep(f, id, s[id]))
  {
    LookCursorOk(s, f, id);
  }

  lemma LookCursorOk(s: Store, f: Fetch, id: Id)
    requires CursorOk(s, f) && f.phase.Finding? && id in s
    ensures CursorOk(s, LookStep(f, id, s[id]))
  {
    assert Confirmed(s[id], f.user) <==> !StatusOf(s[id], f.user).Undelivered?;
  }

  lemma InsertOk(w: World, f: nat, id: Id)
    requires StoreSound(w.store) && f in w.fetches && FetchOk(w.store, w.fetches[f])
    requires w.fetches[f].phase.Inserting? && id in w.fetches[f].todo
    ensures FetchOk(InsertStep(w, f, id).store, InsertStep(w, f, id).fetches[f])
  {
    FetchUndisturbed(w, FetchInserts(f, id), w.fetches[f]);
    ConfirmStatus(w.store[id], w.fetches[f].user, w.fetches[f].phase.now, w.fetches[f].user);
  }

  /** The fetch a step belongs to, if it is one of a fetch in progress. */
  function FetchOf(e: Event): Option<nat> {
    match e
    case FetchLooksAt(f, _) => Some(f)
    case FetchFinds(f) => Some(f)
    case FetchStartsInsert(f, _) => Some(f)
    case FetchInserts(f, _) => Some(f)
    case FetchReturns(f) => Some(f)
    case _ => None
  }

  lemma OwnFetchStep(w: World, e: Event)
    requires StoreSound(w.store) && FetchesInv(w) && Enabled(w, e) && FetchOf(e).Some?
    ensures var f := FetchOf(e).value; f in w.fetches && FetchOk(Apply(w, e).store, Apply(w, e).fetches[f])
  {
    assert FetchOk(w.store, w.fetches[FetchOf(e).value]);
    match e
    case FetchLooksAt(f, id) => LookOk(w.store, w.fetches[f], id);
    case FetchInserts(f, id) => InsertOk(w, f, id);
    case _ =>
  }

  lemma OtherFetchesStay(w: World, e: Event, f: nat)
    requires Enabled(w, e) && f in Apply(w, e).fetches && FetchOf(e) != Some(f)
    ensures if f in w.fetches then Apply(w, e).fetches[f] == w.fetches[f]
            else e.FetchOpens? && FetchOk(Apply(w, e).store, Apply(w, e).fetches[f])
  {
  }

  lemma FetchesStep(w: World, e: Event)
    requires StoreSound(w.store) && FetchesInv(w) && Enabled(w, e)
    ensures FetchesInv(Apply(w, e))
  {
    var w' := Apply(w, e);
    forall f | f in w'.fetches
      ensures FetchOk(w'.store, w'.fetches[f])
    {
      if FetchOf(e) == Some(f) {
        OwnFetchStep(w, e);
      } else {
        OtherFetchesStay(w, e, f);
        if f in w.fetches {
          FetchUndisturbed(w, e, w.fetches[f]);
        }
      }
    }
  }

  // ----- runs

  ghost predicate Inv(w: World) {
    StoreSound(w.store) && EventsInv(w) && AllAnnounced(w) && FetchesInv(w)
  }

  lemma {:induction false} RunInv(ws: seq<World>, es: seq<Event>, n: nat)
    requires Run(ws, es) && n < |ws|
    ensures Inv(ws[n])
  {
    if n > 0 {
      RunInv(ws, es, n - 1);
      StepSound(ws[n - 1], es[n - 1]);
      EventsStep(ws[n - 1], es[n - 1]);
      AnnouncedStep(ws[n - 1], es[n - 1]);
      FetchesStep(ws[n - 1], es[n - 1]);
    }
  }

  /** On every run there is at most one confirmation of a notification by a user, held by a recipient. */
  lemma OneConfirmation(ws: seq<World>, es: seq<Event>, n: nat, id: Id)
    requires Run(ws, es) && n < |ws| && id in ws[n].store
    ensures var cs := ws[n].store[id].confirmations;
            && (forall i, j :: 0 <= i < |cs| && 0 <= j < |cs| && cs[i].user == cs[j].user ==> i == j)
            && (forall c :: c in cs ==> Addressed(ws[n].store[id], c.user))
  {
    RunInv(ws, es, n);
    assert Sound(ws[n].store[id]);
  }

  function Rank(s: Status): nat {
    match s
    case Undelivered => 0
    case Delivered(_) => 1
    case Deleted => 2
  }

  /** Between any two moments of a run a pair never moves back. */
  lemma {:induction false} NeverMovesBack(ws: seq<World>, es: seq<Event>, m: nat, n: nat, id: Id, u: UserId)
    requires Run(ws, es) && m <= n < |ws| && id in ws[m].store
    ensures id in ws[n].store
    ensures Rank(StatusOf(ws[m].store[id], u)) <= Rank(StatusOf(ws[n].store[id], u))
    ensures StatusOf(ws[m].store[id], u).Deleted? ==> StatusOf(ws[n].store[id], u).Deleted?
  {
    if m < n {
      NeverMovesBack(ws, es, m, n - 1, id, u);
      RunInv(ws, es, n - 1);
      StepStatus(ws[n - 1], es[n - 1], id, u);
    }
  }

  lemma RunKeepsConfirmations(ws: seq<World>, es: seq<Event>, n: nat, id: Id, k: nat)
    requires Run(ws, es) && n < |es| && id in ws[n].store && k < |ws[n].store[id].confirmations|
    ensures id in ws[n + 1].store && k < |ws[n + 1].store[id].confirmations|
    ensures var c, c' := ws[n].store[id].confirmations[k], ws[n + 1].store[id].confirmations[k];
            SameDelivery(c, c') && (Touches(ws[n], es[n], id, c.user) || c' == c)
  {
    assert StoreSound(ws[n].store) by {
      RunInv(ws, es, n);
    }
    StepKeepsConfirmations(ws[n], es[n], id);
  }

  /** No step of that stretch of the run is about the pair. */
  ghost predicate Untouched(ws: seq<World>, es: seq<Event>, m: nat, n: nat, id: Id, u: UserId)
    requires m <= n <= |es| < |ws|
  {
    forall i :: m <= i < n ==> !Touches(ws[i], es[i], id, u)
  }

  /** Over any stretch of a run confirmation `k` of a notification keeps its index, user and delivery
      time, however often it is replayed, and is untouched if no step was about its user. */
  lemma {:induction false} ConfirmationsPersist(ws: seq<World>, es: seq<Event>, m: nat, n: nat, id: Id, k: nat)
    requires Run(ws, es) && m <= n < |ws| && id in ws[m].store && k < |ws[m].store[id].confirmations|
    ensures id in ws[n].store && k < |ws[n].store[id].confirmations|
    ensures SameDelivery(ws[m].store[id].confirmations[k], ws[n].store[id].confirmations[k])
    ensures Untouched(ws, es, m, n, id, ws[m].store[id].confirmations[k].user) ==>
              ws[n].store[id].confirmations[k] == ws[m].store[id].confirmations[k]
  {
    if m < n {
      ConfirmationsPersist(ws, es, m, n - 1, id, k);
      RunKeepsConfirmations(ws, es, n - 1, id, k);
    }
  }

  /** Deleting succeeds at most once for a pair, however deletes interleave. */
  lemma DeleteSucceedsOnce(ws: seq<World>, es: seq<Event>, m: nat, n: nat, id: Id, u: UserId)
    requires Run(ws, es) && m < n < |es| && es[m] == Deletes(id, u) == es[n]
    requires Delete(ws[m].store, id, u).1
    ensures !Delete(ws[n].store, id, u).1
  {
    RunInv(ws, es, m);
    RunInv(ws, es, n);
    MarkDeletedStatus(ws[m].store[id], u, u);
    assert id in ws[m + 1].store && StatusOf(ws[m + 1].store[id], u).Deleted?;
    NeverMovesBack(ws, es, m + 1, n, id, u);
    MarkDeletedStatus(ws[n].store[id], u, u);
  }

  /** At most one DELETED event is ever published for a pair and at most one NEW event for a
      notification, each only after the store says so. */
  lemma EventsOnce(ws: seq<World>, es: seq<Event>, n: nat, i: nat, j: nat)
    requires Run(ws, es) && n < |ws| && i < j < |ws[n].sent| && OnceOnly(ws[n].sent[i])
    ensures ws[n].sent[i] != ws[n].sent[j]
    ensures Genuine(ws[n].store, ws[n].sent[i])
  {
    RunInv(ws, es, n);
    if ws[n].sent[i] == ws[n].sent[j] {
      TwoOccurrences(ws[n].sent, i, j);
    }
    assert ws[n].sent[i] in ws[n].sent;
  }

  lemma TwoOccurrences(s: seq<Outgoing>, i: nat, j: nat)
    requires i < j < |s| && s[i] == s[j]
    ensures multiset(s)[s[i]] >= 2
  {
    assert s == s[..i] + [s[i]] + s[i + 1..j] + [s[j]] + s[j + 1..];
  }

  /** How often an event was handed over to be sent. */
  function Announced(w: World, o: Outgoing): nat {
    multiset(w.sending)[o] + multiset(w.sent)[o]
  }

  /** On every run each stored notification is announced exactly once, to the users and with the content
      it is stored with, and a deletion exactly once for each pair that is deleted, and for no other. */
  lemma EventsExactly(ws: seq<World>, es: seq<Event>, n: nat, id: Id, u: UserId)
    requires Run(ws, es) && n < |ws|
    ensures id in ws[n].store ==> Announced(ws[n], Announcement(id, ws[n].store[id])) == 1
    ensures forall o: Outgoing :: o.NewEvent? && o.id == id && Announced(ws[n], o) > 0 ==>
              id in ws[n].store && o == Announcement(id, ws[n].store[id])
    ensures Announced(ws[n], DeletedEvent(id, u)) ==
            if id in ws[n].store && StatusOf(ws[n].store[id], u).Deleted? then 1 else 0
  {
    RunInv(ws, es, n);
    var w := ws[n];
    assert forall o :: Queued(w, o) <==> Announced(w, o) > 0;
    assert forall o :: Announced(w, o) > 0 ==> Genuine(w.store, o);
    if id in w.store {
      assert OnceOnly(Announcement(id, w.store[id])) && Queued(w, Announcement(id, w.store[id]));
    }
    assert OnceOnly(DeletedEvent(id, u));
  }

  /** The successful calls of `update_notification_seen` so far with these arguments. */
  function SeenChanges(ws: seq<World>, es: seq<Event>, n: nat, id: Id, u: UserId, seen: bool): nat
    requires n <= |es| < |ws|
  {
    if n == 0 then 0
    else
      SeenChanges(ws, es, n - 1, id, u, seen)
      + if es[n - 1] == SetsSeen(id, u, seen) && id in ws[n - 1].store && StatusOf(ws[n - 1].store[id], u).Delivered? then 1 else 0
  }

  lemma SetsSeenAnnounces(w: World, i: Id, v: UserId, flag: bool)
    requires StoreSound(w.store)
    ensures Apply(w, SetsSeen(i, v, flag)).sent == w.sent
    ensures Apply(w, SetsSeen(i, v, flag)).sending ==
            if i in w.store && StatusOf(w.store[i], v).Delivered? then w.sending + [UpdatedEvent(i, v, flag)] else w.sending
  {
    if i in w.store {
      SetSeenStatus(w.store[i], v, flag, v);
    }
  }

  lemma OthersAnnounceNoChange(w: World, e: Event, o: Outgoing)
    requires Enabled(w, e) && !e.SetsSeen? && !e.Sends? && o.UpdatedEvent?
    ensures Announced(Apply(w, e), o) == Announced(w, o)
  {
  }

  lemma SeenAnnouncedStep(w: World, e: Event, id: Id, u: UserId, seen: bool)
    requires StoreSound(w.store) && Enabled(w, e)
    ensures Announced(Apply(w, e), UpdatedEvent(id, u, seen)) == Announced(w, UpdatedEvent(id, u, seen))
            + if e == SetsSeen(id, u, seen) && id in w.store && StatusOf(w.store[id], u).Delivered? then 1 else 0
  {
    var o := UpdatedEvent(id, u, seen);
    match e
    case SetsSeen(i, v, flag) => SetsSeenAnnounces(w, i, v, flag);
    case Sends(i) => SentKeepsAnnounced(w, Apply(w, e), i, o);
    case _ => OthersAnnounceNoChange(w, e, o);
  }

  lemma SentKeepsAnnounced(w: World, w': World, i: nat, o: Outgoing)
    requires i < |w.sending| && w'.sending == w.sending[..i] + w.sending[i + 1..] && w'.sent == w.sent + [w.sending[i]]
    ensures Announced(w', o) == Announced(w, o)
  {
    assert w.sending == w.sending[..i] + [w.sending[i]] + w.sending[i + 1..];
  }

  /** Each change of the seen flag that met a delivered pair is announced once, and nothing else is. */
  lemma {:induction false} SeenChangesAnnounced(ws: seq<World>, es: seq<Event>, n: nat, id: Id, u: UserId, seen: bool)
    requires Run(ws, es) && n < |ws|
    ensures Announced(ws[n], UpdatedEvent(id, u, seen)) == SeenChanges(ws, es, n, id, u, seen)
  {
    if n > 0 {
      SeenChangesAnnounced(ws, es, n - 1, id, u, seen);
      assert StoreSound(ws[n - 1].store) by {
        RunInv(ws, es, n - 1);
      }
      SeenAnnouncedStep(ws[n - 1], es[n - 1], id, u, seen);
    }
  }

  // ----- what is stored is what was saved

  /** An insert succeeds exactly if the producer has not used that number, stores the document as given
      and without confirmations, and changes no other document. */
  lemma InsertExactly(s: Store, id: Id, d: Document)
    ensures Insert(s, id, d).1 <==>
              forall x :: x in s ==> s[x].producer != d.producer || s[x].producerNotification != d.producerNotification
    ensures Insert(s, id, d).0 ==
            if Insert(s, id, d).1
            then s[id := Document(d.userIds, d.createdAt, d.invalidateAt, d.producer, d.producerNotification, d.content, [])]
            else s
  {
    assert Insert(s, id, d).1 <==> !ProducerPairTaken(s, d.producer, d.producerNotification);
  }

  /** The document was saved with these recipients, content, producer and creation time at step `k`. */
  ghost predicate SavedAt(es: seq<Event>, k: nat, id: Id, d: Document)
    requires k < |es|
  {
    && es[k].Saves? && es[k].newId == id
    && d.userIds == es[k].document.userIds && d.content == es[k].document.content
    && d.createdAt == es[k].document.createdAt && d.producer == es[k].document.producer
    && d.producerNotification == es[k].document.producerNotification
  }

  lemma StoredBySave(w: World, e: Event, id: Id)
    requires Enabled(w, e) && id in Apply(w, e).store && id !in w.store
    ensures e.Saves? && e.newId == id && Apply(w, e).store[id] == e.document.(confirmations := [])
  {
  }

  /** It was made at step `k`, and has the expiry its producer set last. */
  ghost predicate MadeAt(ws: seq<World>, es: seq<Event>, k: nat, n: nat, id: Id)
    requires n <= |es| < |ws|
  {
    && k < n && id !in ws[k].store && id in ws[k + 1].store && id in ws[n].store
    && SavedAt(es, k, id, ws[n].store[id])
    && ws[n].store[id].invalidateAt == LastExpiry(es, k, n, id)
  }

  lemma StillAsSaved(ws: seq<World>, es: seq<Event>, k: nat, n: nat, id: Id)
    requires Run(ws, es) && n < |es| && MadeAt(ws, es, k, n, id)
    ensures MadeAt(ws, es, k, n + 1, id)
  {
    assert StoreSound(ws[n].store) by {
      RunInv(ws, es, n);
    }
    StepKeepsConfirmations(ws[n], es[n], id);
  }

  /** On every run a stored notification has the recipients, content, producer and creation time of the
      save that made it, and the expiry its producer set last. */
  lemma {:induction false} StoredAsSaved(ws: seq<World>, es: seq<Event>, n: nat, id: Id)
    requires Run(ws, es) && n < |ws| && id in ws[n].store
    ensures exists k :: MadeAt(ws, es, k, n, id)
  {
    if id in ws[n - 1].store {
      StoredAsSaved(ws, es, n - 1, id);
      var k :| MadeAt(ws, es, k, n - 1, id);
      StillAsSaved(ws, es, k, n - 1, id);
    } else {
      StoredBySave(ws[n - 1], es[n - 1], id);
      assert MadeAt(ws, es, n - 1, n, id);
    }
  }

  /** The expiry given with the save at step `k`, or the last one its producer changed it to since. */
  ghost function LastExpiry(es: seq<Event>, k: nat, n: nat, id: Id): Option<Time>
    requires k < n <= |es| && es[k].Saves?
  {
    if n == k + 1 then es[k].document.invalidateAt
    else if es[n - 1].ChangesInvalidateAt? && es[n - 1].changed == id && es[n - 1].producer == es[k].document.producer
    then es[n - 1].at
    else LastExpiry(es, k, n - 1, id)
  }

  /** So whatever a fetch finds for a user was saved for that user, or for everyone. */
  lemma FoundWasMeantForUser(ws: seq<World>, es: seq<Event>, n: nat, f: nat, id: Id)
    requires Run(ws, es) && n < |ws| && f in ws[n].fetches && id in ws[n].fetches[f].found
    ensures exists k :: && 0 <= k < n && es[k].Saves? && es[k].newId == id && id in ws[k + 1].store
                        && (ws[n].fetches[f].user in es[k].document.userIds || es[k].document.userIds == [])
  {
    assert FetchOk(ws[n].store, ws[n].fetches[f]) by {
      RunInv(ws, es, n);
    }
    StoredAsSaved(ws, es, n, id);
    var k :| MadeAt(ws, es, k, n, id);
  }

  /** When a fetch returns, everything it returns is confirmed for its user or had expired by the time
      the insert ran, whatever else ran in between. */
  lemma FetchMarksAll(ws: seq<World>, es: seq<Event>, n: nat, f: nat, id: Id)
    requires Run(ws, es) && n < |ws| && f in ws[n].fetches
    requires ws[n].fetches[f].phase.Returned? && id in ws[n].fetches[f].found
    ensures var fetch := ws[n].fetches[f];
            && id in ws[n].store && Addressed(ws[n].store[id], fetch.user)
            && (|| !StatusOf(ws[n].store[id], fetch.user).Undelivered?
                || (id in fetch.expired && fetch.expired[id] <= fetch.insertedAt))
  {
    RunInv(ws, es, n);
    assert FetchOk(ws[n].store, ws[n].fetches[f]);
  }

  /** And a fetch misses nothing: of what was stored when its cursor was opened, whatever it did not
      find had expired by then, is not for its user, or is confirmed for the user already. */
  lemma FetchMissesNothing(ws: seq<World>, es: seq<Event>, n: nat, f: nat, id: Id)
    requires Run(ws, es) && n < |ws| && f in ws[n].fetches && !ws[n].fetches[f].phase.Finding?
    requires id in ws[n].fetches[f].stored && id !in ws[n].fetches[f].found
    ensures var fetch := ws[n].fetches[f];
            && id in ws[n].store
            && (|| (id in fetch.lapsed && fetch.lapsed[id] <= fetch.openedAt)
                || !Addressed(ws[n].store[id], fetch.user)
                || !StatusOf(ws[n].store[id], fetch.user).Undelivered?)
  {
    RunInv(ws, es, n);
    assert FetchOk(ws[n].store, ws[n].fetches[f]);
  }

  // ----- replayed confirmations

  datatype Replay = Replay(id: Id, user: UserId, at: Time)

  function ConfirmAll(s: Store, rs: seq<Replay>): Store
    decreases |rs|
  {
    if rs == [] then s else ConfirmAll(InsertConfirmation(s, rs[0].id, rs[0].user, rs[0].at).0, rs[1..])
  }

  predicate Eligible(s: Store, r: Replay) {
    r.id in s && Addressed(s[r.id], r.user) && Unexpired(s[r.id], r.at)
  }

  /** After any series of confirmations a pair is confirmed exactly if it was before or the series
      holds an eligible confirmation of it. */
  lemma {:induction false} ConfirmAllExactly(s: Store, rs: seq<Replay>, id: Id, u: UserId)
    requires StoreSound(s)
    ensures id in ConfirmAll(s, rs) <==> id in s
    ensures id in s ==>
              (Confirmed(ConfirmAll(s, rs)[id], u) <==>
               Confirmed(s[id], u) || exists r :: r in rs && r.id == id && r.user == u && Eligible(s, r))
    decreases |rs|
  {
    if rs != [] {
      var r := rs[0];
      var s' := InsertConfirmation(s, r.id, r.user, r.at).0;
      if r.id in s {
        ConfirmStatus(s[r.id], r.user, r.at, u);
      }
      ConfirmAllExactly(s', rs[1..], id, u);
      assert rs == [r] + rs[1..];
      assert forall q :: Eligible(s', q) <==> Eligible(s, q);
    }
  }

  /** So replaying, repeating or reordering confirmations does not change who counts as confirmed. */
  lemma ReplayOrderIrrelevant(s: Store, rs: seq<Replay>, qs: seq<Replay>, id: Id, u: UserId)
    requires StoreSound(s) && id in s
    requires forall r :: r in rs <==> r in qs
    ensures id in ConfirmAll(s, rs) && id in ConfirmAll(s, qs)
    ensures Confirmed(ConfirmAll(s, rs)[id], u) <==> Confirmed(ConfirmAll(s, qs)[id], u)
  {
    ConfirmAllExactly(s, rs, id, u);
    ConfirmAllExactly(s, qs, id, u);
  }
}
