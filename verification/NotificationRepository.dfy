/**
  The notifications repository in the source's form: stored documents changed in place, with the
  database's searches and updates written out as loops. Each method is proved to do what
  `NotificationModel` says.
 */
module NotificationRepository {
  import opened Common
  import opened NotificationModel
  import opened NotificationSafety

  datatype Error = InsertUniqueViolation | NoDocumentUpdated

  datatype Outcome = Done | Failed(error: Error)

  // ----- what a find returns

  /** The projection of a document: its own confirmation where one was matched, no other. */
  datatype Notification = Notification(
    id: Id,
    createdAt: Time,
    producer: ProducerId,
    content: seq<Byte>,
    confirmation: Option<Confirmation>)

  predicate Shows(n: Notification, s: Store, id: Id) {
    id in s && n == Notification(id, s[id].createdAt, s[id].producer, s[id].content, n.confirmation)
  }

  ghost predicate AllShown(found: seq<Notification>, s: Store, ids: seq<Id>) {
    |found| == |ids| && forall i :: 0 <= i < |ids| ==> Shows(found[i], s, ids[i])
  }

  predicate ShowsOwn(n: Notification, s: Store, u: UserId, seen: Option<bool>) {
    && n.confirmation.Some? && MatchesDelivered(n.confirmation.value, u, seen)
    && n.id in s && n.confirmation.value in s[n.id].confirmations
  }

  predicate Before(s: Store, a: Id, b: Id, newestFirst: bool) {
    a in s && b in s && if newestFirst then s[a].createdAt >= s[b].createdAt else s[a].createdAt <= s[b].createdAt
  }

  /** `order` holds each of `ids` once, sorted by time of creation. */
  ghost predicate Lists(s: Store, order: seq<Id>, ids: set<Id>, newestFirst: bool) {
    && (forall id :: id in order <==> id in ids)
    && ids <= s.Keys
    && (forall i, j :: 0 <= i < j < |order| ==> order[i] != order[j] && Before(s, order[i], order[j], newestFirst))
  }

  /** Page number and size as a client asks for them, both u32. */
  datatype Pagination = Pagination(pageIdx: nat, pageSize: nat)

  function Slice<T>(all: seq<T>, start: nat, size: nat): seq<T> {
    var rest := if start <= |all| then all[start..] else [];
    if size <= |rest| then rest[..size] else rest
  }

  /** `skip` and `limit`: the product wraps around as a u32, and limit 0 is no limit. */
  function Page<T>(all: seq<T>, p: Pagination): seq<T> {
    Slice(all, p.pageSize * p.pageIdx % U32_SIZE, if p.pageSize == 0 then |all| else p.pageSize)
  }

  class NotificationsRepository {
    var documents: Store

    /** One confirmation per user at most, for recipients only, and unique producer numbers. */
    ghost predicate Valid()
      reads this
    {
      StoreSound(documents)
    }

    constructor ()
      ensures Valid()
      ensures documents == map[]
    {
      documents := map[];
    }

    /** The unique index: looks for a document of the same producer and number. */
    method FindProducerPair(producer: ProducerId, number: int) returns (taken: bool)
      ensures taken <==> ProducerPairTaken(documents, producer, number)
    {
      var todo := documents.Keys;
      while todo != {}
        invariant todo <= documents.Keys
        invariant forall id :: id in documents && id !in todo ==>
                    documents[id].producer != producer || documents[id].producerNotification != number
        decreases todo
      {
        var id :| id in todo;
        if documents[id].producer == producer && documents[id].producerNotification == number {
          return true;
        }
        todo := todo - {id};
      }
      return false;
    }

    method Insert(id: Id, userIds: seq<UserId>, createdAt: Time, invalidateAt: Option<Time>,
                  producer: ProducerId, number: int, content: seq<Byte>)
      returns (outcome: Outcome)
      requires Valid() && id !in documents
      modifies this
      ensures Valid()
      ensures var d := Document(userIds, createdAt, invalidateAt, producer, number, content, []);
              && documents == NotificationModel.Insert(old(documents), id, d).0
              && outcome == if NotificationModel.Insert(old(documents), id, d).1 then Done else Failed(InsertUniqueViolation)
      ensures documents == if outcome.Done?
                           then old(documents)[id := Document(userIds, createdAt, invalidateAt, producer, number, content, [])]
                           else old(documents)
      ensures outcome.Done? <==>
                forall x :: x in old(documents) ==>
                  old(documents)[x].producer != producer || old(documents)[x].producerNotification != number
    {
      InsertedSound(documents, id, Document(userIds, createdAt, invalidateAt, producer, number, content, []));
      var taken := FindProducerPair(producer, number);
      if taken {
        return Failed(InsertUniqueViolation);
      }
      documents := documents[id := Document(userIds, createdAt, invalidateAt, producer, number, content, [])];
      return Done;
    }

    method UpdateInvalidateAt(id: Id, producer: ProducerId, at: Option<Time>) returns (outcome: Outcome)
      requires Valid()
      modifies this
      ensures Valid()
      ensures documents == NotificationModel.UpdateInvalidateAt(old(documents), id, producer, at).0
      ensures outcome.Done? <==> NotificationModel.UpdateInvalidateAt(old(documents), id, producer, at).1
      ensures outcome.Done? <==> id in old(documents) && old(documents)[id].producer == producer
      ensures documents == if outcome.Done? then old(documents)[id := old(documents)[id].(invalidateAt := at)]
                           else old(documents)
    {
      InvalidatedSound(documents, id, producer, at);
      if id in documents && documents[id].producer == producer {
        documents := documents[id := documents[id].(invalidateAt := at)];
        return Done;
      }
      return Failed(NoDocumentUpdated);
    }

    /** The element a positional update goes to. */
    method Position(id: Id, u: UserId, onlyLive: bool) returns (idx: Option<nat>)
      requires id in documents
      ensures var i := FirstMatch(documents[id].confirmations, u, onlyLive);
              idx == if i < |documents[id].confirmations| then Some(i) else None
    {
      var confirmations := documents[id].confirmations;
      for i := 0 to |confirmations|
        invariant forall j :: 0 <= j < i ==> !Matches(confirmations[j], u, onlyLive)
      {
        if Matches(confirmations[i], u, onlyLive) {
          return Some(i);
        }
      }
      return None;
    }

    method InsertConfirmation(id: Id, u: UserId, now: Time) returns (outcome: Outcome)
      requires Valid()
      modifies this
      ensures Valid()
      ensures documents == NotificationModel.InsertConfirmation(old(documents), id, u, now).0
      ensures outcome.Done? <==> NotificationModel.InsertConfirmation(old(documents), id, u, now).1
    {
      ConfirmedSound(documents, id, u, now);
      if id !in documents {
        return Failed(NoDocumentUpdated);
      }
      var d := documents[id];
      var existing := Position(id, u, false);
      var addressed := u in d.userIds || |d.userIds| == 0;
      var unexpired := d.invalidateAt.None? || d.invalidateAt.value > now;
      if addressed && unexpired && existing.None? {
        documents := documents[id := d.(confirmations := d.confirmations + [Confirmation(u, now, false, false)])];
        return Done;
      }
      assert documents[id := d] == documents;
      return Failed(NoDocumentUpdated);
    }

    /** `update_many`, one document after another. */
    method InsertManyConfirmations(ids: set<Id>, u: UserId, now: Time)
      requires Valid()
      modifies this
      ensures Valid()
      ensures documents == NotificationModel.InsertManyConfirmations(old(documents), ids, u, now)
    {
      var todo := ids;
      while todo != {}
        invariant Valid() && todo <= ids
        invariant documents == NotificationModel.InsertManyConfirmations(old(documents), ids - todo, u, now)
        decreases todo
      {
        var id :| id in todo;
        InsertManyStep(old(documents), ids - todo, id, u, now);
        var outcome := InsertConfirmation(id, u, now);
        assert ids - (todo - {id}) == ids - todo + {id};
        todo := todo - {id};
      }
      assert ids - {} == ids;
    }

    method UpdateConfirmationSeen(id: Id, u: UserId, seen: bool) returns (outcome: Outcome)
      requires Valid()
      modifies this
      ensures Valid()
      ensures documents == UpdateSeen(old(documents), id, u, seen).0
      ensures outcome.Done? <==> UpdateSeen(old(documents), id, u, seen).1
    {
      SeenSound(documents, id, u, seen);
      if id !in documents {
        return Failed(NoDocumentUpdated);
      }
      var d := documents[id];
      var idx := Position(id, u, true);
      if idx.None? {
        assert documents[id := d] == documents;
        return Failed(NoDocumentUpdated);
      }
      var c := d.confirmations[idx.value].(seen := seen);
      documents := documents[id := d.(confirmations := d.confirmations[idx.value := c])];
      return Done;
    }

    method Delete(id: Id, u: UserId) returns (outcome: Outcome)
      requires Valid()
      modifies this
      ensures Valid()
      ensures documents == NotificationModel.Delete(old(documents), id, u).0
      ensures outcome.Done? <==> NotificationModel.Delete(old(documents), id, u).1
    {
      DeletedSound(documents, id, u);
      if id !in documents {
        return Failed(NoDocumentUpdated);
      }
      var d := documents[id];
      var idx := Position(id, u, false);
      if idx.None? {
        assert documents[id := d] == documents;
        return Failed(NoDocumentUpdated);
      }
      var before := d.confirmations[idx.value];
      documents := documents[id := d.(confirmations := d.confirmations[idx.value := before.(deleted := true)])];
      if before.deleted {
        assert d.confirmations[idx.value := before.(deleted := true)] == d.confirmations;
        return Failed(NoDocumentUpdated);
      }
      assert documents[id].confirmations[idx.value] != d.confirmations[idx.value];
      return Done;
    }

    /** A delivered notification is shown with the user's own confirmation, never anyone else's. */
    method FindDelivered(id: Id, u: UserId) returns (found: Option<Notification>)
      ensures found.Some? <==> id in documents && FirstMatch(documents[id].confirmations, u, true) < |documents[id].confirmations|
      ensures found.Some? ==> Shows(found.value, documents, id) && ShowsOwn(found.value, documents, u, None)
    {
      if id !in documents {
        return None;
      }
      var idx := Position(id, u, true);
      if idx.None? {
        return None;
      }
      var d := documents[id];
      return Some(Notification(id, d.createdAt, d.producer, d.content, Some(d.confirmations[idx.value])));
    }

    /** The element that `$elemMatch` of `find_many_delivered` picks. */
    method PositionDelivered(id: Id, u: UserId, seen: Option<bool>) returns (idx: Option<nat>)
      requires id in documents
      ensures idx.Some? ==> idx.value < |documents[id].confirmations|
                            && MatchesDelivered(documents[id].confirmations[idx.value], u, seen)
      ensures idx.None? ==> forall i :: 0 <= i < |documents[id].confirmations| ==>
                !MatchesDelivered(documents[id].confirmations[i], u, seen)
    {
      for i := 0 to |documents[id].confirmations|
        invariant forall j :: 0 <= j < i ==> !MatchesDelivered(documents[id].confirmations[j], u, seen)
      {
        if MatchesDelivered(documents[id].confirmations[i], u, seen) {
          return Some(i);
        }
      }
      return None;
    }

    /** Puts a document in its place; of equal times either may come first. */
    method Place(order: seq<Id>, id: Id, newestFirst: bool) returns (placed: seq<Id>)
      requires Lists(documents, order, (set x | x in order), newestFirst) && id in documents && id !in order
      ensures Lists(documents, placed, (set x | x in order) + {id}, newestFirst)
    {
      var i := 0;
      while i < |order| && Before(documents, order[i], id, newestFirst)
        invariant i <= |order|
        invariant forall j :: 0 <= j < i ==> Before(documents, order[j], id, newestFirst)
      {
        i := i + 1;
      }
      placed := order[..i] + [id] + order[i..];
      assert order == order[..i] + order[i..];
    }

    /** One page of the delivered notifications, newest first. */
    method FindManyDelivered(u: UserId, page: Pagination, seen: Option<bool>) returns (found: seq<Notification>)
      ensures exists order :: && Lists(documents, order, NotificationModel.FindDelivered(documents, u, seen), true)
                              && AllShown(found, documents, Page(order, page))
      ensures forall n :: n in found ==> ShowsOwn(n, documents, u, seen)
      ensures forall i, j :: 0 <= i < j < |found| ==> found[i].id != found[j].id && found[i].createdAt >= found[j].createdAt
    {
      var ids: seq<Id> := [];
      var todo := documents.Keys;
      while todo != {}
        invariant todo <= documents.Keys
        invariant Lists(documents, ids, (set x | x in ids), true)
        invariant forall x :: x in ids <==> x in NotificationModel.FindDelivered(documents, u, seen) && x !in todo
        decreases todo
      {
        var id :| id in todo;
        var idx := PositionDelivered(id, u, seen);
        if idx.Some? {
          ids := Place(ids, id, true);
        }
        todo := todo - {id};
      }
      ghost var order := ids;
      ids := Page(ids, page);
      found := [];
      for i := 0 to |ids|
        invariant |found| == i
        invariant forall j :: 0 <= j < i ==> Shows(found[j], documents, ids[j])
        invariant forall n :: n in found ==> ShowsOwn(n, documents, u, seen)
      {
        assert ids[i] in order && ids[i] in NotificationModel.FindDelivered(documents, u, seen);
        var d := documents[ids[i]];
        var idx := PositionDelivered(ids[i], u, seen);
        found := found + [Notification(ids[i], d.createdAt, d.producer, d.content, Some(d.confirmations[idx.value]))];
      }
    }

    /** All undelivered notifications, oldest first, without any confirmation. */
    method FindManyUndelivered(u: UserId, now: Time) returns (found: seq<Notification>)
      ensures exists order :: && Lists(documents, order, FindUndelivered(documents, u, now), false)
                              && AllShown(found, documents, order)
      ensures forall n :: n in found ==> n.confirmation.None?
      ensures forall i, j :: 0 <= i < j < |found| ==> found[i].id != found[j].id && found[i].createdAt <= found[j].createdAt
    {
      var ids: seq<Id> := [];
      var todo := documents.Keys;
      while todo != {}
        invariant todo <= documents.Keys
        invariant Lists(documents, ids, (set x | x in ids), false)
        invariant forall x :: x in ids <==> x in FindUndelivered(documents, u, now) && x !in todo
        decreases todo
      {
        var id :| id in todo;
        var existing := Position(id, u, false);
        var d := documents[id];
        if (u in d.userIds || |d.userIds| == 0) && (d.invalidateAt.None? || d.invalidateAt.value > now) && existing.None? {
          ids := Place(ids, id, false);
        }
        todo := todo - {id};
      }
      assert Lists(documents, ids, FindUndelivered(documents, u, now), false);
      found := [];
      for i := 0 to |ids|
        invariant |found| == i
        invariant forall j :: 0 <= j < i ==> Shows(found[j], documents, ids[j])
        invariant forall n :: n in found ==> n.confirmation.None?
      {
        assert ids[i] in FindUndelivered(documents, u, now);
        var d := documents[ids[i]];
        found := found + [Notification(ids[i], d.createdAt, d.producer, d.content, None)];
      }
      assert AllShown(found, documents, ids);
    }
  }

  // ----- pages

  /** A page is the part of the list its number stands for exactly when the product fits into a u32 or
      wraps around to beyond the end of the list; a page of size 0 is the whole list. */
  lemma PageAsNumberedExactly<T(!new)>(all: seq<T>, p: Pagination)
    requires forall i, j :: 0 <= i < j < |all| ==> all[i] != all[j]
    ensures p.pageSize > 0 ==>
              (Page(all, p) == Slice(all, p.pageSize * p.pageIdx, p.pageSize) <==>
               p.pageSize * p.pageIdx < U32_SIZE || |all| <= p.pageSize * p.pageIdx % U32_SIZE)
    ensures p.pageSize == 0 ==> Page(all, p) == all
  {
    var start := p.pageSize * p.pageIdx;
    if p.pageSize > 0 && start >= U32_SIZE && start % U32_SIZE < |all| {
      assert Page(all, p)[0] == all[start % U32_SIZE];
      if start < |all| {
        assert Slice(all, start, p.pageSize)[0] == all[start];
      }
    }
  }

  /** Pages laid end to end. */
  function Pages<T>(all: seq<T>, size: nat, count: nat): seq<T> {
    if count == 0 then [] else Pages(all, size, count - 1) + Page(all, Pagination(count - 1, size))
  }

  lemma SliceAppend<T>(all: seq<T>, start: nat, size: nat)
    ensures Slice(all, 0, start) + Slice(all, start, size) == Slice(all, 0, start + size)
  {
  }

  lemma PageThatFits<T>(all: seq<T>, size: nat, idx: nat)
    requires size > 0 && size * idx < U32_SIZE
    ensures Slice(all, 0, size * idx) + Page(all, Pagination(idx, size)) == Slice(all, 0, size * (idx + 1))
  {
    SliceAppend(all, size * idx, size);
    assert size * idx + size == size * (idx + 1);
  }

  /** Reading pages in order gives the list without gap or repetition, while the product fits. */
  lemma {:induction false} PagesMakeList<T>(all: seq<T>, size: nat, count: nat)
    requires size > 0 && forall k: nat :: k < count ==> size * k < U32_SIZE
    ensures Pages(all, size, count) == Slice(all, 0, size * count)
  {
    if count > 0 {
      PagesMakeList(all, size, count - 1);
      PageThatFits(all, size, count - 1);
    }
  }

  lemma InsertManyStep(s: Store, done: set<Id>, id: Id, u: UserId, now: Time)
    requires id !in done
    ensures NotificationModel.InsertConfirmation(NotificationModel.InsertManyConfirmations(s, done, u, now), id, u, now).0
         == NotificationModel.InsertManyConfirmations(s, done + {id}, u, now)
  {
  }

  /** What a user may fetch: a recipient sees an unexpired notification as undelivered, then as
      delivered, in the list of its seen flag, until deleting it, and never as two of these at once. */
  lemma ShownOnce(s: Store, id: Id, u: UserId, now: Time, seen: Option<bool>)
    requires StoreSound(s) && id in s
    ensures id in FindUndelivered(s, u, now) <==>
              Addressed(s[id], u) && Unexpired(s[id], now) && StatusOf(s[id], u).Undelivered?
    ensures id in NotificationModel.FindDelivered(s, u, seen) <==>
              StatusOf(s[id], u).Delivered? && (seen.Some? ==> StatusOf(s[id], u).seen == seen.value)
  {
    var d := s[id];
    if i :| 0 <= i < |d.confirmations| && MatchesDelivered(d.confirmations[i], u, seen) {
      OnlyMatch(d, u, false, i);
    }
    if StatusOf(d, u).Delivered? {
      assert d.confirmations[FirstMatch(d.confirmations, u, false)].user == u;
    }
  }
}
