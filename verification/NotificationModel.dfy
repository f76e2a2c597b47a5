/**
  The notification store and the service on top of it. Every Mongo update is atomic for one
  document; the service methods are several such steps, with anything in between.
 */
module NotificationModel {
  import opened Common

  type Id = nat
  type UserId = nat
  type ProducerId = nat
  type Time = int

  datatype Confirmation = Confirmation(user: UserId, deliveredAt: Time, seen: bool, deleted: bool)

  datatype Document = Document(
    userIds: seq<UserId>,          // empty: everyone
    createdAt: Time,
    invalidateAt: Option<Time>,
    producer: ProducerId,
    producerNotification: int,
    content: seq<Byte>,
    confirmations: seq<Confirmation>)

  type Store = map<Id, Document>

  // ----- query filters

  predicate Addressed(d: Document, u: UserId) {
    u in d.userIds || |d.userIds| == 0
  }

  predicate Unexpired(d: Document, now: Time) {
    d.invalidateAt.None? || d.invalidateAt.value > now
  }

  /** `$elemMatch` on the user, and on `notification_deleted: false` when only live ones are wanted. */
  predicate Matches(c: Confirmation, u: UserId, onlyLive: bool) {
    c.user == u && (onlyLive ==> !c.deleted)
  }

  /** The element the positional `$` stands for, or the length when nothing matches. */
  function FirstMatch(cs: seq<Confirmation>, u: UserId, onlyLive: bool): (i: nat)
    ensures i <= |cs|
    ensures i < |cs| ==> Matches(cs[i], u, onlyLive)
    ensures forall j :: 0 <= j < i ==> !Matches(cs[j], u, onlyLive)
  {
    if cs == [] || Matches(cs[0], u, onlyLive) then 0 else 1 + FirstMatch(cs[1..], u, onlyLive)
  }

  predicate Confirmed(d: Document, u: UserId) {
    FirstMatch(d.confirmations, u, false) < |d.confirmations|
  }

  predicate Confirmable(d: Document, u: UserId, now: Time) {
    Addressed(d, u) && Unexpired(d, now) && !Confirmed(d, u)
  }

  // ----- updates of one document

  function Confirm(d: Document, u: UserId, now: Time): Document {
    if Confirmable(d, u, now) then d.(confirmations := d.confirmations + [Confirmation(u, now, false, false)]) else d
  }

  function SetSeen(d: Document, u: UserId, seen: bool): Document {
    var i := FirstMatch(d.confirmations, u, true);
    if i < |d.confirmations| then d.(confirmations := d.confirmations[i := d.confirmations[i].(seen := seen)]) else d
  }

  function MarkDeleted(d: Document, u: UserId): Document {
    var i := FirstMatch(d.confirmations, u, false);
    if i < |d.confirmations| then d.(confirmations := d.confirmations[i := d.confirmations[i].(deleted := true)]) else d
  }

  // ----- the repository: each returns the new store and whether it reported success

  predicate ProducerPairTaken(s: Store, producer: ProducerId, number: int) {
    exists id :: id in s && s[id].producer == producer && s[id].producerNotification == number
  }

  function Insert(s: Store, id: Id, d: Document): (Store, bool) {
    if ProducerPairTaken(s, d.producer, d.producerNotification) then (s, false)
    else (s[id := d.(confirmations := [])], true)
  }

  function UpdateInvalidateAt(s: Store, id: Id, producer: ProducerId, at: Option<Time>): (Store, bool) {
    if id in s && s[id].producer == producer then (s[id := s[id].(invalidateAt := at)], true) else (s, false)
  }

  function InsertConfirmation(s: Store, id: Id, u: UserId, now: Time): (Store, bool) {
    if id in s then (s[id := Confirm(s[id], u, now)], Confirm(s[id], u, now) != s[id]) else (s, false)
  }

  /** Success is a matching document, changed or not. */
  function UpdateSeen(s: Store, id: Id, u: UserId, seen: bool): (Store, bool) {
    if id in s then
      (s[id := SetSeen(s[id], u, seen)], FirstMatch(s[id].confirmations, u, true) < |s[id].confirmations|)
    else (s, false)
  }

  /** Success is a changed document. */
  function Delete(s: Store, id: Id, u: UserId): (Store, bool) {
    if id in s then (s[id := MarkDeleted(s[id], u)], MarkDeleted(s[id], u) != s[id]) else (s, false)
  }

  function FindUndelivered(s: Store, u: UserId, now: Time): set<Id> {
    set id | id in s && Confirmable(s[id], u, now)
  }

  /** The filter of `find_many_delivered`: a live confirmation, with the given `seen` if one is asked for. */
  predicate MatchesDelivered(c: Confirmation, u: UserId, seen: Option<bool>) {
    Matches(c, u, true) && (seen.Some? ==> c.seen == seen.value)
  }

  function FindDelivered(s: Store, u: UserId, seen: Option<bool>): set<Id> {
    set id | id in s && exists i :: 0 <= i < |s[id].confirmations| && MatchesDelivered(s[id].confirmations[i], u, seen)
  }

  /** `update_many` over a list of ids, when nothing else runs meanwhile. */
  function InsertManyConfirmations(s: Store, ids: set<Id>, u: UserId, now: Time): Store {
    map id | id in s :: if id in ids then Confirm(s[id], u, now) else s[id]
  }

  // ----- the service

  /** What a method hands to the producer after its store update. */
  datatype Outgoing =
    | NewEvent(id: Id, userIds: seq<UserId>, createdAt: Time, producer: ProducerId, content: seq<Byte>)
    | UpdatedEvent(id: Id, user: UserId, seen: bool)
    | DeletedEvent(id: Id, user: UserId)

  /** `send_new` with what was inserted. */
  function Announcement(id: Id, d: Document): Outgoing {
    NewEvent(id, d.userIds, d.createdAt, d.producer, d.content)
  }

  datatype FetchPhase = Finding | Found | Inserting(now: Time) | Returned

  /** A fetch of undelivered notifications in progress: first its cursor looks at one document after
      the other, then the insert confirms one after the other. `stored` is what the collection held
      when the cursor was opened; `lapsed` and `expired` record the expiry the cursor and the insert
      met on documents they skipped for it. */
  datatype Fetch = Fetch(
    user: UserId,
    phase: FetchPhase,
    openedAt: Time,
    stored: set<Id>,
    unseen: set<Id>,
    lapsed: map<Id, Time>,
    found: set<Id>,
    todo: set<Id>,
    insertedAt: Time,
    expired: map<Id, Time>)

  datatype World = World(store: Store, sending: seq<Outgoing>, sent: seq<Outgoing>, fetches: map<nat, Fetch>)

  datatype Event =
    | Saves(newId: Id, document: Document)
    | ChangesInvalidateAt(changed: Id, producer: ProducerId, at: Option<Time>)
    | Confirms(confirmed: Id, confirmer: UserId, confirmedAt: Time)
    | SetsSeen(seenId: Id, seer: UserId, seen: bool)
    | Deletes(deleted: Id, deleter: UserId)
    | Sends(index: nat)
    | FetchOpens(opening: nat, fetcher: UserId, openAt: Time)
    | FetchLooksAt(looking: nat, lookedAt: Id)
    | FetchFinds(finding: nat)
    | FetchStartsInsert(starting: nat, insertAt: Time)
    | FetchInserts(inserting: nat, inserted: Id)
    | FetchReturns(returning: nat)

  predicate Enabled(w: World, e: Event) {
    match e
    case Saves(id, _) => id !in w.store   // ObjectIds are fresh
    case ChangesInvalidateAt(_, _, _) => true
    case Confirms(_, _, _) => true
    case SetsSeen(_, _, _) => true
    case Deletes(_, _) => true
    case Sends(i) => i < |w.sending|
    case FetchOpens(f, _, _) => f !in w.fetches
    // a cursor may meet documents stored after it was opened too
    case FetchLooksAt(f, id) => f in w.fetches && w.fetches[f].phase.Finding? && id in w.store
    case FetchFinds(f) => f in w.fetches && w.fetches[f].phase.Finding? && w.fetches[f].unseen == {}
    case FetchStartsInsert(f, _) => f in w.fetches && w.fetches[f].phase.Found? && w.fetches[f].found != {}
    case FetchInserts(f, id) => f in w.fetches && w.fetches[f].phase.Inserting? && id in w.fetches[f].todo
    case FetchReturns(f) =>
      f in w.fetches && ((w.fetches[f].phase.Found? && w.fetches[f].found == {})
                         || (w.fetches[f].phase.Inserting? && w.fetches[f].todo == {}))
  }

  /** A store update followed, on success only, by an event to send. */
  function Then(w: World, result: (Store, bool), o: Outgoing): World {
    w.(store := result.0, sending := if result.1 then w.sending + [o] else w.sending)
  }

  /** The cursor of a fetch meets a document. */
  function LookStep(fetch: Fetch, id: Id, d: Document): Fetch {
    var met := fetch.(unseen := fetch.unseen - {id});
    if Confirmable(d, fetch.user, fetch.openedAt) then met.(found := fetch.found + {id}, todo := fetch.found + {id})
    else if !Unexpired(d, fetch.openedAt) then met.(lapsed := fetch.lapsed[id := d.invalidateAt.value])
    else met
  }

  function InsertStep(w: World, f: nat, id: Id): World
    requires f in w.fetches && w.fetches[f].phase.Inserting?
  {
    var fetch := w.fetches[f];
    var now := fetch.phase.now;
    w.(store := InsertConfirmation(w.store, id, fetch.user, now).0,
       fetches := w.fetches[f := fetch.(
         todo := fetch.todo - {id},
         expired := if id in w.store && !Unexpired(w.store[id], now)
                    then fetch.expired[id := w.store[id].invalidateAt.value] else fetch.expired)])
  }

  function Apply(w: World, e: Event): World
    requires Enabled(w, e)
  {
    match e
    case Saves(id, d) => Then(w, Insert(w.store, id, d), Announcement(id, d))
    case ChangesInvalidateAt(id, p, at) => w.(store := UpdateInvalidateAt(w.store, id, p, at).0)
    case Confirms(id, u, now) => w.(store := InsertConfirmation(w.store, id, u, now).0)
    case SetsSeen(id, u, seen) => Then(w, UpdateSeen(w.store, id, u, seen), UpdatedEvent(id, u, seen))
    case Deletes(id, u) => Then(w, Delete(w.store, id, u), DeletedEvent(id, u))
    case Sends(i) => w.(sending := w.sending[..i] + w.sending[i + 1..], sent := w.sent + [w.sending[i]])
    case FetchOpens(f, u, now) =>
      w.(fetches := w.fetches[f := Fetch(u, Finding, now, w.store.Keys, w.store.Keys, map[], {}, {}, now, map[])])
    case FetchLooksAt(f, id) => w.(fetches := w.fetches[f := LookStep(w.fetches[f], id, w.store[id])])
    case FetchFinds(f) => w.(fetches := w.fetches[f := w.fetches[f].(phase := Found)])
    case FetchStartsInsert(f, now) =>
      w.(fetches := w.fetches[f := w.fetches[f].(phase := Inserting(now), insertedAt := now)])
    case FetchInserts(f, id) => InsertStep(w, f, id)
    case FetchReturns(f) => w.(fetches := w.fetches[f := w.fetches[f].(phase := Returned)])
  }

  const INITIAL := World(map[], [], [], map[])

  ghost predicate Run(ws: seq<World>, es: seq<Event>) {
    && |ws| == |es| + 1 && ws[0] == INITIAL
    && forall i :: 0 <= i < |es| ==> Enabled(ws[i], es[i]) && ws[i + 1] == Apply(ws[i], es[i])
  }
}
