/**
  Single-use tickets: `consume_ticket` reads the ticket, checks it, and then updates it only if it is
  still unused. Any number of such calls run interleaved.
 */
module Tickets {
  import opened Common

  type Id = nat
  type UserId = nat
  type Time = int

  datatype Ticket = Ticket(ticket: string, user: UserId, issuedAt: Time, expireAt: Time, usedAt: Option<Time>)

  type Store = map<Id, Ticket>

  datatype Error = InsertUniqueViolation | NoDocumentUpdated | TicketNotExist | TicketAlreadyUsed | TicketExpired

  // ----- the repository

  predicate TicketTaken(s: Store, ticket: string) {
    exists id :: id in s && s[id].ticket == ticket
  }

  predicate Unused(s: Store, id: Id) {
    id in s && s[id].usedAt.None?
  }

  /** The compare-and-set of `update_used_at`. */
  function UseTicket(s: Store, id: Id, at: Time): Store {
    if Unused(s, id) then s[id := s[id].(usedAt := Some(at))] else s
  }

  /** The checks between the read and the update. */
  function Check(t: Ticket, now: Time): Option<Error> {
    if t.usedAt.Some? then Some(TicketAlreadyUsed)
    else if t.expireAt < now then Some(TicketExpired)
    else None
  }

  class TicketsRepository {
    var tickets: Store

    /** The unique index. */
    ghost predicate Valid()
      reads this
    {
      forall a, b :: a in tickets && b in tickets && tickets[a].ticket == tickets[b].ticket ==> a == b
    }

    constructor ()
      ensures Valid()
      ensures tickets == map[]
    {
      tickets := map[];
    }

    method Insert(id: Id, ticket: string, user: UserId, issuedAt: Time, expireAt: Time) returns (r: Result<Id, Error>)
      requires Valid() && id !in tickets
      modifies this
      ensures Valid()
      ensures TicketTaken(old(tickets), ticket) ==> r == Failure(InsertUniqueViolation) && tickets == old(tickets)
      ensures !TicketTaken(old(tickets), ticket) ==>
                r == Success(id) && tickets == old(tickets)[id := Ticket(ticket, user, issuedAt, expireAt, None)]
    {
      var existing := Find(ticket);
      if existing.Some? {
        return Failure(InsertUniqueViolation);
      }
      tickets := tickets[id := Ticket(ticket, user, issuedAt, expireAt, None)];
      return Success(id);
    }

    method Find(ticket: string) returns (found: Option<Id>)
      ensures found.Some? <==> TicketTaken(tickets, ticket)
      ensures found.Some? ==> found.value in tickets && tickets[found.value].ticket == ticket
    {
      var todo := tickets.Keys;
      while todo != {}
        invariant todo <= tickets.Keys
        invariant forall id :: id in tickets && id !in todo ==> tickets[id].ticket != ticket
        decreases todo
      {
        var id :| id in todo;
        if tickets[id].ticket == ticket {
          return Some(id);
        }
        todo := todo - {id};
      }
      return None;
    }

    method UpdateUsedAt(id: Id, at: Time) returns (r: Result<(), Error>)
      requires Valid()
      modifies this
      ensures Valid()
      ensures tickets == UseTicket(old(tickets), id, at)
      ensures r == if Unused(old(tickets), id) then Success(()) else Failure(NoDocumentUpdated)
    {
      if id in tickets && tickets[id].usedAt.None? {
        tickets := tickets[id := tickets[id].(usedAt := Some(at))];
        return Success(());
      }
      return Failure(NoDocumentUpdated);
    }

    /** The whole of `consume_ticket` when nothing else runs meanwhile. */
    method ConsumeTicket(ticket: string, now: Time) returns (r: Result<Ticket, Error>)
      requires Valid()
      modifies this
      ensures Valid()
      ensures !TicketTaken(old(tickets), ticket) ==> r == Failure(TicketNotExist) && tickets == old(tickets)
      ensures forall id :: id in old(tickets) && old(tickets)[id].ticket == ticket ==>
                if old(tickets)[id].usedAt.Some? then r == Failure(TicketAlreadyUsed) && tickets == old(tickets)
                else if now > old(tickets)[id].expireAt then r == Failure(TicketExpired) && tickets == old(tickets)
                else
                  && r == Success(old(tickets)[id].(usedAt := Some(now)))
                  && tickets == old(tickets)[id := r.value]
    {
      var found := Find(ticket);
      if found.None? {
        return Failure(TicketNotExist);
      }
      var read := tickets[found.value];
      if read.usedAt.Some? {
        return Failure(TicketAlreadyUsed);
      }
      if read.expireAt < now {
        return Failure(TicketExpired);
      }
      var updated := UpdateUsedAt(found.value, now);
      match updated
      case Success(_) => return Success(read.(usedAt := Some(now)));
      case Failure(_) => return Failure(TicketAlreadyUsed);
    }
  }

  // ----- interleaved calls

  /** A call of `consume_ticket` that has read its ticket, or has ended. */
  datatype Call = HasRead(id: Id, read: Ticket) | Checked(id: Id, read: Ticket, now: Time) | Finished(id: Id, result: Result<Ticket, Error>)

  datatype World = World(store: Store, calls: map<nat, Call>)

  datatype Event =
    | Creates(id: Id, ticket: string, user: UserId, issuedAt: Time, expireAt: Time)
    | Reads(reader: nat, readId: Id)
    | Checks(checker: nat, now: Time)
    | Updates(updater: nat)

  predicate Enabled(w: World, e: Event) {
    match e
    case Creates(id, t, _, _, _) => id !in w.store && !TicketTaken(w.store, t)
    case Reads(c, id) => c !in w.calls && id in w.store
    case Checks(c, _) => c in w.calls && w.calls[c].HasRead?
    case Updates(c) => c in w.calls && w.calls[c].Checked?
  }

  function Apply(w: World, e: Event): World
    requires Enabled(w, e)
  {
    match e
    case Creates(id, t, u, issued, expire) => w.(store := w.store[id := Ticket(t, u, issued, expire, None)])
    case Reads(c, id) => w.(calls := w.calls[c := HasRead(id, w.store[id])])
    case Checks(c, now) =>
      var call := w.calls[c];
      w.(calls := w.calls[c :=
        match Check(call.read, now)
        case Some(error) => Finished(call.id, Failure(error))
        case None => Checked(call.id, call.read, now)])
    case Updates(c) =>
      var call := w.calls[c];
      World(UseTicket(w.store, call.id, call.now),
            w.calls[c := Finished(call.id,
              if Unused(w.store, call.id) then Success(call.read.(usedAt := Some(call.now))) else Failure(TicketAlreadyUsed))])
  }

  ghost predicate Run(ws: seq<World>, es: seq<Event>) {
    && |ws| == |es| + 1 && ws[0] == World(map[], map[])
    && forall i :: 0 <= i < |es| ==> Enabled(ws[i], es[i]) && ws[i + 1] == Apply(ws[i], es[i])
  }

  /** A call that succeeded is the one whose time the store holds. */
  ghost predicate CallOk(s: Store, call: Call) {
    && call.id in s
    && match call
       case HasRead(id, read) => read.(usedAt := s[id].usedAt) == s[id] && (read.usedAt.Some? ==> s[id] == read)
       case Checked(id, read, now) => read.(usedAt := s[id].usedAt) == s[id] && read.usedAt.None? && now <= read.expireAt
       case Finished(id, Success(t)) => s[id] == t && t.usedAt.Some? && t.usedAt.value <= t.expireAt
       case Finished(id, Failure(e)) => true
  }

  predicate Succeeded(call: Call) {
    call.Finished? && call.result.Success?
  }

  ghost predicate Inv(w: World) {
    && (forall c :: c in w.calls ==> CallOk(w.store, w.calls[c]))
    && (forall c, d :: c in w.calls && d in w.calls && c != d && Succeeded(w.calls[c]) && Succeeded(w.calls[d])
          ==> w.calls[c].id != w.calls[d].id)
    && (forall id :: id in w.store && w.store[id].usedAt.Some? ==> Winner(w, id))
  }

  /** A used ticket was used by a call that succeeded. */
  ghost predicate Winner(w: World, id: Id) {
    exists c :: c in w.calls && Succeeded(w.calls[c]) && w.calls[c].id == id
  }

  lemma WinnersStay(w: World, e: Event, id: Id)
    requires Enabled(w, e) && Winner(w, id)
    ensures Winner(Apply(w, e), id)
  {
    var c :| c in w.calls && Succeeded(w.calls[c]) && w.calls[c].id == id;
    assert Apply(w, e).calls[c] == w.calls[c];
  }

  /** The update either loses to an earlier one or makes its call the only winner. */
  lemma UpdateInv(w: World, c: nat)
    requires Inv(w) && Enabled(w, Updates(c))
    ensures Inv(Apply(w, Updates(c)))
  {
    var w' := Apply(w, Updates(c));
    var id := w.calls[c].id;
    assert CallOk(w.store, w.calls[c]);
    forall x | x in w'.store && w'.store[x].usedAt.Some?
      ensures Winner(w', x)
    {
      if w.store[x].usedAt.Some? {
        WinnersStay(w, Updates(c), x);
      } else {
        assert Succeeded(w'.calls[c]);
      }
    }
    assert forall d :: d in w.calls && d != c ==> CallOk(w.store, w.calls[d]);
  }

  lemma StepInv(w: World, e: Event)
    requires Inv(w) && Enabled(w, e)
    ensures Inv(Apply(w, e))
  {
    if e.Updates? {
      UpdateInv(w, e.updater);
    } else {
      forall id | id in w.store && w.store[id].usedAt.Some?
        ensures Winner(Apply(w, e), id)
      {
        WinnersStay(w, e, id);
      }
    }
  }

  lemma {:induction false} RunInv(ws: seq<World>, es: seq<Event>, n: nat)
    requires Run(ws, es) && n < |ws|
    ensures Inv(ws[n])
  {
    if n > 0 {
      RunInv(ws, es, n - 1);
      StepInv(ws[n - 1], es[n - 1]);
    }
  }

  /** However many calls interleave, at most one succeeds for a ticket; it gets the ticket as stored,
      used not after its expiry, and a used ticket had such a call. */
  lemma ConsumedOnce(ws: seq<World>, es: seq<Event>, n: nat)
    requires Run(ws, es) && n < |ws|
    ensures forall c, d ::
              (&& c in ws[n].calls && d in ws[n].calls && Succeeded(ws[n].calls[c]) && Succeeded(ws[n].calls[d])
               && ws[n].calls[c].id == ws[n].calls[d].id)
              ==> c == d
    ensures forall c :: c in ws[n].calls && Succeeded(ws[n].calls[c]) ==>
              && ws[n].calls[c].id in ws[n].store
              && ws[n].calls[c].result.value == ws[n].store[ws[n].calls[c].id]
              && ws[n].calls[c].result.value.usedAt.Some?
              && ws[n].calls[c].result.value.usedAt.value <= ws[n].calls[c].result.value.expireAt
    ensures forall id :: id in ws[n].store && ws[n].store[id].usedAt.Some? ==> Winner(ws[n], id)
  {
    RunInv(ws, es, n);
  }

  lemma {:induction false} CallReads(ws: seq<World>, es: seq<Event>, a: nat, n: nat, c: nat, id: Id)
    requires Run(ws, es) && a < n < |ws| && es[a] == Reads(c, id)
    ensures c in ws[n].calls && ws[n].calls[c].id == id && id in ws[a].store
    ensures !ws[n].calls[c].Finished? ==> ws[n].calls[c].read == ws[a].store[id]
    decreases n
  {
    if a + 1 < n {
      CallReads(ws, es, a, n - 1, c, id);
    }
    assert Enabled(ws[n - 1], es[n - 1]);
  }

  lemma {:induction false} CheckedCallKeeps(ws: seq<World>, es: seq<Event>, b: nat, n: nat, c: nat)
    requires Run(ws, es) && b <= n < |ws| && c in ws[b].calls && !ws[b].calls[c].HasRead?
    ensures c in ws[n].calls && (ws[n].calls[c] == ws[b].calls[c] || ws[n].calls[c].Finished?)
    decreases n
  {
    if b < n {
      CheckedCallKeeps(ws, es, b, n - 1, c);
      assert Enabled(ws[n - 1], es[n - 1]);
    }
  }

  /** What the checks make of a call: by the ticket it read, not as it may be by then. */
  lemma ChecksExactly(ws: seq<World>, es: seq<Event>, a: nat, b: nat, c: nat, id: Id, now: Time)
    requires Run(ws, es) && a < b < |es| && es[a] == Reads(c, id) && es[b] == Checks(c, now)
    ensures id in ws[a].store && c in ws[b + 1].calls
    ensures ws[b + 1].calls[c] ==
            if ws[a].store[id].usedAt.Some? then Finished(id, Failure(TicketAlreadyUsed))
            else if now > ws[a].store[id].expireAt then Finished(id, Failure(TicketExpired))
            else Checked(id, ws[a].store[id], now)
  {
    CallReads(ws, es, a, b, c, id);
    assert Enabled(ws[b], es[b]);
  }

  /** No other call updates the ticket in that stretch of the run. */
  ghost predicate Uncontested(ws: seq<World>, es: seq<Event>, a: nat, n: nat, id: Id)
    requires n <= |es| < |ws|
  {
    forall i :: a <= i < n && es[i].Updates? && es[i].updater in ws[i].calls ==> ws[i].calls[es[i].updater].id != id
  }

  lemma {:induction false} UsedExactlyIfContested(ws: seq<World>, es: seq<Event>, a: nat, n: nat, id: Id)
    requires Run(ws, es) && a <= n < |ws| && id in ws[a].store && ws[a].store[id].usedAt.None?
    ensures id in ws[n].store && (ws[n].store[id].usedAt.None? <==> Uncontested(ws, es, a, n, id))
    ensures Uncontested(ws, es, a, n, id) ==> ws[n].store[id] == ws[a].store[id]
    decreases n
  {
    if a < n {
      UsedExactlyIfContested(ws, es, a, n - 1, id);
      assert Enabled(ws[n - 1], es[n - 1]);
    }
  }

  /** And what the update makes of it: a call that passed its checks succeeds, using the ticket at the
      time it checked, if and only if no other call updated the ticket since it was read. */
  lemma UpdateExactly(ws: seq<World>, es: seq<Event>, a: nat, b: nat, d: nat, c: nat, id: Id, now: Time)
    requires Run(ws, es) && a < b < d < |es|
    requires es[a] == Reads(c, id) && es[b] == Checks(c, now) && es[d] == Updates(c)
    ensures id in ws[a].store && id in ws[d].store && c in ws[d + 1].calls
    ensures ws[a].store[id].usedAt.None? && now <= ws[a].store[id].expireAt
    ensures var used := ws[a].store[id].(usedAt := Some(now));
            if Uncontested(ws, es, a, d, id)
            then ws[d + 1].calls[c] == Finished(id, Success(used)) && ws[d + 1].store == ws[d].store[id := used]
            else ws[d + 1].calls[c] == Finished(id, Failure(TicketAlreadyUsed)) && ws[d + 1].store == ws[d].store
  {
    ChecksExactly(ws, es, a, b, c, id, now);
    CheckedCallKeeps(ws, es, b + 1, d, c);
    assert Enabled(ws[d], es[d]);
    UsedExactlyIfContested(ws, es, a, d, id);
  }

  /** Every ticket has the text, user and times it was created with. */
  lemma {:induction false} StoredAsCreated(ws: seq<World>, es: seq<Event>, n: nat, id: Id)
    requires Run(ws, es) && n < |ws| && id in ws[n].store
    ensures var t := ws[n].store[id];
            exists k :: 0 <= k < n && es[k] == Creates(id, t.ticket, t.user, t.issuedAt, t.expireAt)
  {
    var w, e := ws[n - 1], es[n - 1];
    assert Enabled(w, e);
    if id in w.store {
      StoredAsCreated(ws, es, n - 1, id);
      assert ws[n].store[id] == w.store[id].(usedAt := ws[n].store[id].usedAt);
    }
  }

  /** Once set, the time of use never changes, and nothing else of a ticket ever does. */
  lemma {:induction false} UsedForever(ws: seq<World>, es: seq<Event>, m: nat, n: nat, id: Id)
    requires Run(ws, es) && m <= n < |ws| && id in ws[m].store
    ensures id in ws[n].store
    ensures ws[m].store[id].usedAt.Some? ==> ws[n].store[id] == ws[m].store[id]
    ensures ws[n].store[id].(usedAt := None) == ws[m].store[id].(usedAt := None)
  {
    if m < n {
      UsedForever(ws, es, m, n - 1, id);
    }
  }
}
