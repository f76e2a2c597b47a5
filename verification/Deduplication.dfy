/**
  The deduplicator and its garbage collector: a map from notification to the newest accepted
  timestamp, pruned periodically. What it answers is characterised exactly by the history of updates
  and collections, and compared with a service that never forgets.
 */
module Deduplication {
  import opened Common
  import opened Timestamp

  type Updates = map<Id, Time>

  datatype Event = Update(update: StatusUpdate) | Collect(cutoff: Time)

  predicate Accepts(last: Updates, u: StatusUpdate) {
    u.id !in last || last[u.id] < u.timestamp
  }

  /** `deduplicate`. */
  function Deduplicated(last: Updates, u: StatusUpdate): Updates {
    if Accepts(last, u) then last[u.id := u.timestamp] else last
  }

  /** One round of the garbage collector. */
  function Collected(last: Updates, cutoff: Time): Updates {
    map id | id in last && last[id] > cutoff :: last[id]
  }

  /** The map after a history of updates and collections. */
  function After(es: seq<Event>): Updates {
    if es == [] then map[]
    else
      var before := After(es[..|es| - 1]);
      match es[|es| - 1]
      case Update(u) => Deduplicated(before, u)
      case Collect(cutoff) => Collected(before, cutoff)
  }

  /** The map a service would hold that never collects. */
  function Unpruned(es: seq<Event>): Updates {
    if es == [] then map[]
    else
      var before := Unpruned(es[..|es| - 1]);
      match es[|es| - 1]
      case Update(u) => Deduplicated(before, u)
      case Collect(_) => before
  }

  /** The history holds an update of the same notification that is as new or newer. */
  ghost predicate Superseded(es: seq<Event>, u: StatusUpdate) {
    exists i :: 0 <= i < |es| && Supersedes(es[i], u)
  }

  predicate Supersedes(e: Event, u: StatusUpdate) {
    e.Update? && e.update.id == u.id && e.update.timestamp >= u.timestamp
  }

  /** No collection after position `i` used a cutoff at or above `t`. */
  ghost predicate KeptSince(es: seq<Event>, i: int, t: Time) {
    forall j :: 0 <= j < |es| && i < j && es[j].Collect? ==> es[j].cutoff < t
  }

  /** The history holds such an update, and no collection since then used a cutoff at or above its
      timestamp. */
  ghost predicate Remembered(es: seq<Event>, u: StatusUpdate) {
    exists i :: 0 <= i < |es| && Supersedes(es[i], u) && KeptSince(es, i, es[i].update.timestamp)
  }

  /** The service as the source writes it; `history` records its calls. */
  class DeduplicationService {
    var lastUpdates: Updates
    ghost var history: seq<Event>

    ghost predicate Valid()
      reads this
    {
      lastUpdates == After(history)
    }

    constructor ()
      ensures Valid()
      ensures history == []
    {
      lastUpdates := map[];
      history := [];
    }

    /** Under the lock: look up, then replace, reject or insert. */
    method Deduplicate(u: StatusUpdate) returns (duplicate: bool)
      requires Valid()
      modifies this
      ensures Valid()
      ensures history == old(history) + [Update(u)]
      ensures duplicate <==> Remembered(old(history), u)
    {
      AcceptsExactly(history, u);
      assert (history + [Update(u)])[..|history|] == history;
      history := history + [Update(u)];
      if u.id in lastUpdates {
        if lastUpdates[u.id] < u.timestamp {
          lastUpdates := lastUpdates[u.id := u.timestamp];
          return false;
        }
        return true;
      }
      lastUpdates := lastUpdates[u.id := u.timestamp];
      return false;
    }

    /** `retain`: visits every entry, in no particular order. */
    method CollectGarbage(now: Time, lifespan: nat)
      requires Valid()
      modifies this
      ensures Valid()
      ensures history == old(history) + [Collect(now - lifespan)]
      ensures lastUpdates == Collected(old(lastUpdates), now - lifespan)
    {
      var minTimestamp := now - lifespan;
      var todo := lastUpdates.Keys;
      while todo != {}
        invariant todo <= lastUpdates.Keys <= old(lastUpdates).Keys
        invariant forall id :: id in lastUpdates ==> lastUpdates[id] == old(lastUpdates)[id]
        invariant forall id :: id in old(lastUpdates) && id !in todo ==>
                    (id in lastUpdates <==> old(lastUpdates)[id] > minTimestamp)
        invariant history == old(history)
        decreases todo
      {
        var id :| id in todo;
        if !(lastUpdates[id] > minTimestamp) {
          lastUpdates := lastUpdates - {id};
        }
        todo := todo - {id};
      }
      assert (history + [Collect(minTimestamp)])[..|history|] == history;
      history := history + [Collect(minTimestamp)];
    }
  }

  // ----- the exact condition

  lemma RememberedAfterUpdate(es: seq<Event>, v: StatusUpdate, u: StatusUpdate)
    ensures Remembered(es + [Update(v)], u) <==> Remembered(es, u) || Supersedes(Update(v), u)
  {
    var es' := es + [Update(v)];
    if Remembered(es, u) {
      var i :| 0 <= i < |es| && Supersedes(es[i], u) && KeptSince(es, i, es[i].update.timestamp);
      assert es'[i] == es[i] && KeptSince(es', i, es[i].update.timestamp);
    }
    if Supersedes(Update(v), u) {
      assert es'[|es|] == Update(v) && KeptSince(es', |es|, v.timestamp);
    }
    if Remembered(es', u) {
      var i :| 0 <= i < |es'| && Supersedes(es'[i], u) && KeptSince(es', i, es'[i].update.timestamp);
      assert i < |es| ==> es[i] == es'[i] && KeptSince(es, i, es[i].update.timestamp) by {
        assert forall j :: 0 <= j < |es| ==> es'[j] == es[j];
      }
    }
  }

  /** After a collection an update is remembered exactly if it would have been with the timestamp
      raised above the cutoff. */
  lemma RememberedAfterCollect(es: seq<Event>, cutoff: Time, u: StatusUpdate)
    ensures Remembered(es + [Collect(cutoff)], u) <==> Remembered(es, Raised(u, cutoff))
  {
    var es' := es + [Collect(cutoff)];
    assert forall j :: 0 <= j < |es| ==> es'[j] == es[j];
    if Remembered(es', u) {
      var i :| 0 <= i < |es'| && Supersedes(es'[i], u) && KeptSince(es', i, es'[i].update.timestamp);
      assert es'[|es|] == Collect(cutoff);
      assert Supersedes(es[i], Raised(u, cutoff)) && KeptSince(es, i, es[i].update.timestamp);
    }
    if Remembered(es, Raised(u, cutoff)) {
      var i :| 0 <= i < |es| && Supersedes(es[i], Raised(u, cutoff)) && KeptSince(es, i, es[i].update.timestamp);
      assert Supersedes(es'[i], u) && KeptSince(es', i, es'[i].update.timestamp);
    }
  }

  function Raised(u: StatusUpdate, cutoff: Time): StatusUpdate {
    if u.timestamp > cutoff then u else u.(timestamp := cutoff + 1)
  }

  /** After any history, an update is accepted if and only if every update of the same notification
      that is as new or newer has been followed by a collection at or above its timestamp. */
  lemma {:induction false} AcceptsExactly(es: seq<Event>, u: StatusUpdate)
    ensures Accepts(After(es), u) <==> !Remembered(es, u)
  {
    if es != [] {
      var before, e := es[..|es| - 1], es[|es| - 1];
      assert es == before + [e];
      match e {
        case Update(v) =>
          AcceptsExactly(before, u);
          AcceptsExactly(before, v);
          RememberedAfterUpdate(before, v, u);
          if v.id == u.id && v.timestamp <= u.timestamp {
            RememberedIsMonotone(before, v, u);
          }
        case Collect(cutoff) =>
          AcceptsExactly(before, Raised(u, cutoff));
          RememberedAfterCollect(before, cutoff, u);
      }
    }
  }

  lemma RememberedIsMonotone(es: seq<Event>, older: StatusUpdate, newer: StatusUpdate)
    requires older.id == newer.id && older.timestamp <= newer.timestamp
    ensures Remembered(es, newer) ==> Remembered(es, older)
  {
  }

  lemma {:induction false} UnprunedExactly(es: seq<Event>, u: StatusUpdate)
    ensures Accepts(Unpruned(es), u) <==> !Superseded(es, u)
  {
    if es != [] {
      var before, e := es[..|es| - 1], es[|es| - 1];
      UnprunedExactly(before, u);
      assert forall i :: 0 <= i < |before| ==> es[i] == before[i];
      if e.Update? {
        UnprunedExactly(before, e.update);
        if Superseded(before, u) && e.update.id == u.id && u.timestamp > e.update.timestamp {
          assert Superseded(before, e.update);
        }
      }
    }
  }

  // ----- what follows from it

  /** Compared with a service that never forgets: it rejects nothing the other accepts, and the two
      differ exactly when the update was superseded and everything that supersedes it was collected
      since; so they agree on every update newer than all cutoffs used. */
  lemma RefinesNeverForgetting(es: seq<Event>, u: StatusUpdate)
    ensures Accepts(Unpruned(es), u) ==> Accepts(After(es), u)
    ensures Accepts(Unpruned(es), u) != Accepts(After(es), u) <==> Superseded(es, u) && !Remembered(es, u)
    ensures KeptSince(es, -1, u.timestamp) ==> Accepts(Unpruned(es), u) == Accepts(After(es), u)
  {
    AcceptsExactly(es, u);
    UnprunedExactly(es, u);
    if Superseded(es, u) && KeptSince(es, -1, u.timestamp) {
      var i :| 0 <= i < |es| && Supersedes(es[i], u);
      assert KeptSince(es, i, es[i].update.timestamp);
    }
  }

  /** Of two accepted updates of one notification the second is newer, unless a collection between
      the two used a cutoff at or above the first. */
  lemma RecentAcceptedInOrder(es: seq<Event>, i: nat, j: nat)
    requires i < j < |es| && es[i].Update? && es[j].Update? && es[i].update.id == es[j].update.id
    requires Accepts(After(es[..j]), es[j].update)
    ensures || es[i].update.timestamp < es[j].update.timestamp
            || exists k :: i < k < j && es[k].Collect? && es[k].cutoff >= es[i].update.timestamp
  {
    var past := es[..j];
    AcceptsExactly(past, es[j].update);
    assert past[i] == es[i];
    if es[i].update.timestamp >= es[j].update.timestamp {
      assert !KeptSince(past, i, past[i].update.timestamp);
      var k :| 0 <= k < |past| && i < k && past[k].Collect? && past[k].cutoff >= past[i].update.timestamp;
      assert es[k] == past[k];
    }
  }

  /** A republished copy is accepted again exactly when, since the update last came, a collection used a
      cutoff at or above its timestamp, and likewise for every newer update of the notification. */
  lemma CopyAcceptedAgainExactly(es: seq<Event>, u: StatusUpdate)
    requires Update(u) in es
    ensures Accepts(After(es), u) <==>
              forall i :: 0 <= i < |es| && Supersedes(es[i], u) ==>
                exists k :: i < k < |es| && es[k].Collect? && es[k].cutoff >= es[i].update.timestamp
    ensures Accepts(After(es), u) ==> exists k :: 0 <= k < |es| && es[k].Collect? && es[k].cutoff >= u.timestamp
  {
    AcceptsExactly(es, u);
    var n :| 0 <= n < |es| && es[n] == Update(u);
    assert Supersedes(es[n], u);
    forall i | 0 <= i < |es| && Supersedes(es[i], u)
      ensures KeptSince(es, i, es[i].update.timestamp) <==>
              !exists k :: i < k < |es| && es[k].Collect? && es[k].cutoff >= es[i].update.timestamp
    {
    }
  }

  /** The smallest case: a copy of an update that was just collected is accepted again if and only if
      the cutoff reached its timestamp. */
  lemma OldCopiesAcceptedTwice(es: seq<Event>, u: StatusUpdate, cutoff: Time)
    requires Accepts(After(es), u)
    ensures Accepts(After(es + [Update(u), Collect(cutoff)]), u) <==> cutoff >= u.timestamp
  {
    var es1, es2 := es + [Update(u)], es + [Update(u)] + [Collect(cutoff)];
    assert es + [Update(u), Collect(cutoff)] == es2;
    assert es1[..|es1| - 1] == es && es2[..|es2| - 1] == es1;
  }
}
