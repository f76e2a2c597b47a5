/**
  The producer's state machine as the source writes it: an object whose methods update its fields
  in place. Every method is proved to do exactly what `ProducerModel` says of its abstract state.
 */
module Producer {
  import opened Common
  import opened ProducerModel
  import opened ProducerSafety

  class StateMachine {
    var phase: Phase
    var connection: Option<Connection>
    var connectionWatch: Watch<Option<Connection>>
    var channel: Channel
    var channelOpened: bool
    var unconfirmed: seq<Entry>
    var pending: seq<Message>
    var confirms: seq<Confirm>
    var flowWatch: Watch<bool>
    var blockedWatch: Watch<bool>
    var flow: bool
    var blocked: bool
    var messageCount: nat
    var publishing: Option<Message>

    ghost function View(): Machine
      reads this
    {
      Machine(phase, connection, connectionWatch, channel, channelOpened, unconfirmed, pending, confirms,
              flowWatch, blockedWatch, flow, blocked, messageCount, publishing)
    }

    /** The queue is sorted by tag, so popping from its front removes the oldest publishes first. */
    ghost predicate Valid()
      reads this
    {
      && Sorted(unconfirmed)
      && (forall i :: 0 <= i < |unconfirmed| ==> unconfirmed[i].tag <= messageCount)
      && (publishing.Some? ==> forall i :: 0 <= i < |unconfirmed| ==> unconfirmed[i].tag < messageCount)
    }

    constructor (initial: Connection, connectionRx: Watch<Option<Connection>>,
                 flowRx: Watch<bool>, blockedRx: Watch<bool>)
      ensures Valid()
      ensures View() == EnterOk(Machine(Ok, Some(initial), connectionRx, 0, false, [], [], [],
                                        flowRx, blockedRx, true, false, 0, None))
    {
      phase := Ok;
      connection := Some(initial);
      connectionWatch := connectionRx;
      channel := 0;
      channelOpened := false;
      unconfirmed := [];
      pending := [];
      confirms := [];
      flow := flowRx.value;
      flowWatch := flowRx.MarkSeen();
      blocked := blockedRx.value;
      blockedWatch := blockedRx.MarkSeen();
      messageCount := 0;
      publishing := None;
    }

    /** `on_remove`: an acked message is dropped, a nacked one goes back to be sent again. */
    method OnRemove(ack: bool, message: Message)
      modifies this`pending
      ensures pending == old(pending) + if ack then [] else [message]
    {
      if !ack {
        pending := pending + [message];
      }
    }

    /** `process_confirm`. */
    method ProcessConfirm(confirm: Confirm)
      requires Valid()
      modifies this`unconfirmed, this`pending
      ensures Valid()
      ensures View() == Settle(old(View()), confirm)
    {
      CoveredRemoved(unconfirmed, confirm);
      if confirm.multiple {
        ProcessMultiple(confirm);
      } else {
        ProcessSingle(confirm);
      }
      assert forall i :: 0 <= i < |unconfirmed| ==> unconfirmed[i] in unconfirmed;
    }

    /** Pops covered entries off the front. */
    method ProcessMultiple(confirm: Confirm)
      requires Sorted(unconfirmed) && confirm.multiple
      modifies this`unconfirmed, this`pending
      ensures unconfirmed == Kept(old(unconfirmed), confirm)
      ensures pending == old(pending) + if confirm.ack then [] else Messages(Removed(old(unconfirmed), confirm))
    {
      ghost var n := 0;
      while unconfirmed != [] && unconfirmed[0].tag <= confirm.tag
        invariant n <= |old(unconfirmed)| && unconfirmed == old(unconfirmed)[n..]
        invariant forall i :: 0 <= i < n ==> old(unconfirmed)[i].tag <= confirm.tag
        invariant pending == old(pending) + if confirm.ack then [] else Messages(old(unconfirmed)[..n])
        decreases |unconfirmed|
      {
        var entry := unconfirmed[0];
        unconfirmed := unconfirmed[1..];
        OnRemove(confirm.ack, entry.message);
        assert Messages(old(unconfirmed)[..n + 1]) == Messages(old(unconfirmed)[..n]) + [entry.message];
        n := n + 1;
      }
      SettleSplit(old(unconfirmed), 0, n, confirm);
    }

    /** Removes the one entry with the confirm's tag, if it is still there. */
    method ProcessSingle(confirm: Confirm)
      requires Sorted(unconfirmed) && !confirm.multiple
      modifies this`unconfirmed, this`pending
      ensures unconfirmed == Kept(old(unconfirmed), confirm)
      ensures pending == old(pending) + if confirm.ack then [] else Messages(Removed(old(unconfirmed), confirm))
    {
      var idx := Position(confirm.tag);
      if idx.Some? {
        SettleSplit(unconfirmed, idx.value, idx.value + 1, confirm);
        var entry := unconfirmed[idx.value];
        unconfirmed := unconfirmed[..idx.value] + unconfirmed[idx.value + 1..];
        OnRemove(confirm.ack, entry.message);
        assert Messages(old(unconfirmed)[idx.value..idx.value + 1]) == [entry.message];
      } else {
        NothingCovered(unconfirmed, confirm);
      }
    }

    /** `iter().position(..)`. */
    method Position(tag: nat) returns (idx: Option<nat>)
      ensures idx.Some? ==> idx.value < |unconfirmed| && unconfirmed[idx.value].tag == tag
      ensures idx.Some? ==> forall i :: 0 <= i < idx.value ==> unconfirmed[i].tag != tag
      ensures idx.None? ==> forall i :: 0 <= i < |unconfirmed| ==> unconfirmed[i].tag != tag
    {
      for i := 0 to |unconfirmed|
        invariant forall j :: 0 <= j < i ==> unconfirmed[j].tag != tag
      {
        if unconfirmed[i].tag == tag {
          return Some(i);
        }
      }
      return None;
    }

    /** One iteration of the select loop in `ok_state`. */
    method OkStep()
      requires Valid() && phase.Ok? && publishing.None?
      modifies this
      ensures Valid()
      ensures View() == OkIteration(old(View()))
    {
      if connectionWatch.Unseen() {
        connectionWatch := connectionWatch.MarkSeen();
        phase := WaitingForConnection;
      } else if flowWatch.Unseen() {
        flowWatch := flowWatch.MarkSeen();
        flow := flowWatch.value;
      } else if blockedWatch.Unseen() {
        blockedWatch := blockedWatch.MarkSeen();
        blocked := blockedWatch.value;
      } else if confirms != [] {
        TakeConfirm();
      } else if !blocked && flow && pending != [] {
        StartPublish();
      }
    }

    /** Takes the next message and numbers it; the publish itself is awaited. */
    method StartPublish()
      requires Valid() && publishing.None? && pending != []
      modifies this`pending, this`messageCount, this`publishing
      ensures Valid()
      ensures pending == old(pending)[1..] && publishing == Some(old(pending)[0])
      ensures messageCount == old(messageCount) + 1
    {
      var message := pending[0];
      pending := pending[1..];
      messageCount := messageCount + 1;
      publishing := Some(message);
    }

    /** What follows the await on `basic_publish`. */
    method PublishReturned(success: bool)
      requires Valid() && phase.Ok? && publishing.Some?
      modifies this
      ensures Valid()
      ensures View() == ProducerModel.PublishReturned(old(View()), success)
      ensures success ==> phase.Ok? && unconfirmed == old(unconfirmed) + [Entry(messageCount, old(publishing.value))]
      ensures !success ==> phase.ProcessingPendingConfirmations? && pending == old(pending) + [old(publishing.value)]
      ensures Inside(View()) == Inside(old(View()))
    {
      assert Messages(Outstanding(View())) == Messages(unconfirmed) + [publishing.value];
      if success {
        unconfirmed := unconfirmed + [Entry(messageCount, publishing.value)];
      } else {
        pending := pending + [publishing.value];
        phase := ProcessingPendingConfirmations;
      }
      publishing := None;
      assert Outstanding(View()) == unconfirmed;
      assert success ==> unconfirmed == Outstanding(old(View()));
    }

    method ReadConnection()
      requires Valid() && phase.WaitingForConnection?
      modifies this
      ensures Valid()
      ensures View() == ProducerModel.ReadConnection(old(View()))
      ensures Inside(View()) == Inside(old(View()))
    {
      connection := connectionWatch.value;
      connectionWatch := connectionWatch.MarkSeen();
      if connection.Some? {
        phase := ProcessingPendingConfirmations;
      }
    }

    /** Receives the next confirm and processes it. */
    method TakeConfirm()
      requires Valid() && confirms != []
      modifies this`confirms, this`unconfirmed, this`pending
      ensures Valid()
      ensures View() == DrainConfirm(old(View()))
    {
      var confirm := confirms[0];
      confirms := confirms[1..];
      ProcessConfirm(confirm);
    }

    method DrainConfirms()
      requires Valid()
      modifies this`confirms, this`unconfirmed, this`pending
      ensures Valid() && confirms == []
      ensures Reschedule(View()) == ProcessPending(old(View()))
    {
      while confirms != []
        invariant Valid()
        invariant ProcessPending(View()) == ProcessPending(old(View()))
        decreases |confirms|
      {
        TakeConfirm();
      }
    }

    /** `processing_pending_confirmations_state`. */
    method ProcessPendingConfirmations()
      requires Valid() && phase.ProcessingPendingConfirmations?
      modifies this
      ensures Valid() && confirms == [] && unconfirmed == []
      ensures View() == ProcessPending(old(View()))
    {
      DrainConfirms();
      RescheduleUnconfirmed();
      phase := RecreatingChannel;
      channelOpened := false;
    }

    method RescheduleUnconfirmed()
      modifies this`unconfirmed, this`pending
      ensures unconfirmed == []
      ensures pending == old(pending) + Messages(old(unconfirmed))
    {
      ghost var n := 0;
      while unconfirmed != []
        invariant n <= |old(unconfirmed)| && unconfirmed == old(unconfirmed)[n..]
        invariant pending == old(pending) + Messages(old(unconfirmed)[..n])
        decreases |unconfirmed|
      {
        var message := unconfirmed[0].message;
        unconfirmed := unconfirmed[1..];
        pending := pending + [message];
        assert Messages(old(unconfirmed)[..n + 1]) == Messages(old(unconfirmed)[..n]) + [message];
        n := n + 1;
      }
      assert old(unconfirmed)[..n] == old(unconfirmed);
    }

    method ConnectionInterrupt()
      requires Valid() && (phase.RecreatingChannel? || phase.RestoringProducer?) && connectionWatch.Unseen()
      modifies this
      ensures Valid()
      ensures View() == ProducerModel.ConnectionInterrupt(old(View()))
      ensures Inside(View()) == Inside(old(View()))
    {
      connectionWatch := connectionWatch.MarkSeen();
      phase := WaitingForConnection;
    }

    method ChannelOpens(newChannel: Channel)
      requires Valid() && phase.RecreatingChannel? && !channelOpened && connection.Some?
      modifies this
      ensures Valid()
      ensures View() == ProducerModel.ChannelOpens(old(View()), newChannel)
      ensures Inside(View()) == Inside(old(View()))
    {
      channel := newChannel;
      channelOpened := true;
      flowWatch := flowWatch.Send(true);
    }

    method CallbackRegistered()
      requires Valid() && phase.RecreatingChannel? && channelOpened
      modifies this
      ensures Valid()
      ensures View() == old(View()).(phase := RestoringProducer)
      ensures Inside(View()) == Inside(old(View()))
    {
      phase := RestoringProducer;
    }

    /** `restoring_producer_state` after `try_restore_producer` returned. */
    method RestoreReturned(success: bool)
      requires Valid() && phase.RestoringProducer? && unconfirmed == []
      modifies this
      ensures Valid()
      ensures View() == ProducerModel.RestoreReturned(old(View()), success)
      ensures Inside(View()) == Inside(old(View()))
    {
      if success {
        phase := Ok;
        flow := flowWatch.value;
        flowWatch := flowWatch.MarkSeen();
        blocked := blockedWatch.value;
        blockedWatch := blockedWatch.MarkSeen();
        messageCount := 0;
      } else {
        phase := RecreatingChannel;
        channelOpened := false;
      }
    }
  }

  /** Cutting the covered stretch [lo, hi) out of a tag-ordered queue is what filtering does. */
  lemma {:induction false} SettleSplit(q: seq<Entry>, lo: nat, hi: nat, c: Confirm)
    requires lo <= hi <= |q|
    requires forall i :: 0 <= i < |q| ==> (Covers(c, q[i].tag) <==> lo <= i < hi)
    ensures Kept(q, c) == q[..lo] + q[hi..]
    ensures Removed(q, c) == q[lo..hi]
  {
    if q != [] {
      if lo == 0 {
        if hi == 0 {
          assert forall e :: e in q ==> !Covers(c, e.tag);
          NothingCovered(q, c);
        } else {
          SettleSplit(q[1..], 0, hi - 1, c);
          assert q[1..][..hi - 1] == q[1..hi];
          assert [q[0]] + q[1..hi] == q[..hi];
        }
      } else {
        SettleSplit(q[1..], lo - 1, hi - 1, c);
        assert [q[0]] + q[1..][..lo - 1] == q[..lo];
      }
    }
  }
}
