/**
  The consumer machine driving the registry: its status callback is `update_network_status`, which it
  awaits. Clients therefore learn of every interruption of the consumer, and of its end.
 */
module StatusPipeline {
  import opened Common
  import C = ConsumerModel
  import CS = ConsumerSafety
  import R = RegistryModel
  import RS = RegistrySafety

  datatype System = System(world: C.World, registry: R.Registry)

  datatype Event =
    | Machines(step: C.Event)       // any step of the two machines or their environment
    | Clients(change: R.Event)      // any step of the registry other than a status update

  /** A registry step may come at any time; status updates only come from the consumer. */
  predicate Enabled(s: System, e: Event) {
    match e
    case Machines(step) => C.Enabled(s.world, step)
    case Clients(change) => R.Enabled(s.registry, change) && !change.StoresStatus? && !change.AnnouncesStatus?
  }

  function Apply(s: System, e: Event): System
    requires Enabled(s, e)
  {
    match e
    case Machines(step) =>
      System(C.Apply(s.world, step),
             match step
             case StoresStatus => R.StoreStatus(s.registry, s.world.consumer.phase.consuming)
             case ReturnsFromCallback => R.AnnounceStatus(s.registry, s.world.consumer.phase.consuming)
             case _ => s.registry)
    case Clients(change) => s.(registry := R.Apply(s.registry, change))
  }

  ghost predicate Run(ss: seq<System>, es: seq<Event>) {
    && |ss| == |es| + 1 && ss[0] == System(C.INITIAL, R.INITIAL)
    && forall i :: 0 <= i < |es| ==> Enabled(ss[i], es[i]) && ss[i + 1] == Apply(ss[i], es[i])
  }

  /** A status is stored but not broadcast exactly while the consumer is inside that callback, and what
      is stored is the last status reported (Ok before the first). */
  ghost predicate Linked(s: System) {
    && s.registry.announcing ==
         (if s.world.consumer.phase.Announcing? && s.world.consumer.phase.stored
          then Some(s.world.consumer.phase.consuming) else None)
    && s.registry.statusOk == (s.world.trace == [] || s.world.trace[|s.world.trace| - 1])
  }

  ghost predicate Inv(s: System) {
    CS.Inv(s.world) && RS.Inv(s.registry) && Linked(s)
  }

  /** The registry never sees overlapping updates: each step of the callback is one it can take. */
  lemma UpdatesNeverOverlap(s: System, step: C.Event)
    requires Inv(s) && C.Enabled(s.world, step)
    ensures step.StoresStatus? ==> R.Enabled(s.registry, R.StoresStatus(s.world.consumer.phase.consuming))
    ensures step.ReturnsFromCallback? ==>
              R.Enabled(s.registry, R.AnnouncesStatus) && s.registry.announcing.value == s.world.consumer.phase.consuming
  {
  }

  /** The registry event that a step of the pipeline is, if any. */
  function RegistryEvent(s: System, e: Event): Option<R.Event> {
    match e
    case Clients(change) => Some(change)
    case Machines(StoresStatus) => Some(R.StoresStatus(s.world.consumer.phase.Announcing? && s.world.consumer.phase.consuming))
    case Machines(ReturnsFromCallback) => Some(R.AnnouncesStatus)
    case Machines(_) => None
  }

  /** Each step of the pipeline is a step of the machines, of the registry or of both together, so what
      holds on every run of either holds of its part of the pipeline. */
  lemma StepsOfBoth(s: System, e: Event)
    requires Inv(s) && Enabled(s, e)
    ensures Apply(s, e).world == if e.Machines? then C.Apply(s.world, e.step) else s.world
    ensures RegistryEvent(s, e).None? ==> Apply(s, e).registry == s.registry
    ensures RegistryEvent(s, e).Some? ==>
              && R.Enabled(s.registry, RegistryEvent(s, e).value)
              && Apply(s, e).registry == R.Apply(s.registry, RegistryEvent(s, e).value)
  {
    if e.Machines? {
      UpdatesNeverOverlap(s, e.step);
    }
  }

  /** Only the callback's steps append to the trace or enter and leave its stored part. */
  lemma QuietMachineStep(w: C.World, step: C.Event)
    requires CS.Inv(w) && C.Enabled(w, step) && !step.StoresStatus? && !step.ReturnsFromCallback?
    ensures C.Apply(w, step).trace == w.trace
    ensures (w.consumer.phase.Announcing? && w.consumer.phase.stored) ==>
              C.Apply(w, step).consumer.phase == w.consumer.phase
    ensures !(w.consumer.phase.Announcing? && w.consumer.phase.stored) ==>
              !(C.Apply(w, step).consumer.phase.Announcing? && C.Apply(w, step).consumer.phase.stored)
  {
  }

  lemma QuietRegistryStep(r: R.Registry, change: R.Event)
    requires RS.Inv(r) && R.Enabled(r, change) && !change.StoresStatus? && !change.AnnouncesStatus?
    ensures R.Apply(r, change).announcing == r.announcing && R.Apply(r, change).statusOk == r.statusOk
  {
    if change.Notifies? {
      RS.MulticastDelivers(r, change.ids, R.Notification(change.notification));
    }
  }

  lemma LinkedMachineStep(s: System, step: C.Event)
    requires CS.Inv(s.world) && Linked(s) && C.Enabled(s.world, step)
    ensures Linked(Apply(s, Machines(step)))
  {
    match step
    case StoresStatus =>
    case ReturnsFromCallback => assert |s.world.trace| % 2 == 1 <==> s.world.consumer.phase.consuming;
    case _ => QuietMachineStep(s.world, step);
  }

  lemma MachineStepRegistry(s: System, step: C.Event)
    requires Inv(s) && C.Enabled(s.world, step)
    ensures RS.Inv(Apply(s, Machines(step)).registry)
  {
    UpdatesNeverOverlap(s, step);
    match step
    case StoresStatus => RS.StoreInv(s.registry, s.world.consumer.phase.consuming);
    case ReturnsFromCallback => RS.AnnounceInv(s.registry);
    case _ =>
  }

  lemma StepInv(s: System, e: Event)
    requires Inv(s) && Enabled(s, e)
    ensures Inv(Apply(s, e))
  {
    match e
    case Machines(step) =>
      CS.StepInv(s.world, step);
      LinkedMachineStep(s, step);
      MachineStepRegistry(s, step);
    case Clients(change) =>
      RS.StepInv(s.registry, change);
      QuietRegistryStep(s.registry, change);
  }

  lemma {:induction false} RunInv(ss: seq<System>, es: seq<Event>, n: nat)
    requires Run(ss, es) && n < |ss|
    ensures Inv(ss[n])
  {
    if n == 0 {
      assert CS.Inv(C.INITIAL) && RS.Inv(R.INITIAL);
    } else {
      RunInv(ss, es, n - 1);
      StepInv(ss[n - 1], es[n - 1]);
    }
  }

  /** On every run of the whole pipeline, whenever no status callback is between its store and its
      broadcast: every registered client, whenever it connected, was told last what the consumer
      reported last, and that is a problem exactly while the consumer is not listening. */
  lemma ClientsKnowConsumerStatus(ss: seq<System>, es: seq<Event>, n: nat, c: R.ClientId)
    requires Run(ss, es) && n < |ss| && R.Registered(ss[n].registry, c)
    requires !(ss[n].world.consumer.phase.Announcing? && ss[n].world.consumer.phase.stored)
    ensures var w, q := ss[n].world, ss[n].registry.clients[c].queue;
            && R.LastStatus(q) == (w.trace == [] || w.trace[|w.trace| - 1])
            && (R.LastStatus(q) <==> w.trace == [] || CS.SaysConsuming(w.consumer.phase))
  {
    RunInv(ss, es, n);
    var w := ss[n].world;
    assert |w.trace| > 0 ==> (w.trace[|w.trace| - 1] <==> (|w.trace| - 1) % 2 == 0);
  }
}
