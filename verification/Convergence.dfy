/**
 Convergence: while the custom resource stays as it is and calls succeed, a lexicographic measure
 falls from round to round until a pass returns without asking to be run again; the cluster then
 has exactly the size the custom resource asks for.

 The environment acts between passes, where it makes some progress on whatever is still moving,
 and also between the calls of a pass, where it must not undo anything. A report that comes in
 during a pass can make its calls conflict; all that is asked is that, however late, there is
 always another pass without one.
 All this rests on a spec whose own templates are current; without that no pass ever returns done.
 */
module Convergence {
  import opened Common
  import opened Templates
  import opened Scaling
  import opened SlotSafety

  // ---------- Truthful answers ----------

  function Reported(w: World): SetStatus
    requires w.WellFormed()
  {
    if w.storage.None? then SetStatus(0, 0) else w.storage.value.reports[|w.storage.value.reports| - 1]
  }

  function Ready(c: Option<Component>): nat
    requires c.Some? ==> |c.value.reports| > 0
  {
    if c.Some? then c.value.reports[|c.value.reports| - 1] else 0
  }

  predicate Moving(w: World) { w.WithSlots() != w.Target() }

  /** The answer of a server at which nothing fails. */
  function Answer(s: State): Reply
  {
    match s.pc
    case Idle(_) => Fetched(s.w.cr)
    case LoadBroker => if s.w.broker.None? then Ok else Read(Excess(|s.w.broker.value.reports|, 1))
    case LoadCoordinator => if s.w.coordinator.None? then Ok else Read(Excess(|s.w.coordinator.value.reports|, 1))
    case LoadStorage => if s.w.storage.None? then Ok else Read(Excess(|s.w.storage.value.reports|, 1))
    case GetInfo(_) => Info(Moving(s.w))
    case ScaleNodes =>
      if Moving(s.w) then Fail
      else if s.w.NodeNumber() > s.w.WithSlots() then FreeNodeFound else Ok
    case RemoveFreeNodes(_) => if Moving(s.w) then Fail else Ok
    case _ => Ok
  }

  /** How many calls of a pass can still follow. */
  function CallsLeft(pc: Pc): nat
  {
    match pc
    case Idle(_) => 0
    case CreateMeta => 29
    case LoadBroker => 28
    case LoadCoordinator => 27
    case LoadStorage => 26
    case ScaleUp => 25
    case CheckBroker => 24
    case CheckCoordinator => 23
    case PatchMaster => 22
    case ConfigCoordinators => 21
    case CountEndpoints => 20
    case SyncRegistry(again) => if again then 11 else 19
    case FindCluster(again) => if again then 10 else 18
    case CreateCluster(again) => if again then 9 else 17
    case ConfigCluster(again) => if again then 8 else 16
    case GetInfo(again) => if again then 7 else 15
    case CheckStable => 14
    case ScaleNodes => 13
    case RemoveFreeNodes(_) => 12
    case Decide => 6
    case WriteWait => 5
    case Shrink => 5
    case WriteStable => 4
    case RollBroker => 3
    case RollCoordinator => 2
    case RollStorage => 1
  }

  lemma SetupRunsOut(s: State, reply: Reply)
    requires s.w.WellFormed() && CallsLeft(s.pc) > 19
    ensures CallsLeft(CallStep(s, reply).pc) < CallsLeft(s.pc)
  {
  }

  lemma ScalingRunsOut(s: State, reply: Reply)
    requires s.w.WellFormed() && 5 < CallsLeft(s.pc) <= 19
    ensures CallsLeft(CallStep(s, reply).pc) < CallsLeft(s.pc)
  {
  }

  /** No pass runs for ever, whatever the calls answer. */
  lemma CallsRunOut(s: State, reply: Reply)
    requires s.w.WellFormed() && !s.pc.Idle?
    ensures CallsLeft(CallStep(s, reply).pc) < CallsLeft(s.pc)
  {
    if CallsLeft(s.pc) > 19 {
      SetupRunsOut(s, reply);
    } else if CallsLeft(s.pc) > 5 {
      ScalingRunsOut(s, reply);
    }
  }

  // ---------- What is left to do ----------

  function Missing(w: World): nat { (if w.broker.None? then 2 else 0) + (if w.coordinator.None? then 1 else 0) }

  function PodsToAdd(w: World): nat
  {
    if w.storage.None? then Shards(w.cr.chunk) + 1 else Excess(Shards(w.cr.chunk), w.Replicas())
  }

  function ClusterMissing(w: World): nat { if w.cluster.None? then 1 else 0 }

  function TargetWrong(w: World): nat { if w.Target() != Nodes(w.cr.chunk) then 1 else 0 }

  function MigrationLeft(w: World): nat { Excess(w.Target(), w.WithSlots()) + Excess(w.WithSlots(), w.Target()) }

  function NodesWrong(w: World): nat { Excess(w.NodeNumber(), w.WithSlots()) + Excess(w.WithSlots(), w.NodeNumber()) }

  function PodsToRemove(w: World): nat { Excess(w.Replicas(), Shards(w.cr.chunk)) }

  function WaitLeft(w: World): nat
  {
    if PodsToRemove(w) == 0 then 0
    else if w.Status().state != ScaleDownWait then SCALE_DOWN_WAIT_TIME + 1
    else Excess(w.Status().since + SCALE_DOWN_WAIT_TIME, w.clock)
  }

  predicate BrokerStale(w: World) { w.broker.Some? ==> w.rules.changed(BrokerPart, w.cr.spec, w.broker.value.template) }

  predicate CoordinatorStale(w: World) { w.coordinator.Some? ==> w.rules.changed(CoordinatorPart, w.cr.spec, w.coordinator.value.template) }

  predicate StorageStale(w: World) { w.storage.Some? ==> w.rules.changed(StoragePart, w.cr.spec, w.storage.value.template) }

  function TemplatesLeft(w: World): nat
  {
    (if BrokerStale(w) then 1 else 0) + (if CoordinatorStale(w) then 1 else 0) + (if StorageStale(w) then 1 else 0)
  }

  /** Wanted pods without an endpoint, and pods that are not wanted. */
  function Astray(n: nat, pods: set<nat>, endpoints: set<nat>): nat { |Below(n) - endpoints| + |pods - Below(n)| }

  function PodDisorder(w: World): nat { Astray(w.Replicas(), w.pods, w.endpoints) }

  function ServiceDisorder(w: World): nat
    requires w.WellFormed()
  {
    (if w.broker.None? then 0
     else Excess(BROKER_NUM, Ready(w.broker)) + Excess(Ready(w.broker), BROKER_NUM) + Excess(BROKER_NUM, Endpoints(w.broker)))
    + (if w.coordinator.None? then 0
       else Excess(COORDINATOR_NUM, Ready(w.coordinator)) + Excess(COORDINATOR_NUM, Endpoints(w.coordinator)))
  }

  /** How far pods, endpoints, reports and the other components are from what is wanted of them. */
  function Disorder(w: World): nat
    requires w.WellFormed()
  {
    PodDisorder(w) + (if Reported(w) == SetStatus(w.Replicas(), w.Replicas()) then 0 else 1) + ServiceDisorder(w)
  }

  /** Everything a pass itself can lower is the same. */
  predicate SameWork(v: World, w: World)
  {
    && Missing(v) == Missing(w)
    && PodsToAdd(v) == PodsToAdd(w) && ClusterMissing(v) == ClusterMissing(w) && TargetWrong(v) == TargetWrong(w)
    && MigrationLeft(v) == MigrationLeft(w) && NodesWrong(v) == NodesWrong(w) && PodsToRemove(v) == PodsToRemove(w)
    && WaitLeft(v) == WaitLeft(w) && TemplatesLeft(v) == TemplatesLeft(w)
  }

  /** Lexicographically less work. */
  predicate LessWork(v: World, w: World)
  {
    Missing(v) < Missing(w) || (Missing(v) == Missing(w) && (
    PodsToAdd(v) < PodsToAdd(w) || (PodsToAdd(v) == PodsToAdd(w) && (
    ClusterMissing(v) < ClusterMissing(w) || (ClusterMissing(v) == ClusterMissing(w) && (
    TargetWrong(v) < TargetWrong(w) || (TargetWrong(v) == TargetWrong(w) && (
    MigrationLeft(v) < MigrationLeft(w) || (MigrationLeft(v) == MigrationLeft(w) && (
    NodesWrong(v) < NodesWrong(w) || (NodesWrong(v) == NodesWrong(w) && (
    PodsToRemove(v) < PodsToRemove(w) || (PodsToRemove(v) == PodsToRemove(w) && (
    WaitLeft(v) < WaitLeft(w) || (WaitLeft(v) == WaitLeft(w) &&
    TemplatesLeft(v) < TemplatesLeft(w))))))))))))))))
  }

  predicate Better(v: World, w: World)
    requires v.WellFormed() && w.WellFormed()
  {
    LessWork(v, w) || (SameWork(v, w) && Disorder(v) < Disorder(w))
  }

  predicate NoWorse(v: World, w: World)
    requires v.WellFormed() && w.WellFormed()
  {
    LessWork(v, w) || (SameWork(v, w) && Disorder(v) <= Disorder(w))
  }

  lemma WorkIsTransitive(u: World, v: World, w: World)
    requires SameWork(u, v) || LessWork(u, v)
    requires SameWork(v, w) || LessWork(v, w)
    ensures if SameWork(u, v) && SameWork(v, w) then SameWork(u, w) else LessWork(u, w)
  {
  }

  lemma NoWorseIsTransitive(u: World, v: World, w: World)
    requires u.WellFormed() && v.WellFormed() && w.WellFormed() && NoWorse(u, v) && NoWorse(v, w)
    ensures NoWorse(u, w) && (Better(u, v) || Better(v, w) ==> Better(u, w))
  {
    WorkIsTransitive(u, v, w);
  }

  /** Only the clock can end this. */
  predicate Waiting(w: World) { w.Status().state == ScaleDownWait && WaitLeft(w) > 0 }

  /** What the readiness checks of a pass can see of the disorder. */
  predicate Unready(w: World)
    requires w.WellFormed()
  {
    || |w.endpoints| < w.Replicas()
    || Reported(w) != SetStatus(w.Replicas(), w.Replicas())
    || (w.broker.Some? && (Ready(w.broker) != BROKER_NUM || Endpoints(w.broker) < BROKER_NUM))
    || (w.coordinator.Some? && (Ready(w.coordinator) < COORDINATOR_NUM || Endpoints(w.coordinator) < COORDINATOR_NUM))
  }

  /** Something only the environment can bring forward. */
  predicate Blocked(w: World)
    requires w.WellFormed()
  {
    Unready(w) || MigrationLeft(w) > 0 || Waiting(w)
  }

  lemma MissingEndpoints(w: World)
    requires |w.endpoints| < w.Replicas()
    ensures PodDisorder(w) > 0
  {
    var all := Below(w.Replicas());
    SubsetSize(all * w.endpoints, w.endpoints);
    assert all == all * w.endpoints + (all - w.endpoints);
  }

  lemma UnreadyIsDisorder(w: World)
    requires w.WellFormed() && Unready(w)
    ensures Disorder(w) > 0
  {
    if |w.endpoints| < w.Replicas() { MissingEndpoints(w); }
  }

  /** Where the protocol is heading. */
  predicate Settled(w: World)
    requires w.WellFormed()
  {
    && w.storage.Some? && w.cluster.Some? && w.broker.Some? && w.coordinator.Some?
    && w.Replicas() == 2 * w.cr.chunk
    && w.pods == w.endpoints == Below(w.Replicas())
    && Reported(w) == SetStatus(w.Replicas(), w.Replicas())
    && w.Target() == w.WithSlots() == w.NodeNumber() == 4 * w.cr.chunk
    && TemplatesLeft(w) == 0
    && Ready(w.broker) == 2 && w.broker.value.endpoints >= 2
    && Ready(w.coordinator) >= 2 && w.coordinator.value.endpoints >= 2
  }

  lemma SettledHasNothingLeft(w: World)
    requires w.WellFormed() && Settled(w)
    ensures Disorder(w) == 0
    ensures Missing(w) == PodsToAdd(w) == ClusterMissing(w) == TargetWrong(w) == MigrationLeft(w) == NodesWrong(w) == PodsToRemove(w) == WaitLeft(w) == 0
  {
    assert w.pods - Below(w.Replicas()) == {} == Below(w.Replicas()) - w.endpoints;
  }

  // ---------- What one call does ----------

  /** The copy is one of the versions since the last write, and the newest of a calm pass. */
  predicate Copied(c: Option<Component>, copy: ComponentCopy, calm: bool)
  {
    && c.Some? && copy.revision < |c.value.reports|
    && copy.template == c.value.template && copy.ready == c.value.reports[copy.revision]
    && (calm ==> copy.revision + 1 == |c.value.reports|)
  }

  /** A pass is `calm` if no report has come in since it began. */
  predicate RollFacts(s: State, calm: bool)
    requires s.w.WellFormed()
  {
    && (s.pc.RollCoordinator? || s.pc.RollStorage? ==> !BrokerStale(s.w) && (calm ==> Ready(s.w.broker) == BROKER_NUM && Endpoints(s.w.broker) >= BROKER_NUM))
    && (s.pc.RollStorage? ==> !CoordinatorStale(s.w) && (calm ==> Ready(s.w.coordinator) >= COORDINATOR_NUM && Endpoints(s.w.coordinator) >= COORDINATOR_NUM))
  }

  predicate PassFacts(s: State, calm: bool)
    requires s.w.WellFormed()
  {
    && (!s.pc.Idle? ==> s.l.cr == s.w.cr)
    && (HasBroker(s.pc) ==> Copied(s.w.broker, s.l.broker, calm))
    && (HasCoordinator(s.pc) ==> Copied(s.w.coordinator, s.l.coordinator, calm))
    && (HasStorage(s.pc) && calm ==> Newest(s))
    && (HasStorage(s.pc) && !s.pc.ScaleUp? ==> Shards(s.w.cr.chunk) <= s.w.Replicas())
    && (s.pc == RemoveFreeNodes(true) ==> !Moving(s.w) && s.w.NodeNumber() > s.w.WithSlots())
    && (s.pc == RemoveFreeNodes(false) ==> Nodes(s.w.cr.chunk) <= s.w.NodeNumber())
    && (PastMigration(s.pc) && !s.pc.RemoveFreeNodes? ==>
          s.w.Target() == s.w.WithSlots() == s.w.NodeNumber() == Nodes(s.w.cr.chunk))
    && (s.pc.WriteWait? ==> s.w.Replicas() != Shards(s.w.cr.chunk) && s.w.Status().state != ScaleDownWait)
    && (s.pc.Decide? ==> s.l.info.withSlots == Nodes(s.w.cr.chunk))
    && RollFacts(s, calm)
  }

  /** An answer that will hold the pass up is still true, or the pass has gained something since. */
  predicate Excused(s: State, gained: bool)
  {
    && (CountedEndpoints(s.pc) && !s.l.allReady ==> |s.w.endpoints| < Shards(s.w.cr.chunk) || gained)
    && (s.pc.CheckStable? && s.l.info.migrating ==> Moving(s.w) || gained)
  }

  ghost predicate SameSpec(v: World, w: World)
  {
    v.cr.chunk == w.cr.chunk && v.cr.spec == w.cr.spec && v.rules == w.rules
  }

  predicate PassInv(s: State, calm: bool) { Inv(s) && PassFacts(s, calm) && Restful(s.w.rules, s.w.cr.spec) }

  /** What a call does to the work that is left. */
  ghost predicate CallFact(s: State, t: State, gained: bool, calm: bool)
    requires s.w.WellFormed() && t.w.WellFormed()
  {
    && SameSpec(t.w, s.w)
    && (SameWork(t.w, s.w) || LessWork(t.w, s.w))
    && (calm && t.pc == Idle(false) ==> LessWork(t.w, s.w) || Blocked(t.w) || gained)
    && (calm && t.pc == Idle(true) ==> Settled(t.w))
  }

  function Next(s: State): State
    requires s.w.WellFormed()
  {
    CallStep(s, Answer(s))
  }

  // The facts go on, call by call.

  lemma FetchFacts(s: State, calm: bool)
    requires PassInv(s, calm) && Next(s).w.WellFormed() && (s.pc.CreateMeta? || s.pc.LoadBroker? || s.pc.LoadCoordinator?)
    ensures PassFacts(Next(s), calm)
  {
  }

  lemma SetupFacts(s: State, calm: bool)
    requires PassInv(s, calm) && Next(s).w.WellFormed() && (s.pc.LoadStorage? || s.pc.ScaleUp? || s.pc.CheckBroker? || s.pc.CheckCoordinator?)
    ensures PassFacts(Next(s), calm)
  {
  }

  lemma RefreshFacts(s: State, calm: bool)
    requires PassInv(s, calm) && Next(s).w.WellFormed() && (s.pc.PatchMaster? || s.pc.ConfigCoordinators? || s.pc.CountEndpoints? || s.pc.SyncRegistry? || s.pc.FindCluster?)
    ensures PassFacts(Next(s), calm)
  {
  }

  lemma MetaFacts(s: State, calm: bool)
    requires PassInv(s, calm) && Next(s).w.WellFormed() && (s.pc.CreateCluster? || s.pc.ConfigCluster? || s.pc.GetInfo? || s.pc.CheckStable?)
    ensures PassFacts(Next(s), calm)
  {
  }

  lemma MigrationFacts(s: State, calm: bool)
    requires PassInv(s, calm) && Next(s).w.WellFormed() && (s.pc.ScaleNodes? || s.pc.RemoveFreeNodes?)
    ensures PassFacts(Next(s), calm)
  {
  }

  lemma DecideFacts(s: State, calm: bool)
    requires PassInv(s, calm) && Next(s).w.WellFormed() && s.pc.Decide?
    ensures PassFacts(Next(s), calm)
  {
  }

  lemma ShrinkFacts(s: State, calm: bool)
    requires PassInv(s, calm) && Next(s).w.WellFormed() && (s.pc.WriteWait? || s.pc.Shrink? || s.pc.WriteStable?)
    ensures PassFacts(Next(s), calm)
  {
  }

  lemma RollingFacts(s: State, calm: bool)
    requires PassInv(s, calm) && Next(s).w.WellFormed() && (s.pc.RollBroker? || s.pc.RollCoordinator? || s.pc.RollStorage?)
    ensures PassFacts(Next(s), calm)
  {
  }

  // And the work gets less, or the pass waits for the environment.

  lemma MetaMapProgress(s: State, gained: bool, calm: bool)
    requires PassInv(s, calm) && Next(s).w.WellFormed() && Excused(s, gained) && (s.pc.CreateMeta? || s.pc.ConfigCoordinators?)
    ensures CallFact(s, Next(s), gained, calm)
  {
  }

  lemma LoadBrokerProgress(s: State, gained: bool, calm: bool)
    requires PassInv(s, calm) && Next(s).w.WellFormed() && Excused(s, gained) && s.pc.LoadBroker?
    ensures CallFact(s, Next(s), gained, calm)
  {
  }

  lemma LoadCoordinatorProgress(s: State, gained: bool, calm: bool)
    requires PassInv(s, calm) && Next(s).w.WellFormed() && Excused(s, gained) && s.pc.LoadCoordinator?
    ensures CallFact(s, Next(s), gained, calm)
  {
  }

  lemma CheckBrokerProgress(s: State, gained: bool, calm: bool)
    requires PassInv(s, calm) && Next(s).w.WellFormed() && Excused(s, gained) && s.pc.CheckBroker?
    ensures CallFact(s, Next(s), gained, calm)
  {
  }

  lemma CheckCoordinatorProgress(s: State, gained: bool, calm: bool)
    requires PassInv(s, calm) && Next(s).w.WellFormed() && Excused(s, gained) && s.pc.CheckCoordinator?
    ensures CallFact(s, Next(s), gained, calm)
  {
  }

  lemma SizeProgress(s: State, gained: bool, calm: bool)
    requires PassInv(s, calm) && Next(s).w.WellFormed() && Excused(s, gained) && (s.pc.LoadStorage? || s.pc.ScaleUp?)
    ensures CallFact(s, Next(s), gained, calm)
  {
  }

  lemma RefreshProgress(s: State, gained: bool, calm: bool)
    requires PassInv(s, calm) && Next(s).w.WellFormed() && Excused(s, gained) && (s.pc.PatchMaster? || s.pc.CountEndpoints?)
    ensures CallFact(s, Next(s), gained, calm)
  {
  }

  lemma RegistryProgress(s: State, gained: bool, calm: bool)
    requires PassInv(s, calm) && Next(s).w.WellFormed() && Excused(s, gained) && (s.pc.SyncRegistry? || s.pc.FindCluster?)
    ensures CallFact(s, Next(s), gained, calm)
  {
  }

  lemma MetaProgress(s: State, gained: bool, calm: bool)
    requires PassInv(s, calm) && Next(s).w.WellFormed() && Excused(s, gained) && (s.pc.CreateCluster? || s.pc.ConfigCluster? || s.pc.GetInfo?)
    ensures CallFact(s, Next(s), gained, calm)
  {
  }

  lemma GateProgress(s: State, gained: bool, calm: bool)
    requires PassInv(s, calm) && Next(s).w.WellFormed() && Excused(s, gained) && s.pc.CheckStable?
    ensures CallFact(s, Next(s), gained, calm)
  {
  }

  lemma ScaleProgress(s: State, gained: bool, calm: bool)
    requires PassInv(s, calm) && Next(s).w.WellFormed() && Excused(s, gained) && s.pc.ScaleNodes?
    ensures CallFact(s, Next(s), gained, calm)
  {
  }

  lemma FreeProgress(s: State, gained: bool, calm: bool)
    requires PassInv(s, calm) && Next(s).w.WellFormed() && Excused(s, gained) && s.pc.RemoveFreeNodes?
    ensures CallFact(s, Next(s), gained, calm)
  {
  }

  lemma DecideProgress(s: State, gained: bool, calm: bool)
    requires PassInv(s, calm) && Next(s).w.WellFormed() && Excused(s, gained) && (s.pc.Decide? || s.pc.WriteWait?)
    ensures CallFact(s, Next(s), gained, calm)
  {
  }

  lemma ShrinkProgress(s: State, gained: bool, calm: bool)
    requires PassInv(s, calm) && Next(s).w.WellFormed() && Excused(s, gained) && (s.pc.Shrink? || s.pc.WriteStable?)
    ensures CallFact(s, Next(s), gained, calm)
  {
  }

  lemma BrokerProgress(s: State, gained: bool, calm: bool)
    requires PassInv(s, calm) && Next(s).w.WellFormed() && Excused(s, gained) && s.pc.RollBroker?
    ensures CallFact(s, Next(s), gained, calm)
  {
  }

  lemma CoordinatorProgress(s: State, gained: bool, calm: bool)
    requires PassInv(s, calm) && Next(s).w.WellFormed() && Excused(s, gained) && s.pc.RollCoordinator?
    ensures CallFact(s, Next(s), gained, calm)
  {
  }

  lemma StorageProgress(s: State, gained: bool, calm: bool)
    requires PassInv(s, calm) && Next(s).w.WellFormed() && s.pc.RollStorage?
    ensures CallFact(s, Next(s), gained, calm)
  {
    if Stable?(s) && |s.w.endpoints| >= s.w.Replicas() {
      GateIsSound(s);
      var all := Below(s.w.Replicas());
      assert s.w.endpoints <= all && s.w.pods <= all;
      SubsetSize(s.w.endpoints, all);
      assert s.w.pods == s.w.endpoints == all;
    }
  }

  /** A call touches neither pods nor endpoints nor what was reported last. */
  predicate Untouched(v: World, w: World)
    requires v.WellFormed() && w.WellFormed()
  {
    && v.pods == w.pods && v.endpoints == w.endpoints
    && (v.storage.Some? && w.storage.Some? ==> Reported(v) == Reported(w))
    && (v.broker.Some? && w.broker.Some? ==> Ready(v.broker) == Ready(w.broker) && Endpoints(v.broker) == Endpoints(w.broker))
    && (v.coordinator.Some? && w.coordinator.Some? ==> Ready(v.coordinator) == Ready(w.coordinator) && Endpoints(v.coordinator) == Endpoints(w.coordinator))
  }

  lemma RollTouches(s: State, calm: bool)
    requires PassInv(s, calm) && Next(s).w.WellFormed() && (s.pc.RollBroker? || s.pc.RollCoordinator? || s.pc.RollStorage?)
    ensures Untouched(Next(s).w, s.w)
  {
  }

  lemma WriteTouches(s: State, calm: bool)
    requires PassInv(s, calm) && Next(s).w.WellFormed() && (s.pc.ScaleUp? || s.pc.Shrink? || s.pc.LoadBroker? || s.pc.LoadCoordinator? || s.pc.LoadStorage?)
    ensures Untouched(Next(s).w, s.w)
  {
  }

  lemma CallTouches(s: State, calm: bool)
    requires PassInv(s, calm) && Next(s).w.WellFormed() && !s.pc.Idle?
    ensures Untouched(Next(s).w, s.w)
  {
    match s.pc
    case RollBroker | RollCoordinator | RollStorage => RollTouches(s, calm);
    case ScaleUp | Shrink | LoadBroker | LoadCoordinator | LoadStorage => WriteTouches(s, calm);
    case _ =>
  }

  lemma SameParts(v: World, w: World)
    requires SameWork(v, w) && SameSpec(v, w)
    ensures v.Replicas() == w.Replicas()
    ensures v.storage.Some? == w.storage.Some? && v.broker.Some? == w.broker.Some? && v.coordinator.Some? == w.coordinator.Some?
  {
  }

  lemma UntouchedKeepsDisorder(v: World, w: World)
    requires v.WellFormed() && w.WellFormed() && Untouched(v, w) && SameWork(v, w) && SameSpec(v, w)
    ensures Disorder(v) == Disorder(w)
  {
    SameParts(v, w);
    assert ServiceDisorder(v) == ServiceDisorder(w);
    assert PodDisorder(v) == PodDisorder(w);
  }

  lemma CallExcuses(s: State, gained: bool, calm: bool)
    requires PassInv(s, calm) && Excused(s, gained) && !s.pc.Idle?
    requires Next(s).w.WellFormed() && Next(s).w.endpoints == s.w.endpoints && SameSpec(Next(s).w, s.w)
    ensures Excused(Next(s), gained)
  {
  }

  lemma CallKeepsFacts(s: State, calm: bool)
    requires PassInv(s, calm) && Next(s).w.WellFormed() && !s.pc.Idle?
    ensures PassFacts(Next(s), calm)
  {
    match s.pc
    case CreateMeta | LoadBroker | LoadCoordinator => FetchFacts(s, calm);
    case LoadStorage | ScaleUp | CheckBroker | CheckCoordinator => SetupFacts(s, calm);
    case PatchMaster | ConfigCoordinators | CountEndpoints | SyncRegistry(_) | FindCluster(_) => RefreshFacts(s, calm);
    case CreateCluster(_) | ConfigCluster(_) | GetInfo(_) | CheckStable => MetaFacts(s, calm);
    case ScaleNodes | RemoveFreeNodes(_) => MigrationFacts(s, calm);
    case Decide => DecideFacts(s, calm);
    case WriteWait | Shrink | WriteStable => ShrinkFacts(s, calm);
    case RollBroker | RollCoordinator | RollStorage => RollingFacts(s, calm);
    case Idle(_) =>
  }

  lemma CallLowersWork(s: State, gained: bool, calm: bool)
    requires PassInv(s, calm) && Next(s).w.WellFormed() && Excused(s, gained) && !s.pc.Idle?
    ensures CallFact(s, Next(s), gained, calm)
  {
    match s.pc
    case CreateMeta | ConfigCoordinators => MetaMapProgress(s, gained, calm);
    case LoadBroker => LoadBrokerProgress(s, gained, calm);
    case LoadCoordinator => LoadCoordinatorProgress(s, gained, calm);
    case LoadStorage | ScaleUp => SizeProgress(s, gained, calm);
    case CheckBroker => CheckBrokerProgress(s, gained, calm);
    case CheckCoordinator => CheckCoordinatorProgress(s, gained, calm);
    case PatchMaster | CountEndpoints => RefreshProgress(s, gained, calm);
    case SyncRegistry(_) | FindCluster(_) => RegistryProgress(s, gained, calm);
    case CreateCluster(_) | ConfigCluster(_) | GetInfo(_) => MetaProgress(s, gained, calm);
    case CheckStable => GateProgress(s, gained, calm);
    case ScaleNodes => ScaleProgress(s, gained, calm);
    case RemoveFreeNodes(_) => FreeProgress(s, gained, calm);
    case Decide | WriteWait => DecideProgress(s, gained, calm);
    case Shrink | WriteStable => ShrinkProgress(s, gained, calm);
    case RollBroker => BrokerProgress(s, gained, calm);
    case RollCoordinator => CoordinatorProgress(s, gained, calm);
    case RollStorage => StorageProgress(s, gained, calm);
    case Idle(_) =>
  }

  lemma CallProgress(s: State, gained: bool, calm: bool)
    requires PassInv(s, calm) && Excused(s, gained) && !s.pc.Idle?
    ensures var t := Next(s); t.w.WellFormed() && PassInv(t, calm) && CallFact(s, t, gained, calm) && Excused(t, gained) && NoWorse(t.w, s.w)
  {
    CallWellFormed(s, Answer(s));
    CallKeepsInv(s, Answer(s));
    CallKeepsFacts(s, calm);
    CallLowersWork(s, gained, calm);
    CallTouches(s, calm);
    CallExcuses(s, gained, calm);
    CallKeepsDisorder(s, Next(s));
  }

  lemma CallKeepsDisorder(s: State, t: State)
    requires s.w.WellFormed() && t.w.WellFormed() && Untouched(t.w, s.w) && SameSpec(t.w, s.w) && (SameWork(t.w, s.w) || LessWork(t.w, s.w))
    ensures NoWorse(t.w, s.w)
  {
    if SameWork(t.w, s.w) { UntouchedKeepsDisorder(t.w, s.w); }
  }

  // ---------- The environment ----------

  predicate EnvAction(a: Action) { !a.Call? && !a.Restart? && !a.UserEdit? }

  function EnvRun(w: World, script: seq<Action>): (v: World)
    requires w.WellFormed()
    ensures v.WellFormed()
    decreases |script|
  {
    if script == [] then w
    else
      EnvWellFormed(w, script[0]);
      EnvRun(EnvStep(w, script[0]), script[1..])
  }

  /** What no environment action touches. */
  ghost predicate Framed(v: World, w: World)
  {
    && v.cr == w.cr && v.rules == w.rules && v.Replicas() == w.Replicas() && v.storage.Some? == w.storage.Some?
    && v.Target() == w.Target() && v.NodeNumber() == w.NodeNumber() && v.cluster.Some? == w.cluster.Some?
    && Missing(v) == Missing(w) && TemplatesLeft(v) == TemplatesLeft(w)
    && MigrationLeft(v) <= MigrationLeft(w) && (MigrationLeft(v) == MigrationLeft(w) ==> v.WithSlots() == w.WithSlots())
    && v.clock >= w.clock
  }

  lemma ReportFramed(w: World, a: Action)
    requires w.WellFormed() && (a.ReportStatus? || a.Serve?)
    ensures Framed(EnvStep(w, a), w)
  {
  }

  lemma MoveFramed(w: World, a: Action)
    requires w.WellFormed() && (a.Migrate? || a.Tick? || a.Elect?)
    ensures Framed(EnvStep(w, a), w)
  {
  }

  lemma EnvStepFramed(w: World, a: Action)
    requires w.WellFormed() && EnvAction(a)
    ensures Framed(EnvStep(w, a), w)
  {
    match a
    case ReportStatus(_) | Serve(_, _, _) => ReportFramed(w, a);
    case Migrate(_) | Tick(_) | Elect(_) => MoveFramed(w, a);
    case _ =>
  }

  lemma {:induction false} EnvRunFramed(w: World, script: seq<Action>)
    requires WorldInv(w)
    requires forall a :: a in script ==> EnvAction(a)
    ensures WorldInv(EnvRun(w, script)) && Framed(EnvRun(w, script), w)
    decreases |script|
  {
    if script != [] {
      assert EnvAction(script[0]);
      EnvKeepsWorldInv(w, script[0]);
      EnvStepFramed(w, script[0]);
      EnvRunFramed(EnvStep(w, script[0]), script[1..]);
    }
  }

  /** Environment actions never add work; moved slots and passed time lower it. */
  lemma EnvLowersWork(v: World, w: World)
    requires Framed(v, w)
    ensures SameWork(v, w) || LessWork(v, w)
    ensures MigrationLeft(v) < MigrationLeft(w) ==> LessWork(v, w)
    ensures MigrationLeft(w) == 0 && Waiting(w) && v.clock > w.clock ==> LessWork(v, w)
  {
  }

  // ---------- Between the calls of a pass ----------

  /** Slots move, time passes, wanted pods come and unwanted pods go. */
  predicate Quiet(w: World, a: Action)
  {
    match a
    case Migrate(_) => true
    case Tick(_) => true
    case Elect(_) => true
    case PodStart(i) => i < w.Replicas()
    case EndpointUp(i) => i < w.Replicas()
    case PodGone(i) => i >= w.Replicas()
    case EndpointDown(i) => i >= w.Replicas()
    case _ => false
  }

  lemma WantedPod(n: nat, pods: set<nat>, endpoints: set<nat>, i: nat)
    requires i < n
    ensures Astray(n, pods + {i}, endpoints) == Astray(n, pods, endpoints)
    ensures i !in endpoints ==> Astray(n, pods, endpoints + {i}) < Astray(n, pods, endpoints)
  {
    var all := Below(n);
    assert (pods + {i}) - all == pods - all;
    assert all - (endpoints + {i}) == (all - endpoints) - {i};
  }

  lemma UnwantedPod(n: nat, pods: set<nat>, endpoints: set<nat>, i: nat)
    requires i >= n
    ensures Astray(n, pods, endpoints - {i}) == Astray(n, pods, endpoints)
    ensures Astray(n, pods - {i}, endpoints - {i}) <= Astray(n, pods, endpoints)
    ensures i in pods ==> Astray(n, pods - {i}, endpoints - {i}) < Astray(n, pods, endpoints)
    ensures |endpoints - {i}| <= |endpoints|
  {
    var all := Below(n);
    assert all - (endpoints - {i}) == all - endpoints;
    assert (pods - {i}) - all == (pods - all) - {i};
    SubsetSize(endpoints - {i}, endpoints);
  }

  lemma QuietArrival(w: World, a: Action)
    requires w.WellFormed() && Quiet(w, a) && (a.PodStart? || a.EndpointUp?)
    ensures PodDisorder(EnvStep(w, a)) <= PodDisorder(w)
    ensures |EnvStep(w, a).endpoints| > |w.endpoints| ==> PodDisorder(EnvStep(w, a)) < PodDisorder(w)
  {
    var v := EnvStep(w, a);
    WantedPod(w.Replicas(), w.pods, w.endpoints, a.pod);
    if a.PodStart? {
      assert v.pods == w.pods + {a.pod} && v.endpoints == w.endpoints;
    } else {
      assert v.endpoints == w.endpoints || v.endpoints == w.endpoints + {a.pod};
      if a.pod in w.endpoints { assert w.endpoints + {a.pod} == w.endpoints; }
    }
  }

  lemma QuietDeparture(w: World, a: Action)
    requires w.WellFormed() && Quiet(w, a) && (a.PodGone? || a.EndpointDown?)
    ensures PodDisorder(EnvStep(w, a)) <= PodDisorder(w) && |EnvStep(w, a).endpoints| <= |w.endpoints|
  {
    UnwantedPod(w.Replicas(), w.pods, w.endpoints, a.pod);
  }

  lemma OthersLeavePods(w: World, a: Action)
    requires w.WellFormed() && (a.Migrate? || a.Tick? || a.Elect?)
    ensures var v := EnvStep(w, a); v.pods == w.pods && v.endpoints == w.endpoints && v.Replicas() == w.Replicas()
  {
  }

  lemma QuietPods(w: World, a: Action)
    requires w.WellFormed() && Quiet(w, a)
    ensures PodDisorder(EnvStep(w, a)) <= PodDisorder(w)
    ensures |EnvStep(w, a).endpoints| > |w.endpoints| ==> PodDisorder(EnvStep(w, a)) < PodDisorder(w)
  {
    if a.PodStart? || a.EndpointUp? {
      QuietArrival(w, a);
    } else if a.PodGone? || a.EndpointDown? {
      QuietDeparture(w, a);
    } else {
      OthersLeavePods(w, a);
    }
  }

  /** What is not about pods depends on the reports alone. */
  lemma SameReports(v: World, w: World)
    requires v.WellFormed() && w.WellFormed() && v.storage == w.storage && v.broker == w.broker && v.coordinator == w.coordinator
    ensures Disorder(v) - PodDisorder(v) == Disorder(w) - PodDisorder(w)
  {
  }

  lemma QuietReports(w: World, a: Action)
    requires w.WellFormed() && Quiet(w, a)
    ensures var v := EnvStep(w, a); v.storage == w.storage && v.broker == w.broker && v.coordinator == w.coordinator && v.cr == w.cr && v.rules == w.rules
    ensures Moving(EnvStep(w, a)) || MigrationLeft(EnvStep(w, a)) == 0
    ensures !Moving(w) ==> EnvStep(w, a).cluster == w.cluster
  {
  }

  lemma QuietIsNoWorse(w: World, a: Action)
    requires w.WellFormed() && Quiet(w, a)
    ensures var v := EnvStep(w, a); v.WellFormed() && NoWorse(v, w)
    ensures |EnvStep(w, a).endpoints| > |w.endpoints| || (Moving(w) && !Moving(EnvStep(w, a))) ==> Better(EnvStep(w, a), w)
  {
    var v := EnvStep(w, a);
    EnvWellFormed(w, a);
    EnvStepFramed(w, a);
    EnvLowersWork(v, w);
    QuietPods(w, a);
    QuietReports(w, a);
    SameReports(v, w);
  }

  lemma QuietKeepsFacts(s: State, a: Action, calm: bool)
    requires PassInv(s, calm) && Quiet(s.w, a)
    ensures var t := s.(w := EnvStep(s.w, a)); t.w.WellFormed() && PassFacts(t, calm) && Restful(t.w.rules, t.w.cr.spec)
  {
    EnvWellFormed(s.w, a);
    QuietReports(s.w, a);
  }

  /** Quiet actions, and reports that tell of nothing worse than was known. */
  predicate Harmless(w: World, a: Action)
    requires w.WellFormed()
  {
    Quiet(w, a) || ((a.ReportStatus? || a.Serve?) && EnvStep(w, a).WellFormed() && Disorder(EnvStep(w, a)) <= Disorder(w))
  }

  predicate AllHarmless(w: World, script: seq<Action>)
    requires w.WellFormed()
    decreases |script|
  {
    script == [] || (Harmless(w, script[0]) && EnvStep(w, script[0]).WellFormed() && AllHarmless(EnvStep(w, script[0]), script[1..]))
  }

  /** What a report leaves as it is. */
  lemma ReportLeaves(w: World, a: Action)
    requires w.WellFormed() && (a.ReportStatus? || a.Serve?)
    ensures var v := EnvStep(w, a); v.endpoints == w.endpoints && v.cluster == w.cluster && v.cr == w.cr && v.rules == w.rules && v.Replicas() == w.Replicas()
  {
  }

  lemma StatusKeepsFacts(s: State, a: Action)
    requires PassInv(s, false) && a.ReportStatus?
    ensures PassFacts(s.(w := EnvStep(s.w, a)), false)
  {
  }

  lemma ServeKeepsFacts(s: State, a: Action)
    requires PassInv(s, false) && a.Serve?
    ensures PassFacts(s.(w := EnvStep(s.w, a)), false)
  {
  }

  lemma ReportKeepsFacts(s: State, a: Action)
    requires PassInv(s, false) && (a.ReportStatus? || a.Serve?)
    ensures var t := s.(w := EnvStep(s.w, a)); t.w.WellFormed() && PassFacts(t, false)
  {
    EnvWellFormed(s.w, a);
    if a.Serve? { ServeKeepsFacts(s, a); } else { StatusKeepsFacts(s, a); }
  }

  lemma ReportIsNoWorse(w: World, a: Action)
    requires w.WellFormed() && Harmless(w, a) && (a.ReportStatus? || a.Serve?)
    ensures EnvStep(w, a).WellFormed() && NoWorse(EnvStep(w, a), w)
  {
    EnvStepFramed(w, a);
    EnvLowersWork(EnvStep(w, a), w);
  }

  /** One harmless action within a pass. */
  lemma HarmlessStep(s: State, start: World, a: Action, calm: bool)
    requires start.WellFormed() && PassInv(s, calm) && SameSpec(s.w, start) && NoWorse(s.w, start) && Excused(s, Better(s.w, start))
    requires Harmless(s.w, a) && (calm ==> Quiet(s.w, a))
    ensures var t := s.(w := EnvStep(s.w, a));
      t.w.WellFormed() && PassInv(t, calm) && SameSpec(t.w, start) && NoWorse(t.w, start) && Excused(t, Better(t.w, start))
  {
    var t := s.(w := EnvStep(s.w, a));
    EnvKeepsInv(s, a);
    if Quiet(s.w, a) {
      QuietKeepsFacts(s, a, calm);
      QuietReports(s.w, a);
      QuietIsNoWorse(s.w, a);
    } else {
      ReportKeepsFacts(s, a);
      ReportLeaves(s.w, a);
      ReportIsNoWorse(s.w, a);
    }
    NoWorseIsTransitive(t.w, s.w, start);
  }

  lemma StillQuiet(w: World, v: World, script: seq<Action>)
    requires v.Replicas() == w.Replicas() && script != [] && forall a :: a in script ==> Quiet(w, a)
    ensures forall a :: a in script[1..] ==> Quiet(v, a)
  {
    forall a | a in script[1..] ensures Quiet(v, a) {
      assert a in script;
    }
  }

  /** What the environment may do before a call: anything harmless, and in a calm pass only quiet things. */
  predicate Allowed(w: World, script: seq<Action>, calm: bool)
    requires w.WellFormed()
  {
    AllHarmless(w, script) && (calm ==> forall a :: a in script ==> Quiet(w, a))
  }

  lemma StillAllowed(w: World, script: seq<Action>, calm: bool)
    requires w.WellFormed() && script != [] && Allowed(w, script, calm)
    ensures Harmless(w, script[0]) && (calm ==> Quiet(w, script[0]))
    ensures EnvStep(w, script[0]).WellFormed() && Allowed(EnvStep(w, script[0]), script[1..], calm)
  {
    if calm {
      QuietReports(w, script[0]);
      StillQuiet(w, EnvStep(w, script[0]), script);
    }
  }

  lemma {:induction false} HarmlessRun(s: State, start: World, script: seq<Action>, calm: bool)
    requires start.WellFormed() && PassInv(s, calm) && SameSpec(s.w, start) && NoWorse(s.w, start) && Excused(s, Better(s.w, start))
    requires Allowed(s.w, script, calm)
    ensures var t := s.(w := EnvRun(s.w, script)); PassInv(t, calm) && SameSpec(t.w, start) && NoWorse(t.w, start) && Excused(t, Better(t.w, start))
    decreases |script|
  {
    if script != [] {
      StillAllowed(s.w, script, calm);
      HarmlessStep(s, start, script[0], calm);
      HarmlessRun(s.(w := EnvStep(s.w, script[0])), start, script[1..], calm);
    }
  }

  /** The clock advances, slots that are due to move do move, and disorder shrinks. */
  predicate Cooperative(w: World, script: seq<Action>)
    requires w.WellFormed()
  {
    && (forall a :: a in script ==> EnvAction(a))
    && var v := EnvRun(w, script);
    && v.clock >= w.clock + SECOND
    && (MigrationLeft(w) > 0 ==> MigrationLeft(v) < MigrationLeft(w))
    && (if Disorder(w) > 0 then Disorder(v) < Disorder(w) else Disorder(v) == 0)
  }

  /** What the environment does before the next call, in round k. */
  type Environment = (nat, State) -> seq<Action>

  /** Within a pass the environment is harmless, between passes it is cooperative. */
  ghost predicate Suits(env: Environment, k: nat, s: State)
  {
    WorldInv(s.w) ==> if s.pc.Idle? then Cooperative(s.w, env(k, s)) else AllHarmless(s.w, env(k, s))
  }

  ghost predicate AlwaysCooperative(env: Environment) { forall k: nat, s: State :: Suits(env, k, s) }

  ghost predicate CalmAt(env: Environment, k: nat, s: State)
  {
    WorldInv(s.w) && !s.pc.Idle? ==> forall a :: a in env(k, s) ==> Quiet(s.w, a)
  }

  /** No report comes in during the pass of round k. */
  ghost predicate CalmPass(env: Environment, k: nat) { forall s: State :: CalmAt(env, k, s) }

  ghost predicate CalmLater(env: Environment, k: nat) { exists m: nat :: k <= m && CalmPass(env, m) }

  /** However late, there is another pass during which no report comes in. */
  ghost predicate Fair(env: Environment) { forall k: nat :: CalmLater(env, k) }

  // ---------- One pass ----------

  function Interleaved(s: State, script: seq<Action>): (t: State)
    requires s.w.WellFormed()
    ensures t.w.WellFormed()
  {
    s.(w := EnvRun(s.w, script))
  }

  function Finish(s: State, env: Environment, k: nat): (t: State)
    requires s.w.WellFormed()
    ensures t.w.WellFormed() && t.pc.Idle?
    decreases CallsLeft(s.pc)
  {
    if s.pc.Idle? then s
    else
      var u := Interleaved(s, env(k, s));
      CallsRunOut(u, Answer(u));
      CallWellFormed(u, Answer(u));
      Finish(Next(u), env, k)
  }

  /** One whole pass, from the read of the custom resource on. */
  function Pass(s: State, env: Environment, k: nat): (t: State)
    requires s.w.WellFormed()
    ensures t.w.WellFormed() && t.pc.Idle?
  {
    Finish(StepFetch(s, Fetched(s.w.cr)), env, k)
  }

  /** What a pass comes to. */
  ghost predicate PassFact(start: World, t: State, calm: bool)
    requires start.WellFormed() && t.w.WellFormed()
  {
    && SameSpec(t.w, start) && NoWorse(t.w, start)
    && (calm && t.pc == Idle(false) ==> Better(t.w, start) || Blocked(t.w))
    && (calm && t.pc == Idle(true) ==> Settled(t.w))
  }

  lemma CallUpTo(u: State, start: World, calm: bool)
    requires start.WellFormed() && PassInv(u, calm) && SameSpec(u.w, start) && NoWorse(u.w, start) && Excused(u, Better(u.w, start)) && !u.pc.Idle?
    ensures var t := Next(u);
      t.w.WellFormed() && PassInv(t, calm) && PassFact(start, t, calm) && Excused(t, Better(t.w, start))
  {
    var t, gained := Next(u), Better(u.w, start);
    CallProgress(u, gained, calm);
    NoWorseIsTransitive(t.w, u.w, start);
  }

  lemma {:induction false} FinishProgress(s: State, start: World, env: Environment, k: nat, calm: bool)
    requires AlwaysCooperative(env) && (calm ==> CalmPass(env, k)) && start.WellFormed() && !s.pc.Idle?
    requires PassInv(s, calm) && SameSpec(s.w, start) && NoWorse(s.w, start) && Excused(s, Better(s.w, start))
    ensures var t := Finish(s, env, k); Inv(t) && PassFact(start, t, calm)
    decreases CallsLeft(s.pc)
  {
    var script := env(k, s);
    var u := Interleaved(s, script);
    assert Suits(env, k, s);
    assert calm ==> CalmAt(env, k, s);
    HarmlessRun(s, start, script, calm);
    CallsRunOut(u, Answer(u));
    CallUpTo(u, start, calm);
    if !Next(u).pc.Idle? { FinishProgress(Next(u), start, env, k, calm); }
  }

  lemma StartsPass(s: State, calm: bool)
    requires s.pc.Idle? && Inv(s) && Restful(s.w.rules, s.w.cr.spec)
    ensures var t := StepFetch(s, Fetched(s.w.cr)); t.w == s.w && !t.pc.Idle? && PassInv(t, calm) && Excused(t, false)
  {
    CallKeepsInv(s, Fetched(s.w.cr));
  }

  /** No pass sets things back; a calm one brings them forward, or waits for the environment, or is done. */
  lemma PassProgress(s: State, env: Environment, k: nat, calm: bool)
    requires s.pc.Idle? && Inv(s) && AlwaysCooperative(env) && Restful(s.w.rules, s.w.cr.spec) && (calm ==> CalmPass(env, k))
    ensures Inv(Pass(s, env, k)) && PassFact(s.w, Pass(s, env, k), calm)
  {
    StartsPass(s, calm);
    FinishProgress(StepFetch(s, Fetched(s.w.cr)), s.w, env, k, calm);
  }

  // ---------- Rounds ----------

  /** A stretch of a cooperative environment sets nothing back, and after a calm pass that is not
      done it makes things better. */
  lemma RoundProgress(start: World, t: State, script: seq<Action>, calm: bool)
    requires start.WellFormed() && WorldInv(t.w) && PassFact(start, t, calm) && Cooperative(t.w, script)
    ensures var v := EnvRun(t.w, script); WorldInv(v) && NoWorse(v, start) && SameSpec(v, start)
    ensures calm && t.pc == Idle(false) ==> Better(EnvRun(t.w, script), start)
  {
    var v := EnvRun(t.w, script);
    EnvRunFramed(t.w, script);
    EnvLowersWork(v, t.w);
    if Unready(t.w) { UnreadyIsDisorder(t.w); }
    assert NoWorse(v, t.w);
    NoWorseIsTransitive(v, t.w, start);
  }

  /** A pass of the operator, then a stretch of the environment. */
  function Round(s: State, env: Environment, k: nat): State
    requires s.w.WellFormed()
  {
    var t := Pass(s, env, k);
    Interleaved(t, env(k, t))
  }

  ghost function Rounds(s: State, env: Environment, k: nat, n: nat): (t: State)
    requires s.pc.Idle? && s.w.WellFormed()
    ensures t.pc.Idle? && t.w.WellFormed()
    decreases n
  {
    if n == 0 then s else Rounds(Round(s, env, k), env, k + 1, n - 1)
  }

  /** The n-th pass from here returns without requeue and leaves the cluster as the spec wants it. */
  ghost predicate SettlesAfter(s: State, env: Environment, k: nat, n: nat)
    requires s.pc.Idle? && s.w.WellFormed()
  {
    var t := Pass(Rounds(s, env, k, n), env, k + n);
    t.pc == Idle(true) && Settled(t.w) && SameSpec(t.w, s.w)
  }

  lemma LaterSettles(s: State, env: Environment, k: nat, n: nat)
    requires s.pc.Idle? && s.w.WellFormed() && SameSpec(Round(s, env, k).w, s.w)
    requires SettlesAfter(Round(s, env, k), env, k + 1, n)
    ensures SettlesAfter(s, env, k, n + 1)
  {
    assert Rounds(s, env, k, n + 1) == Rounds(Round(s, env, k), env, k + 1, n);
    assert k + (n + 1) == (k + 1) + n;
  }

  /** A pass and the stretch after it. */
  lemma PassAndRest(s: State, env: Environment, k: nat, t: State, calm: bool)
    requires s.pc.Idle? && Inv(s) && AlwaysCooperative(env) && Restful(s.w.rules, s.w.cr.spec) && (calm ==> CalmPass(env, k)) && t == Pass(s, env, k)
    ensures WorldInv(t.w) && t.pc.Idle? && PassFact(s.w, t, calm)
    ensures var v := EnvRun(t.w, env(k, t)); WorldInv(v) && NoWorse(v, s.w) && SameSpec(v, s.w)
    ensures calm && t.pc == Idle(false) ==> Better(EnvRun(t.w, env(k, t)), s.w)
  {
    PassProgress(s, env, k, calm);
    assert Suits(env, k, t);
    RoundProgress(s.w, t, env(k, t), calm);
  }

  lemma RoundIsNoWorse(s: State, env: Environment, k: nat)
    requires s.pc.Idle? && Inv(s) && AlwaysCooperative(env) && Restful(s.w.rules, s.w.cr.spec)
    ensures var u := Round(s, env, k); u.pc.Idle? && Inv(u) && NoWorse(u.w, s.w) && SameSpec(u.w, s.w)
  {
    PassAndRest(s, env, k, Pass(s, env, k), false);
  }

  lemma RoundIsBetter(s: State, env: Environment, k: nat)
    requires s.pc.Idle? && Inv(s) && AlwaysCooperative(env) && Restful(s.w.rules, s.w.cr.spec) && CalmPass(env, k)
    ensures SettlesAfter(s, env, k, 0) || Better(Round(s, env, k).w, s.w)
  {
    PassAndRest(s, env, k, Pass(s, env, k), true);
    assert Rounds(s, env, k, 0) == s;
  }

  /** The rounds up to the next calm pass, in round m, set nothing back, and that one helps. */
  lemma {:induction false} ConvergesFrom(s: State, env: Environment, k: nat, m: nat)
    requires s.pc.Idle? && Inv(s) && AlwaysCooperative(env) && Fair(env) && Restful(s.w.rules, s.w.cr.spec)
    requires k <= m && CalmPass(env, m)
    ensures exists n: nat :: SettlesAfter(s, env, k, n)
    decreases Missing(s.w), PodsToAdd(s.w), ClusterMissing(s.w), TargetWrong(s.w), MigrationLeft(s.w), NodesWrong(s.w),
      PodsToRemove(s.w), WaitLeft(s.w), TemplatesLeft(s.w), Disorder(s.w), m - k
  {
    var u := Round(s, env, k);
    RoundIsNoWorse(s, env, k);
    if k < m {
      ConvergesFrom(u, env, k + 1, m);
    } else if !SettlesAfter(s, env, k, 0) {
      RoundIsBetter(s, env, k);
      assert CalmLater(env, k + 1);
      var next: nat :| k + 1 <= next && CalmPass(env, next);
      ConvergesFrom(u, env, k + 1, next);
    }
    if !SettlesAfter(s, env, k, 0) {
      var n: nat :| SettlesAfter(u, env, k + 1, n);
      LaterSettles(s, env, k, n);
    }
  }

  /** From every state the protocol can be in, under every cooperative and fair environment, some
      pass returns without requeue, and then the cluster is exactly what the custom resource asks
      for: provided the spec finds its own templates current. */
  lemma Converges(s: State, env: Environment, k: nat)
    requires s.pc.Idle? && Inv(s) && AlwaysCooperative(env) && Fair(env) && Restful(s.w.rules, s.w.cr.spec)
    ensures exists n: nat :: SettlesAfter(s, env, k, n)
  {
    assert CalmLater(env, k);
    var m: nat :| k <= m && CalmPass(env, m);
    ConvergesFrom(s, env, k, m);
  }

  /** A settled cluster is one with nothing left to do and no disorder. */
  predicate NothingLeft(w: World)
    requires w.WellFormed()
  {
    && Disorder(w) == 0
    && Missing(w) == PodsToAdd(w) == ClusterMissing(w) == TargetWrong(w) == MigrationLeft(w) == NodesWrong(w) == PodsToRemove(w) == WaitLeft(w) == TemplatesLeft(w) == 0
  }

  lemma SettledExactly(w: World)
    requires WorldInv(w)
    ensures Settled(w) <==> NothingLeft(w)
  {
    if Settled(w) { SettledHasNothingLeft(w); }
    if NothingLeft(w) {
      assert |Below(w.Replicas()) - w.endpoints| == |w.pods - Below(w.Replicas())| == 0;
      assert w.pods == w.endpoints == Below(w.Replicas());
    }
  }

  lemma NoWorseStaysSettled(v: World, w: World)
    requires WorldInv(v) && WorldInv(w) && NoWorse(v, w) && Settled(w)
    ensures Settled(v)
  {
    SettledExactly(v);
    SettledExactly(w);
  }

  lemma SettledIsDone(w: World, t: State)
    requires WorldInv(w) && WorldInv(t.w) && Settled(w) && PassFact(w, t, true) && t.pc.Idle?
    ensures t.pc == Idle(true)
  {
    SettledExactly(w);
    NoWorseStaysSettled(t.w, w);
    SettledExactly(t.w);
    if Unready(t.w) { UnreadyIsDisorder(t.w); }
  }

  /** A settled cluster stays settled, whatever reports come in; and a pass without any is done again. */
  lemma SettledStays(s: State, env: Environment, k: nat)
    requires s.pc.Idle? && Inv(s) && Settled(s.w) && AlwaysCooperative(env) && Restful(s.w.rules, s.w.cr.spec)
    ensures Settled(Pass(s, env, k).w) && Settled(Round(s, env, k).w)
    ensures CalmPass(env, k) ==> Pass(s, env, k).pc == Idle(true)
  {
    var t := Pass(s, env, k);
    PassAndRest(s, env, k, t, false);
    NoWorseStaysSettled(t.w, s.w);
    NoWorseStaysSettled(EnvRun(t.w, env(k, t)), s.w);
    if CalmPass(env, k) {
      PassAndRest(s, env, k, t, true);
      SettledIsDone(s.w, t);
    }
  }

  // ---------- Exactly when ----------

  /** A cluster can only be settled under a spec that finds its own templates current. */
  lemma SettledRests(w: World)
    requires w.WellFormed() && Settled(w) && Coherent(w.rules)
    ensures Restful(w.rules, w.cr.spec)
  {
    assert !w.rules.changed(BrokerPart, w.cr.spec, w.broker.value.template);
    assert !w.rules.changed(CoordinatorPart, w.cr.spec, w.coordinator.value.template);
    assert !w.rules.changed(StoragePart, w.cr.spec, w.storage.value.template);
  }

  lemma ConvergesExactly(s: State, env: Environment, k: nat)
    requires s.pc.Idle? && Inv(s) && AlwaysCooperative(env) && Fair(env) && Coherent(s.w.rules)
    ensures (exists n: nat :: SettlesAfter(s, env, k, n)) <==> Restful(s.w.rules, s.w.cr.spec)
  {
    if Restful(s.w.rules, s.w.cr.spec) { Converges(s, env, k); }
    forall n: nat | SettlesAfter(s, env, k, n) ensures Restful(s.w.rules, s.w.cr.spec) {
      SettledRests(Pass(Rounds(s, env, k, n), env, k + n).w);
    }
  }

  /** With the operator's own templates: the cluster settles under every cooperative environment, or
      under none, and it does exactly when no environment variable list of the spec contradicts itself. */
  lemma OperatorConvergesExactly(s: State, env: Environment, k: nat, metaNamespace: string)
    requires s.pc.Idle? && Inv(s) && AlwaysCooperative(env) && Fair(env) && s.w.rules == OperatorRules(metaNamespace)
    ensures (exists n: nat :: SettlesAfter(s, env, k, n)) <==> ListsConsistent(s.w.cr.spec)
  {
    OperatorRulesAreCoherent(metaNamespace);
    OperatorRulesRest(s.w.cr.spec, metaNamespace);
    ConvergesExactly(s, env, k);
  }

  /** And then all three components run what the spec asks for. */
  lemma SettledRunsTheSpec(w: World, metaNamespace: string)
    requires w.WellFormed() && Settled(w) && w.rules == OperatorRules(metaNamespace)
    ensures BrokerDeployed(w.cr.spec, w.broker.value.template) && CoordinatorDeployed(w.cr.spec, w.coordinator.value.template) && StorageDeployed(w.cr.spec, w.storage.value.template)
  {
    assert !BrokerStale(w) && !CoordinatorStale(w) && !StorageStale(w);
    CurrentIsDeployed(w.cr.spec, w.broker.value.template, w.coordinator.value.template, w.storage.value.template, metaNamespace);
  }
}
