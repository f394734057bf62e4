/**
 Slot safety: whatever the environment does between any two calls of a pass, the nodes that
 hold slots, and the nodes slots are being sent to, never outnumber the nodes of the pods the
 storage StatefulSet keeps.

 The pass reads the custom resource twice (the reply of the status patch refreshes it), so the
 scale-up at the start of the pass does not cover the chunk number used later. What does is the
 readiness gate, and the gate can be trusted because a write of the StatefulSet is accepted only
 against its newest version: a shrinking write leaves a last report that matches the old size.
 */
module SlotSafety {
  import opened Common
  import opened Scaling

  // ---------- What always holds outside the operator ----------

  predicate SlotsFit(w: World)
  {
    w.Target() <= CHUNK_SHARD_NUMBER * w.Replicas() && w.WithSlots() <= CHUNK_SHARD_NUMBER * w.Replicas()
  }

  predicate PodsBelow(w: World, n: nat)
  {
    forall i :: i in w.pods ==> i < n
  }

  /** A report that counts as many wanted pods as pods leaves no pod above the sizes since. */
  predicate ReportBounds(w: World, r: SetStatus)
  {
    r.replicas == r.current ==> PodsBelow(w, Max(w.Replicas(), r.replicas))
  }

  predicate ReportsBound(w: World)
  {
    w.storage.Some? ==> forall k :: 0 <= k < |w.storage.value.reports| ==> ReportBounds(w, w.storage.value.reports[k])
  }

  predicate WorldInv(w: World)
  {
    && w.WellFormed()
    && SlotsFit(w)
    && w.endpoints <= w.pods
    && (w.cluster.None? ==> PodsBelow(w, w.Replicas()))
    && (w.storage.None? ==> w.cluster.None?)
    && ReportsBound(w)
  }

  // ---------- What a pass knows at each of its calls ----------

  predicate HasBroker(pc: Pc) { !pc.Idle? && !pc.CreateMeta? && !pc.LoadBroker? }

  predicate HasCoordinator(pc: Pc) { HasBroker(pc) && !pc.LoadCoordinator? }

  predicate HasStorage(pc: Pc) { HasCoordinator(pc) && !pc.LoadStorage? }

  /** The guard of createStorage has been passed; the copy of the custom resource is the one it saw. */
  predicate Guarded(pc: Pc) { pc.CheckBroker? || pc.CheckCoordinator? || pc.PatchMaster? }

  predicate Patched(pc: Pc) { HasStorage(pc) && !pc.ScaleUp? && !Guarded(pc) }

  predicate CountedEndpoints(pc: Pc) { Patched(pc) && !pc.ConfigCoordinators? && !pc.CountEndpoints? }

  predicate BeforeGate(pc: Pc)
  {
    pc == SyncRegistry(false) || pc == FindCluster(false) || pc == CreateCluster(false) || pc == ConfigCluster(false)
    || pc == GetInfo(false) || pc.CheckStable?
  }

  predicate PastGate(pc: Pc) { CountedEndpoints(pc) && !BeforeGate(pc) }

  predicate PastMigration(pc: Pc) { PastGate(pc) && !pc.ScaleNodes? && pc != RemoveFreeNodes(true) }

  predicate PastCount(pc: Pc) { PastMigration(pc) && !pc.RemoveFreeNodes? && !pc.SyncRegistry? && !pc.FindCluster? && !pc.CreateCluster? && !pc.ConfigCluster? && !pc.GetInfo? }

  predicate Sized(pc: Pc)
  {
    pc.WriteStable? || pc.RollBroker? || pc.RollCoordinator? || pc.RollStorage?
  }

  predicate CopyInv(s: State)
  {
    && s.w.storage.Some?
    && s.l.storage.replicas == s.w.storage.value.replicas
    && s.l.storage.template == s.w.storage.value.template
    && s.l.storage.revision < |s.w.storage.value.reports|
    && s.l.storage.status == s.w.storage.value.reports[s.l.storage.revision]
  }

  /** The copy of the custom resource is one of its versions, and its status is current once
      the patch has refreshed it: only the operator writes the status. */
  predicate ResourceInv(s: State)
  {
    && s.l.cr.version <= s.w.cr.version
    && (s.l.cr.version == s.w.cr.version ==> s.l.cr == s.w.cr)
    && (Patched(s.pc) ==> s.l.cr.status == s.w.cr.status)
  }

  predicate Waited(status: ScaleStatus, now: nat)
  {
    status.state == ScaleDownWait && status.since + SCALE_DOWN_WAIT_TIME <= now
  }

  predicate LocalInv(s: State)
  {
    var shards := Shards(s.l.cr.chunk);
    && (!s.pc.Idle? ==> ResourceInv(s))
    && (HasStorage(s.pc) ==> CopyInv(s))
    && (s.pc.ScaleUp? ==> shards > s.w.Replicas())
    && (Guarded(s.pc) ==> shards <= s.w.Replicas())
    && (CountedEndpoints(s.pc) && s.w.cluster.None? && s.l.allReady ==> shards <= s.w.Replicas())
    && (s.pc.CreateCluster? || s.pc.FindCluster? ==> s.l.allReady)
    && (s.pc.ConfigCluster? || s.pc.GetInfo? || s.pc.CheckStable? || PastGate(s.pc) ==> s.w.cluster.Some?)
    && (PastGate(s.pc) ==> shards <= s.w.Replicas())
    && (PastGate(s.pc) && !Sized(s.pc) ==> s.l.storage.status == SetStatus(s.w.Replicas(), s.w.Replicas()))
    && (PastMigration(s.pc) ==> s.w.Target() == Nodes(s.l.cr.chunk))
    && (PastCount(s.pc) && s.l.info.withSlots == Nodes(s.l.cr.chunk) ==> s.w.WithSlots() == Nodes(s.l.cr.chunk))
    && (PastCount(s.pc) && !s.pc.Decide? ==> s.l.info.withSlots == Nodes(s.l.cr.chunk))
    && (Sized(s.pc) ==> s.w.Replicas() == shards)
    && (s.pc.Shrink? ==> s.w.Replicas() != shards && Waited(s.l.cr.status, s.w.clock))
  }

  predicate Inv(s: State) { WorldInv(s.w) && LocalInv(s) }

  // ---------- Every step keeps it ----------

  lemma EnvKeepsWorldInv(w: World, a: Action)
    requires WorldInv(w) && !a.Call? && !a.Restart?
    ensures WorldInv(EnvStep(w, a))
  {
    if a.ReportStatus? && EnvStep(w, a) != w {
      ReportIsSound(w, a.current);
    }
  }

  lemma EnvKeepsInv(s: State, a: Action)
    requires Inv(s) && !a.Call? && !a.Restart?
    ensures Inv(s.(w := EnvStep(s.w, a)))
  {
    EnvKeepsWorldInv(s.w, a);
    EnvKeepsLocalInv(s, a);
  }

  lemma EditKeepsLocalInv(s: State, a: Action)
    requires Inv(s) && a.UserEdit?
    ensures LocalInv(s.(w := EnvStep(s.w, a)))
  {
  }

  lemma ReportKeepsLocalInv(s: State, a: Action)
    requires Inv(s) && a.ReportStatus?
    ensures LocalInv(s.(w := EnvStep(s.w, a)))
  {
  }

  lemma ServeKeepsLocalInv(s: State, a: Action)
    requires Inv(s) && a.Serve?
    ensures LocalInv(s.(w := EnvStep(s.w, a)))
  {
  }

  lemma EnvKeepsLocalInv(s: State, a: Action)
    requires Inv(s) && !a.Call? && !a.Restart?
    ensures LocalInv(s.(w := EnvStep(s.w, a)))
  {
    match a
    case UserEdit(_, _) => EditKeepsLocalInv(s, a);
    case ReportStatus(_) => ReportKeepsLocalInv(s, a);
    case Serve(_, _, _) => ServeKeepsLocalInv(s, a);
    case _ =>
  }

  /** A new report: all wanted pods exist and no other pod does, if both counts agree. */
  lemma ReportIsSound(w: World, current: nat)
    requires w.storage.Some? && current <= |w.pods * Below(w.Replicas())|
    ensures ReportBounds(w, SetStatus(|w.pods|, current))
  {
    if |w.pods| == current {
      SubsetSize(w.pods * Below(w.Replicas()), w.pods);
      assert w.pods * Below(w.Replicas()) == w.pods;
      forall i | i in w.pods ensures i < w.Replicas() {
        assert i in w.pods * Below(w.Replicas());
      }
    }
  }

  /** Storing a size under the version check. */
  lemma StoreKeepsWorldInv(w: World, n: nat)
    requires WorldInv(w) && w.storage.Some?
    requires n >= w.Replicas() || (w.cluster.Some? && w.Target() <= CHUNK_SHARD_NUMBER * n && w.WithSlots() <= CHUNK_SHARD_NUMBER * n
                                   && var r := w.storage.value.reports; r[|r| - 1].replicas == w.Replicas())
    ensures WorldInv(StoreReplicas(w, n))
  {
    var v := StoreReplicas(w, n);
    var r := w.storage.value.reports;
    var last := r[|r| - 1];
    assert ReportBounds(w, last);
    assert v.storage.value.reports == [last];
    assert ReportBounds(v, last);
  }

  /** The gate: enough endpoints and a report that equals the size bound the chunk number. */
  lemma GateIsSound(s: State)
    requires WorldInv(s.w) && CopyInv(s) && Stable?(s)
    ensures PodsBelow(s.w, s.w.Replicas())
    ensures 2 * s.l.cr.chunk <= s.w.Replicas()
  {
    assert ReportBounds(s.w, s.w.storage.value.reports[s.l.storage.revision]);
    EndpointsFit(s.w);
  }

  lemma EndpointsFit(w: World)
    requires w.endpoints <= w.pods && PodsBelow(w, w.Replicas())
    ensures |w.endpoints| <= w.Replicas()
  {
    assert w.endpoints <= Below(w.Replicas());
    SubsetSize(w.endpoints, Below(w.Replicas()));
  }

  lemma WriteKeepsInv(s: State, reply: Reply)
    requires Inv(s) && (s.pc.ScaleUp? || s.pc.Shrink?)
    ensures Inv(CallStep(s, reply))
  {
    if Newest(s) {
      StoreKeepsWorldInv(s.w, Shards(s.l.cr.chunk));
    }
  }

  lemma FetchKeepsInv(s: State, reply: Reply)
    requires Inv(s) && (s.pc.Idle? || s.pc.CreateMeta?)
    ensures Inv(CallStep(s, reply))
  {
  }

  lemma LoadBrokerKeepsInv(s: State, reply: Reply)
    requires Inv(s) && s.pc.LoadBroker?
    ensures Inv(CallStep(s, reply))
  {
  }

  lemma LoadCoordinatorKeepsInv(s: State, reply: Reply)
    requires Inv(s) && s.pc.LoadCoordinator?
    ensures Inv(CallStep(s, reply))
  {
  }

  lemma LoadStorageKeepsInv(s: State, reply: Reply)
    requires Inv(s) && s.pc.LoadStorage?
    ensures Inv(CallStep(s, reply))
  {
  }

  lemma CheckKeepsInv(s: State, reply: Reply)
    requires Inv(s) && (s.pc.CheckBroker? || s.pc.CheckCoordinator?)
    ensures Inv(CallStep(s, reply))
  {
  }

  lemma PatchKeepsInv(s: State, reply: Reply)
    requires Inv(s) && s.pc.PatchMaster?
    ensures Inv(CallStep(s, reply))
  {
  }

  lemma CountKeepsInv(s: State, reply: Reply)
    requires Inv(s) && (s.pc.ConfigCoordinators? || s.pc.CountEndpoints?)
    ensures Inv(CallStep(s, reply))
  {
    if s.pc.CountEndpoints? && s.w.cluster.None? { EndpointsFit(s.w); }
  }

  lemma FindKeepsInv(s: State, reply: Reply)
    requires Inv(s) && (s.pc.SyncRegistry? || s.pc.FindCluster?)
    ensures Inv(CallStep(s, reply))
  {
  }

  lemma CreateKeepsInv(s: State, reply: Reply)
    requires Inv(s) && s.pc.CreateCluster?
    ensures Inv(CallStep(s, reply))
  {
  }

  lemma ConfigKeepsInv(s: State, reply: Reply)
    requires Inv(s) && s.pc.ConfigCluster?
    ensures Inv(CallStep(s, reply))
  {
  }

  lemma InfoKeepsInv(s: State, reply: Reply)
    requires Inv(s) && s.pc.GetInfo?
    ensures Inv(CallStep(s, reply))
  {
  }

  lemma GateKeepsInv(s: State, reply: Reply)
    requires Inv(s) && s.pc.CheckStable?
    ensures Inv(CallStep(s, reply))
  {
    if Stable?(s) { GateIsSound(s); }
  }

  lemma ScaleKeepsInv(s: State, reply: Reply)
    requires Inv(s) && s.pc.ScaleNodes?
    ensures Inv(CallStep(s, reply))
  {
  }

  lemma FreeKeepsInv(s: State, reply: Reply)
    requires Inv(s) && s.pc.RemoveFreeNodes?
    ensures Inv(CallStep(s, reply))
  {
  }

  lemma DecideKeepsInv(s: State, reply: Reply)
    requires Inv(s) && s.pc.Decide?
    ensures Inv(CallStep(s, reply))
  {
  }

  lemma WaitKeepsInv(s: State, reply: Reply)
    requires Inv(s) && s.pc.WriteWait?
    ensures Inv(CallStep(s, reply))
  {
  }

  lemma StableKeepsInv(s: State, reply: Reply)
    requires Inv(s) && s.pc.WriteStable?
    ensures Inv(CallStep(s, reply))
  {
  }

  lemma RollKeepsInv(s: State, reply: Reply)
    requires Inv(s) && (s.pc.RollBroker? || s.pc.RollCoordinator?)
    ensures Inv(CallStep(s, reply))
  {
  }

  lemma RollStorageKeepsInv(s: State, reply: Reply)
    requires Inv(s) && s.pc.RollStorage?
    ensures Inv(CallStep(s, reply))
  {
    if Newest(s) { StoreKeepsWorldInv(s.w, Shards(s.l.cr.chunk)); }
  }

  lemma CallKeepsInv(s: State, reply: Reply)
    requires Inv(s)
    ensures Inv(CallStep(s, reply))
  {
    match s.pc
    case ScaleUp | Shrink => WriteKeepsInv(s, reply);
    case PatchMaster => PatchKeepsInv(s, reply);
    case ConfigCoordinators | CountEndpoints => CountKeepsInv(s, reply);
    case SyncRegistry(_) | FindCluster(_) => FindKeepsInv(s, reply);
    case CreateCluster(_) => CreateKeepsInv(s, reply);
    case ConfigCluster(_) => ConfigKeepsInv(s, reply);
    case GetInfo(_) => InfoKeepsInv(s, reply);
    case CheckStable => GateKeepsInv(s, reply);
    case ScaleNodes => ScaleKeepsInv(s, reply);
    case RemoveFreeNodes(_) => FreeKeepsInv(s, reply);
    case Decide => DecideKeepsInv(s, reply);
    case WriteWait => WaitKeepsInv(s, reply);
    case WriteStable => StableKeepsInv(s, reply);
    case RollBroker | RollCoordinator => RollKeepsInv(s, reply);
    case RollStorage => RollStorageKeepsInv(s, reply);
    case LoadBroker => LoadBrokerKeepsInv(s, reply);
    case LoadCoordinator => LoadCoordinatorKeepsInv(s, reply);
    case LoadStorage => LoadStorageKeepsInv(s, reply);
    case CheckBroker | CheckCoordinator => CheckKeepsInv(s, reply);
    case _ => FetchKeepsInv(s, reply);
  }

  lemma StepKeepsInv(s: State, a: Action)
    requires Inv(s)
    ensures Inv(Step(s, a))
  {
    if a.Call? {
      CallKeepsInv(s, a.reply);
    } else if !a.Restart? {
      EnvKeepsInv(s, a);
    }
  }

  // ---------- Main results ----------

  lemma {:induction false} RunKeepsInv(s: State, run: seq<Action>)
    requires Initial(s)
    ensures Inv(Exec(s, run))
    decreases |run|
  {
    if run != [] {
      var k := |run| - 1;
      RunKeepsInv(s, run[..k]);
      StepKeepsInv(Exec(s, run[..k]), run[k]);
    }
  }

  /** Slot safety over every run. */
  lemma SlotSafety(s: State, run: seq<Action>)
    requires Initial(s)
    ensures var w := Exec(s, run).w;
      w.Target() <= 2 * w.Replicas() && w.WithSlots() <= 2 * w.Replicas()
  {
    RunKeepsInv(s, run);
  }

  predicate LowersReplicas(s: State, a: Action)
    requires s.w.WellFormed()
  {
    Step(s, a).w.Replicas() < s.w.Replicas()
  }

  lemma OnlyWritesLower(s: State, a: Action)
    requires s.w.WellFormed() && LowersReplicas(s, a)
    ensures a.Call? && (s.pc.ScaleUp? || s.pc.Shrink? || s.pc.RollStorage?)
  {
  }

  lemma OnlyShrinkLowers(s: State, reply: Reply)
    requires Inv(s) && LowersReplicas(s, Call(reply)) && (s.pc.ScaleUp? || s.pc.Shrink? || s.pc.RollStorage?)
    ensures s.pc.Shrink? && Step(s, Call(reply)).w.Replicas() == Shards(s.l.cr.chunk)
  {
  }

  /** Replicas only fall in scaleDownStorageStatefulSet, to exactly the size the pass asked for,
      when migration has finished: slots are on that many pods and are sent nowhere else. */
  lemma ReplicasFallOnlyInScaleDown(s: State, run: seq<Action>, a: Action)
    requires Initial(s)
    requires var t := Exec(s, run); LowersReplicas(t, a)
    ensures var t := Exec(s, run); var n := Step(t, a).w.Replicas();
      && t.pc.Shrink? && n == 2 * t.l.cr.chunk
      && t.w.Target() == t.w.WithSlots() == 2 * n
  {
    var t := Exec(s, run);
    RunKeepsInv(s, run);
    OnlyWritesLower(t, a);
    OnlyShrinkLowers(t, a.reply);
  }

  /** The rolling update of the storage writes a whole new Spec and never changes the size. */
  lemma RollingUpdateKeepsReplicas(s: State, run: seq<Action>, reply: Reply)
    requires Initial(s)
    requires Exec(s, run).pc.RollStorage?
    ensures Exec(s, run).w.Replicas() == 2 * Exec(s, run).l.cr.chunk
    ensures Step(Exec(s, run), Call(reply)).w.Replicas() == Exec(s, run).w.Replicas()
  {
    RunKeepsInv(s, run);
  }

  /** When the second synchronisation cuts the registry down to the addresses of the spec, the
      broker's target is two nodes for each of just these addresses, and their pods are wanted. */
  lemma RegistryCutFitsTarget(s: State, run: seq<Action>)
    requires Initial(s)
    requires Exec(s, run).pc == SyncRegistry(true)
    ensures var t := Exec(s, run); t.w.Target() == 4 * t.l.cr.chunk && 2 * t.l.cr.chunk <= t.w.Replicas()
  {
    RunKeepsInv(s, run);
  }
}
