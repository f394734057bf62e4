/**
 The operator's own code, in its own form: methods that read and write the custom resource
 and StatefulSet objects, make one API call after the other and return early.

 `api` stands for everything outside the process. Before every call the environment may act
 any number of times, and every call may be refused or lose its answer. The ghost trace `run`
 records each step, and every method keeps it a run of the state machine of module Scaling, so
 whatever is proved there about all runs holds of this code.
 */
module Reconciler {
  import opened Common
  import opened Errors
  import opened Templates
  import opened Scaling
  import opened SlotSafety
  import opened PassOrder

  datatype Result = Done | Requeue | Failed

  /** The states a run passes through, one more than it has actions. */
  ghost predicate IsTrail(trail: seq<State>, run: seq<Action>)
  {
    && |trail| == |run| + 1
    && (forall k :: 0 <= k < |trail| ==> trail[k].w.WellFormed())
    && (forall k :: 0 <= k < |run| ==> trail[k + 1] == Step(trail[k], run[k]))
  }

  lemma {:induction false} TrailIsExec(trail: seq<State>, run: seq<Action>, k: nat)
    requires IsTrail(trail, run) && k <= |run|
    ensures trail[k] == Exec(trail[0], run[..k])
  {
    if k > 0 {
      TrailIsExec(trail, run, k - 1);
      assert run[..k][..k - 1] == run[..k - 1];
    }
  }

  class UndermoonObject {
    var chunk: Chunk
    var spec: Spec
    var master: string
    var status: ScaleStatus
    var version: nat

    constructor (cr: Undermoon)
      ensures Value() == cr
    {
      chunk, spec, master, status, version := cr.chunk, cr.spec, cr.master, cr.status, cr.version;
    }

    function Value(): Undermoon reads this { Undermoon(chunk, spec, master, status, version) }

    /** Decoding a server reply overwrites every field. */
    method Decode(cr: Undermoon)
      modifies this
      ensures Value() == cr
    {
      chunk, spec, master, status, version := cr.chunk, cr.spec, cr.master, cr.status, cr.version;
    }
  }

  /** The StatefulSet of broker or coordinator, as the pass holds it. */
  class ComponentObject {
    var template: Template
    var ready: nat
    var revision: nat

    constructor ()
    {
      template, ready, revision := Template([]), 0, 0;
    }

    function Value(): ComponentCopy reads this { ComponentCopy(template, ready, revision) }

    method Decode(copy: ComponentCopy)
      modifies this
      ensures Value() == copy
    {
      template, ready, revision := copy.template, copy.ready, copy.revision;
    }
  }

  class StatefulSetObject {
    var replicas: nat
    var template: Template
    var status: SetStatus
    var revision: nat

    constructor ()
    {
      replicas, template, status, revision := 0, Template([]), SetStatus(0, 0), 0;
    }

    function Value(): SetCopy reads this { SetCopy(replicas, template, status, revision) }

    method Decode(copy: SetCopy)
      modifies this
      ensures Value() == copy
    {
      replicas, template, status, revision := copy.replicas, copy.template, copy.status, copy.revision;
    }
  }

  class Operator {
    const rules: Rules
    var api: World
    ghost var run: seq<Action>
    ghost var trail: seq<State>
    ghost var here: State
    /** How many calls came back with an error. */
    ghost var failures: nat

    /** `here` is where the recorded run has led the machine. */
    ghost predicate Traced()
      reads this
    {
      IsTrail(trail, run) && here == trail[|run|] && here.w.WellFormed()
    }

    ghost predicate Valid()
      reads this
    {
      Traced() && api == here.w && api.rules == rules
    }

    ghost predicate At(pc: Pc, cr: UndermoonObject, storage: StatefulSetObject)
      reads this, cr, storage
    {
      Valid() && here.pc == pc && here.l.cr == cr.Value() && here.l.storage == storage.Value()
    }

    ghost predicate Stopped()
      reads this
    {
      Valid() && here.pc == Idle(false)
    }

    /** The run only grows. */
    twostate predicate Extends()
      reads this
    {
      old(run) <= run && |trail| > 0 && old(|trail|) > 0 && trail[0] == old(trail[0]) && failures >= old(failures)
    }

    /** An error that does not ask for another pass comes from a call that failed. */
    twostate predicate Blames(err: Err)
      reads this
    {
      err == Other ==> failures > old(failures)
    }

    /** The run grows, and the pass keeps its copies of the broker's and the coordinator's StatefulSet. */
    twostate predicate Goes()
      reads this
    {
      Extends() && here.l.broker == old(here.l.broker) && here.l.coordinator == old(here.l.coordinator)
    }

    constructor (w: World)
      requires w.storage.None? && w.cluster.None? && w.broker.None? && w.coordinator.None? && w.pods == {} && w.endpoints == {}
      requires w.cr.status == ScaleStatus(Unset, 0)
      ensures Valid() && Initial(here) && run == [] && api == w
    {
      api := w;
      rules := w.rules;
      ghost var none := ComponentCopy(Template([]), 0, 0);
      ghost var l := Local(w.cr, none, none, SetCopy(0, Template([]), SetStatus(0, 0), 0), false, ClusterInfo(0, false));
      run, trail, here, failures := [], [State(w, l, Idle(false))], State(w, l, Idle(false)), 0;
    }

    ghost method Act(a: Action)
      requires Traced()
      modifies this`run, this`trail, this`here, this`failures
      ensures Traced() && Extends() && here == Step(old(here), a)
      ensures run == old(run) + [a] && trail == old(trail) + [here]
      ensures failures == old(failures) + if a.Call? && (a.reply.Fail? || a.reply.Lost?) then 1 else 0
    {
      StepWellFormed(here, a);
      here := Step(here, a);
      run, trail := run + [a], trail + [here];
      failures := failures + if a.Call? && (a.reply.Fail? || a.reply.Lost?) then 1 else 0;
    }

    // ---------- The environment and the API calls ----------

    /** The operator itself has done nothing. */
    twostate predicate OnlyEnvironment()
      reads this
    {
      Extends() && old(trail) <= trail && here.l == old(here.l) && here.pc == old(here.pc) && forall k :: old(|run|) <= k < |run| ==> !run[k].Call? && !run[k].Restart?
    }

    /** Anything may happen between two calls. */
    method Interfere()
      requires Valid()
      modifies this
      ensures Valid() && Extends() && old(trail) <= trail
      ensures here.l == old(here.l) && here.pc == old(here.pc)
    {
      Wait();
    }

    method Wait()
      requires Valid()
      modifies this
      ensures Valid() && OnlyEnvironment()
    {
      var n: nat := *;
      while n > 0
        invariant Valid() && OnlyEnvironment()
      {
        var a: Action := *;
        if !a.Call? && !a.Restart? {
          api := EnvStep(api, a);
          Act(a);
        }
        n := n - 1;
      }
    }

    function AfterAsk(pc: Pc): Pc
    {
      match pc
      case CreateMeta => LoadBroker
      case ConfigCoordinators => CountEndpoints
      case ConfigCluster(again) => GetInfo(again)
      case _ => Idle(false)
    }

    /** Calls whose effect is outside this model: they succeed or they end the pass. */
    method Ask() returns (err: Err)
      requires Valid() && !AfterAsk(here.pc).Idle?
      modifies this
      ensures Valid() && Goes() && here.l == old(here.l)
      ensures here.pc == if err == Nil then AfterAsk(old(here.pc)) else Idle(false)
      ensures Blames(err)
    {
      Interfere();
      err := *;
      if err == Nil { Act(Call(Ok)); } else { Act(Call(Fail)); }
    }

    method UpdateStatefulSet(cr: UndermoonObject, storage: StatefulSetObject) returns (err: Err)
      requires Valid() && (here.pc.ScaleUp? || here.pc.Shrink?)
      requires here.l.cr == cr.Value() && here.l.storage.(replicas := storage.replicas) == storage.Value()
      requires storage.replicas == Shards(cr.chunk)
      modifies this, storage
      ensures Goes() && storage.replicas == old(storage.replicas)
      ensures err == Nil ==> At(if old(here.pc).ScaleUp? then CheckBroker else WriteStable, cr, storage) && SameAnswers()
      ensures err != Nil ==> Stopped() && Blames(err)
    {
      Interfere();
      if api.storage.None? || storage.revision + 1 != |api.storage.value.reports| {
        Act(Call(Ok));
        return Retry; // conflict
      }
      var answered: bool, applied: bool := *, *;
      if !answered && !applied {
        Act(Call(Fail));
        return Other;
      }
      err := StoreReplicas(cr, storage, answered);
    }

    /** The API server takes the new size; against the newest version nothing else is new. */
    method StoreReplicas(cr: UndermoonObject, storage: StatefulSetObject, answered: bool) returns (err: Err)
      requires Valid() && (here.pc.ScaleUp? || here.pc.Shrink?)
      requires here.l.cr == cr.Value() && here.l.storage.(replicas := storage.replicas) == storage.Value()
      requires storage.replicas == Shards(cr.chunk) && api.storage.Some? && storage.revision + 1 == |api.storage.value.reports|
      modifies this, storage
      ensures Goes() && storage.replicas == old(storage.replicas)
      ensures err == Nil ==> At(if old(here.pc).ScaleUp? then CheckBroker else WriteStable, cr, storage) && SameAnswers()
      ensures err != Nil ==> Stopped() && Blames(err)
    {
      var last := api.storage.value.reports[|api.storage.value.reports| - 1];
      api := api.(storage := Some(api.storage.value.(replicas := storage.replicas, reports := [last])));
      if !answered {
        Act(Call(Lost));
        return Other;
      }
      storage.Decode(SetCopy(storage.replicas, api.storage.value.template, last, 0));
      Act(Call(Ok));
      return Nil;
    }

    /** What the pass has been told about endpoints and slots is what it was told before. */
    twostate predicate SameAnswers()
      reads this
    {
      here.l.allReady == old(here.l.allReady) && here.l.info == old(here.l.info)
    }

    // ---------- storage_controller.go ----------

    /** The cache is not older than the operator's own last write. */
    method ReadStatefulSet(cr: UndermoonObject, storage: StatefulSetObject)
      requires Valid() && here.pc.LoadStorage? && here.l.cr == cr.Value() && api.storage.Some?
      modifies this, storage
      ensures Goes() && At(if Shards(cr.chunk) > storage.replicas then ScaleUp else CheckBroker, cr, storage)
    {
      var reports := api.storage.value.reports;
      assert 0 < |reports|;
      var k: nat :| k < |reports|;
      storage.Decode(SetCopy(api.storage.value.replicas, api.storage.value.template, reports[k], k));
      Act(Call(Read(k)));
    }

    method CreateStatefulSet(cr: UndermoonObject, storage: StatefulSetObject) returns (err: Err)
      requires Valid() && here.pc.LoadStorage? && here.l.cr == cr.Value() && api.storage.None?
      modifies this, storage
      ensures Goes() && storage.replicas == Shards(cr.chunk)
      ensures err == Nil ==> At(CheckBroker, cr, storage)
      ensures err != Nil ==> Stopped() && Blames(err)
    {
      storage.Decode(SetCopy(Shards(cr.chunk), rules.create(StoragePart, cr.spec), SetStatus(0, 0), 0));
      api := api.(storage := Some(StatefulSet(storage.replicas, storage.template, [storage.status])));
      var answered: bool := *;
      if answered { Act(Call(Ok)); err := Nil; } else { Act(Call(Lost)); err := Other; }
    }

    method GetOrCreateStorageStatefulSet(cr: UndermoonObject) returns (storage: StatefulSetObject, err: Err)
      requires Valid() && here.pc.LoadStorage? && here.l.cr == cr.Value()
      modifies this
      ensures Goes() && fresh(storage)
      ensures err == Nil ==> At(if Shards(cr.chunk) > storage.replicas then ScaleUp else CheckBroker, cr, storage)
      ensures err != Nil ==> Stopped() && Blames(err)
    {
      storage := new StatefulSetObject();
      Interfere();
      err := *;
      if err != Nil {
        Act(Call(Fail));
      } else if api.storage.Some? {
        ReadStatefulSet(cr, storage);
      } else {
        err := CreateStatefulSet(cr, storage);
      }
    }

    method UpdateStorageStatefulSet(cr: UndermoonObject, storage: StatefulSetObject) returns (err: Err)
      requires At(here.pc, cr, storage) && (here.pc.ScaleUp? || here.pc.Shrink?)
      modifies this, storage
      ensures Goes()
      ensures err == Nil ==> At(if old(here.pc).ScaleUp? then CheckBroker else WriteStable, cr, storage) && SameAnswers()
      ensures err == Nil ==> storage.replicas == Shards(cr.chunk)
      ensures err != Nil ==> Stopped() && Blames(err)
    {
      storage.replicas := Shards(cr.chunk);
      err := UpdateStatefulSet(cr, storage);
    }

    /** Replicas are only raised here. */
    method CreateStorage(cr: UndermoonObject) returns (storage: StatefulSetObject, err: Err)
      requires Valid() && here.pc.LoadStorage? && here.l.cr == cr.Value()
      modifies this
      ensures Goes() && fresh(storage)
      ensures err == Nil ==> At(CheckBroker, cr, storage) && storage.replicas >= Shards(cr.chunk)
      ensures err != Nil ==> Stopped() && Blames(err)
    {
      storage, err := GetOrCreateStorageStatefulSet(cr);
      if err == Nil && Shards(cr.chunk) > storage.replicas {
        err := UpdateStorageStatefulSet(cr, storage);
      }
    }

    method StorageAllReady(cr: UndermoonObject, storage: StatefulSetObject) returns (ready: bool, err: Err)
      requires At(CountEndpoints, cr, storage)
      modifies this
      ensures Goes()
      ensures err == Nil ==> At(SyncRegistry(false), cr, storage) && ready == here.l.allReady
      ensures err != Nil ==> Stopped() && Blames(err)
    {
      Interfere();
      err := *;
      if err != Nil { Act(Call(Fail)); return false, err; }
      ready := |api.endpoints| >= Shards(cr.chunk);
      Act(Call(Ok));
    }

    /** The readiness gate: the endpoints are counted again, the report is the one the pass has read. */
    method StorageAllReadyAndStable(cr: UndermoonObject, storage: StatefulSetObject) returns (ready: bool, err: Err)
      requires At(here.pc, cr, storage) && (here.pc.CheckStable? || (here.pc.RollStorage? && !StorageOutdated(here)))
      modifies this
      ensures Goes()
      ensures err == Nil && ready && old(here.pc).CheckStable? ==>
        At(if old(here.l.info.migrating) then Idle(false) else ScaleNodes, cr, storage) && SameAnswers()
      ensures err == Nil && ready && old(here.pc).RollStorage? ==> Valid() && here.pc == Idle(true)
      ensures err != Nil || !ready ==> Stopped()
      ensures Blames(err)
    {
      Interfere();
      err := *;
      if err != Nil { Act(Call(Fail)); return false, err; }
      ready := |api.endpoints| >= Shards(cr.chunk);
      if ready {
        ready := storage.status.current == storage.replicas && storage.status.replicas == storage.replicas;
      }
      Act(Call(Ok));
    }

    /** Status update with a ResourceVersion check. */
    method UpdateStatus(cr: UndermoonObject, storage: StatefulSetObject, state: ScaleState) returns (err: Err)
      requires Valid() && here.pc == (if state == ScaleDownWait then WriteWait else WriteStable) && state != Unset
      requires here.l.cr.(status := cr.status) == cr.Value() && here.l.storage == storage.Value()
      requires cr.status == ScaleStatus(state, if state == ScaleDownWait then api.clock else 0)
      modifies this, cr
      ensures Goes()
      ensures err == Nil && state == Stable ==> At(RollBroker, cr, storage) && SameAnswers()
      ensures err != Nil || state == ScaleDownWait ==> Stopped()
      ensures Blames(err)
    {
      if cr.version != api.cr.version {
        Act(Call(Ok));
        return Retry; // conflict
      }
      var answered: bool, applied: bool := *, *;
      if !answered && !applied {
        Act(Call(Fail));
        return Other;
      }
      err := StoreStatus(cr, storage, state, answered);
    }

    /** The API server takes the status; stored and returned time stamps have whole seconds. */
    method StoreStatus(cr: UndermoonObject, storage: StatefulSetObject, state: ScaleState, answered: bool) returns (err: Err)
      requires Valid() && here.pc == (if state == ScaleDownWait then WriteWait else WriteStable) && state != Unset
      requires here.l.cr.(status := cr.status) == cr.Value() && here.l.storage == storage.Value() && cr.version == api.cr.version
      requires cr.status == ScaleStatus(state, if state == ScaleDownWait then api.clock else 0)
      modifies this, cr
      ensures Goes()
      ensures err == Nil && state == Stable ==> At(RollBroker, cr, storage) && SameAnswers()
      ensures err != Nil || state == ScaleDownWait ==> Stopped()
      ensures Blames(err)
    {
      var stored := ScaleStatus(state, cr.status.since - cr.status.since % SECOND);
      api := api.(cr := api.cr.(status := stored, version := api.cr.version + 1));
      assert api == Scaling.StoreStatus(here.w, state);
      if !answered {
        Act(Call(Lost));
        return Other;
      }
      cr.Decode(api.cr);
      Act(Call(Ok));
      return Nil;
    }

    method SetScaleState(cr: UndermoonObject, storage: StatefulSetObject, state: ScaleState) returns (err: Err)
      requires At(if state == ScaleDownWait then WriteWait else WriteStable, cr, storage) && state != Unset
      modifies this, cr
      ensures Goes()
      ensures err == Nil && state == Stable ==> At(RollBroker, cr, storage) && SameAnswers()
      ensures err != Nil || state == ScaleDownWait ==> Stopped()
      ensures Blames(err)
    {
      Interfere();
      cr.status := ScaleStatus(state, if state == ScaleDownWait then api.clock else 0);
      err := UpdateStatus(cr, storage, state);
    }

    /** The decrease itself, and the return to a stable state. */
    method LowerReplicas(cr: UndermoonObject, storage: StatefulSetObject) returns (err: Err)
      requires At(Shrink, cr, storage)
      modifies this, cr, storage
      ensures Goes()
      ensures err == Nil ==> At(RollBroker, cr, storage)
      ensures err != Nil ==> Stopped() && Blames(err)
    {
      err := UpdateStorageStatefulSet(cr, storage);
      if err != Nil { return err; }
      err := SetScaleState(cr, storage, Stable);
    }

    /** Postpone the decrease. */
    method RequestWait(cr: UndermoonObject, storage: StatefulSetObject) returns (err: Err)
      requires At(WriteWait, cr, storage)
      modifies this, cr
      ensures Goes() && err != Nil && Stopped() && Blames(err)
    {
      err := SetScaleState(cr, storage, ScaleDownWait);
      if err != Nil { return err; }
      return Retry;
    }

    method ScaleDownStorageStatefulSet(cr: UndermoonObject, storage: StatefulSetObject, info: ClusterInfo) returns (err: Err)
      requires At(Decide, cr, storage) && here.l.info == info
      modifies this, cr, storage
      ensures Goes()
      ensures err == Nil ==> At(RollBroker, cr, storage)
      ensures err != Nil ==> Stopped() && Blames(err)
    {
      Interfere();
      Act(Call(Ok));
      var expectedNodeNumber := Nodes(cr.chunk);
      if info.withSlots > expectedNodeNumber { return Retry; }
      if info.withSlots < expectedNodeNumber { return Retry; }
      if storage.replicas == Shards(cr.chunk) { return Nil; }

      if cr.status.state != ScaleDownWait {
        err := RequestWait(cr, storage);
        return err;
      }
      if cr.status.since + SCALE_DOWN_WAIT_TIME > api.clock { return Retry; }
      err := LowerReplicas(cr, storage);
    }

    // ---------- broker_controller.go ----------

    /** The status patch refreshes the whole copy of the custom resource, its spec included, and
        stores a new version only if another master is to be shown. */
    method SetMasterBrokerStatus(cr: UndermoonObject, storage: StatefulSetObject) returns (err: Err)
      requires At(PatchMaster, cr, storage)
      modifies this, cr
      ensures Goes()
      ensures err == Nil ==> At(ConfigCoordinators, cr, storage)
      ensures err != Nil ==> Stopped() && Blames(err)
    {
      Interfere();
      var answered: bool, applied: bool := *, *;
      if !answered && !applied {
        Act(Call(Fail));
        return Other;
      }
      if api.cr.master != api.elected {
        api := api.(cr := api.cr.(master := api.elected, version := api.cr.version + 1));
      }
      if !answered {
        Act(Call(Lost));
        return Other;
      }
      cr.Decode(api.cr);
      Act(Call(Ok));
      return Nil;
    }

    // ---------- meta_controller.go ----------

    method ReconcileServerProxyRegistry(cr: UndermoonObject, storage: StatefulSetObject) returns (err: Err)
      requires At(here.pc, cr, storage) && here.pc.SyncRegistry?
      modifies this
      ensures Goes() && SameAnswers()
      ensures err == Nil && here.l.allReady ==> At(FindCluster(old(here.pc).again), cr, storage)
      ensures err != Nil || !here.l.allReady ==> Stopped()
      ensures Blames(err)
    {
      Interfere();
      err := *;
      if err == Nil { Act(Call(Ok)); } else { Act(Call(Fail)); }
    }

    method ClusterExists(cr: UndermoonObject, storage: StatefulSetObject) returns (found: bool, err: Err)
      requires At(here.pc, cr, storage) && here.pc.FindCluster?
      modifies this
      ensures Goes() && SameAnswers()
      ensures err == Nil ==> At(if found then ConfigCluster(old(here.pc).again) else CreateCluster(old(here.pc).again), cr, storage)
      ensures err != Nil ==> Stopped() && Blames(err)
    {
      Interfere();
      err := *;
      if err != Nil { Act(Call(Fail)); return false, err; }
      found := api.cluster.Some?;
      Act(Call(Ok));
    }

    /** createCluster of the broker client; a cluster that exists already counts as success. */
    method CreateNewCluster(cr: UndermoonObject, storage: StatefulSetObject) returns (err: Err)
      requires At(here.pc, cr, storage) && here.pc.CreateCluster?
      modifies this
      ensures Goes() && SameAnswers()
      ensures err == Nil ==> At(ConfigCluster(old(here.pc).again), cr, storage)
      ensures err != Nil ==> Stopped() && Blames(err)
    {
      Interfere();
      var answered: bool, applied: bool := *, *;
      if !answered && !applied {
        Act(Call(Fail));
        err := *;
        return if err == Nil then Retry else err;
      }
      if api.cluster.None? {
        var n := Nodes(cr.chunk);
        api := api.(cluster := Some(Cluster(n, n, n)));
      }
      Act(Call(if answered then Ok else Lost));
      err := if answered then Nil else Other;
    }

    method CreateClusterIfMissing(cr: UndermoonObject, storage: StatefulSetObject) returns (err: Err)
      requires At(here.pc, cr, storage) && here.pc.FindCluster?
      modifies this
      ensures Goes() && SameAnswers()
      ensures err == Nil ==> At(ConfigCluster(old(here.pc).again), cr, storage)
      ensures err != Nil ==> Stopped() && Blames(err)
    {
      var found;
      found, err := ClusterExists(cr, storage);
      if err != Nil || found { return err; }
      err := CreateNewCluster(cr, storage);
    }

    method GetClusterInfo(cr: UndermoonObject, storage: StatefulSetObject) returns (info: ClusterInfo, err: Err)
      requires At(here.pc, cr, storage) && here.pc.GetInfo?
      modifies this
      ensures Goes()
      ensures err == Nil ==> At(if old(here.pc).again then Decide else CheckStable, cr, storage) && here.l.info == info && here.l.allReady == old(here.l.allReady)
      ensures err != Nil ==> Stopped() && Blames(err)
    {
      Interfere();
      err := *;
      info := ClusterInfo(0, false);
      if err != Nil || api.cluster.None? {
        Act(Call(Fail));
        return info, if err == Nil then Other else err;
      }
      var migrating: bool := *;
      info := ClusterInfo(api.cluster.value.withSlots, migrating);
      Act(Call(Info(migrating)));
    }

    method ConfigureCluster(cr: UndermoonObject, storage: StatefulSetObject) returns (info: ClusterInfo, err: Err)
      requires At(here.pc, cr, storage) && here.pc.ConfigCluster?
      modifies this
      ensures Goes()
      ensures err == Nil ==> At(if old(here.pc).again then Decide else CheckStable, cr, storage) && here.l.info == info && here.l.allReady == old(here.l.allReady)
      ensures err != Nil ==> Stopped() && Blames(err)
    {
      info := ClusterInfo(0, false);
      err := Ask();
      if err != Nil { return; }
      info, err := GetClusterInfo(cr, storage);
    }

    method ReconcileMeta(cr: UndermoonObject, storage: StatefulSetObject, allReady: bool) returns (info: ClusterInfo, err: Err)
      requires At(here.pc, cr, storage) && here.pc.SyncRegistry? && here.l.allReady == allReady
      modifies this
      ensures Goes()
      ensures err == Nil ==> At(if old(here.pc).again then Decide else CheckStable, cr, storage) && here.l.info == info && here.l.allReady == allReady
      ensures err != Nil ==> Stopped() && Blames(err)
    {
      info := ClusterInfo(0, false);
      err := ReconcileServerProxyRegistry(cr, storage);
      if err != Nil { return; }
      if !allReady { return info, Retry; }
      err := CreateClusterIfMissing(cr, storage);
      if err != Nil { return; }
      info, err := ConfigureCluster(cr, storage);
    }

    /** scaleNodes of the broker client, and how changeNodeNumber reads its errors. */
    method ScaleNodesOfCluster(cr: UndermoonObject, storage: StatefulSetObject) returns (freeNodeFound: bool, err: Err)
      requires At(ScaleNodes, cr, storage)
      modifies this
      ensures Goes()
      ensures err == Nil ==> At(RemoveFreeNodes(freeNodeFound), cr, storage) && SameAnswers()
      ensures err != Nil ==> Stopped() && Blames(err)
    {
      Interfere();
      var answer: Reply := *;
      freeNodeFound := answer == FreeNodeFound;
      if api.cluster.None? || (answer != Ok && answer != Lost && answer != FreeNodeFound) {
        // MIGRATION_RUNNING, RETRY and PROXY_RESOURCE_OUT_OF_ORDER ask for another pass.
        Act(Call(Fail));
        err := *;
        return freeNodeFound, if err == Nil then Retry else err;
      }
      if !freeNodeFound {
        var c := api.cluster.value;
        api := api.(cluster := Some(Cluster(Nodes(cr.chunk), c.withSlots, Max(c.nodes, Nodes(cr.chunk)))));
      }
      Act(Call(answer));
      err := if answer == Lost then Other else Nil;
    }

    method RemoveFreeNodesOfCluster(cr: UndermoonObject, storage: StatefulSetObject) returns (err: Err)
      requires At(here.pc, cr, storage) && here.pc.RemoveFreeNodes?
      modifies this
      ensures Goes()
      ensures err == Nil && !old(here.pc).retry ==> At(SyncRegistry(true), cr, storage) && SameAnswers()
      ensures err != Nil || old(here.pc).retry ==> Stopped()
      ensures Blames(err)
    {
      Interfere();
      var answered: bool, applied: bool := *, *;
      if api.cluster.None? || (!answered && !applied) {
        Act(Call(Fail));
        err := *;
        return if err == Nil then Retry else err;
      }
      var c := api.cluster.value;
      api := api.(cluster := Some(c.(nodes := Min(c.nodes, Max(c.target, c.withSlots)))));
      Act(Call(if answered then Ok else Lost));
      err := if answered then Nil else Other;
    }

    method ChangeNodeNumber(cr: UndermoonObject, storage: StatefulSetObject) returns (err: Err)
      requires At(ScaleNodes, cr, storage)
      modifies this
      ensures Goes()
      ensures err == Nil ==> At(SyncRegistry(true), cr, storage) && SameAnswers()
      ensures err != Nil ==> Stopped() && Blames(err)
    {
      var retry: bool;
      retry, err := ScaleNodesOfCluster(cr, storage);
      if err != Nil { return err; }
      err := RemoveFreeNodesOfCluster(cr, storage);
      if err == Nil && retry { return Retry; }
    }

    method ChangeMeta(cr: UndermoonObject, storage: StatefulSetObject, info: ClusterInfo) returns (err: Err)
      requires At(if info.migrating then Idle(false) else ScaleNodes, cr, storage)
      modifies this
      ensures Goes()
      ensures err == Nil ==> At(SyncRegistry(true), cr, storage) && SameAnswers()
      ensures err != Nil ==> Stopped() && Blames(err)
    {
      if info.migrating { return Retry; }
      err := ChangeNodeNumber(cr, storage);
    }

    // ---------- undermoon_controller.go ----------

    /** Since then the run has been at this call, and the check was met at that moment. */
    twostate predicate Saw(pc: Pc)
      reads this
    {
      exists k :: old(|run|) <= k < |run| < |trail| && trail[k].pc == pc && Good(pc, trail[k])
    }

    /** The copies of the broker's and the coordinator's StatefulSet that this pass has read. */
    ghost predicate Holds(broker: ComponentObject, coordinator: ComponentObject)
      reads this, broker, coordinator
    {
      here.l.broker == broker.Value() && here.l.coordinator == coordinator.Value() && broker != coordinator
    }

    /** After an update the endpoints are counted once more, unless it met a conflict; whatever
        comes of that, the pass has ended. */
    method CountAfterUpdate() returns (err: Err)
      modifies this`failures
      ensures err != Nil && (err == Other ==> failures > old(failures)) && failures >= old(failures)
    {
      var failed: bool := *;
      if failed {
        failures := failures + 1;
        return Other;
      }
      return Retry;
    }

    /** updateStatefulSetHelper of the broker: any outcome ends the pass. */
    method ReplaceBrokerSpec(cr: UndermoonObject, storage: StatefulSetObject, broker: ComponentObject) returns (err: Err)
      requires At(RollBroker, cr, storage) && here.l.broker == broker.Value() && BrokerOutdated(here)
      modifies this, broker
      ensures Goes() && Stopped() && err != Nil && Blames(err)
    {
      Interfere();
      broker.template := rules.create(BrokerPart, cr.spec);
      var answered: bool, applied: bool := *, *;
      if !answered && !applied {
        Act(Call(Fail));
        return Other;
      }
      if api.broker.Some? && broker.template != api.broker.value.template && broker.revision + 1 == |api.broker.value.reports| {
        var c := api.broker.value;
        api := api.(broker := Some(Component(broker.template, [c.reports[broker.revision]], c.endpoints)));
      }
      Act(Call(if answered then Ok else Lost));
      if !answered { return Other; }
      err := CountAfterUpdate();
    }

    method BrokerAllReady(cr: UndermoonObject, storage: StatefulSetObject, broker: ComponentObject) returns (ready: bool, err: Err)
      requires At(RollBroker, cr, storage) && here.l.broker == broker.Value() && !BrokerOutdated(here)
      modifies this
      ensures Goes()
      ensures err == Nil && ready ==> At(RollCoordinator, cr, storage) && broker.ready == 2 && Saw(RollBroker)
      ensures err != Nil || !ready ==> Stopped()
      ensures Blames(err)
    {
      Interfere();
      err := *;
      if err != Nil { Act(Call(Fail)); return false, err; }
      ready := broker.ready == BROKER_NUM && Endpoints(api.broker) >= BROKER_NUM;
      assert ready ==> Good(RollBroker, here);
      ghost var k := |run|;
      Act(Call(Ok));
      assert ready ==> trail[k].pc == RollBroker && Good(RollBroker, trail[k]);
    }

    method RollBrokerTemplate(cr: UndermoonObject, storage: StatefulSetObject, broker: ComponentObject) returns (err: Err)
      requires At(RollBroker, cr, storage) && here.l.broker == broker.Value()
      modifies this, broker
      ensures Goes()
      ensures err == Nil ==> !rules.changed(BrokerPart, cr.spec, broker.template) && broker.ready == 2 && Saw(RollBroker)
      ensures err == Nil ==> At(RollCoordinator, cr, storage) && broker.Value() == old(broker.Value())
      ensures err != Nil ==> Stopped() && Blames(err)
    {
      var need := rules.changed(BrokerPart, cr.spec, broker.template);
      if need {
        err := ReplaceBrokerSpec(cr, storage, broker);
        return err;
      }
      var ready;
      ready, err := BrokerAllReady(cr, storage, broker);
      if err == Nil && !ready { return Retry; }
    }

    /** The same for the coordinator. */
    method ReplaceCoordinatorSpec(cr: UndermoonObject, storage: StatefulSetObject, coordinator: ComponentObject) returns (err: Err)
      requires At(RollCoordinator, cr, storage) && here.l.coordinator == coordinator.Value() && CoordinatorOutdated(here)
      modifies this, coordinator
      ensures Goes() && Stopped() && err != Nil && Blames(err)
    {
      Interfere();
      coordinator.template := rules.create(CoordinatorPart, cr.spec);
      var answered: bool, applied: bool := *, *;
      if !answered && !applied {
        Act(Call(Fail));
        return Other;
      }
      if api.coordinator.Some? && coordinator.template != api.coordinator.value.template && coordinator.revision + 1 == |api.coordinator.value.reports| {
        var c := api.coordinator.value;
        api := api.(coordinator := Some(Component(coordinator.template, [c.reports[coordinator.revision]], c.endpoints)));
      }
      Act(Call(if answered then Ok else Lost));
      if !answered { return Other; }
      err := CountAfterUpdate();
    }

    method CoordinatorAllReady(cr: UndermoonObject, storage: StatefulSetObject, coordinator: ComponentObject) returns (ready: bool, err: Err)
      requires At(RollCoordinator, cr, storage) && here.l.coordinator == coordinator.Value() && !CoordinatorOutdated(here)
      modifies this
      ensures Goes()
      ensures err == Nil && ready ==> At(RollStorage, cr, storage) && coordinator.ready >= 2 && Saw(RollCoordinator)
      ensures err != Nil || !ready ==> Stopped()
      ensures Blames(err)
    {
      Interfere();
      err := *;
      if err != Nil { Act(Call(Fail)); return false, err; }
      ready := coordinator.ready >= COORDINATOR_NUM && Endpoints(api.coordinator) >= COORDINATOR_NUM;
      assert ready ==> Good(RollCoordinator, here);
      ghost var k := |run|;
      Act(Call(Ok));
      assert ready ==> trail[k].pc == RollCoordinator && Good(RollCoordinator, trail[k]);
    }

    method RollCoordinatorTemplate(cr: UndermoonObject, storage: StatefulSetObject, coordinator: ComponentObject) returns (err: Err)
      requires At(RollCoordinator, cr, storage) && here.l.coordinator == coordinator.Value()
      modifies this, coordinator
      ensures Goes()
      ensures err == Nil ==> !rules.changed(CoordinatorPart, cr.spec, coordinator.template) && coordinator.ready >= 2 && Saw(RollCoordinator)
      ensures err == Nil ==> At(RollStorage, cr, storage)
      ensures err != Nil ==> Stopped() && Blames(err)
    {
      var need := rules.changed(CoordinatorPart, cr.spec, coordinator.template);
      if need {
        err := ReplaceCoordinatorSpec(cr, storage, coordinator);
        return err;
      }
      var ready;
      ready, err := CoordinatorAllReady(cr, storage, coordinator);
      if err == Nil && !ready { return Retry; }
    }

    /** updateStatefulSetHelper of the storage: the whole Spec is replaced, the replica number included. */
    method ReplaceStorageSpec(cr: UndermoonObject, storage: StatefulSetObject) returns (err: Err)
      requires At(RollStorage, cr, storage) && StorageOutdated(here)
      modifies this, storage
      ensures Goes() && Stopped() && err != Nil && Blames(err)
    {
      Interfere();
      var reached := PutStorageSpec(cr, storage);
      if !reached { return Other; }
      err := CountAfterUpdate();
    }

    /** The update itself; a lost answer does not say whether it was stored. */
    method PutStorageSpec(cr: UndermoonObject, storage: StatefulSetObject) returns (answered: bool)
      requires At(RollStorage, cr, storage) && StorageOutdated(here)
      modifies this, storage
      ensures Goes() && Stopped() && (!answered ==> failures > old(failures))
    {
      storage.replicas := Shards(cr.chunk);
      storage.template := rules.create(StoragePart, cr.spec);
      var applied: bool := *;
      answered := *;
      if !answered && !applied {
        Act(Call(Fail));
        return;
      }
      var changes := api.storage.Some? && (storage.replicas != api.storage.value.replicas || storage.template != api.storage.value.template);
      if changes && storage.revision + 1 == |api.storage.value.reports| {
        var last := api.storage.value.reports[|api.storage.value.reports| - 1];
        api := api.(storage := Some(StatefulSet(storage.replicas, storage.template, [last])));
      }
      Act(Call(if answered then Ok else Lost));
    }

    method RollStorageTemplate(cr: UndermoonObject, storage: StatefulSetObject) returns (err: Err)
      requires At(RollStorage, cr, storage)
      modifies this, storage
      ensures Goes()
      ensures err == Nil ==> Valid() && here.pc == Idle(true)
      ensures err != Nil ==> Stopped() && Blames(err)
    {
      var need := rules.changed(StoragePart, cr.spec, storage.template);
      if need {
        err := ReplaceStorageSpec(cr, storage);
        return err;
      }
      var ready;
      ready, err := StorageAllReadyAndStable(cr, storage);
      if err == Nil && !ready { return Retry; }
    }

    /** One template at a time, and each only behind components that are current and ready. */
    method TriggerRollingUpdate(cr: UndermoonObject, storage: StatefulSetObject, broker: ComponentObject, coordinator: ComponentObject) returns (err: Err)
      requires At(RollBroker, cr, storage) && Holds(broker, coordinator)
      modifies this, storage, broker, coordinator
      ensures Extends()
      ensures err == Nil ==> Valid() && here.pc == Idle(true)
      ensures err != Nil ==> Stopped() && Blames(err)
    {
      err := RollBoth(cr, storage, broker, coordinator);
      if err != Nil { return err; }
      err := RollStorageTemplate(cr, storage);
    }

    method RollBoth(cr: UndermoonObject, storage: StatefulSetObject, broker: ComponentObject, coordinator: ComponentObject) returns (err: Err)
      requires At(RollBroker, cr, storage) && Holds(broker, coordinator)
      modifies this, broker, coordinator
      ensures Extends()
      ensures err == Nil ==> At(RollStorage, cr, storage)
      ensures err != Nil ==> Stopped() && Blames(err)
    {
      err := RollBrokerTemplate(cr, storage, broker);
      if err != Nil { return err; }
      err := RollCoordinatorTemplate(cr, storage, coordinator);
    }

    /** Read or create; the cache is not older than the operator's own last write. */
    method GetOrCreateBroker(cr: UndermoonObject, broker: ComponentObject) returns (err: Err)
      requires Valid() && here.pc.LoadBroker? && here.l.cr == cr.Value()
      modifies this, broker
      ensures Extends()
      ensures err == Nil ==> Valid() && here.pc.LoadCoordinator? && here.l.cr == cr.Value() && here.l.broker == broker.Value()
      ensures err != Nil ==> Stopped() && Blames(err)
    {
      Interfere();
      err := *;
      if err != Nil { Act(Call(Fail)); return; }
      if api.broker.Some? {
        assert 0 < |api.broker.value.reports|;
        var k: nat :| k < |api.broker.value.reports|;
        broker.Decode(ComponentCopy(api.broker.value.template, api.broker.value.reports[k], k));
        Act(Call(Read(k)));
      } else {
        broker.Decode(ComponentCopy(rules.create(BrokerPart, cr.spec), 0, 0));
        api := api.(broker := Some(Component(broker.template, [0], 0)));
        var answered: bool := *;
        if answered { Act(Call(Ok)); } else { Act(Call(Lost)); err := Other; }
      }
    }

    method GetOrCreateCoordinator(cr: UndermoonObject, coordinator: ComponentObject) returns (err: Err)
      requires Valid() && here.pc.LoadCoordinator? && here.l.cr == cr.Value()
      modifies this, coordinator
      ensures Extends() && here.l.broker == old(here.l.broker)
      ensures err == Nil ==> Valid() && here.pc.LoadStorage? && here.l.cr == cr.Value() && here.l.coordinator == coordinator.Value()
      ensures err != Nil ==> Stopped() && Blames(err)
    {
      Interfere();
      err := *;
      if err != Nil { Act(Call(Fail)); return; }
      if api.coordinator.Some? {
        assert 0 < |api.coordinator.value.reports|;
        var k: nat :| k < |api.coordinator.value.reports|;
        coordinator.Decode(ComponentCopy(api.coordinator.value.template, api.coordinator.value.reports[k], k));
        Act(Call(Read(k)));
      } else {
        coordinator.Decode(ComponentCopy(rules.create(CoordinatorPart, cr.spec), 0, 0));
        api := api.(coordinator := Some(Component(coordinator.template, [0], 0)));
        var answered: bool := *;
        if answered { Act(Call(Ok)); } else { Act(Call(Lost)); err := Other; }
      }
    }

    method BrokerReady(cr: UndermoonObject, storage: StatefulSetObject, broker: ComponentObject) returns (ready: bool, err: Err)
      requires At(CheckBroker, cr, storage) && here.l.broker == broker.Value()
      modifies this
      ensures Goes()
      ensures err == Nil && ready ==> At(CheckCoordinator, cr, storage) && broker.ready >= 1 && Saw(CheckBroker)
      ensures err != Nil || !ready ==> Stopped()
      ensures Blames(err)
    {
      Interfere();
      err := *;
      if err != Nil { Act(Call(Fail)); return false, err; }
      ready := broker.ready >= BROKER_NUM - 1 && Endpoints(api.broker) >= BROKER_NUM - 1;
      assert ready ==> Good(CheckBroker, here);
      ghost var k := |run|;
      Act(Call(Ok));
      assert ready ==> trail[k].pc == CheckBroker && Good(CheckBroker, trail[k]);
    }

    method CoordinatorReady(cr: UndermoonObject, storage: StatefulSetObject, coordinator: ComponentObject) returns (ready: bool, err: Err)
      requires At(CheckCoordinator, cr, storage) && here.l.coordinator == coordinator.Value()
      modifies this
      ensures Goes() && old(trail) <= trail
      ensures err == Nil && ready ==> At(PatchMaster, cr, storage) && coordinator.ready >= 1 && Saw(CheckCoordinator)
      ensures err != Nil || !ready ==> Stopped()
      ensures Blames(err)
    {
      Interfere();
      err := *;
      if err != Nil { Act(Call(Fail)); return false, err; }
      ready := coordinator.ready >= 1 && Endpoints(api.coordinator) >= 1;
      assert ready ==> Good(CheckCoordinator, here);
      ghost var k := |run|;
      Act(Call(Ok));
      assert ready ==> trail[k].pc == CheckCoordinator && Good(CheckCoordinator, trail[k]);
    }

    method BrokerAndCoordinatorReady(cr: UndermoonObject, storage: StatefulSetObject, broker: ComponentObject, coordinator: ComponentObject) returns (err: Err)
      requires At(CheckBroker, cr, storage) && Holds(broker, coordinator)
      modifies this
      ensures Goes()
      ensures err == Nil ==> At(PatchMaster, cr, storage) && broker.ready >= 1 && coordinator.ready >= 1 && Saw(CheckBroker) && Saw(CheckCoordinator)
      ensures err != Nil ==> Stopped() && Blames(err)
    {
      var ready;
      ready, err := BrokerReady(cr, storage, broker);
      if err != Nil { return err; }
      if !ready { return Retry; }
      ready, err := CoordinatorReady(cr, storage, coordinator);
      if err != Nil { return err; }
      if !ready { return Retry; }
    }

    /** The read of the custom resource. When it is gone there is nothing to do. */
    method FetchUndermoon() returns (cr: UndermoonObject, gone: bool, err: Err)
      requires Valid() && here.pc.Idle?
      modifies this
      ensures Extends() && fresh(cr)
      ensures gone ==> err == Nil && Valid() && OnlyEnvironment()
      ensures err == Nil && !gone ==> Valid() && here.pc.CreateMeta? && here.l.cr == cr.Value()
      ensures err != Nil ==> Stopped() && Blames(err)
    {
      Wait();
      cr := new UndermoonObject(api.cr);
      gone, err := *, *;
      if gone { return cr, gone, Nil; }
      if err != Nil { Act(Call(Fail)); return; }
      // The cache may hold an older version.
      var copy: Undermoon := *;
      if copy.version >= api.cr.version { copy := api.cr; }
      cr.Decode(copy);
      Act(Call(Fetched(copy)));
    }

    /** createResources without the read of the custom resource before it. */
    method CreateResources(cr: UndermoonObject) returns (storage: StatefulSetObject, broker: ComponentObject, coordinator: ComponentObject, err: Err)
      requires Valid() && here.pc.CreateMeta? && here.l.cr == cr.Value()
      modifies this
      ensures Extends() && fresh(storage) && fresh(broker) && fresh(coordinator)
      ensures err == Nil ==> At(CheckBroker, cr, storage) && Holds(broker, coordinator)
      ensures err != Nil ==> Stopped() && Blames(err)
    {
      storage := new StatefulSetObject();
      broker := new ComponentObject();
      coordinator := new ComponentObject();
      err := Ask();
      if err != Nil { return; }
      err := GetOrCreateBroker(cr, broker);
      if err != Nil { return; }
      err := GetOrCreateCoordinator(cr, coordinator);
      if err != Nil { return; }
      storage, err := CreateStorage(cr);
    }

    /** Master broker, coordinators, server proxies. */
    method ReconcileBrokers(cr: UndermoonObject, storage: StatefulSetObject) returns (allReady: bool, err: Err)
      requires At(PatchMaster, cr, storage)
      modifies this, cr
      ensures Goes()
      ensures err == Nil ==> At(SyncRegistry(false), cr, storage) && here.l.allReady == allReady
      ensures err != Nil ==> Stopped() && Blames(err)
    {
      allReady := false;
      err := SetMasterBrokerStatus(cr, storage);
      if err != Nil { return allReady, err; }
      err := Ask();
      if err != Nil { return allReady, err; }
      allReady, err := StorageAllReady(cr, storage);
    }

    /** Both reconcileMeta, the readiness gate and the migration between them. */
    method ReconcileCluster(cr: UndermoonObject, storage: StatefulSetObject, allReady: bool) returns (info: ClusterInfo, err: Err)
      requires At(SyncRegistry(false), cr, storage) && here.l.allReady == allReady
      modifies this
      ensures Goes()
      ensures err == Nil ==> At(Decide, cr, storage) && here.l.info == info
      ensures err != Nil ==> Stopped() && Blames(err)
    {
      info, err := ReconcileMeta(cr, storage, allReady);
      if err != Nil { return info, err; }
      var ready;
      ready, err := StorageAllReadyAndStable(cr, storage);
      if err != Nil { return info, err; }
      if !ready { return info, Retry; }
      err := ChangeMeta(cr, storage, info);
      if err != Nil { return info, err; }
      info, err := ReconcileMeta(cr, storage, allReady);
    }

    /** The end of a pass, once the cluster has its size. */
    method ScaleDownAndRoll(cr: UndermoonObject, storage: StatefulSetObject, broker: ComponentObject, coordinator: ComponentObject, info: ClusterInfo) returns (err: Err)
      requires At(Decide, cr, storage) && Holds(broker, coordinator) && here.l.info == info
      modifies this, cr, storage, broker, coordinator
      ensures Valid() && Extends()
      ensures here.pc == Idle(err == Nil) && Blames(err)
    {
      err := ScaleDownStorageStatefulSet(cr, storage, info);
      if err != Nil { return err; }
      err := TriggerRollingUpdate(cr, storage, broker, coordinator);
    }

    method ReconcileStorage(cr: UndermoonObject, storage: StatefulSetObject, broker: ComponentObject, coordinator: ComponentObject, allReady: bool) returns (err: Err)
      requires At(SyncRegistry(false), cr, storage) && Holds(broker, coordinator) && here.l.allReady == allReady
      modifies this, cr, storage, broker, coordinator
      ensures Valid() && Extends()
      ensures here.pc == Idle(err == Nil) && Blames(err)
    {
      var info;
      info, err := ReconcileCluster(cr, storage, allReady);
      if err != Nil { return err; }
      err := ScaleDownAndRoll(cr, storage, broker, coordinator, info);
    }

    method ReconcilePrepared(cr: UndermoonObject, storage: StatefulSetObject, broker: ComponentObject, coordinator: ComponentObject) returns (err: Err)
      requires At(PatchMaster, cr, storage) && Holds(broker, coordinator)
      modifies this, cr, storage, broker, coordinator
      ensures Valid() && Extends()
      ensures here.pc == Idle(err == Nil) && Blames(err)
    {
      var allReady;
      allReady, err := ReconcileBrokers(cr, storage);
      if err != Nil { return err; }
      err := ReconcileStorage(cr, storage, broker, coordinator, allReady);
    }

    method ReconcileFetched(cr: UndermoonObject) returns (err: Err)
      requires Valid() && here.pc.CreateMeta? && here.l.cr == cr.Value()
      modifies this, cr
      ensures Valid() && Extends()
      ensures here.pc == Idle(err == Nil) && Blames(err)
    {
      var storage, broker, coordinator;
      storage, broker, coordinator, err := CreateResources(cr);
      if err != Nil { return err; }
      err := BrokerAndCoordinatorReady(cr, storage, broker, coordinator);
      if err != Nil { return err; }
      err := ReconcilePrepared(cr, storage, broker, coordinator);
    }

    /** One pass. It returns done either at the end of all steps, or because the resource is gone. */
    method Reconcile() returns (result: Result, gone: bool)
      requires Valid() && here.pc.Idle?
      modifies this
      ensures Valid() && Extends()
      ensures if gone then result.Done? && OnlyEnvironment() else here.pc == Idle(result.Done?)
      ensures result.Failed? ==> failures > old(failures)
    {
      var cr, err;
      cr, gone, err := FetchUndermoon();
      if gone { return Done, gone; }
      if err == Nil {
        err := ReconcileFetched(cr);
      }
      result := Outcome(err);
    }

    static function Outcome(err: Err): Result
    {
      match err
      case Nil => Done
      case Retry => Requeue
      case Other => Failed
    }

    /** Passes follow one another, MaxConcurrentReconciles is 1; the slots stay on kept pods at every
        moment of every pass, and what one pass does is still safe when the next begins. */
    method Operate(passes: nat)
      requires Valid() && here.pc.Idle? && Initial(trail[0])
      modifies this
      ensures Valid() && Extends()
      ensures forall k :: 0 <= k <= |run| ==> trail[k] == Exec(trail[0], run[..k]) && SlotsFit(trail[k].w)
      ensures SlotsFit(api)
    {
      for i := 0 to passes
        invariant Valid() && Extends() && here.pc.Idle?
      {
        var result, gone := Reconcile();
      }
      forall k | 0 <= k <= |run| ensures trail[k] == Exec(trail[0], run[..k]) && SlotsFit(trail[k].w) {
        TrailIsExec(trail, run, k);
        RunKeepsInv(trail[0], run[..k]);
      }
    }
  }
}
