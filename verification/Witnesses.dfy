/**
 Runs that show what the protocol does not promise, and when it does:

 - the guard of createStorage does not cover the chunk number the pass works with later;
 - the wait before a decrease can be shorter than 30 seconds;
 - it can be that of an earlier request which was cancelled.
 */
module Witnesses {
  import opened Common
  import opened Templates
  import opened Scaling
  import opened SlotSafety
  import opened Convergence
  import opened ScaleDownDelay

  // ---------- Building runs ----------

  /** What is reached stays reached by one more action. */
  ghost predicate Closed(reach: State -> bool)
  {
    forall t: State, a: Action {:trigger Step(t, a)} :: t.w.WellFormed() && reach(t) ==> reach(Step(t, a))
  }

  ghost function Reachable(s: State): State -> bool
    requires s.w.WellFormed()
  {
    t => exists run :: Exec(s, run) == t
  }

  lemma ReachableIsClosed(s: State)
    requires s.w.WellFormed()
    ensures Closed(Reachable(s)) && Reachable(s)(s)
  {
    var reach := Reachable(s);
    assert Exec(s, []) == s;
    forall t: State, a: Action {:trigger Step(t, a)} | t.w.WellFormed() && reach(t) ensures reach(Step(t, a)) {
      var run :| Exec(s, run) == t;
      assert (run + [a])[..|run|] == run;
      assert Exec(s, run + [a]) == Step(t, a);
    }
  }

  function NewestStorage(w: World): SetCopy
    requires w.WellFormed() && w.storage.Some?
  {
    var v := w.storage.value;
    SetCopy(v.replicas, v.template, v.reports[|v.reports| - 1], |v.reports| - 1)
  }

  /** Broker and coordinator are up, and the StatefulSet has at least the pods of the spec. */
  predicate Running(w: World)
  {
    && w.WellFormed() && w.storage.Some? && w.broker.Some? && w.coordinator.Some?
    && Shards(w.cr.chunk) <= w.Replicas()
    && Ready(w.broker) >= BROKER_NUM && Endpoints(w.broker) >= BROKER_NUM
    && Ready(w.coordinator) >= COORDINATOR_NUM && Endpoints(w.coordinator) >= COORDINATOR_NUM
  }

  /** A pass reads everything in its newest version. */
  lemma ToStorage(reach: State -> bool, s: State) returns (t: State)
    requires Closed(reach) && reach(s) && s.pc.Idle? && Running(s.w)
    ensures reach(t) && t.w == s.w && t.pc == LoadStorage && t.l.cr == s.w.cr
    ensures t.l.broker.ready == Ready(s.w.broker) && t.l.coordinator.ready == Ready(s.w.coordinator)
  {
    t := Step(s, Call(Fetched(s.w.cr)));
    t := Step(t, Call(Ok));
    t := Step(t, Call(Read(|s.w.broker.value.reports| - 1)));
    t := Step(t, Call(Read(|s.w.coordinator.value.reports| - 1)));
  }

  lemma ToPatch(reach: State -> bool, s: State) returns (t: State)
    requires Closed(reach) && reach(s) && s.pc.Idle? && Running(s.w)
    ensures reach(t) && t.w == s.w && t.pc == PatchMaster && t.l.cr == s.w.cr && t.l.storage == NewestStorage(s.w)
  {
    t := ToStorage(reach, s);
    t := Step(t, Call(Read(|s.w.storage.value.reports| - 1)));
    t := Step(t, Call(Ok));
    t := Step(t, Call(Ok));
  }

  lemma ToFind(reach: State -> bool, s: State) returns (t: State)
    requires Closed(reach) && reach(s) && s.pc.Idle? && Running(s.w) && |s.w.endpoints| >= Shards(s.w.cr.chunk)
    ensures reach(t) && t.w == ShowMaster(s.w) && t.pc == FindCluster(false)
    ensures t.l.cr == t.w.cr && t.l.storage == NewestStorage(t.w) && t.l.allReady
  {
    t := ToPatch(reach, s);
    t := Step(t, Call(Ok));
    t := Step(t, Call(Ok));
    t := Step(t, Call(Ok));
    t := Step(t, Call(Ok));
  }

  /** A cluster that is where the spec wants it. */
  predicate InPlace(w: World)
  {
    w.cluster == Some(Cluster(Nodes(w.cr.chunk), Nodes(w.cr.chunk), Nodes(w.cr.chunk)))
  }

  function Clustered(w: World): World
  {
    if w.cluster.Some? then w else w.(cluster := Some(Cluster(Nodes(w.cr.chunk), Nodes(w.cr.chunk), Nodes(w.cr.chunk))))
  }

  lemma ToGate(reach: State -> bool, s: State) returns (t: State)
    requires Closed(reach) && reach(s) && s.pc.Idle? && Running(s.w) && |s.w.endpoints| >= Shards(s.w.cr.chunk)
    requires s.w.cluster.None? || InPlace(s.w)
    ensures reach(t) && t.w == Clustered(ShowMaster(s.w)) && InPlace(t.w) && t.pc == CheckStable
    ensures t.l.cr == t.w.cr && t.l.storage == NewestStorage(t.w) && t.l.allReady && !t.l.info.migrating
  {
    t := ToFind(reach, s);
    if t.w.cluster.None? {
      t := Step(t, Call(Ok));
    }
    t := Step(t, Call(Ok));
    t := Step(t, Call(Ok));
    t := Step(t, Call(Info(false)));
  }

  /** The StatefulSet is stable, but larger than the spec wants it. */
  predicate Oversized(w: World)
  {
    && Running(w) && |w.endpoints| >= Shards(w.cr.chunk) && (w.cluster.None? || InPlace(w))
    && NewestStorage(w).status == SetStatus(w.Replicas(), w.Replicas())
    && w.Replicas() > Shards(w.cr.chunk)
  }

  lemma ToSecondSync(reach: State -> bool, s: State) returns (t: State)
    requires Closed(reach) && reach(s) && s.pc.Idle? && Oversized(s.w)
    ensures reach(t) && t.w == Clustered(ShowMaster(s.w)) && InPlace(t.w) && t.pc == SyncRegistry(true)
    ensures t.l.cr == t.w.cr && t.l.storage == NewestStorage(t.w) && t.l.allReady
  {
    t := ToGate(reach, s);
    t := Step(t, Call(Ok));
    t := Step(t, Call(Ok));
    t := Step(t, Call(Ok));
  }

  lemma ToDecide(reach: State -> bool, s: State) returns (t: State)
    requires Closed(reach) && reach(s) && s.pc.Idle? && Oversized(s.w)
    ensures reach(t) && t.w == Clustered(ShowMaster(s.w)) && t.pc == Decide
    ensures t.l.cr == t.w.cr && t.l.storage == NewestStorage(t.w) && t.l.info.withSlots == Nodes(t.w.cr.chunk)
  {
    t := ToSecondSync(reach, s);
    t := Step(t, Call(Ok));
    t := Step(t, Call(Ok));
    t := Step(t, Call(Ok));
    t := Step(t, Call(Info(false)));
  }

  /** The first decision to scale down ends in a write of ScaleDownWait. */
  lemma ToWrite(reach: State -> bool, s: State) returns (t: State)
    requires Closed(reach) && reach(s) && s.pc.Idle? && Oversized(s.w) && s.w.Status().state != ScaleDownWait
    ensures reach(t) && t.w == Clustered(ShowMaster(s.w)) && t.pc == WriteWait && t.l.cr == t.w.cr
  {
    t := ToDecide(reach, s);
    t := Step(t, Call(Ok));
  }

  /** With a stored wait that is over, the next step of a pass lowers the replicas. */
  lemma ToShrink(reach: State -> bool, s: State) returns (t: State)
    requires Closed(reach) && reach(s) && s.pc.Idle? && Oversized(s.w) && Waited(s.w.Status(), s.w.clock)
    ensures reach(t) && t.w == Clustered(ShowMaster(s.w)) && LowersReplicas(t, Call(Ok))
  {
    t := ToDecide(reach, s);
    t := Step(t, Call(Ok));
  }

  // ---------- A cluster with more pods than the spec wants ----------

  function Filler(): ComponentCopy { ComponentCopy(Template([]), 0, 0) }

  /** A custom resource for `chunk` chunks and nothing else. */
  function Fresh(rules: Rules, spec: Spec, chunk: Chunk, clock: nat): State
  {
    var cr := Undermoon(chunk, spec, "", ScaleStatus(Unset, 0), 0);
    State(World(cr, None, {}, {}, None, None, None, "", rules, clock),
          Local(cr, Filler(), Filler(), SetCopy(0, Template([]), SetStatus(0, 0), 0), false, ClusterInfo(0, false)), Idle(false))
  }

  function Created(w: World): World
  {
    w.(broker := Some(Component(w.rules.create(BrokerPart, w.cr.spec), [0], 0)),
       coordinator := Some(Component(w.rules.create(CoordinatorPart, w.cr.spec), [0], 0)),
       storage := Some(StatefulSet(Shards(w.cr.chunk), w.rules.create(StoragePart, w.cr.spec), [SetStatus(0, 0)])))
  }

  lemma ToCreated(reach: State -> bool, s: State) returns (t: State)
    requires Closed(reach) && reach(s) && Initial(s)
    ensures reach(t) && t.pc.Idle? && t.w == Created(s.w)
  {
    t := Step(s, Call(Fetched(s.w.cr)));
    t := Step(t, Call(Ok));
    t := Step(t, Call(Ok));
    t := Step(t, Call(Ok));
    t := Step(t, Call(Ok));
    t := Step(t, Call(Ok));
  }

  lemma ToServed(reach: State -> bool, s: State) returns (t: State)
    requires Closed(reach) && reach(s) && s.pc.Idle? && s.w.WellFormed() && s.w.broker.Some? && s.w.coordinator.Some?
    requires s.w.storage.Some? && Shards(s.w.cr.chunk) <= s.w.Replicas()
    ensures reach(t) && t.pc.Idle? && Running(t.w)
    ensures t.w == s.w.(broker := Serving(s.w.broker, 2, 2), coordinator := Serving(s.w.coordinator, 2, 2))
  {
    t := Step(s, Action.Serve(BrokerPart, 2, 2));
    t := Step(t, Action.Serve(CoordinatorPart, 2, 2));
  }

  lemma ToPods(reach: State -> bool, s: State) returns (t: State)
    requires Closed(reach) && reach(s) && s.pc.Idle? && s.w.WellFormed() && s.w.Replicas() == 4 && s.w.pods == {}
    ensures reach(t) && t.pc.Idle? && t.w == s.w.(pods := {0, 1, 2, 3})
  {
    t := Step(s, PodStart(0));
    t := Step(t, PodStart(1));
    t := Step(t, PodStart(2));
    t := Step(t, PodStart(3));
  }

  lemma ToEndpoints(reach: State -> bool, s: State) returns (t: State)
    requires Closed(reach) && reach(s) && s.pc.Idle? && s.w.WellFormed() && s.w.pods == {0, 1, 2, 3} && s.w.endpoints == {}
    ensures reach(t) && t.pc.Idle? && t.w == s.w.(endpoints := {0, 1})
  {
    t := Step(s, EndpointUp(0));
    t := Step(t, EndpointUp(1));
  }

  lemma FourPods()
    ensures {0, 1, 2, 3} * Below(4) == {0, 1, 2, 3} && |{0, 1, 2, 3}| == 4
  {
  }

  lemma ToReport(reach: State -> bool, s: State) returns (t: State)
    requires Closed(reach) && reach(s) && s.pc.Idle? && s.w.WellFormed() && s.w.storage.Some? && s.w.Replicas() == 4 && s.w.pods == {0, 1, 2, 3}
    ensures reach(t) && t.pc.Idle? && t.w.WellFormed()
    ensures t.w == s.w.(storage := Some(s.w.storage.value.(reports := s.w.storage.value.reports + [SetStatus(4, 4)])))
  {
    FourPods();
    t := Step(s, ReportStatus(4));
  }

  /** From a spec of two chunks the pods of both come up, and the spec is cut to one. */
  lemma ToOversized(reach: State -> bool, s: State) returns (t: State)
    requires Closed(reach) && reach(s) && Initial(s) && s.w.cr.chunk == 2
    ensures reach(t) && t.pc.Idle? && Oversized(t.w) && t.w.cluster.None? && t.w.clock == s.w.clock && t.w.Status().state == Unset
    ensures t.w.cr.chunk == 1
  {
    t := ToCreated(reach, s);
    t := ToServed(reach, t);
    t := ToPods(reach, t);
    t := ToEndpoints(reach, t);
    t := ToReport(reach, t);
    t := Step(t, UserEdit(1, t.w.cr.spec));
  }

  // ---------- The guard ----------

  /** The replicas suffice for the chunk number the pass works with. */
  predicate Covered(s: State) { 2 * s.l.cr.chunk <= s.w.Replicas() }

  /** No action of `rest` ends the pass. */
  ghost predicate SamePass(s: State, rest: seq<Action>)
    requires s.w.WellFormed()
  {
    forall k :: 0 <= k <= |rest| ==> !Exec(s, rest[..k]).pc.Idle?
  }

  lemma CallBeforeGate(s: State, reply: Reply)
    requires s.w.WellFormed() && Patched(s.pc) && !PastGate(s.pc) && !CallStep(s, reply).pc.Idle?
    ensures var t := CallStep(s, reply); Patched(t.pc) && t.l.cr == s.l.cr && t.w.Replicas() == s.w.Replicas()
  {
  }

  lemma CallPastGate(s: State, reply: Reply)
    requires s.w.WellFormed() && PastGate(s.pc) && !CallStep(s, reply).pc.Idle?
    ensures PastGate(CallStep(s, reply).pc)
  {
  }

  lemma CallKeepsCover(s: State, reply: Reply)
    requires Inv(s) && Patched(s.pc) && !CallStep(s, reply).pc.Idle?
    ensures Patched(CallStep(s, reply).pc) && (Covered(CallStep(s, reply)) <==> Covered(s))
  {
    if PastGate(s.pc) {
      CallPastGate(s, reply);
      CallKeepsInv(s, reply);
    } else {
      CallBeforeGate(s, reply);
    }
  }

  lemma StepKeepsCover(s: State, a: Action)
    requires Inv(s) && Patched(s.pc) && !Step(s, a).pc.Idle?
    ensures Patched(Step(s, a).pc) && (Covered(Step(s, a)) <==> Covered(s))
  {
    if a.Call? { CallKeepsCover(s, a.reply); }
  }

  lemma {:induction false} PassKeepsCover(s: State, rest: seq<Action>)
    requires Inv(s) && Patched(s.pc) && SamePass(s, rest)
    ensures var t := Exec(s, rest); Inv(t) && Patched(t.pc) && (Covered(t) <==> Covered(s))
    decreases |rest|
  {
    if rest != [] {
      var k := |rest| - 1;
      var before := rest[..k];
      assert forall i :: 0 <= i <= k ==> before[..i] == rest[..i];
      PassKeepsCover(s, before);
      assert rest[..|rest|] == rest;
      StepKeepsInv(Exec(s, before), rest[k]);
      StepKeepsCover(Exec(s, before), rest[k]);
    }
  }

  /** The guard of createStorage holds until the status patch. From then on, at every moment until
      the pass ends, it covers the pass exactly if the chunk number stored at the patch fitted the
      replicas; it did when nothing had written the custom resource since the pass read it. A pass
      that is not covered never gets past the readiness gate. */
  lemma GuardCoversExactly(s: State, run: seq<Action>, rest: seq<Action>)
    requires Initial(s) && Exec(s, run).pc == PatchMaster
    requires var u := Step(Exec(s, run), Call(Ok)); u.w.WellFormed() && SamePass(u, rest)
    ensures Covered(Exec(s, run))
    ensures var t := Exec(s, run); var v := Exec(Step(t, Call(Ok)), rest);
      && (Covered(v) <==> 2 * t.w.cr.chunk <= t.w.Replicas())
      && (PastGate(v.pc) ==> 2 * t.w.cr.chunk <= t.w.Replicas())
    ensures var t := Exec(s, run); t.l.cr.version == t.w.cr.version ==> Covered(Exec(Step(t, Call(Ok)), rest))
  {
    var t := Exec(s, run);
    RunKeepsInv(s, run);
    StepKeepsInv(t, Call(Ok));
    PassKeepsCover(Step(t, Call(Ok)), rest);
  }

  /** And it need not: an edit between guard and patch leaves the pass with more shards than pods. */
  lemma GuardDoesNotCover(rules: Rules, spec: Spec, clock: nat)
    ensures exists run :: var u := Exec(Fresh(rules, spec, 1, clock), run); u.pc == ConfigCoordinators && 2 * u.l.cr.chunk > u.w.Replicas()
  {
    var s := Fresh(rules, spec, 1, clock);
    var reach := Reachable(s);
    ReachableIsClosed(s);
    var t := ToCreated(reach, s);
    t := ToServed(reach, t);
    t := ToPatch(reach, t);
    t := EditedBeforePatch(reach, t);
    var run :| Exec(s, run) == t;
  }

  lemma EditedBeforePatch(reach: State -> bool, s: State) returns (t: State)
    requires Closed(reach) && reach(s) && s.w.WellFormed() && s.pc == PatchMaster && s.w.Replicas() == 2
    ensures reach(t) && t.pc == ConfigCoordinators && Shards(t.l.cr.chunk) > t.w.Replicas()
  {
    t := Step(s, UserEdit(2, s.w.cr.spec));
    t := Step(t, Call(Ok));
  }

  // ---------- The wait ----------

  /** The wait is written after `first`, and after `rest` a step lowers the replicas with that wait stored. */
  ghost predicate DecreaseAfter(s: State, first: seq<Action>, rest: seq<Action>, a: Action)
  {
    && Initial(s) && Exec(s, first).pc.WriteWait? && Accepted(Exec(s, first), Call(Ok))
    && var u := Exec(s, first + ([Call(Ok)] + rest));
    && LowersReplicas(u, a) && u.w.Status() == Stamp(Exec(s, first).w.clock)
  }

  /** From an oversized cluster to the write of the wait. */
  lemma ToFirstWrite(reach: State -> bool, s: State) returns (t: State)
    requires Closed(reach) && reach(s) && Initial(s) && s.w.cr.chunk == 2
    ensures t.w.WellFormed() && reach(t) && t.pc == WriteWait && Accepted(t, Call(Ok)) && t.w.clock == s.w.clock
    ensures var u := Step(t, Call(Ok)); u.pc.Idle? && Oversized(u.w) && u.w.Status() == Stamp(s.w.clock) && u.w.clock == s.w.clock && u.w.cr.chunk == 1
  {
    t := ToOversized(reach, s);
    t := ToWrite(reach, t);
  }

  /** With the wait stored, the spec is taken back to two chunks by the time `now`. */
  lemma ToCancelled(reach: State -> bool, s: State, written: nat, now: nat) returns (t: State)
    requires Closed(reach) && reach(s) && s.pc.Idle? && Oversized(s.w) && s.w.Status() == Stamp(written)
    requires s.w.cr.chunk == 1 && s.w.clock == written <= now
    ensures reach(t) && t.pc.Idle? && t.w.WellFormed() && t.w.cr.chunk == 2 && t.w.Status() == Stamp(written) && t.w.clock == now
    ensures Oversized(EnvStep(t.w, UserEdit(1, t.w.cr.spec)))
  {
    t := Step(s, Tick(now - written));
    t := Step(t, UserEdit(2, s.w.cr.spec));
  }

  /** The clock goes on until `moment`, and then a pass lowers the replicas. */
  lemma ToDecrease(reach: State -> bool, s: State, moment: nat) returns (t: State)
    requires Closed(reach) && reach(s) && s.pc.Idle? && Oversized(s.w) && s.w.clock <= moment && Waited(s.w.Status(), moment)
    ensures t.w.WellFormed() && reach(t) && LowersReplicas(t, Call(Ok)) && t.w.Status() == s.w.Status() && t.w.clock == moment
  {
    t := Step(s, Tick(moment - s.w.clock));
    t := ToShrink(reach, t);
  }

  lemma Joined(s: State, first: seq<Action>, a: Action, rest: seq<Action>)
    requires s.w.WellFormed()
    ensures Step(Exec(s, first), a).w.WellFormed()
    ensures Exec(s, first + ([a] + rest)) == Exec(Step(Exec(s, first), a), rest)
  {
    ExecOne(Exec(s, first), a);
    ExecConcat(Exec(s, first), [a], rest);
    ExecConcat(s, first, [a] + rest);
  }

  /** For every time at which the wait is written the bound of DecreaseIsDelayed is met exactly. */
  lemma DelayIsTight(rules: Rules, spec: Spec, written: nat)
    ensures exists first, rest :: var s := Fresh(rules, spec, 2, written);
      DecreaseAfter(s, first, rest, Call(Ok)) && Exec(s, first).w.clock == written
      && Exec(s, first + ([Call(Ok)] + rest)).w.clock == EarliestDecrease(written)
  {
    var s := Fresh(rules, spec, 2, written);
    ReachableIsClosed(s);
    var t := ToFirstWrite(Reachable(s), s);
    var first :| Exec(s, first) == t;
    var u := Step(t, Call(Ok));
    ReachableIsClosed(u);
    var x := ToDecrease(Reachable(u), u, EarliestDecrease(written));
    var rest :| Exec(u, rest) == x;
    Joined(s, first, Call(Ok), rest);
    assert DecreaseAfter(s, first, rest, Call(Ok));
  }

  /** A full 30 seconds pass before every decrease exactly if the wait is written on a whole second. */
  lemma FullWaitExactly(rules: Rules, spec: Spec, written: nat)
    ensures (exists s, first, rest, a :: DecreaseAfter(s, first, rest, a) && Exec(s, first).w.clock == written
              && Exec(s, first + ([Call(Ok)] + rest)).w.clock < written + 30000) <==> written % 1000 != 0
  {
    forall s, first, rest, a | DecreaseAfter(s, first, rest, a) && Exec(s, first).w.clock == written
      ensures EarliestDecrease(written) <= Exec(s, first + ([Call(Ok)] + rest)).w.clock
    {
      var run := first + ([Call(Ok)] + rest);
      ReplicasFallOnlyInScaleDown(s, run, a);
      ShrinkHasWaited(s, run);
    }
    DelayIsTight(rules, spec, written);
  }

  // ---------- Requests ----------

  lemma {:induction false} ClockGoesOn(s: State, run: seq<Action>, i: nat, j: nat)
    requires s.w.WellFormed() && i <= j <= |run|
    ensures WorldAt(s, run, i).clock <= WorldAt(s, run, j).clock
    decreases j
  {
    if i < j {
      ClockGoesOn(s, run, i, j - 1);
      assert run[..j][..j - 1] == run[..j - 1];
      StepKeepsClock(Exec(s, run[..j - 1]), run[j - 1]);
    }
  }

  lemma StepKeepsClock(s: State, a: Action)
    requires s.w.WellFormed()
    ensures s.w.clock <= Step(s, a).w.clock
  {
  }

  lemma EarliestGrows(a: nat, b: nat)
    requires a <= b
    ensures EarliestDecrease(a) <= EarliestDecrease(b)
  {
  }

  /** The stored wait was stamped in the second of the clock, or later. */
  predicate StampedNow(w: World) { w.Status().since >= w.clock - w.clock % SECOND }

  /** A wait that was already stored before action i is the one stored then. */
  lemma WaitWasStored(s: State, run: seq<Action>, i: nat, j: nat)
    requires s.w.WellFormed() && j < i <= |run| && WaitStoredAt(s, run, j)
    ensures WorldAt(s, run, i).Status() == Stamp(WorldAt(s, run, j).clock)
  {
    assert StatusAfter(s)(run[..i]) == Stamp(WorldAt(s, run, j).clock);
  }

  /** No decrease after action i comes before the time of that action, nor before the end of the
      wait stored then; without one, or with one stamped in that very second, it comes no earlier
      than if the wait were written then. */
  lemma RequestIsDelayed(s: State, run: seq<Action>, i: nat, a: Action)
    requires Initial(s) && i <= |run| && LowersReplicas(Exec(s, run), a)
    ensures var w, now := WorldAt(s, run, i), Exec(s, run).w.clock;
      && w.clock <= now
      && (EarliestDecrease(w.clock) <= now || (w.Status().state == ScaleDownWait && w.Status().since + SCALE_DOWN_WAIT_TIME <= now))
  {
    DecreaseIsDelayed(s, run, a);
    var j :| 0 <= j < |run| && WaitStoredAt(s, run, j) && EarliestDecrease(WorldAt(s, run, j).clock) <= Exec(s, run).w.clock;
    assert run[..|run|] == run;
    ClockGoesOn(s, run, i, |run|);
    if j < i {
      WaitWasStored(s, run, i, j);
    } else {
      ClockGoesOn(s, run, i, j);
      EarliestGrows(WorldAt(s, run, i).clock, WorldAt(s, run, j).clock);
    }
  }

  /** A request made while no wait is stored, or in the second of its stamp, waits for itself: no
      decrease comes within 30 seconds of it, less the lost fraction. */
  lemma FreshRequestWaits(s: State, run: seq<Action>, i: nat, a: Action)
    requires Initial(s) && i <= |run| && LowersReplicas(Exec(s, run), a)
    requires WorldAt(s, run, i).Status().state != ScaleDownWait || StampedNow(WorldAt(s, run, i))
    ensures EarliestDecrease(WorldAt(s, run, i).clock) <= Exec(s, run).w.clock
  {
    RequestIsDelayed(s, run, i, a);
  }

  /** After `first`, with the wait written at `written` stored, the request `edit` lowers the chunk
      number at `now`, and after `rest` a step lowers the replicas at `moment`. */
  ghost predicate DecreaseOnRequest(s: State, first: seq<Action>, edit: Action, rest: seq<Action>, written: nat, now: nat, moment: nat)
  {
    && Initial(s) && edit.UserEdit? && edit.chunk < Exec(s, first).w.cr.chunk
    && Exec(s, first).w.Status() == Stamp(written) && Exec(s, first).w.clock == now
    && var u := Exec(s, first + ([edit] + rest)); LowersReplicas(u, Call(Ok)) && u.w.clock == moment
  }

  ghost predicate CanDecrease(written: nat, now: nat, moment: nat)
  {
    exists s, first, edit, rest :: DecreaseOnRequest(s, first, edit, rest, written, now, moment)
  }

  lemma RequestLowers(s: State, first: seq<Action>, v: State, written: nat, now: nat, moment: nat)
    requires Initial(s) && Exec(s, first).pc.Idle? && Exec(s, first).w.cr.chunk == 2
    requires Exec(s, first).w.Status() == Stamp(written) && Exec(s, first).w.clock == now <= moment && EarliestDecrease(written) <= moment
    requires v == Step(Exec(s, first), UserEdit(1, Exec(s, first).w.cr.spec)) && Oversized(v.w)
    ensures CanDecrease(written, now, moment)
  {
    ReachableIsClosed(v);
    var x := ToDecrease(Reachable(v), v, moment);
    var rest :| Exec(v, rest) == x;
    var edit := UserEdit(1, Exec(s, first).w.cr.spec);
    Joined(s, first, edit, rest);
    assert DecreaseOnRequest(s, first, edit, rest, written, now, moment);
  }

  lemma RequestCanLower(rules: Rules, spec: Spec, written: nat, now: nat, moment: nat)
    requires written <= now <= moment && EarliestDecrease(written) <= moment
    ensures CanDecrease(written, now, moment)
  {
    var s := Fresh(rules, spec, 2, written);
    ReachableIsClosed(s);
    var t := ToFirstWrite(Reachable(s), s);
    t := ToCancelled(Reachable(s), Step(t, Call(Ok)), written, now);
    var first :| Exec(s, first) == t;
    RequestLowers(s, first, Step(t, UserEdit(1, t.w.cr.spec)), written, now, moment);
  }

  /** A request made at `now`, while the wait written at `written` is stored, can be followed by a
      decrease at `moment` exactly if that is not before the request and the stored wait is over:
      the request itself adds nothing to the wait. */
  lemma StoredWaitDecides(rules: Rules, spec: Spec, written: nat, now: nat, moment: nat)
    requires written <= now
    ensures CanDecrease(written, now, moment) <==> now <= moment && EarliestDecrease(written) <= moment
  {
    forall s, first, edit, rest | DecreaseOnRequest(s, first, edit, rest, written, now, moment)
      ensures now <= moment && EarliestDecrease(written) <= moment
    {
      var run := first + ([edit] + rest);
      assert run[..|first|] == first;
      RequestIsDelayed(s, run, |first|, Call(Ok));
      EarliestGrows(written, now);
    }
    if now <= moment && EarliestDecrease(written) <= moment { RequestCanLower(rules, spec, written, now, moment); }
  }

  /** So a request made while a wait is stored can be followed by a decrease before its own wait
      would be over exactly if the stored wait was written in an earlier second. */
  lemma RequestWaitsExactly(rules: Rules, spec: Spec, written: nat, now: nat)
    requires written <= now
    ensures (exists moment: nat :: moment < EarliestDecrease(now) && CanDecrease(written, now, moment)) <==> written / 1000 < now / 1000
  {
    forall moment: nat { StoredWaitDecides(rules, spec, written, now, moment); }
    var first := Max(now, EarliestDecrease(written));
    assert CanDecrease(written, now, first);
  }

  /** It need not wait at all exactly if the stored wait is over. */
  lemma RepeatedRequestNeedNotWait(rules: Rules, spec: Spec, written: nat, now: nat)
    requires written <= now
    ensures CanDecrease(written, now, now) <==> EarliestDecrease(written) <= now
  {
    StoredWaitDecides(rules, spec, written, now, now);
  }
}
