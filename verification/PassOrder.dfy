/**
 A pass makes its calls in the order of the source, leaves none out, and goes on only past calls
 that went well and checks that were met. Over every run: whatever call a pass is about to make,
 all the calls before it lie behind it in the same pass.
 */
module PassOrder {
  import opened Common
  import opened Templates
  import opened Scaling

  /** The place of a call in the pass. */
  function Rank(pc: Pc): nat
  {
    match pc
    case Idle(_) => 0
    case CreateMeta => 1
    case LoadBroker => 2
    case LoadCoordinator => 3
    case LoadStorage => 4
    case ScaleUp => 5
    case CheckBroker => 6
    case CheckCoordinator => 7
    case PatchMaster => 8
    case ConfigCoordinators => 9
    case CountEndpoints => 10
    case SyncRegistry(again) => if again then 19 else 11
    case FindCluster(again) => if again then 20 else 12
    case CreateCluster(again) => if again then 21 else 13
    case ConfigCluster(again) => if again then 22 else 14
    case GetInfo(again) => if again then 23 else 15
    case CheckStable => 16
    case ScaleNodes => 17
    case RemoveFreeNodes(_) => 18
    case Decide => 24
    case WriteWait => 25
    case Shrink => 26
    case WriteStable => 27
    case RollBroker => 28
    case RollCoordinator => 29
    case RollStorage => 30
  }

  /** The calls of every pass; the others are made only when there is something to do. */
  predicate Mandatory(pc: Pc)
  {
    !pc.Idle? && !pc.ScaleUp? && !pc.CreateCluster? && !pc.WriteWait? && !pc.Shrink? && !pc.WriteStable? && pc != RemoveFreeNodes(true)
  }

  /** What the pass must have found at a call to go on. */
  ghost predicate Good(pc: Pc, s: State)
  {
    match pc
    case CheckBroker => s.l.broker.ready >= 1 && s.w.broker.Some? && s.w.broker.value.endpoints >= 1
    case CheckCoordinator => s.l.coordinator.ready >= 1 && s.w.coordinator.Some? && s.w.coordinator.value.endpoints >= 1
    case CountEndpoints => |s.w.endpoints| >= 2 * s.l.cr.chunk
    case SyncRegistry(_) => s.l.allReady
    case CheckStable =>
      && |s.w.endpoints| >= 2 * s.l.cr.chunk && !s.l.info.migrating
      && s.l.storage.status == SetStatus(s.l.storage.replicas, s.l.storage.replicas)
    case Decide => s.l.info.withSlots == 4 * s.l.cr.chunk
    case RollBroker =>
      && !s.w.rules.changed(BrokerPart, s.l.cr.spec, s.l.broker.template)
      && s.l.broker.ready == 2 && s.w.broker.Some? && s.w.broker.value.endpoints >= 2
    case RollCoordinator =>
      && !s.w.rules.changed(CoordinatorPart, s.l.cr.spec, s.l.coordinator.template)
      && s.l.coordinator.ready >= 2 && s.w.coordinator.Some? && s.w.coordinator.value.endpoints >= 2
    case _ => true
  }

  /** The call came back without an error; the decision to scale down is no call of its own. */
  predicate WellAnswered(pc: Pc, a: Action) { a.Call? && (pc.Decide? || (!a.reply.Fail? && !a.reply.Lost?)) }

  /** The pass has that call behind it; the count of the endpoints only if they were enough. */
  predicate Past(pc: Pc, s: State)
  {
    !s.pc.Idle? && Rank(s.pc) > Rank(pc) && (pc.CountEndpoints? && s.pc == SyncRegistry(false) ==> s.l.allReady)
  }

  // ---------- One step ----------

  /** A step by which the pass gets past a call is that call, answered well and with its check met. */
  ghost predicate Through(pc: Pc, s: State, a: Action, t: State)
  {
    !Past(pc, s) && Past(pc, t) ==> s.pc == pc && WellAnswered(pc, a) && Good(pc, s)
  }

  lemma LoadThrough(pc: Pc, s: State, reply: Reply)
    requires s.w.WellFormed() && Mandatory(pc) && Rank(s.pc) <= 5
    ensures Through(pc, s, Call(reply), CallStep(s, reply))
  {
  }

  lemma CheckThrough(pc: Pc, s: State, reply: Reply)
    requires s.w.WellFormed() && Mandatory(pc) && 5 < Rank(s.pc) <= 10
    ensures Through(pc, s, Call(reply), CallStep(s, reply))
  {
  }

  lemma MetaThrough(pc: Pc, s: State, reply: Reply)
    requires s.w.WellFormed() && Mandatory(pc) && (10 < Rank(s.pc) <= 15 || 18 < Rank(s.pc) <= 23)
    ensures Through(pc, s, Call(reply), CallStep(s, reply))
  {
  }

  lemma MigrationThrough(pc: Pc, s: State, reply: Reply)
    requires s.w.WellFormed() && Mandatory(pc) && (15 < Rank(s.pc) <= 18 || Rank(s.pc) == 24)
    ensures Through(pc, s, Call(reply), CallStep(s, reply))
  {
  }

  lemma RollThrough(pc: Pc, s: State, reply: Reply)
    requires s.w.WellFormed() && Mandatory(pc) && Rank(s.pc) > 24
    ensures Through(pc, s, Call(reply), CallStep(s, reply))
  {
  }

  lemma StepThrough(pc: Pc, s: State, a: Action)
    requires s.w.WellFormed() && Mandatory(pc)
    ensures Through(pc, s, a, Step(s, a))
  {
    if a.Call? {
      var n := Rank(s.pc);
      if n <= 5 {
        LoadThrough(pc, s, a.reply);
      } else if n <= 10 {
        CheckThrough(pc, s, a.reply);
      } else if n <= 15 || 18 < n <= 23 {
        MetaThrough(pc, s, a.reply);
      } else if n <= 24 {
        MigrationThrough(pc, s, a.reply);
      } else {
        RollThrough(pc, s, a.reply);
      }
    }
  }

  // ---------- Runs ----------

  ghost function StateAfter(s: State): seq<Action> -> State
    requires s.w.WellFormed()
  {
    run => Exec(s, run)
  }

  /** Action j was the call, it went well with its check met, and the pass has been past it ever since. */
  ghost predicate MadeAt(at: seq<Action> -> State, run: seq<Action>, pc: Pc, j: nat)
    requires j < |run|
  {
    && at(run[..j]).pc == pc && WellAnswered(pc, run[j]) && Good(pc, at(run[..j]))
    && forall k :: j < k <= |run| ==> Past(pc, at(run[..k]))
  }

  ghost predicate Made(at: seq<Action> -> State, run: seq<Action>, pc: Pc)
  {
    exists j :: 0 <= j < |run| && MadeAt(at, run, pc, j)
  }

  /** The action after which something has held ever since. */
  lemma {:induction false} LastEntry(holds: seq<Action> -> bool, run: seq<Action>) returns (j: nat)
    requires !holds([]) && holds(run)
    ensures j < |run| && !holds(run[..j]) && forall k :: j < k <= |run| ==> holds(run[..k])
    decreases |run|
  {
    assert run != [];
    var n := |run| - 1;
    assert run[..|run|] == run;
    if holds(run[..n]) {
      j := LastEntry(holds, run[..n]);
      assert run[..n][..j] == run[..j];
      forall k | j < k < |run| ensures holds(run[..k]) { assert run[..n][..k] == run[..k]; }
    } else {
      j := n;
    }
  }

  ghost predicate OnlyThrough(at: seq<Action> -> State, pc: Pc)
  {
    && !Past(pc, at([]))
    && forall run {:trigger at(run)} :: |run| > 0 ==> Through(pc, at(run[..|run| - 1]), run[|run| - 1], at(run))
  }

  lemma MadeBefore(at: seq<Action> -> State, run: seq<Action>, pc: Pc)
    requires OnlyThrough(at, pc) && Past(pc, at(run))
    ensures Made(at, run, pc)
  {
    var j := LastEntry(r => Past(pc, at(r)), run);
    assert run[..j + 1][..j] == run[..j];
    assert Through(pc, at(run[..j]), run[j], at(run[..j + 1]));
    assert MadeAt(at, run, pc, j);
  }

  lemma RunsGoThrough(s: State, at: seq<Action> -> State, pc: Pc)
    requires s.w.WellFormed() && s.pc.Idle? && Mandatory(pc) && at == StateAfter(s) && at([]) == s
    ensures OnlyThrough(at, pc)
  {
    forall run: seq<Action> {:trigger at(run)} | |run| > 0 ensures Through(pc, at(run[..|run| - 1]), run[|run| - 1], at(run)) {
      StepThrough(pc, Exec(s, run[..|run| - 1]), run[|run| - 1]);
    }
  }

  // ---------- Main results ----------

  /** Whatever call the pass is about to make, every mandatory call before it was made in the same
      pass, answered well, and with its check met at that moment. */
  lemma CallsInOrder(s: State, run: seq<Action>, pc: Pc)
    requires Initial(s) && Mandatory(pc) && Past(pc, Exec(s, run))
    ensures Made(StateAfter(s), run, pc)
  {
    RunsGoThrough(s, StateAfter(s), pc);
    MadeBefore(StateAfter(s), run, pc);
  }

  /** The second call was made, and before it, in the same pass, the first. */
  ghost predicate MadeInOrder(at: seq<Action> -> State, run: seq<Action>, first: Pc, second: Pc)
  {
    exists j :: 0 <= j < |run| && MadeAt(at, run, second, j) && Made(at, run[..j], first)
  }

  lemma BothThrough(at: seq<Action> -> State, run: seq<Action>, first: Pc, second: Pc)
    requires OnlyThrough(at, first) && OnlyThrough(at, second) && !second.Idle? && Rank(first) < Rank(second)
    requires Past(second, at(run))
    ensures MadeInOrder(at, run, first, second)
  {
    MadeBefore(at, run, second);
    var j :| 0 <= j < |run| && MadeAt(at, run, second, j);
    MadeBefore(at, run[..j], first);
  }

  /** Any two mandatory calls behind the pass were made in the order of the source. */
  lemma CallsInTurn(s: State, run: seq<Action>, first: Pc, second: Pc)
    requires Initial(s) && Mandatory(first) && Mandatory(second) && Rank(first) < Rank(second) && Past(second, Exec(s, run))
    ensures MadeInOrder(StateAfter(s), run, first, second)
  {
    RunsGoThrough(s, StateAfter(s), first);
    RunsGoThrough(s, StateAfter(s), second);
    BothThrough(StateAfter(s), run, first, second);
  }

  /** The master is chosen only in a pass that has seen one broker and one coordinator ready and
      counted one endpoint of each. */
  lemma MasterNeedsOneOfEach(s: State, run: seq<Action>)
    requires Initial(s) && Exec(s, run).pc == PatchMaster
    ensures Made(StateAfter(s), run, CheckBroker) && Made(StateAfter(s), run, CheckCoordinator)
  {
    CallsInOrder(s, run, CheckBroker);
    CallsInOrder(s, run, CheckCoordinator);
  }

  lemma DoneComesLast(s: State, a: Action)
    requires s.w.WellFormed() && Step(s, a).pc == Idle(true) && s.pc != Idle(true)
    ensures s.pc == RollStorage && WellAnswered(RollStorage, a) && |s.w.endpoints| >= 2 * s.l.cr.chunk
    ensures !s.w.rules.changed(StoragePart, s.l.cr.spec, s.l.storage.template)
    ensures s.l.storage.status == SetStatus(s.l.storage.replicas, s.l.storage.replicas)
  {
  }

  /** A pass returns without requeue only after all its calls, none of which failed. */
  lemma DoneMadeAllCalls(s: State, run: seq<Action>, a: Action, pc: Pc)
    requires Initial(s) && Step(Exec(s, run), a).pc == Idle(true) && Exec(s, run).pc != Idle(true)
    requires Mandatory(pc)
    ensures Exec(s, run).pc == RollStorage && WellAnswered(RollStorage, a)
    ensures pc != RollStorage ==> Made(StateAfter(s), run, pc)
  {
    DoneComesLast(Exec(s, run), a);
    if pc != RollStorage { CallsInOrder(s, run, pc); }
  }

  // ---------- Calls that are made only for a reason ----------

  /** The call of the pass after which a conditional call may come. */
  function Before(pc: Pc): Pc
    requires !Mandatory(pc) && !pc.Idle?
  {
    match pc
    case ScaleUp => LoadStorage
    case CreateCluster(again) => FindCluster(again)
    case RemoveFreeNodes(_) => ScaleNodes
    case WriteWait => Decide
    case Shrink => Decide
    case _ => Shrink
  }

  /** Why it comes. */
  ghost predicate Reason(pc: Pc, s: State, a: Action)
  {
    match pc
    case ScaleUp => s.w.storage.Some? && s.w.storage.value.replicas < 2 * s.l.cr.chunk
    case CreateCluster(_) => s.w.cluster.None?
    case RemoveFreeNodes(_) => a == Call(FreeNodeFound)
    case WriteWait =>
      s.l.info.withSlots == 4 * s.l.cr.chunk && s.l.storage.replicas != 2 * s.l.cr.chunk && s.l.cr.status.state != ScaleDownWait
    case Shrink =>
      && s.l.info.withSlots == 4 * s.l.cr.chunk && s.l.storage.replicas != 2 * s.l.cr.chunk
      && s.l.cr.status.state == ScaleDownWait && s.l.cr.status.since + 30000 <= s.w.clock
    case _ => a == Call(Ok)
  }

  lemma StepHasReason(pc: Pc, s: State, a: Action)
    requires s.w.WellFormed() && !Mandatory(pc) && !pc.Idle? && s.pc != pc && Step(s, a).pc == pc
    ensures s.pc == Before(pc) && Reason(pc, s, a)
  {
    if a.Call? {
      if Rank(pc) <= 13 { EarlyReason(pc, s, a.reply); } else { LateReason(pc, s, a.reply); }
    }
  }

  lemma EarlyReason(pc: Pc, s: State, reply: Reply)
    requires s.w.WellFormed() && !Mandatory(pc) && !pc.Idle? && Rank(pc) <= 13 && s.pc != pc && CallStep(s, reply).pc == pc
    ensures s.pc == Before(pc) && Reason(pc, s, Call(reply))
  {
  }

  lemma LateReason(pc: Pc, s: State, reply: Reply)
    requires s.w.WellFormed() && !Mandatory(pc) && !pc.Idle? && Rank(pc) > 13 && s.pc != pc && CallStep(s, reply).pc == pc
    ensures s.pc == Before(pc) && Reason(pc, s, Call(reply))
  {
  }

  /** Action j led to the call, for its reason, and the pass has been at it ever since. */
  ghost predicate ComesFrom(at: seq<Action> -> State, run: seq<Action>, pc: Pc, j: nat)
    requires j < |run| && !Mandatory(pc) && !pc.Idle?
  {
    at(run[..j]).pc == Before(pc) && Reason(pc, at(run[..j]), run[j]) && forall k :: j < k <= |run| ==> at(run[..k]).pc == pc
  }

  ghost predicate OnlyForReason(at: seq<Action> -> State, pc: Pc)
    requires !Mandatory(pc) && !pc.Idle?
  {
    forall run {:trigger at(run)} :: |run| > 0 && at(run).pc == pc && at(run[..|run| - 1]).pc != pc ==>
      at(run[..|run| - 1]).pc == Before(pc) && Reason(pc, at(run[..|run| - 1]), run[|run| - 1])
  }

  lemma ReasonBefore(at: seq<Action> -> State, run: seq<Action>, pc: Pc)
    requires !Mandatory(pc) && !pc.Idle? && OnlyForReason(at, pc) && at([]).pc != pc && at(run).pc == pc
    ensures exists j :: 0 <= j < |run| && ComesFrom(at, run, pc, j)
  {
    var j := LastEntry(r => at(r).pc == pc, run);
    assert run[..j + 1][..j] == run[..j];
    assert ComesFrom(at, run, pc, j);
  }

  lemma RunsHaveReasons(s: State, at: seq<Action> -> State, pc: Pc)
    requires s.w.WellFormed() && !Mandatory(pc) && !pc.Idle? && at == StateAfter(s)
    ensures OnlyForReason(at, pc)
  {
    forall run: seq<Action> {:trigger at(run)} | |run| > 0 && at(run).pc == pc && at(run[..|run| - 1]).pc != pc
      ensures at(run[..|run| - 1]).pc == Before(pc) && Reason(pc, at(run[..|run| - 1]), run[|run| - 1])
    {
      StepHasReason(pc, Exec(s, run[..|run| - 1]), run[|run| - 1]);
    }
  }

  /** Pods are added only when there are too few, a cluster is created only when none was found,
      free nodes are removed for a retry only when they were found, a wait is requested only when the
      size is too large and none is stored, and the size is lowered only when one is stored and over. */
  lemma ConditionalCalls(s: State, run: seq<Action>, pc: Pc)
    requires Initial(s) && !Mandatory(pc) && !pc.Idle? && Exec(s, run).pc == pc
    ensures exists j :: 0 <= j < |run| && ComesFrom(StateAfter(s), run, pc, j)
  {
    RunsHaveReasons(s, StateAfter(s), pc);
    ReasonBefore(StateAfter(s), run, pc);
  }

  // ---------- What a call may replace ----------

  /** A StatefulSet or the status changes only if the pass has read its newest version. */
  ghost predicate HitsTheNewest(s: State, v: World)
  {
    && (s.w.storage.Some? && (v.storage.None? || v.storage.value.template != s.w.storage.value.template || v.storage.value.replicas != s.w.storage.value.replicas) ==>
          s.l.storage.revision + 1 == |s.w.storage.value.reports|)
    && (s.w.broker.Some? && (v.broker.None? || v.broker.value.template != s.w.broker.value.template) ==>
          s.l.broker.revision + 1 == |s.w.broker.value.reports|)
    && (s.w.coordinator.Some? && (v.coordinator.None? || v.coordinator.value.template != s.w.coordinator.value.template) ==>
          s.l.coordinator.revision + 1 == |s.w.coordinator.value.reports|)
    && (v.cr.status != s.w.cr.status ==> s.l.cr.version == s.w.cr.version)
  }

  /** Whatever step changes a StatefulSet or the status, the version it replaces is the one the pass
      has read: nobody's write is lost. */
  lemma WritesHitTheNewest(s: State, a: Action)
    requires s.w.WellFormed() && Step(s, a).w.WellFormed()
    ensures HitsTheNewest(s, Step(s, a).w)
  {
    if a.Call? {
      match s.pc
      case RollBroker | RollCoordinator | RollStorage => RollHitsTheNewest(s, a.reply);
      case ScaleUp | Shrink | WriteWait | WriteStable => WriteHitsTheNewest(s, a.reply);
      case LoadBroker | LoadCoordinator | LoadStorage => LoadHitsTheNewest(s, a.reply);
      case _ => OthersWriteNothing(s, a.reply);
    }
  }

  lemma RollHitsTheNewest(s: State, reply: Reply)
    requires s.w.WellFormed() && (s.pc.RollBroker? || s.pc.RollCoordinator? || s.pc.RollStorage?)
    ensures HitsTheNewest(s, CallStep(s, reply).w)
  {
  }

  lemma WriteHitsTheNewest(s: State, reply: Reply)
    requires s.w.WellFormed() && (s.pc.ScaleUp? || s.pc.Shrink? || s.pc.WriteWait? || s.pc.WriteStable?)
    ensures HitsTheNewest(s, CallStep(s, reply).w)
  {
  }

  lemma LoadHitsTheNewest(s: State, reply: Reply)
    requires s.w.WellFormed() && (s.pc.LoadBroker? || s.pc.LoadCoordinator? || s.pc.LoadStorage?)
    ensures HitsTheNewest(s, CallStep(s, reply).w)
  {
  }

  lemma OthersWriteNothing(s: State, reply: Reply)
    requires s.w.WellFormed() && Rank(s.pc) !in {2, 3, 4, 5, 25, 26, 27, 28, 29, 30}
    ensures HitsTheNewest(s, CallStep(s, reply).w)
  {
  }

  lemma StatusVersionsGrow(s: State, reply: Reply)
    requires s.w.WellFormed() && (s.pc.PatchMaster? || s.pc.WriteWait? || s.pc.WriteStable?)
    ensures CallStep(s, reply).w.cr == s.w.cr || CallStep(s, reply).w.cr.version == s.w.cr.version + 1
  {
  }

  lemma SetsKeepResource(s: State, reply: Reply)
    requires s.w.WellFormed() && Rank(s.pc) in {2, 3, 4, 5, 26, 28, 29, 30}
    ensures CallStep(s, reply).w.cr == s.w.cr
  {
  }

  lemma OthersKeepResource(s: State, reply: Reply)
    requires s.w.WellFormed() && Rank(s.pc) !in {2, 3, 4, 5, 8, 25, 26, 27, 28, 29, 30}
    ensures CallStep(s, reply).w.cr == s.w.cr
  {
  }

  /** Every change of the custom resource is a new version of it. */
  lemma VersionsGrow(s: State, a: Action)
    requires s.w.WellFormed()
    ensures Step(s, a).w.cr == s.w.cr || Step(s, a).w.cr.version == s.w.cr.version + 1
  {
    if a.Call? {
      if Rank(s.pc) in {8, 25, 27} {
        StatusVersionsGrow(s, a.reply);
      } else if Rank(s.pc) in {2, 3, 4, 5, 26, 28, 29, 30} {
        SetsKeepResource(s, a.reply);
      } else {
        OthersKeepResource(s, a.reply);
      }
    }
  }

  /** After the status patch the master that is now elected is shown, in a new version exactly if
      another one was shown before; and the pass goes on with that version. */
  lemma PatchShowsElected(s: State, reply: Reply)
    requires s.w.WellFormed() && s.pc == PatchMaster && CallStep(s, reply).pc != Idle(false)
    ensures var t := CallStep(s, reply);
      && t.w.cr.master == s.w.elected && t.l.cr == t.w.cr
      && (t.w.cr.version == s.w.cr.version <==> s.w.cr.master == s.w.elected)
  {
  }
}
