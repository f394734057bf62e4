/**
 The delay before pods are removed, over whole histories: every decrease of the replicas goes
 back to one stored write of ScaleDownWait that nothing has replaced since.
 */
module ScaleDownDelay {
  import opened Common
  import opened Scaling
  import opened SlotSafety
  import opened PassOrder

  function WorldAt(s: State, run: seq<Action>, k: nat): World
    requires s.w.WellFormed() && k <= |run|
  {
    Exec(s, run[..k]).w
  }

  /** The stored status after a sequence of actions. */
  ghost function StatusAfter(s: State): seq<Action> -> ScaleStatus
    requires s.w.WellFormed()
  {
    run => Exec(s, run).w.Status()
  }

  ghost predicate Held(at: seq<Action> -> ScaleStatus, run: seq<Action>, j: nat, status: ScaleStatus)
  {
    forall k :: j < k <= |run| ==> at(run[..k]) == status
  }

  lemma HeldLonger(at: seq<Action> -> ScaleStatus, run: seq<Action>, j: nat, status: ScaleStatus)
    requires run != [] && Held(at, run[..|run| - 1], j, status) && at(run) == status
    ensures Held(at, run, j, status)
  {
    var before := run[..|run| - 1];
    assert run[..|run|] == run;
    forall k | j < k <= |run| ensures at(run[..k]) == status {
      if k < |run| { assert before[..k] == run[..k]; }
    }
  }

  /** The clock counts milliseconds, and a stored stamp has whole seconds. */
  function Stamp(clock: nat): ScaleStatus { ScaleStatus(ScaleDownWait, clock - clock % 1000) }

  /** The call was accepted: against the stored version, and carried out even if the answer got lost. */
  predicate Accepted(s: State, a: Action)
  {
    a.Call? && (a.reply.Ok? || a.reply.Lost?) && s.l.cr.version == s.w.cr.version
  }

  /** Action j stored ScaleDownWait by an accepted write, stamped with its own time cut to the
      second, and the stored status has been that one ever since. */
  ghost predicate WaitStoredAt(s: State, run: seq<Action>, j: nat)
    requires s.w.WellFormed() && j < |run|
  {
    && Exec(s, run[..j]).pc.WriteWait? && Accepted(Exec(s, run[..j]), run[j])
    && Held(StatusAfter(s), run, j, Stamp(WorldAt(s, run, j).clock))
  }

  lemma RollKeepsStatus(s: State, reply: Reply)
    requires s.w.WellFormed() && (s.pc.RollBroker? || s.pc.RollCoordinator? || s.pc.RollStorage?)
    ensures CallStep(s, reply).w.Status() == s.w.Status()
  {
  }

  lemma LoadKeepsStatus(s: State, reply: Reply)
    requires s.w.WellFormed() && (s.pc.LoadBroker? || s.pc.LoadCoordinator? || s.pc.LoadStorage? || s.pc.ScaleUp? || s.pc.Shrink?)
    ensures CallStep(s, reply).w.Status() == s.w.Status()
  {
  }

  lemma OthersKeepStatus(s: State, reply: Reply)
    requires s.w.WellFormed() && !s.pc.WriteWait? && !s.pc.WriteStable?
    ensures CallStep(s, reply).w.Status() == s.w.Status()
  {
    match s.pc
    case RollBroker | RollCoordinator | RollStorage => RollKeepsStatus(s, reply);
    case LoadBroker | LoadCoordinator | LoadStorage | ScaleUp | Shrink => LoadKeepsStatus(s, reply);
    case _ =>
  }

  /** The only step that makes the stored status ScaleDownWait. */
  lemma WaitComesFromWrite(s: State, a: Action)
    requires s.w.WellFormed()
    requires Step(s, a).w.Status().state == ScaleDownWait && Step(s, a).w.Status() != s.w.Status()
    ensures s.pc.WriteWait? && Accepted(s, a)
    ensures Step(s, a).w.Status() == ScaleStatus(ScaleDownWait, s.w.clock - s.w.clock % SECOND)
  {
    if a.Call? && !s.pc.WriteWait? && !s.pc.WriteStable? { OthersKeepStatus(s, a.reply); }
  }

  lemma WaitLasts(s: State, run: seq<Action>, j: nat)
    requires s.w.WellFormed() && j < |run| - 1 && WaitStoredAt(s, run[..|run| - 1], j)
    requires Exec(s, run).w.Status() == Stamp(WorldAt(s, run, j).clock)
    ensures WaitStoredAt(s, run, j)
  {
    assert run[..|run| - 1][..j] == run[..j];
    HeldLonger(StatusAfter(s), run, j, Stamp(WorldAt(s, run, j).clock));
  }

  lemma WaitIsStillStored(s: State, run: seq<Action>, j: nat)
    requires s.w.WellFormed() && j < |run| && WaitStoredAt(s, run, j)
    ensures Exec(s, run).w.Status() == Stamp(WorldAt(s, run, j).clock)
  {
    assert run[..|run|] == run;
    assert StatusAfter(s)(run[..|run|]) == Stamp(WorldAt(s, run, j).clock);
  }

  lemma WaitStartsHere(s: State, run: seq<Action>)
    requires s.w.WellFormed() && run != []
    requires Exec(s, run).w.Status().state == ScaleDownWait && Exec(s, run).w.Status() != Exec(s, run[..|run| - 1]).w.Status()
    ensures WaitStoredAt(s, run, |run| - 1)
  {
    WaitComesFromWrite(Exec(s, run[..|run| - 1]), run[|run| - 1]);
    assert run[..|run|] == run;
  }

  /** A stored ScaleDownWait goes back to one accepted write. */
  lemma {:induction false} WaitHasOrigin(s: State, run: seq<Action>)
    requires Initial(s)
    requires Exec(s, run).w.Status().state == ScaleDownWait
    ensures exists j :: 0 <= j < |run| && WaitStoredAt(s, run, j)
    decreases |run|
  {
    if run != [] {
      var before := run[..|run| - 1];
      if Exec(s, before).w.Status() == Exec(s, run).w.Status() {
        WaitHasOrigin(s, before);
        var j :| 0 <= j < |before| && WaitStoredAt(s, before, j);
        WaitIsStillStored(s, before, j);
        assert before[..j] == run[..j];
        WaitLasts(s, run, j);
      } else {
        WaitStartsHere(s, run);
      }
    }
  }

  /** When a write at this time lets the replicas fall. */
  function EarliestDecrease(written: nat): nat { written - written % 1000 + 30000 }

  /** Every decrease rests on one write of ScaleDownWait that met no conflict, was stored and is
      still stored, and comes 30 seconds after it, less the fraction of a second at which it was
      written and which the stored stamp has lost. */
  lemma DecreaseIsDelayed(s: State, run: seq<Action>, a: Action)
    requires Initial(s)
    requires LowersReplicas(Exec(s, run), a)
    ensures exists j :: 0 <= j < |run| && WaitStoredAt(s, run, j) && EarliestDecrease(WorldAt(s, run, j).clock) <= Exec(s, run).w.clock
  {
    ReplicasFallOnlyInScaleDown(s, run, a);
    ShrinkHasWaited(s, run);
    WaitHasOrigin(s, run);
    var j :| 0 <= j < |run| && WaitStoredAt(s, run, j);
    WaitIsStillStored(s, run, j);
  }

  lemma ShrinkHasWaited(s: State, run: seq<Action>)
    requires Initial(s) && Exec(s, run).pc.Shrink?
    ensures Waited(Exec(s, run).w.Status(), Exec(s, run).w.clock)
  {
    RunKeepsInv(s, run);
  }

  // ---------- The wait ends with the decrease ----------

  /** The pass has still to note that the size is stable again, or has noted it. */
  predicate Ending(s: State)
  {
    || s.pc == WriteStable
    || ((s.pc == RollBroker || s.pc == RollCoordinator || s.pc == RollStorage) && s.w.Status().state == Stable)
  }

  lemma CallKeepsEnding(s: State, reply: Reply)
    requires s.w.WellFormed() && Ending(s) && !CallStep(s, reply).pc.Idle?
    ensures Ending(CallStep(s, reply))
  {
  }

  lemma DecreaseGoesToEnding(s: State, a: Action)
    requires s.w.WellFormed() && LowersReplicas(s, a) && s.pc.Shrink? && !Step(s, a).pc.Idle?
    ensures Ending(Step(s, a))
  {
  }

  ghost predicate EndingGoesOn(at: seq<Action> -> State)
  {
    forall run {:trigger at(run)} :: |run| > 0 && Ending(at(run[..|run| - 1])) && !at(run).pc.Idle? ==> Ending(at(run))
  }

  lemma EndingStays(s: State, at: seq<Action> -> State)
    requires s.w.WellFormed() && at == StateAfter(s)
    ensures EndingGoesOn(at)
  {
    forall run: seq<Action> {:trigger at(run)} | |run| > 0 && Ending(at(run[..|run| - 1])) && !at(run).pc.Idle? ensures Ending(at(run)) {
      StepKeepsEnding(Exec(s, run[..|run| - 1]), run[|run| - 1]);
    }
  }

  lemma StepKeepsEnding(s: State, a: Action)
    requires s.w.WellFormed() && Ending(s) && !Step(s, a).pc.Idle?
    ensures Ending(Step(s, a))
  {
    if a.Call? { CallKeepsEnding(s, a.reply); }
  }

  lemma {:induction false} EndingUpTo(at: seq<Action> -> State, run: seq<Action>, i: nat, k: nat)
    requires EndingGoesOn(at) && i <= k <= |run| && Ending(at(run[..i]))
    requires forall m :: i <= m <= |run| ==> !at(run[..m]).pc.Idle?
    ensures Ending(at(run[..k]))
    decreases k
  {
    if i < k {
      EndingUpTo(at, run, i, k - 1);
      assert run[..k][..k - 1] == run[..k - 1];
    }
  }

  /** After a decrease the pass makes no other call before it has noted in the status that the size
      is stable again: the wait that was stored serves no further decrease. */
  lemma DecreaseEndsTheWait(s: State, run: seq<Action>, j: nat)
    requires Initial(s) && j < |run| && LowersReplicas(Exec(s, run[..j]), run[j])
    requires forall k :: j < k <= |run| ==> !StateAfter(s)(run[..k]).pc.Idle?
    ensures Ending(Exec(s, run))
  {
    var at := StateAfter(s);
    EndingStays(s, at);
    StartsEnding(s, run, j);
    EndingUpTo(at, run, j + 1, |run|);
    assert run[..|run|] == run;
  }

  lemma StartsEnding(s: State, run: seq<Action>, j: nat)
    requires Initial(s) && j < |run| && LowersReplicas(Exec(s, run[..j]), run[j]) && !Exec(s, run[..j + 1]).pc.Idle?
    ensures Ending(Exec(s, run[..j + 1]))
  {
    assert run[..j + 1][..j] == run[..j];
    ReplicasFallOnlyInScaleDown(s, run[..j], run[j]);
    DecreaseGoesToEnding(Exec(s, run[..j]), run[j]);
  }
}
