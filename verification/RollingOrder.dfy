/**
 The rolling update over whole runs: one template in a pass, broker before coordinator before
 storage, and each only when the ones before were found current, with all their pods ready, in
 the same pass. A pass that returns done has found all three so.
 */
module RollingOrder {
  import opened Common
  import opened Templates
  import opened Scaling
  import opened SlotSafety
  import opened PassOrder

  predicate IsRoll(pc: Pc) { pc.RollBroker? || pc.RollCoordinator? || pc.RollStorage? }

  /** The pass finds the template whose turn it is out of date. */
  predicate Outdated(s: State)
  {
    || (s.pc.RollBroker? && BrokerOutdated(s))
    || (s.pc.RollCoordinator? && CoordinatorOutdated(s))
    || (s.pc.RollStorage? && StorageOutdated(s))
  }

  /** The step sends a new template. */
  predicate WritesTemplate(s: State, a: Action) { a.Call? && (a.reply.Ok? || a.reply.Lost?) && Outdated(s) }

  // ---------- What the pass has read ----------

  /** The copy is one of the versions since the operator last wrote the StatefulSet. */
  predicate IsVersion(c: Option<Component>, copy: ComponentCopy)
  {
    && c.Some? && copy.template == c.value.template
    && copy.revision < |c.value.reports| && copy.ready == c.value.reports[copy.revision]
  }

  predicate BrokerGood(s: State) { !BrokerOutdated(s) && s.l.broker.ready == BROKER_NUM }

  predicate CoordinatorGood(s: State) { !CoordinatorOutdated(s) && s.l.coordinator.ready >= COORDINATOR_NUM }

  predicate RollInv(s: State)
  {
    && (HasBroker(s.pc) ==> IsVersion(s.w.broker, s.l.broker))
    && (HasCoordinator(s.pc) ==> IsVersion(s.w.coordinator, s.l.coordinator))
    && (s.pc.RollCoordinator? || s.pc.RollStorage? ==> BrokerGood(s))
    && (s.pc.RollStorage? ==> CoordinatorGood(s))
  }

  predicate Loading(pc: Pc) { pc.CreateMeta? || pc.LoadBroker? || pc.LoadCoordinator? || pc.LoadStorage? }

  lemma LoadKeepsRollInv(s: State, reply: Reply)
    requires s.w.WellFormed() && RollInv(s) && Loading(s.pc)
    ensures RollInv(CallStep(s, reply))
  {
  }

  lemma RollKeepsRollInv(s: State, reply: Reply)
    requires s.w.WellFormed() && RollInv(s) && IsRoll(s.pc)
    ensures RollInv(CallStep(s, reply))
  {
  }

  lemma CallKeepsRollInv(s: State, reply: Reply)
    requires s.w.WellFormed() && RollInv(s)
    ensures RollInv(CallStep(s, reply))
  {
    if Loading(s.pc) {
      LoadKeepsRollInv(s, reply);
    } else if IsRoll(s.pc) {
      RollKeepsRollInv(s, reply);
    }
  }

  lemma EnvKeepsRollInv(s: State, a: Action)
    requires s.w.WellFormed() && RollInv(s) && !a.Call? && !a.Restart?
    ensures RollInv(s.(w := EnvStep(s.w, a)))
  {
  }

  lemma {:induction false} RunKeepsRollInv(s: State, run: seq<Action>)
    requires Initial(s)
    ensures RollInv(Exec(s, run))
    decreases |run|
  {
    if run != [] {
      var k := |run| - 1;
      RunKeepsRollInv(s, run[..k]);
      if run[k].Call? {
        CallKeepsRollInv(Exec(s, run[..k]), run[k].reply);
      } else if !run[k].Restart? {
        EnvKeepsRollInv(Exec(s, run[..k]), run[k]);
      }
    }
  }

  // ---------- Main results ----------

  /** The template that the StatefulSet has now is current against the pass's spec. */
  predicate BrokerCurrent(s: State) { s.w.broker.Some? && !s.w.rules.changed(BrokerPart, s.l.cr.spec, s.w.broker.value.template) }

  predicate CoordinatorCurrent(s: State) { s.w.coordinator.Some? && !s.w.rules.changed(CoordinatorPart, s.l.cr.spec, s.w.coordinator.value.template) }

  predicate StorageCurrent(s: State) { s.w.storage.Some? && !s.w.rules.changed(StoragePart, s.l.cr.spec, s.w.storage.value.template) }

  lemma WriteEndsThePass(s: State, a: Action)
    requires s.w.WellFormed() && WritesTemplate(s, a)
    ensures Step(s, a).pc == Idle(false) && !s.pc.Idle?
  {
  }

  lemma CurrentBefore(s: State)
    requires RollInv(s) && (s.pc.RollCoordinator? || s.pc.RollStorage?)
    ensures BrokerCurrent(s) && s.l.broker.ready == BROKER_NUM
    ensures s.pc.RollStorage? ==> CoordinatorCurrent(s) && s.l.coordinator.ready >= COORDINATOR_NUM
  {
  }

  /** A new template for the coordinator is written only while the broker's is current and after
      this pass has found it so, seen both its pods ready and counted both as endpoints; one for the
      storage only while and after that is so for both. And the write ends the pass. */
  lemma RollsInOrder(s: State, run: seq<Action>, a: Action)
    requires Initial(s) && WritesTemplate(Exec(s, run), a)
    ensures Step(Exec(s, run), a).pc == Idle(false)
    ensures var t := Exec(s, run); t.pc == RollCoordinator || t.pc == RollStorage ==> BrokerCurrent(t) && t.l.broker.ready == 2
    ensures var t := Exec(s, run); t.pc == RollStorage ==> CoordinatorCurrent(t) && t.l.coordinator.ready >= 2
    ensures Exec(s, run).pc == RollCoordinator ==> Made(StateAfter(s), run, RollBroker)
    ensures Exec(s, run).pc == RollStorage ==> MadeInOrder(StateAfter(s), run, RollBroker, RollCoordinator)
  {
    WriteEndsThePass(Exec(s, run), a);
    CurrentBehind(s, run);
    MadeBehind(s, run);
  }

  lemma CurrentBehind(s: State, run: seq<Action>)
    requires Initial(s)
    ensures var t := Exec(s, run); t.pc == RollCoordinator || t.pc == RollStorage ==> BrokerCurrent(t) && t.l.broker.ready == 2
    ensures var t := Exec(s, run); t.pc == RollStorage ==> CoordinatorCurrent(t) && t.l.coordinator.ready >= 2
  {
    RunKeepsRollInv(s, run);
    var t := Exec(s, run);
    if t.pc == RollCoordinator || t.pc == RollStorage { CurrentBefore(t); }
  }

  lemma MadeBehind(s: State, run: seq<Action>)
    requires Initial(s)
    ensures Exec(s, run).pc == RollCoordinator ==> Made(StateAfter(s), run, RollBroker)
    ensures Exec(s, run).pc == RollStorage ==> MadeInOrder(StateAfter(s), run, RollBroker, RollCoordinator)
  {
    RunsGoThrough(s, StateAfter(s), RollBroker);
    RunsGoThrough(s, StateAfter(s), RollCoordinator);
    RollsBehind(StateAfter(s), run);
  }

  lemma RollsBehind(at: seq<Action> -> State, run: seq<Action>)
    requires OnlyThrough(at, RollBroker) && OnlyThrough(at, RollCoordinator)
    ensures at(run).pc == RollCoordinator ==> Made(at, run, RollBroker)
    ensures at(run).pc == RollStorage ==> MadeInOrder(at, run, RollBroker, RollCoordinator)
  {
    if Past(RollBroker, at(run)) { MadeBefore(at, run, RollBroker); }
    if Past(RollCoordinator, at(run)) { BothThrough(at, run, RollBroker, RollCoordinator); }
  }

  /** A pass begins between a time without one and a later time in one. */
  lemma {:induction false} PassBegins(at: seq<Action> -> State, run: seq<Action>, i: nat, j: nat) returns (k: nat)
    requires i <= j <= |run| && at(run[..i]).pc.Idle? && !at(run[..j]).pc.Idle?
    ensures i <= k < j && at(run[..k]).pc.Idle? && !at(run[..k + 1]).pc.Idle?
    decreases j
  {
    if at(run[..j - 1]).pc.Idle? {
      k := j - 1;
    } else {
      k := PassBegins(at, run, i, j - 1);
    }
  }

  lemma BeginsWithRead(s: State, a: Action)
    requires s.w.WellFormed() && s.pc.Idle? && !Step(s, a).pc.Idle?
    ensures a.Call? && a.reply.Fetched? && Step(s, a).pc == CreateMeta && Step(s, a).l.cr == a.reply.copy
  {
  }

  /** Action k reads the custom resource anew, and with that a pass begins. */
  ghost predicate NewPassAt(s: State, run: seq<Action>, k: nat)
    requires s.w.WellFormed() && k < |run|
  {
    && Exec(s, run[..k]).pc.Idle? && run[k].Call? && run[k].reply.Fetched?
    && Exec(s, run[..k + 1]).pc == CreateMeta && Exec(s, run[..k + 1]).l.cr == run[k].reply.copy
  }

  lemma ExecNext(s: State, run: seq<Action>, i: nat)
    requires s.w.WellFormed() && i < |run|
    ensures Exec(s, run[..i + 1]) == Step(Exec(s, run[..i]), run[i])
  {
    assert run[..i + 1][..i] == run[..i];
  }

  lemma PassBeginsAt(s: State, run: seq<Action>, k: nat)
    requires s.w.WellFormed() && k < |run| && Exec(s, run[..k]).pc.Idle? && !Exec(s, run[..k + 1]).pc.Idle?
    ensures NewPassAt(s, run, k)
  {
    ExecNext(s, run, k);
    BeginsWithRead(Exec(s, run[..k]), run[k]);
  }

  /** Between two template writes of a run a pass has ended and another one has begun, with a new
      read of the custom resource. */
  lemma OneTemplateInAPass(s: State, run: seq<Action>, i: nat, j: nat)
    requires Initial(s) && i < j < |run|
    requires WritesTemplate(Exec(s, run[..i]), run[i]) && WritesTemplate(Exec(s, run[..j]), run[j])
    ensures exists k :: i < k < j && NewPassAt(s, run, k)
  {
    ExecNext(s, run, i);
    WriteEndsThePass(Exec(s, run[..i]), run[i]);
    WriteEndsThePass(Exec(s, run[..j]), run[j]);
    var k := PassBegins(StateAfter(s), run, i + 1, j);
    PassBeginsAt(s, run, k);
  }

  lemma OnlyStorageEnds(s: State, reply: Reply)
    requires s.w.WellFormed() && Step(s, Call(reply)).pc == Idle(true)
    ensures s.pc.RollStorage? && !StorageOutdated(s) && Step(s, Call(reply)).w == s.w && Stable?(s)
  {
  }

  /** A pass that returns without requeue leaves all three templates current against its spec, all
      pods ready and as many storage pods as the spec asks for. */
  lemma DoneIsCurrent(s: State, run: seq<Action>, reply: Reply)
    requires Initial(s) && Step(Exec(s, run), Call(reply)).pc == Idle(true)
    ensures var t := Exec(s, run); BrokerCurrent(t) && CoordinatorCurrent(t) && StorageCurrent(t)
    ensures var t := Exec(s, run); t.l.broker.ready == 2 && t.l.coordinator.ready >= 2 && t.w.Replicas() == 2 * t.l.cr.chunk && |t.w.endpoints| >= 2 * t.l.cr.chunk
  {
    var t := Exec(s, run);
    OnlyStorageEnds(t, reply);
    RunKeepsRollInv(s, run);
    RunKeepsInv(s, run);
    CurrentBefore(t);
  }

  lemma {:induction false} RulesStay(s: State, run: seq<Action>)
    requires s.w.WellFormed()
    ensures Exec(s, run).w.rules == s.w.rules
    decreases |run|
  {
    if run != [] {
      var k := |run| - 1;
      RulesStay(s, run[..k]);
      StepKeepsRules(Exec(s, run[..k]), run[k]);
    }
  }

  lemma StepKeepsRules(s: State, a: Action)
    requires s.w.WellFormed()
    ensures Step(s, a).w.rules == s.w.rules
  {
  }

  lemma CurrentRests(s: State)
    requires BrokerCurrent(s) && CoordinatorCurrent(s) && StorageCurrent(s) && Coherent(s.w.rules)
    ensures Restful(s.w.rules, s.l.cr.spec)
  {
  }

  /** In no run whatever does a pass return without requeue while a list of its spec contradicts itself. */
  lemma ContradictionNeverRests(s: State, run: seq<Action>, reply: Reply, metaNamespace: string)
    requires Initial(s) && s.w.rules == OperatorRules(metaNamespace)
    requires !ListsConsistent(Exec(s, run).l.cr.spec)
    ensures Step(Exec(s, run), Call(reply)).pc != Idle(true)
  {
    var t := Exec(s, run);
    if Step(t, Call(reply)).pc == Idle(true) {
      DoneIsCurrent(s, run, reply);
      RulesStay(s, run);
      OperatorRulesAreCoherent(metaNamespace);
      OperatorRulesRest(t.l.cr.spec, metaNamespace);
      CurrentRests(t);
    }
  }

  /** With the operator's own templates: when a pass returns without requeue, all three components
      run the images, pull policy, resources and variables of its spec. */
  lemma DoneRunsTheSpec(s: State, run: seq<Action>, reply: Reply, metaNamespace: string)
    requires Initial(s) && s.w.rules == OperatorRules(metaNamespace)
    requires Step(Exec(s, run), Call(reply)).pc == Idle(true)
    ensures var t := Exec(s, run);
      && t.w.broker.Some? && t.w.coordinator.Some? && t.w.storage.Some?
      && BrokerDeployed(t.l.cr.spec, t.w.broker.value.template)
      && CoordinatorDeployed(t.l.cr.spec, t.w.coordinator.value.template)
      && StorageDeployed(t.l.cr.spec, t.w.storage.value.template)
  {
    var t := Exec(s, run);
    DoneIsCurrent(s, run, reply);
    RulesStay(s, run);
    CurrentIsDeployed(t.l.cr.spec, t.w.broker.value.template, t.w.coordinator.value.template, t.w.storage.value.template, metaNamespace);
  }

  // ---------- Where templates come from ----------

  ghost predicate MadeFrom(rules: Rules, part: Part, template: Template)
  {
    exists spec :: template == rules.create(part, spec)
  }

  ghost predicate TemplatesMade(w: World)
  {
    && (w.broker.Some? ==> MadeFrom(w.rules, BrokerPart, w.broker.value.template))
    && (w.coordinator.Some? ==> MadeFrom(w.rules, CoordinatorPart, w.coordinator.value.template))
    && (w.storage.Some? ==> MadeFrom(w.rules, StoragePart, w.storage.value.template))
  }

  lemma StepKeepsTemplatesMade(s: State, a: Action)
    requires s.w.WellFormed() && TemplatesMade(s.w)
    ensures TemplatesMade(Step(s, a).w)
  {
    StepMakesTemplates(s, a);
    StepKeepsRules(s, a);
  }

  /** What is new was made from the spec that the pass has read. */
  ghost predicate MadeNow(s: State, v: World)
  {
    var cr := s.l.cr.spec;
    && (v.broker.Some? ==> v.broker.value.template == s.w.rules.create(BrokerPart, cr) || (s.w.broker.Some? && v.broker.value.template == s.w.broker.value.template))
    && (v.coordinator.Some? ==> v.coordinator.value.template == s.w.rules.create(CoordinatorPart, cr) || (s.w.coordinator.Some? && v.coordinator.value.template == s.w.coordinator.value.template))
    && (v.storage.Some? ==> v.storage.value.template == s.w.rules.create(StoragePart, cr) || (s.w.storage.Some? && v.storage.value.template == s.w.storage.value.template))
  }

  lemma LoadMakesTemplates(s: State, reply: Reply)
    requires s.w.WellFormed() && Loading(s.pc)
    ensures MadeNow(s, CallStep(s, reply).w)
  {
  }

  lemma RollMakesTemplates(s: State, reply: Reply)
    requires s.w.WellFormed() && IsRoll(s.pc)
    ensures MadeNow(s, CallStep(s, reply).w)
  {
  }

  lemma OthersMakeNone(s: State, reply: Reply)
    requires s.w.WellFormed() && !Loading(s.pc) && !IsRoll(s.pc)
    ensures MadeNow(s, CallStep(s, reply).w)
  {
  }

  lemma StepMakesTemplates(s: State, a: Action)
    requires s.w.WellFormed()
    ensures MadeNow(s, Step(s, a).w)
  {
    if a.Call? {
      if Loading(s.pc) {
        LoadMakesTemplates(s, a.reply);
      } else if IsRoll(s.pc) {
        RollMakesTemplates(s, a.reply);
      } else {
        OthersMakeNone(s, a.reply);
      }
    }
  }

  /** In every run each live template was made by the rule of its own component, from some spec. */
  lemma {:induction false} RunKeepsTemplatesMade(s: State, run: seq<Action>)
    requires Initial(s)
    ensures TemplatesMade(Exec(s, run).w)
    decreases |run|
  {
    if run != [] {
      var k := |run| - 1;
      RunKeepsTemplatesMade(s, run[..k]);
      StepKeepsTemplatesMade(Exec(s, run[..k]), run[k]);
    }
  }
}
