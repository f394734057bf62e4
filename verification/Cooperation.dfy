/**
 The cooperation that convergence relies on is never out of reach: from every reachable world the
 environment has a finite script that carries the migration on and mends what is in disorder.
 */
module Cooperation {
  import opened Common
  import opened Scaling
  import opened Templates
  import opened SlotSafety
  import opened Convergence

  lemma StartLowersDisorder(w: World, i: nat)
    requires w.WellFormed() && i in Below(w.Replicas()) - w.endpoints
    ensures var v := w.(pods := w.pods + {i}, endpoints := w.endpoints + {i}); v.WellFormed() && Disorder(v) < Disorder(w)
  {
    var v := w.(pods := w.pods + {i}, endpoints := w.endpoints + {i});
    WantedPod(w.Replicas(), w.pods, w.endpoints, i);
    WantedPod(w.Replicas(), w.pods + {i}, w.endpoints, i);
    SameReports(v, w);
  }

  lemma StopLowersDisorder(w: World, i: nat)
    requires w.WellFormed() && i in w.pods - Below(w.Replicas())
    ensures var v := w.(pods := w.pods - {i}, endpoints := w.endpoints - {i}); v.WellFormed() && Disorder(v) < Disorder(w)
  {
    var v := w.(pods := w.pods - {i}, endpoints := w.endpoints - {i});
    UnwantedPod(w.Replicas(), w.pods, w.endpoints, i);
    SameReports(v, w);
  }

  lemma ReportLowersDisorder(w: World)
    requires w.WellFormed() && w.storage.Some? && w.pods == Below(w.Replicas())
    requires Reported(w) != SetStatus(w.Replicas(), w.Replicas())
    ensures Disorder(EnvStep(w, ReportStatus(w.Replicas()))) < Disorder(w)
  {
    var v := EnvStep(w, ReportStatus(w.Replicas()));
    assert w.pods * Below(w.Replicas()) == w.pods;
    assert v.Replicas() == w.Replicas() && Reported(v) == SetStatus(w.Replicas(), w.Replicas());
    assert PodDisorder(v) == PodDisorder(w) && ServiceDisorder(v) == ServiceDisorder(w);
  }

  lemma RunOne(w: World, a: Action)
    requires w.WellFormed()
    ensures EnvRun(w, [a]) == EnvStep(w, a)
  {
    assert [a][1..] == [];
  }

  lemma RunTwo(w: World, a: Action, b: Action)
    requires w.WellFormed()
    ensures EnvStep(w, a).WellFormed() && EnvRun(w, [a, b]) == EnvStep(EnvStep(w, a), b)
  {
    EnvWellFormed(w, a);
    assert [a, b][1..] == [b];
    RunOne(EnvStep(w, a), b);
  }

  function Served(w: World): (v: World)
    requires w.WellFormed()
    ensures v.WellFormed()
  {
    w.(broker := Serving(w.broker, BROKER_NUM, BROKER_NUM), coordinator := Serving(w.coordinator, COORDINATOR_NUM, COORDINATOR_NUM))
  }

  lemma ServeLowersDisorder(w: World)
    requires w.WellFormed() && w.pods == w.endpoints == Below(w.Replicas())
    requires Reported(w) == SetStatus(w.Replicas(), w.Replicas())
    ensures Disorder(Served(w)) == 0
  {
    assert w.pods - Below(w.Replicas()) == {} == Below(w.Replicas()) - w.endpoints;
    assert ServiceDisorder(Served(w)) == 0;
  }

  /** The script is harmless and what it leads to is less disordered. */
  ghost predicate Repairs(w: World, script: seq<Action>, v: World)
    requires w.WellFormed() && v.WellFormed()
  {
    && (forall a :: a in script ==> EnvAction(a))
    && EnvRun(w, script) == v
    && (Disorder(v) < Disorder(w) || Disorder(v) == 0)
  }

  ghost predicate CanRepair(w: World)
    requires w.WellFormed()
  {
    exists script, v: World :: v.WellFormed() && Repairs(w, script, v)
  }

  lemma StartRepairs(w: World, i: nat)
    requires w.WellFormed() && i in Below(w.Replicas()) - w.endpoints
    ensures CanRepair(w)
  {
    RunTwo(w, PodStart(i), EndpointUp(i));
    StartLowersDisorder(w, i);
    assert Repairs(w, [PodStart(i), EndpointUp(i)], w.(pods := w.pods + {i}, endpoints := w.endpoints + {i}));
  }

  lemma StopRepairs(w: World, i: nat)
    requires w.WellFormed() && i in w.pods - Below(w.Replicas())
    ensures CanRepair(w)
  {
    RunOne(w, PodGone(i));
    StopLowersDisorder(w, i);
    assert Repairs(w, [PodGone(i)], w.(pods := w.pods - {i}, endpoints := w.endpoints - {i}));
  }

  lemma ReportRepairs(w: World)
    requires w.WellFormed() && w.storage.Some? && w.pods == Below(w.Replicas())
    requires Reported(w) != SetStatus(w.Replicas(), w.Replicas())
    ensures CanRepair(w)
  {
    var a := ReportStatus(w.Replicas());
    RunOne(w, a);
    ReportLowersDisorder(w);
    assert Repairs(w, [a], EnvStep(w, a));
  }

  lemma ServeRepairs(w: World)
    requires w.WellFormed() && w.pods == w.endpoints == Below(w.Replicas())
    requires Reported(w) == SetStatus(w.Replicas(), w.Replicas())
    ensures CanRepair(w)
  {
    var a, b := Serve(BrokerPart, BROKER_NUM, BROKER_NUM), Serve(CoordinatorPart, COORDINATOR_NUM, COORDINATOR_NUM);
    RunTwo(w, a, b);
    ServeLowersDisorder(w);
    assert EnvStep(EnvStep(w, a), b) == Served(w);
    assert Repairs(w, [a, b], Served(w));
  }

  lemma RepairExists(w: World)
    requires w.WellFormed() && w.endpoints <= w.pods
    ensures CanRepair(w)
  {
    var missing, extra := Below(w.Replicas()) - w.endpoints, w.pods - Below(w.Replicas());
    if missing != {} {
      var i: nat :| i in missing;
      StartRepairs(w, i);
    } else if extra != {} {
      var i: nat :| i in extra;
      StopRepairs(w, i);
    } else if Reported(w) != SetStatus(w.Replicas(), w.Replicas()) {
      assert w.pods == Below(w.Replicas());
      ReportRepairs(w);
    } else {
      assert w.pods == w.endpoints == Below(w.Replicas());
      ServeRepairs(w);
    }
  }

  /** All slots where they are due, and a second later. */
  function Moved(w: World): (v: World)
    requires w.WellFormed()
    ensures v.WellFormed()
  {
    EnvWellFormed(w, Migrate(w.Target()));
    EnvWellFormed(EnvStep(w, Migrate(w.Target())), Tick(SECOND));
    EnvStep(EnvStep(w, Migrate(w.Target())), Tick(SECOND))
  }

  lemma MoveKeepsDisorder(w: World)
    requires w.WellFormed()
    ensures Disorder(Moved(w)) == Disorder(w)
  {
    var u := Moved(w);
    assert u.pods == w.pods && u.endpoints == w.endpoints;
    SameReports(u, w);
  }

  lemma {:induction false} RunConcat(w: World, first: seq<Action>, rest: seq<Action>)
    requires w.WellFormed()
    ensures EnvRun(w, first + rest) == EnvRun(EnvRun(w, first), rest)
    decreases |first|
  {
    if first == [] {
      assert first + rest == rest;
    } else {
      EnvWellFormed(w, first[0]);
      RunConcat(EnvStep(w, first[0]), first[1..], rest);
      assert (first + rest)[1..] == first[1..] + rest;
    }
  }

  /** All slots arrive and a second passes. */
  lemma MoveIsPossible(w: World) returns (first: seq<Action>)
    requires WorldInv(w)
    ensures forall a :: a in first ==> EnvAction(a)
    ensures var u := EnvRun(w, first);
      WorldInv(u) && MigrationLeft(u) == 0 && u.clock == w.clock + SECOND && Disorder(u) == Disorder(w)
  {
    first := [Migrate(w.Target()), Tick(SECOND)];
    EnvRunFramed(w, first);
    RunTwo(w, Migrate(w.Target()), Tick(SECOND));
    MoveKeepsDisorder(w);
  }

  /** What the repair of the moved world does, seen from the world before. */
  ghost predicate Repaired(w: World, u: World, script: seq<Action>, v: World)
    requires w.WellFormed() && u.WellFormed()
  {
    && v.WellFormed()
    && (forall a :: a in script ==> EnvAction(a)) && EnvRun(u, script) == v
    && (Disorder(v) < Disorder(w) || Disorder(v) == 0)
    && MigrationLeft(v) == 0 && v.clock >= u.clock
  }

  lemma RepairAfterMove(w: World, u: World)
    requires w.WellFormed() && WorldInv(u) && CanRepair(u) && Disorder(u) == Disorder(w) && MigrationLeft(u) == 0
    ensures exists script, v :: Repaired(w, u, script, v)
  {
    var script, v: World :| v.WellFormed() && Repairs(u, script, v);
    EnvRunFramed(u, script);
    assert Repaired(w, u, script, v);
  }

  lemma RepairCooperates(w: World, u: World, script: seq<Action>, v: World, whole: seq<Action>)
    requires w.WellFormed() && u.WellFormed() && Repaired(w, u, script, v) && u.clock == w.clock + SECOND
    requires EnvRun(w, whole) == v && forall a :: a in whole ==> EnvAction(a)
    ensures Cooperative(w, whole)
  {
  }

  lemma Combined(w: World, first: seq<Action>, script: seq<Action>, v: World)
    requires w.WellFormed() && Repaired(w, EnvRun(w, first), script, v) && EnvRun(w, first).clock == w.clock + SECOND
    requires forall a :: a in first ==> EnvAction(a)
    ensures Cooperative(w, first + script)
  {
    RunConcat(w, first, script);
    RepairCooperates(w, EnvRun(w, first), script, v, first + script);
  }

  /** In every world of the protocol the environment has a script that brings things forward. */
  lemma ScriptExists(w: World)
    requires WorldInv(w)
    ensures exists script :: Cooperative(w, script)
  {
    var first := MoveIsPossible(w);
    ScriptAfterMove(w, first);
  }

  lemma ScriptAfterMove(w: World, first: seq<Action>)
    requires w.WellFormed() && forall a :: a in first ==> EnvAction(a)
    requires var u := EnvRun(w, first); WorldInv(u) && MigrationLeft(u) == 0 && u.clock == w.clock + SECOND && Disorder(u) == Disorder(w)
    ensures exists script :: Cooperative(w, script)
  {
    var u := EnvRun(w, first);
    RepairExists(u);
    RepairAfterMove(w, u);
    var script, v :| Repaired(w, u, script, v);
    Combined(w, first, script, v);
  }

  ghost function Script(w: World): (script: seq<Action>)
    ensures WorldInv(w) ==> Cooperative(w, script)
  {
    if WorldInv(w) then
      ScriptExists(w);
      var script :| Cooperative(w, script); script
    else []
  }

  /** There is an environment that always cooperates and is fair. */
  lemma CooperationIsPossible()
    ensures exists env: Environment :: AlwaysCooperative(env) && Fair(env)
  {
    var env: Environment := (k: nat, s: State) => if s.pc.Idle? then Script(s.w) else [];
    assert AlwaysCooperative(env);
    forall k: nat ensures CalmLater(env, k) {
      assert CalmPass(env, k);
    }
  }
}
