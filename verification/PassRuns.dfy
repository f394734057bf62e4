/**
 The passes of module Convergence, with whatever happens between their calls, are runs of the
 state machine: what holds of all runs holds of them.
 */
module PassRuns {
  import opened Common
  import opened Scaling
  import opened SlotSafety
  import opened Convergence

  lemma {:induction false} EnvRunIsExec(s: State, script: seq<Action>)
    requires s.w.WellFormed() && forall a :: a in script ==> EnvAction(a)
    ensures Exec(s, script) == Interleaved(s, script)
    decreases |script|
  {
    if script != [] {
      var a := script[0];
      assert EnvAction(a);
      ExecOne(s, a);
      assert script == [a] + script[1..];
      ExecConcat(s, [a], script[1..]);
      EnvRunIsExec(Step(s, a), script[1..]);
    }
  }

  /** The actions of the rest of a pass. */
  function Calls(s: State, env: Environment, k: nat): seq<Action>
    requires s.w.WellFormed()
    decreases CallsLeft(s.pc)
  {
    if s.pc.Idle? then []
    else
      var u := Interleaved(s, env(k, s));
      CallsRunOut(u, Answer(u));
      CallWellFormed(u, Answer(u));
      env(k, s) + ([Call(Answer(u))] + Calls(Next(u), env, k))
  }

  lemma {:induction false} HarmlessIsEnv(w: World, script: seq<Action>)
    requires w.WellFormed() && AllHarmless(w, script)
    ensures forall a :: a in script ==> EnvAction(a)
    decreases |script|
  {
    if script != [] {
      HarmlessIsEnv(EnvStep(w, script[0]), script[1..]);
      assert script == [script[0]] + script[1..];
    }
  }

  lemma {:induction false} FinishIsRun(s: State, env: Environment, k: nat)
    requires Inv(s) && AlwaysCooperative(env)
    ensures Exec(s, Calls(s, env, k)) == Finish(s, env, k)
    decreases CallsLeft(s.pc)
  {
    if !s.pc.Idle? {
      var script := env(k, s);
      var u := Interleaved(s, script);
      assert Suits(env, k, s);
      HarmlessIsEnv(s.w, script);
      EnvRunIsExec(s, script);
      ScriptKeepsInv(s, script);
      CallsRunOut(u, Answer(u));
      CallKeepsInv(u, Answer(u));
      FinishIsRun(Next(u), env, k);
      ExecOne(u, Call(Answer(u)));
      var rest := Calls(Next(u), env, k);
      ExecConcat(u, [Call(Answer(u))], rest);
      ExecConcat(s, script, [Call(Answer(u))] + rest);
    }
  }

  lemma {:induction false} ScriptKeepsInv(s: State, script: seq<Action>)
    requires Inv(s) && forall a :: a in script ==> EnvAction(a)
    ensures Inv(Interleaved(s, script))
    decreases |script|
  {
    if script != [] {
      assert EnvAction(script[0]);
      EnvKeepsInv(s, script[0]);
      ScriptKeepsInv(s.(w := EnvStep(s.w, script[0])), script[1..]);
    }
  }

  /** A pass is a run that starts with the read of the custom resource. */
  lemma PassIsRun(s: State, env: Environment, k: nat)
    requires Inv(s) && s.pc.Idle? && AlwaysCooperative(env)
    ensures exists run :: Exec(s, run) == Pass(s, env, k)
  {
    var a := Call(Fetched(s.w.cr));
    ExecOne(s, a);
    CallKeepsInv(s, Fetched(s.w.cr));
    var t := Step(s, a);
    FinishIsRun(t, env, k);
    ExecConcat(s, [a], Calls(t, env, k));
    assert Exec(s, [a] + Calls(t, env, k)) == Pass(s, env, k);
  }
}
