/**
 The store functions of the operator's HTTP service in their own form: each request is a sequence
 of ConfigMap calls between which other requests run. `api` holds the ConfigMap's history and the
 requests under way; the ghost trail shows that what happens is a run of module MetaStore.
 */
module MetaServer {
  import opened Common
  import opened MetaStore

  datatype Err = Nil | VersionConflict | Failure

  function Told(err: Err): Result
  {
    match err
    case Nil => Success
    case VersionConflict => Conflict
    case Failure => Error
  }

  ghost predicate IsTrail(trail: seq<State>, run: seq<Action>)
  {
    |trail| == |run| + 1 && forall k :: 0 <= k < |run| ==> trail[k + 1] == Step(trail[k], run[k])
  }

  lemma {:induction false} TrailIsExec(trail: seq<State>, run: seq<Action>, k: nat)
    requires IsTrail(trail, run) && k <= |run|
    ensures trail[k] == Exec(trail[0], run[..k])
  {
    if k > 0 {
      TrailIsExec(trail, run, k - 1);
      assert run[..k][..k - 1] == run[..k - 1];
    }
  }

  /** The ConfigMap as a request holds it: the copy it has read, at a position of the history. */
  class ConfigMapObject {
    var data: Option<Store>
    var version: nat
    const position: nat

    constructor (r: Revision, position: nat)
      ensures data == r.data && version == r.version && this.position == position
    {
      data, version, this.position := r.data, r.version, position;
    }
  }

  class Service {
    var api: State
    ghost var run: seq<Action>
    ghost var trail: seq<State>
    ghost var here: State

    /** `here` is where the recorded run has led the protocol. */
    ghost predicate Traced()
      reads this
    {
      IsTrail(trail, run) && here == trail[|run|] && Initial(trail[0])
    }

    ghost predicate Valid()
      reads this
    {
      Traced() && api == here && |api.history| > 0
    }

    ghost predicate At(me: nat, phase: Phase)
      reads this
    {
      Valid() && me < |api.puts| && api.puts[me].phase == phase
    }

    twostate predicate Extends()
      reads this
    {
      old(run) <= run && |trail| > 0 && old(|trail|) > 0 && trail[0] == old(trail[0])
    }

    /** Requests keep what they were given. */
    twostate predicate Keeps(me: nat)
      reads this
    {
      me < old(|api.puts|) <= |api.puts| && api.puts[me].version == old(api.puts[me].version) && api.puts[me].store == old(api.puts[me].store)
    }

    constructor (version: nat)
      ensures Valid() && run == []
    {
      var s := State([Revision(version, Some(map[]), Creation)], []);
      api := s;
      run, trail, here := [], [s], s;
    }

    ghost method Act(a: Action)
      requires Traced()
      modifies this`run, this`trail, this`here
      ensures Traced() && Extends() && here == Step(old(here), a)
    {
      here := Step(here, a);
      run, trail := run + [a], trail + [here];
    }

    /** Other requests arrive and advance, and others touch the ConfigMap. */
    method Interfere(me: nat)
      requires Valid() && me < |api.puts|
      modifies this
      ensures Valid() && Extends() && Keeps(me) && api.puts[me].phase == old(api.puts[me].phase)
      ensures old(api.history) <= api.history
    {
      var n: nat := *;
      while n > 0
        invariant Valid() && Extends() && Keeps(me) && api.puts[me].phase == old(api.puts[me].phase)
        invariant old(api.history) <= api.history
      {
        var a: Action := *;
        if !a.Advance? || a.id != me {
          StepIsLocal(api, a, me);
          api := Step(api, a);
          Act(a);
        }
        n := n - 1;
      }
    }

    /** Note how far the request has come. */
    method Mark(me: nat, phase: Phase)
      requires me < |api.puts|
      modifies this`api
      ensures api == SetPhase(old(api), me, phase)
    {
      api := SetPhase(api, me, phase);
    }

    /** A read of the ConfigMap, perhaps of an old version. */
    method GetConfigMap(me: nat) returns (configmap: ConfigMapObject, err: Err)
      requires Valid() && me < |api.puts|
      modifies this
      ensures Valid() && Extends() && Keeps(me) && api.puts[me].phase == old(api.puts[me].phase)
      ensures fresh(configmap) && configmap.position < |api.history|
      ensures configmap.data == api.history[configmap.position].data && configmap.version == api.history[configmap.position].version
      ensures err == Nil || err == Failure
    {
      Interfere(me);
      var failed: bool := *;
      var k: nat :| k < |api.history|;
      configmap := new ConfigMapObject(api.history[k], k);
      err := if failed then Failure else Nil;
    }

    /** The version read, if the store is still empty; None if it has been initialised already. */
    method GetExternalStore(me: nat) returns (empty: Option<nat>, err: Err)
      requires At(me, Received) && api.puts[me].version.None?
      modifies this
      ensures Extends() && Keeps(me)
      ensures err == Nil ==> At(me, if empty.Some? then Pinned(empty.value) else Done(Success))
      ensures err != Nil ==> At(me, Done(Error)) && err == Failure
    {
      empty := None;
      var configmap;
      configmap, err := GetConfigMap(me);
      if err != Nil {
        Mark(me, Done(Error));
        Act(Advance(me, Fail, 0));
        return;
      }
      if configmap.data.None? {
        // The key has been deleted.
        Mark(me, Done(Error));
        Act(Advance(me, Read(configmap.position), 0));
        return None, Failure;
      }
      if configmap.data.value == map[] { empty := Some(configmap.version); }
      Mark(me, if empty.Some? then Pinned(empty.value) else Done(Success));
      Act(Advance(me, Read(configmap.position), 0));
    }

    /** The API server accepts the write only if the copy carries the newest version. */
    method UpdateConfigMap(me: nat, configmap: ConfigMapObject) returns (err: Err)
      requires At(me, Loaded(configmap.position)) && configmap.data == Some(api.puts[me].store)
      requires configmap.position < |api.history| && configmap.version == api.history[configmap.position].version
      modifies this
      ensures Extends() && Keeps(me) && At(me, Done(Told(err)))
    {
      Interfere(me);
      VersionsTellApart();
      var newest := api.history[|api.history| - 1].version == configmap.version;
      var answered: bool, applied: bool, next: nat := *, *, *;
      if !Fresh(api.history, next) || (!answered && !applied) {
        Mark(me, Done(Error));
        Act(Advance(me, Fail, next));
        return Failure;
      }
      if newest {
        api := api.(history := api.history + [Revision(next, configmap.data, Request(me))]);
      }
      err := if !newest then VersionConflict else if answered then Nil else Failure;
      Mark(me, Done(Told(err)));
      Act(Advance(me, if answered then Ok else Lost, next));
    }

    /** No two positions of the history carry the same version. */
    lemma VersionsTellApart()
      requires Valid()
      ensures forall i, j :: 0 <= i < j < |api.history| ==> api.history[i].version != api.history[j].version
    {
      TrailIsExec(trail, run, |run|);
      assert run[..|run|] == run;
      RunKeepsInv(trail[0], run);
    }

    method UpdateExternalStore(me: nat, version: nat, store: Store) returns (err: Err)
      requires At(me, Pinned(version)) && api.puts[me].store == store
      modifies this
      ensures Extends() && Keeps(me) && At(me, Done(Told(err)))
    {
      var configmap;
      configmap, err := GetConfigMap(me);
      if err != Nil {
        Mark(me, Done(Error));
        Act(Advance(me, Fail, 0));
        return;
      }
      if configmap.version != version {
        // The pre-check.
        Mark(me, Done(Conflict));
        Act(Advance(me, Read(configmap.position), 0));
        return VersionConflict;
      }
      Mark(me, Loaded(configmap.position));
      Act(Advance(me, Read(configmap.position), 0));
      configmap.data := Some(store);
      err := UpdateConfigMap(me, configmap);
    }

    method InitExternalStore(me: nat, store: Store) returns (err: Err)
      requires At(me, Received) && api.puts[me].version.None? && api.puts[me].store == store
      modifies this
      ensures Extends() && Keeps(me) && At(me, Done(Told(err)))
    {
      var empty;
      empty, err := GetExternalStore(me);
      if err != Nil { return; }
      if empty.None? { return Nil; } // already initialised
      err := UpdateExternalStore(me, empty.value, store);
    }

    method InitOrUpdateExternalStore(me: nat, version: Option<nat>, store: Store) returns (err: Err)
      requires At(me, Received) && api.puts[me].version == version && api.puts[me].store == store
      modifies this
      ensures Extends() && Keeps(me) && At(me, Done(Told(err)))
    {
      if version.None? {
        err := InitExternalStore(me, store);
      } else {
        Mark(me, Pinned(version.value));
        Act(Advance(me, Ok, 0));
        err := UpdateExternalStore(me, version.value, store);
      }
    }

    /** What a broker is told when it puts its metadata: after success under a version, its store
        stands in the history right on top of that version; after a conflict it is nowhere. And a
        conflict or a failure is told only for a reason: without one, the broker is told success. */
    method HandleUpdateMeta(version: Option<nat>, store: Store) returns (err: Err, ghost me: nat)
      requires Valid()
      modifies this
      ensures Valid() && Extends() && me < |api.puts|
      ensures err == Nil && version.Some? ==> exists k :: 0 < k < |api.history| && Replaced(k, me, version.value, store)
      ensures err == Nil && version.None? ==> WrittenBy(api, me) || exists k :: 0 <= k < |api.history| && NotEmpty(api.history[k])
      ensures err == VersionConflict ==> !WrittenBy(api, me) && exists j :: 0 <= j < |run| && ConflictAt(trail[0], run, me, j)
      ensures err == Failure ==> exists j :: 0 <= j < |run| && ErrorAt(trail[0], run, me, j)
    {
      me := |api.puts|;
      var id := |api.puts|;
      api := api.(puts := api.puts + [Put(version, store, Received)]);
      Act(Arrive(version, store));
      err := InitOrUpdateExternalStore(id, version, store);
      TrailIsExec(trail, run, |run|);
      assert run[..|run|] == run;
      ReportsAreTrue(trail[0], run, me);
      if err == VersionConflict { ConflictHasReason(trail[0], run, me); }
      if err == Failure { ErrorHasReason(trail[0], run, me); }
      if err == Nil && version.Some? {
        ghost var k :| 0 <= k < |api.history| && api.history[k].writer == Request(me);
        NoLostUpdate(trail[0], run, k);
        assert Replaced(k, me, version.value, store);
      }
    }

    ghost predicate Replaced(k: nat, me: nat, version: nat, store: Store)
      requires 0 < k < |api.history|
      reads this
    {
      api.history[k].writer == Request(me) && api.history[k].data == Some(store) && api.history[k - 1].version == version
    }
  }
}
