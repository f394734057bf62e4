/**
 Environment variables of a container: a list in which a name may come up more than once. The
 rolling update compares against the last entry of a name, getEnvValue reads the first.
 */
module EnvVars {
  import opened Common

  /** `source` stands for ValueFrom, "" for none. */
  datatype EnvVar = EnvVar(name: string, value: string, source: string)

  /** The last position with this name, or -1. */
  function LastNamed(envs: seq<EnvVar>, name: string): (i: int)
    ensures -1 <= i < |envs|
    ensures i >= 0 ==> envs[i].name == name
    ensures forall k :: i < k < |envs| ==> envs[k].name != name
  {
    if envs == [] then -1
    else if envs[|envs| - 1].name == name then |envs| - 1
    else LastNamed(envs[..|envs| - 1], name)
  }

  /** The entry counts: it is the last one of its name in the list. */
  predicate InForce(envs: seq<EnvVar>, entry: EnvVar)
  {
    var i := LastNamed(envs, entry.name);
    i >= 0 && envs[i] == entry
  }

  /** Some entry of the list is missing in the environment, or a later one there has its name. */
  ghost predicate Lacks(envs: seq<EnvVar>, user: seq<EnvVar>)
  {
    exists i :: 0 <= i < |user| && Missing(envs, user[i])
  }

  ghost predicate Missing(envs: seq<EnvVar>, entry: EnvVar)
  {
    forall k :: 0 <= k < |envs| ==> !LastAt(envs, entry, k)
  }

  /** The entry stands at k, and no later one has its name. */
  ghost predicate LastAt(envs: seq<EnvVar>, entry: EnvVar, k: nat)
    requires k < |envs|
  {
    envs[k] == entry && forall j :: k < j < |envs| ==> envs[j].name != entry.name
  }

  lemma NeedUpdateExactly(envs: seq<EnvVar>, user: seq<EnvVar>)
    ensures NeedUpdate(envs, user) <==> Lacks(envs, user)
  {
    forall i | 0 <= i < |user| ensures InForce(envs, user[i]) <==> !Missing(envs, user[i]) {
      var last := LastNamed(envs, user[i].name);
      if InForce(envs, user[i]) { assert LastAt(envs, user[i], last); }
    }
  }

  predicate NeedUpdate(old_: seq<EnvVar>, new_: seq<EnvVar>)
  {
    exists i :: 0 <= i < |new_| && !InForce(old_, new_[i])
  }

  /** envVarListNeedUpdate, with its map from names to entries. */
  method EnvVarListNeedUpdate(old_: seq<EnvVar>, new_: seq<EnvVar>) returns (need: bool)
    ensures need <==> NeedUpdate(old_, new_)
  {
    var oldMap: map<string, EnvVar> := map[];
    for i := 0 to |old_|
      invariant forall e: EnvVar :: e.name in oldMap && oldMap[e.name] == e <==> InForce(old_[..i], e)
      invariant forall n :: n in oldMap ==> oldMap[n].name == n
    {
      AnotherEntry(old_, i);
      oldMap := oldMap[old_[i].name := old_[i]];
    }
    assert old_[..|old_|] == old_;
    for i := 0 to |new_|
      invariant forall k :: 0 <= k < i ==> InForce(old_, new_[k])
    {
      if new_[i].name !in oldMap || oldMap[new_[i].name] != new_[i] { return true; }
    }
    return false;
  }

  lemma AnotherEntry(envs: seq<EnvVar>, i: nat)
    requires i < |envs|
    ensures forall e: EnvVar :: InForce(envs[..i + 1], e) <==> if e.name == envs[i].name then e == envs[i] else InForce(envs[..i], e)
  {
    assert envs[..i + 1][..i] == envs[..i];
  }

  /** getEnvValue: the value of the first entry with this name. */
  function GetEnvValue(envs: seq<EnvVar>, name: string): string
  {
    if envs == [] then "" else if envs[0].name == name then envs[0].value else GetEnvValue(envs[1..], name)
  }

  /** Entries before the first one of a name, and all entries after it, do not matter. */
  lemma {:induction false} FirstEntryWins(before: seq<EnvVar>, entry: EnvVar, after: seq<EnvVar>)
    requires forall i :: 0 <= i < |before| ==> before[i].name != entry.name
    ensures GetEnvValue(before + [entry] + after, entry.name) == entry.value
  {
    var envs := before + [entry] + after;
    if before != [] {
      assert envs[1..] == before[1..] + [entry] + after;
      FirstEntryWins(before[1..], entry, after);
    }
  }

  /** And a name without an entry reads as the empty text. */
  lemma {:induction false} AbsentIsEmpty(envs: seq<EnvVar>, name: string)
    requires forall i :: 0 <= i < |envs| ==> envs[i].name != name
    ensures GetEnvValue(envs, name) == ""
  {
    if envs != [] { AbsentIsEmpty(envs[1..], name); }
  }

  /** Equal names go with equal entries. */
  predicate Consistent(envs: seq<EnvVar>)
  {
    forall i, j :: 0 <= i < |envs| && 0 <= j < |envs| && envs[i].name == envs[j].name ==> envs[i] == envs[j]
  }

  lemma {:induction false} LastNamedIn(builtIn: seq<EnvVar>, user: seq<EnvVar>, name: string)
    requires exists i :: 0 <= i < |user| && user[i].name == name
    ensures LastNamed(builtIn + user, name) == |builtIn| + LastNamed(user, name)
  {
    var envs, n := builtIn + user, |user| - 1;
    if user[n].name != name {
      assert envs[..|envs| - 1] == builtIn + user[..n];
      LastNamedIn(builtIn, user[..n], name);
    }
  }

  /** A template whose environment ends with the user's list is up to date with that list exactly
      when the list does not contradict itself; the built-in entries play no part. */
  lemma UserListSettles(builtIn: seq<EnvVar>, user: seq<EnvVar>)
    ensures NeedUpdate(builtIn + user, user) <==> !Consistent(user)
  {
    forall i | 0 <= i < |user| ensures InForce(builtIn + user, user[i]) <==> user[LastNamed(user, user[i].name)] == user[i] {
      LastNamedIn(builtIn, user, user[i].name);
    }
    if NeedUpdate(builtIn + user, user) {
      var i :| 0 <= i < |user| && !InForce(builtIn + user, user[i]);
      assert user[LastNamed(user, user[i].name)] != user[i];
    } else {
      forall i, j | 0 <= i < |user| && 0 <= j < |user| && user[i].name == user[j].name ensures user[i] == user[j] {
        assert InForce(builtIn + user, user[i]) && InForce(builtIn + user, user[j]);
      }
    }
  }

  /** Position k holds the last entry of the name, and it is a different one. */
  predicate OverruledBy(user: seq<EnvVar>, entry: EnvVar, k: nat)
    requires k < |user|
  {
    user[k].name == entry.name && user[k] != entry && forall j :: k < j < |user| ==> user[j].name != entry.name
  }

  /** Some entry of `fewer` does not count in `user`, because a later one has its name. */
  predicate Overruled(user: seq<EnvVar>, fewer: seq<EnvVar>)
  {
    exists i, k :: 0 <= i < |fewer| && 0 <= k < |user| && OverruledBy(user, fewer[i], k)
  }

  lemma InForceOrOverruled(builtIn: seq<EnvVar>, user: seq<EnvVar>, entry: EnvVar)
    requires entry in user
    ensures InForce(builtIn + user, entry) <==> forall k :: 0 <= k < |user| ==> !OverruledBy(user, entry, k)
  {
    var i :| 0 <= i < |user| && user[i] == entry;
    var last := LastNamed(user, entry.name);
    LastNamedIn(builtIn, user, entry.name);
    assert last >= i;
    if user[last] != entry { assert OverruledBy(user, entry, last); }
  }

  /** Taking entries out of the user's list is noticed exactly when one that is left was overruled
      by a later one of its name; the built-in entries play no part. */
  lemma RemovalNoticedExactly(builtIn: seq<EnvVar>, user: seq<EnvVar>, fewer: seq<EnvVar>)
    requires forall i :: 0 <= i < |fewer| ==> fewer[i] in user
    ensures NeedUpdate(builtIn + user, fewer) <==> Overruled(user, fewer)
  {
    forall i | 0 <= i < |fewer| ensures InForce(builtIn + user, fewer[i]) <==> forall k :: 0 <= k < |user| ==> !OverruledBy(user, fewer[i], k) {
      InForceOrOverruled(builtIn, user, fewer[i]);
    }
  }

  /** In a list that does not contradict itself nothing is overruled. */
  lemma ConsistentOverrulesNothing(user: seq<EnvVar>, fewer: seq<EnvVar>)
    requires Consistent(user) && forall i :: 0 <= i < |fewer| ==> fewer[i] in user
    ensures !Overruled(user, fewer)
  {
  }

  /** No environment at all satisfies a list that contradicts itself. */
  lemma ContradictionNeedsUpdate(envs: seq<EnvVar>, user: seq<EnvVar>)
    requires !Consistent(user)
    ensures NeedUpdate(envs, user)
  {
    var i, j :| 0 <= i < |user| && 0 <= j < |user| && user[i].name == user[j].name && user[i] != user[j];
    assert !InForce(envs, user[i]) || !InForce(envs, user[j]);
  }
}
