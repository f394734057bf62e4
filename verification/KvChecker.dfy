/**
 The consistency checker: it writes to the cluster, remembers in a shadow map what it wrote, and
 reports a key whose value is not the remembered one.
 */
module KvChecker {
  import opened Common
  import opened Text
  import opened Crc16
  import opened HashTags
  import opened SlotTags
  import opened ShadowMap

  // ---------- The checker ----------

  datatype Outcome =
    | Done
    | Stopped
    | ClientFailed
    | Inconsistent(key: string, got: string, expected: string)
    | InvalidLength
    | OutOfRange

  /** What the checker says when it has found something wrong with the cluster. */
  predicate Complaint(r: Outcome) { r.Inconsistent? || r.InvalidLength? || r.OutOfRange? }

  /** The clamping of a normally distributed draw, already converted to an integer. */
  function ChooseSlot(raw: int): (slot: nat)
    ensures slot < SLOT_NUMBER
    ensures slot == if raw < 0 then 0 else if raw > 16383 then 16383 else raw
  {
    if raw < 0 then 0 else if raw >= SLOT_NUMBER then SLOT_NUMBER - 1 else raw
  }

  /** A random entry; the panic after the loop is out of reach. */
  method RandomGetKey(m: map<string, string>, random: nat) returns (k: string, v: string)
    requires m != map[]
    ensures k in m && v == m[k]
  {
    var r, i := random % |m|, 0;
    var rest := m.Keys;
    assert |rest| == |m|;
    while rest != {}
      invariant rest <= m.Keys && i + |rest| == |m| && i <= r
      decreases |rest|
    {
      k :| k in rest;
      if i == r { return k, m[k]; }
      rest := rest - {k};
      i := i + 1;
    }
    assert false;
  }

  method GetKeys(m: map<string, string>) returns (ss: seq<string>)
    ensures forall k :: k in ss <==> k in m
    ensures |ss| == |m|
  {
    ss := [];
    var rest := m.Keys;
    while rest != {}
      invariant rest <= m.Keys && |ss| + |rest| == |m|
      invariant forall k :: k in ss <==> k in m && k !in rest
      decreases |rest|
    {
      var k :| k in rest;
      ss := ss + [k];
      rest := rest - {k};
    }
  }

  /** The store has the values of kvs, "" standing for none. */
  ghost predicate Holds(store: Store, kvs: Store) { forall k :: k in kvs ==> Nil2Empty(Find(store, k)) == kvs[k] }

  class Checker {
    const cluster: Cluster
    const keys: array<map<string, string>>
    const luaKeys: seq<string>
    var luaValue: string
    ghost const buckets: seq<set<string>>
    /** A reply has been read that is not what the shadow remembers. */
    ghost var found: bool

    ghost predicate Valid()
      reads keys
    {
      Hashed(buckets) && Owned(buckets, luaKeys, cluster.mine) && Shaped(keys[..], buckets)
    }

    ghost predicate Agrees()
      reads this`luaValue, keys, cluster
    {
      Agree(keys[..], luaKeys, luaValue, cluster.store)
    }

    /** newKVChecker. On a cluster that has none of its keys the new checker agrees with it. */
    constructor (id: int, cluster: Cluster, t: int, tags: seq<string>, seconds: seq<int>)
      requires TagTable(tags) && |seconds| == LUA_KEYS_NUM
      requires forall s :: 0 <= s < |tags| ==> Bucket(t, id, s, tags[s], KEYS_PER_SLOT) <= cluster.mine
      requires forall i :: 0 <= i < LUA_KEYS_NUM ==> GenLuaKey(t, id, i, seconds[i]) in cluster.mine
      ensures Valid() && fresh(keys) && this.cluster == cluster
      ensures KeysFilled(keys[..], t, id, tags, MAX_KEYS_NUM)
      ensures |luaKeys| == LUA_KEYS_NUM && forall i :: 0 <= i < LUA_KEYS_NUM ==> luaKeys[i] == GenLuaKey(t, id, i, seconds[i])
      ensures luaValue == "" && !found
      ensures (forall k :: k in cluster.mine ==> k !in cluster.store) ==> Agrees()
    {
      this.cluster := cluster;
      this.keys := new map<string, string>[SLOT_NUMBER](_ => map[]);
      this.buckets := seq(SLOT_NUMBER, s requires 0 <= s < SLOT_NUMBER => Bucket(t, id, s, tags[s], KEYS_PER_SLOT));
      var lua: seq<string> := [];
      for i := 0 to LUA_KEYS_NUM
        invariant |lua| == i && forall j :: 0 <= j < i ==> lua[j] == GenLuaKey(t, id, j, seconds[j])
      {
        lua := lua + [GenLuaKey(t, id, i, seconds[i])];
      }
      this.luaKeys := lua;
      this.luaValue := "";
      this.found := false;
      new;
      FillKeys(keys, t, id, tags);
      NewChecker(t, id, tags, seconds, buckets, luaKeys, cluster.mine, keys[..], cluster.store);
    }

    /** The rate limiter lets the checker pass, or the run is over. */
    method WaitN() returns (ok: bool)
    {
      ok := *;
    }

    /** A copy of the entries of one slot, at most n of them. */
    method RandomChooseKeysInSameSlot(n: nat) returns (slot: nat, kvs: Store)
      requires Valid()
      ensures slot < keys.Length
      ensures n > 0 ==> |kvs| == Min(n, KEYS_PER_SLOT)
      ensures n == 0 ==> kvs == map[]
      ensures forall k :: k in kvs ==> k in keys[slot] && kvs[k] == keys[slot][k]
    {
      kvs := map[];
      if n == 0 { return 0, map[]; }
      var raw: int := *;
      slot := ChooseSlot(raw);
      var rest := keys[slot].Keys;
      assert keys[..][slot].Keys == buckets[slot] && |rest| == KEYS_PER_SLOT;
      while rest != {}
        invariant rest <= keys[slot].Keys && |kvs| + |rest| == KEYS_PER_SLOT && |kvs| < n
        invariant forall k :: k in kvs ==> k in keys[slot] && kvs[k] == keys[slot][k] && k !in rest
        decreases |rest|
      {
        var k :| k in rest;
        kvs := kvs[k := keys[slot][k]];
        rest := rest - {k};
        if |kvs| == n { break; }
      }
    }

    /** One random key of each of n random slots; the same key may come up twice. */
    method RandomChooseKeys(n: nat) returns (kvs: Store)
      requires Valid()
      ensures Chosen(keys[..], kvs)
      ensures n > 0 ==> 1 <= |kvs| <= n
      ensures n == 0 ==> kvs == map[]
    {
      kvs := map[];
      for i := 0 to n
        invariant Chosen(keys[..], kvs)
        invariant |kvs| <= i && (i > 0 ==> |kvs| > 0)
      {
        var raw: int := *;
        var slot := ChooseSlot(raw);
        ghost var shadow := keys[..];
        assert shadow[slot].Keys == buckets[slot] && |keys[slot].Keys| == KEYS_PER_SLOT;
        var random: nat :| random >= 0;
        var k, v := RandomGetKey(keys[slot], random);
        assert InShadow(shadow, k, v);
        kvs := kvs[k := v];
      }
    }


    /** One SET of checkSet and the note of it in the bucket the key hashes to. */
    method SetOne(k: string, ghost shadow: Shadow, ghost store: Store, ghost written: Store) returns (sent: bool, ghost v: string)
      requires Valid() && HasKey(buckets, k)
      requires InStep(cluster.honest, cluster.mine, shadow, store, keys[..], cluster.store, written)
      modifies keys, cluster
      ensures Valid() && v != ""
      ensures cluster.failures == old(cluster.failures) + if sent then 0 else 1
      ensures sent ==> InStep(cluster.honest, cluster.mine, shadow, store, keys[..], cluster.store, written[k := v])
      ensures !sent ==> keys[..] == old(keys[..])
    {
      var now: int := *;
      var value := GenNewValue(k, now);
      v := value;
      ghost var was, had := keys[..], cluster.store;
      sent := cluster.Set(k, value);
      if !sent { return; }
      var slot := Slot(k);
      KeyIsAtHome(buckets, k);
      keys[slot] := keys[slot][k := value];
      assert keys[..] == was[slot := was[slot][k := value]];
      SetInStep(buckets, cluster.honest, cluster.mine, shadow, store, was, had, cluster.store, written, k, value);
    }

    /** The loop of checkSet. */
    method SetAll(kvs: Store) returns (sent: bool, ghost written: Store)
      requires Valid() && forall k :: k in kvs ==> HasKey(buckets, k)
      modifies keys, cluster
      ensures Valid() && Written(old(keys[..]), keys[..], written)
      ensures cluster.failures == old(cluster.failures) + if sent then 0 else 1
      ensures sent ==> InStep(cluster.honest, cluster.mine, old(keys[..]), old(cluster.store), keys[..], cluster.store, written)
      ensures sent ==> written.Keys == kvs.Keys && forall k :: k in written ==> written[k] != ""
    {
      sent, written := true, map[];
      ghost var shadow, store := keys[..], cluster.store;
      var rest := kvs.Keys;
      while rest != {}
        invariant Valid() && rest <= kvs.Keys && written.Keys == kvs.Keys - rest && cluster.failures == old(cluster.failures)
        invariant InStep(cluster.honest, cluster.mine, shadow, store, keys[..], cluster.store, written)
        invariant forall k :: k in written ==> written[k] != ""
        decreases |rest|
      {
        var k :| k in rest;
        ghost var v;
        sent, v := SetOne(k, shadow, store, written);
        if !sent { return; }
        written := written[k := v];
        rest := rest - {k};
      }
      sent := true;
    }

    /** SET on up to ten keys. The shadow and, if all went well, the cluster change alike. */
    method CheckSet() returns (r: Outcome, ghost written: Store)
      requires Valid()
      modifies keys, cluster
      ensures Valid()
      ensures cluster.failures == old(cluster.failures) + if r.ClientFailed? then 1 else 0
      ensures r.Done? || r.Stopped? || r.ClientFailed?
      ensures Written(old(keys[..]), keys[..], written)
      ensures !r.ClientFailed? ==> InStep(cluster.honest, cluster.mine, old(keys[..]), old(cluster.store), keys[..], cluster.store, written)
      ensures r.Done? ==> 1 <= |written| <= 10 && forall k :: k in written ==> written[k] != ""
      ensures cluster.honest && !r.ClientFailed? && old(Agrees()) ==> Agrees()
    {
      var pass := WaitN();
      if !pass { return Stopped, map[]; }
      var kvs := RandomChooseKeys(10);
      ghost var shadow, store := keys[..], cluster.store;
      ChosenBuckets(buckets, shadow, kvs);
      var sent;
      sent, written := SetAll(kvs);
      if !sent { return ClientFailed, written; }
      assert |written.Keys| == |kvs.Keys|;
      if cluster.honest && old(Agrees()) {
        WritesKeepAgreement(buckets, luaKeys, luaValue, cluster.mine, shadow, keys[..], written, store, cluster.store);
      }
      return Done, written;
    }

    /** Store the given entries in one bucket of the shadow. */
    method Remember(slot: nat, kvs: Store)
      requires Valid() && slot < keys.Length && forall k :: k in kvs ==> k in keys[slot]
      modifies keys
      ensures Valid() && Written(old(keys[..]), keys[..], kvs)
    {
      ghost var shadow := keys[..];
      ghost var written: Store := map[];
      var rest := kvs.Keys;
      while rest != {}
        invariant Valid() && rest <= kvs.Keys && written == kvs - rest
        invariant Written(shadow, keys[..], written)
        decreases |rest|
      {
        var k :| k in rest;
        ghost var was := keys[..];
        assert k in shadow[slot] && k in was[slot] && k in buckets[slot];
        WriteOne(buckets, was, slot, k, kvs[k]);
        keys[slot] := keys[slot][k := kvs[k]];
        assert keys[..] == was[slot := was[slot][k := kvs[k]]];
        WrittenTwice(shadow, was, keys[..], written, k, kvs[k]);
        written := written[k := kvs[k]];
        rest := rest - {k};
      }
      assert written == kvs;
    }

    /** The shadow follows a change the cluster has made, which was in agreement before it. */
    method Follow(slot: nat, kvs: Store, ghost store: Store)
      requires Valid() && slot < keys.Length && forall k :: k in kvs ==> k in keys[slot]
      requires cluster.honest ==> Effect(cluster.mine, kvs, store, cluster.store)
      modifies keys
      ensures Valid() && InStep(cluster.honest, cluster.mine, old(keys[..]), store, keys[..], cluster.store, kvs)
      ensures cluster.honest && old(Agree(keys[..], luaKeys, luaValue, store)) ==> Agrees()
    {
      ghost var shadow := keys[..];
      SlotHasKeys(buckets, shadow, slot, kvs);
      Remember(slot, kvs);
      if cluster.honest && Agree(shadow, luaKeys, luaValue, store) {
        WritesKeepAgreement(buckets, luaKeys, luaValue, cluster.mine, shadow, keys[..], kvs, store, cluster.store);
      }
    }

    /** The loop of checkMSet that builds the arguments: keys and new values in turn. */
    method NewValues(kvs: Store, ghost store: Store) returns (args: seq<string>, updated: Store)
      ensures updated.Keys == kvs.Keys && forall k :: k in updated ==> updated[k] != ""
      ensures ApplyPairs(store, args) == store + updated
    {
      args, updated := [], kvs;
      ghost var renewed: Store := map[];
      var rest := kvs.Keys;
      while rest != {}
        invariant Renewing(kvs, rest, updated, renewed)
        invariant ApplyPairs(store, args) == store + renewed
        decreases |rest|
      {
        var k :| k in rest;
        var now: int := *;
        var v := GenNewValue(k, now);
        PairAppended(store, args, renewed, k, v);
        RenewOne(kvs, rest, updated, renewed, k, v);
        args := args + [k, v];
        updated := updated[k := v];
        renewed := renewed[k := v];
        rest := rest - {k};
      }
      assert renewed == updated;
    }

    /** MSET on all keys of one slot. */
    method CheckMSet() returns (r: Outcome, ghost written: Store)
      requires Valid()
      modifies keys, cluster
      ensures Valid()
      ensures cluster.failures == old(cluster.failures) + if r.ClientFailed? then 1 else 0
      ensures r.Done? || r.Stopped? || r.ClientFailed?
      ensures Written(old(keys[..]), keys[..], written)
      ensures !r.ClientFailed? ==> InStep(cluster.honest, cluster.mine, old(keys[..]), old(cluster.store), keys[..], cluster.store, written)
      ensures r.Done? ==> |written| == KEYS_PER_SLOT && forall k :: k in written ==> written[k] != ""
      ensures cluster.honest && !r.ClientFailed? && old(Agrees()) ==> Agrees()
    {
      written := map[];
      var pass := WaitN();
      if !pass { return Stopped, written; }
      var slot, kvs := RandomChooseKeysInSameSlot(10);
      ghost var store := cluster.store;
      var args, updated := NewValues(kvs, store);
      assert |updated.Keys| == |kvs.Keys|;
      var sent := cluster.MSet(args);
      if !sent { return ClientFailed, written; }
      written := updated;
      if cluster.honest { StoreHasEffect(cluster.mine, written, store, cluster.store); }
      Follow(slot, updated, store);
      return Done, written;
    }

    /** DEL on all keys of one slot: an empty remembered value stands for no value at all. */
    method CheckDel() returns (r: Outcome, ghost written: Store)
      requires Valid()
      modifies keys, cluster
      ensures Valid()
      ensures cluster.failures == old(cluster.failures) + if r.ClientFailed? then 1 else 0
      ensures r.Done? || r.Stopped? || r.ClientFailed?
      ensures Written(old(keys[..]), keys[..], written)
      ensures !r.ClientFailed? ==> InStep(cluster.honest, cluster.mine, old(keys[..]), old(cluster.store), keys[..], cluster.store, written)
      ensures r.Done? ==> |written| == KEYS_PER_SLOT && forall k :: k in written ==> written[k] == ""
      ensures cluster.honest && !r.ClientFailed? && old(Agrees()) ==> Agrees()
    {
      written := map[];
      var slot, kvs := RandomChooseKeysInSameSlot(10);
      if |kvs| == 0 { return Done, written; }
      var pass := WaitN();
      if !pass { return Stopped, written; }
      ghost var store := cluster.store;
      var list := GetKeys(kvs);
      var sent := cluster.Del(list);
      if !sent { return ClientFailed, written; }
      var emptied := Emptied(kvs);
      assert |emptied.Keys| == |kvs.Keys|;
      written := emptied;
      if cluster.honest { DelHasEffect(cluster.mine, list, written, store, cluster.store); }
      Follow(slot, emptied, store);
      return Done, written;
    }

    /** All replies from the n-th on are what the shadow has. */
    ghost predicate AllRight(n: nat)
      reads keys, cluster
    {
      n <= |cluster.replies| && forall i :: n <= i < |cluster.replies| ==> Right(keys[..], cluster.replies[i])
    }

    /** The last reply has a wrong value, which r reports. */
    ghost predicate LastIsWrong(r: Outcome)
      requires r.Inconsistent?
      reads keys, cluster
    {
      |cluster.replies| > 0 && Wrong(keys[..], cluster.replies[|cluster.replies| - 1], r)
    }

    /** A complaint is about the last reply, and what it says of it is true. */
    ghost predicate Explains(r: Outcome)
      reads this`luaValue, keys, cluster
    {
      if Complaint(r) then |cluster.replies| > 0 && TrueOf(keys[..], luaKeys, luaValue, cluster.replies[|cluster.replies| - 1], r) else true
    }

    /** GET on up to ten keys; it stops at the first wrong value. All is well only if the cluster
        has answered, and every answer is the remembered value. */
    method CheckGet() returns (r: Outcome)
      requires Valid()
      modifies this`found, cluster
      ensures found == (old(found) || Complaint(r))
      ensures Valid()
      ensures cluster.failures == old(cluster.failures) + if r.ClientFailed? then 1 else 0
      ensures r.Done? ==> AllRight(|old(cluster.replies)|) && 1 <= |cluster.replies| - |old(cluster.replies)| <= 10
      ensures r.Inconsistent? ==> |cluster.replies| > |old(cluster.replies)| && LastIsWrong(r)
      ensures r.Done? || r.Stopped? || r.ClientFailed? || r.Inconsistent?
      ensures cluster.honest && old(Agrees()) ==> !r.Inconsistent? && Agrees()
    {
      var pass := WaitN();
      if !pass { return Stopped; }
      var kvs := RandomChooseKeys(10);
      ghost var store := cluster.store;
      ChosenAgree(buckets, luaKeys, luaValue, cluster.mine, keys[..], store, kvs);
      r := ReadAll(kvs);
      if cluster.honest && old(Agrees()) {
        SameKeepsAgreement(buckets, luaKeys, luaValue, cluster.mine, keys[..], store, cluster.store);
      }
    }

    /** The loop of checkGet. */
    method ReadAll(kvs: Store) returns (r: Outcome)
      requires Valid() && Chosen(keys[..], kvs) && kvs.Keys <= cluster.mine
      modifies this`found, cluster
      ensures found == (old(found) || Complaint(r))
      ensures cluster.failures == old(cluster.failures) + if r.ClientFailed? then 1 else 0
      ensures r.Done? ==> AllRight(|old(cluster.replies)|) && |cluster.replies| - |old(cluster.replies)| == |kvs|
      ensures r.Inconsistent? ==> |cluster.replies| > |old(cluster.replies)| && LastIsWrong(r)
      ensures r.Done? || r.ClientFailed? || r.Inconsistent?
      ensures cluster.honest ==> SameOn(cluster.mine, cluster.store, old(cluster.store))
      ensures cluster.honest && Holds(old(cluster.store), kvs) ==> !r.Inconsistent?
    {
      ghost var store, n := cluster.store, |cluster.replies|;
      var rest := kvs.Keys;
      assert |rest| == |kvs|;
      while rest != {}
        invariant rest <= kvs.Keys
        invariant AllRight(n) && |cluster.replies| - n + |rest| == |kvs| && found == old(found) && cluster.failures == old(cluster.failures)
        invariant cluster.honest ==> SameOn(cluster.mine, cluster.store, store)
        decreases |rest|
      {
        var k :| k in rest;
        r := ReadOne(k, kvs[k], store);
        if r != Done { return; }
        rest := rest - {k};
      }
      r := Done;
    }

    /** One GET of checkGet, and the comparison. */
    method ReadOne(k: string, expected: string, ghost store: Store) returns (r: Outcome)
      requires Valid() && InShadow(keys[..], k, expected) && k in cluster.mine
      requires cluster.honest ==> SameOn(cluster.mine, cluster.store, store)
      modifies this`found, cluster
      ensures found == (old(found) || Complaint(r))
      ensures cluster.failures == old(cluster.failures) + if r.ClientFailed? then 1 else 0
      ensures r.Done? || r.ClientFailed? || r.Inconsistent?
      ensures !r.ClientFailed? ==> |cluster.replies| > 0 && cluster.replies == old(cluster.replies) + [cluster.replies[|cluster.replies| - 1]]
      ensures r.Done? ==> Right(keys[..], cluster.replies[|cluster.replies| - 1])
      ensures r.Inconsistent? ==> LastIsWrong(r)
      ensures cluster.honest ==> SameOn(cluster.mine, cluster.store, store)
      ensures cluster.honest && Nil2Empty(Find(store, k)) == expected ==> !r.Inconsistent?
    {
      var v, sent := cluster.Get(k);
      ghost var reply := Reply([k], [v]);
      found := found || (sent && !Right(keys[..], reply));
      if !sent { return ClientFailed; }
      var s := Nil2Empty(v);
      OneValue(buckets, keys[..], k, expected, s);
      assert reply.keys[0] == k && Nil2Empty(reply.values[0]) == s;
      if s != expected { return Inconsistent(k, s, expected); }
      return Done;
    }

    /** Compare what was read with what was expected; the last difference is the one reported. */
    method CompareAll(list: seq<string>, values: seq<Option<string>>, expected: seq<string>) returns (r: Outcome)
      requires |values| == |list| == |expected|
      ensures r.Done? <==> forall i :: 0 <= i < |list| ==> Nil2Empty(values[i]) == expected[i]
      ensures r.Done? || r.Inconsistent?
      ensures r.Inconsistent? ==> exists i :: LastDifference(list, values, expected, i, |list|, r)
    {
      r := Done;
      ghost var last := 0;
      for i := 0 to |list|
        invariant r.Done? <==> forall j :: 0 <= j < i ==> Nil2Empty(values[j]) == expected[j]
        invariant r.Done? || r.Inconsistent?
        invariant r.Inconsistent? ==> LastDifference(list, values, expected, last, i, r)
      {
        var s := Nil2Empty(values[i]);
        if s != expected[i] {
          r := Inconsistent(list[i], s, expected[i]);
          last := i;
        }
      }
    }

    /** MGET on all keys of one slot. All is well only if the reply has the right length and every
        remembered value; otherwise the last wrong value is reported. */
    method CheckMGet() returns (r: Outcome)
      requires Valid()
      modifies this`found, cluster
      ensures found == (old(found) || Complaint(r)) && Explains(r)
      ensures Valid()
      ensures cluster.failures == old(cluster.failures) + if r.ClientFailed? then 1 else 0
      ensures r.Done? ==> AllRight(|old(cluster.replies)|) && |cluster.replies| == |old(cluster.replies)| + 1
      ensures r.Inconsistent? ==> |cluster.replies| == |old(cluster.replies)| + 1 && LastIsWrong(r)
      ensures r.InvalidLength? ==> |cluster.replies| == |old(cluster.replies)| + 1 && Explains(r)
      ensures !r.OutOfRange?
      ensures r.Done? ==> |cluster.replies[|cluster.replies| - 1].keys| == 8
      ensures cluster.honest && old(Agrees()) ==> !Complaint(r) && Agrees()
    {
      var slot, kvs := RandomChooseKeysInSameSlot(10);
      if |kvs| == 0 { return Done; }
      var pass := WaitN();
      if !pass { return Stopped; }
      ghost var store := cluster.store;
      SlotIsChosen(keys[..], slot, kvs);
      r := ReadSlot(kvs);
      if cluster.honest && old(Agrees()) {
        SameKeepsAgreement(buckets, luaKeys, luaValue, cluster.mine, keys[..], store, cluster.store);
      }
    }

    /** The MGET of checkMGet, and the verdict on the reply. */
    method ReadSlot(kvs: Store) returns (r: Outcome)
      requires Valid() && Chosen(keys[..], kvs)
      modifies this`found, cluster
      ensures Valid() && !r.OutOfRange? && !r.Stopped?
      ensures found == (old(found) || Complaint(r)) && Explains(r)
      ensures cluster.failures == old(cluster.failures) + if r.ClientFailed? then 1 else 0
      ensures !r.ClientFailed? ==> |cluster.replies| == |old(cluster.replies)| + 1 && |cluster.replies[|cluster.replies| - 1].keys| == |kvs|
      ensures r.Done? ==> AllRight(|old(cluster.replies)|)
      ensures r.Inconsistent? ==> LastIsWrong(r)
      ensures cluster.honest ==> SameOn(cluster.mine, cluster.store, old(cluster.store))
      ensures cluster.honest && old(Agrees()) ==> !Complaint(r)
    {
      var list := GetKeys(kvs);
      ghost var store := cluster.store;
      var values, sent := cluster.MGet(list);
      found := found || (sent && !Right(keys[..], Reply(list, values)));
      r := JudgeMGet(list, kvs, values, sent, store);
    }

    /** What checkMGet makes of the reply. */
    method JudgeMGet(list: seq<string>, kvs: Store, values: seq<Option<string>>, sent: bool, ghost store: Store) returns (r: Outcome)
      requires Valid() && Chosen(keys[..], kvs) && forall k :: k in list <==> k in kvs
      requires cluster.honest && sent ==> |values| == |list| && forall i :: 0 <= i < |list| && list[i] in cluster.mine ==> values[i] == Find(store, list[i])
      ensures r.ClientFailed? <==> !sent
      ensures r.InvalidLength? <==> sent && |values| != |list|
      ensures r.Done? ==> Right(keys[..], Reply(list, values))
      ensures r.Inconsistent? ==> Wrong(keys[..], Reply(list, values), r)
      ensures sent ==> (Complaint(r) <==> !Right(keys[..], Reply(list, values)))
      ensures !r.OutOfRange? && !r.Stopped?
      ensures cluster.honest && Agree(keys[..], luaKeys, luaValue, store) ==> !Complaint(r)
    {
      if !sent { return ClientFailed; }
      if |list| != |values| { return InvalidLength; }
      ChosenAgree(buckets, luaKeys, luaValue, cluster.mine, keys[..], store, kvs);
      r := CompareAll(list, values, seq(|list|, i requires 0 <= i < |list| => kvs[list[i]]));
      assert forall i :: 0 <= i < |list| ==> InShadow(keys[..], list[i], kvs[list[i]]);
      if r.Inconsistent? { WrongIsNotRight(buckets, keys[..], Reply(list, values), r); }
    }

    /** One value for all Lua keys, set by one script. */
    method CheckLuaMSet() returns (r: Outcome, ghost value: string)
      requires Valid()
      modifies this`luaValue, cluster
      ensures Valid()
      ensures cluster.failures == old(cluster.failures) + if r.ClientFailed? then 1 else 0
      ensures r.Done? || r.Stopped? || r.ClientFailed?
      ensures luaValue == if r.Done? then value else old(luaValue)
      ensures r.Done? && cluster.honest ==> forall k :: k in cluster.mine ==> Find(cluster.store, k) == if k in luaKeys then Some(value) else Find(old(cluster.store), k)
      ensures cluster.honest && !r.ClientFailed? && old(Agrees()) ==> Agrees()
    {
      var token: string := *;
      value := token;
      var pass := WaitN();
      if !pass { return Stopped, value; }
      var values: seq<string> := [];
      for i := 0 to |luaKeys|
        invariant |values| == i && forall j :: 0 <= j < i ==> values[j] == token
      {
        values := values + [token];
      }
      ghost var store := cluster.store;
      var sent := cluster.LuaMSet(luaKeys, values);
      if !sent { return ClientFailed, value; }
      ScriptWrites(store, luaKeys, values, token);
      if cluster.honest && old(Agrees()) {
        LuaWriteKeepsAgreement(buckets, luaKeys, luaValue, cluster.mine, keys[..], token, values, store, cluster.store);
      }
      luaValue := token;
      return Done, value;
    }

    /** All Lua keys must have the one value. A short reply ends in a panic. */
    method CheckLuaMGet() returns (r: Outcome)
      requires Valid()
      modifies this`found, cluster
      ensures found == (old(found) || Complaint(r)) && Explains(r)
      ensures Valid()
      ensures cluster.failures == old(cluster.failures) + if r.ClientFailed? then 1 else 0
      ensures r.Done? ==> |cluster.replies| == |old(cluster.replies)| + 1 && cluster.replies[|cluster.replies| - 1].keys == luaKeys
      ensures r.Stopped? || r.ClientFailed? || (|cluster.replies| == |old(cluster.replies)| + 1 && LuaVerdict(luaKeys, luaValue, cluster.replies[|cluster.replies| - 1], r))
      ensures cluster.honest && old(Agrees()) ==> !Complaint(r) && Agrees()
    {
      var pass := WaitN();
      if !pass { return Stopped; }
      ghost var store := cluster.store;
      var values, sent := cluster.LuaMGet(luaKeys);
      found := found || (sent && LuaBad(luaKeys, luaValue, Reply(luaKeys, values)));
      if cluster.honest && old(Agrees()) {
        SameKeepsAgreement(buckets, luaKeys, luaValue, cluster.mine, keys[..], store, cluster.store);
      }
      if !sent { return ClientFailed; }
      if |values| < |luaKeys| { return OutOfRange; }
      var expected := luaValue;
      r := CompareAll(luaKeys, values[..|luaKeys|], seq(|luaKeys|, _ => expected));
    }

    /** One random check, of the kind that is drawn. */
    method CheckKeyValue(n: nat) returns (r: Outcome, ghost written: Store)
      requires Valid()
      modifies this`luaValue, this`found, keys, cluster
      ensures Valid()
      ensures cluster.failures == old(cluster.failures) + if r.ClientFailed? then 1 else 0
      ensures found == (old(found) || Complaint(r)) && Explains(r)
      ensures r.Done? && n % 7 == 0 ==> Written(old(keys[..]), keys[..], written) && 1 <= |written| <= 10 && forall k :: k in written ==> written[k] != ""
      ensures r.Done? && n % 7 == 1 ==> Written(old(keys[..]), keys[..], written) && |written| == 8 && forall k :: k in written ==> written[k] != ""
      ensures r.Done? && n % 7 == 2 && cluster.honest ==> forall k :: k in luaKeys && k in cluster.mine ==> Find(cluster.store, k) == Some(luaValue)
      ensures r.Done? && n % 7 == 3 ==> 1 <= |cluster.replies| - |old(cluster.replies)| <= 10
      ensures r.Done? && n % 7 == 4 ==> |cluster.replies| == |old(cluster.replies)| + 1 && |cluster.replies[|cluster.replies| - 1].keys| == 8
      ensures r.Done? && n % 7 == 5 ==> |cluster.replies| == |old(cluster.replies)| + 1 && cluster.replies[|cluster.replies| - 1].keys == luaKeys
      ensures r.Done? && n % 7 == 6 ==> Written(old(keys[..]), keys[..], written) && |written| == 8 && forall k :: k in written ==> written[k] == ""
      ensures cluster.honest && old(Agrees()) ==> !Complaint(r) && (!r.ClientFailed? ==> Agrees())
    {
      ghost var value;
      written := map[];
      match n % 7
      case 0 => r, written := CheckSet();
      case 1 => r, written := CheckMSet();
      case 2 => r, value := CheckLuaMSet();
      case 3 => r := CheckGet();
      case 4 => r := CheckMGet();
      case 5 => r := CheckLuaMGet();
      case _ => r, written := CheckDel();
    }

    /**
     The checker's run, cut off after any number of rounds. It complains exactly if it has read a
     reply that is not what it remembers, and then that was the last one and is what it reports.
     On a cluster that behaves as one map it never complains, whatever checks are drawn and
     whatever other clients do to their keys; it can only be stopped from outside or by a failing
     call.
     */
    method LoopCheck(rounds: nat) returns (r: Outcome)
      requires Valid()
      modifies this`luaValue, this`found, keys, cluster
      ensures Valid()
      ensures cluster.failures == old(cluster.failures) + if r.ClientFailed? then 1 else 0
      ensures found == (old(found) || Complaint(r)) && Explains(r)
      ensures cluster.honest && old(Agrees()) ==> r.ClientFailed? || ((r.Done? || r.Stopped?) && Agrees())
    {
      r := Done;
      var i := 0;
      while i < rounds
        invariant Valid() && r.Done? && found == old(found) && cluster.failures == old(cluster.failures)
        invariant cluster.honest && old(Agrees()) ==> Agrees()
      {
        var draw: nat := *;
        ghost var written;
        r, written := CheckKeyValue(draw);
        if !r.Done? { return; }
        i := i + 1;
      }
    }
  }

  /** A reply with the remembered value for every key. */
  ghost predicate Right(shadow: Shadow, reply: Reply)
  {
    && |reply.values| == |reply.keys|
    && forall j :: 0 <= j < |reply.keys| ==> InShadow(shadow, reply.keys[j], Nil2Empty(reply.values[j]))
  }

  /** A reply to the Lua MGET that is too short, or has another value for one of the keys. */
  ghost predicate LuaBad(luaKeys: seq<string>, luaValue: string, reply: Reply)
  {
    |reply.values| < |luaKeys| || exists j :: 0 <= j < |luaKeys| && Nil2Empty(reply.values[j]) != luaValue
  }

  ghost predicate LuaWrong(luaKeys: seq<string>, luaValue: string, reply: Reply, r: Outcome)
    requires r.Inconsistent?
  {
    && reply.keys == luaKeys && |reply.values| >= |luaKeys| && r.expected == luaValue != r.got
    && exists j :: 0 <= j < |luaKeys| && r.key == luaKeys[j] && Nil2Empty(reply.values[j]) == r.got
  }

  ghost predicate TrueOf(shadow: Shadow, luaKeys: seq<string>, luaValue: string, reply: Reply, r: Outcome)
  {
    match r
    case Inconsistent(_, _, _) => Wrong(shadow, reply, r) || LuaWrong(luaKeys, luaValue, reply, r)
    case InvalidLength => |reply.values| != |reply.keys|
    case OutOfRange => reply.keys == luaKeys && |reply.values| < |luaKeys|
    case _ => true
  }

  /** A key has one remembered value. */
  lemma OneValue(buckets: seq<set<string>>, shadow: Shadow, k: string, v: string, w: string)
    requires Hashed(buckets) && Shaped(shadow, buckets) && InShadow(shadow, k, v)
    ensures InShadow(shadow, k, w) <==> v == w
  {
    forall s, s' | 0 <= s < |shadow| && k in shadow[s] && 0 <= s' < |shadow| && k in shadow[s'] ensures s == s' {
      assert k in buckets[s] && k in buckets[s'];
      assert SlotOf(k) == s && SlotOf(k) == s';
    }
  }

  lemma WrongIsNotRight(buckets: seq<set<string>>, shadow: Shadow, reply: Reply, r: Outcome)
    requires Hashed(buckets) && Shaped(shadow, buckets) && r.Inconsistent? && Wrong(shadow, reply, r)
    ensures !Right(shadow, reply)
  {
    OneValue(buckets, shadow, r.key, r.expected, r.got);
  }

  /** A reply in which the key that r names has the value that r says it got, and should have had
      the remembered one. */
  ghost predicate Wrong(shadow: Shadow, reply: Reply, r: Outcome)
    requires r.Inconsistent?
  {
    && |reply.values| == |reply.keys| && r.got != r.expected && InShadow(shadow, r.key, r.expected)
    && exists j :: 0 <= j < |reply.keys| && r.key == reply.keys[j] && Nil2Empty(reply.values[j]) == r.got
  }

  /** The only verdicts on a reply to the Lua MGET: too short; all values right; or a wrong one named. */
  ghost predicate LuaVerdict(luaKeys: seq<string>, luaValue: string, reply: Reply, r: Outcome)
  {
    if |reply.values| < |luaKeys| then r.OutOfRange?
    else if forall j :: 0 <= j < |luaKeys| ==> Nil2Empty(reply.values[j]) == luaValue then r.Done?
    else
      r.Inconsistent? && r.expected == luaValue != r.got && exists j :: 0 <= j < |luaKeys| && r.key == luaKeys[j] && Nil2Empty(reply.values[j]) == r.got
  }

  /** Among the first n, the value read at i is the last wrong one, and r reports it. */
  ghost predicate LastDifference(list: seq<string>, values: seq<Option<string>>, expected: seq<string>, i: int, n: nat, r: Outcome)
    requires |values| == |list| == |expected| >= n && r.Inconsistent?
  {
    && 0 <= i < n && r == Inconsistent(list[i], Nil2Empty(values[i]), expected[i]) && r.got != r.expected
    && forall j :: i < j < n ==> Nil2Empty(values[j]) == expected[j]
  }
}
