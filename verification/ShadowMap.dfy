/**
 The cluster as the consistency checker sees it, the shadow map the checker keeps of it, and when
 the two agree.

 The cluster is a class that either behaves as one map (honest) or answers anything at all. Other
 clients may act between two calls, but only on keys that are not this checker's own.
 */
module ShadowMap {
  import opened Common
  import opened Text
  import opened Crc16
  import opened HashTags
  import opened SlotTags

  const KEYS_PER_SLOT := 8
  const MAX_KEYS_NUM := SLOT_NUMBER * KEYS_PER_SLOT
  const LUA_KEYS_NUM := 10

  type Store = map<string, string>
  type Shadow = seq<map<string, string>>

  function Find(store: Store, k: string): Option<string> { if k in store then Some(store[k]) else None }

  function Nil2Empty(v: Option<string>): string { if v.Some? then v.value else "" }

  predicate SameOn(mine: set<string>, a: Store, b: Store)
  {
    forall k :: k in mine ==> Find(a, k) == Find(b, k)
  }

  // ---------- The cluster ----------

  /** MSET: the pairs are stored from left to right. */
  function ApplyPairs(store: Store, args: seq<string>): Store
  {
    if |args| < 2 then store
    else ApplyPairs(store, args[..|args| - 2])[args[|args| - 2] := args[|args| - 1]]
  }

  /** The script of the Lua MSET. */
  function ApplyScript(store: Store, keys: seq<string>, values: seq<string>): Store
    requires |keys| == |values|
  {
    if keys == [] then store
    else ApplyScript(store, keys[..|keys| - 1], values[..|keys| - 1])[keys[|keys| - 1] := values[|keys| - 1]]
  }

  lemma {:induction false} PairsRespectSame(mine: set<string>, a: Store, b: Store, args: seq<string>)
    requires SameOn(mine, a, b)
    ensures SameOn(mine, ApplyPairs(a, args), ApplyPairs(b, args))
  {
    if |args| >= 2 { PairsRespectSame(mine, a, b, args[..|args| - 2]); }
  }

  /** The values of all keys but the rest have been replaced. */
  ghost predicate Renewing(kvs: Store, rest: set<string>, updated: Store, renewed: Store)
  {
    && updated.Keys == kvs.Keys && renewed.Keys == kvs.Keys - rest && rest <= kvs.Keys
    && forall k :: k in renewed ==> renewed[k] != "" && updated[k] == renewed[k]
  }

  lemma RenewOne(kvs: Store, rest: set<string>, updated: Store, renewed: Store, k: string, v: string)
    requires Renewing(kvs, rest, updated, renewed) && k in rest && v != ""
    ensures Renewing(kvs, rest - {k}, updated[k := v], renewed[k := v])
  {
    assert updated[k := v].Keys == kvs.Keys;
  }

  lemma PairAppended(store: Store, args: seq<string>, renewed: Store, k: string, v: string)
    requires ApplyPairs(store, args) == store + renewed
    ensures ApplyPairs(store, args + [k, v]) == store + renewed[k := v]
  {
    assert (args + [k, v])[..|args|] == args;
  }

  /** A script that writes one value everywhere. */
  lemma {:induction false} ScriptWrites(store: Store, keys: seq<string>, values: seq<string>, value: string)
    requires |keys| == |values| && forall i :: 0 <= i < |values| ==> values[i] == value
    ensures forall k :: Find(ApplyScript(store, keys, values), k) == if k in keys then Some(value) else Find(store, k)
  {
    if keys != [] {
      var n := |keys| - 1;
      ScriptWrites(store, keys[..n], values[..n], value);
      assert keys == keys[..n] + [keys[n]];
    }
  }

  lemma {:induction false} ScriptRespectsSame(mine: set<string>, a: Store, b: Store, keys: seq<string>, values: seq<string>)
    requires |keys| == |values| && SameOn(mine, a, b)
    ensures SameOn(mine, ApplyScript(a, keys, values), ApplyScript(b, keys, values))
  {
    if keys != [] { ScriptRespectsSame(mine, a, b, keys[..|keys| - 1], values[..|keys| - 1]); }
  }

  datatype Reply = Reply(keys: seq<string>, values: seq<Option<string>>)

  class Cluster {
    const honest: bool
    const mine: set<string>
    var store: Store
    /** Every read that was answered, and the answer. */
    ghost var replies: seq<Reply>
    /** Calls that came back with an error. */
    ghost var failures: nat

    constructor (honest: bool, mine: set<string>, store: Store)
      ensures this.honest == honest && this.mine == mine && this.store == store && replies == [] && failures == 0
    {
      this.honest := honest;
      this.mine := mine;
      this.store := store;
      this.replies := [];
      this.failures := 0;
    }

    /** Other clients act; a dishonest cluster may also forget or invent. */
    method Interleave()
      modifies this
      ensures honest ==> SameOn(mine, store, old(store))
      ensures replies == old(replies) && failures == old(failures)
    {
      var after: Store := *;
      if !honest || SameOn(mine, after, store) { store := after; }
    }

    // An error tells nothing: the command may or may not have been carried out.

    method Set(key: string, value: string) returns (ok: bool)
      modifies this
      ensures honest && ok ==> SameOn(mine, store, old(store)[key := value])
      ensures replies == old(replies)
      ensures failures == old(failures) + if ok then 0 else 1
    {
      Interleave();
      ok := *;
      failures := failures + if ok then 0 else 1;
      var carriedOut: bool := *;
      if ok || carriedOut { store := store[key := value]; }
      Interleave();
    }

    method MSet(args: seq<string>) returns (ok: bool)
      modifies this
      ensures honest && ok ==> SameOn(mine, store, ApplyPairs(old(store), args))
      ensures replies == old(replies)
      ensures failures == old(failures) + if ok then 0 else 1
    {
      Interleave();
      ok := *;
      failures := failures + if ok then 0 else 1;
      var carriedOut: bool := *;
      if honest { PairsRespectSame(mine, store, old(store), args); }
      if ok || carriedOut { store := ApplyPairs(store, args); }
      Interleave();
    }

    method Del(keys: seq<string>) returns (ok: bool)
      modifies this
      ensures honest && ok ==> SameOn(mine, store, old(store) - set k | k in keys)
      ensures replies == old(replies)
      ensures failures == old(failures) + if ok then 0 else 1
    {
      Interleave();
      ok := *;
      failures := failures + if ok then 0 else 1;
      var carriedOut: bool := *;
      if ok || carriedOut { store := store - set k | k in keys; }
      Interleave();
    }

    method Get(key: string) returns (v: Option<string>, ok: bool)
      modifies this
      ensures honest ==> SameOn(mine, store, old(store))
      ensures honest && ok && key in mine ==> v == Find(old(store), key)
      ensures replies == old(replies) + if ok then [Reply([key], [v])] else []
      ensures failures == old(failures) + if ok then 0 else 1
    {
      Interleave();
      ok := *;
      failures := failures + if ok then 0 else 1;
      v := *;
      if honest { v := Find(store, key); }
      replies := replies + if ok then [Reply([key], [v])] else [];
      Interleave();
    }

    method MGet(keys: seq<string>) returns (values: seq<Option<string>>, ok: bool)
      modifies this
      ensures honest ==> SameOn(mine, store, old(store))
      ensures honest && ok ==> |values| == |keys|
      ensures honest && ok ==> forall i :: 0 <= i < |keys| && keys[i] in mine ==> values[i] == Find(old(store), keys[i])
      ensures replies == old(replies) + if ok then [Reply(keys, values)] else []
      ensures failures == old(failures) + if ok then 0 else 1
    {
      Interleave();
      ok := *;
      failures := failures + if ok then 0 else 1;
      values := *;
      if honest {
        values := [];
        for i := 0 to |keys|
          invariant |values| == i && forall k :: 0 <= k < i ==> values[k] == Find(store, keys[k])
        {
          values := values + [Find(store, keys[i])];
        }
      }
      replies := replies + if ok then [Reply(keys, values)] else [];
      Interleave();
    }

    /** The script of the Lua MGET answers like MGET. */
    method LuaMGet(keys: seq<string>) returns (values: seq<Option<string>>, ok: bool)
      modifies this
      ensures honest ==> SameOn(mine, store, old(store))
      ensures honest && ok ==> |values| == |keys|
      ensures honest && ok ==> forall i :: 0 <= i < |keys| && keys[i] in mine ==> values[i] == Find(old(store), keys[i])
      ensures replies == old(replies) + if ok then [Reply(keys, values)] else []
      ensures failures == old(failures) + if ok then 0 else 1
    {
      values, ok := MGet(keys);
    }

    method LuaMSet(keys: seq<string>, values: seq<string>) returns (ok: bool)
      requires |keys| == |values|
      modifies this
      ensures honest && ok ==> SameOn(mine, store, ApplyScript(old(store), keys, values))
      ensures replies == old(replies)
      ensures failures == old(failures) + if ok then 0 else 1
    {
      Interleave();
      ok := *;
      failures := failures + if ok then 0 else 1;
      var carriedOut: bool := *;
      if honest { ScriptRespectsSame(mine, store, old(store), keys, values); }
      if ok || carriedOut { store := ApplyScript(store, keys, values); }
      Interleave();
    }
  }

  // ---------- Shadow and store ----------

  /** Eight keys for each slot, hashing to it. */
  ghost predicate Hashed(buckets: seq<set<string>>)
  {
    && |buckets| == SLOT_NUMBER
    && (forall s :: 0 <= s < |buckets| ==> |buckets[s]| == KEYS_PER_SLOT)
    && (forall s, k {:trigger SlotOf(k), buckets[s]} :: 0 <= s < |buckets| && k in buckets[s] ==> SlotOf(k) == s)
  }

  /** k is one of the keys. */
  ghost predicate HasKey(buckets: seq<set<string>>, k: string)
  {
    exists s :: 0 <= s < |buckets| && k in buckets[s]
  }

  lemma KeyIsAtHome(buckets: seq<set<string>>, k: string)
    requires Hashed(buckets) && HasKey(buckets, k)
    ensures k in buckets[SlotOf(k)]
  {
    var s :| 0 <= s < |buckets| && k in buckets[s];
    assert SlotOf(k) == s;
  }

  /** All keys are the checker's own, and the Lua keys are apart from the others. */
  ghost predicate Owned(buckets: seq<set<string>>, luaKeys: seq<string>, mine: set<string>)
  {
    && (forall s, k :: 0 <= s < |buckets| && k in buckets[s] ==> k in mine && k !in luaKeys)
    && (forall k :: k in luaKeys ==> k in mine)
  }

  ghost predicate Shaped(shadow: Shadow, buckets: seq<set<string>>)
  {
    |shadow| == |buckets| && forall s :: 0 <= s < |shadow| ==> shadow[s].Keys == buckets[s]
  }

  /** Absent or stored, the value on the cluster is the remembered one. */
  ghost predicate Agree(shadow: Shadow, luaKeys: seq<string>, luaValue: string, store: Store)
  {
    && (forall s, k :: 0 <= s < |shadow| && k in shadow[s] ==> Nil2Empty(Find(store, k)) == shadow[s][k])
    && (forall k :: k in luaKeys ==> Nil2Empty(Find(store, k)) == luaValue)
  }

  /** The shadow changes on the given keys and nowhere else. */
  ghost predicate Written(was: Shadow, now: Shadow, kvs: Store)
  {
    && |was| == |now|
    && (forall s, k :: 0 <= s < |now| ==> (k in now[s] <==> k in was[s]))
    && (forall s, k :: 0 <= s < |now| && k in now[s] ==> now[s][k] == if k in kvs then kvs[k] else was[s][k])
  }

  /** The cluster changes on the given keys and, among the checker's own, nowhere else. */
  ghost predicate Effect(mine: set<string>, kvs: Store, was: Store, now: Store)
  {
    && (forall k :: k in kvs && k in mine ==> Nil2Empty(Find(now, k)) == kvs[k])
    && (forall k :: k in mine && k !in kvs ==> Find(now, k) == Find(was, k))
  }

  /** Equal writes on both sides keep the two in agreement. */
  lemma WritesKeepAgreement(buckets: seq<set<string>>, luaKeys: seq<string>, luaValue: string, mine: set<string>,
                            was: Shadow, now: Shadow, kvs: Store, storeWas: Store, storeNow: Store)
    requires Owned(buckets, luaKeys, mine) && Shaped(was, buckets)
    requires forall k :: k in kvs ==> HasKey(buckets, k)
    requires Written(was, now, kvs) && Effect(mine, kvs, storeWas, storeNow)
    requires Agree(was, luaKeys, luaValue, storeWas)
    ensures Agree(now, luaKeys, luaValue, storeNow)
  {
    forall s, k | 0 <= s < |now| && k in now[s] ensures Nil2Empty(Find(storeNow, k)) == now[s][k] {
      assert k in was[s] && k in buckets[s] && k in mine;
    }
    forall k | k in kvs ensures k !in luaKeys {
      var s :| 0 <= s < |buckets| && k in buckets[s];
    }
  }

  lemma LuaWriteKeepsAgreement(buckets: seq<set<string>>, luaKeys: seq<string>, luaValue: string, mine: set<string>,
                               shadow: Shadow, value: string, values: seq<string>, storeWas: Store, storeNow: Store)
    requires Owned(buckets, luaKeys, mine) && Shaped(shadow, buckets)
    requires |values| == |luaKeys| && forall i :: 0 <= i < |values| ==> values[i] == value
    requires SameOn(mine, storeNow, ApplyScript(storeWas, luaKeys, values))
    requires Agree(shadow, luaKeys, luaValue, storeWas)
    ensures Agree(shadow, luaKeys, value, storeNow)
  {
    ScriptWrites(storeWas, luaKeys, values, value);
  }

  lemma StoreHasEffect(mine: set<string>, kvs: Store, was: Store, now: Store)
    requires SameOn(mine, now, was + kvs)
    ensures Effect(mine, kvs, was, now)
  {
  }

  lemma DelHasEffect(mine: set<string>, list: seq<string>, kvs: Store, was: Store, now: Store)
    requires SameOn(mine, now, was - set k | k in list)
    requires forall k :: (k in list <==> k in kvs) && (k in kvs ==> kvs[k] == "")
    ensures Effect(mine, kvs, was, now)
  {
  }

  lemma WrittenTwice(was: Shadow, mid: Shadow, now: Shadow, kvs: Store, k: string, v: string)
    requires Written(was, mid, kvs) && Written(mid, now, map[k := v])
    ensures Written(was, now, kvs[k := v])
  {
    forall s, x | 0 <= s < |now| && x in now[s] ensures now[s][x] == if x in kvs[k := v] then kvs[k := v][x] else was[s][x] {
      assert x in mid[s] && mid[s][x] == if x in kvs then kvs[x] else was[s][x];
      assert now[s][x] == if x in map[k := v] then map[k := v][x] else mid[s][x];
    }
  }

  lemma EffectTwice(mine: set<string>, was: Store, mid: Store, now: Store, kvs: Store, k: string, v: string)
    requires Effect(mine, kvs, was, mid) && Effect(mine, map[k := v], mid, now)
    ensures Effect(mine, kvs[k := v], was, now)
  {
  }

  /** Storing one key in its bucket: no other bucket has it. */
  lemma WriteOne(buckets: seq<set<string>>, was: Shadow, slot: nat, k: string, v: string)
    requires Hashed(buckets) && Shaped(was, buckets)
    requires slot < |was| && k in buckets[slot]
    ensures Written(was, was[slot := was[slot][k := v]], map[k := v])
    ensures Shaped(was[slot := was[slot][k := v]], buckets)
  {
    var now := was[slot := was[slot][k := v]];
    assert now[slot].Keys == was[slot].Keys;
    forall s | 0 <= s < |was| && k in was[s] ensures s == slot {
      assert k in buckets[s] && SlotOf(k) == s;
      assert SlotOf(k) == slot;
    }
  }

  /** Shadow and cluster have changed alike, on the written keys. */
  ghost predicate InStep(honest: bool, mine: set<string>, was: Shadow, storeWas: Store, now: Shadow, storeNow: Store, written: Store)
  {
    Written(was, now, written) && (honest ==> Effect(mine, written, storeWas, storeNow))
  }

  /** One SET, remembered in the bucket the key hashes to. */
  lemma SetInStep(buckets: seq<set<string>>, honest: bool, mine: set<string>, was: Shadow, storeWas: Store,
                  mid: Shadow, storeMid: Store, storeNow: Store, written: Store, k: string, v: string)
    requires Hashed(buckets) && Shaped(mid, buckets) && HasKey(buckets, k)
    requires InStep(honest, mine, was, storeWas, mid, storeMid, written)
    requires honest ==> SameOn(mine, storeNow, storeMid[k := v])
    ensures var slot := SlotOf(k); var now := mid[slot := mid[slot][k := v]]; Shaped(now, buckets) && InStep(honest, mine, was, storeWas, now, storeNow, written[k := v])
  {
    var slot := SlotOf(k);
    KeyIsAtHome(buckets, k);
    WriteOne(buckets, mid, slot, k, v);
    WrittenTwice(was, mid, mid[slot := mid[slot][k := v]], written, k, v);
    if honest {
      assert storeMid[k := v] == storeMid + map[k := v];
      StoreHasEffect(mine, map[k := v], storeMid, storeNow);
      EffectTwice(mine, storeWas, storeMid, storeNow, written, k, v);
    }
  }

  // ---------- The keys of one slot ----------

  /** The number of the j-th key for slot s. */
  function KeyNumber(s: nat, j: nat): nat { s + j * SLOT_NUMBER }

  /** The first n keys made for slot s. */
  ghost function Bucket(t: int, ckID: int, s: nat, tag: string, n: nat): set<string>
  {
    if n == 0 then {} else Bucket(t, ckID, s, tag, n - 1) + {GenKey(t, ckID, s, KeyNumber(s, n - 1), tag)}
  }

  lemma {:induction false} InBucket(t: int, ckID: int, s: nat, tag: string, n: nat, k: string) returns (j: nat)
    requires k in Bucket(t, ckID, s, tag, n)
    ensures j < n && k == GenKey(t, ckID, s, KeyNumber(s, j), tag)
  {
    if k in Bucket(t, ckID, s, tag, n - 1) { j := InBucket(t, ckID, s, tag, n - 1, k); } else { j := n - 1; }
  }

  /** Key numbers tell the keys of one slot apart. */
  lemma {:induction false} BucketSize(t: int, ckID: int, s: nat, tag: string, n: nat)
    requires IsTag(tag)
    ensures |Bucket(t, ckID, s, tag, n)| == n
  {
    if n > 0 {
      BucketSize(t, ckID, s, tag, n - 1);
      var last := GenKey(t, ckID, s, KeyNumber(s, n - 1), tag);
      if last in Bucket(t, ckID, s, tag, n - 1) {
        var j := InBucket(t, ckID, s, tag, n - 1, last);
        GenKeyInjective(t, ckID, s, KeyNumber(s, j), tag, t, ckID, s, KeyNumber(s, n - 1), tag);
        assert false;
      }
    }
  }

  lemma BucketHashes(t: int, ckID: int, s: nat, tag: string, n: nat, k: string)
    requires IsTag(tag) && SlotOf(tag) == s && k in Bucket(t, ckID, s, tag, n)
    ensures SlotOf(k) == s
  {
    var j := InBucket(t, ckID, s, tag, n, k);
    GeneratedKeysHitTheirSlot(t, ckID, s, KeyNumber(s, j), tag);
  }

  // ---------- Filling the table of keys ----------

  /** How many keys slot s has after i rounds. */
  function Filled(i: nat, s: nat): nat { i / SLOT_NUMBER + (if s < i % SLOT_NUMBER then 1 else 0) }

  lemma FilledStep(i: nat, s: nat)
    requires s < SLOT_NUMBER
    ensures s == i % SLOT_NUMBER ==> Filled(i + 1, s) == Filled(i, s) + 1 && KeyNumber(s, Filled(i, s)) == i
    ensures s != i % SLOT_NUMBER ==> Filled(i + 1, s) == Filled(i, s)
  {
  }

  /** Every bucket holds the first keys of its slot, with empty values. */
  ghost predicate KeysFilled(shadow: Shadow, t: int, ckID: int, tags: seq<string>, i: nat)
  {
    && |shadow| == |tags| == SLOT_NUMBER
    && (forall s :: 0 <= s < |shadow| ==> shadow[s].Keys == Bucket(t, ckID, s, tags[s], Filled(i, s)))
    && (forall s, k :: 0 <= s < |shadow| && k in shadow[s] ==> shadow[s][k] == "")
  }

  lemma KeysFilledStep(shadow: Shadow, t: int, ckID: int, tags: seq<string>, i: nat)
    requires KeysFilled(shadow, t, ckID, tags, i)
    ensures var s := i % SLOT_NUMBER; KeysFilled(shadow[s := shadow[s][GenKey(t, ckID, s, i, tags[s]) := ""]], t, ckID, tags, i + 1)
  {
    var s := i % SLOT_NUMBER;
    var now := shadow[s := shadow[s][GenKey(t, ckID, s, i, tags[s]) := ""]];
    forall r | 0 <= r < |now| ensures now[r].Keys == Bucket(t, ckID, r, tags[r], Filled(i + 1, r)) {
      FilledStep(i, r);
      if r == s {
        assert now[s].Keys == shadow[s].Keys + {GenKey(t, ckID, s, i, tags[s])};
      } else {
        assert now[r] == shadow[r];
      }
    }
    forall r, k | 0 <= r < |now| && k in now[r] ensures now[r][k] == "" {
      if r != s { assert now[r] == shadow[r]; }
    }
  }

  method FillKeys(keys: array<map<string, string>>, t: int, ckID: int, tags: seq<string>)
    requires keys.Length == |tags| == SLOT_NUMBER
    requires forall s :: 0 <= s < SLOT_NUMBER ==> keys[s] == map[]
    modifies keys
    ensures KeysFilled(keys[..], t, ckID, tags, MAX_KEYS_NUM)
  {
    var i := 0;
    while i != MAX_KEYS_NUM
      invariant 0 <= i <= MAX_KEYS_NUM
      invariant KeysFilled(keys[..], t, ckID, tags, i)
    {
      var s := i % SLOT_NUMBER;
      ghost var before := keys[..];
      var k := GenKey(t, ckID, s, i, tags[s]);
      KeysFilledStep(before, t, ckID, tags, i);
      keys[s] := keys[s][k := ""];
      assert keys[..] == before[s := before[s][k := ""]];
      i := i + 1;
    }
  }

  /** After all rounds each slot has exactly its eight keys, apart from each other. */
  lemma FilledBuckets(shadow: Shadow, t: int, ckID: int, tags: seq<string>, buckets: seq<set<string>>)
    requires TagTable(tags) && KeysFilled(shadow, t, ckID, tags, MAX_KEYS_NUM) && |buckets| == SLOT_NUMBER
    requires forall s :: 0 <= s < |buckets| ==> buckets[s] == Bucket(t, ckID, s, tags[s], KEYS_PER_SLOT)
    ensures Hashed(buckets) && Shaped(shadow, buckets)
  {
    forall s | 0 <= s < |buckets| ensures |buckets[s]| == KEYS_PER_SLOT && shadow[s].Keys == buckets[s] {
      BucketSize(t, ckID, s, tags[s], KEYS_PER_SLOT);
      assert Filled(MAX_KEYS_NUM, s) == KEYS_PER_SLOT;
    }
    forall s, k | 0 <= s < |buckets| && k in buckets[s] ensures SlotOf(k) == s {
      BucketHashes(t, ckID, s, tags[s], KEYS_PER_SLOT, k);
    }
  }

  /** Two checkers, or two generations of one, never share a key of either kind. */
  lemma CheckersAreApart(t: int, ckID: int, s: nat, tag: string, n: nat, t': int, ckID': int, s': nat, tag': string, n': nat,
                         keyID: int, second: int, keyID': int, second': int)
    requires IsTag(tag) && IsTag(tag') && (t != t' || ckID != ckID')
    ensures Bucket(t, ckID, s, tag, n) !! Bucket(t', ckID', s', tag', n')
    ensures GenLuaKey(t', ckID', keyID', second') !in Bucket(t, ckID, s, tag, n)
    ensures GenLuaKey(t, ckID, keyID, second) != GenLuaKey(t', ckID', keyID', second')
  {
    if GenLuaKey(t, ckID, keyID, second) == GenLuaKey(t', ckID', keyID', second') {
      GenLuaKeyInjective(t, ckID, keyID, second, t', ckID', keyID', second');
    }
    forall k | k in Bucket(t, ckID, s, tag, n) ensures k !in Bucket(t', ckID', s', tag', n') && k != GenLuaKey(t', ckID', keyID', second') {
      var j := InBucket(t, ckID, s, tag, n, k);
      LuaKeysAreApart(t, ckID, s, KeyNumber(s, j), tag, t', ckID', keyID', second');
      if k in Bucket(t', ckID', s', tag', n') {
        var j' := InBucket(t', ckID', s', tag', n', k);
        GenKeyInjective(t, ckID, s, KeyNumber(s, j), tag, t', ckID', s', KeyNumber(s', j'), tag');
        assert false;
      }
    }
  }

  // ---------- Entries of the shadow ----------

  function GenNewValue(key: string, now: int): string { Field(key, FormatInt(now)) }

  /** Key k stands in the shadow with value v. */
  ghost predicate InShadow(shadow: Shadow, k: string, v: string)
  {
    exists s :: 0 <= s < |shadow| && k in shadow[s] && shadow[s][k] == v
  }

  /** The same keys, without a value. */
  function Emptied(kvs: Store): (m: Store)
    ensures m.Keys == kvs.Keys && forall k :: k in m ==> m[k] == ""
  {
    map k | k in kvs :: ""
  }

  /** Entries of the shadow. */
  ghost predicate Chosen(shadow: Shadow, kvs: Store)
  {
    forall k :: k in kvs ==> InShadow(shadow, k, kvs[k])
  }

  lemma ChosenAgree(buckets: seq<set<string>>, luaKeys: seq<string>, luaValue: string, mine: set<string>, shadow: Shadow, store: Store, kvs: Store)
    requires Owned(buckets, luaKeys, mine) && Shaped(shadow, buckets) && Chosen(shadow, kvs)
    ensures forall k :: k in kvs ==> k in mine && k !in luaKeys
    ensures Agree(shadow, luaKeys, luaValue, store) ==> forall k :: k in kvs ==> Nil2Empty(Find(store, k)) == kvs[k]
  {
    forall k | k in kvs ensures k in mine && k !in luaKeys && (Agree(shadow, luaKeys, luaValue, store) ==> Nil2Empty(Find(store, k)) == kvs[k]) {
      var s :| 0 <= s < |shadow| && k in shadow[s] && shadow[s][k] == kvs[k];
      assert k in buckets[s];
    }
  }

  lemma ChosenBuckets(buckets: seq<set<string>>, shadow: Shadow, kvs: Store)
    requires Shaped(shadow, buckets) && Chosen(shadow, kvs)
    ensures forall k :: k in kvs ==> HasKey(buckets, k)
  {
    forall k | k in kvs ensures HasKey(buckets, k) {
      var s :| 0 <= s < |shadow| && k in shadow[s] && shadow[s][k] == kvs[k];
      assert k in buckets[s];
    }
  }

  lemma SlotHasKeys(buckets: seq<set<string>>, shadow: Shadow, slot: nat, kvs: Store)
    requires Shaped(shadow, buckets) && slot < |shadow| && forall k :: k in kvs ==> k in shadow[slot]
    ensures forall k :: k in kvs ==> HasKey(buckets, k)
  {
    forall k | k in kvs ensures HasKey(buckets, k) {
      assert k in buckets[slot];
    }
  }

  /** A copy of one bucket's entries is a choice of the shadow's. */
  lemma SlotIsChosen(shadow: Shadow, slot: nat, kvs: Store)
    requires slot < |shadow| && forall k :: k in kvs ==> k in shadow[slot] && kvs[k] == shadow[slot][k]
    ensures Chosen(shadow, kvs)
  {
    forall k | k in kvs ensures InShadow(shadow, k, kvs[k]) {
      assert k in shadow[slot] && shadow[slot][k] == kvs[k];
    }
  }

  lemma SameKeepsAgreement(buckets: seq<set<string>>, luaKeys: seq<string>, luaValue: string, mine: set<string>, shadow: Shadow, storeWas: Store, storeNow: Store)
    requires Owned(buckets, luaKeys, mine) && Shaped(shadow, buckets)
    requires Agree(shadow, luaKeys, luaValue, storeWas) && SameOn(mine, storeNow, storeWas)
    ensures Agree(shadow, luaKeys, luaValue, storeNow)
  {
    forall s, k | 0 <= s < |shadow| && k in shadow[s] ensures Nil2Empty(Find(storeNow, k)) == shadow[s][k] {
      assert k in buckets[s] && k in mine;
    }
  }

  lemma OwnedKeys(t: int, ckID: int, tags: seq<string>, seconds: seq<int>, buckets: seq<set<string>>, luaKeys: seq<string>, mine: set<string>)
    requires |buckets| == |tags| && |luaKeys| == |seconds|
    requires forall s :: 0 <= s < |buckets| ==> buckets[s] == Bucket(t, ckID, s, tags[s], KEYS_PER_SLOT) <= mine
    requires forall i :: 0 <= i < |luaKeys| ==> luaKeys[i] == GenLuaKey(t, ckID, i, seconds[i]) && luaKeys[i] in mine
    ensures Owned(buckets, luaKeys, mine)
  {
    forall s, k | 0 <= s < |buckets| && k in buckets[s] ensures k in mine && k !in luaKeys {
      var j := InBucket(t, ckID, s, tags[s], KEYS_PER_SLOT, k);
      forall i | 0 <= i < |luaKeys| ensures luaKeys[i] != k {
        LuaKeysAreApart(t, ckID, s, KeyNumber(s, j), tags[s], t, ckID, i, seconds[i]);
      }
    }
  }

  lemma FreshAgrees(t: int, ckID: int, tags: seq<string>, buckets: seq<set<string>>, luaKeys: seq<string>, mine: set<string>, shadow: Shadow, store: Store)
    requires KeysFilled(shadow, t, ckID, tags, MAX_KEYS_NUM) && Shaped(shadow, buckets) && Owned(buckets, luaKeys, mine)
    requires forall k :: k in mine ==> k !in store
    ensures Agree(shadow, luaKeys, "", store)
  {
    forall s, k | 0 <= s < |shadow| && k in shadow[s] ensures Nil2Empty(Find(store, k)) == shadow[s][k] {
      assert k in buckets[s] && k in mine;
    }
  }

  lemma NewChecker(t: int, ckID: int, tags: seq<string>, seconds: seq<int>, buckets: seq<set<string>>, luaKeys: seq<string>, mine: set<string>, shadow: Shadow, store: Store)
    requires TagTable(tags) && KeysFilled(shadow, t, ckID, tags, MAX_KEYS_NUM) && |buckets| == SLOT_NUMBER && |luaKeys| == |seconds|
    requires forall s :: 0 <= s < |buckets| ==> buckets[s] == Bucket(t, ckID, s, tags[s], KEYS_PER_SLOT) <= mine
    requires forall i :: 0 <= i < |luaKeys| ==> luaKeys[i] == GenLuaKey(t, ckID, i, seconds[i]) && luaKeys[i] in mine
    ensures Hashed(buckets) && Owned(buckets, luaKeys, mine) && Shaped(shadow, buckets)
    ensures (forall k :: k in mine ==> k !in store) ==> Agree(shadow, luaKeys, "", store)
  {
    FilledBuckets(shadow, t, ckID, tags, buckets);
    OwnedKeys(t, ckID, tags, seconds, buckets, luaKeys, mine);
    if forall k :: k in mine ==> k !in store { FreshAgrees(t, ckID, tags, buckets, luaKeys, mine, shadow, store); }
  }
}
