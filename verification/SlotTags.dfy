/**
 The keys of the consistency checker: one tag for every slot, found by drawing at random, and
 the keys made with those tags.
 */
module SlotTags {
  import opened Common
  import opened Text
  import opened Crc16
  import opened HashTags

  predicate HexDigit(c: char) { IsDigit(c) || 'a' <= c <= 'f' }

  /** The first six characters of a UUID. */
  predicate IsTag(tag: string)
  {
    |tag| == 6 && forall k :: 0 <= k < |tag| ==> HexDigit(tag[k])
  }

  /** A tag for every slot, hashing to that slot. */
  ghost predicate TagTable(tags: seq<string>)
  {
    |tags| == SLOT_NUMBER && forall s :: 0 <= s < SLOT_NUMBER ==> IsTag(tags[s]) && SlotOf(tags[s]) == s
  }

  /** Some draw falls into slot s. */
  ghost predicate Hit(draws: seq<string>, s: nat)
  {
    exists i :: 0 <= i < |draws| && SlotOf(draws[i]) == s
  }

  /** The counter is the number of slots that have a tag. */
  ghost predicate Filling(tags: seq<string>, n: nat, filled: set<nat>)
  {
    && |filled| == n
    && (forall s :: s in filled ==> s < |tags|)
    && (forall s :: 0 <= s < |tags| ==> (s in filled <==> tags[s] != ""))
  }

  lemma FullTable(tags: seq<string>, n: nat, filled: set<nat>)
    requires Filling(tags, n, filled)
    ensures n <= |tags|
    ensures n == |tags| <==> forall s :: 0 <= s < |tags| ==> tags[s] != ""
  {
    var all := Below(|tags|);
    SubsetSize(filled, all);
    if forall s :: 0 <= s < |tags| ==> tags[s] != "" {
      assert forall s :: s in all ==> s in filled;
      assert filled == all;
    }
  }

  lemma FillOne(tags: seq<string>, n: nat, filled: set<nat>, tag: string, slot: nat)
    requires Filling(tags, n, filled) && slot < |tags| && tags[slot] == "" && tag != ""
    ensures Filling(tags[slot := tag], n + 1, filled + {slot})
  {
  }

  /** Every tag in the table was drawn, and hashes to its slot; the draws so far have theirs. */
  ghost predicate Placed(hash: string -> nat, tags: seq<string>, draws: seq<string>, i: nat)
    requires i <= |draws|
  {
    && (forall s: nat :: s < |tags| && tags[s] != "" ==> tags[s] in draws && hash(tags[s]) == s)
    && (forall k :: 0 <= k < i ==> hash(draws[k]) < |tags| && tags[hash(draws[k])] != "")
  }

  lemma PlaceOne(hash: string -> nat, tags: seq<string>, draws: seq<string>, i: nat, slot: nat)
    requires i < |draws| && Placed(hash, tags, draws, i) && slot == hash(draws[i]) < |tags| && draws[i] != ""
    ensures Placed(hash, if tags[slot] == "" then tags[slot := draws[i]] else tags, draws, i + 1)
  {
  }

  /** At the end the table says which slots the draws have hit. */
  lemma PlacedAll(tags: seq<string>, draws: seq<string>)
    requires |tags| == SLOT_NUMBER && Placed(SlotOf, tags, draws, |draws|)
    ensures forall s: nat :: s < SLOT_NUMBER ==> (tags[s] != "" <==> Hit(draws, s))
  {
    forall s: nat | s < SLOT_NUMBER && tags[s] != "" ensures Hit(draws, s) {
      var i :| 0 <= i < |draws| && draws[i] == tags[s];
    }
  }

  lemma CompleteTable(tags: seq<string>, draws: seq<string>, i: nat)
    requires |tags| == SLOT_NUMBER && i <= |draws| && Placed(SlotOf, tags, draws, i)
    requires forall k :: 0 <= k < |draws| ==> IsTag(draws[k])
    requires forall s :: 0 <= s < SLOT_NUMBER ==> tags[s] != ""
    ensures TagTable(tags) && forall s: nat :: s < SLOT_NUMBER ==> Hit(draws, s)
  {
    forall s: nat | s < SLOT_NUMBER ensures Hit(draws, s) && IsTag(tags[s]) {
      var k :| 0 <= k < |draws| && draws[k] == tags[s];
    }
  }

  lemma Conclude(tags: seq<string>, draws: seq<string>, i: nat, n: nat, filled: set<nat>)
    requires |tags| == SLOT_NUMBER && i <= |draws| && Placed(SlotOf, tags, draws, i) && Filling(tags, n, filled)
    requires forall k :: 0 <= k < |draws| ==> IsTag(draws[k])
    requires n == SLOT_NUMBER || i == |draws|
    ensures n == SLOT_NUMBER <==> forall s: nat :: s < SLOT_NUMBER ==> Hit(draws, s)
    ensures n == SLOT_NUMBER ==> TagTable(tags)
  {
    FullTable(tags, n, filled);
    if n == SLOT_NUMBER { CompleteTable(tags, draws, i); } else { PlacedAll(tags, draws); }
  }

  /**
   newSlotTags, with the random draws as a sequence. The loop ends by itself exactly when the
   draws fall into all slots, and then the table has a tag in each one, hashing to that slot.
   */
  method NewSlotTags(draws: seq<string>) returns (tags: array<string>, done: bool)
    requires forall i :: 0 <= i < |draws| ==> IsTag(draws[i])
    ensures fresh(tags) && tags.Length == 16384
    ensures done <==> forall s: nat :: s < SLOT_NUMBER ==> Hit(draws, s)
    ensures done ==> TagTable(tags[..])
  {
    tags := new string[SLOT_NUMBER](_ => "");
    var n, i := 0, 0;
    ghost var filled: set<nat> := {};
    FullTable(tags[..], n, filled);
    while n != SLOT_NUMBER && i < |draws|
      invariant 0 <= i <= |draws| && n <= SLOT_NUMBER
      invariant fresh(tags) && Filling(tags[..], n, filled) && Placed(SlotOf, tags[..], draws, i)
      decreases |draws| - i
    {
      var tag := draws[i];
      var slot := Slot(tag);
      ghost var before := tags[..];
      PlaceOne(SlotOf, before, draws, i, slot);
      i := i + 1;
      if |tags[slot]| != 0 { continue; }
      FillOne(before, n, filled, tag, slot);
      tags[slot] := tag;
      assert tags[..] == before[slot := tag];
      n := n + 1;
      filled := filled + {slot};
      FullTable(tags[..], n, filled);
    }
    done := n == SLOT_NUMBER;
    Conclude(tags[..], draws, i, n, filled);
  }

  // ---------- Keys ----------

  /** One field of a key and what follows it. */
  function Field(a: string, rest: string): string { a + ":" + rest }

  /** Without a colon in the first field, a key falls apart in one way only. */
  lemma FieldsAgree(a: string, x: string, b: string, y: string)
    requires ':' !in a && ':' !in b && Field(a, x) == Field(b, y)
    ensures a == b && x == y
  {
    var k := Field(a, x);
    assert forall i :: 0 <= i < |a| ==> k[i] == a[i];
    assert forall i :: 0 <= i < |b| ==> k[i] == b[i];
    assert k[|a|] == ':' && k[|b|] == ':';
    assert |a| == |b|;
    assert k[..|a|] == a && k[..|b|] == b && k[|a| + 1..] == x && k[|b| + 1..] == y;
  }

  function GenKey(t: int, ckID: int, slot: int, keyID: int, tag: string): string
  {
    Field("test", Field(FormatInt(t), Field(FormatInt(ckID), Field(FormatInt(slot), Field("{" + tag + "}", FormatInt(keyID))))))
  }

  function GenLuaKey(t: int, ckID: int, keyID: int, second: int): string
  {
    Field("test", Field(FormatInt(t), Field("lua", Field(FormatInt(ckID), Field("{tag}", Field(FormatInt(keyID), FormatInt(second)))))))
  }

  lemma ThreeFields(a: string, b: string, c: string)
    ensures Field(a, Field(b, c)) == a + ":" + b + ":" + c
  {
  }

  lemma SixFields(a: string, b: string, c: string, d: string, e: string, f: string)
    ensures Field(a, Field(b, Field(c, Field(d, Field(e, f))))) == (a + ":" + b + ":" + c) + ":" + (d + ":" + e + ":" + f)
  {
    var rest := Field(d, Field(e, f));
    ThreeFields(d, e, f);
    ThreeFields(a, b, Field(c, rest));
    assert (a + ":" + b) + ":" + (c + ":" + rest) == (a + ":" + b + ":" + c) + ":" + rest;
  }

  /** The keys in full. */
  lemma GenKeyForm(t: int, ckID: int, slot: int, keyID: int, tag: string)
    ensures GenKey(t, ckID, slot, keyID, tag) ==
            ("test" + ":" + FormatInt(t) + ":" + FormatInt(ckID)) + ":" + (FormatInt(slot) + ":" + ("{" + tag + "}") + ":" + FormatInt(keyID))
  {
    SixFields("test", FormatInt(t), FormatInt(ckID), FormatInt(slot), "{" + tag + "}", FormatInt(keyID));
  }

  lemma GenLuaKeyForm(t: int, ckID: int, keyID: int, second: int)
    ensures GenLuaKey(t, ckID, keyID, second) ==
            "test" + ":" + (FormatInt(t) + ":" + "lua" + ":" + FormatInt(ckID)) + ":" + ("{tag}" + ":" + FormatInt(keyID) + ":" + FormatInt(second))
  {
    SixFields(FormatInt(t), "lua", FormatInt(ckID), "{tag}", FormatInt(keyID), FormatInt(second));
    var six := (FormatInt(t) + ":" + "lua" + ":" + FormatInt(ckID)) + ":" + ("{tag}" + ":" + FormatInt(keyID) + ":" + FormatInt(second));
    assert GenLuaKey(t, ckID, keyID, second) == "test" + ":" + six;
  }

  lemma NumbersArePlain(i: int)
    ensures ':' !in FormatInt(i) && '{' !in FormatInt(i)
    ensures FormatInt(i) != "lua"
  {
    assert IsDigit(Decimal(if i < 0 then -i else i)[0]);
  }

  /** The first braces of key enclose tag. */
  ghost predicate Carries(key: string, tag: string)
  {
    exists prefix, suffix :: '{' !in prefix && key == prefix + "{" + tag + "}" + suffix
  }

  lemma TagFirst(tag: string, rest: string)
    ensures Carries(Field("{" + tag + "}", rest), tag)
  {
    assert Field("{" + tag + "}", rest) == "" + "{" + tag + "}" + (":" + rest);
  }

  lemma FieldKeepsTag(a: string, rest: string, tag: string)
    requires '{' !in a && Carries(rest, tag)
    ensures Carries(Field(a, rest), tag)
  {
    var prefix, suffix :| '{' !in prefix && rest == prefix + "{" + tag + "}" + suffix;
    assert Field(a, rest) == (a + ":" + prefix) + "{" + tag + "}" + suffix;
  }

  lemma CarriedTagDecides(key: string, tag: string)
    requires Carries(key, tag) && tag != "" && '{' !in tag && '}' !in tag
    ensures SlotOf(key) == SlotOf(tag)
  {
    var prefix, suffix :| '{' !in prefix && key == prefix + "{" + tag + "}" + suffix;
    TagDecidesSlot(prefix, tag, suffix);
  }

  /** A key made for a slot with that slot's tag hashes to that slot. */
  lemma GeneratedKeysHitTheirSlot(t: int, ckID: int, slot: int, keyID: int, tag: string)
    requires IsTag(tag)
    ensures SlotOf(GenKey(t, ckID, slot, keyID, tag)) == SlotOf(tag)
  {
    NumbersArePlain(t);
    NumbersArePlain(ckID);
    NumbersArePlain(slot);
    var k4 := Field("{" + tag + "}", FormatInt(keyID));
    var k3 := Field(FormatInt(slot), k4);
    var k2 := Field(FormatInt(ckID), k3);
    var k1 := Field(FormatInt(t), k2);
    TagFirst(tag, FormatInt(keyID));
    FieldKeepsTag(FormatInt(slot), k4, tag);
    FieldKeepsTag(FormatInt(ckID), k3, tag);
    FieldKeepsTag(FormatInt(t), k2, tag);
    FieldKeepsTag("test", k1, tag);
    CarriedTagDecides(GenKey(t, ckID, slot, keyID, tag), tag);
  }

  /** All Lua keys, of all checkers, share one slot: one script may touch them together. */
  lemma LuaKeysShareASlot(t: int, ckID: int, keyID: int, second: int)
    ensures SlotOf(GenLuaKey(t, ckID, keyID, second)) == SlotOf("tag")
  {
    NumbersArePlain(t);
    NumbersArePlain(ckID);
    var last := Field(FormatInt(keyID), FormatInt(second));
    var k4 := Field("{tag}", last);
    var k3 := Field(FormatInt(ckID), k4);
    var k2 := Field("lua", k3);
    var k1 := Field(FormatInt(t), k2);
    assert "{tag}" == "{" + "tag" + "}";
    TagFirst("tag", last);
    FieldKeepsTag(FormatInt(ckID), k4, "tag");
    FieldKeepsTag("lua", k3, "tag");
    FieldKeepsTag(FormatInt(t), k2, "tag");
    FieldKeepsTag("test", k1, "tag");
    CarriedTagDecides(GenLuaKey(t, ckID, keyID, second), "tag");
  }

  /** A key determines everything it was made of. */
  lemma GenKeyInjective(t: int, ckID: int, slot: int, keyID: int, tag: string, t': int, ckID': int, slot': int, keyID': int, tag': string)
    requires IsTag(tag) && IsTag(tag')
    requires GenKey(t, ckID, slot, keyID, tag) == GenKey(t', ckID', slot', keyID', tag')
    ensures t == t' && ckID == ckID' && slot == slot' && keyID == keyID' && tag == tag'
  {
    NumbersArePlain(t);
    NumbersArePlain(t');
    NumbersArePlain(ckID);
    NumbersArePlain(ckID');
    NumbersArePlain(slot);
    NumbersArePlain(slot');
    var k4, k4' := Field("{" + tag + "}", FormatInt(keyID)), Field("{" + tag' + "}", FormatInt(keyID'));
    var k3, k3' := Field(FormatInt(slot), k4), Field(FormatInt(slot'), k4');
    var k2, k2' := Field(FormatInt(ckID), k3), Field(FormatInt(ckID'), k3');
    FieldsAgree("test", Field(FormatInt(t), k2), "test", Field(FormatInt(t'), k2'));
    FieldsAgree(FormatInt(t), k2, FormatInt(t'), k2');
    FieldsAgree(FormatInt(ckID), k3, FormatInt(ckID'), k3');
    FieldsAgree(FormatInt(slot), k4, FormatInt(slot'), k4');
    FieldsAgree("{" + tag + "}", FormatInt(keyID), "{" + tag' + "}", FormatInt(keyID'));
    FormatIntInjective(t, t');
    FormatIntInjective(ckID, ckID');
    FormatIntInjective(slot, slot');
    FormatIntInjective(keyID, keyID');
    assert tag == ("{" + tag + "}")[1..7] && tag' == ("{" + tag' + "}")[1..7];
  }

  lemma GenLuaKeyInjective(t: int, ckID: int, keyID: int, second: int, t': int, ckID': int, keyID': int, second': int)
    requires GenLuaKey(t, ckID, keyID, second) == GenLuaKey(t', ckID', keyID', second')
    ensures t == t' && ckID == ckID' && keyID == keyID' && second == second'
  {
    NumbersArePlain(t);
    NumbersArePlain(t');
    NumbersArePlain(ckID);
    NumbersArePlain(ckID');
    NumbersArePlain(keyID);
    NumbersArePlain(keyID');
    var k5, k5' := Field(FormatInt(keyID), FormatInt(second)), Field(FormatInt(keyID'), FormatInt(second'));
    var k4, k4' := Field("{tag}", k5), Field("{tag}", k5');
    var k3, k3' := Field(FormatInt(ckID), k4), Field(FormatInt(ckID'), k4');
    var k2, k2' := Field("lua", k3), Field("lua", k3');
    FieldsAgree("test", Field(FormatInt(t), k2), "test", Field(FormatInt(t'), k2'));
    FieldsAgree(FormatInt(t), k2, FormatInt(t'), k2');
    FieldsAgree("lua", k3, "lua", k3');
    FieldsAgree(FormatInt(ckID), k4, FormatInt(ckID'), k4');
    FieldsAgree("{tag}", k5, "{tag}", k5');
    FieldsAgree(FormatInt(keyID), FormatInt(second), FormatInt(keyID'), FormatInt(second'));
    FormatIntInjective(t, t');
    FormatIntInjective(ckID, ckID');
    FormatIntInjective(keyID, keyID');
    FormatIntInjective(second, second');
  }

  /** The two kinds of key never meet. */
  lemma LuaKeysAreApart(t: int, ckID: int, slot: int, keyID: int, tag: string, t': int, ckID': int, keyID': int, second: int)
    ensures GenKey(t, ckID, slot, keyID, tag) != GenLuaKey(t', ckID', keyID', second)
  {
    NumbersArePlain(t);
    NumbersArePlain(t');
    NumbersArePlain(ckID);
    var k3 := Field(FormatInt(slot), Field("{" + tag + "}", FormatInt(keyID)));
    var k3' := Field(FormatInt(ckID'), Field("{tag}", Field(FormatInt(keyID'), FormatInt(second))));
    var k2, k2' := Field(FormatInt(ckID), k3), Field("lua", k3');
    if GenKey(t, ckID, slot, keyID, tag) == GenLuaKey(t', ckID', keyID', second) {
      FieldsAgree("test", Field(FormatInt(t), k2), "test", Field(FormatInt(t'), k2'));
      FieldsAgree(FormatInt(t), k2, FormatInt(t'), k2');
      FieldsAgree(FormatInt(ckID), k3, "lua", k3');
      assert false;
    }
  }
}
