/**
 Hash tags: which part of a key decides its slot.

 The Go checker and the Python checker extract the tag in different ways. The rule both are
 measured against is section "Hash tags" of the Redis Cluster Specification: the text between
 the first '{' and the first '}' to its right, provided there is at least one byte between.
 */
module HashTags {
  import opened Text
  import opened Crc16

  /** The tag of key lies between the braces at l and r. */
  ghost predicate HasTag(key: string, l: nat, r: nat)
  {
    && l + 1 < r < |key|
    && key[l] == '{' && (forall k :: 0 <= k < l ==> key[k] != '{')
    && key[r] == '}' && (forall k :: l < k < r ==> key[k] != '}')
  }

  /** Key of the Go checker. */
  function Key(key: string): string
  {
    var s := IndexOf(key, '{');
    if s < 0 then key
    else
      var e := IndexOf(key[s + 1..], '}');
      if e <= 0 then key else key[s + 1..s + e + 1]
  }

  lemma KeyFindsTag(key: string, l: nat, r: nat)
    requires HasTag(key, l, r)
    ensures Key(key) == key[l + 1..r]
  {
    assert IndexOf(key, '{') == l;
    NextIndexIs(key, '}', l + 1, r);
    assert IndexOf(key[l + 1..], '}') == r - (l + 1);
  }

  lemma TagIsThere(key: string)
    ensures Key(key) != key ==> exists l: nat, r: nat :: HasTag(key, l, r)
  {
    var s := IndexOf(key, '{');
    if s >= 0 {
      var e := IndexOf(key[s + 1..], '}');
      if e > 0 {
        assert forall k :: s < k < |key| ==> key[k] == key[s + 1..][k - s - 1];
        assert HasTag(key, s, s + e + 1);
      }
    }
  }

  /** The rule: the tag where there is one, otherwise the whole key. */
  ghost predicate Hashes(key: string, part: string)
  {
    || (exists l: nat, r: nat :: HasTag(key, l, r) && part == key[l + 1..r])
    || (part == key && forall l: nat, r: nat :: !HasTag(key, l, r))
  }

  /** On every string Key is what the rule says. */
  lemma KeyMeetsTheRule(key: string, part: string)
    ensures Key(key) == part <==> Hashes(key, part)
  {
    forall l: nat, r: nat | HasTag(key, l, r) ensures Key(key) == key[l + 1..r] && |key[l + 1..r]| < |key| {
      KeyFindsTag(key, l, r);
    }
    TagIsThere(key);
  }

  // ---------- The Python checker ----------

  function Tagged(key: string): string
  {
    var start := IndexOf(key, '{');
    if start < 0 then key
    else
      var end := IndexOf(key[start..], '}');
      if end < 0 then key else key[start + 1..start + end]
  }

  /** gen_tag_key, with its two loops; -1 is its None. */
  method GenTagKey(key: string) returns (tag: string)
    ensures tag == Tagged(key)
  {
    var start, i := -1, 0;
    while i < |key|
      invariant 0 <= i <= |key| && start == -1
      invariant forall k :: 0 <= k < i ==> key[k] != '{'
    {
      if key[i] == '{' {
        start := i;
        break;
      }
      i := i + 1;
    }
    assert start == IndexOf(key, '{');
    var end := -1;
    if start != -1 {
      i := start;
      while i < |key|
        invariant start <= i <= |key| && end == -1
        invariant forall k :: start <= k < i ==> key[k] != '}'
      {
        if key[i] == '}' {
          end := i;
          break;
        }
        i := i + 1;
      }
      NextIndexIs(key, '}', start, i);
    }
    if end == -1 { return key; }
    return key[start + 1..end];
  }

  /** The first '{' has a '}' right behind it. */
  predicate EmptyTag(key: string)
  {
    var s := IndexOf(key, '{');
    0 <= s < |key| - 1 && key[s + 1] == '}'
  }

  /** The two checkers extract the same text from every key except those whose first '{' is
      followed at once by '}': there Python hashes the empty string and Go the whole key. */
  lemma CheckersAgree(key: string)
    ensures Tagged(key) == Key(key) <==> !EmptyTag(key)
    ensures EmptyTag(key) ==> Tagged(key) == "" && Key(key) == key
  {
    var s := IndexOf(key, '{');
    if s >= 0 {
      var e := IndexOf(key[s + 1..], '}');
      assert forall k :: s < k < |key| ==> key[k] == key[s + 1..][k - s - 1];
      NextIndexIs(key, '}', s, if e < 0 then |key| else s + 1 + e);
    }
  }

  // ---------- Slots ----------

  function Byte(c: char): (b: bv8)
    ensures b == (c as int % 256) as bv8
  {
    (c as int % 256) as bv8
  }

  function Bytes(s: string): (bytes: seq<bv8>)
    ensures SameBytes(s, bytes)
  {
    seq(|s|, i requires 0 <= i < |s| => Byte(s[i]))
  }

  /** Byte i is the code of character i. */
  ghost predicate SameBytes(s: string, bytes: seq<bv8>)
  {
    |bytes| == |s| && forall i :: 0 <= i < |s| ==> bytes[i] == (s[i] as int % 256) as bv8
  }

  function CrcSlot(crc: bv16): (slot: nat)
    ensures slot == crc as int % 16384
    ensures slot < SLOT_NUMBER
  {
    crc as int % SLOT_NUMBER
  }

  function HashSlot(part: string): (slot: nat)
    ensures slot < SLOT_NUMBER
  {
    CrcSlot(BitwiseCrc(0, Bytes(part)))
  }

  /** The slot of a key: CRC-16 of what Key returns, modulo 16384. */
  function SlotOf(key: string): (slot: nat)
    ensures slot < SLOT_NUMBER
  {
    HashSlot(Key(key))
  }

  /** Whatever part of the key the rule hashes, the slot is the CRC-16 of its bytes, modulo 16384. */
  lemma SlotMeetsTheRule(key: string, part: string, bytes: seq<bv8>)
    requires Hashes(key, part) && SameBytes(part, bytes)
    ensures SlotOf(key) == BitwiseCrc(0, bytes) as int % 16384
  {
    KeyMeetsTheRule(key, part);
    assert bytes == Bytes(part);
  }

  method Slot(key: string) returns (slot: nat)
    ensures slot == SlotOf(key)
    ensures forall part, bytes :: Hashes(key, part) && SameBytes(part, bytes) ==> slot == BitwiseCrc(0, bytes) as int % 16384
  {
    forall part, bytes | Hashes(key, part) && SameBytes(part, bytes) ensures SlotOf(key) == BitwiseCrc(0, bytes) as int % 16384 {
      SlotMeetsTheRule(key, part, bytes);
    }
    if key == "" {
      EmptyKeySlot();
      return 0;
    }
    var crc := Crc16Sum(Bytes(Key(key)));
    return CrcSlot(crc);
  }

  lemma EmptyKeySlot()
    ensures SlotOf("") == 0
  {
    assert Key("") == "" && Bytes("") == [];
    assert BitwiseCrc(0, []) == 0;
  }

  /** Keys with the same tag live in the same slot, the slot of the tag itself: the text between
      the first braces decides, whatever comes before and after. */
  lemma TagDecidesSlot(prefix: string, tag: string, suffix: string)
    requires '{' !in prefix && '}' !in tag && tag != ""
    ensures Key(prefix + "{" + tag + "}" + suffix) == tag
    ensures '{' !in tag ==> SlotOf(prefix + "{" + tag + "}" + suffix) == SlotOf(tag)
  {
    var key := prefix + "{" + tag + "}" + suffix;
    var l, r := |prefix|, |prefix| + 1 + |tag|;
    assert key[l] == '{' && key[l + 1..r] == tag && key[r] == '}';
    assert forall k :: 0 <= k < l ==> key[k] == prefix[k];
    assert forall k :: l < k < r ==> key[k] == tag[k - l - 1];
    KeyFindsTag(key, l, r);
  }
}
