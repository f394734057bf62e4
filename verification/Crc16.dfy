/**
 The slot of a key: CRC-16 modulo 16384, computed byte by byte with a table.

 The table is compared with the definition it stands for: CRC-16/XMODEM as in Appendix A of the
 Redis Cluster Specification, polynomial 0x1021 and initial value 0, one bit at a time.
 */
module Crc16 {
  const SLOT_NUMBER := 16384

  // ---------- The table ----------

  function Row(i: bv8, v0: bv16, v1: bv16, v2: bv16, v3: bv16, v4: bv16, v5: bv16, v6: bv16, v7: bv16): bv16
  {
    if i < 4 then (if i < 2 then (if i == 0 then v0 else v1) else (if i == 2 then v2 else v3))
    else (if i < 6 then (if i == 4 then v4 else v5) else (if i == 6 then v6 else v7))
  }

  function Quarter0(b: bv8): bv16
  {
    if b < 0x08 then Row(b & 7, 0x0000, 0x1021, 0x2042, 0x3063, 0x4084, 0x50a5, 0x60c6, 0x70e7)
    else if b < 0x10 then Row(b & 7, 0x8108, 0x9129, 0xa14a, 0xb16b, 0xc18c, 0xd1ad, 0xe1ce, 0xf1ef)
    else if b < 0x18 then Row(b & 7, 0x1231, 0x0210, 0x3273, 0x2252, 0x52b5, 0x4294, 0x72f7, 0x62d6)
    else if b < 0x20 then Row(b & 7, 0x9339, 0x8318, 0xb37b, 0xa35a, 0xd3bd, 0xc39c, 0xf3ff, 0xe3de)
    else if b < 0x28 then Row(b & 7, 0x2462, 0x3443, 0x0420, 0x1401, 0x64e6, 0x74c7, 0x44a4, 0x5485)
    else if b < 0x30 then Row(b & 7, 0xa56a, 0xb54b, 0x8528, 0x9509, 0xe5ee, 0xf5cf, 0xc5ac, 0xd58d)
    else if b < 0x38 then Row(b & 7, 0x3653, 0x2672, 0x1611, 0x0630, 0x76d7, 0x66f6, 0x5695, 0x46b4)
    else Row(b & 7, 0xb75b, 0xa77a, 0x9719, 0x8738, 0xf7df, 0xe7fe, 0xd79d, 0xc7bc)
  }

  function Quarter1(b: bv8): bv16
  {
    if b < 0x48 then Row(b & 7, 0x48c4, 0x58e5, 0x6886, 0x78a7, 0x0840, 0x1861, 0x2802, 0x3823)
    else if b < 0x50 then Row(b & 7, 0xc9cc, 0xd9ed, 0xe98e, 0xf9af, 0x8948, 0x9969, 0xa90a, 0xb92b)
    else if b < 0x58 then Row(b & 7, 0x5af5, 0x4ad4, 0x7ab7, 0x6a96, 0x1a71, 0x0a50, 0x3a33, 0x2a12)
    else if b < 0x60 then Row(b & 7, 0xdbfd, 0xcbdc, 0xfbbf, 0xeb9e, 0x9b79, 0x8b58, 0xbb3b, 0xab1a)
    else if b < 0x68 then Row(b & 7, 0x6ca6, 0x7c87, 0x4ce4, 0x5cc5, 0x2c22, 0x3c03, 0x0c60, 0x1c41)
    else if b < 0x70 then Row(b & 7, 0xedae, 0xfd8f, 0xcdec, 0xddcd, 0xad2a, 0xbd0b, 0x8d68, 0x9d49)
    else if b < 0x78 then Row(b & 7, 0x7e97, 0x6eb6, 0x5ed5, 0x4ef4, 0x3e13, 0x2e32, 0x1e51, 0x0e70)
    else Row(b & 7, 0xff9f, 0xefbe, 0xdfdd, 0xcffc, 0xbf1b, 0xaf3a, 0x9f59, 0x8f78)
  }

  function Quarter2(b: bv8): bv16
  {
    if b < 0x88 then Row(b & 7, 0x9188, 0x81a9, 0xb1ca, 0xa1eb, 0xd10c, 0xc12d, 0xf14e, 0xe16f)
    else if b < 0x90 then Row(b & 7, 0x1080, 0x00a1, 0x30c2, 0x20e3, 0x5004, 0x4025, 0x7046, 0x6067)
    else if b < 0x98 then Row(b & 7, 0x83b9, 0x9398, 0xa3fb, 0xb3da, 0xc33d, 0xd31c, 0xe37f, 0xf35e)
    else if b < 0xa0 then Row(b & 7, 0x02b1, 0x1290, 0x22f3, 0x32d2, 0x4235, 0x5214, 0x6277, 0x7256)
    else if b < 0xa8 then Row(b & 7, 0xb5ea, 0xa5cb, 0x95a8, 0x8589, 0xf56e, 0xe54f, 0xd52c, 0xc50d)
    else if b < 0xb0 then Row(b & 7, 0x34e2, 0x24c3, 0x14a0, 0x0481, 0x7466, 0x6447, 0x5424, 0x4405)
    else if b < 0xb8 then Row(b & 7, 0xa7db, 0xb7fa, 0x8799, 0x97b8, 0xe75f, 0xf77e, 0xc71d, 0xd73c)
    else Row(b & 7, 0x26d3, 0x36f2, 0x0691, 0x16b0, 0x6657, 0x7676, 0x4615, 0x5634)
  }

  function Quarter3(b: bv8): bv16
  {
    if b < 0xc8 then Row(b & 7, 0xd94c, 0xc96d, 0xf90e, 0xe92f, 0x99c8, 0x89e9, 0xb98a, 0xa9ab)
    else if b < 0xd0 then Row(b & 7, 0x5844, 0x4865, 0x7806, 0x6827, 0x18c0, 0x08e1, 0x3882, 0x28a3)
    else if b < 0xd8 then Row(b & 7, 0xcb7d, 0xdb5c, 0xeb3f, 0xfb1e, 0x8bf9, 0x9bd8, 0xabbb, 0xbb9a)
    else if b < 0xe0 then Row(b & 7, 0x4a75, 0x5a54, 0x6a37, 0x7a16, 0x0af1, 0x1ad0, 0x2ab3, 0x3a92)
    else if b < 0xe8 then Row(b & 7, 0xfd2e, 0xed0f, 0xdd6c, 0xcd4d, 0xbdaa, 0xad8b, 0x9de8, 0x8dc9)
    else if b < 0xf0 then Row(b & 7, 0x7c26, 0x6c07, 0x5c64, 0x4c45, 0x3ca2, 0x2c83, 0x1ce0, 0x0cc1)
    else if b < 0xf8 then Row(b & 7, 0xef1f, 0xff3e, 0xcf5d, 0xdf7c, 0xaf9b, 0xbfba, 0x8fd9, 0x9ff8)
    else Row(b & 7, 0x6e17, 0x7e36, 0x4e55, 0x5e74, 0x2e93, 0x3eb2, 0x0ed1, 0x1ef0)
  }

  /** The 256 entries of the table, eight to a row. */
  function Crc16Tab(b: bv8): bv16
  {
    if b < 0x80 then (if b < 0x40 then Quarter0(b) else Quarter1(b)) else (if b < 0xc0 then Quarter2(b) else Quarter3(b))
  }

  // ---------- One bit at a time ----------

  function ShiftBit(crc: bv16): bv16
  {
    if crc & 0x8000 != 0 then (crc << 1) ^ 0x1021 else crc << 1
  }

  function Twice<T>(f: T -> T): T -> T { x => f(f(x)) }

  /** Eight steps: a whole byte leaves the register. */
  function Eight<T>(f: T -> T): T -> T { Twice(Twice(Twice(f))) }

  function BitwiseStep(crc: bv16, b: bv8): bv16
  {
    Eight(ShiftBit)(crc ^ ((b as bv16) << 8))
  }

  /** The reference: the bits of the message run through the register. */
  function BitwiseCrc(crc: bv16, key: seq<bv8>): bv16
    decreases |key|
  {
    if key == [] then crc else BitwiseCrc(BitwiseStep(crc, key[0]), key[1..])
  }

  // ---------- One byte at a time ----------

  function HighByte(crc: bv16): bv8
  {
    HighByteFits(crc);
    (crc >> 8) as bv8
  }

  lemma HighByteFits(crc: bv16)
    ensures crc >> 8 <= 0xff
  {
  }

  function ByteStep(tab: bv8 -> bv16, crc: bv16, b: bv8): bv16
  {
    (crc << 8) ^ tab((HighByte(crc) ^ b) & 0xff)
  }

  function TableStep(crc: bv16, b: bv8): bv16
  {
    ByteStep(Crc16Tab, crc, b)
  }

  function EightShifts(crc: bv16): bv16
  {
    ShiftBit(ShiftBit(ShiftBit(ShiftBit(ShiftBit(ShiftBit(ShiftBit(ShiftBit(crc))))))))
  }

  lemma Quarter0IsShift(b: bv8)
    requires b < 0x40
    ensures Quarter0(b) == EightShifts((b as bv16) << 8)
  {
  }

  lemma Quarter1IsShift(b: bv8)
    requires 0x40 <= b < 0x80
    ensures Quarter1(b) == EightShifts((b as bv16) << 8)
  {
  }

  lemma Quarter2IsShift(b: bv8)
    requires 0x80 <= b < 0xc0
    ensures Quarter2(b) == EightShifts((b as bv16) << 8)
  {
  }

  lemma Quarter3IsShift(b: bv8)
    requires 0xc0 <= b
    ensures Quarter3(b) == EightShifts((b as bv16) << 8)
  {
  }

  lemma EightUnfolds<T>(f: T -> T, x: T)
    ensures Eight(f)(x) == f(f(f(f(f(f(f(f(x))))))))
  {
  }

  lemma TableUnfolds(b: bv8)
    ensures Crc16Tab(b) == EightShifts((b as bv16) << 8)
  {
    if b < 0x80 {
      if b < 0x40 { Quarter0IsShift(b); } else { Quarter1IsShift(b); }
    } else {
      if b < 0xc0 { Quarter2IsShift(b); } else { Quarter3IsShift(b); }
    }
  }

  /** Every entry is eight shift steps of its index. */
  lemma TableIsShift(b: bv8)
    ensures Crc16Tab(b) == Eight(ShiftBit)((b as bv16) << 8)
  {
    TableUnfolds(b);
    EightUnfolds(ShiftBit, (b as bv16) << 8);
  }

  // Facts about words of 16 bits.

  lemma ShiftLeftOfXor(x: bv16, y: bv16)
    ensures (x ^ y) << 1 == (x << 1) ^ (y << 1)
    ensures (x ^ y) & 0x8000 == (x & 0x8000) ^ (y & 0x8000)
  {
  }

  lemma TopBit(x: bv16)
    ensures x & 0x8000 == 0 || x & 0x8000 == 0x8000
  {
  }

  lemma XorAlgebra(p: bv16, q: bv16, r: bv16)
    ensures (p ^ q) ^ r == p ^ (q ^ r) && p ^ q == q ^ p && (p ^ r) ^ (q ^ r) == p ^ q
  {
  }

  /** Shifting is linear over exclusive or. */
  lemma ShiftIsLinear(x: bv16, y: bv16)
    ensures ShiftBit(x ^ y) == ShiftBit(x) ^ ShiftBit(y)
  {
    ShiftLeftOfXor(x, y);
    TopBit(x);
    TopBit(y);
    XorAlgebra(x << 1, y << 1, 0x1021);
    XorAlgebra(x << 1, 0x1021, y << 1);
  }

  ghost predicate Linear<T(!new)>(f: T -> T, op: (T, T) -> T)
  {
    forall x, y :: f(op(x, y)) == op(f(x), f(y))
  }

  lemma TwiceIsLinear<T(!new)>(f: T -> T, op: (T, T) -> T)
    requires Linear(f, op)
    ensures Linear(Twice(f), op)
  {
    forall x, y ensures f(f(op(x, y))) == op(f(f(x)), f(f(y))) {
      assert f(op(x, y)) == op(f(x), f(y));
      assert f(op(f(x), f(y))) == op(f(f(x)), f(f(y)));
    }
  }

  lemma EightIsLinear<T(!new)>(f: T -> T, op: (T, T) -> T)
    requires Linear(f, op)
    ensures Linear(Eight(f), op)
  {
    TwiceIsLinear(f, op);
    TwiceIsLinear(Twice(f), op);
    TwiceIsLinear(Twice(Twice(f)), op);
  }

  lemma LinearAt<T(!new)>(f: T -> T, op: (T, T) -> T, x: T, y: T)
    requires Linear(f, op)
    ensures f(op(x, y)) == op(f(x), f(y))
  {
  }

  function Xor(x: bv16, y: bv16): bv16 { x ^ y }

  lemma EightShiftsAreLinear()
    ensures Linear(Eight(ShiftBit), Xor)
  {
    forall x, y ensures ShiftBit(Xor(x, y)) == Xor(ShiftBit(x), ShiftBit(y)) {
      ShiftIsLinear(x, y);
    }
    EightIsLinear(ShiftBit, Xor);
  }

  /** A low byte meets no feedback on its way up. */
  lemma LowByteRises(x: bv16)
    requires x & 0xff00 == 0
    ensures EightShifts(x) == x << 8
  {
  }

  lemma SplitWord(crc: bv16, b: bv8)
    ensures (crc & 0xff) & 0xff00 == 0 && (crc & 0xff) << 8 == crc << 8
    ensures crc ^ ((b as bv16) << 8) == Xor(crc & 0xff, ((HighByte(crc) ^ b) as bv16) << 8)
    ensures (HighByte(crc) ^ b) & 0xff == HighByte(crc) ^ b
  {
  }

  lemma LowPartPasses(low: bv16)
    requires low & 0xff00 == 0
    ensures Eight(ShiftBit)(low) == low << 8
  {
    LowByteRises(low);
    EightUnfolds(ShiftBit, low);
  }

  lemma ByteStepParts(tab: bv8 -> bv16, crc: bv16, b: bv8)
    ensures ByteStep(tab, crc, b) == Xor(crc << 8, tab(HighByte(crc) ^ b))
  {
    SplitWord(crc, b);
  }

  /** The byte step with the table is eight bit steps: the low byte passes untouched, the high
      byte meets the message, and the table holds what becomes of it. */
  lemma StepAgrees(crc: bv16, b: bv8)
    ensures TableStep(crc, b) == BitwiseStep(crc, b)
  {
    ByteStepParts(Crc16Tab, crc, b);
    SplitWord(crc, b);
    WordParts(crc & 0xff, HighByte(crc) ^ b);
  }

  lemma WordParts(low: bv16, high: bv8)
    requires low & 0xff00 == 0
    ensures Eight(ShiftBit)(Xor(low, (high as bv16) << 8)) == Xor(low << 8, Crc16Tab(high))
  {
    LowPartPasses(low);
    TableIsShift(high);
    EightShiftsAreLinear();
    LinearAt(Eight(ShiftBit), Xor, low, (high as bv16) << 8);
  }

  // ---------- Whole messages ----------

  /** crc16sum, with its loop, computes the bitwise CRC of every byte string. */
  method Crc16Sum(key: seq<bv8>) returns (crc: bv16)
    ensures crc == BitwiseCrc(0, key)
  {
    crc := 0;
    for i := 0 to |key|
      invariant BitwiseCrc(0, key) == BitwiseCrc(crc, key[i..])
    {
      StepAgrees(crc, key[i]);
      crc := TableStep(crc, key[i]);
      assert key[i..][1..] == key[i + 1..];
    }
  }

  /** The CRC of a concatenation continues where the first part ended. */
  lemma {:induction false} CrcOfConcatenation(crc: bv16, a: seq<bv8>, b: seq<bv8>)
    ensures BitwiseCrc(crc, a + b) == BitwiseCrc(BitwiseCrc(crc, a), b)
    decreases |a|
  {
    if a == [] {
      assert a + b == b;
    } else {
      assert (a + b)[1..] == a[1..] + b;
      CrcOfConcatenation(BitwiseStep(crc, a[0]), a[1..], b);
    }
  }

  lemma OneByte(crc: bv16, b: bv8)
    ensures BitwiseCrc(crc, [b]) == TableStep(crc, b)
  {
    StepAgrees(crc, b);
    assert [b][1..] == [];
    assert BitwiseCrc(BitwiseStep(crc, b), []) == BitwiseStep(crc, b);
  }

  lemma ThreeBytes(crc: bv16, a: bv8, b: bv8, c: bv8)
    ensures BitwiseCrc(crc, [a, b, c]) == TableStep(TableStep(TableStep(crc, a), b), c)
  {
    OneByte(crc, a);
    OneByte(TableStep(crc, a), b);
    OneByte(TableStep(TableStep(crc, a), b), c);
    CrcOfConcatenation(crc, [a], [b]);
    CrcOfConcatenation(crc, [a] + [b], [c]);
    assert [a] + [b] + [c] == [a, b, c];
  }

  lemma CheckValue1()
    ensures BitwiseCrc(0x0000, [0x31, 0x32, 0x33]) == 0x9752
  {
    ThreeBytes(0x0000, 0x31, 0x32, 0x33);
    assert TableStep(0x0000, 0x31) == 0x2672;
    assert TableStep(0x2672, 0x32) == 0x20b5;
    assert TableStep(0x20b5, 0x33) == 0x9752;
  }

  lemma CheckValue2()
    ensures BitwiseCrc(0x9752, [0x34, 0x35, 0x36]) == 0x20e4
  {
    ThreeBytes(0x9752, 0x34, 0x35, 0x36);
    assert TableStep(0x9752, 0x34) == 0xd789;
    assert TableStep(0xd789, 0x35) == 0x546c;
    assert TableStep(0x546c, 0x36) == 0x20e4;
  }

  lemma CheckValue3()
    ensures BitwiseCrc(0x20e4, [0x37, 0x38, 0x39]) == 0x31c3
  {
    ThreeBytes(0x20e4, 0x37, 0x38, 0x39);
    assert TableStep(0x20e4, 0x37) == 0x86d6;
    assert TableStep(0x86d6, 0x38) == 0x9015;
    assert TableStep(0x9015, 0x39) == 0x31c3;
  }

  lemma CrcOfThreeParts(a: seq<bv8>, b: seq<bv8>, c: seq<bv8>, x: bv16, y: bv16, z: bv16)
    requires BitwiseCrc(0, a) == x && BitwiseCrc(x, b) == y && BitwiseCrc(y, c) == z
    ensures BitwiseCrc(0, a + b + c) == z
  {
    CrcOfConcatenation(0, a, b);
    CrcOfConcatenation(0, a + b, c);
  }

  /** The check value by which the specification identifies the algorithm: 0x31c3 for the digits 1 to 9. */
  lemma CheckValue()
    ensures BitwiseCrc(0, [0x31, 0x32, 0x33] + [0x34, 0x35, 0x36] + [0x37, 0x38, 0x39]) == 0x31c3
  {
    CheckValue1();
    CheckValue2();
    CheckValue3();
    CrcOfThreeParts([0x31, 0x32, 0x33], [0x34, 0x35, 0x36], [0x37, 0x38, 0x39], 0x9752, 0x20e4, 0x31c3);
  }
}
