/**
 Replica arithmetic in Go's widths. chunkNumber is a uint32; the replica number is computed once
 as int32(chunkNumber)*2 and elsewhere as int32(int(chunkNumber)*2), where int has 64 bits.
 */
module Int32 {
  /** Conversion to int32: the low 32 bits, read as a signed number. */
  function Int32(x: int): (r: int)
    ensures -0x8000_0000 <= r < 0x8000_0000
    ensures -0x8000_0000 <= x < 0x8000_0000 ==> r == x
  {
    (x + 0x8000_0000) % 0x1_0000_0000 - 0x8000_0000
  }

  /** The scale-up guard's form. */
  function ReplicasForGuard(chunkNumber: nat): int { Int32(Int32(chunkNumber) * 2) }

  /** The form of every write and of the other comparisons. */
  function ReplicasToWrite(chunkNumber: nat): int { Int32(chunkNumber * 2) }

  /** The two forms agree for every uint32, wrapped or not. */
  lemma FormsAgree(chunkNumber: nat)
    requires chunkNumber < 0x1_0000_0000
    ensures ReplicasForGuard(chunkNumber) == ReplicasToWrite(chunkNumber)
  {
    if chunkNumber >= 0x8000_0000 {
      assert Int32(chunkNumber) == chunkNumber - 0x1_0000_0000;
    }
  }

  /** They are twice the chunk number exactly below 2^30; from there on the number wraps. */
  lemma ReplicasAreExact(chunkNumber: nat)
    requires chunkNumber < 0x1_0000_0000
    ensures ReplicasToWrite(chunkNumber) == chunkNumber * 2 <==> chunkNumber < 0x4000_0000
  {
  }
}
