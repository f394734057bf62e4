/** Small building blocks shared by the models of the operator and of its checker. */
module Common {
  datatype Option<+T> = None | Some(value: T)

  /** Every chunk of a cluster is two pods with two nodes each. */
  const CHUNK_SHARD_NUMBER := 2
  const CHUNK_NODE_NUMBER := 4

  /** Pods of the broker and of the coordinator. */
  const BROKER_NUM := 2
  const COORDINATOR_NUM := 2

  function Max(a: int, b: int): int { if a < b then b else a }

  function Min(a: int, b: int): int { if a < b then a else b }

  /** Subtraction that stops at zero. */
  function Excess(a: nat, b: nat): nat { if a <= b then 0 else a - b }

  /** The ordinals below n. */
  function Below(n: nat): (s: set<nat>)
    ensures forall i: nat :: i in s <==> i < n
    ensures |s| == n
  {
    if n == 0 then {} else Below(n - 1) + {n - 1}
  }

  lemma {:induction false} SubsetSize<T>(a: set<T>, b: set<T>)
    requires a <= b
    ensures |a| <= |b|
    ensures |a| == |b| ==> a == b
  {
    if a == {} {
      if |b| == 0 { assert b == {}; }
    } else {
      var x :| x in a;
      SubsetSize(a - {x}, b - {x});
      assert |a| == |a - {x}| + 1 && |b| == |b - {x}| + 1;
      if |a| == |b| {
        assert a == (a - {x}) + {x} && b == (b - {x}) + {x};
      }
    }
  }
}
