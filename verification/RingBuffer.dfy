/**
 The ring buffer that keeps the last lines of a MONITOR stream. One cell always stays free, so
 that an empty and a full buffer look different.
 */
module RingBuffer {
  import opened Common

  /** The last n items. */
  function LastOf(log: seq<string>, n: nat): seq<string> { log[|log| - Min(|log|, n)..] }

  /** The cell of the i-th item after start, going round. */
  function Cell(start: nat, i: nat, cap: nat): nat
  {
    if start + i < cap then start + i else start + i - cap
  }

  /** From start on, n cells hold the last n items of the log. */
  ghost predicate Window(cells: seq<string>, start: nat, n: nat, log: seq<string>)
  {
    && start < |cells| && n <= |cells| && n <= |log|
    && forall i :: 0 <= i < n ==> cells[Cell(start, i, |cells|)] == log[|log| - n + i]
  }

  lemma Forget(cells: seq<string>, start: nat, n: nat, log: seq<string>)
    requires Window(cells, start, n, log) && n > 0
    ensures Window(cells, (start + 1) % |cells|, n - 1, log)
    ensures Cell((start + 1) % |cells|, n - 1, |cells|) == Cell(start, n, |cells|)
  {
    var next := (start + 1) % |cells|;
    WrapNext(start, |cells|);
    forall i | 0 <= i < n - 1 ensures cells[Cell(next, i, |cells|)] == log[|log| - (n - 1) + i] {
      assert Cell(next, i, |cells|) == Cell(start, i + 1, |cells|);
    }
  }

  lemma Append(cells: seq<string>, start: nat, n: nat, log: seq<string>, item: string)
    requires Window(cells, start, n, log) && n < |cells|
    ensures Window(cells[Cell(start, n, |cells|) := item], start, n + 1, log + [item])
  {
  }

  /** The start after an add: it moves when no cell would stay free. */
  function NextStart(start: nat, n: nat, cap: nat): nat
    requires cap > 0
  {
    if n + 1 == cap then (start + 1) % cap else start
  }

  lemma WrapNext(i: nat, cap: nat)
    requires i < cap
    ensures (i + 1) % cap == if i + 1 == cap then 0 else i + 1
  {
  }

  lemma NextCell(start: nat, n: nat, cap: nat)
    requires start < cap && n < cap
    ensures (Cell(start, n, cap) + 1) % cap == Cell(NextStart(start, n, cap), if n + 1 == cap then n else n + 1, cap)
  {
    WrapNext(Cell(start, n, cap), cap);
    WrapNext(start, cap);
  }

  lemma AddKeepsWindow(cells: seq<string>, start: nat, n: nat, log: seq<string>, item: string)
    requires Window(cells, start, n, log) && n == Min(|log|, |cells| - 1)
    ensures Window(cells[Cell(start, n, |cells|) := item], NextStart(start, n, |cells|), Min(|log| + 1, |cells| - 1), log + [item])
  {
    if n + 1 < |cells| {
      Append(cells, start, n, log, item);
    } else if n > 0 {
      Forget(cells, start, n, log);
      Append(cells, NextStart(start, n, |cells|), n - 1, log, item);
    }
  }

  class RingBuf {
    const buf: array<string>
    const cap: nat
    var start: nat
    var end: nat
    /** Everything that was ever added. */
    ghost var log: seq<string>

    ghost predicate Valid()
      reads this, buf
    {
      && cap >= 1 && buf.Length == cap && end < cap
      && Window(buf[..], start, Min(|log|, cap - 1), log)
      && end == Cell(start, Min(|log|, cap - 1), cap)
    }

    constructor (cap: nat)
      requires cap >= 1
      ensures Valid() && fresh(buf) && this.cap == cap && log == []
    {
      this.cap := cap;
      this.buf := new string[cap](_ => "");
      this.start := 0;
      this.end := 0;
      this.log := [];
    }

    method Add(item: string)
      requires Valid()
      modifies this`start, this`end, this`log, buf
      ensures Valid() && log == old(log) + [item]
    {
      ghost var cells, n := buf[..], Len();
      AddKeepsWindow(cells, start, n, log, item);
      NextCell(start, n, cap);
      if Len() + 1 == cap {
        // Full: the oldest item goes.
        start := (start + 1) % cap;
      }
      buf[end] := item;
      assert buf[..] == cells[end := item];
      end := (end + 1) % cap;
      log := log + [item];
    }

    function Len(): (n: nat)
      requires Valid()
      reads this, buf
      ensures n == Min(|log|, cap - 1)
    {
      if start <= end then end - start else end + cap - start
    }

    /** The last cap - 1 items, oldest first. */
    method Data() returns (d: array<string>)
      requires Valid()
      ensures fresh(d) && d[..] == LastOf(log, cap - 1)
    {
      var l := Len();
      d := new string[l](_ => "");
      ghost var cells := buf[..];
      if start <= end {
        forall i | 0 <= i < end - start { d[i] := buf[start + i]; }
      } else {
        forall i | 0 <= i < cap - start { d[i] := buf[start + i]; }
        if end != 0 {
          forall i | 0 <= i < end { d[cap - start + i] := buf[i]; }
        }
      }
      forall i | 0 <= i < l ensures d[i] == LastOf(log, cap - 1)[i] {
        assert d[i] == cells[Cell(start, i, cap)];
      }
    }
  }
}
