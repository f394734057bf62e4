/**
 The string routines the repository takes from Go's libraries: searching for a byte, decimal
 printing and decimal parsing. Strings are sequences of bytes.
 */
module Text {
  import opened Common

  /** strings.IndexByte: the first position of c, or -1. */
  function IndexOf(s: string, c: char): (i: int)
    ensures -1 <= i < |s|
    ensures i >= 0 ==> s[i] == c && forall k :: 0 <= k < i ==> s[k] != c
    ensures i < 0 ==> forall k :: 0 <= k < |s| ==> s[k] != c
  {
    if s == "" then -1
    else if s[0] == c then 0
    else
      var rest := IndexOf(s[1..], c);
      assert forall k :: 0 < k < |s| ==> s[k] == s[1..][k - 1];
      if rest < 0 then -1 else rest + 1
  }

  /** strings.LastIndex for one byte. */
  function LastIndexOf(s: string, c: char): (i: int)
    ensures -1 <= i < |s|
    ensures i >= 0 ==> s[i] == c && forall k :: i < k < |s| ==> s[k] != c
    ensures i < 0 ==> forall k :: 0 <= k < |s| ==> s[k] != c
  {
    if s == "" then -1
    else if s[|s| - 1] == c then |s| - 1
    else LastIndexOf(s[..|s| - 1], c)
  }

  /** The search from one position on. */
  lemma NextIndexIs(s: string, c: char, from: nat, i: nat)
    requires from <= i <= |s| && forall k :: from <= k < i ==> s[k] != c
    ensures i < |s| && s[i] == c ==> IndexOf(s[from..], c) == i - from
    ensures i == |s| ==> IndexOf(s[from..], c) == -1
  {
    var rest := s[from..];
    var j := IndexOf(rest, c);
    assert forall k :: 0 <= k < |rest| ==> rest[k] == s[from + k];
    if i < |s| && s[i] == c { assert rest[i - from] == c; }
  }

  // ---------- Decimal numbers ----------

  predicate IsDigit(c: char) { '0' <= c <= '9' }

  function DigitOf(c: char): nat
    requires IsDigit(c)
  {
    c as int - '0' as int
  }

  function Digit(d: nat): (c: char)
    requires d < 10
    ensures IsDigit(c) && DigitOf(c) == d
  {
    ('0' as int + d) as char
  }

  /** %d of a number that is not negative. */
  function Decimal(n: nat): (s: string)
    ensures s != ""
    ensures forall i :: 0 <= i < |s| ==> IsDigit(s[i])
  {
    if n < 10 then [Digit(n)] else Decimal(n / 10) + [Digit(n % 10)]
  }

  /** %d of an integer. */
  function FormatInt(i: int): string
  {
    if i < 0 then "-" + Decimal(-i) else Decimal(i)
  }

  lemma {:induction false} DecimalInjective(a: nat, b: nat)
    requires Decimal(a) == Decimal(b)
    ensures a == b
  {
    var s, t := Decimal(a), Decimal(b);
    assert s[|s| - 1] == Digit(a % 10) && t[|t| - 1] == Digit(b % 10);
    assert DigitOf(Digit(a % 10)) == DigitOf(Digit(b % 10));
    if a >= 10 && b >= 10 {
      assert s[..|s| - 1] == Decimal(a / 10) && t[..|t| - 1] == Decimal(b / 10);
      DecimalInjective(a / 10, b / 10);
    }
  }

  lemma FormatIntInjective(a: int, b: int)
    requires FormatInt(a) == FormatInt(b)
    ensures a == b
  {
    assert Decimal(if a < 0 then -a else a)[0] != '-';
    assert Decimal(if b < 0 then -b else b)[0] != '-';
    if a < 0 && b < 0 {
      assert FormatInt(a)[1..] == Decimal(-a) && FormatInt(b)[1..] == Decimal(-b);
      DecimalInjective(-a, -b);
    } else if a >= 0 && b >= 0 {
      DecimalInjective(a, b);
    }
  }

  // strconv.ParseInt(s, 10, 64), which reads the digits from the left as an unsigned number and
  // gives up at the first wrong byte or as soon as the number leaves 64 bits.

  const MAX_INT := 0x7fff_ffff_ffff_ffff
  const MAX_UINT := 0xffff_ffff_ffff_ffff

  datatype Scan = Number(n: nat) | Malformed | TooBig

  function ScanDigits(acc: nat, s: string): Scan
    decreases |s|
  {
    if s == "" then Number(acc)
    else if !IsDigit(s[0]) then Malformed
    else
      var next := 10 * acc + DigitOf(s[0]);
      if next > MAX_UINT then TooBig else ScanDigits(next, s[1..])
  }

  /** What ParseInt returns: a value even when it also returns an error. */
  datatype Parsed = Parsed(value: int, ok: bool)

  function ParseInt(s: string): Parsed
  {
    if s == "" then Parsed(0, false)
    else
      var negative := s[0] == '-';
      var digits := if s[0] == '-' || s[0] == '+' then s[1..] else s;
      if digits == "" then Parsed(0, false)
      else
        match ScanDigits(0, digits)
        case Malformed => Parsed(0, false)
        case TooBig => if negative then Parsed(-MAX_INT - 1, false) else Parsed(MAX_INT, false)
        case Number(n) =>
          if !negative && n > MAX_INT then Parsed(MAX_INT, false)
          else if negative && n > MAX_INT + 1 then Parsed(-MAX_INT - 1, false)
          else Parsed(if negative then -(n as int) else n, true)
  }

  /** strconv.Atoi, whose value is used only when there is no error. */
  function Atoi(s: string): Option<int>
  {
    var p := ParseInt(s);
    if p.ok then Some(p.value) else None
  }

  lemma {:induction false} ScanAppend(acc: nat, s: string, c: char)
    requires IsDigit(c)
    ensures ScanDigits(acc, s + [c]) ==
            match ScanDigits(acc, s)
            case Number(n) => (if 10 * n + DigitOf(c) > MAX_UINT then TooBig else Number(10 * n + DigitOf(c)))
            case Malformed => Malformed
            case TooBig => TooBig
    decreases |s|
  {
    if s == "" {
      assert ScanDigits(acc, [c]) == if 10 * acc + DigitOf(c) > MAX_UINT then TooBig else ScanDigits(10 * acc + DigitOf(c), "");
      assert s + [c] == [c];
    } else {
      assert (s + [c])[1..] == s[1..] + [c];
      if IsDigit(s[0]) && 10 * acc + DigitOf(s[0]) <= MAX_UINT {
        ScanAppend(10 * acc + DigitOf(s[0]), s[1..], c);
      }
    }
  }

  lemma {:induction false} ScanReadsDecimal(n: nat)
    ensures ScanDigits(0, Decimal(n)) == if n > MAX_UINT then TooBig else Number(n)
  {
    if n < 10 {
      ScanAppend(0, "", Digit(n));
      assert "" + [Digit(n)] == Decimal(n);
    } else {
      ScanReadsDecimal(n / 10);
      ScanAppend(0, Decimal(n / 10), Digit(n % 10));
    }
  }

  /** Parsing undoes printing exactly on the 64-bit integers; beyond them it fails and clamps. */
  lemma ParseUndoesFormat(i: int)
    ensures -MAX_INT - 1 <= i <= MAX_INT ==> ParseInt(FormatInt(i)) == Parsed(i, true)
    ensures i > MAX_INT ==> ParseInt(FormatInt(i)) == Parsed(MAX_INT, false)
    ensures i < -MAX_INT - 1 ==> ParseInt(FormatInt(i)) == Parsed(-MAX_INT - 1, false)
  {
    var n := if i < 0 then -i else i;
    ScanReadsDecimal(n);
    assert IsDigit(Decimal(n)[0]);
    if i < 0 { assert FormatInt(i)[1..] == Decimal(n); }
  }

  // ---------- What numbers mean ----------

  /** Codes 48 to 57. */
  ghost predicate AllDigits(s: string)
  {
    forall i :: 0 <= i < |s| ==> 48 <= s[i] as int <= 57
  }

  /** The number the digits stand for, place by place. */
  ghost function Value(s: string): nat
    requires AllDigits(s)
  {
    if s == "" then 0 else 10 * Value(s[..|s| - 1]) + (s[|s| - 1] as int - 48)
  }

  /** Printing gives the digits of the number, without leading zeros. */
  lemma {:induction false} DecimalExactly(n: nat)
    ensures AllDigits(Decimal(n)) && Value(Decimal(n)) == n
    ensures Decimal(n)[0] == '0' ==> n == 0
  {
    var s := Decimal(n);
    if n < 10 {
      assert s[..|s| - 1] == "" && Value("") == 0;
    } else {
      DecimalExactly(n / 10);
      assert s[..|s| - 1] == Decimal(n / 10);
    }
  }

  lemma {:induction false} ScanBadEnd(acc: nat, s: string, c: char)
    requires !IsDigit(c)
    ensures !ScanDigits(acc, s + [c]).Number?
    decreases |s|
  {
    if s != "" {
      assert (s + [c])[1..] == s[1..] + [c];
      if IsDigit(s[0]) { ScanBadEnd(10 * acc + DigitOf(s[0]), s[1..], c); }
    }
  }

  lemma {:induction false} ScanExactly(s: string)
    ensures ScanDigits(0, s).Number? <==> AllDigits(s) && Value(s) <= MAX_UINT
    ensures ScanDigits(0, s).Number? ==> ScanDigits(0, s).n == Value(s)
    decreases |s|
  {
    if s != "" {
      var k := |s| - 1;
      assert s == s[..k] + [s[k]];
      ScanExactly(s[..k]);
      if IsDigit(s[k]) {
        ScanAppend(0, s[..k], s[k]);
        assert AllDigits(s[..k]) ==> AllDigits(s);
      } else {
        ScanBadEnd(0, s[..k], s[k]);
      }
    }
  }

  /** The text is a sign, if any, and at least one digit, and stands for i. */
  ghost predicate Denotes(s: string, i: int)
  {
    s != "" &&
    var signed := s[0] == '-' || s[0] == '+';
    var digits := if signed then s[1..] else s;
    digits != "" && AllDigits(digits) && i == if s[0] == '-' then 0 - Value(digits) else Value(digits)
  }

  /** Parsing succeeds exactly on texts that stand for a 64-bit integer, with that integer. */
  lemma ParseIntExactly(s: string, i: int)
    ensures ParseInt(s) == Parsed(i, true) <==> Denotes(s, i) && -0x8000_0000_0000_0000 <= i <= 0x7fff_ffff_ffff_ffff
  {
    if s != "" {
      ScanExactly(if s[0] == '-' || s[0] == '+' then s[1..] else s);
    }
  }
}
