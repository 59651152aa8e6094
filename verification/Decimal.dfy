/** The fixed-buffer integer printer `itoa` and its inverse. */
module Decimal {
  import opened Text

  const MIN_INT64: int := -0x8000_0000_0000_0000
  const MAX_INT64: int := 0x7FFF_FFFF_FFFF_FFFF

  type int64 = i: int | MIN_INT64 <= i <= MAX_INT64

  /** Two's complement negation: the least value is its own negative. */
  function Negate(i: int64): int64 {
    if i == MIN_INT64 then MIN_INT64 else -i
  }

  function DigitChar(d: int): char
    requires 0 <= d < 10
  {
    '0' + d as char
  }

  /** The decimal digits of `n`, most significant first; none for zero. */
  function Digits(n: nat): string {
    if n == 0 then "" else Digits(n / 10) + [DigitChar(n % 10)]
  }

  /** What `itoa` prints. The least int64 stays negative when negated, so no digit is written for it. */
  function Shown(i: int64): string {
    if i == 0 then "0" else if i == MIN_INT64 then "-" else if i < 0 then "-" + Digits(-i) else Digits(i)
  }

  predicate IsDigit(c: char) {
    '0' <= c <= '9'
  }

  function DigitValue(c: char): nat
    requires IsDigit(c)
  {
    c as int - '0' as int
  }

  function Value(digits: string): nat
    requires forall k :: 0 <= k < |digits| ==> IsDigit(digits[k])
  {
    if digits == "" then 0
    else
      10 * Value(digits[..|digits| - 1]) + DigitValue(digits[|digits| - 1])
  }

  /** Decimal reading: an optional minus sign and at least one digit. */
  function Parse(s: string): Option<int> {
    var negative := s != "" && s[0] == '-';
    var digits := if negative then s[1..] else s;
    if digits == "" || exists k :: 0 <= k < |digits| && !IsDigit(digits[k]) then None
    else
      var value: int := Value(digits);
      Some(if negative then -value else value)
  }

  /** `itoa`: fills a 20 byte buffer from its end. The buffer never underruns. */
  method Itoa(i: int64) returns (s: string)
    ensures s == Shown(i)
  {
    if i == 0 {
      return "0";
    }
    var negative := i < 0;
    var n: int := if negative then Negate(i) else i;
    var buf := new char[20];
    var pos := buf.Length;
    ghost var start := n;
    ghost var room := 19;
    DigitsFit(n, 19);
    assert buf[pos..] == "";
    while n > 0
      invariant 0 <= room && 1 + room <= pos <= buf.Length == 20
      invariant n <= start && (n < 0 ==> n == start && pos == 20)
      invariant n >= 0 ==> |Digits(n)| <= room && Digits(start) == Digits(n) + buf[pos..]
      invariant n < 0 ==> buf[pos..] == ""
    {
      pos := pos - 1;
      ghost var written := buf[pos + 1..];
      buf[pos] := DigitChar(n % 10);
      assert buf[pos..] == [DigitChar(n % 10)] + written;
      n := n / 10;
      room := room - 1;
    }
    if negative {
      pos := pos - 1;
      ghost var written := buf[pos + 1..];
      buf[pos] := '-';
      assert buf[pos..] == "-" + written;
    }
    return buf[pos..];
  }

  function Pow10(k: nat): nat {
    if k == 0 then 1 else 10 * Pow10(k - 1)
  }

  lemma {:induction false} DigitsFitPow(n: nat, k: nat)
    requires n < Pow10(k)
    ensures |Digits(n)| <= k
  {
    if n > 0 {
      DigitsFitPow(n / 10, k - 1);
    }
  }

  lemma DigitsFit(n: int, k: nat)
    requires k == 19 && n <= MAX_INT64
    ensures n >= 0 ==> |Digits(n)| <= k
  {
    assert Pow10(19) == 10_000_000_000_000_000_000 by {
      assert Pow10(5) == 100_000;
      assert Pow10(10) == 10_000_000_000;
      assert Pow10(15) == 1_000_000_000_000_000;
    }
    if n >= 0 {
      DigitsFitPow(n, k);
    }
  }

  lemma {:induction false} DigitsRead(n: nat)
    ensures forall k :: 0 <= k < |Digits(n)| ==> IsDigit(Digits(n)[k])
    ensures Value(Digits(n)) == n
    ensures n > 0 ==> Digits(n) != ""
  {
    if n > 0 {
      DigitsRead(n / 10);
      assert Digits(n)[..|Digits(n)| - 1] == Digits(n / 10);
    }
  }

  lemma ParseOfDigits(n: int)
    requires n > 0
    ensures Parse(Digits(n)) == Some(n) && Parse("-" + Digits(n)) == Some(-n)
  {
    DigitsRead(n);
    assert IsDigit(Digits(n)[0]);
    assert ("-" + Digits(n))[1..] == Digits(n);
  }

  /** Printing and reading back is the identity on every int64 but the least one. */
  lemma ShownRoundTrip(i: int64)
    ensures Parse(Shown(i)) == Some(i) <==> i != MIN_INT64
  {
    if i == 0 {
      assert Value("0") == 0 by { assert "0"[..0] == ""; }
    } else if i == MIN_INT64 {
      assert "-"[1..] == "";
    } else {
      ParseOfDigits(if i < 0 then -i else i);
    }
  }

  /** Distinct numbers print differently. */
  lemma ShownInjective(i: int64, j: int64)
    requires i != j
    ensures Shown(i) != Shown(j)
  {
    ShownRoundTrip(i);
    ShownRoundTrip(j);
    if i == MIN_INT64 || j == MIN_INT64 {
      assert Parse("-") == None by { assert "-"[1..] == ""; }
    }
  }
}
