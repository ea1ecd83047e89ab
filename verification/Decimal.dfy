/** Decimal key text: the composite keys the store writes, and reading them back. */
module Decimals {
  import opened Common

  function Digit(d: nat): char
    requires d < 10
  {
    "0123456789"[d]
  }

  function Decimal(n: nat): string {
    if n < 10 then [Digit(n)] else Decimal(n / 10) + [Digit(n % 10)]
  }

  predicate DecimalChar(c: char) { '0' <= c <= '9' }

  predicate Numeral(s: string) { s != [] && forall i :: 0 <= i < |s| ==> DecimalChar(s[i]) }

  function DigitValue(c: char): nat
    requires DecimalChar(c)
  {
    c as int - '0' as int
  }

  function Value(s: string): nat
    requires forall i :: 0 <= i < |s| ==> DecimalChar(s[i])
  {
    if s == [] then 0 else 10 * Value(s[..|s| - 1]) + DigitValue(s[|s| - 1])
  }

  /** Integer parsing: an optional plus sign, then at least one digit. */
  function Parse(s: string): Option<nat> {
    var digits := if s != [] && s[0] == '+' then s[1..] else s;
    if Numeral(digits) then Some(Value(digits)) else None
  }

  /** The text before and after the first separator. */
  function SplitOnce(s: string, at: char): Option<(string, string)> {
    if s == [] then None
    else if s[0] == at then Some(([], s[1..]))
    else
      match SplitOnce(s[1..], at)
      case None => None
      case Some((before, after)) => Some(([s[0]] + before, after))
  }

  lemma {:induction false} DecimalIsNumeral(n: nat)
    ensures Numeral(Decimal(n)) && Value(Decimal(n)) == n
  {
    if n >= 10 {
      DecimalIsNumeral(n / 10);
      var s := Decimal(n);
      assert s[..|s| - 1] == Decimal(n / 10);
    } else {
      assert Decimal(n)[..0] == [];
    }
  }

  lemma ParseDecimal(n: nat)
    ensures Parse(Decimal(n)) == Some(n)
  {
    DecimalIsNumeral(n);
  }

  lemma {:induction false} SplitJoined(before: string, at: char, after: string)
    requires at !in before
    ensures SplitOnce(before + [at] + after, at) == Some((before, after))
  {
    var s := before + [at] + after;
    if before == [] {
      assert s[1..] == after;
    } else {
      assert s[1..] == before[1..] + [at] + after;
      SplitJoined(before[1..], at, after);
      assert s[0] == before[0] && before == [before[0]] + before[1..];
    }
  }

  /** "a/b": receipt, attempt and lease keys. */
  function Pair(a: nat, b: nat): string { Decimal(a) + "/" + Decimal(b) }

  function ParsePair(s: string): Option<(nat, nat)> {
    match SplitOnce(s, '/')
    case None => None
    case Some((a, b)) =>
      match (Parse(a), Parse(b))
      case (Some(x), Some(y)) => Some((x, y))
      case _ => None
  }

  /** A pair key reads back as exactly the pair it was written from. */
  lemma PairRoundTrip(a: nat, b: nat)
    ensures ParsePair(Pair(a, b)) == Some((a, b))
  {
    DecimalIsNumeral(a);
    ParseDecimal(a);
    ParseDecimal(b);
    SplitJoined(Decimal(a), '/', Decimal(b));
  }

  /** "a/b/c": the aggregate, version and ordinal of one event. */
  function Triple(a: nat, b: nat, c: nat): string { Decimal(a) + "/" + Pair(b, c) }

  lemma TripleInjective(a: nat, b: nat, c: nat, x: nat, y: nat, z: nat)
    requires Triple(a, b, c) == Triple(x, y, z)
    ensures a == x && b == y && c == z
  {
    DecimalIsNumeral(a);
    DecimalIsNumeral(x);
    SplitJoined(Decimal(a), '/', Pair(b, c));
    SplitJoined(Decimal(x), '/', Pair(y, z));
    PairRoundTrip(b, c);
    PairRoundTrip(y, z);
  }

  /** "op-unit-command": the operation key of one effect intent. */
  function Operation(unit: nat, command: nat): string { "op-" + Dashed(unit, command) }

  function Dashed(a: nat, b: nat): string { Decimal(a) + "-" + Decimal(b) }

  lemma DashedSplits(a: nat, b: nat)
    ensures SplitOnce(Dashed(a, b), '-') == Some((Decimal(a), Decimal(b)))
  {
    DecimalIsNumeral(a);
    SplitJoined(Decimal(a), '-', Decimal(b));
  }

  lemma OperationInjective(u: nat, c: nat, x: nat, y: nat)
    requires Operation(u, c) == Operation(x, y)
    ensures u == x && c == y
  {
    assert Dashed(u, c) == Dashed(x, y) by {
      assert Operation(u, c)[3..] == Dashed(u, c);
      assert Operation(x, y)[3..] == Dashed(x, y);
    }
    DashedSplits(u, c);
    DashedSplits(x, y);
    ParseDecimal(u);
    ParseDecimal(x);
    ParseDecimal(c);
    ParseDecimal(y);
  }
}
