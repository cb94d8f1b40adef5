/** Integers written and read as decimal text, the way `Int64.ToString` and
    `Int32.Parse`/`Int64.Parse` do it under the invariant culture. */
module DecimalText {
  import opened Utf16
  import opened Outcomes

  const ZERO: CodeUnit := '0' as CodeUnit
  const MINUS: CodeUnit := '-' as CodeUnit
  const PLUS: CodeUnit := '+' as CodeUnit

  const INT32_MIN: int := -0x8000_0000
  const INT32_MAX: int := 0x7FFF_FFFF
  const INT64_MIN: int := -0x8000_0000_0000_0000
  const INT64_MAX: int := 0x7FFF_FFFF_FFFF_FFFF

  predicate IsDigit(c: CodeUnit) {
    ZERO <= c <= ZERO + 9
  }

  predicate AllDigits(t: Text) {
    forall k :: 0 <= k < |t| ==> IsDigit(t[k])
  }

  function Digit(d: nat): (c: CodeUnit)
    requires d < 10
    ensures IsDigit(c) && (c - ZERO) as int == d
  {
    ZERO + d as CodeUnit
  }

  /** The shortest decimal text of `n`. */
  function NaturalText(n: nat): (t: Text)
    ensures 1 <= |t| && AllDigits(t)
    ensures t[0] == ZERO ==> n == 0
    decreases n
  {
    if n < 10 then [Digit(n)] else NaturalText(n / 10) + [Digit(n % 10)]
  }

  /** `ToString()` of an integer: a minus sign for a negative value, then its digits. */
  function IntegerText(x: int): (t: Text)
    ensures 1 <= |t|
  {
    if x < 0 then [MINUS] + NaturalText(-x) else NaturalText(x)
  }

  /** The value of a run of decimal digits, most significant first. */
  function DigitsValue(t: Text): (v: nat)
    requires AllDigits(t)
    decreases |t|
  {
    if t == [] then 0 else DigitsValue(t[..|t| - 1]) * 10 + (t[|t| - 1] - ZERO) as int
  }

  lemma {:induction false} NaturalTextValue(n: nat)
    ensures DigitsValue(NaturalText(n)) == n
    decreases n
  {
    if n >= 10 {
      var t := NaturalText(n);
      assert t[..|t| - 1] == NaturalText(n / 10);
      NaturalTextValue(n / 10);
    }
  }

  /** `Int32.Parse` or `Int64.Parse` (by the range `lo..hi`) of text with an
      optional sign and at least one digit: `FormatException` for any other
      text, `OverflowException` when the value is out of range. */
  function ParseInteger(t: Text, lo: int, hi: int): (r: Result<int>)
    ensures r.Ok? ==> lo <= r.value <= hi
    ensures r.Err? ==> r.error == Format || r.error == Overflow
  {
    var negative := |t| > 0 && t[0] == MINUS;
    var digits := if |t| > 0 && (t[0] == MINUS || t[0] == PLUS) then t[1..] else t;
    if digits == [] || !AllDigits(digits) then Err(Format)
    else
      var magnitude: int := DigitsValue(digits);
      var v := if negative then -magnitude else magnitude;
      if v < lo || hi < v then Err(Overflow) else Ok(v)
  }

  /** Reading back the text of an integer in range gives that integer. */
  lemma IntegerTextReadsBack(x: int, lo: int, hi: int)
    requires lo <= x <= hi
    ensures ParseInteger(IntegerText(x), lo, hi) == Ok(x)
  {
    var t := IntegerText(x);
    if x < 0 {
      assert t[0] == MINUS && t[1..] == NaturalText(-x);
      NaturalTextValue(-x);
    } else {
      assert IsDigit(t[0]) && t[0] != MINUS && t[0] != PLUS;
      NaturalTextValue(x);
    }
  }

  /** The text of an integer out of range fails to read with `OverflowException`. */
  lemma IntegerTextOverflows(x: int, lo: int, hi: int)
    requires x < lo || hi < x
    ensures ParseInteger(IntegerText(x), lo, hi) == Err(Overflow)
  {
    IntegerTextReadsBack(x, x, x);
  }

  /** `sb.Append(0)` before a value below 10, then the value: two digits. */
  function TwoDigits(n: nat): (t: Text)
    requires n < 100
    ensures |t| == 2 && AllDigits(t) && DigitsValue(t) == n
  {
    var t := [Digit(n / 10), Digit(n % 10)];
    assert t[..1] == [Digit(n / 10)] && t[..1][..0] == [];
    assert DigitsValue(t[..1]) == n / 10;
    t
  }

  lemma PaddedTwoDigits(n: nat)
    requires n < 100
    ensures (if n < 10 then [ZERO] else []) + NaturalText(n) == TwoDigits(n)
  {
    if n >= 10 {
      assert NaturalText(n / 10) == [Digit(n / 10)];
    }
  }
}
