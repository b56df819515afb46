/** The few PHP value semantics the services rely on: string truthiness,
    `is_numeric`, the `(int)` cast of a number and decimal rendering of integers. */
module PhpValues {
  import opened Wrappers

  /** `if ($s)` on a string: only "" and "0" are falsy. */
  predicate Truthy(s: string) {
    s != "" && s != "0"
  }

  /** `if ($v)` on a nullable string: null is falsy too. */
  predicate TruthyOpt(v: Option<string>) {
    v.Some? && Truthy(v.value)
  }

  /** A decoded JSON scalar as the services test it: `is_numeric` holds and
      the value is known, or it does not hold. */
  datatype Scalar = Numeric(value: real) | NonNumeric

  /** `(int)` of a number: truncation toward zero. */
  function IntCast(r: real): (i: int)
    ensures 0.0 <= r ==> i as real <= r < i as real + 1.0
    ensures r < 0.0 ==> i as real - 1.0 < r <= i as real
  {
    if 0.0 <= r then r.Floor else -((-r).Floor)
  }

  predicate IsDigit(c: char) {
    '0' <= c <= '9'
  }

  /** The characters PHP's numeric-string grammar allows around a number. */
  predicate IsNumericWhitespace(c: char) {
    c == ' ' || c == '\t' || c == '\n' || c == '\r' || c == '\U{000B}' || c == '\U{000C}'
  }

  /** The first index at or after `i` that is not a digit. */
  function SkipDigits(s: string, i: nat): (j: nat)
    requires i <= |s|
    ensures i <= j <= |s|
    ensures forall k :: i <= k < j ==> IsDigit(s[k])
    ensures j < |s| ==> !IsDigit(s[j])
    decreases |s| - i
  {
    if i < |s| && IsDigit(s[i]) then SkipDigits(s, i + 1) else i
  }

  /** The first index at or after `i` that is not numeric whitespace. */
  function SkipSpace(s: string, i: nat): (j: nat)
    requires i <= |s|
    ensures i <= j <= |s|
    ensures forall k :: i <= k < j ==> IsNumericWhitespace(s[k])
    decreases |s| - i
  {
    if i < |s| && IsNumericWhitespace(s[i]) then SkipSpace(s, i + 1) else i
  }

  /** An optional exponent `[eE][+-]?digits` starting at `i`, followed only by whitespace. */
  predicate ExponentThenEnd(s: string, i: nat)
    requires i <= |s|
  {
    if i < |s| && (s[i] == 'e' || s[i] == 'E') then
      var j0 := if i + 1 < |s| && (s[i + 1] == '+' || s[i + 1] == '-') then i + 2 else i + 1;
      var j1 := SkipDigits(s, j0);
      j1 > j0 && SkipSpace(s, j1) == |s|
    else
      SkipSpace(s, i) == |s|
  }

  /** PHP 8 `is_numeric` on a string: optional surrounding whitespace, an
      optional sign, digits with an optional fraction (at least one digit
      overall) and an optional exponent. */
  predicate IsNumericString(s: string) {
    var i0 := SkipSpace(s, 0);
    var i1 := if i0 < |s| && (s[i0] == '+' || s[i0] == '-') then i0 + 1 else i0;
    var i2 := SkipDigits(s, i1);
    if i2 < |s| && s[i2] == '.' then
      var i3 := SkipDigits(s, i2 + 1);
      (i2 > i1 || i3 > i2 + 1) && ExponentThenEnd(s, i3)
    else
      i2 > i1 && ExponentThenEnd(s, i2)
  }

  function DigitChar(d: nat): (c: char)
    requires d < 10
    ensures IsDigit(c) && DigitValue(c) == d
  {
    "0123456789"[d]
  }

  /** The value of a decimal digit. */
  function DigitValue(c: char): int {
    c as int - '0' as int
  }

  /** The value of a string of decimal digits, read left to right. */
  function DigitsValue(s: string): int
    decreases |s|
  {
    if s == [] then 0 else DigitsValue(s[..|s| - 1]) * 10 + DigitValue(s[|s| - 1])
  }

  /** Decimal rendering of a natural number, as PHP's string interpolation
      prints it: no leading zero except for 0 itself. */
  function NatToString(n: nat): (s: string)
    ensures |s| > 0
    ensures forall k :: 0 <= k < |s| ==> IsDigit(s[k])
    ensures s[0] == '0' <==> n == 0
    ensures n == 0 ==> s == "0"
    ensures n < 10 ==> |s| == 1
    ensures 10 <= n < 100 ==> |s| == 2
    decreases n
  {
    if n < 10 then [DigitChar(n)] else NatToString(n / 10) + [DigitChar(n % 10)]
  }

  /** Reading the rendering back gives the number. */
  lemma {:induction false} NatToStringValue(n: nat)
    ensures DigitsValue(NatToString(n)) == n
    decreases n
  {
    var s := NatToString(n);
    if n >= 10 {
      NatToStringValue(n / 10);
      assert s[..|s| - 1] == NatToString(n / 10);
    }
  }

  /** Distinct numbers render differently. */
  lemma NatToStringInjective(m: nat, n: nat)
    requires NatToString(m) == NatToString(n)
    ensures m == n
  {
    NatToStringValue(m);
    NatToStringValue(n);
  }

  /** Decimal rendering of an integer, the canonical form of a PHP integer
      array key: "-" followed by the magnitude before a negative. */
  function IntToString(i: int): (s: string)
    ensures |s| > 0
    ensures 0 <= i ==> s == NatToString(i)
    ensures i < 0 ==> s == "-" + NatToString(-i)
  {
    if i < 0 then "-" + NatToString(-i) else NatToString(i)
  }

  /** Distinct integers give distinct keys. */
  lemma IntToStringInjective(i: int, j: int)
    requires IntToString(i) == IntToString(j)
    ensures i == j
  {
    if i < 0 && j < 0 {
      assert ("-" + NatToString(-i))[1..] == NatToString(-i);
      assert ("-" + NatToString(-j))[1..] == NatToString(-j);
      NatToStringInjective(-i, -j);
    } else if 0 <= i && 0 <= j {
      NatToStringInjective(i, j);
    }
  }

  /** Leading zeros do not change the value of a digit string. */
  lemma {:induction false} LeadingZerosValue(k: nat, s: string)
    ensures DigitsValue(seq(k, _ => '0') + s) == DigitsValue(s)
    decreases k + |s|
  {
    if s == [] {
      if k > 0 {
        assert (seq(k, _ => '0') + s)[..k - 1] == seq(k - 1, _ => '0') + s;
        LeadingZerosValue(k - 1, s);
      }
    } else {
      var t := seq(k, _ => '0') + s;
      assert t[..|t| - 1] == seq(k, _ => '0') + s[..|s| - 1];
      LeadingZerosValue(k, s[..|s| - 1]);
    }
  }

  /** A string of digits only is numeric. */
  lemma DigitsAreNumeric(s: string)
    requires |s| > 0
    requires forall k :: 0 <= k < |s| ==> IsDigit(s[k])
    ensures IsNumericString(s)
  {
    assert SkipSpace(s, 0) == 0;
    assert SkipDigits(s, 0) == |s|;
    assert SkipSpace(s, |s|) == |s|;
  }
}
