/**
 * The part of the C++ library call `std::stol` (base 10) that the array
 * branch of the lookup depends on: C-locale white space is skipped, an
 * optional sign is read, then the longest run of decimal digits; the rest
 * of the string is ignored. No digit gives `invalid_argument`, a value
 * outside a 64-bit `long` gives `out_of_range`; both are `logic_error`s and
 * both are modelled as `None`.
 */
module Stol {
  import opened Wrappers

  /** Bounds of a 64-bit C++ `long`. */
  const LongMin: int := -0x8000_0000_0000_0000
  const LongMax: int := 0x7FFF_FFFF_FFFF_FFFF

  /** `isspace` in the C locale. */
  predicate IsSpace(c: char) {
    c == ' ' || c == '\t' || c == '\n' || c == '\U{000B}' || c == '\U{000C}' || c == '\r'
  }

  predicate IsDigit(c: char) { '0' <= c <= '9' }

  predicate AllDigits(d: string) { forall j :: 0 <= j < |d| ==> IsDigit(d[j]) }

  function DigitValue(c: char): (v: nat)
    requires IsDigit(c)
    ensures v < 10
  {
    (c as int) - ('0' as int)
  }

  function DigitChar(v: nat): (c: char)
    requires v < 10
    ensures IsDigit(c) && DigitValue(c) == v
  {
    (('0' as int) + v) as char
  }

  /** The first index at or after `i` that does not hold white space. */
  function SpaceEnd(s: string, i: nat): (k: nat)
    requires i <= |s|
    ensures i <= k <= |s|
    ensures forall j :: i <= j < k ==> IsSpace(s[j])
    ensures k == |s| || !IsSpace(s[k])
    decreases |s| - i
  {
    if i < |s| && IsSpace(s[i]) then SpaceEnd(s, i + 1) else i
  }

  /** The end of the maximal run of digits that starts at `i`. */
  function DigitEnd(s: string, i: nat): (k: nat)
    requires i <= |s|
    ensures i <= k <= |s|
    ensures forall j :: i <= j < k ==> IsDigit(s[j])
    ensures k == |s| || !IsDigit(s[k])
    decreases |s| - i
  {
    if i < |s| && IsDigit(s[i]) then DigitEnd(s, i + 1) else i
  }

  /** The number a run of decimal digits denotes, most significant digit first. */
  function DigitsValue(d: string): nat
    requires AllDigits(d)
  {
    if d == [] then 0 else 10 * DigitsValue(d[..|d| - 1]) + DigitValue(d[|d| - 1])
  }

  /** `std::stol(s)`: `None` where it throws a `logic_error`. */
  function ParseLong(s: string): (r: Option<int>)
    ensures r.Some? ==> LongMin <= r.value <= LongMax
  {
    var i := SpaceEnd(s, 0);
    var negative := i < |s| && s[i] == '-';
    var j := if i < |s| && (s[i] == '-' || s[i] == '+') then i + 1 else i;
    var k := DigitEnd(s, j);
    if k == j then None
    else
      var magnitude: int := DigitsValue(s[j..k]);
      var v := if negative then -magnitude else magnitude;
      if LongMin <= v <= LongMax then Some(v) else None
  }

  /** The shortest decimal numeral of `n`. */
  function Decimal(n: nat): (d: string)
    ensures |d| > 0 && AllDigits(d)
  {
    if n < 10 then [DigitChar(n)] else Decimal(n / 10) + [DigitChar(n % 10)]
  }

  lemma {:induction false} DecimalValue(n: nat)
    ensures DigitsValue(Decimal(n)) == n
  {
    var d := Decimal(n);
    if n >= 10 {
      DecimalValue(n / 10);
      assert d[..|d| - 1] == Decimal(n / 10);
    }
  }

  /** The digits of `d + t` end exactly where `d` ends when `t` does not start with a digit. */
  lemma DigitRunOf(d: string, t: string, i: nat)
    requires AllDigits(d) && i <= |d|
    requires t == [] || !IsDigit(t[0])
    ensures DigitEnd(d + t, i) == |d| && (d + t)[i..|d|] == d[i..]
  {
  }

  /**
   * Prefix semantics: a numeral followed by anything that does not continue
   * the digit run parses as that numeral ("1x" gives 1), and a numeral beyond
   * the range of `long` is rejected.
   */
  lemma ParseDecimalPrefix(n: nat, t: string)
    requires t == [] || !IsDigit(t[0])
    ensures ParseLong(Decimal(n) + t) == if n <= LongMax then Some(n) else None
  {
    var d := Decimal(n);
    var s := d + t;
    assert s[0] == d[0];
    assert SpaceEnd(s, 0) == 0;
    DigitRunOf(d, t, 0);
    assert s[0..|d|] == d;
    DecimalValue(n);
  }

  /** A minus sign in front of a numeral gives the negated value, or `None` below `LongMin`. */
  lemma ParseNegative(n: nat)
    ensures ParseLong(['-'] + Decimal(n)) == if n <= -LongMin then Some(-(n as int)) else None
  {
    var d := Decimal(n);
    var s := ['-'] + d;
    assert s[1..] == d;
    assert SpaceEnd(s, 0) == 0;
    assert s == [s[0]] + d;
    DigitEndShift(d);
    assert s[1..|s|] == d;
    DecimalValue(n);
  }

  lemma DigitEndShift(d: string)
    requires AllDigits(d)
    ensures DigitEnd(['-'] + d, 1) == |d| + 1
  {
  }

  /** White space at the front is skipped up to the first character that is not white space. */
  lemma SpacePrefix(w: string, s: string)
    requires forall j :: 0 <= j < |w| ==> IsSpace(w[j])
    requires s == [] || !IsSpace(s[0])
    ensures SpaceEnd(w + s, 0) == |w|
  {
    if s != [] {
      assert (w + s)[|w|] == s[0];
    }
  }

  /**
   * No leading integer: after the white space, a character that is neither
   * a digit nor a sign makes the whole string rejected ("x1", "a.1").
   */
  lemma NoLeadingInteger(w: string, s: string)
    requires forall j :: 0 <= j < |w| ==> IsSpace(w[j])
    requires s == [] || (!IsSpace(s[0]) && !IsDigit(s[0]) && s[0] != '-' && s[0] != '+')
    ensures ParseLong(w + s) == None
  {
    SpacePrefix(w, s);
    if s != [] {
      assert (w + s)[|w|] == s[0];
    }
  }

  /** A sign that is not directly followed by a digit makes the string rejected ("+", "-x1", "- 1"). */
  lemma SignWithoutDigit(w: string, s: string)
    requires forall j :: 0 <= j < |w| ==> IsSpace(w[j])
    requires |s| > 0 && (s[0] == '-' || s[0] == '+')
    requires |s| == 1 || !IsDigit(s[1])
    ensures ParseLong(w + s) == None
  {
    SpacePrefix(w, s);
    assert (w + s)[|w|] == s[0];
    if |s| > 1 {
      assert (w + s)[|w| + 1] == s[1];
    }
  }

  /** A string without any decimal digit is always rejected. */
  lemma NoDigitNoNumber(s: string)
    requires forall j :: 0 <= j < |s| ==> !IsDigit(s[j])
    ensures ParseLong(s) == None
  {
  }
}
