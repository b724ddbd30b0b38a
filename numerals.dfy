/**
 * The numeral syntax `float(token)` accepts for the tokens the data-entry text is
 * split into: an optional sign, decimal digits with an optional fraction, and an
 * optional decimal exponent. The value is exact (a `real`), not rounded to a double.
 */
module Numerals {
  import opened Wrappers
  import opened Text

  predicate IsDigit(c: char) { '0' <= c <= '9' }

  predicate AllDigits(s: string) { forall i :: 0 <= i < |s| ==> IsDigit(s[i]) }

  function DigitValue(c: char): nat
    requires IsDigit(c)
  {
    c as int - '0' as int
  }

  /** Value of a string of decimal digits, most significant first. */
  function DigitsValue(s: string): nat
    requires AllDigits(s)
    decreases |s|
  {
    if s == [] then 0 else DigitsValue(s[..|s| - 1]) * 10 + DigitValue(s[|s| - 1])
  }

  /** Length of the run of digits that starts `s`. */
  function DigitRun(s: string): (r: nat)
    ensures r <= |s| && AllDigits(s[..r])
    ensures r < |s| ==> !IsDigit(s[r])
    decreases |s|
  {
    if s == [] || !IsDigit(s[0]) then 0
    else
      var r := 1 + DigitRun(s[1..]);
      assert s[..r] == [s[0]] + s[1..][..r - 1];
      r
  }

  function Pow10(k: nat): (r: nat)
    ensures r >= 1
  {
    if k == 0 then 1 else 10 * Pow10(k - 1)
  }

  /** m · 10^e over the reals. */
  function Scale(m: nat, e: int): real
  {
    if e >= 0 then (m * Pow10(e)) as real else m as real / Pow10(-e) as real
  }

  /** The exponent suffix: empty, or `e`/`E` followed by an optionally signed run of digits. */
  function ParseExponent(s: string): Option<int>
  {
    if s == [] then Some(0)
    else if s[0] != 'e' && s[0] != 'E' then None
    else
      var sg := SplitSign(s[1..]);
      if sg.1 == [] || !AllDigits(sg.1) then None
      else
        var e: int := if sg.0 == ['-'] then -(DigitsValue(sg.1) as int) else DigitsValue(sg.1) as int;
        Some(e)
  }

  /** A token cut into sign, integer digits, optional point, fraction digits and the rest. */
  datatype Numeral = Numeral(sign: string, intPart: string, point: bool, fracPart: string, tail: string)

  function PointText(point: bool): string { if point then "." else "" }

  /** Splits off the leading run of digits. */
  function SplitDigits(s: string): (r: (string, string))
    ensures s == r.0 + r.1 && AllDigits(r.0)
    ensures r.1 != [] ==> !IsDigit(r.1[0])
  {
    var i := DigitRun(s);
    assert s == s[..i] + s[i..];
    (s[..i], s[i..])
  }

  predicate IsSign(s: string) { s == [] || s == ['-'] || s == ['+'] }

  /** Splits off an optional leading sign. */
  function SplitSign(t: string): (r: (string, string))
    ensures t == r.0 + r.1 && IsSign(r.0)
  {
    if |t| > 0 && (t[0] == '-' || t[0] == '+') then
      assert t == [t[0]] + t[1..];
      ([t[0]], t[1..])
    else ([], t)
  }

  /** Splits off an optional leading decimal point. */
  function SplitPoint(s: string): (r: (bool, string))
    ensures s == PointText(r.0) + r.1
  {
    if |s| > 0 && s[0] == '.' then
      assert s == ['.'] + s[1..];
      (true, s[1..])
    else (false, s)
  }

  function Decompose(t: string): (p: Numeral)
    ensures t == p.sign + (p.intPart + (PointText(p.point) + (p.fracPart + p.tail)))
    ensures IsSign(p.sign) && AllDigits(p.intPart) && AllDigits(p.fracPart)
    ensures !p.point ==> p.fracPart == []
  {
    var sg := SplitSign(t);
    var ds := SplitDigits(sg.1);
    var pt := SplitPoint(ds.1);
    var fr := if pt.0 then SplitDigits(pt.1) else ([], pt.1);
    assert pt.1 == fr.0 + fr.1;
    Numeral(sg.0, ds.0, pt.0, fr.0, fr.1)
  }

  /** The decomposition has a digit and its exponent suffix is well formed. */
  predicate WellFormed(p: Numeral) {
    |p.intPart| + |p.fracPart| > 0 && ParseExponent(p.tail).Some?
  }

  /** `float(t)` for a token `t`; `None` where Python raises ValueError. */
  function ParseNumber(t: string): Option<real>
  {
    var p := Decompose(t);
    if !WellFormed(p) then None
    else
      assert AllDigits(p.intPart + p.fracPart);
      var v := Scale(DigitsValue(p.intPart + p.fracPart), ParseExponent(p.tail).value - |p.fracPart|);
      Some(if p.sign == ['-'] then -v else v)
  }

  lemma {:induction false} DigitsValueOfNat(n: nat)
    ensures AllDigits(NatToString(n)) && DigitsValue(NatToString(n)) == n
    decreases n
  {
    var s := NatToString(n);
    if n >= 10 {
      DigitsValueOfNat(n / 10);
      assert s[..|s| - 1] == NatToString(n / 10);
    }
  }

  lemma {:induction false} DigitRunAll(s: string)
    requires AllDigits(s)
    ensures DigitRun(s) == |s|
    decreases |s|
  {
    if s != [] { DigitRunAll(s[1..]); }
  }

  /** Printing a natural number and parsing it back gives the number. */
  lemma NatRoundTrip(n: nat)
    ensures ParseNumber(NatToString(n)) == Some(n as real)
  {
    var s := NatToString(n);
    DigitsValueOfNat(n);
    DigitRunAll(s);
    assert s[..|s|] == s;
    assert SplitSign(s) == ([], s);
    assert SplitDigits(s) == (s, []);
    var p := Decompose(s);
    assert p == Numeral([], s, false, [], []);
    assert p.intPart + p.fracPart == s;
    assert Scale(n, 0) == n as real;
  }

  /** The characters that can occur in a token `float()` accepts here. */
  predicate NumeralChar(c: char) { IsDigit(c) || c == '+' || c == '-' || c == '.' || c == 'e' || c == 'E' }

  predicate InAlphabet(s: string) { forall k :: 0 <= k < |s| ==> NumeralChar(s[k]) }

  lemma InAlphabetConcat(a: string, b: string)
    requires InAlphabet(a) && InAlphabet(b)
    ensures InAlphabet(a + b)
  {
    forall k | 0 <= k < |a + b| ensures NumeralChar((a + b)[k]) {
      if k >= |a| { assert (a + b)[k] == b[k - |a|]; }
    }
  }

  lemma ExponentChars(s: string)
    requires ParseExponent(s).Some?
    ensures InAlphabet(s)
  {
    if s != [] {
      var sg := SplitSign(s[1..]);
      assert InAlphabet(sg.0);
      InAlphabetConcat(sg.0, sg.1);
      assert s == [s[0]] + s[1..];
      InAlphabetConcat([s[0]], s[1..]);
    }
  }

  lemma PartsChars(p: Numeral)
    requires IsSign(p.sign) && AllDigits(p.intPart) && AllDigits(p.fracPart)
    requires ParseExponent(p.tail).Some?
    ensures InAlphabet(p.sign + (p.intPart + (PointText(p.point) + (p.fracPart + p.tail))))
  {
    ExponentChars(p.tail);
    assert InAlphabet(p.sign) && InAlphabet(p.intPart) && InAlphabet(p.fracPart);
    assert InAlphabet(PointText(p.point));
    InAlphabetConcat(p.fracPart, p.tail);
    InAlphabetConcat(PointText(p.point), p.fracPart + p.tail);
    InAlphabetConcat(p.intPart, PointText(p.point) + (p.fracPart + p.tail));
    InAlphabetConcat(p.sign, p.intPart + (PointText(p.point) + (p.fracPart + p.tail)));
  }

  /** A token holding any character outside the numeral alphabet is rejected. */
  lemma OnlyNumeralChars(t: string)
    requires ParseNumber(t).Some?
    ensures InAlphabet(t)
  {
    var p := Decompose(t);
    assert WellFormed(p);
    PartsChars(p);
  }
}
