/** Decimal text and numbers: `Number.prototype.toString` on non-negative integers and the part of
    `Number(string)` that a typed amount goes through. */
module Numbers {
  import opened Wrappers
  import opened Strings

  predicate IsDigit(c: char) {
    '0' <= c <= '9'
  }

  predicate AllDigits(s: string) {
    forall i :: 0 <= i < |s| ==> IsDigit(s[i])
  }

  function DigitValue(c: char): nat
    requires IsDigit(c)
  {
    c as int - '0' as int
  }

  function DigitChar(d: nat): (c: char)
    requires d < 10
    ensures IsDigit(c) && DigitValue(c) == d
  {
    ('0' as int + d) as char
  }

  /** `n.toString()`: a non-empty run of decimal digits without a leading zero. */
  function ToDecimal(n: nat): (r: string)
    ensures r != [] && AllDigits(r)
    ensures |r| > 1 ==> r[0] != '0'
  {
    if n < 10 then [DigitChar(n)] else ToDecimal(n / 10) + [DigitChar(n % 10)]
  }

  /** The value of a run of digits, read from the left. */
  function IntegerValue(s: string): nat
    requires AllDigits(s)
  {
    if s == [] then 0 else IntegerValue(s[..|s| - 1]) * 10 + DigitValue(s[|s| - 1])
  }

  /** The value of the digits written after a decimal point. */
  function FractionValue(s: string): real
    requires AllDigits(s)
  {
    if s == [] then 0.0 else (DigitValue(s[0]) as real + FractionValue(s[1..])) / 10.0
  }

  /** The length of the run of digits that starts `s`. */
  function LeadingDigits(s: string): (k: nat)
    ensures k <= |s| && AllDigits(s[..k])
    ensures k < |s| ==> !IsDigit(s[k])
  {
    if s != [] && IsDigit(s[0]) then
      var k := 1 + LeadingDigits(s[1..]);
      assert s[..k] == [s[0]] + s[1..][..k - 1];
      k
    else 0
  }

  /** An unsigned decimal literal: digits, optionally a point and more digits, with at least one digit. */
  function UnsignedValue(s: string): Option<real> {
    var k := LeadingDigits(s);
    var rest := s[k..];
    if rest == [] then
      if k == 0 then None else Some(IntegerValue(s[..k]) as real)
    else if rest[0] == '.' && AllDigits(rest[1..]) && (k > 0 || |rest| > 1) then
      Some(IntegerValue(s[..k]) as real + FractionValue(rest[1..]))
    else None
  }

  /** `Number(s)` with `None` for NaN: the text is trimmed, the empty text is 0, and one sign may lead
      an unsigned decimal literal. */
  function Number(s: string): Option<real> {
    var t := Trim(s);
    if t == [] then Some(0.0)
    else if t[0] == '-' then
      match UnsignedValue(t[1..])
      case Some(v) => Some(-v)
      case None => None
    else if t[0] == '+' then UnsignedValue(t[1..])
    else UnsignedValue(t)
  }

  lemma {:induction false} IntegerValueOfDecimal(n: nat)
    ensures IntegerValue(ToDecimal(n)) == n
  {
    if n >= 10 {
      var t := ToDecimal(n / 10);
      var r := ToDecimal(n);
      assert r == t + [DigitChar(n % 10)];
      assert r[..|r| - 1] == t;
      IntegerValueOfDecimal(n / 10);
    }
  }

  /** A run of digits reads back as its integer value. */
  lemma NumberOfDigits(s: string)
    requires s != [] && AllDigits(s)
    ensures Number(s) == Some(IntegerValue(s) as real)
  {
    TrimOfTrimmed(s);
    assert LeadingDigits(s) == |s|;
    assert s[..|s|] == s;
  }

  /** `Number(n.toString()) === n`: the decimal text of an integer reads back as that integer. */
  lemma NumberOfDecimal(n: nat)
    ensures Number(ToDecimal(n)) == Some(n as real)
  {
    NumberOfDigits(ToDecimal(n));
    IntegerValueOfDecimal(n);
  }
}
