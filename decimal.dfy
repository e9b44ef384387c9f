/**
 * Python's `float()` on a plain decimal numeral: an optional sign, digits,
 * and an optional point followed by digits, with at least one digit in all.
 * The value is exact (a `real`); no IEEE rounding is modelled.
 */
module Decimal {
  import opened Wrappers

  predicate IsDigit(c: char)
  {
    '0' <= c <= '9'
  }

  function DigitValue(c: char): (d: nat)
    requires IsDigit(c)
    ensures d <= 9
  {
    c as int - '0' as int
  }

  predicate AllDigits(s: string)
  {
    forall i :: 0 <= i < |s| ==> IsDigit(s[i])
  }

  /** Number of leading digits of `s`. */
  function DigitRun(s: string): (n: nat)
    ensures n <= |s| && AllDigits(s[..n]) && (n < |s| ==> !IsDigit(s[n]))
  {
    if s != [] && IsDigit(s[0]) then 1 + DigitRun(s[1..]) else 0
  }

  /** Value of a digit string read as a whole number. */
  function IntValue(ds: string): (v: real)
    requires AllDigits(ds)
    ensures v >= 0.0
  {
    if ds == [] then 0.0
    else 10.0 * IntValue(ds[..|ds| - 1]) + DigitValue(ds[|ds| - 1]) as real
  }

  /** Value of the digits after a decimal point: `0.d1d2...`. */
  function FracValue(ds: string): real
    requires AllDigits(ds)
  {
    if ds == [] then 0.0
    else (DigitValue(ds[0]) as real + FracValue(ds[1..])) / 10.0
  }

  /** A fraction lies in [0, 1). */
  lemma {:induction false} FracValueRange(ds: string)
    requires AllDigits(ds)
    ensures 0.0 <= FracValue(ds) < 1.0
  {
    if ds != [] {
      FracValueRange(ds[1..]);
    }
  }

  /** A fraction is zero exactly when all its digits are `0`. */
  lemma {:induction false} FracValueZero(ds: string)
    requires AllDigits(ds)
    ensures FracValue(ds) == 0.0 <==> forall i :: 0 <= i < |ds| ==> ds[i] == '0'
  {
    if ds != [] {
      FracValueZero(ds[1..]);
      FracValueRange(ds[1..]);
      if forall i :: 0 <= i < |ds[1..]| ==> ds[1..][i] == '0' {
        if ds[0] == '0' {
          assert forall i :: 0 <= i < |ds| ==> ds[i] == '0' by {
            forall i | 0 <= i < |ds| ensures ds[i] == '0' {
              if i > 0 { assert ds[i] == ds[1..][i - 1]; }
            }
          }
        }
      } else {
        var i :| 0 <= i < |ds[1..]| && ds[1..][i] != '0';
        assert ds[i + 1] != '0';
      }
    }
  }

  /** An unsigned numeral: `ddd`, `ddd.`, `ddd.ddd` or `.ddd`. */
  function ParseUnsigned(s: string): Option<real>
  {
    var n := DigitRun(s);
    if n == |s| then
      (if n == 0 then None else Some(IntValue(s)))
    else if s[n] != '.' || !AllDigits(s[n + 1..]) || (n == 0 && n + 1 == |s|) then None
    else Some(IntValue(s[..n]) + FracValue(s[n + 1..]))
  }

  /** `float(s)` for a plain decimal numeral; `None` where Python raises `ValueError`. */
  function ParseDecimal(s: string): Option<real>
  {
    if s != [] && (s[0] == '+' || s[0] == '-') then
      match ParseUnsigned(s[1..])
      case None => None
      case Some(v) => Some(if s[0] == '-' then -v else v)
    else ParseUnsigned(s)
  }

  /** A numeral with exactly one digit before the point, and digits after a point if it has one. */
  predicate UnitNumeral(s: string)
  {
    |s| >= 1 && IsDigit(s[0]) && (|s| == 1 || (|s| >= 3 && s[1] == '.' && AllDigits(s[2..])))
  }

  /** The value such a numeral denotes, digit by digit. */
  function UnitValue(s: string): real
    requires UnitNumeral(s)
  {
    DigitValue(s[0]) as real + (if |s| == 1 then 0.0 else FracValue(s[2..]))
  }

  /** `float()` reads a unit numeral as the value it denotes. */
  lemma ParseUnitNumeral(s: string)
    requires UnitNumeral(s)
    ensures ParseDecimal(s) == Some(UnitValue(s))
  {
    assert s[..1] == [s[0]];
    assert IntValue([s[0]]) == DigitValue(s[0]) as real by {
      assert [s[0]][..0] == [];
    }
    if |s| > 1 {
      assert DigitRun(s[1..]) == 0;
    } else {
      assert s == s[..1];
    }
  }
}
