/** Base-10 rendering of unsigned integers.
    Every `bigint.toString()` in the resolver renders a non-negative value
    (an object id, a timestamp, a coordinate, a gate id) in base 10. This
    module defines that rendering, `ToDecimal`, and its partner `Parse`, and
    proves that the two are inverse bijections between naturals and canonical
    numerals.
 */
module Decimal {
  import opened Wrappers

  predicate IsDigit(c: char)
  {
    '0' <= c <= '9'
  }

  predicate AllDigits(s: string)
  {
    forall i :: 0 <= i < |s| ==> IsDigit(s[i])
  }

  /** A canonical numeral: non-empty, digits only, and no leading zero except
      in "0" itself. These are exactly the strings `bigint.toString()` yields
      for non-negative values. */
  predicate IsCanonical(s: string)
  {
    |s| > 0 && AllDigits(s) && (s[0] == '0' ==> s == "0")
  }

  function DigitValue(c: char): nat
    requires IsDigit(c)
  {
    c as int - '0' as int
  }

  function DigitChar(d: nat): (c: char)
    requires d < 10
    ensures IsDigit(c) && DigitValue(c) == d
  {
    ('0' as int + d) as char
  }

  /** `n.toString()` for a non-negative bigint `n`. */
  function ToDecimal(n: nat): (s: string)
    ensures IsCanonical(s)
    ensures s[0] == '0' <==> n == 0
    decreases n
  {
    if n < 10 then [DigitChar(n)] else ToDecimal(n / 10) + [DigitChar(n % 10)]
  }

  /** The value a string of digits denotes, most significant digit first. */
  function ValueOf(s: string): nat
    requires AllDigits(s)
  {
    if |s| == 0 then 0
    else
      var p := s[..|s| - 1];
      assert AllDigits(p) by {
        forall i | 0 <= i < |p| ensures IsDigit(p[i]) {
          assert p[i] == s[i];
        }
      }
      10 * ValueOf(p) + DigitValue(s[|s| - 1])
  }

  /** Reads a canonical numeral back; anything else is rejected. */
  function Parse(s: string): Option<nat>
  {
    if IsCanonical(s) then Some(ValueOf(s)) else None
  }

  /** Rendering and then reading a natural gives the natural back. */
  lemma {:induction false} ValueOfToDecimal(n: nat)
    ensures ValueOf(ToDecimal(n)) == n
    decreases n
  {
    var s := ToDecimal(n);
    if n >= 10 {
      var p := ToDecimal(n / 10);
      assert s == p + [DigitChar(n % 10)];
      assert s[..|s| - 1] == p;
      ValueOfToDecimal(n / 10);
    }
  }

  lemma ParseToDecimal(n: nat)
    ensures Parse(ToDecimal(n)) == Some(n)
  {
    ValueOfToDecimal(n);
  }

  /** A canonical numeral with a non-zero leading digit denotes a positive value. */
  lemma {:induction false} ValueOfPositive(s: string)
    requires AllDigits(s) && |s| > 0 && s[0] != '0'
    ensures ValueOf(s) > 0
    decreases |s|
  {
    if |s| > 1 {
      var p := s[..|s| - 1];
      assert p[0] == s[0];
      assert AllDigits(p) by {
        forall i | 0 <= i < |p| ensures IsDigit(p[i]) {
          assert p[i] == s[i];
        }
      }
      ValueOfPositive(p);
    }
  }

  /** Reading a canonical numeral and rendering the value gives the numeral back. */
  lemma {:induction false} ToDecimalValueOf(s: string)
    requires IsCanonical(s)
    ensures ToDecimal(ValueOf(s)) == s
    decreases |s|
  {
    var v := ValueOf(s);
    var d := s[|s| - 1];
    if |s| == 1 {
      assert s[..|s| - 1] == [];
      assert ValueOf(s[..|s| - 1]) == 0;
      assert v == 10 * ValueOf(s[..|s| - 1]) + DigitValue(d);
      assert v == DigitValue(d) < 10;
      assert DigitChar(DigitValue(d)) == d;
      assert s == [d];
    } else {
      var p := s[..|s| - 1];
      assert p[0] == s[0] && s[0] != '0';
      assert AllDigits(p) by {
        forall i | 0 <= i < |p| ensures IsDigit(p[i]) {
          assert p[i] == s[i];
        }
      }
      ValueOfPositive(p);
      ToDecimalValueOf(p);
      assert v == 10 * ValueOf(p) + DigitValue(d);
      assert v / 10 == ValueOf(p) && v % 10 == DigitValue(d);
      assert DigitChar(DigitValue(d)) == d;
      assert s == p + [d];
    }
  }

  /** `Parse` accepts exactly the renderings of naturals, each for one natural. */
  lemma ParseIsInverse(s: string, n: nat)
    ensures Parse(s) == Some(n) <==> s == ToDecimal(n)
  {
    if s == ToDecimal(n) {
      ParseToDecimal(n);
    }
    if Parse(s) == Some(n) {
      ToDecimalValueOf(s);
    }
  }

  /** Distinct naturals render to distinct strings. */
  lemma ToDecimalInjective(a: nat, b: nat)
    ensures ToDecimal(a) == ToDecimal(b) ==> a == b
  {
    ParseToDecimal(a);
    ParseToDecimal(b);
  }
}
