/**
 * The numbers the transformation editor holds. Its sliders move in steps of 1, 0.5 and 0.01, so a
 * knob value is a finite decimal. It is kept in lowest terms, so `!==` between two knob values is
 * inequality of their representations (see `SameValueSameDecimal`).
 */
module Numbers {
  import Strings

  /** The number `units / 10^places`. */
  datatype Decimal = Decimal(units: int, places: nat) {
    /** Lowest terms: no trailing zero after the decimal point. */
    predicate Canonical() {
      places == 0 || units % 10 != 0
    }
  }

  type Num = d: Decimal | d.Canonical() witness Decimal(0, 0)

  function Int(n: int): Num {
    Decimal(n, 0)
  }

  function Pow10(n: nat): (r: nat)
    ensures r >= 1
  {
    if n == 0 then 1 else 10 * Pow10(n - 1)
  }

  lemma {:induction false} Pow10Add(a: nat, b: nat)
    ensures Pow10(a + b) == Pow10(a) * Pow10(b)
  {
    if a > 0 {
      Pow10Add(a - 1, b);
    }
  }

  /** Two decimals in lowest terms that denote the same number are the same decimal. */
  lemma SameValueSameDecimal(x: Num, y: Num)
    requires x.units * Pow10(y.places) == y.units * Pow10(x.places)
    ensures x == y
  {
    if x.places < y.places {
      LowerTermsExist(x, y);
    } else if y.places < x.places {
      LowerTermsExist(y, x);
    }
  }

  /** When `x` needs fewer places than `y` for the same number, `y` ends in a zero digit. */
  lemma LowerTermsExist(x: Decimal, y: Decimal)
    requires x.places < y.places
    requires x.units * Pow10(y.places) == y.units * Pow10(x.places)
    ensures y.units % 10 == 0
  {
    var d := y.places - x.places;
    var a, b := Pow10(x.places), Pow10(d);
    Pow10Add(x.places, d);
    assert Pow10(y.places) == a * b;
    Reassociate(x.units, a, b);
    CancelFactor(x.units * b, y.units, a);
    TenDivides(x.units, d);
  }

  lemma Reassociate(u: int, a: int, b: int)
    ensures u * (a * b) == (u * b) * a
  {
  }

  /** A multiple of a positive power of ten ends in a zero digit. */
  lemma TenDivides(u: int, d: nat)
    requires d > 0
    ensures (u * Pow10(d)) % 10 == 0
  {
    var c := Pow10(d - 1);
    assert Pow10(d) == 10 * c;
    Reassociate(u, 10, c);
    assert u * Pow10(d) == (u * c) * 10;
  }

  lemma CancelFactor(a: int, b: int, k: int)
    requires k > 0
    requires a * k == b * k
    ensures a == b
  {
    assert (a - b) * k == 0;
  }

  /** `s` padded on the left with '0' up to `width` characters. */
  function PadLeft(s: string, width: nat): (r: string)
    ensures |r| == if |s| < width then width else |s|
    ensures forall i :: 0 <= i < |r| - |s| ==> r[i] == '0'
    ensures r[|r| - |s|..] == s
    decreases width - |s|
  {
    if |s| >= width then s else PadLeft("0" + s, width)
  }

  function Abs(n: int): nat {
    if n < 0 then -n else n
  }

  /**
   * `${x}`: a '-' for a negative number, then the digits of `|units|`, padded with leading zeros
   * to more than `places` digits, with a '.' in front of the last `places` of them when there are
   * any: 5 with 2 places shows as "0.05", 1234 with 2 places as "12.34".
   */
  function Show(x: Num): (s: string)
    ensures |s| > 0
    ensures (s[0] == '-') <==> x.units < 0
  {
    var sign := if x.units < 0 then "-" else "";
    var digits := PadLeft(Strings.NatToString(Abs(x.units)), x.places + 1);
    var point := |digits| - x.places;
    if x.places == 0 then sign + digits
    else sign + digits[..point] + "." + digits[point..]
  }

  predicate Digits(s: string) {
    forall i :: 0 <= i < |s| ==> Strings.IsDigit(s[i])
  }

  /** A rendering is digits with at most a leading '-', and has a '.' exactly when the number has places. */
  lemma ShowChars(x: Num)
    ensures forall i :: 0 <= i < |Show(x)| ==> Strings.IsDigit(Show(x)[i]) || Show(x)[i] == '-' || Show(x)[i] == '.'
    ensures forall i :: 0 < i < |Show(x)| ==> Show(x)[i] != '-'
    ensures ('.' in Show(x)) <==> x.places > 0
  {
    var sign := if x.units < 0 then "-" else "";
    var digits := ShownDigits(x);
    var point := |digits| - x.places;
    if x.places == 0 {
      assert Show(x) == sign + digits;
      NumeralChars(sign, digits, Show(x));
    } else {
      assert Show(x) == sign + digits[..point] + "." + digits[point..];
      FractionChars(sign, digits[..point], digits[point..], Show(x));
    }
  }

  /** The digits `Show` splits at the point. */
  function ShownDigits(x: Num): (digits: string)
    ensures |digits| > x.places && Digits(digits[..|digits| - x.places]) && Digits(digits[|digits| - x.places..])
    ensures digits == PadLeft(Strings.NatToString(Abs(x.units)), x.places + 1)
  {
    var natural := Strings.NatToString(Abs(x.units));
    assert Digits(natural);
    PadLeftDigits(natural, x.places + 1);
    PadLeft(natural, x.places + 1)
  }

  lemma PadLeftDigits(s: string, width: nat)
    requires Digits(s)
    ensures Digits(PadLeft(s, width))
  {
    var r := PadLeft(s, width);
    assert forall i :: |r| - |s| <= i < |r| ==> r[i] == r[|r| - |s|..][i - (|r| - |s|)];
  }

  /** A sign and digits: no '.', and no '-' but a leading one. */
  lemma NumeralChars(sign: string, whole: string, s: string)
    requires sign == "" || sign == "-"
    requires Digits(whole) && s == sign + whole
    ensures forall i :: 0 <= i < |s| ==> Strings.IsDigit(s[i]) || s[i] == '-'
    ensures forall i :: 0 < i < |s| ==> s[i] != '-'
    ensures '.' !in s
  {
    assert forall i :: |sign| <= i < |s| ==> s[i] == whole[i - |sign|];
  }

  /** A sign, digits, a '.' and digits. */
  lemma FractionChars(sign: string, whole: string, fraction: string, s: string)
    requires sign == "" || sign == "-"
    requires Digits(whole) && Digits(fraction) && s == sign + whole + "." + fraction
    ensures forall i :: 0 <= i < |s| ==> Strings.IsDigit(s[i]) || s[i] == '-' || s[i] == '.'
    ensures forall i :: 0 < i < |s| ==> s[i] != '-'
    ensures '.' in s
  {
    var n := |sign + whole|;
    NumeralChars(sign, whole, sign + whole);
    assert s[n] == '.';
    assert forall i :: 0 <= i < n ==> s[i] == (sign + whole)[i];
    assert forall i :: n < i < |s| ==> s[i] == fraction[i - n - 1];
  }

  /** An integer shows as its decimal digits, with a '-' when it is negative. */
  lemma ShowInt(n: int)
    ensures Show(Int(n)) == (if n < 0 then "-" else "") + Strings.NatToString(Abs(n))
  {
  }
}
