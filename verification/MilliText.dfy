/** Milli-unit quantities as people write them: 3280 is "3.28", and scripts read it back. */
module MilliText {
  import opened Units
  import opened Decimal

  // ----- writing -----

  /** Three digits with trailing zeros dropped. */
  function Fraction(frac: nat): string
    requires 0 < frac < 1000
  {
    var a, b, c := DigitChar(frac / 100), DigitChar(frac / 10 % 10), DigitChar(frac % 10);
    if c != '0' then [a, b, c] else if b != '0' then [a, b] else [a]
  }

  function MilliString(v: int): string {
    var mag := if v < 0 then -v else v;
    (if v < 0 then "-" else "") + Digits(mag / 1000) + (if mag % 1000 == 0 then "" else "." + Fraction(mag % 1000))
  }

  /** The fraction with its leading zeros. */
  function Padded(frac: nat): string
    requires frac < 1000
  {
    [DigitChar(frac / 100), DigitChar(frac / 10 % 10), DigitChar(frac % 10)]
  }

  lemma DigitsAppend(m: nat, c: nat)
    requires 0 < m && c < 10
    ensures Digits(10 * m + c) == Digits(m) + [DigitChar(c)]
  {
    assert (10 * m + c) / 10 == m && (10 * m + c) % 10 == c;
  }

  lemma DigitsOfOne(n: nat)
    requires n < 10
    ensures Digits(n) == [DigitChar(n)]
  {
  }

  lemma DigitsOfTwo(n: nat)
    requires 10 <= n < 100
    ensures Digits(n) == [DigitChar(n / 10), DigitChar(n % 10)]
  {
    hide Digits, DigitChar;
    DigitsAppend(n / 10, n % 10);
    DigitsOfOne(n / 10);
  }

  lemma DigitsOfThree(n: nat)
    requires 100 <= n < 1000
    ensures Digits(n) == [DigitChar(n / 100), DigitChar(n / 10 % 10), DigitChar(n % 10)]
  {
    hide Digits, DigitChar;
    DigitsAppend(n / 10, n % 10);
    DigitsOfTwo(n / 10);
    assert n / 10 / 10 == n / 100;
  }

  lemma DigitsArePadded(frac: nat)
    requires 0 < frac < 1000
    ensures |Padded(frac)| == 3 && 1 <= |Digits(frac)| <= 3 && Digits(frac) == Padded(frac)[3 - |Digits(frac)|..]
    ensures forall k | 0 <= k < 3 - |Digits(frac)| :: Padded(frac)[k] == '0'
  {
    hide Digits, DigitChar;
    OneDigit(0);
    if frac < 10 {
      DigitsOfOne(frac);
    } else if frac < 100 {
      DigitsOfTwo(frac);
    } else {
      DigitsOfThree(frac);
    }
  }

  /** Trailing zeros off. */
  function Trimmed(f: string): string {
    if f != "" && f[|f| - 1] == '0' then Trimmed(f[..|f| - 1]) else f
  }

  lemma TrimmedAfter(s: string, c: char)
    ensures Trimmed(s + [c]) == if c == '0' then Trimmed(s) else s + [c]
  {
    assert (s + [c])[..|s|] == s;
  }

  lemma FractionIsTrimmed(frac: nat)
    requires 0 < frac < 1000
    ensures Trimmed(Padded(frac)) == Fraction(frac)
  {
    hide DigitChar, Trimmed;
    var a, b, c := frac / 100, frac / 10 % 10, frac % 10;
    assert frac == 100 * a + 10 * b + c;
    OneDigit(a);
    OneDigit(b);
    OneDigit(c);
    TrimmedAfter([], DigitChar(a));
    TrimmedAfter([DigitChar(a)], DigitChar(b));
    TrimmedAfter([DigitChar(a), DigitChar(b)], DigitChar(c));
    assert [] + [DigitChar(a)] == [DigitChar(a)];
    assert [DigitChar(a)] + [DigitChar(b)] == [DigitChar(a), DigitChar(b)];
    assert [DigitChar(a), DigitChar(b)] + [DigitChar(c)] == Padded(frac);
  }

  /** Pads the fraction to three digits, then drops trailing zeros. */
  method TrimFraction(frac: nat) returns (f: string)
    requires 0 < frac < 1000
    ensures f == Fraction(frac)
  {
    hide Digits, Padded, Fraction;
    DigitsArePadded(frac);
    FractionIsTrimmed(frac);
    f := Digits(frac);
    ghost var padded := Padded(frac);
    while |f| < 3
      invariant 1 <= |f| <= 3 && f == padded[3 - |f|..] && forall k | 0 <= k < 3 - |f| :: padded[k] == '0'
      decreases 3 - |f|
    {
      f := "0" + f;
    }
    assert f == padded;
    while f != "" && f[|f| - 1] == '0'
      invariant Trimmed(f) == Trimmed(padded)
      decreases |f|
    {
      f := f[..|f| - 1];
    }
  }

  method FormatMilli(v: int) returns (out: string)
    requires IsInt64(v)
    ensures out == MilliString(v)
  {
    var neg := v < 0;
    var mag := if neg then -v else v;
    out := (if neg then "-" else "") + Digits(mag / 1000);
    if mag % 1000 != 0 {
      var f := TrimFraction(mag % 1000);
      out := out + "." + f;
    }
  }

  // ----- reading -----

  /** A number, text that is not one, or a value the 64-bit arithmetic overflows on. */
  datatype Read = Number(value: int) | NotANumber | Overflows

  predicate Signed(s: string) {
    s != "" && (s[0] == '-' || s[0] == '+')
  }

  function Unsigned(s: string): string {
    if Signed(s) then s[1..] else s
  }

  /** Where the point is, or the end. */
  function Point(s: string): nat {
    if s == "" || s[0] == '.' then 0 else 1 + Point(s[1..])
  }

  lemma {:induction false} PointIsFirst(s: string)
    ensures Point(s) <= |s| && (Point(s) < |s| ==> s[Point(s)] == '.')
    ensures forall i | 0 <= i < Point(s) :: s[i] != '.'
  {
    if s != "" && s[0] != '.' {
      PointIsFirst(s[1..]);
      assert forall i | 1 <= i < |s| :: s[i] == s[1..][i - 1];
    }
  }

  lemma PointIsUnique(s: string, k: nat)
    requires k <= |s| && (k < |s| ==> s[k] == '.') && forall i | 0 <= i < k :: s[i] != '.'
    ensures Point(s) == k
  {
    PointIsFirst(s);
  }

  /** The first three fraction digits as thousandths; the rest are dropped. */
  function Thousandths(frac: string): nat
    requires AllDigits(frac)
  {
    var kept := frac[..Min(3, |frac|)];
    ValueOf(kept) * Pow10(3 - |kept|)
  }

  function Whole(s: string): string
  {
    PointIsFirst(s);
    s[..Point(s)]
  }

  function Rest(s: string): string
  {
    PointIsFirst(s);
    if Point(s) < |s| then s[Point(s) + 1..] else ""
  }

  /** What a script's number reads as. */
  function NumberOf(s: string): Read {
    var u := Unsigned(s);
    if !AllDigits(Whole(u)) || !AllDigits(Rest(u)) || Whole(u) + Rest(u) == "" then NotANumber
    else
      var value := ValueOf(Whole(u)) * 1000 + Thousandths(Rest(u));
      if value > INT64_MAX then Overflows
      else Number(if s != "" && s[0] == '-' then -value else value)
  }

  method ReadWhole(s: string) returns (ok: bool, whole: nat, i: nat)
    ensures i <= |s|
    ensures ok <==> AllDigits(Whole(s))
    ensures ok ==> i == Point(s) && whole == ValueOf(Whole(s))
  {
    hide ValueOf;
    PointIsFirst(s);
    whole, i := 0, 0;
    NothingYet(s);
    while i < |s| && s[i] != '.'
      invariant i <= Point(s) && AllDigits(s[..i]) && whole == ValueOf(s[..i])
    {
      if !IsDigit(s[i]) {
        assert Whole(s)[i] == s[i];
        return false, whole, i;
      }
      NextDigit(s, i);
      whole := whole * 10 + DigitOf(s[i]);
      i := i + 1;
    }
    ok := true;
  }

  lemma NextDigit(s: string, i: nat)
    requires i < |s| && AllDigits(s[..i]) && IsDigit(s[i])
    ensures AllDigits(s[..i + 1]) && ValueOf(s[..i + 1]) == 10 * ValueOf(s[..i]) + DigitOf(s[i])
  {
    assert s[..i + 1] == s[..i] + [s[i]];
    assert s[..i + 1][..i] == s[..i];
  }

  method ReadFraction(f: string) returns (ok: bool, frac: nat)
    ensures ok <==> AllDigits(f)
    ensures ok ==> frac == Thousandths(f)
  {
    hide ValueOf;
    var digits: nat := 0;
    frac := 0;
    NothingYet(f);
    for j := 0 to |f|
      invariant AllDigits(f[..j]) && digits == Min(3, j) && frac == ValueOf(f[..digits])
    {
      if !IsDigit(f[j]) {
        return false, 0;
      }
      assert f[..j + 1] == f[..j] + [f[j]];
      if digits < 3 {
        NextDigit(f, j);
        frac := frac * 10 + DigitOf(f[j]);
        digits := digits + 1;
      }
    }
    assert f[..|f|] == f;
    ghost var kept, value := digits, frac;
    assert Pow10(0) == 1;
    while digits < 3
      invariant kept <= digits <= 3 && frac == value * Pow10(digits - kept)
    {
      frac := frac * 10;
      digits := digits + 1;
    }
    ok := true;
  }

  method ParseNumber(s: string) returns (r: Read)
    ensures r == NumberOf(s)
  {
    hide ValueOf, Thousandths;
    var negative := s != "" && s[0] == '-';
    var u := if s != "" && (s[0] == '-' || s[0] == '+') then s[1..] else s;
    PointIsFirst(u);
    var ok, whole, i := ReadWhole(u);
    if !ok {
      return NotANumber;
    }
    var any, frac := i > 0, 0;
    if i < |u| {
      ok, frac := ReadFraction(u[i + 1..]);
      if !ok {
        return NotANumber;
      }
      any := any || |u| > i + 1;
    } else {
      NoFraction();
    }
    if !any {
      return NotANumber;
    }
    var value := whole * 1000 + frac;
    r := if value > INT64_MAX then Overflows else Number(if negative then -value else value);
  }

  lemma NoFraction()
    ensures Thousandths("") == 0
  {
    assert ""[..0] == "";
  }

  method ParseInteger(s: string) returns (v: Read)
    ensures v.Number? <==> NumberOf(s).Number? && NumberOf(s).value % 1000 == 0
    ensures v.Number? ==> NumberOf(s).value == 1000 * v.value
    ensures NumberOf(s).Overflows? ==> v.Overflows?
  {
    var n := ParseNumber(s);
    if !n.Number? {
      return n;
    }
    if n.value % 1000 != 0 {
      return NotANumber;
    }
    v := Number(TruncDiv(n.value, 1000));
    TruncRemainder(n.value, 1000);
  }

  // ----- there and back -----

  lemma OneDigit(d: nat)
    requires d < 10
    ensures AllDigits([DigitChar(d)]) && ValueOf([DigitChar(d)]) == d && (DigitChar(d) == '0' <==> d == 0)
  {
    assert [DigitChar(d)][..0] == "";
  }

  lemma MoreDigits(s: string, d: nat)
    requires AllDigits(s) && d < 10
    ensures AllDigits(s + [DigitChar(d)]) && ValueOf(s + [DigitChar(d)]) == 10 * ValueOf(s) + d
  {
    assert (s + [DigitChar(d)])[..|s|] == s;
  }

  /** A trimmed fraction reads back as the thousandths it was. */
  lemma FractionRoundTrip(frac: nat)
    requires 0 < frac < 1000
    ensures AllDigits(Fraction(frac)) && Thousandths(Fraction(frac)) == frac && Fraction(frac) != ""
  {
    hide ValueOf, DigitChar;
    var a, b, c := frac / 100, frac / 10 % 10, frac % 10;
    var f := Fraction(frac);
    OneDigit(a);
    OneDigit(b);
    OneDigit(c);
    MoreDigits([DigitChar(a)], b);
    MoreDigits([DigitChar(a)] + [DigitChar(b)], c);
    assert f[..|f|] == f;
    assert Pow10(0) == 1 && Pow10(1) == 10 && Pow10(2) == 100;
    assert frac == 100 * a + 10 * b + c;
    if c != 0 {
      assert f == [DigitChar(a)] + [DigitChar(b)] + [DigitChar(c)];
    } else if b != 0 {
      assert f == [DigitChar(a)] + [DigitChar(b)];
    }
  }

  /** Text with one sign at most, digits, and a point only before further digits splits as written. */
  lemma SplitsAsWritten(neg: bool, w: string, f: string)
    requires AllDigits(w) && w != "" && AllDigits(f)
    ensures var u := w + (if f == "" then "" else "." + f);
            && Unsigned((if neg then "-" else "") + u) == u && Whole(u) == w && Rest(u) == f
  {
    hide ValueOf;
    var u := w + (if f == "" then "" else "." + f);
    var t := (if neg then "-" else "") + u;
    assert u[0] == w[0] && IsDigit(w[0]);
    if neg {
      assert t[0] == '-' && t[1..] == u;
    } else {
      assert t == u && !Signed(u);
    }
    PointIsUnique(u, |w|);
    assert u[..|w|] == w;
    if f != "" {
      assert u[|w| + 1..] == f;
    }
  }

  /** Every quantity written and read back is itself, except the one 64-bit value whose magnitude does
      not fit: reading that one overflows. */
  lemma MilliRoundTrip(v: int)
    requires IsInt64(v)
    ensures NumberOf(MilliString(v)) == if v == INT64_MIN then Overflows else Number(v)
  {
    hide ValueOf, Thousandths, Fraction, Digits, Unsigned, Whole, Rest;
    var mag: nat := if v < 0 then -v else v;
    var w, f := Digits(mag / 1000), if mag % 1000 == 0 then "" else Fraction(mag % 1000);
    DigitsDenote(mag / 1000);
    NoFraction();
    if mag % 1000 != 0 {
      FractionRoundTrip(mag % 1000);
    }
    SplitsAsWritten(v < 0, w, f);
    var u := w + (if f == "" then "" else "." + f);
    assert MilliString(v) == (if v < 0 then "-" else "") + u;
    assert mag == (mag / 1000) * 1000 + mag % 1000;
    assert IsDigit(w[0]) && u[0] == w[0];
  }
}
