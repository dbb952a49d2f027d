/** Decimal text: 64-bit values written and read back, and milli-unit quantities as people write them. */
module Decimal {
  import opened Units
  import opened Catalog

  const WRAP := 0x1_0000_0000_0000_0000

  predicate IsDigit(c: char) {
    '0' <= c <= '9'
  }

  function DigitOf(c: char): nat
    requires IsDigit(c)
  {
    c as int - '0' as int
  }

  function DigitChar(d: nat): char
    requires d < 10
  {
    ('0' as int + d) as char
  }

  predicate AllDigits(s: string) {
    forall i | 0 <= i < |s| :: IsDigit(s[i])
  }

  /** The number a string of digits denotes, however long. */
  function ValueOf(s: string): nat
    requires AllDigits(s)
  {
    if s == "" then 0 else 10 * ValueOf(s[..|s| - 1]) + DigitOf(s[|s| - 1])
  }

  function Pow10(k: nat): nat {
    if k == 0 then 1 else 10 * Pow10(k - 1)
  }

  lemma {:induction false} ValueBelow(s: string)
    requires AllDigits(s)
    ensures ValueOf(s) < Pow10(|s|)
  {
    if s != "" {
      ValueBelow(s[..|s| - 1]);
    }
  }

  lemma {:induction false} ValueAtLeast(s: string)
    requires AllDigits(s) && s != "" && s[0] != '0'
    ensures Pow10(|s| - 1) <= ValueOf(s)
  {
    if |s| > 1 {
      ValueAtLeast(s[..|s| - 1]);
    } else {
      assert ValueOf(s) == 10 * ValueOf("") + DigitOf(s[0]);
    }
  }

  lemma {:induction false} Pow10Grows(a: nat, b: nat)
    requires a <= b
    ensures 0 < Pow10(a) <= Pow10(b)
  {
    if a < b {
      Pow10Grows(a, b - 1);
    } else if a > 0 {
      Pow10Grows(a - 1, a - 1);
    }
  }

  /** The decimal digits of a number, without leading zeros. */
  function Digits(n: nat): string {
    if n < 10 then [DigitChar(n)] else Digits(n / 10) + [DigitChar(n % 10)]
  }

  /** Writing a number and reading its digits is the identity. */
  lemma {:induction false} DigitsDenote(n: nat)
    ensures Digits(n) != "" && AllDigits(Digits(n)) && ValueOf(Digits(n)) == n
    ensures Digits(n)[0] == '0' ==> n == 0
    ensures |Digits(n)| > 1 ==> Digits(n)[0] != '0'
  {
    var s := Digits(n);
    if n >= 10 {
      DigitsDenote(n / 10);
      assert s[..|s| - 1] == Digits(n / 10);
    } else {
      assert s[..0] == "";
    }
  }

  /** A canonical string of digits is the one that number is written as. */
  lemma {:induction false} DigitsAreCanonical(s: string)
    requires AllDigits(s) && s != "" && (|s| > 1 ==> s[0] != '0')
    ensures Digits(ValueOf(s)) == s
  {
    var init, last := s[..|s| - 1], DigitOf(s[|s| - 1]);
    assert s == init + [s[|s| - 1]];
    if |s| > 1 {
      DigitsAreCanonical(init);
      ValueAtLeast(init);
      Pow10Grows(0, |init| - 1);
      assert ValueOf(s) / 10 == ValueOf(init) && ValueOf(s) % 10 == last;
    }
  }

  /** No number of at most k digits needs more than k of them. */
  lemma DigitsAreShort(n: nat, k: nat)
    requires n < Pow10(k) && 0 < k
    ensures |Digits(n)| <= k
  {
    DigitsDenote(n);
    if |Digits(n)| > k {
      ValueAtLeast(Digits(n));
      Pow10Grows(k, |Digits(n)| - 1);
    }
  }

  lemma TwentyDigits()
    ensures Pow10(19) == 10000000000000000000 && Pow10(19) < WRAP < Pow10(20)
    ensures INT64_MAX + 1 < Pow10(19) && Pow10(20) < 10 * WRAP
  {
    assert Pow10(5) == 100000;
    assert Pow10(10) == 10000000000;
    assert Pow10(15) == 1000000000000000;
  }

  function ToDecimal(v: int): string {
    if v < 0 then "-" + Digits(-v) else Digits(v)
  }

  // ----- the strict parsers -----

  function Body(s: string): string {
    if s != "" && s[0] == '-' then s[1..] else s
  }

  predicate Canonical(body: string) {
    body != "" && AllDigits(body) && (body[0] == '0' ==> |body| == 1)
  }

  /** The parsers accumulate in 64 bits and look for wrap-around by asking whether the sum went down. */
  predicate Unnoticed(v: nat) {
    v < WRAP || v % WRAP >= v / 10
  }

  /** What the signed parser accepts, and as what. */
  function Parsed(s: string): Option<int> {
    var body := Body(s);
    if |s| > 20 || !Canonical(body) || !Unnoticed(ValueOf(body)) then None
    else
      var mag := ValueOf(body) % WRAP;
      if body == s then (if mag <= INT64_MAX then Some(mag) else None)
      else if mag <= INT64_MAX + 1 then Some(-mag) else None
  }

  function ParsedUnsigned(s: string): Option<int> {
    if |s| > 20 || !Canonical(s) || !Unnoticed(ValueOf(s)) then None else Some(ValueOf(s) % WRAP)
  }

  /** One digit more: the accumulator is the true value as long as that fits, and the check passes
      exactly when the wrap, if any, goes unnoticed. */
  lemma StepIsExact(s: string, k: nat, mag: nat)
    requires AllDigits(s) && k < |s| <= 20 && mag == ValueOf(s[..k])
    ensures AllDigits(s[..k + 1]) && ValueOf(s[..k + 1]) == 10 * mag + DigitOf(s[k])
    ensures mag < Pow10(19) < WRAP
    ensures (10 * mag + DigitOf(s[k])) % WRAP >= mag <==> Unnoticed(ValueOf(s[..k + 1]))
    ensures k + 1 < |s| ==> ValueOf(s[..k + 1]) < WRAP
  {
    TwentyDigits();
    assert s[..k + 1][..k] == s[..k];
    ValueBelow(s[..k]);
    ValueBelow(s[..k + 1]);
    Pow10Grows(k, 19);
    if k + 1 < |s| {
      Pow10Grows(k + 1, 19);
    }
  }

  /** The digit loop, over the digits after any sign. */
  method Accumulate(body: string) returns (mag: Option<nat>)
    requires body != "" && |body| <= 20
    ensures mag == if AllDigits(body) && Unnoticed(ValueOf(body)) then Some(ValueOf(body) % WRAP) else None
  {
    hide ValueOf, Unnoticed;
    var m: nat := 0;
    NothingYet(body);
    for i := 0 to |body|
      invariant AllDigits(body[..i]) && m == ValueOf(body[..i]) % WRAP && Unnoticed(ValueOf(body[..i]))
      invariant i < |body| ==> m == ValueOf(body[..i])
    {
      if !IsDigit(body[i]) {
        return None;
      }
      assert body[..i + 1] == body[..i] + [body[i]];
      PrefixStep(body, i, m);
      var next := (m * 10 + DigitOf(body[i])) % WRAP;
      if next < m {
        WrapStays(body, i);
        return None;
      }
      m := next;
    }
    assert body[..|body|] == body;
    mag := Some(m);
  }

  lemma NothingYet(body: string)
    ensures body[..0] == "" && ValueOf("") == 0 && Unnoticed(0) && 0 % WRAP == 0
  {
  }

  lemma PrefixStep(body: string, i: nat, m: nat)
    requires i < |body| <= 20 && AllDigits(body[..i]) && IsDigit(body[i]) && m == ValueOf(body[..i])
    ensures AllDigits(body[..i + 1]) && (m * 10 + DigitOf(body[i])) % WRAP == ValueOf(body[..i + 1]) % WRAP
    ensures (m * 10 + DigitOf(body[i])) % WRAP >= m <==> Unnoticed(ValueOf(body[..i + 1]))
    ensures i + 1 < |body| ==> ValueOf(body[..i + 1]) < WRAP && ValueOf(body[..i + 1]) % WRAP == ValueOf(body[..i + 1])
  {
    hide ValueOf, Unnoticed, Pow10;
    var s := body[..i + 1];
    assert s[..i] == body[..i];
    forall k | 0 <= k < |s| ensures IsDigit(s[k]) {
      if k < i {
        assert s[k] == body[..i][k];
      }
    }
    StepIsExact(s, i, m);
    assert s[..i + 1] == s;
    if i + 1 < |body| {
      TwentyDigits();
      ValueBelow(s);
      Pow10Grows(i + 1, 19);
    }
  }

  /** Only the twentieth digit can wrap, so a wrap that is noticed is noticed at the end. */
  lemma WrapStays(body: string, i: nat)
    requires i < |body| <= 20 && AllDigits(body[..i + 1]) && !Unnoticed(ValueOf(body[..i + 1]))
    ensures i + 1 == |body| && body[..i + 1] == body
  {
    hide ValueOf, Pow10;
    TwentyDigits();
    ValueBelow(body[..i + 1]);
    if i + 1 < |body| {
      Pow10Grows(i + 1, 19);
    }
  }

  method ParseDecimal(s: string) returns (v: Option<int>)
    ensures v == Parsed(s)
  {
    hide ValueOf, Unnoticed;
    if s == "" || |s| > 20 {
      return None;
    }
    var neg := s[0] == '-';
    var i := if neg then 1 else 0;
    assert s[i..] == Body(s);
    if neg && |s| == 1 {
      return None;
    }
    if s[i] == '0' && |s| > i + 1 {
      assert Body(s)[0] == '0';
      return None;
    }
    var mag := Accumulate(s[i..]);
    if mag.None? {
      return None;
    }
    if !neg {
      assert Body(s) == s;
      return if mag.value > INT64_MAX then None else Some(mag.value);
    }
    assert |Body(s)| < |s|;
    return if mag.value > INT64_MAX + 1 then None else Some(-mag.value);
  }

  method ParseDecimalUnsigned(s: string) returns (v: Option<int>)
    ensures v == ParsedUnsigned(s)
  {
    hide ValueOf, Unnoticed;
    if s == "" || |s| > 20 || (s[0] == '0' && |s| > 1) {
      return None;
    }
    var mag := Accumulate(s);
    v := if mag.None? then None else Some(mag.value);
  }

  /** Every 64-bit value reads back as itself. */
  lemma DecimalRoundTrip(v: int)
    requires IsInt64(v)
    ensures Parsed(ToDecimal(v)) == Some(v)
  {
    hide ValueOf, Digits, Pow10;
    var n := if v < 0 then -v else v;
    TwentyDigits();
    DigitsDenote(n);
    DigitsAreShort(n, 19);
    assert Body(ToDecimal(v)) == Digits(n);
  }

  lemma UnsignedRoundTrip(v: nat)
    requires v < WRAP
    ensures ParsedUnsigned(Digits(v)) == Some(v)
  {
    hide ValueOf, Digits, Pow10;
    TwentyDigits();
    DigitsDenote(v);
    DigitsAreShort(v, 20);
  }

  /** The number a well-formed signed string denotes. */
  function Denoted(s: string): int
    requires AllDigits(Body(s))
  {
    var magnitude: int := ValueOf(Body(s));
    if Body(s) == s then magnitude else -magnitude
  }

  /** An accepted string of at most 19 digits denotes its value, and nothing in range is refused. */
  lemma ShortStringsAreTrue(s: string)
    requires |Body(s)| <= 19
    ensures Parsed(s).Some? <==> Canonical(Body(s)) && IsInt64(Denoted(s))
    ensures Parsed(s).Some? ==> Parsed(s).value == Denoted(s)
  {
    hide ValueOf, Pow10;
    TwentyDigits();
    if AllDigits(Body(s)) {
      ValueBelow(Body(s));
      Pow10Grows(|Body(s)|, 19);
    }
  }

  /** A string is accepted as something it does not denote exactly when its twenty digits wrap around
      and land above a tenth of themselves, within the signed range. */
  lemma FalselyAccepted(s: string)
    requires Canonical(Body(s))
    ensures (Parsed(s).Some? && Parsed(s).value != Denoted(s))
            <==> |s| == 20 && WRAP <= ValueOf(Body(s)) && ValueOf(Body(s)) / 10 <= ValueOf(Body(s)) % WRAP <= INT64_MAX
  {
    hide ValueOf, Pow10;
    TwentyDigits();
    ValueBelow(Body(s));
    if |Body(s)| <= 19 {
      Pow10Grows(|Body(s)|, 19);
    }
  }

  /** The unsigned parser has the same wrap test, and no range left to catch what lands within it. */
  lemma FalselyAcceptedUnsigned(s: string)
    requires Canonical(s)
    ensures (ParsedUnsigned(s).Some? && ParsedUnsigned(s).value != ValueOf(s))
            <==> |s| == 20 && WRAP <= ValueOf(s) && ValueOf(s) / 10 <= ValueOf(s) % WRAP
    ensures |s| <= 20 && ValueOf(s) < WRAP ==> ParsedUnsigned(s) == Some(ValueOf(s))
  {
    hide ValueOf, Pow10;
    TwentyDigits();
    ValueBelow(s);
    if |s| <= 19 {
      Pow10Grows(|s|, 19);
    }
  }

  function Zeros(k: nat): string {
    seq(k, i => '0')
  }

  lemma {:induction false} ValueShifted(s: string, k: nat)
    requires AllDigits(s)
    ensures ValueOf(s + Zeros(k)) == ValueOf(s) * Pow10(k)
  {
    var t := s + Zeros(k);
    if k == 0 {
      assert t == s;
    } else {
      assert t[..|t| - 1] == s + Zeros(k - 1);
      ValueShifted(s, k - 1);
    }
  }

  /** 22 * 10^18 is read as 22 * 10^18 - 2^64. */
  lemma ATwentyDigitString()
    ensures Parsed("22000000000000000000") == Some(3553255926290448384)
    ensures ParsedUnsigned("22000000000000000000") == Some(3553255926290448384)
    ensures Denoted("22000000000000000000") == 22000000000000000000
  {
    var s := "22000000000000000000";
    assert ValueOf("22") == 22 by {
      assert ValueOf("2") == 2 by {
        assert "2"[..0] == "";
      }
      assert "22"[..1] == "2";
    }
    ValueShifted("22", 18);
    assert Pow10(18) == 1000000000000000000 by {
      TwentyDigits();
    }
    hide ValueOf, Pow10;
    assert s == "22" + Zeros(18);
    assert Body(s) == s;
  }
}
