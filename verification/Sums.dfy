/** Totals over a sequence, the form every count and balance of the kernel takes. */
module Sums {

  function Sum<T>(s: seq<T>, f: T -> int): int {
    if s == [] then 0 else Sum(s[..|s| - 1], f) + f(s[|s| - 1])
  }

  lemma SumEmpty<T>(f: T -> int)
    ensures Sum([], f) == 0
  {
  }

  lemma SumAppend<T>(s: seq<T>, x: T, f: T -> int)
    ensures Sum(s + [x], f) == Sum(s, f) + f(x)
  {
    assert (s + [x])[..|s|] == s;
  }

  lemma {:induction false} SumConcat<T>(s: seq<T>, t: seq<T>, f: T -> int)
    ensures Sum(s + t, f) == Sum(s, f) + Sum(t, f)
  {
    if t == [] {
      assert s + t == s;
    } else {
      var m := |t| - 1;
      assert (s + t)[..|s + t| - 1] == s + t[..m];
      SumConcat(s, t[..m], f);
    }
  }

  lemma SumSingleton<T>(x: T, f: T -> int)
    ensures Sum([x], f) == f(x)
  {
    assert [x][..0] == [];
  }

  /** A total splits around any one element. */
  lemma SumAround<T>(s: seq<T>, i: nat, f: T -> int)
    requires i < |s|
    ensures Sum(s, f) == Sum(s[..i], f) + f(s[i]) + Sum(s[i + 1..], f)
  {
    assert s == (s[..i] + [s[i]]) + s[i + 1..];
    SumConcat(s[..i] + [s[i]], s[i + 1..], f);
    SumAppend(s[..i], s[i], f);
  }

  lemma SumUpdate<T>(s: seq<T>, i: nat, x: T, f: T -> int)
    requires i < |s|
    ensures Sum(s[i := x], f) == Sum(s, f) - f(s[i]) + f(x)
  {
    var t := s[i := x];
    SumAround(s, i, f);
    SumAround(t, i, f);
    assert t[..i] == s[..i] && t[i + 1..] == s[i + 1..];
  }

  lemma SumRemove<T>(s: seq<T>, i: nat, f: T -> int)
    requires i < |s|
    ensures Sum(s[..i] + s[i + 1..], f) == Sum(s, f) - f(s[i])
  {
    SumAround(s, i, f);
    SumConcat(s[..i], s[i + 1..], f);
  }

  lemma {:induction false} SumNonNegative<T>(s: seq<T>, f: T -> int)
    requires forall i | 0 <= i < |s| :: 0 <= f(s[i])
    ensures 0 <= Sum(s, f)
  {
    if s != [] {
      SumNonNegative(s[..|s| - 1], f);
    }
  }

  /** With no negative terms, one element never exceeds the total. */
  lemma SumAtLeast<T>(s: seq<T>, i: nat, f: T -> int)
    requires i < |s|
    requires forall k | 0 <= k < |s| :: 0 <= f(s[k])
    ensures f(s[i]) <= Sum(s, f)
  {
    SumAround(s, i, f);
    SumNonNegative(s[..i], f);
    SumNonNegative(s[i + 1..], f);
  }

  lemma {:induction false} SumSame<T>(s: seq<T>, f: T -> int, g: T -> int)
    requires forall i | 0 <= i < |s| :: f(s[i]) == g(s[i])
    ensures Sum(s, f) == Sum(s, g)
  {
    if s != [] {
      SumSame(s[..|s| - 1], f, g);
    }
  }

  lemma {:induction false} SumZero<T>(s: seq<T>, f: T -> int)
    requires forall i | 0 <= i < |s| :: f(s[i]) == 0
    ensures Sum(s, f) == 0
  {
    if s != [] {
      SumZero(s[..|s| - 1], f);
    }
  }
}
