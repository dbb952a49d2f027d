/** Fixed-point units and the exact integer arithmetic of units.hpp and units.cpp. */
module Units {

  const BP_ONE := 10000
  const MILLI_ONE := 1000
  const INT64_MIN := -0x8000_0000_0000_0000
  const INT64_MAX := 0x7FFF_FFFF_FFFF_FFFF

  predicate IsInt64(v: int) {
    INT64_MIN <= v <= INT64_MAX
  }

  /** A checked operation either yields its exact value or raises the simulation's error. */
  datatype Checked = Value(value: int) | Overflow | BadDivisor

  /** The host language's division: the quotient is rounded toward zero. */
  function TruncDiv(n: int, d: int): int
    requires d > 0
  {
    if n >= 0 then n / d else -(-n / d)
  }

  function MulDivFloor(a: int, b: int, c: int): Checked {
    if c <= 0 then BadDivisor
    else
      var wide := a * b;
      var q := TruncDiv(wide, c);
      var exact := if wide - q * c != 0 && wide < 0 then q - 1 else q;
      if IsInt64(exact) then Value(exact) else Overflow
  }

  function MulDivCeil(a: int, b: int, c: int): Checked {
    if c <= 0 then BadDivisor
    else
      var wide := a * b;
      var q := TruncDiv(wide, c);
      var exact := if wide - q * c != 0 && wide > 0 then q + 1 else q;
      if IsInt64(exact) then Value(exact) else Overflow
  }

  /** The unique quotient of a rounding-down division, for either sign of the numerator. */
  ghost predicate IsFloor(q: int, n: int, d: int) {
    q * d <= n < (q + 1) * d
  }

  ghost predicate IsCeil(q: int, n: int, d: int) {
    (q - 1) * d < n <= q * d
  }

  lemma FloorIsUnique(p: int, q: int, n: int, d: int)
    requires d > 0 && IsFloor(p, n, d) && IsFloor(q, n, d)
    ensures p == q
  {
    if p < q {
      MulMonotone(p + 1, q, d);
    } else if q < p {
      MulMonotone(q + 1, p, d);
    }
  }

  lemma CeilIsUnique(p: int, q: int, n: int, d: int)
    requires d > 0 && IsCeil(p, n, d) && IsCeil(q, n, d)
    ensures p == q
  {
    if p < q {
      MulMonotone(p, q - 1, d);
    } else if q < p {
      MulMonotone(q, p - 1, d);
    }
  }

  lemma MulMonotone(a: int, b: int, k: int)
    requires a <= b && 0 <= k
    ensures a * k <= b * k
  {
  }

  /** Division toward zero leaves a remainder smaller than the divisor, of the numerator's sign. */
  lemma TruncRemainder(n: int, d: int)
    requires d > 0
    ensures 0 <= n ==> 0 <= n - TruncDiv(n, d) * d < d
    ensures n < 0 ==> -d < n - TruncDiv(n, d) * d <= 0
  {
    if n >= 0 {
      assert n == (n / d) * d + n % d;
    } else {
      assert -n == (-n / d) * d + (-n) % d;
      assert (-(-n / d)) * d == -((-n / d) * d);
    }
  }

  /** The result is the true floor of the wide product, and the error is raised exactly when that
      floor does not fit in 64 bits. */
  lemma MulDivFloorExact(a: int, b: int, c: int, q: int)
    requires c > 0 && IsFloor(q, a * b, c)
    ensures MulDivFloor(a, b, c) == if IsInt64(q) then Value(q) else Overflow
  {
    hide TruncDiv;
    var wide := a * b;
    var t := TruncDiv(wide, c);
    TruncRemainder(wide, c);
    var exact := if wide - t * c != 0 && wide < 0 then t - 1 else t;
    FloorIsUnique(exact, q, wide, c);
  }

  lemma MulDivCeilExact(a: int, b: int, c: int, q: int)
    requires c > 0 && IsCeil(q, a * b, c)
    ensures MulDivCeil(a, b, c) == if IsInt64(q) then Value(q) else Overflow
  {
    hide TruncDiv;
    var wide := a * b;
    var t := TruncDiv(wide, c);
    TruncRemainder(wide, c);
    var exact := if wide - t * c != 0 && wide > 0 then t + 1 else t;
    CeilIsUnique(exact, q, wide, c);
  }

  /** floor(a * b / c) and ceil(a * b / c) on mathematical integers, for results known to fit. */
  function FloorOf(a: int, b: int, c: int): int
    requires c > 0
  {
    a * b / c
  }

  function CeilOf(a: int, b: int, c: int): int
    requires c > 0
  {
    -(-(a * b) / c)
  }

  lemma FloorOfIsFloor(a: int, b: int, c: int)
    requires c > 0
    ensures IsFloor(FloorOf(a, b, c), a * b, c)
  {
    var n := a * b;
    assert n == (n / c) * c + n % c;
  }

  lemma CeilOfIsCeil(a: int, b: int, c: int)
    requires c > 0
    ensures IsCeil(CeilOf(a, b, c), a * b, c)
  {
    var n := -(a * b);
    assert n == (n / c) * c + n % c;
    assert (-(n / c)) * c == -((n / c) * c);
  }

  /** A floor is at least k exactly when the exact quotient is: rounding down is a Galois adjoint. */
  lemma FloorAtLeast(a: int, b: int, c: int, k: int)
    requires c > 0
    ensures k <= FloorOf(a, b, c) <==> k * c <= a * b
  {
    hide FloorOf;
    var q := FloorOf(a, b, c);
    FloorOfIsFloor(a, b, c);
    if k <= q {
      MulMonotone(k, q, c);
    } else {
      MulMonotone(q + 1, k, c);
    }
  }

  lemma CeilAtMost(a: int, b: int, c: int, k: int)
    requires c > 0
    ensures CeilOf(a, b, c) <= k <==> a * b <= k * c
  {
    hide CeilOf;
    var q := CeilOf(a, b, c);
    CeilOfIsCeil(a, b, c);
    if q <= k {
      MulMonotone(q, k, c);
    } else {
      MulMonotone(k, q - 1, c);
    }
  }

  lemma FloorMonotone(a: int, b: int, b': int, c: int)
    requires c > 0 && 0 <= a && b <= b'
    ensures FloorOf(a, b, c) <= FloorOf(a, b', c)
  {
    hide FloorOf, CeilOf;
    MulMonotone(b, b', a);
    FloorAtLeast(a, b, c, FloorOf(a, b, c));
    FloorAtLeast(a, b', c, FloorOf(a, b, c));
  }

  lemma CeilMonotone(a: int, b: int, b': int, c: int)
    requires c > 0 && 0 <= a && b <= b'
    ensures CeilOf(a, b, c) <= CeilOf(a, b', c)
  {
    hide FloorOf, CeilOf;
    MulMonotone(b, b', a);
    CeilAtMost(a, b', c, CeilOf(a, b', c));
    CeilAtMost(a, b, c, CeilOf(a, b', c));
  }

  lemma FloorOfNat(a: int, b: int, c: int)
    requires c > 0 && 0 <= a && 0 <= b
    ensures 0 <= FloorOf(a, b, c)
    ensures 0 <= CeilOf(a, b, c)
    ensures b <= c ==> FloorOf(a, b, c) <= a && CeilOf(a, b, c) <= a
  {
    hide FloorOf, CeilOf;
    MulMonotone(0, a, b);
    FloorAtLeast(a, b, c, 0);
    if CeilOf(a, b, c) <= -1 {
      CeilAtMost(a, b, c, -1);
    }
    if b <= c {
      MulMonotone(b, c, a);
      CeilAtMost(a, b, c, a);
      if a + 1 <= FloorOf(a, b, c) {
        FloorAtLeast(a, b, c, a + 1);
      }
    }
  }

  function Min(a: int, b: int): int {
    if a < b then a else b
  }

  function Max(a: int, b: int): int {
    if a < b then b else a
  }

  /** floor(10000 * fulfilled / required), clamped; a zero demand counts as fully met. */
  function FulfilmentBp(fulfilled: int, required: int): int {
    if required <= 0 then BP_ONE
    else if fulfilled <= 0 then 0
    else Min(Max(FloorOf(fulfilled, BP_ONE, required), 0), BP_ONE)
  }

  /** A ratio is full exactly when the demand was met in full, and is always in range. */
  lemma FulfilmentFull(fulfilled: int, required: int)
    ensures 0 <= FulfilmentBp(fulfilled, required) <= BP_ONE
    ensures FulfilmentBp(fulfilled, required) == BP_ONE <==> required <= 0 || required <= fulfilled
  {
    hide FloorOf, CeilOf;
    if required > 0 && fulfilled > 0 {
      FloorAtLeast(fulfilled, BP_ONE, required, BP_ONE);
      FloorAtLeast(fulfilled, BP_ONE, required, 0);
    }
  }

  // ----- cargo volume -----

  /** Volume rounds up, so a hold is never overfilled. */
  function VolumeOf(perUnit: int, quantity: int): int {
    CeilOf(quantity, perUnit, MILLI_ONE)
  }

  /** The largest quantity that fits a volume; weightless goods are bounded only by a sentinel. */
  function QuantityForVolume(perUnit: int, volume: int): int {
    if perUnit <= 0 then INT64_MAX / 2 else FloorOf(volume, MILLI_ONE, perUnit)
  }

  /** The two conversions are adjoint: a quantity fits a volume exactly when it is within the
      quantity computed for that volume. */
  lemma VolumeFits(perUnit: int, quantity: int, volume: int)
    requires perUnit > 0
    ensures VolumeOf(perUnit, quantity) <= volume <==> quantity <= QuantityForVolume(perUnit, volume)
  {
    hide FloorOf, CeilOf;
    CeilAtMost(quantity, perUnit, MILLI_ONE, volume);
    FloorAtLeast(volume, MILLI_ONE, perUnit, quantity);
  }

  /** A weightless good takes no volume, whatever its quantity. */
  lemma WeightlessVolume(quantity: int)
    ensures VolumeOf(0, quantity) == 0
  {
    hide FloorOf, CeilOf;
    CeilAtMost(quantity, 0, MILLI_ONE, 0);
    CeilAtMost(quantity, 0, MILLI_ONE, -1);
  }
}
