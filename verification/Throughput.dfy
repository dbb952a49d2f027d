/** How far a recipe can run today: the largest run factor every limit allows, and which limits bind. */
module Throughput {
  import opened Units
  import opened Stock
  import opened Catalog

  /** The day's constraints on one facility: opening stock still unused, the power left, and each
      output's room. An efficiency applies only to recipes that have a class. */
  datatype RunLimits = RunLimits(
    recipe: Recipe,
    available: seq<int>,
    pool: int,
    headroom: seq<int>,
    efficiency: Option<int>)

  function Needed(q: int, run: int): int {
    CeilOf(q, run, BP_ONE)
  }

  /** An output, quantised down by the run factor and then by the efficiency. */
  function Scaled(base: int, run: int, efficiency: Option<int>): int {
    var made := FloorOf(base, run, BP_ONE);
    if efficiency.Some? then FloorOf(made, efficiency.value, BP_ONE) else made
  }

  predicate InputFits(l: RunLimits, r: nat, run: int) {
    r in l.recipe.inputs && r < |l.available| ==> Needed(l.recipe.inputs[r], run) <= l.available[r]
  }

  predicate PowerFits(l: RunLimits, run: int) {
    l.recipe.powerPerDay > 0 ==> Needed(l.recipe.powerPerDay, run) <= l.pool
  }

  predicate OutputFits(l: RunLimits, r: nat, run: int) {
    r in l.recipe.outputs && r < |l.headroom| ==> Scaled(l.recipe.outputs[r], run, l.efficiency) <= l.headroom[r]
  }

  predicate Feasible(l: RunLimits, run: int) {
    run == 0
    || ((forall r | r in l.recipe.inputs :: InputFits(l, r, run))
        && PowerFits(l, run)
        && (forall r | r in l.recipe.outputs :: OutputFits(l, r, run)))
  }

  ghost predicate LimitsOk(l: RunLimits, n: nat) {
    && |l.available| == n && |l.headroom| == n
    && Positive(l.recipe.inputs, n) && Positive(l.recipe.outputs, n) && 0 <= l.recipe.powerPerDay
    && (l.efficiency.Some? ==> 0 <= l.efficiency.value)
    && 0 <= l.pool && (forall r | 0 <= r < n :: 0 <= l.available[r] && 0 <= l.headroom[r])
  }

  lemma ScaledMonotone(base: int, run: int, run': int, efficiency: Option<int>)
    requires 0 <= base && 0 <= run <= run' && (efficiency.Some? ==> 0 <= efficiency.value)
    ensures 0 <= Scaled(base, run, efficiency) <= Scaled(base, run', efficiency)
  {
    hide FloorOf;
    FloorMonotone(base, run, run', BP_ONE);
    FloorOfNat(base, run, BP_ONE);
    if efficiency.Some? {
      var e := efficiency.value;
      var a, b := FloorOf(base, run, BP_ONE), FloorOf(base, run', BP_ONE);
      FloorSwaps(a, e, BP_ONE);
      FloorSwaps(b, e, BP_ONE);
      FloorMonotone(e, a, b, BP_ONE);
      FloorOfNat(a, e, BP_ONE);
    }
  }

  lemma FloorSwaps(a: int, b: int, c: int)
    requires c > 0
    ensures FloorOf(a, b, c) == FloorOf(b, a, c)
  {
  }

  /** Whatever can run can run slower: feasibility is downward closed through every rounding. */
  lemma FeasibleBelow(l: RunLimits, n: nat, run: int, run': int)
    requires LimitsOk(l, n) && 0 <= run <= run' && Feasible(l, run')
    ensures Feasible(l, run)
  {
    hide CeilOf, Scaled;
    if run > 0 {
      forall r | r in l.recipe.inputs ensures InputFits(l, r, run) {
        assert InputFits(l, r, run');
        CeilMonotone(l.recipe.inputs[r], run, run', BP_ONE);
      }
      CeilMonotone(l.recipe.powerPerDay, run, run', BP_ONE);
      forall r | r in l.recipe.outputs ensures OutputFits(l, r, run) {
        assert OutputFits(l, r, run');
        ScaledMonotone(l.recipe.outputs[r], run, run', l.efficiency);
      }
    }
  }

  /** The largest factor up to the desired one that every limit allows. */
  ghost predicate IsLargestRun(l: RunLimits, desired: int, run: int) {
    && 0 <= run <= desired && Feasible(l, run)
    && forall k | run < k <= desired :: !Feasible(l, k)
  }

  lemma LargestRunIsUnique(l: RunLimits, desired: int, a: int, b: int)
    requires IsLargestRun(l, desired, a) && IsLargestRun(l, desired, b)
    ensures a == b
  {
    hide Feasible;
  }

  /** The same factor found by trying every one from the top down. */
  function LargestRun(l: RunLimits, desired: nat): nat {
    if desired == 0 || Feasible(l, desired) then desired else LargestRun(l, desired - 1)
  }

  lemma {:induction false} LargestRunIsLargest(l: RunLimits, desired: nat)
    ensures IsLargestRun(l, desired, LargestRun(l, desired))
  {
    if desired > 0 && !Feasible(l, desired) {
      LargestRunIsLargest(l, desired - 1);
    }
  }

  /** Binary search: the factor found is the maximum because feasibility is downward closed. */
  method LargestFeasibleRun(l: RunLimits, desired: nat, ghost n: nat) returns (run: nat)
    requires LimitsOk(l, n)
    ensures IsLargestRun(l, desired, run) && run == LargestRun(l, desired)
  {
    hide InputFits, OutputFits, PowerFits, Feasible;
    LargestRunIsLargest(l, desired);
    if Feasible(l, desired) {
      return desired;
    }
    var lo, hi := 0, desired;
    ZeroRuns(l);
    while lo < hi
      invariant 0 <= lo <= hi <= desired
      invariant Feasible(l, lo)
      invariant forall k | hi < k <= desired :: !Feasible(l, k)
    {
      var mid := lo + (hi - lo + 1) / 2;
      if Feasible(l, mid) {
        lo := mid;
      } else {
        forall k | mid <= k <= desired ensures !Feasible(l, k) {
          if Feasible(l, k) {
            FeasibleBelow(l, n, mid, k);
          }
        }
        hi := mid - 1;
      }
    }
    LargestRunIsUnique(l, desired, lo, LargestRun(l, desired));
    return lo;
  }

  lemma ZeroRuns(l: RunLimits)
    ensures Feasible(l, 0)
  {
  }

  // ----- which limits bind -----

  datatype Binding = Binding(missing: seq<nat>, power: bool, blocked: seq<nat>)

  /** Exactly the limits a given factor would break, each once, in ascending order. */
  ghost predicate Reports(l: RunLimits, probe: int, b: Binding, n: nat) {
    && (forall r: nat :: r in b.missing <==> r < n && r in l.recipe.inputs && !InputFits(l, r, probe))
    && (b.power <==> !PowerFits(l, probe))
    && (forall r: nat :: r in b.blocked <==> r < n && r in l.recipe.outputs && !OutputFits(l, r, probe))
  }

  /** The constraints that one basis point more would violate; none when the run met its desire. */
  method ClassifyLimits(l: RunLimits, desired: int, actual: int, n: nat) returns (b: Binding)
    requires LimitsOk(l, n) && 0 <= actual <= desired
    ensures actual == desired ==> b == Binding([], false, [])
    ensures actual < desired ==> Reports(l, actual + 1, b, n)
  {
    hide InputFits, OutputFits, PowerFits;
    if actual >= desired {
      return Binding([], false, []);
    }
    var probe := if actual + 1 > desired then desired else actual + 1;
    var missing, blocked: seq<nat> := [], [];
    for r: nat := 0 to n
      invariant forall k: nat :: k in missing <==> k < r && k in l.recipe.inputs && !InputFits(l, k, probe)
    {
      if r in l.recipe.inputs && !InputFits(l, r, probe) {
        missing := missing + [r];
      }
    }
    for r: nat := 0 to n
      invariant forall k: nat :: k in blocked <==> k < r && k in l.recipe.outputs && !OutputFits(l, k, probe)
    {
      if r in l.recipe.outputs && !OutputFits(l, r, probe) {
        blocked := blocked + [r];
      }
    }
    b := Binding(missing, !PowerFits(l, probe), blocked);
  }

  /** Something is reported exactly when the probed factor cannot run, and every report is true of it. */
  lemma ReportsExactly(l: RunLimits, n: nat, probe: int, b: Binding)
    requires LimitsOk(l, n) && 0 < probe && Reports(l, probe, b, n)
    ensures b.missing != [] || b.power || b.blocked != [] <==> !Feasible(l, probe)
    ensures forall r | r in b.missing :: r in l.recipe.inputs && Needed(l.recipe.inputs[r], probe) > l.available[r]
    ensures b.power ==> Needed(l.recipe.powerPerDay, probe) > l.pool
    ensures forall r | r in b.blocked ::
            r in l.recipe.outputs && Scaled(l.recipe.outputs[r], probe, l.efficiency) > l.headroom[r]
  {
    hide Needed, Scaled;
    assert b.missing != [] ==> b.missing[0] in b.missing;
    assert b.blocked != [] ==> b.blocked[0] in b.blocked;
    if !Feasible(l, probe) {
      if !(forall r | r in l.recipe.inputs :: InputFits(l, r, probe)) {
        var r :| r in l.recipe.inputs && !InputFits(l, r, probe);
        assert r in b.missing;
      } else if PowerFits(l, probe) {
        var r :| r in l.recipe.outputs && !OutputFits(l, r, probe);
        assert r in b.blocked;
      }
    }
  }

  /** Whenever the search stopped short of the desire, at least one limit is reported. */
  lemma SomethingBinds(l: RunLimits, n: nat, desired: nat, b: Binding)
    requires LimitsOk(l, n) && LargestRun(l, desired) < desired && Reports(l, LargestRun(l, desired) + 1, b, n)
    ensures b.missing != [] || b.power || b.blocked != []
  {
    LargestRunIsLargest(l, desired);
    ReportsExactly(l, n, LargestRun(l, desired) + 1, b);
  }

  // ----- a run that would make nothing -----

  ghost predicate MakesSomething(l: RunLimits, run: int) {
    exists r :: r in l.recipe.outputs && Scaled(l.recipe.outputs[r], run, l.efficiency) > 0
  }

  /** A recipe with outputs that would yield no whole unit of any of them does not run. */
  ghost function Productive(l: RunLimits, run: int): int {
    if l.recipe.outputs != map[] && !MakesSomething(l, run) then 0 else run
  }

  /** Half a run of a recipe that makes one thousandth makes nothing, so it does not run at all; nothing
      limits it, and nothing is reported. */
  lemma AnIdledRunReportsNothing()
    ensures var l := RunLimits(Recipe(0, map[], map[0 := 1], 0, 0, 0, None, 1), [0], 0, [10], None);
            && LimitsOk(l, 1) && LargestRun(l, 5000) == 5000 && Productive(l, 5000) == 0 && Feasible(l, 1)
            && forall b | Reports(l, 1, b, 1) :: b.missing == [] && !b.power && b.blocked == []
  {
    var l := RunLimits(Recipe(0, map[], map[0 := 1], 0, 0, 0, None, 1), [0], 0, [10], None);
    assert Feasible(l, 5000) && Feasible(l, 1);
    assert Scaled(1, 5000, None) == 0;
    assert !MakesSomething(l, 5000);
    assert 0 in l.recipe.outputs;
    forall b | Reports(l, 1, b, 1) ensures b.missing == [] && !b.power && b.blocked == [] {
      ReportsExactly(l, 1, 1, b);
    }
  }

  method DropIdleRun(l: RunLimits, run: int, n: nat) returns (final: int)
    requires LimitsOk(l, n)
    ensures final == Productive(l, run)
  {
    hide Scaled;
    if l.recipe.outputs == map[] {
      return run;
    }
    var any := false;
    for r := 0 to n
      invariant any <==> exists k ::
                k in l.recipe.outputs && k < r && Scaled(l.recipe.outputs[k], run, l.efficiency) > 0
    {
      if r in l.recipe.outputs && Scaled(l.recipe.outputs[r], run, l.efficiency) > 0 {
        any := true;
      }
    }
    final := if any then run else 0;
  }

  /** What a feasible run consumes is there, and what it makes has room. */
  lemma RunFits(l: RunLimits, n: nat, desired: int, run: int)
    requires LimitsOk(l, n) && IsLargestRun(l, desired, run)
    ensures var f := Productive(l, run);
            && 0 <= f <= desired
            && (forall r | r in l.recipe.inputs :: 0 <= Needed(l.recipe.inputs[r], f) <= l.available[r])
            && 0 <= Needed(l.recipe.powerPerDay, f)
                && (l.recipe.powerPerDay > 0 ==> Needed(l.recipe.powerPerDay, f) <= l.pool)
            && (l.recipe.powerPerDay == 0 ==> Needed(l.recipe.powerPerDay, f) == 0)
            && (forall r | r in l.recipe.outputs :: 0 <= Scaled(l.recipe.outputs[r], f, l.efficiency) <= l.headroom[r])
  {
    hide CeilOf, Scaled;
    var f := Productive(l, run);
    FeasibleBelow(l, n, f, run);
    forall q: int | 0 <= q ensures 0 <= CeilOf(q, f, BP_ONE) && CeilOf(q, 0, BP_ONE) == 0 && CeilOf(0, f, BP_ONE) == 0 {
      NothingNeeded(q, f);
    }
    forall r | r in l.recipe.outputs ensures 0 <= Scaled(l.recipe.outputs[r], f, l.efficiency) <= l.headroom[r] {
      ScaledMonotone(l.recipe.outputs[r], 0, f, l.efficiency);
      NothingMade(l.recipe.outputs[r], l.efficiency);
      if f > 0 {
        assert OutputFits(l, r, f);
      }
    }
    forall r | r in l.recipe.inputs ensures 0 <= Needed(l.recipe.inputs[r], f) <= l.available[r] {
      if f > 0 {
        assert InputFits(l, r, f);
      }
    }
  }

  lemma NothingNeeded(q: int, run: int)
    requires 0 <= q && 0 <= run
    ensures CeilOf(q, 0, BP_ONE) == 0 && CeilOf(0, run, BP_ONE) == 0 && 0 <= CeilOf(q, run, BP_ONE)
  {
    FloorOfNat(q, run, BP_ONE);
  }

  lemma NothingMade(base: int, efficiency: Option<int>)
    ensures Scaled(base, 0, efficiency) == 0
  {
  }
}
