/** What a facility's day comes to, told in its recipe's own quantities and the figures of its world. */
module Yields {
  import opened Units
  import opened Sums
  import opened Stock
  import opened Ledger
  import opened Catalog
  import opened State
  import opened Outside
  import opened Freight
  import opened Throughput
  import opened Power
  import opened Production

  /** q is what an output comes to at a run factor: rounded down, and rounded down again after the world's
      efficiency where the recipe has a class. */
  ghost predicate Makes(cat: Catalog, p: nat, r: Recipe, k: nat, run: int, q: int) {
    p < |cat.planets| && k in r.outputs &&
      exists m :: IsFloor(m, r.outputs[k] * run, 10000) && AtEfficiency(cat.planets[p], r.efficiencyClass, m, q)
  }

  ghost predicate AtEfficiency(planet: PlanetDef, group: Option<nat>, m: int, q: int) {
    match group
    case None => q == m
    case Some(c) => IsFloor(q, m * (if c in planet.efficiency then planet.efficiency[c] else 10000), 10000)
  }

  /** Nothing stands in the way of a factor: its inputs are in stock, its power is in the pool, and what it makes has
      room beside stock, promises and what is staged already. */
  ghost predicate MayRun(cat: Catalog, p: nat, r: Recipe, stock: Inventory, day: Scratch, run: int) {
    run == 0
    || ((forall k | k in r.inputs :: k < |stock.onHand| && r.inputs[k] * run <= 10000 * stock.Available(k))
        && (r.powerPerDay > 0 ==> r.powerPerDay * run <= 10000 * day.pool)
        && (forall k: nat, q | Makes(cat, p, r, k, run, q) :: Fits(stock, day, k, q)))
  }

  predicate Fits(stock: Inventory, day: Scratch, k: nat, q: int) {
    k < |stock.onHand| && k < |day.staged|
    && (q <= 0 || stock.onHand[k] + stock.Claimed(k) + day.staged[k] + q <= stock.capacity)
  }

  /** The factor is the largest of those up to the desired one, or nothing where that would yield no whole unit. */
  ghost predicate Chosen(cat: Catalog, p: nat, r: Recipe, stock: Inventory, day: Scratch, desired: int, run: int) {
    exists top ::
      && 0 <= top <= desired && MayRun(cat, p, r, stock, day, top)
      && (forall g | top < g <= desired :: !MayRun(cat, p, r, stock, day, g))
      && (if r.outputs != map[] && (forall k: nat, q | Makes(cat, p, r, k, top, q) :: q <= 0) then run == 0
          else run == top)
  }

  /** World p gave up a recipe's inputs for one run, each rounded up, and no other stock moved. */
  ghost predicate Drawn(before: seq<Planet>, after: seq<Planet>, p: nat, r: Recipe, run: int) {
    && |after| == |before|
    && forall q, k: nat | 0 <= q < |before| && k < |before[q].stock.onHand| ::
        && k < |after[q].stock.onHand|
        && if q == p && k in r.inputs then
             IsCeil(before[q].stock.onHand[k] - after[q].stock.onHand[k], r.inputs[k] * run, 10000)
           else after[q].stock.onHand[k] == before[q].stock.onHand[k]
  }

  ghost predicate Mirrored(before: seq<int>, after: seq<int>, r: Recipe, run: int) {
    && |after| == |before|
    && forall k: nat | k < |before| ::
        if k in r.inputs then IsCeil(before[k] - after[k], r.inputs[k] * run, 10000) else after[k] == before[k]
  }

  ghost predicate Staged(cat: Catalog, p: nat, before: seq<int>, after: seq<int>, r: Recipe, run: int) {
    && |after| == |before|
    && forall k: nat | k < |before| ::
        if k in r.outputs then Makes(cat, p, r, k, run, after[k] - before[k]) else after[k] == before[k]
  }

  /** One run's whole effect on the world it runs on. */
  ghost predicate Ran(cat: Catalog, w: World, w': World, p: nat, r: Recipe, run: int) {
    && Drawn(w.planets, w'.planets, p, r, run)
    && p < |w.scratch| && |w'.scratch| == |w.scratch| && w'.scratch == w.scratch[p := w'.scratch[p]]
    && var day, day' := w.scratch[p], w'.scratch[p];
    && Mirrored(day.available, day'.available, r, run)
    && Staged(cat, p, day.staged, day'.staged, r, run)
    && IsCeil(day.pool - day'.pool, r.powerPerDay * run, 10000)
    && day'.granted - day.granted == day.pool - day'.pool
    && IsFloor(day'.handling - day.handling, r.handlingPerDay * run, 10000)
    && day'.(available := day.available, staged := day.staged, pool := day.pool, granted := day.granted,
             handling := day.handling) == day
  }

  lemma MakesScaled(cat: Catalog, p: nat, r: Recipe, k: nat, run: int, q: int)
    requires p < |cat.planets| && k in r.outputs
    ensures Makes(cat, p, r, k, run, q) <==> q == Scaled(r.outputs[k], run, cat.Efficiency(p, r))
  {
    hide FloorOf, IsFloor;
    var base := FloorOf(r.outputs[k], run, 10000);
    FloorOfIsFloor(r.outputs[k], run, 10000);
    if r.efficiencyClass.Some? {
      FloorOfIsFloor(base, cat.Efficiency(p, r).value, 10000);
    }
    var s := Scaled(r.outputs[k], run, cat.Efficiency(p, r));
    assert AtEfficiency(cat.planets[p], r.efficiencyClass, base, s);
    if Makes(cat, p, r, k, run, q) {
      var m :| IsFloor(m, r.outputs[k] * run, 10000) && AtEfficiency(cat.planets[p], r.efficiencyClass, m, q);
      FloorIsUnique(m, base, r.outputs[k] * run, 10000);
      if r.efficiencyClass.Some? {
        FloorIsUnique(q, s, base * cat.Efficiency(p, r).value, 10000);
      }
    }
  }

  lemma MayRunFeasible(cat: Catalog, p: nat, r: Recipe, stock: Inventory, day: Scratch, run: int)
    requires ValidRecipe(cat, r) && BenchOk(stock, day, cat.resources) && p < |cat.planets|
    ensures MayRun(cat, p, r, stock, day, run) <==> Feasible(MakeLimits(cat, p, r, stock, day), run)
  {
    hide Sum, CeilOf, Scaled, Makes, Inventory.FreeSpace;
    var l := MakeLimits(cat, p, r, stock, day);
    forall k | k in r.inputs
      ensures InputFits(l, k, run) <==> r.inputs[k] * run <= 10000 * stock.Available(k)
    {
      CeilAtMost(r.inputs[k], run, BP_ONE, stock.Available(k));
    }
    CeilAtMost(r.powerPerDay, run, BP_ONE, day.pool);
    forall k: nat, q | Makes(cat, p, r, k, run, q)
        ensures k in r.outputs && q == Scaled(r.outputs[k], run, l.efficiency) {
      MakesOf(cat, p, r, k, run, q);
      MakesScaled(cat, p, r, k, run, q);
    }
    forall k | k in r.outputs
      ensures Makes(cat, p, r, k, run, Scaled(r.outputs[k], run, l.efficiency))
      ensures Fits(stock, day, k, Scaled(r.outputs[k], run, l.efficiency)) <==> OutputFits(l, k, run)
    {
      MakesScaled(cat, p, r, k, run, Scaled(r.outputs[k], run, l.efficiency));
      assert l.headroom[k] == Max(0, stock.capacity - (stock.onHand[k] + stock.Claimed(k) + day.staged[k]));
    }
    if Feasible(l, run) && run != 0 {
      forall k: nat, q | Makes(cat, p, r, k, run, q) ensures Fits(stock, day, k, q) {
        assert OutputFits(l, k, run);
      }
    }
    if MayRun(cat, p, r, stock, day, run) && run != 0 {
      forall k | k in r.outputs ensures OutputFits(l, k, run) {
        assert Fits(stock, day, k, Scaled(r.outputs[k], run, l.efficiency));
      }
    }
  }

  lemma MakesOf(cat: Catalog, p: nat, r: Recipe, k: nat, run: int, q: int)
    requires Makes(cat, p, r, k, run, q)
    ensures k in r.outputs
  {
  }

  lemma ChosenRun(cat: Catalog, p: nat, r: Recipe, stock: Inventory, day: Scratch, desired: nat)
    requires ValidRecipe(cat, r) && BenchOk(stock, day, cat.resources) && p < |cat.planets|
    ensures var l := MakeLimits(cat, p, r, stock, day);
            Chosen(cat, p, r, stock, day, desired, Productive(l, LargestRun(l, desired)))
  {
    hide BenchOk, ValidRecipe, MakeLimits, MayRun, Makes, Feasible, Scaled;
    LimitsOf(cat, p, r, stock, day);
    var l := MakeLimits(cat, p, r, stock, day);
    var top := LargestRun(l, desired);
    LargestRunIsLargest(l, desired);
    forall g | 0 <= g <= desired ensures MayRun(cat, p, r, stock, day, g) <==> Feasible(l, g) {
      MayRunFeasible(cat, p, r, stock, day, g);
    }
    forall k: nat, q | Makes(cat, p, r, k, top, q)
        ensures k in r.outputs && q == Scaled(r.outputs[k], top, l.efficiency) {
      MakesOf(cat, p, r, k, top, q);
      MakesScaled(cat, p, r, k, top, q);
    }
    forall k | k in r.outputs ensures Makes(cat, p, r, k, top, Scaled(r.outputs[k], top, l.efficiency)) {
      MakesScaled(cat, p, r, k, top, Scaled(r.outputs[k], top, l.efficiency));
    }
  }

  lemma LimitsOf(cat: Catalog, p: nat, r: Recipe, stock: Inventory, day: Scratch)
    requires BenchOk(stock, day, cat.resources) && p < |cat.planets|
    ensures |stock.onHand| == |day.staged|
    ensures var l := MakeLimits(cat, p, r, stock, day); l.recipe == r && l.efficiency == cat.Efficiency(p, r)
  {
  }

  /** An input map at a factor is the recipe's quantities, each rounded up. */
  lemma InputsCeil(r: Recipe, run: int, k: nat)
    requires k in r.inputs ==> 0 <= r.inputs[k] * run
    ensures if k in r.inputs then IsCeil(Qty(InputsAt(r, run), k), r.inputs[k] * run, 10000)
            else Qty(InputsAt(r, run), k) == 0
  {
    hide CeilOf;
    if k in r.inputs {
      CeilOfIsCeil(r.inputs[k], run, 10000);
    }
  }

  lemma OutputsMade(cat: Catalog, p: nat, l: RunLimits, run: int, k: nat)
    requires p < |cat.planets| && l.efficiency == cat.Efficiency(p, l.recipe)
    requires k in l.recipe.outputs ==> 0 <= Scaled(l.recipe.outputs[k], run, l.efficiency)
    ensures if k in l.recipe.outputs then Makes(cat, p, l.recipe, k, run, Qty(OutputsAt(l, run), k))
            else Qty(OutputsAt(l, run), k) == 0
  {
    hide Scaled, Makes;
    if k in l.recipe.outputs {
      MakesScaled(cat, p, l.recipe, k, run, Qty(OutputsAt(l, run), k));
    }
  }

  /** A facility at work runs at the chosen factor: each input is drawn from stock and its mirror rounded up, each
      output is staged at the world's efficiency, and power and port service follow. Any other leaves the day as
      it was. */
  lemma RunsItsRecipe(cat: Catalog, w: World, w': World, i: nat, x: DayInputs, d: int, d': int)
    requires InvAt(cat, w, d, d') && BenchesOk(cat, w) && ProduceStep(cat, w, w', i, x)
    ensures i < |w.facilities| && w.facilities[i].planet < |w.planets| == |w.scratch|
    ensures w.facilities[i].kind < |cat.facilities|
            && w.facilities[i].recipe < |cat.facilities[w.facilities[i].kind].recipes|
    ensures var f := w.facilities[i];
            var r := cat.facilities[f.kind].recipes[f.recipe];
            if f.life.Active? && f.activates <= w.day && r.powerOutput <= 0 && !f.idle && f.serviceReady.None? then
              exists run: int ::
                && Chosen(cat, f.planet, r, w.planets[f.planet].stock, w.scratch[f.planet],
                          if f.id in x.desired then x.desired[f.id] else 0, run)
                && Ran(cat, w, w', f.planet, r, run)
            else w' == w
  {
    hide InvAt, BenchOk, ValidRecipe, SpendStep, MakeLimits, Shifted, Chosen, Ran, Productive, LargestRun, InputsAt;
    FacilityFacts(cat, w, i, d, d');
    var f := w.facilities[i];
    var r := RecipeOf(cat, f);
    if Produces(cat, f, w.day) {
      var p := f.planet;
      var day, stock := w.scratch[p], w.planets[p].stock;
      var l := MakeLimits(cat, p, r, stock, day);
      var run := Productive(l, LargestRun(l, Desired(x, f)));
      ChosenRun(cat, p, r, stock, day, Desired(x, f));
      LimitsOf(cat, p, r, stock, day);
      RanAtRun(cat, w, w', p, r, l, run, Desired(x, f));
    }
  }

  lemma DrawnOf(before: seq<Planet>, after: seq<Planet>, p: nat, r: Recipe, run: int)
    requires Debited(before, after, p, InputsAt(r, run))
    requires forall k: nat :: if k in r.inputs then IsCeil(Qty(InputsAt(r, run), k), r.inputs[k] * run, 10000)
                              else Qty(InputsAt(r, run), k) == 0
    ensures Drawn(before, after, p, r, run)
  {
    var goods := InputsAt(r, run);
    forall q: nat, k: nat | q < |before| && k < |before[q].stock.onHand|
      ensures k < |after[q].stock.onHand|
      ensures before[q].stock.onHand[k] - after[q].stock.onHand[k] == if q == p then Qty(goods, k) else 0
      ensures q == p && k in r.inputs ==>
              IsCeil(before[q].stock.onHand[k] - after[q].stock.onHand[k], r.inputs[k] * run, 10000)
    {
      assert OnlyStock(before[q], after[q]);
      assert OnHand(after, q, k) == OnHand(before, q, k) - (if q == p then Qty(goods, k) else 0);
    }
  }

  lemma RanAtRun(cat: Catalog, w: World, w': World, p: nat, r: Recipe, l: RunLimits, run: int, desired: nat)
    requires BenchesOk(cat, w) && p < |w.planets| && p < |cat.planets| && ValidRecipe(cat, r)
    requires cat.Efficiency(p, r).Some? ==> 0 <= cat.Efficiency(p, r).value
    requires |w.planets[p].stock.onHand| == |w.scratch[p].staged|
    requires l == MakeLimits(cat, p, r, w.planets[p].stock, w.scratch[p]) && l.recipe == r
             && run == Productive(l, LargestRun(l, desired)) && l.efficiency == cat.Efficiency(p, r)
    requires SpendStep(cat, w, w'.(scratch := w.scratch), p, InputsAt(r, run), SinkRecipe)
    requires w'.scratch == w.scratch[p := Shifted(w.scratch[p], r, l, run)]
    ensures Ran(cat, w, w', p, r, run)
  {
    hide Sum, InputsAt, OutputsAt, Makes, MakeLimits, FloorOf, CeilOf, Scaled, Productive, LargestRun, IsCeil, IsFloor,
         LimitsOk, ValidRecipe, BenchOk, Posted, LedgerOk, Inventory.FreeSpace;
    var stock, day := w.planets[p].stock, w.scratch[p];
    assert BenchOk(stock, day, cat.resources);
    RunIsWithin(cat, p, r, stock, day, desired);
    Quantities(cat, p, r, l, run);
    DrawnOf(w.planets, w'.planets, p, r, run);
    CeilOfIsCeil(r.powerPerDay, run, 10000);
    FloorOfIsFloor(r.handlingPerDay, run, 10000);
  }

  lemma Quantities(cat: Catalog, p: nat, r: Recipe, l: RunLimits, run: int)
    requires p < |cat.planets| && ValidRecipe(cat, r) && l.recipe == r && l.efficiency == cat.Efficiency(p, r)
             && 0 <= run && (l.efficiency.Some? ==> 0 <= l.efficiency.value)
    ensures forall k: nat :: if k in r.inputs then IsCeil(Qty(InputsAt(r, run), k), r.inputs[k] * run, 10000)
                             else Qty(InputsAt(r, run), k) == 0
    ensures forall k: nat :: if k in r.outputs then Makes(cat, p, r, k, run, Qty(OutputsAt(l, run), k))
                             else Qty(OutputsAt(l, run), k) == 0
  {
    hide InputsAt, OutputsAt, Makes, IsCeil, Scaled;
    forall k: nat ensures if k in r.inputs then IsCeil(Qty(InputsAt(r, run), k), r.inputs[k] * run, 10000)
                          else Qty(InputsAt(r, run), k) == 0 {
      InputsCeil(r, run, k);
    }
    forall k: nat ensures if k in r.outputs then Makes(cat, p, r, k, run, Qty(OutputsAt(l, run), k))
                          else Qty(OutputsAt(l, run), k) == 0 {
      if k in r.outputs {
        ScaledMonotone(r.outputs[k], 0, run, l.efficiency);
      }
      OutputsMade(cat, p, l, run, k);
    }
  }

  // ----- generators -----

  /** A generator's fuel is in stock at a factor, and what its recipe names as output is a 64-bit quantity. */
  ghost predicate CanBurn(r: Recipe, stock: Inventory, run: int) {
    && (forall k | k in r.inputs :: k < |stock.onHand| && r.inputs[k] * run <= 10000 * stock.Available(k))
    && (forall k | k in r.outputs :: r.outputs[k] * run < 10000 * 0x8000_0000_0000_0000)
  }

  ghost predicate BurnsMost(r: Recipe, stock: Inventory, desired: int, run: int) {
    && 0 <= run <= desired && CanBurn(r, stock, run)
    && forall g | run < g <= desired :: !CanBurn(r, stock, g)
  }

  /** Passive supply is there whenever the facility is open; a generator at work adds what its run supplies and
      draws that run's fuel, from stock and its mirror. */
  ghost predicate Burned(w: World, w': World, p: nat, r: Recipe, passive: int, run: int) {
    && Drawn(w.planets, w'.planets, p, r, run)
    && p < |w.scratch| && |w'.scratch| == |w.scratch| && w'.scratch == w.scratch[p := w'.scratch[p]]
    && var day, day' := w.scratch[p], w'.scratch[p];
    && Mirrored(day.available, day'.available, r, run)
    && IsFloor(day'.generated - day.generated - passive, r.powerOutput * run, 10000)
    && day'.(available := day.available, generated := day.generated) == day
  }

  lemma CanBurnFeasible(cat: Catalog, r: Recipe, stock: Inventory, day: Scratch, run: int)
    requires ValidRecipe(cat, r) && r.IsGenerator() && BenchOk(stock, day, cat.resources) && 0 <= run
    ensures CanBurn(r, stock, run) <==> Feasible(BurnLimits(cat, r, day), run)
  {
    hide Sum, CeilOf, FloorOf, Inventory.FreeSpace;
    var l := BurnLimits(cat, r, day);
    forall k | k in r.inputs
      ensures InputFits(l, k, run) <==> r.inputs[k] * run <= 10000 * stock.Available(k)
    {
      CeilAtMost(r.inputs[k], run, BP_ONE, stock.Available(k));
    }
    forall k | k in r.outputs
      ensures OutputFits(l, k, run) <==> r.outputs[k] * run < 10000 * 0x8000_0000_0000_0000
    {
      FloorAtLeast(r.outputs[k], run, BP_ONE, 0x8000_0000_0000_0000);
    }
    if run == 0 {
      assert CanBurn(r, stock, 0);
    }
  }

  lemma BurnsMostOf(cat: Catalog, r: Recipe, stock: Inventory, day: Scratch, desired: nat)
    requires ValidRecipe(cat, r) && r.IsGenerator() && BenchOk(stock, day, cat.resources)
    ensures BurnsMost(r, stock, desired, LargestRun(BurnLimits(cat, r, day), desired))
  {
    hide BenchOk, ValidRecipe, BurnLimits, CanBurn, Feasible;
    var l := BurnLimits(cat, r, day);
    LargestRunIsLargest(l, desired);
    forall g | 0 <= g <= desired ensures CanBurn(r, stock, g) <==> Feasible(l, g) {
      CanBurnFeasible(cat, r, stock, day, g);
    }
  }

  /** A generator at work burns the most its fuel and its desire allow; idle, in service or no generator, a facility
      adds only its passive supply; not yet open, nothing. */
  lemma BurnsItsFuel(cat: Catalog, w: World, w': World, i: nat, x: DayInputs, d: int, d': int)
    requires InvAt(cat, w, d, d') && BenchesOk(cat, w) && GenerateStep(cat, w, w', i, x)
    ensures i < |w.facilities| && w.facilities[i].planet < |w.planets| == |w.scratch|
    ensures w.facilities[i].kind < |cat.facilities|
            && w.facilities[i].recipe < |cat.facilities[w.facilities[i].kind].recipes|
    ensures var f := w.facilities[i];
            var def := cat.facilities[f.kind];
            var r, p := def.recipes[f.recipe], f.planet;
            if !f.life.Active? || w.day < f.activates then w' == w
            else if r.powerOutput > 0 && !f.idle && f.serviceReady.None? then
              exists run: int ::
                && BurnsMost(r, w.planets[p].stock, if f.id in x.desired then x.desired[f.id] else 0, run)
                && Burned(w, w', p, r, def.passivePower, run)
            else w' == w.(scratch := w.scratch[p := w.scratch[p].(generated := w.scratch[p].generated
                                                                               + def.passivePower)])
  {
    hide InvAt, BenchOk, ValidRecipe, SpendStep, BurnLimits, BurnsMost, Burned, LargestRun, InputsAt, FloorOf;
    FacilityFacts(cat, w, i, d, d');
    var f := w.facilities[i];
    var r, p := RecipeOf(cat, f), f.planet;
    if Operable(f, w.day) && r.IsGenerator() && Works(f) {
      BurnsMostOf(cat, r, w.planets[p].stock, w.scratch[p], Desired(x, f));
      BurnedAtRun(cat, w, w', p, r, cat.facilities[f.kind].passivePower, Desired(x, f));
    }
  }

  lemma BurnedAtRun(cat: Catalog, w: World, w': World, p: nat, r: Recipe, passive: int, desired: nat)
    requires BenchesOk(cat, w) && p < |w.planets| && p < |w.scratch| && p < |cat.planets| && ValidRecipe(cat, r)
    requires var run := LargestRun(BurnLimits(cat, r, w.scratch[p]), desired);
             var day := w.scratch[p];
             && SpendStep(cat, w, w'.(scratch := w.scratch), p, InputsAt(r, run), SinkRecipe)
             && w'.scratch == w.scratch[p := day.(available := Minus(day.available, InputsAt(r, run)),
                  generated := day.generated + passive + FloorOf(r.powerOutput, run, BP_ONE))]
    ensures Burned(w, w', p, r, passive, LargestRun(BurnLimits(cat, r, w.scratch[p]), desired))
  {
    hide Sum, InputsAt, BurnLimits, FloorOf, IsCeil, IsFloor, LimitsOk, ValidRecipe, BenchOk, Posted, LedgerOk,
         LargestRun, Debited;
    var l := BurnLimits(cat, r, w.scratch[p]);
    var run := LargestRun(l, desired);
    assert BenchOk(w.planets[p].stock, w.scratch[p], cat.resources);
    BurnLimitsOk(cat, r, w.planets[p].stock, w.scratch[p]);
    LargestRunIsLargest(l, desired);
    forall k: nat ensures if k in r.inputs then IsCeil(Qty(InputsAt(r, run), k), r.inputs[k] * run, 10000)
                          else Qty(InputsAt(r, run), k) == 0 {
      InputIsNat(cat, r, run, k);
      InputsCeil(r, run, k);
    }
    DrawnOf(w.planets, w'.planets, p, r, run);
    FloorOfIsFloor(r.powerOutput, run, 10000);
  }

  lemma InputIsNat(cat: Catalog, r: Recipe, run: int, k: nat)
    requires ValidRecipe(cat, r) && 0 <= run
    ensures k in r.inputs ==> 0 <= r.inputs[k] * run
  {
  }

  /** Once a world's generators have run, its homes are served first and what they leave is the pool. */
  lemma HomesComeFirst(cat: Catalog, w: World, w': World, p: nat, x: DayInputs)
    requires PowerWorld(cat, w, w', p, x) && p < |w.planets| && |w.scratch| == |w.planets|
    ensures p < |w'.scratch| && p < |w'.planets|
    ensures var demand := w'.planets[p].population * cat.rules.powerPerResident;
            var day := w'.scratch[p];
            && day.served == (if day.generated < demand then day.generated else demand)
            && day.pool == day.generated - day.served
  {
  }
}
