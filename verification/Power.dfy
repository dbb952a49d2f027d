/** Phases 3 and 4: the opening snapshot, and power in priority order with homes served first. */
module Power {
  import opened Units
  import opened Sums
  import opened Stock
  import opened Ledger
  import opened Catalog
  import opened State
  import opened Support
  import opened Chains
  import opened Order
  import opened Outside
  import opened Freight
  import opened Maintenance
  import opened Throughput

  function RecipeOf(cat: Catalog, f: Facility): Recipe
    requires f.kind < |cat.facilities| && f.recipe < |cat.facilities[f.kind].recipes|
  {
    cat.facilities[f.kind].recipes[f.recipe]
  }

  function Desired(x: DayInputs, f: Facility): nat {
    if f.id in x.desired then x.desired[f.id] else 0
  }

  /** Idle facilities and facilities being serviced do not run. */
  predicate Works(f: Facility) {
    !f.idle && f.serviceReady.None?
  }

  function InputsAt(r: Recipe, run: int): ResourceMap {
    map k | k in r.inputs && Needed(r.inputs[k], run) > 0 :: Needed(r.inputs[k], run)
  }

  function OutputsAt(l: RunLimits, run: int): ResourceMap {
    map k | k in l.recipe.outputs && Scaled(l.recipe.outputs[k], run, l.efficiency) > 0 ::
        Scaled(l.recipe.outputs[k], run, l.efficiency)
  }

  /** A generator is limited only by its fuel. */
  function BurnLimits(cat: Catalog, r: Recipe, day: Scratch): RunLimits {
    RunLimits(r, day.available, 0, seq(cat.resources, i => INT64_MAX), None)
  }

  /** What is left of a world's room after stock, promises and today's output so far. */
  function Headroom(stock: Inventory, staged: seq<int>): seq<int>
    requires |stock.onHand| == |staged|
  {
    seq(|staged|, r requires 0 <= r < |staged| => Max(0,
        stock.capacity - (stock.onHand[r] + stock.Claimed(r) + staged[r])))
  }

  function MakeLimits(cat: Catalog, p: nat, r: Recipe, stock: Inventory, day: Scratch): RunLimits
    requires |stock.onHand| == |day.staged| && p < |cat.planets|
  {
    RunLimits(r, day.available, day.pool, Headroom(stock, day.staged), cat.Efficiency(p, r))
  }

  /** The scratch mirror agrees with the real store, and today's output fits what is free there. */
  ghost predicate BenchOk(stock: Inventory, day: Scratch, n: nat) {
    && |day.available| == |day.staged| == |stock.onHand| == n
    && 0 <= day.pool && 0 <= day.handling && 0 <= day.handlingLeft
    && forall r | 0 <= r < n :: 0 <= day.available[r] == stock.Available(r) && 0 <= day.staged[r] <= stock.FreeSpace(r)
  }

  ghost predicate BenchesOk(cat: Catalog, w: World) {
    |w.scratch| == |w.planets| && forall p | 0 <= p < |w.planets| ::
        BenchOk(w.planets[p].stock, w.scratch[p], cat.resources)
  }

  /** What may change while the day is worked: stock, ledger and scratch, and never more to draw on. */
  ghost predicate Working(w: World, w': World) {
    && w' == w.(planets := w'.planets, ledger := w'.ledger, recorded := w'.recorded, scratch := w'.scratch)
    && OnlyStocks(w.planets, w'.planets) && |w'.scratch| == |w.scratch| && w.recorded <= w'.recorded
    && forall p | 0 <= p < |w.scratch| :: Drained(w.scratch[p].available, w'.scratch[p].available)
  }

  ghost predicate Drained(a: seq<int>, b: seq<int>) {
    |a| == |b| && forall r | 0 <= r < |a| :: b[r] <= a[r]
  }

  lemma WorkingThen(a: World, b: World, c: World)
    requires Working(a, b) && Working(b, c)
    ensures Working(a, c)
  {
    forall p | 0 <= p < |a.planets| ensures OnlyStock(a.planets[p], c.planets[p]) {
      assert OnlyStock(a.planets[p], b.planets[p]) && OnlyStock(b.planets[p], c.planets[p]);
    }
    forall p | 0 <= p < |a.scratch| ensures Drained(a.scratch[p].available, c.scratch[p].available) {
      assert Drained(a.scratch[p].available, b.scratch[p].available)
             && Drained(b.scratch[p].available, c.scratch[p].available);
    }
  }

  /** Drawing inputs from stock and from the mirror together keeps them equal and frees room. */
  lemma DrawnBench(a: seq<Planet>, b: seq<Planet>, p: nat, m: ResourceMap, day: Scratch, n: nat)
    requires Debited(a, b, p, m) && p < |a| && BenchOk(a[p].stock, day, n)
    requires forall r | r in m :: r < n && 0 <= m[r] <= day.available[r]
    ensures |b| == |a| && BenchOk(b[p].stock, day.(available := Minus(day.available, m)), n)
  {
    hide Sum;
    assert OnlyStock(a[p], b[p]);
    forall r: nat | r < n
      ensures b[p].stock.Available(r) == day.available[r] - Qty(m, r) >= 0
              && b[p].stock.FreeSpace(r) >= a[p].stock.FreeSpace(r)
    {
      assert OnHand(b, p, r) == OnHand(a, p, r) - Qty(m, r);
      assert b[p].stock.Claimed(r) == a[p].stock.Claimed(r) && b[p].stock.Reserved(r) == a[p].stock.Reserved(r);
    }
  }

  lemma OtherBench(a: seq<Planet>, b: seq<Planet>, p: nat, m: ResourceMap, q: nat, day: Scratch, n: nat)
    requires Debited(a, b, p, m) && q < |a| && q != p && BenchOk(a[q].stock, day, n)
    ensures |b| == |a| && BenchOk(b[q].stock, day, n)
  {
    hide Sum;
    assert OnlyStock(a[q], b[q]);
    forall r: nat | r < n
      ensures b[q].stock.Available(r) == a[q].stock.Available(r) && b[q].stock.FreeSpace(r) == a[q].stock.FreeSpace(r)
    {
      assert OnHand(b, q, r) == OnHand(a, q, r);
      assert b[q].stock.Claimed(r) == a[q].stock.Claimed(r) && b[q].stock.Reserved(r) == a[q].stock.Reserved(r);
    }
  }

  /** One facility's day: inputs drawn from world p's stock, and its scratch replaced by one that
      mirrors what is left. */
  lemma DrawKeeps(cat: Catalog, w: World, w': World, p: nat, m: ResourceMap, d: int, d': int)
    requires InvAt(cat, w, d, d') && BenchesOk(cat, w) && p < |w.planets|
    requires SpendStep(cat, w, w'.(scratch := w.scratch), p, m, SinkRecipe)
    requires forall r | r in m :: r < cat.resources && 0 <= m[r] <= w.scratch[p].available[r]
    requires |w'.scratch| == |w.scratch| && w'.scratch == w.scratch[p := w'.scratch[p]]
    requires w'.scratch[p].available == Minus(w.scratch[p].available, m)
    requires var drawn := w.scratch[p].(available := w'.scratch[p].available);
             BenchOk(w'.planets[p].stock, drawn, cat.resources) ==>
                 BenchOk(w'.planets[p].stock, w'.scratch[p], cat.resources)
    ensures InvAt(cat, w', d, d') && BenchesOk(cat, w') && Working(w, w')
  {
    hide InvAt, BenchOk, Posted, LedgerOk, Debited;
    forall q | 0 <= q < |w.scratch| ensures Drained(w.scratch[q].available, w'.scratch[q].available) {
      forall r: nat | r < |w.scratch[p].available| ensures 0 <= Qty(m, r) {
      }
    }
    var mid := w'.(scratch := w.scratch);
    MirrorAffords(cat, w, p, m);
    SpendKeepsInv(cat, w, mid, p, m, SinkRecipe, d, d');
    PlanIsFree(cat, mid, w', d, d');
    DrawnBench(w.planets, w'.planets, p, m, w.scratch[p], cat.resources);
    forall q | 0 <= q < |w.planets| && q != p ensures BenchOk(w'.planets[q].stock, w.scratch[q], cat.resources) {
      OtherBench(w.planets, w'.planets, p, m, q, w.scratch[q], cat.resources);
    }
    DebitedMoves(w.planets, w'.planets, p, m);
    PostedGrows(w.recorded, w'.recorded, PlanetStock(p), SinkRecipe, m);
  }

  lemma PostedGrows(a: seq<Move>, b: seq<Move>, from: Account, to: Account, m: ResourceMap)
    requires Posted(a, b, from, to, m)
    ensures a <= b
  {
  }

  /** What the mirror allows, the store affords: taking a recipe's inputs never fails. */
  lemma MirrorAffords(cat: Catalog, w: World, p: nat, m: ResourceMap)
    requires BenchesOk(cat, w) && p < |w.planets|
    requires forall r | r in m :: r < cat.resources && 0 <= m[r] <= w.scratch[p].available[r]
    ensures Affords(w.planets[p].stock, m, cat.resources)
  {
    hide Sum;
    assert BenchOk(w.planets[p].stock, w.scratch[p], cat.resources);
  }

  // ----- power -----

  ghost predicate GenerateStep(cat: Catalog, w: World, w': World, i: nat, x: DayInputs) {
    && i < |w.facilities| && w.facilities[i].planet < |w.scratch|
    && w.facilities[i].kind < |cat.facilities|
        && w.facilities[i].recipe < |cat.facilities[w.facilities[i].kind].recipes|
    && var f := w.facilities[i];
    && var day, r := w.scratch[f.planet], RecipeOf(cat, f);
    && var base := day.(generated := day.generated + cat.facilities[f.kind].passivePower);
    if !Operable(f, w.day) then w' == w
    else if !r.IsGenerator() || !Works(f) then w' == w.(scratch := w.scratch[f.planet := base])
    else
      var run := LargestRun(BurnLimits(cat, r, day), Desired(x, f));
      && SpendStep(cat, w, w'.(scratch := w.scratch), f.planet, InputsAt(r, run), SinkRecipe)
      && w'.scratch == w.scratch[f.planet := base.(available := Minus(day.available, InputsAt(r, run)),
                                                   generated := base.generated + FloorOf(r.powerOutput, run, BP_ONE))]
  }

  lemma FacilityFacts(cat: Catalog, w: World, i: nat, d: int, d': int)
    requires InvAt(cat, w, d, d') && BenchesOk(cat, w) && i < |w.facilities|
    ensures var f := w.facilities[i];
            && f.planet < |w.planets| == |w.scratch| == |cat.planets| && f.kind < |cat.facilities|
                && f.recipe < |cat.facilities[f.kind].recipes|
            && ValidRecipe(cat, RecipeOf(cat, f)) && 0 <= cat.facilities[f.kind].passivePower
            && BenchOk(w.planets[f.planet].stock, w.scratch[f.planet], cat.resources)
            && (cat.Efficiency(f.planet, RecipeOf(cat, f)).Some? ==>
                0 <= cat.Efficiency(f.planet, RecipeOf(cat, f)).value)
  {
    hide Sum, LedgerOk, PlanetsBalance, StockOk, ValidFreight, ValidExpedition, ValidMandate, ValidRules, JobOk,
         FreighterOk, BalancesOk, ColonyOk, PeopleOk, TransfersOk, WorkersOk, StaffOk, SlotsOk;
    var f := w.facilities[i];
    assert FacilityOk(cat, f, |w.planets|);
    assert ValidFacility(cat, cat.facilities[f.kind]);
  }

  lemma BurnLimitsOk(cat: Catalog, r: Recipe, stock: Inventory, day: Scratch)
    requires ValidRecipe(cat, r) && BenchOk(stock, day, cat.resources)
    ensures LimitsOk(BurnLimits(cat, r, day), cat.resources)
  {
    hide Sum;
  }

  lemma MakeLimitsOk(cat: Catalog, p: nat, r: Recipe, stock: Inventory, day: Scratch)
    requires ValidRecipe(cat, r) && BenchOk(stock, day, cat.resources) && p < |cat.planets|
    requires cat.Efficiency(p, r).Some? ==> 0 <= cat.Efficiency(p, r).value
    ensures LimitsOk(MakeLimits(cat, p, r, stock, day), cat.resources)
  {
    hide Sum;
  }

  /** A run within its limits draws no more than there is. */
  lemma InputsFit(l: RunLimits, n: nat, desired: nat)
    requires LimitsOk(l, n)
    ensures forall run | run == LargestRun(l, desired) || run == Productive(l, LargestRun(l, desired)) ::
              && 0 <= run <= desired && Positive(InputsAt(l.recipe, run), n)
              && (forall r | r in InputsAt(l.recipe, run) :: InputsAt(l.recipe, run)[r] <= l.available[r])
  {
    hide Needed, Scaled, LargestRun, MakesSomething;
    LargestRunIsLargest(l, desired);
    RunFits(l, n, desired, LargestRun(l, desired));
    var run := LargestRun(l, desired);
    if run > 0 {
      forall r | r in l.recipe.inputs ensures Needed(l.recipe.inputs[r], run) <= l.available[r] {
        assert InputFits(l, r, run);
      }
    } else {
      forall r | r in l.recipe.inputs ensures Needed(l.recipe.inputs[r], 0) == 0 {
        NothingNeededAtZero(l.recipe.inputs[r]);
      }
    }
  }

  lemma NothingNeededAtZero(q: int)
    ensures Needed(q, 0) == 0
  {
  }

  /** Takes a run's inputs out of the store and the mirror. */
  method DrawInputs(s: Session, p: nat, m: ResourceMap)
    requires s.Stores() && p < |s.planets| == |s.scratch| && Positive(m, s.cat.resources)
    requires Affords(s.planets[p].stock, m, s.cat.resources)
    modifies s`planets, s`scratch, s`ledger, s`recorded
    ensures SpendStep(s.cat, old(s.Now()), s.Now().(scratch := old(s.scratch)), p, m, SinkRecipe)
    ensures s.scratch == old(s.scratch)[p := old(s.scratch[p]).(available := Minus(old(s.scratch[p].available), m))]
  {
    hide Sum, Net, LedgerOk, PlanetsBalance, StockOk, Posted, Debited, ValidCatalog, Affords;
    DebitAll(s, p, m, SinkRecipe);
    s.scratch := s.scratch[p := s.scratch[p].(available := Minus(s.scratch[p].available, m))];
    assert unchanged(s`day, s`nextId, s`facilities, s`transfers, s`ship, s`route, s`colony, s`demand, s`books);
  }

  method Generate(s: Session, i: nat, x: DayInputs, ghost d: int, ghost d': int)
    requires InvAt(s.cat, s.Now(), d, d') && BenchesOk(s.cat, s.Now()) && i < |s.facilities|
    modifies s`planets, s`scratch, s`ledger, s`recorded
    ensures GenerateStep(s.cat, old(s.Now()), s.Now(), i, x)
  {
    hide InvAt, StoresOk, FacilitiesOk, BenchOk, BenchesOk, SpendStep, Affords, LargestRun, InputsAt, BurnLimits,
         LimitsOk, FloorOf, ValidRecipe;
    MaintenanceNeeds(s, d, d');
    FacilityFacts(s.cat, s.Now(), i, d, d');
    var f := s.facilities[i];
    if !Operable(f, s.day) {
      return;
    }
    var day, r := s.scratch[f.planet], RecipeOf(s.cat, f);
    s.scratch := s.scratch[f.planet := day.(generated := day.generated + s.cat.facilities[f.kind].passivePower)];
    if !r.IsGenerator() || !Works(f) {
      return;
    }
    var l := BurnLimits(s.cat, r, day);
    BurnLimitsOk(s.cat, r, s.planets[f.planet].stock, day);
    var run := LargestFeasibleRun(l, Desired(x, f), s.cat.resources);
    InputsFit(l, s.cat.resources, Desired(x, f));
    ghost var w := old(s.Now());
    BurnsOwnInputs(s.cat, r, day);
    InputsInRange(InputsAt(r, run), s.cat.resources);
    MirrorAffords(s.cat, w, f.planet, InputsAt(r, run));
    ghost var sc := s.scratch;
    DrawInputs(s, f.planet, InputsAt(r, run));
    var now := s.scratch[f.planet];
    s.scratch := s.scratch[f.planet := now.(generated := now.generated + FloorOf(r.powerOutput, run, BP_ONE))];
    ScratchAside(s.cat, w, s.Now(), sc, f.planet, InputsAt(r, run));
  }

  lemma InputsInRange(m: ResourceMap, n: nat)
    requires Positive(m, n)
    ensures forall r | r in m :: r < n && 0 <= m[r]
  {
  }

  lemma BurnsOwnInputs(cat: Catalog, r: Recipe, day: Scratch)
    ensures BurnLimits(cat, r, day).recipe == r && BurnLimits(cat, r, day).available == day.available
  {
  }

  lemma ScratchAside(cat: Catalog, w: World, w': World, sc: seq<Scratch>, p: nat, m: ResourceMap)
    requires SpendStep(cat, w.(scratch := sc), w'.(scratch := sc), p, m, SinkRecipe)
    ensures SpendStep(cat, w, w'.(scratch := w.scratch), p, m, SinkRecipe)
  {
  }

  /** Before the day's power is shared out: nothing served, granted or left over yet. */
  predicate Quiet(day: Scratch) {
    0 <= day.generated && day.served == day.granted == day.building == day.pool == day.handling == 0
  }

  function HomeDemand(cat: Catalog, planet: Planet): int {
    planet.population * cat.rules.powerPerResident
  }

  /** Everything generated is served to homes, granted to facilities, granted to construction or left
      over, and homes come first whatever the priorities. */
  predicate Powered(cat: Catalog, planet: Planet, day: Scratch) {
    && day.generated == day.served + day.granted + day.building + day.pool
    && 0 <= day.served && 0 <= day.granted && 0 <= day.building && 0 <= day.pool
    && day.served == Min(day.generated, HomeDemand(cat, planet))
  }

  /** Worlds before p have shared out their power and the rest have not. */
  ghost predicate PowerUpto(cat: Catalog, w: World, p: nat) {
    && |w.scratch| == |w.planets|
    && (forall q: nat | q < p && q < |w.planets| :: Powered(cat, w.planets[q], w.scratch[q]))
    && (forall q: nat | p <= q < |w.planets| :: Quiet(w.scratch[q]))
  }

  lemma GenerateKeeps(cat: Catalog, w: World, w': World, i: nat, x: DayInputs, d: int, d': int)
    requires InvAt(cat, w, d, d') && BenchesOk(cat, w) && GenerateStep(cat, w, w', i, x)
    ensures InvAt(cat, w', d, d') && BenchesOk(cat, w') && Working(w, w')
    ensures var p := w.facilities[i].planet; PowerUpto(cat, w, p) ==> PowerUpto(cat, w', p)
  {
    hide InvAt, BenchOk, SpendStep, LargestRun, InputsAt, BurnLimits, LimitsOk, FloorOf, ValidRecipe;
    FacilityFacts(cat, w, i, d, d');
    var f := w.facilities[i];
    var day, r := w.scratch[f.planet], RecipeOf(cat, f);
    if Operable(f, w.day) {
      if !r.IsGenerator() || !Works(f) {
        PlanIsFree(cat, w, w', d, d');
        SameBenchAfter(w.planets[f.planet].stock, day, w'.scratch[f.planet], cat.resources);
        SameWorking(w, w');
      } else {
        var l := BurnLimits(cat, r, day);
        var run := LargestRun(l, Desired(x, f));
        BurnLimitsOk(cat, r, w.planets[f.planet].stock, day);
        InputsFit(l, cat.resources, Desired(x, f));
        BurnsOwnInputs(cat, r, day);
        InputsInRange(InputsAt(r, run), cat.resources);
        SpendKeepsWidth(cat, w, w'.(scratch := w.scratch), f.planet, InputsAt(r, run), SinkRecipe);
        SameBenchAfter(w'.planets[f.planet].stock, day.(available := w'.scratch[f.planet].available),
            w'.scratch[f.planet], cat.resources);
        DrawKeeps(cat, w, w', f.planet, InputsAt(r, run), d, d');
        SuppliedIsNat(r, run, cat);
      }
      WorkedPower(cat, w, w', f.planet);
    } else {
      SameWorking(w, w');
    }
  }

  lemma SuppliedIsNat(r: Recipe, run: int, cat: Catalog)
    requires ValidRecipe(cat, r) && 0 <= run
    ensures 0 <= FloorOf(r.powerOutput, run, BP_ONE) && 0 <= FloorOf(r.handlingPerDay, run, BP_ONE)
  {
    FloorOfNat(r.powerOutput, run, BP_ONE);
    FloorOfNat(r.handlingPerDay, run, BP_ONE);
  }

  lemma SameBench(stock: Inventory, day: Scratch, day': Scratch, n: nat)
    requires BenchOk(stock, day, n)
    requires day' == day.(generated := day'.generated, served := day'.served, granted := day'.granted,
             building := day'.building, pool := day'.pool,
                          handling := day'.handling, handlingLeft := day'.handlingLeft)
    requires 0 <= day'.pool && 0 <= day'.handling && 0 <= day'.handlingLeft
    ensures BenchOk(stock, day', n)
  {
    hide Sum;
  }

  lemma SameBenchAfter(stock: Inventory, day: Scratch, day': Scratch, n: nat)
    requires day' == day.(generated := day'.generated)
    ensures BenchOk(stock, day, n) ==> BenchOk(stock, day', n)
  {
    if BenchOk(stock, day, n) {
      SameBench(stock, day, day', n);
    }
  }

  lemma SameWorking(w: World, w': World)
    requires w' == w.(scratch := w'.scratch) && |w'.scratch| == |w.scratch|
    requires forall q | 0 <= q < |w.scratch| :: w'.scratch[q].available == w.scratch[q].available
    ensures Working(w, w')
  {
    forall p | 0 <= p < |w.planets| ensures OnlyStock(w.planets[p], w'.planets[p]) {
    }
  }

  /** While world p generates, power elsewhere is untouched. */
  lemma WorkedPower(cat: Catalog, w: World, w': World, p: nat)
    requires Working(w, w') && p < |w.scratch| && w'.scratch == w.scratch[p := w'.scratch[p]]
    requires Quiet(w.scratch[p]) ==> Quiet(w'.scratch[p])
    ensures PowerUpto(cat, w, p) ==> PowerUpto(cat, w', p)
  {
    if PowerUpto(cat, w, p) {
      forall q: nat | q < p && q < |w.planets| ensures Powered(cat, w'.planets[q], w'.scratch[q]) {
        assert OnlyStock(w.planets[q], w'.planets[q]);
      }
    }
  }

  ghost function GenerateNext(cat: Catalog, order: seq<nat>, x: DayInputs): Step {
    (a: World, b: World, k: nat) => k < |order| && GenerateStep(cat, a, b, order[k], x)
  }

  function Shared(cat: Catalog, planet: Planet, day: Scratch): Scratch {
    var served := Min(day.generated, HomeDemand(cat, planet));
    day.(served := served, pool := day.generated - served)
  }

  /** One world's power: generators in priority order, then homes, and the rest is the pool. */
  ghost predicate PowerWorld(cat: Catalog, w: World, w': World, p: nat, x: DayInputs) {
    exists order, mid ::
      && IsProductionOrder(w.facilities, p, order)
      && Through(w, mid, |order|, GenerateNext(cat, order, x))
      && p < |mid.scratch| && p < |mid.planets|
      && w' == mid.(scratch := mid.scratch[p := Shared(cat, mid.planets[p], mid.scratch[p])])
  }

  /** What a day's work carries along: the invariants, the mirror, and everything work does not touch. */
  ghost predicate AtWork(cat: Catalog, w: World, a: World, d: int, d': int) {
    InvAt(cat, a, d, d') && BenchesOk(cat, a) && Working(w, a)
  }

  ghost function Generating(cat: Catalog, w: World, p: nat, d: int, d': int): World -> bool {
    (a: World) => AtWork(cat, w, a, d, d') && PowerUpto(cat, a, p)
  }

  lemma PeopleAreNat(cat: Catalog, w: World, p: nat, d: int, d': int)
    requires InvAt(cat, w, d, d') && p < |w.planets|
    ensures 0 <= w.planets[p].population && 0 <= HomeDemand(cat, w.planets[p])
            && 0 <= w.planets[p].population * cat.rules.waterPerResident
    ensures 0 <= w.planets[p].population * cat.rules.foodPerResident
  {
    hide LedgerOk, PlanetsBalance, StockOk, ValidFreight, ValidExpedition, ValidMandate, ValidFacility, JobOk,
         FreighterOk, BalancesOk, ColonyOk, PeopleOk, StaffOk, SlotsOk;
    forall i | 0 <= i < |w.facilities| ensures 0 <= StaffOn(p)(w.facilities[i]) {
      JobCrewIsNat(cat, w.facilities[i], |w.planets|);
    }
    SumNonNegative(w.facilities, StaffOn(p));
    SumNonNegative(w.transfers, MovingOn(p));
    assert 0 <= ReserveOf(w.planets[p], w.facilities, w.transfers, p);
  }

  lemma JobCrewIsNat(cat: Catalog, f: Facility, planets: nat)
    requires FacilityOk(cat, f, planets)
    ensures 0 <= f.staff && 0 <= JobCrew(f)
  {
  }

  lemma GenerateAllKeeps(cat: Catalog, w: World, w': World, p: nat, order: seq<nat>, x: DayInputs, d: int, d': int)
    requires InvAt(cat, w, d, d') && BenchesOk(cat, w) && PowerUpto(cat, w, p)
             && IsProductionOrder(w.facilities, p, order)
    requires Through(w, w', |order|, GenerateNext(cat, order, x))
    ensures AtWork(cat, w, w', d, d') && PowerUpto(cat, w', p)
  {
    hide InvAt, GenerateStep, BenchesOk, PowerUpto;
    SameWorking(w, w);
    var inv := Generating(cat, w, p, d, d');
    forall a, b, k: nat | k < |order| && inv(a) && GenerateNext(cat, order, x)(a, b, k) ensures inv(b) {
      assert a.facilities[order[k]].planet == p;
      GenerateKeeps(cat, a, b, order[k], x, d, d');
      WorkingThen(w, a, b);
    }
    ThroughKeeps(w, w', |order|, GenerateNext(cat, order, x), inv);
  }

  lemma SharedKeeps(cat: Catalog, w: World, w': World, p: nat, d: int, d': int)
    requires InvAt(cat, w, d, d') && BenchesOk(cat, w) && PowerUpto(cat, w, p) && p < |w.planets|
    requires w' == w.(scratch := w.scratch[p := Shared(cat, w.planets[p], w.scratch[p])])
    ensures InvAt(cat, w', d, d') && BenchesOk(cat, w') && Working(w, w') && PowerUpto(cat, w', p + 1)
  {
    hide InvAt, BenchOk, HomeDemand;
    PlanIsFree(cat, w, w', d, d');
    PeopleAreNat(cat, w, p, d, d');
    SharedBench(cat, w.planets[p].stock, w.planets[p], w.scratch[p], cat.resources);
    SameWorking(w, w');
  }

  lemma SharedBench(cat: Catalog, stock: Inventory, planet: Planet, day: Scratch, n: nat)
    requires BenchOk(stock, day, n) && Quiet(day)
    ensures BenchOk(stock, Shared(cat, planet, day), n)
  {
    hide Sum;
    SameBench(stock, day, Shared(cat, planet, day), n);
  }

  lemma PowerWorldKeeps(cat: Catalog, w: World, w': World, p: nat, x: DayInputs, d: int, d': int)
    requires InvAt(cat, w, d, d') && BenchesOk(cat, w) && PowerUpto(cat, w, p) && PowerWorld(cat, w, w', p, x)
    ensures AtWork(cat, w, w', d, d') && PowerUpto(cat, w', p + 1)
  {
    hide InvAt, BenchesOk, PowerUpto, IsProductionOrder, Shared, GenerateNext;
    var order, mid :| IsProductionOrder(w.facilities, p, order) && Through(w, mid, |order|, GenerateNext(cat, order, x))
                      && p < |mid.scratch| && p < |mid.planets|
                      && w' == mid.(scratch := mid.scratch[p := Shared(cat, mid.planets[p], mid.scratch[p])]);
    GenerateAllKeeps(cat, w, mid, p, order, x, d, d');
    SharedKeeps(cat, mid, w', p, d, d');
    WorkingThen(w, mid, w');
  }

  ghost function PowerWorlds(cat: Catalog, x: DayInputs): Step {
    (a: World, b: World, p: nat) => PowerWorld(cat, a, b, p, x)
  }

  ghost predicate PowerStep(cat: Catalog, w: World, w': World, x: DayInputs) {
    Through(w, w', |w.planets|, PowerWorlds(cat, x))
  }

  lemma PowerKeepsInv(cat: Catalog, w: World, w': World, x: DayInputs, d: int, d': int)
    requires InvAt(cat, w, d, d') && BenchesOk(cat, w) && PowerUpto(cat, w, 0) && PowerStep(cat, w, w', x)
    ensures AtWork(cat, w, w', d, d') && PowerUpto(cat, w', |w.planets|)
  {
    hide InvAt, BenchesOk, PowerUpto, PowerWorld;
    PoweringKeeps(cat, w, w', |w.planets|, x, d, d');
  }

  lemma {:induction false} PoweringKeeps(cat: Catalog, w: World, w': World, n: nat, x: DayInputs, d: int, d': int)
    requires InvAt(cat, w, d, d') && BenchesOk(cat, w) && PowerUpto(cat, w, 0) && Through(w, w', n, PowerWorlds(cat, x))
    ensures AtWork(cat, w, w', d, d') && PowerUpto(cat, w', n)
    decreases n
  {
    hide InvAt, BenchesOk, PowerUpto, PowerWorld;
    if n == 0 {
      SameWorking(w, w);
    } else {
      var m :| Through(w, m, n - 1, PowerWorlds(cat, x)) && PowerWorlds(cat, x)(m, w', n - 1);
      PoweringKeeps(cat, w, m, n - 1, x, d, d');
      PowerWorldKeeps(cat, m, w', n - 1, x, d, d');
      WorkingThen(w, m, w');
    }
  }

  method PowerOne(s: Session, p: nat, x: DayInputs, ghost d: int, ghost d': int)
    requires InvAt(s.cat, s.Now(), d, d') && BenchesOk(s.cat, s.Now()) && PowerUpto(s.cat, s.Now(), p)
             && p < |s.planets|
    modifies s`planets, s`scratch, s`ledger, s`recorded
    ensures PowerWorld(s.cat, old(s.Now()), s.Now(), p, x)
    ensures InvAt(s.cat, s.Now(), d, d') && BenchesOk(s.cat, s.Now()) && PowerUpto(s.cat, s.Now(), p + 1)
            && |s.planets| == |old(s.planets)|
  {
    hide InvAt, GenerateStep, IsProductionOrder, FacilitiesOk, StoresOk, BenchesOk, PowerUpto, Shared, Working;
    MaintenanceNeeds(s, d, d');
    ghost var w := s.Now();
    IdsAscend(s.cat, s.facilities, |s.planets|, s.nextId);
    var order := ProductionOrder(s.facilities, p);
    OrderInRange(s.facilities, p, order);
    ghost var step := GenerateNext(s.cat, order, x);
    SameWorking(w, w);
    for k := 0 to |order|
      invariant Through(w, s.Now(), k, step) && s.facilities == w.facilities
      invariant InvAt(s.cat, s.Now(), d, d') && BenchesOk(s.cat, s.Now()) && Working(w, s.Now())
    {
      ghost var m := s.Now();
      Generate(s, order[k], x, d, d');
      GenerateKeeps(s.cat, m, s.Now(), order[k], x, d, d');
      WorkingThen(w, m, s.Now());
      ThroughNext(w, m, s.Now(), k, step);
    }
    ghost var mid := s.Now();
    GenerateAllKeeps(s.cat, w, mid, p, order, x, d, d');
    WorkingWidth(s.cat, w, mid);
    s.scratch := s.scratch[p := Shared(s.cat, s.planets[p], s.scratch[p])];
    SharedKeeps(s.cat, mid, s.Now(), p, d, d');
    assert unchanged(s`day, s`nextId, s`facilities, s`transfers, s`ship, s`route, s`colony, s`demand, s`books);
  }

  lemma WorkingWidth(cat: Catalog, w: World, w': World)
    requires Working(w, w') && BenchesOk(cat, w)
    ensures |w'.planets| == |w.planets| && |w'.scratch| == |w.planets| && w'.day == w.day
            && w'.facilities == w.facilities
  {
  }

  method PowerAll(s: Session, x: DayInputs, ghost d: int, ghost d': int)
    requires InvAt(s.cat, s.Now(), d, d') && BenchesOk(s.cat, s.Now()) && PowerUpto(s.cat, s.Now(), 0)
    modifies s`planets, s`scratch, s`ledger, s`recorded
    ensures PowerStep(s.cat, old(s.Now()), s.Now(), x)
  {
    hide InvAt, PowerWorld, BenchesOk, PowerUpto;
    ghost var w := s.Now();
    ghost var step := PowerWorlds(s.cat, x);
    for p := 0 to |s.planets|
      invariant |s.planets| == |w.planets| && Through(w, s.Now(), p, step)
      invariant InvAt(s.cat, s.Now(), d, d') && BenchesOk(s.cat, s.Now()) && PowerUpto(s.cat, s.Now(), p)
    {
      ghost var m := s.Now();
      PowerOne(s, p, x, d, d');
      ThroughNext(w, m, s.Now(), p, step);
    }
  }

  // ----- the opening snapshot -----

  /** A fresh working set that mirrors the world's unreserved stock. */
  function Opening(stock: Inventory): Scratch {
    Scratch(seq(|stock.onHand|, r requires 0 <= r < |stock.onHand| => stock.Available(r)), seq(|stock.onHand|, r => 0),
        0, 0, 0, 0, 0, 0, 0)
  }

  ghost predicate SnapshotStep(w: World, w': World) {
    w' == w.(scratch := seq(|w.planets|, p requires 0 <= p < |w.planets| => Opening(w.planets[p].stock)))
  }

  method TakeSnapshot(s: Session)
    modifies s`scratch
    ensures SnapshotStep(old(s.Now()), s.Now())
  {
    var days: seq<Scratch> := [];
    for p := 0 to |s.planets|
      invariant |days| == p && forall q | 0 <= q < p :: days[q] == Opening(s.planets[q].stock)
    {
      days := days + [Opening(s.planets[p].stock)];
    }
    s.scratch := days;
  }

  lemma SnapshotKeepsInv(cat: Catalog, w: World, w': World, d: int, d': int)
    requires InvAt(cat, w, d, d') && SnapshotStep(w, w')
    ensures InvAt(cat, w', d, d') && BenchesOk(cat, w') && PowerUpto(cat, w', 0)
  {
    hide InvAt, Inventory.Available, Inventory.FreeSpace;
    PlanIsFree(cat, w, w', d, d');
    WorldsAreSound(cat, w, d, d');
  }

  lemma WorldsAreSound(cat: Catalog, w: World, d: int, d': int)
    requires InvAt(cat, w, d, d')
    ensures forall p, r | 0 <= p < |w.planets| && 0 <= r < cat.resources ::
              |w.planets[p].stock.onHand| == cat.resources && 0 <= w.planets[p].stock.Available(r)
                  && 0 <= w.planets[p].stock.FreeSpace(r)
    ensures forall p | 0 <= p < |w.planets| :: |w.planets[p].stock.onHand| == cat.resources
  {
    hide Sum, WorkforceOk, FreighterOk, BalancesOk, ColonyOk, PeopleOk, LedgerOk, PlanetsBalance, ValidCatalog;
    forall p | 0 <= p < |w.planets| ensures w.planets[p].stock.Sound(cat.resources) {
    }
  }
}
