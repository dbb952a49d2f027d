/** Phases 5 and 6: recipes in priority order from opening stock, then the day's output and needs. */
module Production {
  import opened Units
  import opened Sums
  import opened Stock
  import opened Ledger
  import opened Catalog
  import opened State
  import opened Support
  import opened Chains
  import opened Order
  import opened Outside
  import opened Freight
  import opened Maintenance
  import opened Throughput
  import opened Power

  /** Power is shared out on every world. */
  ghost predicate AllPowered(cat: Catalog, w: World) {
    PowerUpto(cat, w, |w.planets|)
  }

  /** Whether the recipe is resolved in this phase, and not held up. */
  predicate Produces(cat: Catalog, f: Facility, day: int)
    requires f.kind < |cat.facilities| && f.recipe < |cat.facilities[f.kind].recipes|
  {
    Operable(f, day) && !RecipeOf(cat, f).IsGenerator() && Works(f)
  }

  function Shifted(day: Scratch, r: Recipe, l: RunLimits, run: int): Scratch {
    day.(available := Minus(day.available, InputsAt(r, run)), staged := Added(day.staged, OutputsAt(l, run)),
         pool := day.pool - Needed(r.powerPerDay, run), granted := day.granted + Needed(r.powerPerDay, run),
         handling := day.handling + FloorOf(r.handlingPerDay, run, BP_ONE))
  }

  ghost predicate ProduceStep(cat: Catalog, w: World, w': World, i: nat, x: DayInputs) {
    && i < |w.facilities| && w.facilities[i].planet < |w.scratch| && w.facilities[i].planet < |w.planets|
    && w.facilities[i].planet < |cat.planets|
    && w.facilities[i].kind < |cat.facilities|
        && w.facilities[i].recipe < |cat.facilities[w.facilities[i].kind].recipes|
    && var f := w.facilities[i];
    && var day, stock, r := w.scratch[f.planet], w.planets[f.planet].stock, RecipeOf(cat, f);
    && |stock.onHand| == |day.staged|
    && if !Produces(cat, f, w.day) then w' == w
       else
         var l := MakeLimits(cat, f.planet, r, stock, day);
         var run := Productive(l, LargestRun(l, Desired(x, f)));
         && SpendStep(cat, w, w'.(scratch := w.scratch), f.planet, InputsAt(r, run), SinkRecipe)
         && w'.scratch == w.scratch[f.planet := Shifted(day, r, l, run)]
  }

  /** A productive run's power, inputs and outputs stay within what was there. */
  lemma RunIsWithin(cat: Catalog, p: nat, r: Recipe, stock: Inventory, day: Scratch, desired: nat)
    requires ValidRecipe(cat, r) && BenchOk(stock, day, cat.resources) && p < |cat.planets|
    requires cat.Efficiency(p, r).Some? ==> 0 <= cat.Efficiency(p, r).value
    ensures var l := MakeLimits(cat, p, r, stock, day);
            var run := Productive(l, LargestRun(l, desired));
            && LimitsOk(l, cat.resources) && l.recipe == r && l.available == day.available
            && 0 <= run <= desired && Positive(InputsAt(r, run), cat.resources)
            && (forall k | k in InputsAt(r, run) :: k < cat.resources && 0 <= InputsAt(r, run)[k] <= day.available[k])
            && (forall k: nat | k < cat.resources ::
                0 <= Qty(OutputsAt(l, run), k) && day.staged[k] + Qty(OutputsAt(l, run), k) <= stock.FreeSpace(k))
            && 0 <= Needed(r.powerPerDay, run) <= day.pool
            && 0 <= FloorOf(r.handlingPerDay, run, BP_ONE)
  {
    hide Sum, Needed, Scaled, LargestRun, MakesSomething, FloorOf;
    var l := MakeLimits(cat, p, r, stock, day);
    MakeLimitsOk(cat, p, r, stock, day);
    LargestRunIsLargest(l, desired);
    RunFits(l, cat.resources, desired, LargestRun(l, desired));
    InputsFit(l, cat.resources, desired);
    var run := Productive(l, LargestRun(l, desired));
    SuppliedIsNat(r, run, cat);
    forall k: nat | k < cat.resources
      ensures 0 <= Qty(OutputsAt(l, run), k) && day.staged[k] + Qty(OutputsAt(l, run), k) <= stock.FreeSpace(k)
    {
      assert l.headroom[k] == Max(0, stock.capacity - (stock.onHand[k] + stock.Claimed(k) + day.staged[k]));
      assert 0 <= day.staged[k] <= stock.FreeSpace(k);
    }
  }

  method Produce(s: Session, i: nat, x: DayInputs, ghost d: int, ghost d': int)
    requires InvAt(s.cat, s.Now(), d, d') && BenchesOk(s.cat, s.Now()) && i < |s.facilities|
    modifies s`planets, s`scratch, s`ledger, s`recorded
    ensures ProduceStep(s.cat, old(s.Now()), s.Now(), i, x)
  {
    hide InvAt, StoresOk, FacilitiesOk, BenchOk, BenchesOk, SpendStep, Affords, LargestRun, InputsAt, OutputsAt,
         MakeLimits, LimitsOk, FloorOf, ValidRecipe, Needed, Productive, Minus, Added, Inventory.FreeSpace;
    MaintenanceNeeds(s, d, d');
    FacilityFacts(s.cat, s.Now(), i, d, d');
    var f := s.facilities[i];
    ghost var w := s.Now();
    BenchWidths(s.planets[f.planet].stock, s.scratch[f.planet], s.cat.resources);
    if !Produces(s.cat, f, s.day) {
      return;
    }
    var day, r := s.scratch[f.planet], RecipeOf(s.cat, f);
    var l := MakeLimits(s.cat, f.planet, r, s.planets[f.planet].stock, day);
    RunIsWithin(s.cat, f.planet, r, s.planets[f.planet].stock, day, Desired(x, f));
    var largest := LargestFeasibleRun(l, Desired(x, f), s.cat.resources);
    var run := DropIdleRun(l, largest, s.cat.resources);
    MirrorAffords(s.cat, w, f.planet, InputsAt(r, run));
    DrawInputs(s, f.planet, InputsAt(r, run));
    Finish(s, f.planet, r, l, run, day);
  }

  lemma BenchWidths(stock: Inventory, day: Scratch, n: nat)
    requires BenchOk(stock, day, n)
    ensures |stock.onHand| == |day.staged| == |day.available| == n && 0 <= day.handling && 0 <= day.handlingLeft
    ensures forall k: nat | k < n :: 0 <= day.staged[k]
  {
  }

  /** Power, output and port service follow the same run. */
  method Finish(s: Session, p: nat, r: Recipe, l: RunLimits, run: int, ghost day: Scratch)
    requires p < |s.scratch| && s.scratch[p] == day.(available := Minus(day.available, InputsAt(r, run)))
    modifies s`scratch
    ensures s.scratch == old(s.scratch)[p := Shifted(day, r, l, run)]
  {
    var grant := Needed(r.powerPerDay, run);
    var now := s.scratch[p];
    now := now.(pool := now.pool - grant, granted := now.granted + grant);
    now := now.(staged := Added(now.staged, OutputsAt(l, run)));
    now := now.(handling := now.handling + FloorOf(r.handlingPerDay, run, BP_ONE));
    s.scratch := s.scratch[p := now];
  }

  lemma ProduceKeeps(cat: Catalog, w: World, w': World, i: nat, x: DayInputs, d: int, d': int)
    requires InvAt(cat, w, d, d') && BenchesOk(cat, w) && AllPowered(cat, w) && ProduceStep(cat, w, w', i, x)
    ensures InvAt(cat, w', d, d') && BenchesOk(cat, w') && AllPowered(cat, w') && Working(w, w')
  {
    hide InvAt, BenchOk, SpendStep, LargestRun, InputsAt, OutputsAt, MakeLimits, LimitsOk, FloorOf, ValidRecipe, Needed,
         Productive, Minus, Added, Inventory.FreeSpace;
    FacilityFacts(cat, w, i, d, d');
    var f := w.facilities[i];
    if Produces(cat, f, w.day) {
      var p := f.planet;
      var day, stock, r := w.scratch[p], w.planets[p].stock, RecipeOf(cat, f);
      var l := MakeLimits(cat, p, r, stock, day);
      var run := Productive(l, LargestRun(l, Desired(x, f)));
      RunIsWithin(cat, p, r, stock, day, Desired(x, f));
      BenchWidths(stock, day, cat.resources);
      SpendKeepsWidth(cat, w, w'.(scratch := w.scratch), p, InputsAt(r, run), SinkRecipe);
      RoomKept(cat, w, w', p, InputsAt(r, run));
      StagedBench(w'.planets[p].stock, stock, day, r, l, run, cat.resources);
      DrawKeeps(cat, w, w', p, InputsAt(r, run), d, d');
      ProducedPower(cat, w, w', p, day, r, l, run);
    } else {
      SameWorking(w, w');
    }
  }

  /** Taking inputs out only frees room. */
  lemma RoomKept(cat: Catalog, w: World, w': World, p: nat, m: ResourceMap)
    requires SpendStep(cat, w, w'.(scratch := w.scratch), p, m, SinkRecipe) && p < |w.planets|
             && |w.planets[p].stock.onHand| == cat.resources
    requires Positive(m, cat.resources)
    ensures |w'.planets| == |w.planets| && |w'.planets[p].stock.onHand| == cat.resources
    ensures forall k: nat | k < cat.resources :: w.planets[p].stock.FreeSpace(k) <= w'.planets[p].stock.FreeSpace(k)
  {
    hide Sum, Posted, LedgerOk;
    assert OnlyStock(w.planets[p], w'.planets[p]);
    forall k: nat | k < cat.resources ensures w.planets[p].stock.FreeSpace(k) <= w'.planets[p].stock.FreeSpace(k) {
      assert OnHand(w'.planets, p, k) == OnHand(w.planets, p, k) - Qty(m, k);
      assert w'.planets[p].stock.Claimed(k) == w.planets[p].stock.Claimed(k);
    }
  }

  lemma StagedBench(after: Inventory, stock: Inventory, day: Scratch, r: Recipe, l: RunLimits, run: int, n: nat)
    requires |after.onHand| == n && |stock.onHand| == |day.staged| == n && 0 <= day.handling
             && 0 <= FloorOf(r.handlingPerDay, run, BP_ONE)
    requires forall k: nat | k < n :: stock.FreeSpace(k) <= after.FreeSpace(k)
    requires forall k: nat | k < n ::
             0 <= day.staged[k] && 0 <= Qty(OutputsAt(l, run), k)
             && day.staged[k] + Qty(OutputsAt(l, run), k) <= stock.FreeSpace(k)
    requires 0 <= Needed(r.powerPerDay, run) <= day.pool
    ensures BenchOk(after, day.(available := Minus(day.available, InputsAt(r, run))), n) ==>
            BenchOk(after, Shifted(day, r, l, run), n)
  {
    hide Sum, FloorOf, Needed, InputsAt, OutputsAt, Inventory.FreeSpace, Inventory.Available;
  }

  lemma ProducedPower(cat: Catalog, w: World, w': World, p: nat, day: Scratch, r: Recipe, l: RunLimits, run: int)
    requires AllPowered(cat, w) && Working(w, w') && p < |w.scratch| && day == w.scratch[p]
    requires w'.scratch == w.scratch[p := Shifted(day, r, l, run)] && 0 <= Needed(r.powerPerDay, run) <= day.pool
    ensures AllPowered(cat, w')
  {
    hide FloorOf, Needed, InputsAt, OutputsAt, HomeDemand;
    forall q: nat | q < |w'.planets| ensures Powered(cat, w'.planets[q], w'.scratch[q]) {
      assert OnlyStock(w.planets[q], w'.planets[q]);
      assert Powered(cat, w.planets[q], w.scratch[q]);
      SameDemand(cat, w.planets[q], w'.planets[q]);
    }
  }

  lemma SameDemand(cat: Catalog, a: Planet, b: Planet)
    requires OnlyStock(a, b)
    ensures HomeDemand(cat, a) == HomeDemand(cat, b)
  {
  }

  // ----- a world's recipes -----

  ghost function ProduceNext(cat: Catalog, order: seq<nat>, x: DayInputs): Step {
    (a: World, b: World, k: nat) => k < |order| && ProduceStep(cat, a, b, order[k], x)
  }

  function Ready(day: Scratch): Scratch {
    day.(handlingLeft := day.handling)
  }

  ghost predicate ProduceWorld(cat: Catalog, w: World, w': World, p: nat, x: DayInputs) {
    exists order, mid ::
      && IsProductionOrder(w.facilities, p, order)
      && Through(w, mid, |order|, ProduceNext(cat, order, x))
      && p < |mid.scratch|
      && w' == mid.(scratch := mid.scratch[p := Ready(mid.scratch[p])])
  }

  ghost function Producing(cat: Catalog, w: World, d: int, d': int): World -> bool {
    (a: World) => AtWork(cat, w, a, d, d') && AllPowered(cat, a)
  }

  lemma ProduceAllKeeps(cat: Catalog, w: World, w': World, order: seq<nat>, x: DayInputs, d: int, d': int)
    requires InvAt(cat, w, d, d') && BenchesOk(cat, w) && AllPowered(cat, w)
             && Through(w, w', |order|, ProduceNext(cat, order, x))
    ensures AtWork(cat, w, w', d, d') && AllPowered(cat, w')
  {
    hide InvAt, ProduceStep, BenchesOk, AllPowered;
    SameWorking(w, w);
    var inv := Producing(cat, w, d, d');
    forall a, b, k: nat | k < |order| && inv(a) && ProduceNext(cat, order, x)(a, b, k) ensures inv(b) {
      ProduceKeeps(cat, a, b, order[k], x, d, d');
      WorkingThen(w, a, b);
    }
    ThroughKeeps(w, w', |order|, ProduceNext(cat, order, x), inv);
  }

  lemma ReadyKeeps(cat: Catalog, w: World, w': World, p: nat, d: int, d': int)
    requires InvAt(cat, w, d, d') && BenchesOk(cat, w) && AllPowered(cat, w) && p < |w.scratch|
    requires w' == w.(scratch := w.scratch[p := Ready(w.scratch[p])])
    ensures InvAt(cat, w', d, d') && BenchesOk(cat, w') && AllPowered(cat, w') && Working(w, w')
  {
    hide InvAt, BenchOk, HomeDemand;
    PlanIsFree(cat, w, w', d, d');
    SameWorking(w, w');
    forall q | 0 <= q < |w.planets| ensures BenchOk(w'.planets[q].stock, w'.scratch[q], cat.resources) {
      BenchWidths(w.planets[q].stock, w.scratch[q], cat.resources);
      ReadyBench(w.planets[q].stock, w.scratch[q], w'.scratch[q], cat.resources);
    }
  }

  lemma ReadyBench(stock: Inventory, day: Scratch, day': Scratch, n: nat)
    requires BenchOk(stock, day, n) && day' == day.(handlingLeft := day'.handlingLeft) && 0 <= day'.handlingLeft
    ensures BenchOk(stock, day', n)
  {
    hide Sum;
    SameBench(stock, day, day', n);
  }

  lemma ProduceWorldKeeps(cat: Catalog, w: World, w': World, p: nat, x: DayInputs, d: int, d': int)
    requires InvAt(cat, w, d, d') && BenchesOk(cat, w) && AllPowered(cat, w) && ProduceWorld(cat, w, w', p, x)
    ensures AtWork(cat, w, w', d, d') && AllPowered(cat, w')
  {
    hide InvAt, BenchesOk, AllPowered, IsProductionOrder, ProduceNext;
    var order, mid :| IsProductionOrder(w.facilities, p, order) && Through(w, mid, |order|, ProduceNext(cat, order, x))
                      && p < |mid.scratch| && w' == mid.(scratch := mid.scratch[p := Ready(mid.scratch[p])]);
    ProduceAllKeeps(cat, w, mid, order, x, d, d');
    ReadyKeeps(cat, mid, w', p, d, d');
    WorkingThen(w, mid, w');
  }

  ghost function ProduceWorlds(cat: Catalog, x: DayInputs): Step {
    (a: World, b: World, p: nat) => ProduceWorld(cat, a, b, p, x)
  }

  ghost predicate ProductionStep(cat: Catalog, w: World, w': World, x: DayInputs) {
    Through(w, w', |w.planets|, ProduceWorlds(cat, x))
  }

  /** Through the whole of production, whatever the priorities: the scratch mirror stays equal to the
      stock, nothing is drawn that the opening snapshot did not show, every output still fits beside what
      is promised, and no world's power is over- or under-spent. */
  lemma ProductionKeepsInv(cat: Catalog, w: World, w': World, x: DayInputs, d: int, d': int)
    requires InvAt(cat, w, d, d') && BenchesOk(cat, w) && AllPowered(cat, w) && ProductionStep(cat, w, w', x)
    ensures AtWork(cat, w, w', d, d') && AllPowered(cat, w')
  {
    hide InvAt, ProduceWorld, BenchesOk, AllPowered;
    SameWorking(w, w);
    var inv := Producing(cat, w, d, d');
    forall a, b, p: nat | p < |w.planets| && inv(a) && ProduceWorlds(cat, x)(a, b, p) ensures inv(b) {
      ProduceWorldKeeps(cat, a, b, p, x, d, d');
      WorkingThen(w, a, b);
    }
    ThroughKeeps(w, w', |w.planets|, ProduceWorlds(cat, x), inv);
  }

  /** Whatever the priorities, a day's power and production together draw from each world's stock no more
      than was unreserved there when the day opened. */
  lemma InputsFromOpening(cat: Catalog, w: World, mid: World, w': World, x: DayInputs, d: int, d': int, p: nat, r: nat)
    requires InvAt(cat, w, d, d') && BenchesOk(cat, w) && PowerUpto(cat, w, 0)
    requires PowerStep(cat, w, mid, x) && ProductionStep(cat, mid, w', x) && p < |w.planets| && r < cat.resources
    ensures |w'.planets| == |w.planets| && r < |w.planets[p].stock.onHand| && r < |w'.planets[p].stock.onHand|
    ensures 0 <= w'.planets[p].stock.Available(r) <= w.planets[p].stock.Available(r)
  {
    hide InvAt, PowerStep, ProductionStep, AllPowered, PowerUpto, Inventory.Available, Inventory.FreeSpace;
    PowerKeepsInv(cat, w, mid, x, d, d');
    WorkingWidth(cat, w, mid);
    AllPoweredAfter(cat, mid, w);
    ProductionKeepsInv(cat, mid, w', x, d, d');
    WorkingThen(w, mid, w');
    assert Drained(w.scratch[p].available, w'.scratch[p].available);
    assert BenchOk(w.planets[p].stock, w.scratch[p], cat.resources)
           && BenchOk(w'.planets[p].stock, w'.scratch[p], cat.resources);
  }

  lemma AllPoweredAfter(cat: Catalog, mid: World, w: World)
    requires PowerUpto(cat, mid, |w.planets|) && |mid.planets| == |w.planets|
    ensures AllPowered(cat, mid)
  {
    hide PowerUpto;
  }

  method ProduceOne(s: Session, p: nat, x: DayInputs, ghost d: int, ghost d': int)
    requires InvAt(s.cat, s.Now(), d, d') && BenchesOk(s.cat, s.Now()) && AllPowered(s.cat, s.Now()) && p < |s.planets|
    modifies s`planets, s`scratch, s`ledger, s`recorded
    ensures ProduceWorld(s.cat, old(s.Now()), s.Now(), p, x)
    ensures InvAt(s.cat, s.Now(), d, d') && BenchesOk(s.cat, s.Now()) && AllPowered(s.cat, s.Now())
            && |s.planets| == |old(s.planets)|
  {
    hide InvAt, ProduceStep, IsProductionOrder, FacilitiesOk, StoresOk, BenchesOk, AllPowered, Working;
    MaintenanceNeeds(s, d, d');
    ghost var w := s.Now();
    IdsAscend(s.cat, s.facilities, |s.planets|, s.nextId);
    var order := ProductionOrder(s.facilities, p);
    OrderInRange(s.facilities, p, order);
    ghost var step := ProduceNext(s.cat, order, x);
    SameWorking(w, w);
    for k := 0 to |order|
      invariant Through(w, s.Now(), k, step) && s.facilities == w.facilities
      invariant InvAt(s.cat, s.Now(), d, d') && BenchesOk(s.cat, s.Now()) && Working(w, s.Now())
                && AllPowered(s.cat, s.Now())
    {
      ghost var m := s.Now();
      Produce(s, order[k], x, d, d');
      ProduceKeeps(s.cat, m, s.Now(), order[k], x, d, d');
      WorkingThen(w, m, s.Now());
      WorkingWidth(s.cat, m, s.Now());
      ThroughNext(w, m, s.Now(), k, step);
    }
    ghost var mid := s.Now();
    WorkingWidth(s.cat, w, mid);
    s.scratch := s.scratch[p := Ready(s.scratch[p])];
    ReadyKeeps(s.cat, mid, s.Now(), p, d, d');
    assert unchanged(s`day, s`nextId, s`facilities, s`transfers, s`ship, s`route, s`colony, s`demand, s`books);
  }

  method ProduceAll(s: Session, x: DayInputs, ghost d: int, ghost d': int)
    requires InvAt(s.cat, s.Now(), d, d') && BenchesOk(s.cat, s.Now()) && AllPowered(s.cat, s.Now())
    modifies s`planets, s`scratch, s`ledger, s`recorded
    ensures ProductionStep(s.cat, old(s.Now()), s.Now(), x)
  {
    hide InvAt, ProduceWorld, BenchesOk, AllPowered;
    ghost var w := s.Now();
    ghost var step := ProduceWorlds(s.cat, x);
    for p := 0 to |s.planets|
      invariant |s.planets| == |w.planets| && Through(w, s.Now(), p, step)
      invariant InvAt(s.cat, s.Now(), d, d') && BenchesOk(s.cat, s.Now()) && AllPowered(s.cat, s.Now())
    {
      ghost var m := s.Now();
      ProduceOne(s, p, x, d, d');
      ThroughNext(w, m, s.Now(), p, step);
    }
  }
}
