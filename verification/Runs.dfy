/** Whole runs: every state reached from a fresh session by any commands and any days. */
module Runs {
  import opened Units
  import opened Sums
  import opened Stock
  import opened Ledger
  import opened Catalog
  import opened State
  import opened Chains
  import opened Mandate
  import opened Departures
  import opened Day
  import opened Determined
  import opened Commands
  import opened History

  // ----- a fresh session -----

  datatype StartWorld = StartWorld(colonised: bool, population: int, workers: int, stocks: ResourceMap, capacity: int)
  datatype StartFacility = StartFacility(planet: nat, kind: nat, recipe: nat, staff: int, condition: int)
  datatype Scenario = Scenario(startDay: int, worlds: seq<StartWorld>, facilities: seq<StartFacility>, crew: int)

  function FirstPlanet(cat: Catalog, sc: Scenario, p: nat): Planet
    requires p < |sc.worlds|
  {
    var w := sc.worlds[p];
    Planet(w.colonised, w.population, w.workers, if p == cat.freight.origin then sc.crew else 0,
           Inventory(seq(cat.resources, r requires 0 <= r < cat.resources => Qty(w.stocks, r)), [], [], w.capacity),
           false, -1, false, 0)
  }

  /** A negative staff asks for the recipe's full staff. */
  function FirstFacility(cat: Catalog, sc: Scenario, i: nat): Facility
    requires i < |sc.facilities|
  {
    var f := sc.facilities[i];
    var known := f.kind < |cat.facilities| && f.recipe < |cat.facilities[f.kind].recipes|;
    var full := if known then cat.facilities[f.kind].recipes[f.recipe].staff else 0;
    Facility(i + 1, f.kind, f.recipe, f.planet, Active, if f.staff < 0 then full else f.staff, f.condition,
             if known then cat.facilities[f.kind].recipes[f.recipe].band else 0, false, sc.startDay, -1, None, None, 0)
  }

  function FirstPlanets(cat: Catalog, sc: Scenario): seq<Planet> {
    seq(|sc.worlds|, p requires 0 <= p < |sc.worlds| => FirstPlanet(cat, sc, p))
  }

  function FirstFacilities(cat: Catalog, sc: Scenario): seq<Facility> {
    seq(|sc.facilities|, i requires 0 <= i < |sc.facilities| => FirstFacility(cat, sc, i))
  }

  function FirstShip(cat: Catalog, sc: Scenario): Ship {
    Ship(Docked, NoMission, Some(cat.freight.origin), None, -1, -1, sc.startDay, map[], 0, [], map[])
  }

  function FirstRoute(cat: Catalog, sc: Scenario): Route {
    Route(map[], map[], map[], {}, false, sc.startDay, 2 * cat.freight.legDays + 2 * cat.freight.minDwellDays, false,
        false)
  }

  ghost function FirstBooks(planets: seq<Planet>): Books {
    Books(planets, map[], map[], map[], 0, Sum(planets, PopulationOf()), Sum(planets, WorkersOf()), false)
  }

  /** Nothing has happened yet: the books open at the stock the scenario sets out. */
  ghost function FirstState(cat: Catalog, sc: Scenario): World {
    World(sc.startDay, |sc.facilities| + 2, FirstPlanets(cat, sc), FirstFacilities(cat, sc), [], FirstShip(cat, sc),
        FirstRoute(cat, sc),
          Colony(false, false, 0, 0, map[], -1, -1, -1),
          Demand(false, -1, map[], map[], false, false, Pending, [], false, map[], false),
          [], [], [], FirstBooks(FirstPlanets(cat, sc)))
  }

  /** What the loader and the closing check demand of a scenario; a home world already settled and a
      slot kept for the founding hub are this model's own. */
  ghost predicate ValidScenario(cat: Catalog, sc: Scenario) {
    && ValidCatalog(cat) && |sc.worlds| == |cat.planets| && 0 <= sc.startDay && 0 <= sc.crew
    && (forall p | 0 <= p < |sc.worlds| ::
          && 0 <= sc.worlds[p].capacity && sc.worlds[p].workers <= sc.worlds[p].population
          && (forall r | r in sc.worlds[p].stocks ::
              r < cat.resources && 0 <= sc.worlds[p].stocks[r] <= sc.worlds[p].capacity)
          && 0 <= ReserveOf(FirstPlanet(cat, sc, p), FirstFacilities(cat, sc), [], p))
    && (forall i | 0 <= i < |sc.facilities| ::
          var f := sc.facilities[i];
          && f.planet < |sc.worlds| && f.kind < |cat.facilities| && f.recipe < |cat.facilities[f.kind].recipes|
          && f.staff <= cat.facilities[f.kind].recipes[f.recipe].staff
          && cat.rules.conditionMin <= f.condition <= cat.rules.conditionMax)
    && SlotsOk(cat, FirstFacilities(cat, sc), FirstPlanets(cat, sc))
  }

  lemma FirstStock(cat: Catalog, sc: Scenario)
    requires ValidScenario(cat, sc)
    ensures StockOk(FirstPlanets(cat, sc), cat.resources) && BookedOk(FirstPlanets(cat, sc))
    ensures PlanetsBalance(FirstPlanets(cat, sc), FirstPlanets(cat, sc), [])
  {
    hide SlotsOk, ReserveOf, ValidCatalog;
    var ps := FirstPlanets(cat, sc);
    forall p | 0 <= p < |ps| ensures ps[p].stock.Sound(cat.resources) && ps[p].stock.Booked() {
      forall r: nat | r < cat.resources ensures ps[p].stock.Reserved(r) == 0 == ps[p].stock.Claimed(r)
          && 0 <= ps[p].stock.onHand[r] <= ps[p].stock.capacity {
        SumEmpty(ReservedFor(r));
        SumEmpty(ClaimedFor(r));
      }
    }
    forall a: Account, r: nat ensures Net([], a, r) == 0 {
      SumEmpty(EffectOn(a, r));
    }
  }

  lemma FirstWorkforce(cat: Catalog, sc: Scenario)
    requires ValidScenario(cat, sc)
    ensures WorkforceOk(cat, FirstPlanets(cat, sc), FirstFacilities(cat, sc), [], |sc.facilities| + 2)
  {
    hide SlotsOk;
    var ps, fs := FirstPlanets(cat, sc), FirstFacilities(cat, sc);
    forall p | 0 <= p < |ps| ensures 0 <= ps[p].crew && 0 <= ReserveOf(ps[p], fs, [], p)
        && ps[p].workers <= ps[p].population {
      assert ps[p] == FirstPlanet(cat, sc, p);
    }
    forall i | 0 <= i < |fs| ensures FacilityOk(cat, fs[i], |ps|) && StaffFits(cat, fs[i], []) {
      var f := sc.facilities[i];
      assert fs[i] == FirstFacility(cat, sc, i);
      assert ValidFacility(cat, cat.facilities[f.kind]) && ValidRecipe(cat, cat.facilities[f.kind].recipes[f.recipe]);
      SumEmpty(IncomingTo(fs[i].id));
    }
  }

  lemma FirstBalances(cat: Catalog, sc: Scenario)
    ensures BalancesOk(cat, FirstState(cat, sc))
  {
    var fs := FirstFacilities(cat, sc);
    forall a: Account, r: nat ensures Net([], a, r) == 0 {
      SumEmpty(EffectOn(a, r));
    }
    forall id: nat, r: nat ensures Sum(fs, HeldFor(id, r)) == 0 {
      SumZero(fs, HeldFor(id, r));
    }
  }

  lemma FirstFreight(cat: Catalog, sc: Scenario)
    requires ValidScenario(cat, sc)
    ensures FreighterOk(cat, FirstState(cat, sc), sc.startDay)
  {
    hide SlotsOk, ReserveOf, BookedOk;
    FirstStock(cat, sc);
    forall r: nat ensures Sum([], DeliveredBy(r)) == 0 == Sum([], CarriedBy(r)) {
      SumEmpty(DeliveredBy(r));
      SumEmpty(CarriedBy(r));
    }
  }

  /** The base case: a session just created satisfies everything a committed state does. */
  lemma FirstStateIsSound(cat: Catalog, sc: Scenario)
    requires ValidScenario(cat, sc)
    ensures Inv(cat, FirstState(cat, sc)) && 0 <= FirstState(cat, sc).day
  {
    hide Sum, StockOk, PlanetsBalance, WorkforceOk, FreighterOk, BalancesOk, SlotsOk, ReserveOf;
    FirstStock(cat, sc);
    FirstWorkforce(cat, sc);
    FirstBalances(cat, sc);
    FirstFreight(cat, sc);
  }

  method CreatePlanets(cat: Catalog, sc: Scenario) returns (planets: seq<Planet>)
    ensures planets == FirstPlanets(cat, sc)
  {
    planets := [];
    for p := 0 to |sc.worlds|
      invariant |planets| == p && forall q | 0 <= q < p :: planets[q] == FirstPlanet(cat, sc, q)
    {
      planets := planets + [FirstPlanet(cat, sc, p)];
    }
  }

  /** Facilities take consecutive ids as they are created. */
  method CreateFacilities(cat: Catalog, sc: Scenario) returns (facilities: seq<Facility>, nextId: nat)
    ensures facilities == FirstFacilities(cat, sc) && nextId == |facilities| + 1
  {
    facilities, nextId := [], 1;
    for i := 0 to |sc.facilities|
      invariant |facilities| == i && nextId == i + 1 && forall k | 0 <= k < i ::
                facilities[k] == FirstFacility(cat, sc, k)
    {
      facilities := facilities + [FirstFacility(cat, sc, i).(id := nextId)];
      nextId := nextId + 1;
    }
  }

  method Create(cat: Catalog, sc: Scenario) returns (s: Session)
    requires ValidScenario(cat, sc)
    ensures s.cat == cat && s.Now() == FirstState(cat, sc) && Inv(cat, s.Now()) && fresh(s)
  {
    hide ValidScenario, Inv, FirstPlanets, FirstFacilities;
    FirstStateIsSound(cat, sc);
    var planets := CreatePlanets(cat, sc);
    var facilities, nextId := CreateFacilities(cat, sc);
    FirstIds(cat, sc);
    s := new Session.FromState(cat, World(sc.startDay, nextId + 1, planets, facilities, [], FirstShip(cat, sc),
        FirstRoute(cat, sc),
                                          Colony(false, false, 0, 0, map[], -1, -1, -1),
                                          Demand(false, -1, map[], map[], false, false, Pending, [], false, map[],
                                              false),
                                          [], [], [], Books(planets, map[], map[], map[], 0, 0, 0, false)));
    s.books := FirstBooks(planets);
  }

  lemma FirstIds(cat: Catalog, sc: Scenario)
    ensures |FirstFacilities(cat, sc)| == |sc.facilities|
  {
  }

  // ----- runs -----

  datatype Op = Today(x: DayInputs) | Order(c: Command)

  ghost predicate OpOk(cat: Catalog, op: Op, planets: nat) {
    match op
    case Today(x) => ValidInputs(cat, x, planets)
    case Order(c) => CommandOk(cat, c, planets)
  }

  ghost predicate OpStep(cat: Catalog, w: World, w': World, op: Op) {
    OpOk(cat, op, |w.planets|) &&
    match op
    case Today(x) => DayStep(cat, w, w', x)
    case Order(c) => CommandStep(cat, w, w', c)
  }

  /** w' is reached from w by these operations, each accepted or resolved, in this order. */
  ghost predicate Run(cat: Catalog, w: World, w': World, ops: seq<Op>)
    decreases |ops|, 0
  {
    if ops == [] then w' == w else RunThen(cat, w, w', ops[..|ops| - 1], ops[|ops| - 1])
  }

  ghost predicate RunThen(cat: Catalog, w: World, w': World, before: seq<Op>, op: Op)
    decreases |before|, 1
  {
    exists m :: Run(cat, w, m, before) && OpStep(cat, m, w', op)
  }

  function DaysIn(ops: seq<Op>): nat {
    if ops == [] then 0 else DaysIn(ops[..|ops| - 1]) + (if ops[|ops| - 1].Today? then 1 else 0)
  }

  lemma OpKeepsInv(cat: Catalog, w: World, w': World, op: Op)
    requires Inv(cat, w) && 0 <= w.day && OpStep(cat, w, w', op)
    ensures Inv(cat, w') && Continues(w, w') && w'.day == w.day + (if op.Today? then 1 else 0)
  {
    hide Inv, DayStep, CommandStep, ValidInputs, CommandOk, Continues;
    match op {
      case Today(x) => DayKeepsInv(cat, w, w', x); DayContinues(cat, w, w', x);
      case Order(c) => CommandKeepsInv(cat, w, w', c); CommandContinues(cat, w, w', c);
    }
  }

  /** Every state of every run satisfies every invariant and continues what came before; the calendar
      counts the days resolved. */
  lemma {:induction false} RunIsSound(cat: Catalog, w: World, w': World, ops: seq<Op>)
    requires Inv(cat, w) && 0 <= w.day && Run(cat, w, w', ops)
    ensures Inv(cat, w') && Continues(w, w') && w'.day == w.day + DaysIn(ops)
    decreases |ops|
  {
    hide Inv, OpStep, Continues;
    if ops == [] {
      Routine(w, w);
    } else {
      var before := ops[..|ops| - 1];
      assert RunThen(cat, w, w', before, ops[|ops| - 1]);
      var m :| Run(cat, w, m, before) && OpStep(cat, m, w', ops[|ops| - 1]);
      RunIsSound(cat, w, m, before);
      OpKeepsInv(cat, m, w', ops[|ops| - 1]);
      ContinuesThen(w, m, w');
    }
  }

  /** The kernel is deterministic: the same operations, from states that agree on everything but how their
      ledger entries were written down, lead to states that agree. */
  lemma {:induction false} RunIsDetermined(cat: Catalog, a: World, a': World, b: World, b': World, ops: seq<Op>)
    requires Inv(cat, a) && 0 <= a.day && Same(a, b) && Run(cat, a, a', ops) && Run(cat, b, b', ops)
    ensures Same(a', b')
    decreases |ops|
  {
    hide Inv, OpStep, Same, Continues;
    if ops != [] {
      var before, op := ops[..|ops| - 1], ops[|ops| - 1];
      assert RunThen(cat, a, a', before, op) && RunThen(cat, b, b', before, op);
      var m :| Run(cat, a, m, before) && OpStep(cat, m, a', op);
      var n :| Run(cat, b, n, before) && OpStep(cat, n, b', op);
      RunIsDetermined(cat, a, m, b, n, before);
      RunIsSound(cat, a, m, before);
      OpSame(cat, m, a', n, b', op);
    }
  }

  lemma OpSame(cat: Catalog, a: World, a': World, b: World, b': World, op: Op)
    requires Inv(cat, a) && Same(a, b) && OpStep(cat, a, a', op) && OpStep(cat, b, b', op)
    ensures Same(a', b')
  {
    hide Inv, Same, DayStep, CommandStep, CommandAllowed;
    match op {
      case Today(x) => DayIsDetermined(cat, a, a', b, b', x);
      case Order(c) => CommandIsDetermined(cat, a, a', b, b', c);
    }
  }

  /** No run ever withdraws a waiver: a resource once waived keeps nothing back, whatever floor is authored
      for it later. */
  lemma WaiversStay(cat: Catalog, w: World, w': World, ops: seq<Op>, r: nat, p: nat, ratio: int)
    requires Inv(cat, w) && 0 <= w.day && Run(cat, w, w', ops) && r in w.route.waived && p < |w'.planets|
    ensures ReserveFloor(cat, w'.route, w'.planets, w'.facilities, p, r, ratio) == 0
  {
    hide Inv, Run;
    RunIsSound(cat, w, w', ops);
  }

  /** Over any run, what a finished facility holds and is promised is within its full staff, unless more than that
      were still on their way to it when it was finished; and then it is no more than those. */
  lemma PromisesFitStaff(cat: Catalog, w: World, w': World, ops: seq<Op>, i: nat)
    requires Inv(cat, w) && 0 <= w.day && Run(cat, w, w', ops) && i < |w'.facilities| && w'.facilities[i].job.None?
    ensures var f := w'.facilities[i];
            && f.kind < |cat.facilities| && f.recipe < |cat.facilities[f.kind].recipes|
            && (f.awaited <= FullStaff(cat, f) ==> f.staff + Sum(w'.transfers, IncomingTo(f.id)) <= FullStaff(cat, f))
            && f.staff + Sum(w'.transfers, IncomingTo(f.id)) <= Max(FullStaff(cat, f), f.awaited)
  {
    hide Run, Sum, Continues, StoresOk, FreighterOk, BalancesOk, ColonyOk, PeopleOk, TransfersOk, WorkersOk, SlotsOk,
         JobOk;
    RunIsSound(cat, w, w', ops);
    assert StaffFits(cat, w'.facilities[i], w'.transfers);
  }

  ghost predicate Reachable(cat: Catalog, sc: Scenario, w: World) {
    exists ops :: Run(cat, FirstState(cat, sc), w, ops)
  }

  // ----- what the closing check asks for -----

  /** The conditions the kernel checks at every commit, as far as this model holds their subjects. */
  ghost predicate Validated(cat: Catalog, w: World) {
    && (forall p, r | 0 <= p < |w.planets| && 0 <= r < cat.resources ::
          && |w.planets[p].stock.onHand| == cat.resources
          && 0 <= w.planets[p].stock.onHand[r] <= w.planets[p].stock.capacity
          && w.planets[p].stock.Reserved(r) <= w.planets[p].stock.onHand[r]
          && w.planets[p].stock.onHand[r] + w.planets[p].stock.Claimed(r) <= w.planets[p].stock.capacity)
    && (forall p | 0 <= p < |w.planets| ::
          && w.planets[p].workers <= w.planets[p].population
          && 0 <= ReserveOf(w.planets[p], w.facilities, w.transfers, p)
          && p < |cat.planets| && Sum(w.facilities, SlotOn(p)) <= cat.planets[p].slotCount)
    && (forall i | 0 <= i < |w.facilities| ::
          var f := w.facilities[i];
          && f.kind < |cat.facilities| && f.recipe < |cat.facilities[f.kind].recipes|
          && cat.rules.conditionMin <= f.condition <= cat.rules.conditionMax
          && 0 <= f.staff <= FullStaff(cat, f)
          && (f.job.Some? ==> f.job.value.workDone <= f.job.value.workTotal
                              && forall r | r in f.job.value.escrow ::
                                  f.job.value.escrow[r] <= Qty(f.job.value.cost, r)))
    && (w.ship.phase.Transit? ==> w.ship.location.None?) && 0 <= w.ship.tank
  }

  lemma StockIsValid(cat: Catalog, w: World)
    requires Inv(cat, w)
    ensures forall p, r | 0 <= p < |w.planets| && 0 <= r < cat.resources ::
              && |w.planets[p].stock.onHand| == cat.resources
              && 0 <= w.planets[p].stock.onHand[r] <= w.planets[p].stock.capacity
              && w.planets[p].stock.Reserved(r) <= w.planets[p].stock.onHand[r]
              && w.planets[p].stock.onHand[r] + w.planets[p].stock.Claimed(r) <= w.planets[p].stock.capacity
    ensures (w.ship.phase.Transit? ==> w.ship.location.None?) && 0 <= w.ship.tank
  {
    hide Sum, WorkforceOk, BalancesOk, ColonyOk, PeopleOk, LedgerOk, PlanetsBalance, DemandOk, ClaimsOk, ShippedOk,
         ValidFacility, ValidExpedition, ValidMandate, ValidRules;
    forall p, r | 0 <= p < |w.planets| && 0 <= r < cat.resources
      ensures && |w.planets[p].stock.onHand| == cat.resources
              && 0 <= w.planets[p].stock.onHand[r] <= w.planets[p].stock.capacity
              && w.planets[p].stock.Reserved(r) <= w.planets[p].stock.onHand[r]
              && w.planets[p].stock.onHand[r] + w.planets[p].stock.Claimed(r) <= w.planets[p].stock.capacity
    {
      assert w.planets[p].stock.Sound(cat.resources) && w.planets[p].stock.Booked();
    }
  }

  lemma FacilityIsValid(cat: Catalog, w: World, i: nat)
    requires Inv(cat, w) && i < |w.facilities|
    ensures var f := w.facilities[i];
            && f.kind < |cat.facilities| && f.recipe < |cat.facilities[f.kind].recipes|
            && cat.rules.conditionMin <= f.condition <= cat.rules.conditionMax
            && 0 <= f.staff <= FullStaff(cat, f)
            && (f.job.Some? ==> f.job.value.workDone <= f.job.value.workTotal
                                && forall r | r in f.job.value.escrow ::
                                    f.job.value.escrow[r] <= Qty(f.job.value.cost, r))
  {
    hide Sum, FreighterOk, BalancesOk, ColonyOk, PeopleOk, StockOk, LedgerOk, PlanetsBalance, WorkersOk, SlotsOk,
         FloorOf, ValidFreight, ValidExpedition, ValidMandate, ValidRules;
    var f := w.facilities[i];
    assert FacilityOk(cat, f, |w.planets|) && StaffFits(cat, f, w.transfers);
    assert ValidFacility(cat, cat.facilities[f.kind]) && ValidRecipe(cat, cat.facilities[f.kind].recipes[f.recipe]);
    SumNonNegative(w.transfers, IncomingTo(f.id));
    if f.job.Some? {
      forall r | r in f.job.value.escrow ensures f.job.value.escrow[r] <= Qty(f.job.value.cost, r) {
        assert Qty(f.job.value.escrow, r) + Qty(f.job.value.consumed, r) == Qty(f.job.value.cost, r);
      }
    }
  }

  lemma WorldIsValid(cat: Catalog, w: World, p: nat)
    requires Inv(cat, w) && p < |w.planets|
    ensures w.planets[p].workers <= w.planets[p].population && 0 <= ReserveOf(w.planets[p], w.facilities, w.transfers,
            p)
    ensures p < |cat.planets| && Sum(w.facilities, SlotOn(p)) <= cat.planets[p].slotCount
  {
    hide Sum, FreighterOk, BalancesOk, ColonyOk, PeopleOk, StockOk, LedgerOk, PlanetsBalance, FacilitiesOk, TransfersOk,
         StaffOk, ValidCatalog;
  }

  /** No reachable state fails what the check after every command and at the end of every day asks of stock,
      claims, workers, slots, condition, staffing, jobs and the ship. */
  lemma CheckCannotFail(cat: Catalog, sc: Scenario, w: World)
    requires ValidScenario(cat, sc) && Reachable(cat, sc, w)
    ensures Validated(cat, w)
  {
    hide Inv, Run, ValidScenario, FullStaff, SlotOn, Inventory.Reserved, Inventory.Claimed;
    var ops :| Run(cat, FirstState(cat, sc), w, ops);
    FirstStateIsSound(cat, sc);
    RunIsSound(cat, FirstState(cat, sc), w, ops);
    StockIsValid(cat, w);
    forall p | 0 <= p < |w.planets|
      ensures w.planets[p].workers <= w.planets[p].population && 0 <= ReserveOf(w.planets[p], w.facilities, w.transfers,
              p)
      ensures p < |cat.planets| && Sum(w.facilities, SlotOn(p)) <= cat.planets[p].slotCount
    {
      WorldIsValid(cat, w, p);
    }
    forall i | 0 <= i < |w.facilities|
      ensures var f := w.facilities[i];
              && f.kind < |cat.facilities| && f.recipe < |cat.facilities[f.kind].recipes|
              && cat.rules.conditionMin <= f.condition <= cat.rules.conditionMax
              && 0 <= f.staff <= FullStaff(cat, f)
              && (f.job.Some? ==> f.job.value.workDone <= f.job.value.workTotal
                                  && forall r | r in f.job.value.escrow ::
                                      f.job.value.escrow[r] <= Qty(f.job.value.cost, r))
    {
      FacilityIsValid(cat, w, i);
    }
  }

  // ----- conservation -----

  /** A resource on the first k worlds. */
  ghost function OnWorlds(planets: seq<Planet>, k: nat, r: nat): int {
    if k == 0 then 0 else OnWorlds(planets, k - 1, r) + OnHand(planets, k - 1, r)
  }

  /** Everything stranded by refunds to facilities 0..k. */
  ghost function StrandedUpto(stranded: map<(nat, nat), int>, k: nat, r: nat): int {
    if k == 0 then 0 else StrandedUpto(stranded, k - 1, r) + Stranded(stranded, k - 1, r)
  }

  /** What the sector holds of a resource: worlds, construction escrow, hold, tank and expedition. */
  ghost function Holdings(cat: Catalog, w: World, r: nat): int {
    OnWorlds(w.planets, |w.planets|, r) + Sum(w.facilities, EscrowOf(r)) + Qty(w.ship.cargo, r) + (if r == cat.fuel then
        w.ship.tank else 0)
    + Qty(w.colony.cargo, r)
  }

  /** What left the sector without an entry: refunds a full store turned away, founding cargo spilled. */
  ghost function Lost(w: World, r: nat): int {
    StrandedUpto(w.books.stranded, w.nextId, r) + Qty(w.books.spilled, r)
  }

  lemma {:induction false} WorldsAddUp(opening: seq<Planet>, planets: seq<Planet>, recorded: seq<Move>, k: nat, r: nat)
    requires PlanetsBalance(opening, planets, recorded) && k <= |planets| && forall p | 0 <= p < |planets| ::
             r < |planets[p].stock.onHand|
    ensures OnWorlds(planets, k, r) == OnWorlds(opening, k, r) + PlanetsNet(recorded, k, r)
  {
    hide OnHand;
    if k > 0 {
      WorldsAddUp(opening, planets, recorded, k - 1, r);
      assert OnHand(planets, k - 1, r) == OnHand(opening, k - 1, r) + Net(recorded, PlanetStock(k - 1), r);
    }
  }

  ghost function HeldBelow(k: nat, r: nat): Facility -> int {
    (f: Facility) => if f.id < k then EscrowQty(f, r) else 0
  }

  lemma {:induction false} SumPlus(fs: seq<Facility>, f: Facility -> int, g: Facility -> int, h: Facility -> int)
    requires forall x: Facility :: h(x) == f(x) + g(x)
    ensures Sum(fs, h) == Sum(fs, f) + Sum(fs, g)
  {
    if fs != [] {
      SumPlus(fs[..|fs| - 1], f, g, h);
    }
  }

  lemma {:induction false} EscrowsAddUp(fs: seq<Facility>, stranded: map<(nat, nat), int>, recorded: seq<Move>, k: nat,
      r: nat)
    requires EscrowBalance(fs, stranded, recorded)
    ensures EscrowNet(recorded, k, r) == Sum(fs, HeldBelow(k, r)) + StrandedUpto(stranded, k, r)
  {
    hide Net, Stranded;
    if k == 0 {
      SumZero(fs, HeldBelow(0, r));
    } else {
      EscrowsAddUp(fs, stranded, recorded, k - 1, r);
      SumPlus(fs, HeldBelow(k - 1, r), HeldFor(k - 1, r), HeldBelow(k, r));
      assert Net(recorded, Escrow(k - 1), r) == Sum(fs, HeldFor(k - 1, r)) + Stranded(stranded, k - 1, r);
    }
  }

  lemma AllHeld(fs: seq<Facility>, k: nat, r: nat)
    requires forall i | 0 <= i < |fs| :: fs[i].id < k
    ensures Sum(fs, HeldBelow(k, r)) == Sum(fs, EscrowOf(r))
  {
    SumSame(fs, HeldBelow(k, r), EscrowOf(r));
  }

  /** Sector conservation: in any committed state, what the sector holds of a resource, plus what was
      stranded or spilled, is what it opened with plus everything that came in from outside less
      everything that went out, entry by entry. */
  lemma HoldingsBalance(cat: Catalog, w: World, r: nat)
    requires Inv(cat, w) && r < cat.resources
    ensures Holdings(cat, w, r) + Lost(w, r) == OnWorlds(w.books.opening, |w.planets|, r) + OwnedNet(w.recorded, r)
  {
    hide Sum, Net, OwnedNet, EscrowNet, PlanetsNet, OnWorlds, StrandedUpto, Inv, EscrowBalance, PlanetsBalance;
    BalancesAt(cat, w, r);
    WorldsAddUp(w.books.opening, w.planets, w.recorded, |w.planets|, r);
    EscrowsAddUp(w.facilities, w.books.stranded, w.recorded, w.nextId, r);
    AllHeld(w.facilities, w.nextId, r);
    OwnedIsTheSumOfItsAccounts(w.recorded, |w.planets|, w.nextId, r);
  }

  lemma BalancesAt(cat: Catalog, w: World, r: nat)
    requires Inv(cat, w) && r < cat.resources
    ensures PlanetsBalance(w.books.opening, w.planets, w.recorded) && forall p | 0 <= p < |w.planets| ::
            r < |w.planets[p].stock.onHand|
    ensures EscrowBalance(w.facilities, w.books.stranded, w.recorded) && AllInRange(w.recorded, |w.planets|, w.nextId)
    ensures forall i | 0 <= i < |w.facilities| :: w.facilities[i].id < w.nextId
    ensures Net(w.recorded, ShipHold, r) == Qty(w.ship.cargo, r) + (if r == cat.fuel then w.ship.tank else 0)
    ensures Net(w.recorded, Expedition, r) == Qty(w.colony.cargo, r) + Qty(w.books.spilled, r)
  {
    hide Sum, Net, FreighterOk, ColonyOk, PeopleOk, ValidCatalog, TransfersOk, WorkersOk, StaffOk, SlotsOk,
         EscrowBalance, PlanetsBalance, AllInRange, FacilityOk;
    forall p | 0 <= p < |w.planets| ensures r < |w.planets[p].stock.onHand| {
      assert w.planets[p].stock.Sound(cat.resources);
    }
  }

  lemma {:induction false} OwnedNetSplits(a: seq<Move>, b: seq<Move>, r: nat)
    ensures OwnedNet(a + b, r) == OwnedNet(a, r) + OwnedNet(b, r)
  {
    SumConcat(a, b, OwnedEffectOn(r));
  }

  /** Over any run, the change in what the sector holds is exactly the net inflow of the entries that
      run added, less what it stranded or spilled. */
  lemma RunConserves(cat: Catalog, w: World, w': World, ops: seq<Op>, r: nat)
    requires Inv(cat, w) && 0 <= w.day && Run(cat, w, w', ops) && r < cat.resources
    ensures w.recorded <= w'.recorded
    ensures (Holdings(cat, w', r) + Lost(w', r)) - (Holdings(cat, w, r) + Lost(w, r))
            == OwnedNet(w'.recorded[|w.recorded|..], r)
  {
    hide Inv, Run, Holdings, Lost, OwnedNet, OnWorlds;
    RunIsSound(cat, w, w', ops);
    HoldingsBalance(cat, w, r);
    HoldingsBalance(cat, w', r);
    SameWidths(cat, w, w');
    OwnedNetSplits(w.recorded, w'.recorded[|w.recorded|..], r);
    assert w'.recorded == w.recorded + w'.recorded[|w.recorded|..];
  }

  lemma SameWidths(cat: Catalog, w: World, w': World)
    requires Inv(cat, w) && Inv(cat, w')
    ensures |w.planets| == |w'.planets|
  {
    hide WorkforceOk, FreighterOk, BalancesOk, ColonyOk, PeopleOk, StockOk, LedgerOk, PlanetsBalance, ValidCatalog;
  }

  // ----- people -----

  /** The sector's people and workers, on worlds and travelling, are the same in number in every state of
      a run. */
  lemma NobodyIsLost(cat: Catalog, w: World, w': World, ops: seq<Op>)
    requires Inv(cat, w) && 0 <= w.day && Run(cat, w, w', ops)
    ensures var away, away' := w.colony.launched && !w.colony.founded, w'.colony.launched && !w'.colony.founded;
            && Sum(w.planets, PopulationOf()) + (if away then w.colony.residents else 0)
               == Sum(w'.planets, PopulationOf()) + (if away' then w'.colony.residents else 0)
            && Sum(w.planets, WorkersOf()) + (if away then w.colony.workers else 0)
               == Sum(w'.planets, WorkersOf()) + (if away' then w'.colony.workers else 0)
  {
    hide Inv, Run, Sum;
    RunIsSound(cat, w, w', ops);
    PeopleHold(cat, w);
    PeopleHold(cat, w');
  }

  lemma PeopleHold(cat: Catalog, w: World)
    requires Inv(cat, w)
    ensures PeopleOk(w.planets, w.colony, w.books.people, w.books.workforce)
  {
    hide StoresOk, WorkforceOk, FreighterOk, BalancesOk, ColonyOk, PeopleOk;
  }

  /** An expedition is founded on the day it is due, no sooner and no later, and stays as it was founded. */
  lemma FoundsOnTime(cat: Catalog, w: World, w': World, ops: seq<Op>)
    requires Inv(cat, w) && 0 <= w.day && Run(cat, w, w', ops) && w.colony.launched
    ensures w'.colony.launched && w'.colony.arrivalDay == w.colony.arrivalDay
    ensures w'.colony.founded <==> w.colony.founded || w.colony.arrivalDay <= w'.day
    ensures w'.colony.founded ==> w'.colony.foundedDay == w.colony.arrivalDay
    ensures w.colony.founded ==> w'.colony == w.colony
  {
    hide StoresOk, WorkforceOk, FreighterOk, BalancesOk, PeopleOk, Run;
    RunIsSound(cat, w, w', ops);
  }

  // ----- the mandate -----

  /** Delivered, promised and in flight together never exceed the original requirement, and at most one
      mission is promised or in flight. */
  lemma MandateIsBounded(cat: Catalog, w: World, r: nat)
    requires Inv(cat, w)
    ensures Qty(w.demand.delivered, r) + Qty(w.demand.pending, r) + (if w.ship.mission.StrategicOutbound? then
            Qty(w.ship.cargo, r) else 0)
              <= Qty(cat.mandate.requirement, r)
    ensures w.demand.requested ==> w.ship.mission.NoMission?
  {
    hide Sum, StoresOk, WorkforceOk, BalancesOk, ColonyOk, PeopleOk, ClaimsOk, BookedOk, ShipOk, TankOk, ShippedOk;
    var vs := w.demand.voyages;
    if w.ship.mission.StrategicOutbound? {
      var last := vs[|vs| - 1];
      assert vs == vs[..|vs| - 1] + [last];
      VoyageAppended(vs[..|vs| - 1], last);
      AllDelivered(vs[..|vs| - 1], r);
    } else {
      AllDelivered(vs, r);
    }
    assert Qty(w.demand.delivered, r) == Sum(vs, DeliveredBy(r));
    assert Sum(vs, CarriedBy(r)) + Qty(w.demand.pending, r) <= Qty(cat.mandate.requirement, r);
  }

  /** A resolved mandate stays resolved the same way, and nothing delivered is ever taken back. */
  lemma ResolutionIsPermanent(cat: Catalog, w: World, w': World, ops: seq<Op>, r: nat)
    requires Inv(cat, w) && 0 <= w.day && Run(cat, w, w', ops)
    ensures w.demand.resolved ==> w'.demand.resolved && w'.demand.decision == w.demand.decision
    ensures Qty(w.demand.delivered, r) <= Qty(w'.demand.delivered, r)
  {
    hide Inv, Run;
    RunIsSound(cat, w, w', ops);
  }
}
