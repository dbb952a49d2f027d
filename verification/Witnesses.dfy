/** A small sector, and states of it in which goods are lost without an entry. */
module Witnesses {
  import opened Units
  import opened Sums
  import opened Stock
  import opened Catalog
  import opened State
  import opened Support
  import opened Workforce
  import opened Construction
  import opened Loading
  import opened Freight
  import opened Departures
  import opened Outside
  import opened Relief
  import opened Effects
  import opened Expedition
  import opened Throughput
  import opened Power
  import opened Production
  import opened Totality
  import opened Commands
  import opened Runs

  // ----- a small sector -----

  const FUEL := 0
  const GOODS := 3
  const DOCKING := Recipe(3, map[], map[], 0, 0, 9000, None, 1)
  const CRAFT := Recipe(1, map[], map[], 0, 0, 0, None, 1)

  /** A home and an outpost with a port each, and a frontier whose store is small; a workshop costs two units
      of goods and is finished on its first worked day. */
  const SMALL := Catalog(
    4, [1000, 1000, 1000, 1000], 2, 3, 2, 1, FUEL,
    [FacilityDef([DOCKING], map[], 0, 1, 0, 0, 1, false, false, 1), FacilityDef([CRAFT], map[GOODS := 2000], 0, 1, 0, 0,
        0, true, false, 1)],
    [PlanetDef(4, map[]), PlanetDef(4, map[]), PlanetDef(4, map[])],
    FreightSpec(0, 1, 100000, 4000, 2, 1, 4000, 2000, 2000, 0),
    ExpeditionSpec(2, 2, 1, map[GOODS := 1000], map[GOODS := 1000], map[], 1, 0),
    MandateSpec(1, 2, map[], map[], 1, 1, 1, 1, 0, 0, 1),
    Rules(0, 10000, 0, 0, 0, 0, 0, 0, 0, 0, 1, 2, 1, 0, 0, 0, map[], 0))

  const SECTOR := Scenario(
    0,
    [StartWorld(true, 10, 5, map[FUEL := 5000, GOODS := 4000], 10000), StartWorld(true, 2, 1, map[], 10000),
        StartWorld(false, 0, 0, map[], 500)],
    [StartFacility(0, 0, 0, 3, 10000), StartFacility(1, 0, 0, 1, 10000)],
    1)

  const HOME_PORT := Facility(1, 0, 0, 0, Active, 3, 10000, 1, false, 0, -1, None, None, 0)
  const AWAY_PORT := Facility(2, 0, 0, 1, Active, 1, 10000, 1, false, 0, -1, None, None, 0)

  lemma SumTwo<T>(a: T, b: T, f: T -> int)
    ensures Sum([a, b], f) == f(a) + f(b)
  {
    assert [a, b] == [a] + [b];
    SumSingleton(a, f);
    SumAppend([a], b, f);
  }

  lemma TwoPorts()
    ensures FirstFacilities(SMALL, SECTOR) == [HOME_PORT, AWAY_PORT]
  {
  }

  lemma SmallIsValid()
    ensures ValidCatalog(SMALL)
  {
  }

  lemma SectorIsValid()
    ensures ValidScenario(SMALL, SECTOR)
  {
    hide ValidCatalog;
    SmallIsValid();
    TwoPorts();
    var fs := [HOME_PORT, AWAY_PORT];
    forall p | 0 <= p < 3
      ensures Sum(fs, StaffOn(p)) == (if p == 0 then 3 else if p == 1 then 1 else 0)
              && Sum(fs, SlotOn(p)) == (if p < 2 then 1 else 0)
      ensures Sum([], MovingOn(p)) == 0
    {
      SumTwo(HOME_PORT, AWAY_PORT, StaffOn(p));
      SumTwo(HOME_PORT, AWAY_PORT, SlotOn(p));
      SumEmpty(MovingOn(p));
    }
  }

  ghost const START := FirstState(SMALL, SECTOR)

  lemma StartIsSound()
    ensures Inv(SMALL, START) && START.day == 0 && |START.planets| == 3
    ensures START.facilities == [HOME_PORT, AWAY_PORT] && START.transfers == [] && START.nextId == 4
  {
    hide ValidScenario, Inv;
    SectorIsValid();
    FirstStateIsSound(SMALL, SECTOR);
    TwoPorts();
  }

  lemma StartStock()
    ensures forall p | 0 <= p < 3 :: START.planets[p].stock.reservations == [] && START.planets[p].stock.claims == []
    ensures START.planets[0].stock.onHand == [5000, 0, 0, 4000] && START.planets[1].stock.onHand == [0, 0, 0, 0]
            == START.planets[2].stock.onHand
    ensures START.planets[0].stock.capacity == 10000 == START.planets[1].stock.capacity
            && START.planets[2].stock.capacity == 500
    ensures forall p, r: nat | 0 <= p < 3 ::
            START.planets[p].stock.Reserved(r) == 0 == START.planets[p].stock.Claimed(r)
  {
    forall p, r: nat | 0 <= p < 3 ensures START.planets[p].stock.Reserved(r) == 0 == START.planets[p].stock.Claimed(r) {
      SumEmpty(ReservedFor(r));
      SumEmpty(ClaimedFor(r));
    }
  }

  // ----- its ports -----

  /** The first day's ports at work under a plan: home handles nine units. */
  const WORK := DayInputs(map[1 := 10000, 2 := 10000], [10000, 10000, 10000], [10000, 10000, 10000],
      [10000, 10000, 10000], [false, false, false], [], [])

  lemma DockingNeedsNothing(l: RunLimits)
    requires l.recipe == DOCKING
    ensures Productive(l, LargestRun(l, 10000)) == 10000 && InputsAt(DOCKING, 10000) == map[]
            && OutputsAt(l, 10000) == map[]
    ensures Needed(0, 10000) == 0 && FloorOf(9000, 10000, BP_ONE) == 9000
  {
    assert Feasible(l, 10000);
  }

  lemma DockingShifts(day: Scratch, l: RunLimits)
    requires l.recipe == DOCKING
    ensures Shifted(day, DOCKING, l, 10000) == day.(handling := day.handling + 9000)
  {
    hide Needed, FloorOf, InputsAt, OutputsAt;
    DockingNeedsNothing(l);
    assert Minus(day.available, map[]) == day.available && Added(day.staged, map[]) == day.staged;
  }

  lemma {:induction false} NothingBefore(cat: Catalog, limits: ResourceMap, volume: int, handling: int, k: nat)
    requires forall r | r in limits :: k <= r
    ensures Greedy(cat, limits, volume, handling, k) == Load(map[], volume, handling)
  {
    if k > 0 {
      NothingBefore(cat, limits, volume, handling, k - 1);
    }
  }

  lemma LimitsAreTargets(cat: Catalog, route: Route, planets: seq<Planet>, fs: seq<Facility>, src: nat, dst: nat,
                         targets: ResourceMap, ratio: int)
    requires src < |planets| && dst < |planets|
    ensures LoadLimits(cat, route, planets, fs, src, dst, targets, ratio).Keys <= targets.Keys
  {
    hide Spare, TargetLimit;
  }

  lemma StoresHold(cat: Catalog, w: World)
    requires Inv(cat, w)
    ensures StockOk(w.planets, cat.resources)
  {
    hide WorkforceOk, FreighterOk, BalancesOk, ColonyOk, PeopleOk, StockOk, LedgerOk, PlanetsBalance, ValidCatalog;
  }

  // ----- its stores -----

  /** What a debit leaves of a store. */
  lemma DebitLeaves(a: seq<Planet>, b: seq<Planet>, p: nat, m: ResourceMap, q: nat)
    requires Debited(a, b, p, m) && q < |a|
    ensures |b| == |a| && OnlyStock(a[q], b[q])
    ensures forall r: nat | r < |a[q].stock.onHand| ::
            b[q].stock.onHand[r] == a[q].stock.onHand[r] - (if q == p then Qty(m, r) else 0)
  {
    forall r: nat | r < |a[q].stock.onHand|
        ensures b[q].stock.onHand[r] == a[q].stock.onHand[r] - (if q == p then Qty(m, r) else 0) {
      assert OnHand(b, q, r) == OnHand(a, q, r) - (if q == p then Qty(m, r) else 0);
    }
  }

  lemma CreditLeaves(a: seq<Planet>, b: seq<Planet>, p: nat, m: ResourceMap, q: nat)
    requires Credited(a, b, p, m) && q < |a|
    ensures |b| == |a| && OnlyStock(a[q], b[q])
    ensures forall r: nat | r < |a[q].stock.onHand| ::
            b[q].stock.onHand[r] == a[q].stock.onHand[r] + (if q == p then Qty(m, r) else 0)
  {
    forall r: nat | r < |a[q].stock.onHand|
        ensures b[q].stock.onHand[r] == a[q].stock.onHand[r] + (if q == p then Qty(m, r) else 0) {
      assert OnHand(b, q, r) == OnHand(a, q, r) + (if q == p then Qty(m, r) else 0);
    }
  }

  lemma SailedStock(cat: Catalog, w: World, w': World, ratio: int)
    requires OutboundStep(cat, w, w', ratio)
    ensures w'.day == w.day && |w'.planets| == |w.planets| && w'.ship.cargo == OutLoad(cat, w, ratio).goods
            && w'.books.overgranted == w.books.overgranted && w'.facilities == w.facilities
    ensures w'.ship.phase.Transit? && w'.ship.mission == w.ship.mission
            && w'.ship.destination == Some(cat.freight.destination)
    ensures cat.freight.origin != cat.freight.destination ==>
              var p := cat.freight.destination;
                  w'.planets[p].stock.onHand == w.planets[p].stock.onHand
                  && w'.planets[p].stock.capacity == w.planets[p].stock.capacity
  {
    hide LegPosted, LedgerOk, ClaimsFor, Total, HasPort;
    var f := cat.freight;
    var p, load := f.destination, OutLoad(cat, w, ratio);
    var claims := w.planets[p].stock.claims;
    DebitLeaves(w.planets, WithClaims(w'.planets, p, claims), f.origin,
        Total(cat, load.goods, f.roundTripFuel, f.roundTripMachinery), p);
  }

  lemma PromisedRoom(cat: Catalog, w: World)
    requires Inv(cat, w) && w.ship.phase.Transit? && w.ship.mission.NoMission? && w.ship.destination.Some?
             && w.ship.destination.value < |w.planets|
    ensures forall r: nat :: w.planets[w.ship.destination.value].stock.Claimed(r) == Qty(w.ship.cargo, r)
  {
    hide Sum, StoresOk, WorkforceOk, BalancesOk, ColonyOk, PeopleOk, DemandOk, TankOk, ShippedOk, BookedOk;
  }

  // ----- a workshop at home -----

  function Workshop(crew: int): Facility {
    Facility(4, 1, 0, 0, UnderConstruction, 0, BP_ONE, 1, false, INT64_MAX, -1, None,
        Some(Job(0, 0, map[GOODS := 2000], map[GOODS := 2000], map[], crew, 0)), 0)
  }

  lemma StartMayBuild()
    ensures BuildAllowed(SMALL, START.planets, START.facilities, 0, 1, Some(0))
    ensures NewJob(SMALL, 4, 0, 1, 0) == Workshop(0) && SMALL.facilities[1].buildCost == map[GOODS := 2000]
  {
    hide FirstState;
    StartIsSound();
    StartStock();
    SumTwo(HOME_PORT, AWAY_PORT, SlotOn(0));
  }

  /** A workshop begun: two units of goods are in escrow and two are left. */
  lemma WorkshopBegun() returns (w: World)
    ensures Inv(SMALL, w) && w.day == 0 && w.facilities == [HOME_PORT, AWAY_PORT, Workshop(0)] && w.transfers == []
            && w.nextId == 5
    ensures |w.planets| == 3 && w.planets[0].workers == 5 && w.planets[0].crew == 1 && w.ship == START.ship
            && w.colony == START.colony && w.books.stranded == map[]
    ensures w.planets[0].stock.claims == [] && w.planets[0].stock.reservations == []
            && w.planets[0].stock.capacity == 10000
    ensures |w.planets[0].stock.onHand| == 4 && w.planets[0].stock.onHand[GOODS] == 2000
    ensures BuildStep(SMALL, START, w, 0, 1, Some(0))
  {
    hide InvAt, BuildAllowed, Posted, LedgerOk, Debited, FirstState, NewJob;
    StartIsSound();
    StartStock();
    StartMayBuild();
    StartPeople();
    w := BuildCan(SMALL, START, 0, 1, Some(0));
    BuildKeepsInv(SMALL, START, w, 0, 1, Some(0), 0);
    DebitLeaves(START.planets, w.planets, 0, map[GOODS := 2000], 0);
  }

  lemma StartPeople()
    ensures START.planets[0].workers == 5 && START.planets[0].crew == 1 && START.planets[0].population == 10
            && START.planets[2].stock.capacity == 500
    ensures START.books.stranded == map[] && START.books.spilled == map[] && START.ship.phase.Docked?
            && !START.colony.launched && !START.colony.founded
    ensures !START.planets[2].colonised && START.planets[1].workers == 1
  {
  }

  // ----- a refund turned away -----

  lemma {:induction false} StrandedAdds(a: map<(nat, nat), int>, b: map<(nat, nat), int>, id: nat, k: nat, r: nat,
      q: int)
    requires forall x: nat :: Stranded(b, x, r) == Stranded(a, x, r) + (if x == id then q else 0)
    ensures StrandedUpto(b, k, r) == StrandedUpto(a, k, r) + (if id < k then q else 0)
  {
    hide Stranded;
    if k > 0 {
      StrandedAdds(a, b, id, k - 1, r, q);
    }
  }

  /** With the store filled up meanwhile, cancelling the workshop returns nothing, and its two units are gone
      without an entry. */
  lemma ARefundIsStranded() returns (w: World, w': World)
    ensures Inv(SMALL, w) && CommandStep(SMALL, w, w', CancelBuild(4)) && Inv(SMALL, w')
    ensures Lost(w', GOODS) == Lost(w, GOODS) + 2000
  {
    hide InvAt, EffectStep, CancelAllowed, CancelStep, LooseAt, BookedOk, FirstState;
    var begun := WorkshopBegun();
    w := StoreFilled(begun);
    CancelIsAllowed(w);
    w' := CancelCan(SMALL, w, 4);
    CancelKeepsInv(SMALL, w, w', 4, 0);
    CancelDay(SMALL, w, w', 4);
    CancelStaffed(SMALL, w, w', 4);
    CancelStrands(w, w');
  }

  lemma StoreFilled(begun: World) returns (w: World)
    requires Inv(SMALL, begun) && begun.day == 0 && begun.nextId == 5
             && begun.facilities == [HOME_PORT, AWAY_PORT, Workshop(0)] && begun.books.stranded == map[]
    requires |begun.planets| == 3 && begun.planets[0].stock.claims == [] && begun.planets[0].stock.capacity == 10000
    requires |begun.planets[0].stock.onHand| == 4 && begun.planets[0].stock.onHand[GOODS] == 2000
    ensures Inv(SMALL, w) && w.day == 0 && w.nextId == 5 && w.facilities == [HOME_PORT, AWAY_PORT, Workshop(0)]
            && w.books.stranded == map[] && |w.planets| == 3
    ensures w.planets[0].stock.claims == [] && |w.planets[0].stock.onHand| == 4
            && w.planets[0].stock.onHand[GOODS] == 10000 == w.planets[0].stock.capacity
  {
    hide InvAt, LooseAt, BookedOk, Posted, LedgerOk, Credited;
    var e := Grant(0, GOODS, 8000);
    InvIsLooseAndBooked(SMALL, begun, 0, 0);
    w := EffectOnce(SMALL, begun, e, 0, 0);
    EffectKeepsInv(SMALL, begun, w, e, 0, 0);
    SumEmpty(ClaimedFor(GOODS));
    assert Unpromised(Single(GOODS, 8000), begun.planets[0].stock);
    InvIsLooseAndBooked(SMALL, w, 0, 0);
    CreditLeaves(begun.planets, w.planets, 0, Granted(Single(GOODS, 8000), begun.planets[0].stock), 0);
  }

  lemma CancelIsAllowed(w: World)
    requires w.facilities == [HOME_PORT, AWAY_PORT, Workshop(0)] && |w.planets| == 3 && w.planets[0].stock.claims == []
    requires |w.planets[0].stock.onHand| == 4
             && w.planets[0].stock.onHand[GOODS] == 10000 == w.planets[0].stock.capacity
    ensures CancelAllowed(w.planets, w.facilities, 4) && Lookup(w.facilities, 4) == Some(Workshop(0))
  {
    SumEmpty(ClaimedFor(GOODS));
    LookupFinds(w.facilities, 2);
  }

  lemma CancelStrands(w: World, w': World)
    requires CancelStep(SMALL, w, w', 4) && Lookup(w.facilities, 4) == Some(Workshop(0)) && w.nextId == 5
    requires |w.planets| == 3 && |w.planets[0].stock.onHand| == 4
             && w.planets[0].stock.onHand[GOODS] == 10000 == w.planets[0].stock.capacity
    ensures Lost(w', GOODS) == Lost(w, GOODS) + 2000
  {
    hide Lookup, Without, Credited, Posted, LedgerOk, CancelAllowed;
    var escrow := map[GOODS := 2000];
    var refund := Refund(escrow, w.planets[0].stock);
    StrandAdds(w.books.stranded, 4, escrow, refund);
    StrandedAdds(w.books.stranded, w'.books.stranded, 4, w.nextId, GOODS, 2000);
  }

  // ----- cargo that does not fit -----

  /** An expedition lands one unit at a frontier that can store half of it: the other half is gone without an
      entry. */
  lemma CargoIsSpilled() returns (w: World, w': World)
    ensures InvAt(SMALL, w, w.day - 1, w.day - 1) && TravelStep(SMALL, w, w') && InvAt(SMALL, w', w'.day, w.day - 1)
    ensures w.books.spilled == map[] && Qty(w'.books.spilled, GOODS) == 500
  {
    hide InvAt, LaunchAllowed, LaunchStep, TravelStep, FirstState;
    StartIsSound();
    StartMayLaunch();
    var launched := LaunchCan(SMALL, START, None);
    LaunchKeepsInv(SMALL, START, launched, None, 0);
    LaunchedFrontier(launched);
    w := launched.(day := 1);
    PlanIsFree(SMALL, launched, w, 0, 0);
    w' := TravelOnce(SMALL, w, 0, 0);
    TravelKeepsInv(SMALL, w, w', 0);
    FrontierSpills(w, w');
  }

  lemma StartMayLaunch()
    ensures LaunchAllowed(SMALL, START, None)
  {
    hide FirstState;
    StartIsSound();
    StartStock();
    StartPeople();
    SumTwo(HOME_PORT, AWAY_PORT, StaffOn(0));
    SumEmpty(MovingOn(0));
  }

  lemma LaunchedFrontier(w: World)
    requires LaunchStep(SMALL, START, w)
    ensures w.day == 0 && w.books.spilled == map[] && |w.planets| == 3
    ensures w.colony.launched && !w.colony.founded && w.colony.arrivalDay == 1 && w.colony.cargo == map[GOODS := 1000]
    ensures w.planets[2].stock.capacity == 500 && |w.planets[2].stock.onHand| == 4
            && w.planets[2].stock.onHand[GOODS] == 0
  {
    hide LaunchPosted, LedgerOk, FirstState;
    StartIsSound();
    StartStock();
    StartPeople();
    DebitLeaves(START.planets, Settled(w.planets, 0, 2, 1), 0, map[GOODS := 1000], 2);
  }

  lemma FrontierSpills(w: World, w': World)
    requires TravelStep(SMALL, w, w') && w.day == 1 && w.books.spilled == map[] && |w.planets| == 3
    requires w.colony.launched && !w.colony.founded && w.colony.arrivalDay == 1 && w.colony.cargo == map[GOODS := 1000]
    requires w.planets[2].stock.capacity == 500 && |w.planets[2].stock.onHand| == 4
             && w.planets[2].stock.onHand[GOODS] == 0
    ensures Qty(w'.books.spilled, GOODS) == 500
  {
    hide Posted, LedgerOk, Credited, Hub;
    var mid :| ChargeStep(SMALL, w, mid) && FoundStep(SMALL, mid, w');
    assert mid.colony.cargo == map[GOODS := 1000];
  }
}
