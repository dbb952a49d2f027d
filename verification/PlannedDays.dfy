/** Real days under accepted plans, from a reachable state: a departure that passes every check and fails in its
    commit, and one that sails and has its promised space granted away. */
module PlannedDays {
  import opened Units
  import opened Sums
  import opened Stock
  import opened Catalog
  import opened State
  import opened Support
  import opened Chains
  import opened Order
  import opened Workforce
  import opened Loading
  import opened Freight
  import opened Departures
  import opened Outside
  import opened Upkeep
  import opened Voyages
  import opened Maintenance
  import opened Throughput
  import opened Postings
  import opened Power
  import opened Production
  import opened Needs
  import opened Building
  import opened RoutePhase
  import opened Day
  import opened Staffing
  import opened Determined
  import opened History
  import opened Overbooking
  import opened Effects
  import opened Mandate
  import opened Totality
  import opened Commands
  import opened Runs
  import opened Faults
  import opened Rest
  import opened Witnesses
  import opened Standstill

  ghost predicate Ports(fs: seq<Facility>) {
    OnlyWorn([HOME_PORT, AWAY_PORT], fs)
  }

  lemma PortsAre(fs: seq<Facility>)
    requires Ports(fs)
    ensures |fs| == 2 && fs[0] == HOME_PORT.(condition := fs[0].condition)
            && fs[1] == AWAY_PORT.(condition := fs[1].condition)
  {
  }

  /** The working sets of the three worlds with nothing staged. */
  ghost predicate Bare(scratch: seq<Scratch>) {
    |scratch| == 3 && forall p | 0 <= p < 3 :: scratch[p].staged == [0, 0, 0, 0]
  }

  /** Only working sets have changed, and the writing of the ledger. */
  ghost predicate Benched(u: World, w: World) {
    w == u.(scratch := w.scratch, ledger := w.ledger, recorded := w.recorded) && Bare(w.scratch)
  }

  // ----- the morning -----

  lemma QuietMorning(w: World, a: World)
    requires w.facilities == [HOME_PORT, AWAY_PORT] && w.transfers == [] && w.planets == START.planets && w.day == 0
    requires w.ship.phase.Docked? && !w.colony.launched && Morning(SMALL, w, a, [])
    ensures BookedOk(w.planets) ==> !a.books.overgranted
    ensures Ports(a.facilities) && a.planets == START.planets && a.day == 1 && a.ship == w.ship && a.route == w.route
            && a.demand == w.demand
    ensures Bare(a.scratch) && forall p | 0 <= p < 3 :: a.scratch[p].handling == 0
  {
    hide Received, Arrivals, MaintenanceStep, BookedOk, OpenStep, TransfersStep, FirstState;
    var today := w.(day := 1);
    var m, b :| DueStep(SMALL, today, m, []) && MaintenanceStep(SMALL, m, b) && SnapshotStep(b, a);
    var r :| Received(SMALL, today, r, []) && Arrivals(SMALL, Noted(r), m);
    StartStock();
    StartSize();
    NothingElseReceived(SMALL, today, r);
    var o :| OpenStep(SMALL, today, o) && TransfersStep(o, r);
    NobodyLands(today, o, r);
    NobodyArrives(SMALL, Noted(r), m);
    MaintenanceWears(SMALL, m, b);
    MaintenanceIsFree(m, b);
  }

  lemma StartSize()
    ensures |START.planets| == 3 && NoRelief(START.planets)
  {
  }

  lemma NobodyLands(w: World, o: World, c: World)
    requires w.facilities == [HOME_PORT, AWAY_PORT] && w.transfers == [] && OpenStep(SMALL, w, o) && TransfersStep(o, c)
    ensures c == w
  {
    SumEmpty(LandingAt(1, w.day));
    SumEmpty(LandingAt(2, w.day));
    assert o.facilities == w.facilities;
    assert c.facilities == w.facilities && c.transfers == w.transfers;
  }

  lemma MaintenanceIsFree(w: World, w': World)
    requires Ports(w.facilities) && MaintenanceStep(SMALL, w, w')
    ensures Ports(w'.facilities) && w' == w.(facilities := w'.facilities)
  {
    hide Sorted, OnDuty, OnlyWorn;
    var inv := (a: World) => Ports(a.facilities) && a == w.(facilities := a.facilities);
    forall a, b, p: nat | p < |w.planets| && inv(a) && MaintainWorlds(SMALL)(a, b, p) ensures inv(b) {
      var order :| IsProductionOrder(a.facilities, p, order) && Through(a, b, |order|, MaintainNext(SMALL, order));
      forall u, v, k: nat | k < |order| && inv(u) && MaintainNext(SMALL, order)(u, v, k) ensures inv(v) {
        FreeUpkeep(u, v, order[k]);
      }
      ThroughKeeps(a, b, |order|, MaintainNext(SMALL, order), inv);
    }
    ThroughKeeps(w, w', |w.planets|, MaintainWorlds(SMALL), inv);
  }

  lemma FreeUpkeep(w: World, w': World, i: nat)
    requires Ports(w.facilities) && MaintainStep(SMALL, w, w', i)
    ensures Ports(w'.facilities) && w' == w.(facilities := w'.facilities)
  {
    hide SpendStep;
    PortsAre(w.facilities);
  }

  // ----- the work of the day -----

  /** No port generates: power leaves every store alone. */
  lemma PowerIsQuiet(u: World, w: World, x: DayInputs)
    requires Ports(u.facilities) && Bare(u.scratch) && PowerStep(SMALL, u, w, x)
    requires forall p | 0 <= p < 3 :: u.scratch[p].handling == 0
    ensures Benched(u, w) && forall p | 0 <= p < 3 :: w.scratch[p].handling == 0
  {
    hide Sorted, OnDuty, HomeDemand, OnlyWorn;
    var inv := (a: World) => Benched(u, a) && forall p | 0 <= p < 3 :: a.scratch[p].handling == 0;
    forall a, b, p: nat | p < |u.planets| && inv(a) && PowerWorlds(SMALL, x)(a, b, p) ensures inv(b) {
      var order, mid :| IsProductionOrder(a.facilities, p, order)
          && Through(a, mid, |order|, GenerateNext(SMALL, order, x))
                        && p < |mid.scratch| && p < |mid.planets|
                        && b == mid.(scratch := mid.scratch[p := Shared(SMALL, mid.planets[p], mid.scratch[p])]);
      forall v, z, k: nat | k < |order| && inv(v) && GenerateNext(SMALL, order, x)(v, z, k) ensures inv(z) {
        NoGenerator(v, z, order[k], x);
      }
      ThroughKeeps(a, mid, |order|, GenerateNext(SMALL, order, x), inv);
    }
    ThroughKeeps(u, w, |u.planets|, PowerWorlds(SMALL, x), inv);
  }

  lemma NoGenerator(w: World, w': World, i: nat, x: DayInputs)
    requires Ports(w.facilities) && Bare(w.scratch) && GenerateStep(SMALL, w, w', i, x)
    ensures w' == w.(scratch := w'.scratch) && Bare(w'.scratch) && forall p | 0 <= p < 3 ::
            w'.scratch[p].handling == w.scratch[p].handling
  {
    hide SpendStep, LargestRun;
    PortsAre(w.facilities);
  }

  /** A port draws nothing and makes nothing but its handling. */
  lemma PortWorks(w: World, w': World, i: nat)
    requires Ports(w.facilities) && Bare(w.scratch) && ProduceStep(SMALL, w, w', i, WORK)
    ensures w' == w.(scratch := w'.scratch, ledger := w'.ledger, recorded := w'.recorded) && Bare(w'.scratch)
    ensures forall p | 0 <= p < 3 ::
              w'.scratch[p].handling ==
                w.scratch[p].handling + (if p == w.facilities[i].planet && Produces(SMALL, w.facilities[i], w.day) then
                    9000 else 0)
    ensures forall p | 0 <= p < 3 :: w'.scratch[p].handlingLeft == w.scratch[p].handlingLeft
  {
    hide LargestRun, Posted, LedgerOk, MakeLimits, Productive, InputsAt, OutputsAt, Debited, Needed, FloorOf;
    PortsAre(w.facilities);
    var f := w.facilities[i];
    if Produces(SMALL, f, w.day) {
      var day, stock := w.scratch[f.planet], w.planets[f.planet].stock;
      var l := MakeLimits(SMALL, f.planet, DOCKING, stock, day);
      DockingLimits(f.planet, stock, day);
      DockingNeedsNothing(l);
      DockingShifts(day, l);
      StillDebited(w.planets, w'.planets, f.planet, map[]);
    }
  }

  lemma DockingLimits(p: nat, stock: Inventory, day: Scratch)
    requires p < |SMALL.planets| && |stock.onHand| == |day.staged|
    ensures MakeLimits(SMALL, p, DOCKING, stock, day).recipe == DOCKING
  {
  }

  lemma StillDebited(a: seq<Planet>, b: seq<Planet>, p: nat, m: ResourceMap)
    requires Debited(a, b, p, m) && forall r: nat :: Qty(m, r) == 0
    ensures b == a
  {
    assert OnlyStocks(a, a);
    SameOnHand(a, a, b);
  }

  lemma StillCredited(a: seq<Planet>, b: seq<Planet>, p: nat, m: ResourceMap)
    requires Credited(a, b, p, m) && forall r: nat :: Qty(m, r) == 0
    ensures b == a
  {
    assert OnlyStocks(a, a);
    SameOnHand(a, a, b);
  }

  /** One world's ports at work: no store changes, and no other world's port. */
  lemma WorldWorks(u: World, w: World, p: nat)
    requires Ports(u.facilities) && Bare(u.scratch) && p < 3 && ProduceWorld(SMALL, u, w, p, WORK)
    ensures Benched(u, w) && forall q | 0 <= q < 3 && q != p :: w.scratch[q] == u.scratch[q]
  {
    hide Sorted, ProduceStep, OnlyWorn, LargestRun;
    var order, mid :| IsProductionOrder(u.facilities, p, order)
        && Through(u, mid, |order|, ProduceNext(SMALL, order, WORK))
                      && p < |mid.scratch| && w == mid.(scratch := mid.scratch[p := Ready(mid.scratch[p])]);
    var inv := (a: World) => Benched(u, a) && forall q | 0 <= q < 3 && q != p :: a.scratch[q] == u.scratch[q];
    forall a, b, k: nat | k < |order| && inv(a) && ProduceNext(SMALL, order, WORK)(a, b, k) ensures inv(b) {
      PortWorks(a, b, order[k]);
      OnlyThere(a, b, order[k], p);
    }
    ThroughKeeps(u, mid, |order|, ProduceNext(SMALL, order, WORK), inv);
  }

  lemma OnlyThere(w: World, w': World, i: nat, p: nat)
    requires ProduceStep(SMALL, w, w', i, WORK) && w.facilities[i].planet == p
    ensures |w'.scratch| == |w.scratch| && forall q | 0 <= q < |w.scratch| && q != p :: w'.scratch[q] == w.scratch[q]
  {
    hide SpendStep, LargestRun, Productive, MakeLimits, InputsAt, Shifted;
  }

  /** Home has the one port, and it handles nine units that day. */
  lemma HomeWorks(u: World, w: World)
    requires Ports(u.facilities) && Bare(u.scratch) && u.day == 1 && u.scratch[0].handling == 0
             && ProduceWorld(SMALL, u, w, 0, WORK)
    ensures w.scratch[0].handlingLeft == 9000
  {
    hide ProduceStep, LargestRun;
    PortsAre(u.facilities);
    var order, mid :| IsProductionOrder(u.facilities, 0, order)
        && Through(u, mid, |order|, ProduceNext(SMALL, order, WORK))
                      && 0 < |mid.scratch| && w == mid.(scratch := mid.scratch[0 := Ready(mid.scratch[0])]);
    var one := [0];
    assert IsProductionOrder(u.facilities, 0, one) by {
      assert one[0] == 0;
    }
    OrderIsUnique(u.facilities, 0, order, one);
    var before :| Through(u, before, 0, ProduceNext(SMALL, order, WORK))
        && ProduceNext(SMALL, order, WORK)(before, mid, 0);
    PortWorks(u, mid, 0);
  }

  lemma {:induction false} ProductionIsQuiet(u: World, w: World, n: nat)
    requires Ports(u.facilities) && Bare(u.scratch) && u.day == 1 && u.scratch[0].handling == 0 && n <= 3
    requires Through(u, w, n, ProduceWorlds(SMALL, WORK))
    ensures Benched(u, w) && (if n == 0 then w == u else w.scratch[0].handlingLeft == 9000)
    decreases n
  {
    hide ProduceWorld, OnlyWorn;
    if n > 0 {
      var step := ProduceWorlds(SMALL, WORK);
      var m :| Through(u, m, n - 1, step) && step(m, w, n - 1);
      ProductionIsQuiet(u, m, n - 1);
      WorldWorks(m, w, n - 1);
      if n == 1 {
        HomeWorks(u, w);
      }
    }
  }

  lemma CommitIsQuiet(u: World, w: World)
    requires u.planets == START.planets && Bare(u.scratch) && CommitPhase(SMALL, u, w, WORK.foodRatio)
    ensures w == u.(ledger := w.ledger, recorded := w.recorded)
  {
    hide Posted, LedgerOk, FirstState, Debited, Credited, Needs.Served;
    StartSize();
    var inv := (a: World) => a == u.(ledger := a.ledger, recorded := a.recorded);
    forall a, b, p: nat | p < |u.planets| && inv(a) && CommitWorlds(SMALL, WORK.foodRatio)(a, b, p) ensures inv(b) {
      var m :| CommitStep(SMALL, a, m, p) && NeedsStep(SMALL, m, b, p, WORK.foodRatio[p]);
      assert Staged(a.scratch[p].staged) == map[];
      StillCredited(a.planets, m.planets, p, map[]);
      NothingServed(p);
      StillDebited(m.planets, b.planets, p, Needs.Served(SMALL, m.planets[p], WORK.foodRatio[p]));
    }
    ThroughKeeps(u, w, |u.planets|, CommitWorlds(SMALL, WORK.foodRatio), inv);
  }

  lemma NoAppetite(planet: Planet)
    ensures FoodDemand(SMALL, planet, 10000) == 0 && WaterDemand(SMALL, planet) == 0
  {
    hide FloorOf;
    assert SMALL.rules.foodPerResident == 0 && SMALL.rules.waterPerResident == 0;
    NothingOf(planet.population);
  }

  lemma NothingOf(n: int)
    ensures n * 0 == 0 && FloorOf(0, 10000, BP_ONE) == 0
  {
  }

  lemma Unreserved(p: nat)
    requires p < 3
    ensures |START.planets| == 3 && |START.planets[p].stock.onHand| == 4
    ensures 0 <= START.planets[p].stock.Available(2) && 0 <= START.planets[p].stock.Available(3)
  {
    hide FirstState, Sum;
    StartStock();
    StartSize();
    assert START.planets[p].stock.Reserved(2) == 0 && START.planets[p].stock.Reserved(3) == 0;
  }

  lemma NothingServed(p: nat)
    requires p < 3
    ensures |START.planets| == 3 && |START.planets[p].stock.onHand| == 4
            && forall r: nat :: Qty(Needs.Served(SMALL, START.planets[p], 10000), r) == 0
  {
    hide FirstState, FoodDemand, WaterDemand, Inventory.Available;
    Unreserved(p);
    NoAppetite(START.planets[p]);
  }

  lemma NothingToBuild(u: World, w: World)
    requires Ports(u.facilities) && BuildPhase(SMALL, u, w, WORK)
    ensures w == u
  {
    hide JobStep;
    PortsAre(u.facilities);
    var inv := (a: World) => a == u;
    forall a, b, p: nat | p < |u.planets| && inv(a) && BuildWorlds(SMALL, WORK)(a, b, p) ensures inv(b) {
      NothingBuilt(SMALL, a, b, p, |a.facilities|, WORK.health[p], WORK.fatigue[p]);
    }
    ThroughKeeps(u, w, |u.planets|, BuildWorlds(SMALL, WORK), inv);
  }

  lemma QuietWork(u: World, w: World)
    requires Ports(u.facilities) && Bare(u.scratch) && u.day == 1 && u.planets == START.planets
             && Workday(SMALL, u, w, WORK)
    requires forall p | 0 <= p < 3 :: u.scratch[p].handling == 0
    ensures w == u.(scratch := w.scratch, ledger := w.ledger, recorded := w.recorded) && |w.scratch| == 3
            && w.scratch[0].handlingLeft == 9000
  {
    hide PowerStep, CommitPhase, BuildPhase, ProduceWorld, Overworked, OnlyWorn, FirstState;
    StartSize();
    var a, b, c :| PowerStep(SMALL, u, a, WORK) && ProductionStep(SMALL, a, b, WORK)
        && CommitPhase(SMALL, b, c, WORK.foodRatio) && BuildPhase(SMALL, c, w, WORK);
    PowerIsQuiet(u, a, WORK);
    ProductionIsQuiet(a, b, 3);
    CommitIsQuiet(b, c);
    NothingToBuild(c, w);
  }

  // ----- the departure -----

  /** A plan for one resource, due to leave today with the home port at work. */
  ghost predicate Laden(w: World, r: nat, target: int, floors: ResourceMap) {
    && Ports(w.facilities) && w.planets == START.planets && w.day == 1 && w.ship == START.ship
        && w.demand == START.demand
    && |w.scratch| == 3 && w.scratch[0].handlingLeft == 9000
    && w.route.outbound == map[r := target] && w.route.floors == floors && w.route.waived == {}
    && w.route.enabled && !w.route.requested && w.route.nextDeparture == 0
  }

  lemma LadenMaySail(w: World, r: nat, target: int, floors: ResourceMap)
    requires Laden(w, r, target, floors)
    ensures MaySail(SMALL, w)
  {
    hide OnlyWorn;
    StartIsSound();
    StartStock();
    PortsAre(w.facilities);
    assert IsPort(SMALL, w.facilities[1], 1, 1);
  }

  lemma LadenOverdraws(w: World, r: nat, target: int, floors: ResourceMap)
    requires Laden(w, r, target, floors) && MaySail(SMALL, w) && (r == FUEL || r == GOODS)
    requires var q := (if r == FUEL then 1001 else 4001); q <= target && q <= 9000
    requires (if r in floors then floors[r] else 0) < TripNeed(SMALL, r)
    ensures OutOverdrawn(SMALL, w, 10000, r)
  {
    hide MaySail, Sum, FirstState, Greedy, LoadLimits, OnlyWorn;
    StartIsSound();
    StartStock();
    var limits := LoadLimits(SMALL, w.route, w.planets, w.facilities, 0, 1, w.route.outbound, 10000);
    assert forall k | k in limits :: r <= k by {
      LimitsAreTargets(SMALL, w.route, w.planets, w.facilities, 0, 1, w.route.outbound, 10000);
    }
    NothingBefore(SMALL, limits, 100000, 9000, r);
  }

  lemma StartSoundStores()
    ensures StockOk(START.planets, 4) && ValidCatalog(SMALL) && SMALL.resources == 4
  {
    hide Inv, FirstState, StockOk, ValidCatalog;
    StartIsSound();
    SmallIsValid();
    StoresHold(SMALL, START);
    assert SMALL.resources == 4;
  }

  lemma LadenFaults(w: World, r: nat, target: int, floors: ResourceMap)
    requires Laden(w, r, target, floors) && (r == FUEL || r == GOODS)
    requires var q := (if r == FUEL then 1001 else 4001); q <= target && q <= 9000
    requires (if r in floors then floors[r] else 0) < TripNeed(SMALL, r)
    ensures MaySail(SMALL, w) && OutcomeOf(SMALL, w, false, 10000).Faulted? && FreightFaults(SMALL, w, WORK.foodRatio)
  {
    hide MaySail, FirstState, OutcomeOf, OutOverdrawn, OnlyWorn, StockOk, ValidCatalog, ReturnOutcome;
    LadenMaySail(w, r, target, floors);
    LadenOverdraws(w, r, target, floors);
    StartSoundStores();
    FaultsExactly(SMALL, w, false, 10000);
    LadenSails(w, r, target, floors);
    assert MissionFirst(SMALL, w, w);
    assert RequestedStep(SMALL, w, w, 10000);
  }

  lemma LadenSails(w: World, r: nat, target: int, floors: ResourceMap)
    requires Laden(w, r, target, floors)
    ensures AtOrigin(SMALL, w.ship, w.day) && UnloadStep(SMALL, w, w) && DepartMissionStep(SMALL, w, w)
  {
    hide OnlyWorn;
  }

  // ----- the plan -----

  lemma EditIsOp(w: World, edit: RouteEdit, targets: ResourceMap) returns (w': World)
    requires RouteAllowed(SMALL, edit, targets)
    ensures w' == w.(route := Edited(w.route, edit, targets, w.day))
    ensures OpStep(SMALL, w, w', Order(EditRoute(edit, targets)))
  {
    hide RouteAllowed, Edited;
    w' := w.(route := Edited(w.route, edit, targets, w.day));
  }

  lemma PlanStarts()
    ensures START.route.floors == map[] && START.route.waived == {} && !START.route.requested
    ensures START.route.nextDeparture == 0
  {
  }

  /** Three edits of the plan, each accepted as it stands. */
  lemma PlanIsReached(r: nat, target: int, floors: ResourceMap) returns (w: World)
    requires r < 4 && 0 <= target
    ensures Reachable(SMALL, SECTOR, w) && Inv(SMALL, w) && w == START.(route := w.route)
    ensures w.route.outbound == map[r := target] && w.route.floors == floors && w.route.waived == {}
    ensures w.route.enabled && !w.route.requested && w.route.nextDeparture == 0
  {
    hide Inv, Run, ValidScenario, OpStep, FirstState;
    PlanStarts();
    var load, keep, on := EditRoute(Outbound, map[r := target]), EditRoute(RouteEdit.Floors(floors, {}), map[]),
        EditRoute(Enable(true), map[]);
    StartIsSound();
    var a := EditIsOp(START, Outbound, map[r := target]);
    var b := EditIsOp(a, RouteEdit.Floors(floors, {}), map[]);
    w := EditIsOp(b, Enable(true), map[]);
    assert Merged(map[], floors) == floors;
    assert [] + [Order(load)] == [Order(load)] && [Order(load)] + [Order(keep)] == [Order(load), Order(keep)]
           && [Order(load), Order(keep)] + [Order(on)] == [Order(load), Order(keep), Order(on)];
    NoOps(SMALL, START);
    OneMore(SMALL, START, START, a, [], Order(load));
    OneMore(SMALL, START, a, b, [Order(load)], Order(keep));
    OneMore(SMALL, START, b, w, [Order(load), Order(keep)], Order(on));
    RunIsSound(SMALL, START, w, [Order(load), Order(keep), Order(on)]);
  }

  lemma WorkIsValid()
    ensures ValidInputs(SMALL, WORK, 3) && WORK.due == []
  {
  }

  lemma NobodyCrowds(w: World)
    requires w.facilities == [HOME_PORT, AWAY_PORT] && w.transfers == []
    ensures !Crowds(SMALL, w)
  {
    SumEmpty(LandingAt(1, w.day + 1));
    SumEmpty(LandingAt(2, w.day + 1));
  }

  /** The first day under a plan, up to its freight phase. */
  lemma PlannedDay(r: nat, target: int, floors: ResourceMap) returns (w: World)
    requires r < 4 && 0 <= target
    ensures Reachable(SMALL, SECTOR, w) && Inv(SMALL, w) && w.day == 0 && |w.planets| == 3
            && w.route.outbound == map[r := target] && w.route.floors == floors
    ensures !Crowds(SMALL, w) && !MorningStops(SMALL, w, []) && exists a,
            v :: Morning(SMALL, w, a, []) && Workday(SMALL, a, v, WORK)
    ensures forall a, v | Morning(SMALL, w, a, []) && Workday(SMALL, a, v, WORK) ::
            Laden(v, r, target, floors) && !v.books.overgranted
  {
    hide InvAt, Morning, Workday, Overworked, Run, FirstState, StaffedOk, Crowds, ValidScenario, BenchesOk, PowerUpto,
         MorningStops, Ports, Bare, ValidInputs, BookedOk;
    w := PlanIsReached(r, target, floors);
    StartIsSound();
    StartPeople();
    WorkIsValid();
    NobodyCrowds(w);
    CrowdedDay(SMALL, w, WORK);
    MorningIsClear(SMALL, w);
    StoresAreBooked(SMALL, w);
    var a := MorningOnce(SMALL, w, []);
    MorningKeepsInv(SMALL, w, a, []);
    var v := WorkdayOnce(SMALL, a, WORK);
    forall b, u | Morning(SMALL, w, b, []) && Workday(SMALL, b, u, WORK) ensures Laden(u, r, target, floors)
        && !u.books.overgranted {
      QuietMorning(w, b);
      QuietWork(b, u);
    }
  }

  /** Where the trip needs more of a resource than its floor keeps back and the plan asks for enough of it, the
      first day raises its error in the freight phase, and no other outcome is possible. */
  lemma APlanStopsTheDay(r: nat, target: int, floors: ResourceMap) returns (w: World)
    requires r == FUEL || r == GOODS
    requires var q := (if r == FUEL then 1001 else 4001); q <= target && q <= 9000
    requires (if r in floors then floors[r] else 0) < TripNeed(SMALL, r)
    ensures Reachable(SMALL, SECTOR, w) && w.route.outbound == map[r := target] && w.route.floors == floors
    ensures DayStops(SMALL, w, WORK, Raised) && forall w' :: !DayStep(SMALL, w, w', WORK)
  {
    hide InvAt, Morning, Workday, FreightFaults, Overworked, Run, DayStep, Crowds, MorningStops, Laden;
    w := PlannedDay(r, target, floors);
    var a, v :| Morning(SMALL, w, a, []) && Workday(SMALL, a, v, WORK);
    LadenFaults(v, r, target, floors);
    assert DayStops(SMALL, w, WORK, Raised);
    forall w' ensures !DayStep(SMALL, w, w', WORK) {
      if DayStep(SMALL, w, w', WORK) {
        SameAsItself(w);
        DayIsDetermined(SMALL, w, w', w, w', WORK);
      }
    }
  }

  /** Five units of fuel at home, four for the trip, and a manifest that asks for three: every check passes and
      the commit comes up short. */
  lemma AFuelManifestFaults() returns (w: World)
    ensures Reachable(SMALL, SECTOR, w) && w.route.outbound == map[FUEL := 3000] && w.route.floors == map[]
    ensures DayStops(SMALL, w, WORK, Raised) && forall w' :: !DayStep(SMALL, w, w', WORK)
  {
    hide Reachable, DayStops, DayStep;
    assert TripNeed(SMALL, FUEL) == 4000;
    w := APlanStopsTheDay(FUEL, 3000, map[]);
  }

  /** Four units of goods at home, a floor of minus three, and a manifest that asks for six. */
  lemma ANegativeFloorFaults() returns (w: World)
    ensures Reachable(SMALL, SECTOR, w) && w.route.outbound == map[GOODS := 6000]
            && w.route.floors == map[GOODS := -3000]
    ensures DayStops(SMALL, w, WORK, Raised) && forall w' :: !DayStep(SMALL, w, w', WORK)
  {
    hide Reachable, DayStops, DayStep;
    assert TripNeed(SMALL, GOODS) == 0;
    w := APlanStopsTheDay(GOODS, 6000, map[GOODS := -3000]);
  }

  // ----- a shipment under way -----

  lemma ThreeUnitsLimit(v: World)
    requires Laden(v, GOODS, 3000, map[])
    ensures var limits := LoadLimits(SMALL, v.route, v.planets, v.facilities, 0, 1, v.route.outbound, 10000);
            GOODS in limits && limits[GOODS] == 3000
  {
    hide Sum, FirstState, OnlyWorn;
    StartSize();
    StartStock();
  }

  /** A plan for three units of goods loads three. */
  lemma ThreeUnitsLoad(v: World)
    requires Laden(v, GOODS, 3000, map[])
    ensures MaySail(SMALL, v) && OutcomeOf(SMALL, v, false, 10000).Departed?
            && Qty(OutLoad(SMALL, v, 10000).goods, GOODS) == 3000
  {
    hide MaySail, Sum, FirstState, Greedy, LoadLimits, Affords, Inv, ValidCatalog, StockOk, OnlyWorn;
    LadenMaySail(v, GOODS, 3000, map[]);
    StartSize();
    StartSoundStores();
    KeptBackNeverFaults(SMALL, v, false, 10000);
    var limits := LoadLimits(SMALL, v.route, v.planets, v.facilities, 0, 1, v.route.outbound, 10000);
    LimitsAreTargets(SMALL, v.route, v.planets, v.facilities, 0, 1, v.route.outbound, 10000);
    ThreeUnitsLimit(v);
    NothingBefore(SMALL, limits, 100000, 9000, GOODS);
    LoadsAtLeast(SMALL, limits, 100000, 9000, GOODS, 3000);
    LoadsAtLeast(SMALL, limits, 100000, 9000, GOODS, 3001);
  }

  lemma LadenMissionFirst(v: World, b: World)
    requires Laden(v, GOODS, 3000, map[]) && MissionFirst(SMALL, v, b)
    ensures b == v
  {
    hide OnlyWorn;
  }

  ghost predicate UnderWay(w: World) {
    && |w.planets| == 3 && |w.planets[1].stock.onHand| == 4 && w.planets[1].stock.onHand[GOODS] == 0
        && w.planets[1].stock.capacity == 10000
    && w.ship.phase.Transit? && w.ship.mission.NoMission? && w.ship.destination == Some(1)
        && Qty(w.ship.cargo, GOODS) == 3000
  }

  lemma LadenScheduled(v: World, d: World)
    requires Laden(v, GOODS, 3000, map[]) && ScheduledStep(SMALL, v, d, 10000)
    ensures UnderWay(d)
  {
    hide MaySail, OutcomeOf, OutboundStep, FirstState, OnlyWorn, OutLoad;
    ThreeUnitsLoad(v);
    LadenSails(v, GOODS, 3000, map[]);
    StartSize();
    StartStock();
    SailedStock(SMALL, v, d.(route := v.route), 10000);
  }

  /** The freight phase sends the ship off. */
  lemma LadenFreight(v: World, f: World)
    requires Laden(v, GOODS, 3000, map[]) && FreightStep(SMALL, v, f, WORK.foodRatio)
    ensures UnderWay(f)
  {
    hide MissionFirst, ScheduledStep, ReturnOutcome, LegStep, BackLoad, OnlyWorn;
    var b, c, d, e :| MissionFirst(SMALL, v, b) && RequestedStep(SMALL, b, c, 10000)
        && ScheduledStep(SMALL, c, d, 10000)
                      && ReturnStep(SMALL, d, e, 10000) && ReportStep(e, f);
    LadenMissionFirst(v, b);
    LadenScheduled(v, d);
  }

  lemma LadenNeverFaults(v: World)
    requires Laden(v, GOODS, 3000, map[])
    ensures !FreightFaults(SMALL, v, WORK.foodRatio)
  {
    hide MissionFirst, ScheduledStep, BackLoad, OutcomeOf, OnlyWorn, LegStep, Affords, Total;
    ThreeUnitsLoad(v);
    forall b | MissionFirst(SMALL, v, b) ensures b == v {
      LadenMissionFirst(v, b);
    }
    forall d | ScheduledStep(SMALL, v, d, 10000) ensures UnderWay(d) {
      LadenScheduled(v, d);
    }
  }

  /** The evening of that day is clear, and leaves the ship under way. */
  lemma LadenEvening(v: World, end: Ending)
    requires Laden(v, GOODS, 3000, map[]) && InvAt(SMALL, v, 1, 1) && HandlingOk(v) && !v.books.overgranted
             && !end.Overstaffed?
    ensures !EveningStops(SMALL, v, WORK, end)
  {
    hide InvAt, FreightStep, FreightFaults, ConsequencesStep, BookedOk, HandlingOk, StaffedOk, Laden;
    LadenDay(v);
    LadenNeverFaults(v);
    forall a, b | FreightStep(SMALL, v, a, WORK.foodRatio) && ConsequencesStep(SMALL, a, b, WORK.emergency)
        ensures BookedOk(b.planets) {
      FreightKeepsInv(SMALL, v, a, WORK.foodRatio, 1);
      FreightContinues(SMALL, v, a, WORK.foodRatio);
      ConsequencesKeepInv(SMALL, a, b, WORK.emergency, 1, 1);
      ConsequencesContinue(SMALL, a, b, WORK.emergency);
      InvIsLooseAndBooked(SMALL, b, 1, 1);
    }
  }

  lemma LadenDay(v: World)
    requires Laden(v, GOODS, 3000, map[])
    ensures v.day == 1
  {
  }

  lemma EveningUnderWay(v: World, e: World)
    requires Laden(v, GOODS, 3000, map[]) && Reckoned(SMALL, v, e, WORK)
    ensures UnderWay(e)
  {
    hide FreightStep, Laden, Issued, Judged;
    var a, b :| FreightStep(SMALL, v, a, WORK.foodRatio) && ConsequencesStep(SMALL, a, b, WORK.emergency)
        && EffectsStep(SMALL, b, e, WORK.evening);
    LadenFreight(v, a);
  }

  /** The freighter is under way with three units promised room at the outpost. */
  lemma Shipment() returns (w: World)
    ensures Reachable(SMALL, SECTOR, w) && Inv(SMALL, w) && UnderWay(w) && w.planets[1].stock.Claimed(GOODS) == 3000
  {
    hide InvAt, Morning, Workday, Reckoned, Run, Crowds, MorningStops, Laden, BookedOk, StaffedOk, FreightFaults,
         FreightStep, EffectsStop, Overworked, BenchesOk, PowerUpto, HandlingOk, ValidInputs, UnderWay, Continues,
         EveningStops;
    var start := PlannedDay(GOODS, 3000, map[]);
    WorkIsValid();
    CrowdedDay(SMALL, start, WORK);
    forall end: Ending ensures !DayStops(SMALL, start, WORK, end) {
      forall a, v | Morning(SMALL, start, a, []) && Workday(SMALL, a, v, WORK) && !end.Overstaffed?
          ensures !EveningStops(SMALL, v, WORK, end) {
        MorningKeepsInv(SMALL, start, a, []);
        WorkdayKeepsInv(SMALL, a, v, WORK);
        LadenDay(v);
        LadenEvening(v, end);
      }
    }
    w := DayOnce(SMALL, start, WORK);
    var a, v :| Morning(SMALL, start, a, []) && Workday(SMALL, a, v, WORK) && Evening(SMALL, v, w, WORK);
    var e :| Reckoned(SMALL, v, e, WORK) && Passes(SMALL, e) && w == Noted(e);
    EveningUnderWay(v, e);
    assert UnderWay(w) by {
      NotedUnderWay(e);
    }
    DayKeepsInv(SMALL, start, w, WORK);
    var ops :| Run(SMALL, START, start, ops);
    OneMore(SMALL, START, start, w, ops, Today(WORK));
    UnderWayPromises(w);
  }

  lemma NotedUnderWay(e: World)
    requires UnderWay(e)
    ensures UnderWay(Noted(e))
  {
    hide BookedOk;
  }

  lemma UnderWayPromises(w: World)
    requires UnderWay(w) && Inv(SMALL, w)
    ensures |w.planets| == 3 && w.planets[1].stock.Claimed(GOODS) == 3000
  {
    hide InvAt, Sum;
    PromisedRoom(SMALL, w);
  }

  /** Ten units of room, three of them promised: a grant of eight due the next morning is stored whole, and
      promised space is taken. */
  lemma AGrantTakesPromisedSpace() returns (w: World)
    ensures Reachable(SMALL, SECTOR, w) && Inv(SMALL, w) && EffectsOk(SMALL, [Grant(1, GOODS, 8000)], |w.planets|)
    ensures MorningTakes(SMALL, w.(day := w.day + 1), [Grant(1, GOODS, 8000)])
  {
    hide InvAt, BookedOk, Reachable, StaffedOk, OpenedAll, ServicedAll;
    w := Shipment();
    StoresAreBooked(SMALL, w);
    var today := w.(day := w.day + 1);
    var o := today.(facilities := ServicedAll(SMALL, OpenedAll(today.facilities, today.day), today.day));
    var es := [Grant(1, GOODS, 8000)];
    assert OpenStep(SMALL, today, o);
    assert Min(8000, o.planets[1].stock.Room(GOODS)) == 8000 && o.planets[1].stock.FreeSpace(GOODS) == 7000;
    assert EffectTakes(SMALL, o, es, 0, o);
  }
}
