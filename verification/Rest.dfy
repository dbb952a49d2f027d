/** A sector at rest: with no route sailing, no relief on its way and no authored effect, a day resolves exactly
    when nothing that lands on it crowds a facility, so runs go on for as many days as one likes. */
module Rest {
  import opened Units
  import opened Sums
  import opened Stock
  import opened Ledger
  import opened Catalog
  import opened State
  import opened Support
  import opened Chains
  import opened Workforce
  import opened Construction
  import opened Freight
  import opened Departures
  import opened Outside
  import opened Upkeep
  import opened Effects
  import opened Expedition
  import opened Mandate
  import opened Voyages
  import opened Order
  import opened Maintenance
  import opened Power
  import opened Production
  import opened Needs
  import opened Building
  import opened RoutePhase
  import opened Day
  import opened Staffing
  import opened Totality
  import opened History
  import opened Runs

  ghost predicate NoRelief(planets: seq<Planet>) {
    forall p | 0 <= p < |planets| :: planets[p].reliefDue < 0
  }

  ghost predicate NoJobs(fs: seq<Facility>) {
    forall i | 0 <= i < |fs| :: !fs[i].life.UnderConstruction? && fs[i].awaited == 0
  }

  ghost predicate NoSailing(route: Route) {
    !route.enabled && !route.requested
  }

  ghost predicate AtRest(w: World) {
    NoSailing(w.route) && NoRelief(w.planets) && !w.books.overgranted
  }

  ghost function Resting(): World -> bool {
    (a: World) => AtRest(a)
  }

  lemma StockRests(a: seq<Planet>, b: seq<Planet>)
    requires NoRelief(a) && OnlyStocks(a, b)
    ensures NoRelief(b)
  {
    forall p | 0 <= p < |b| ensures b[p].reliefDue < 0 {
      assert OnlyStock(a[p], b[p]);
    }
  }

  lemma SpendRests(cat: Catalog, w: World, w': World, p: nat, m: ResourceMap, to: Account)
    requires AtRest(w) && SpendStep(cat, w, w', p, m, to)
    ensures AtRest(w')
  {
    hide Posted, LedgerOk;
    StockRests(w.planets, w'.planets);
  }

  lemma ReceiveRests(cat: Catalog, w: World, w': World, p: nat, m: ResourceMap, from: Account)
    requires AtRest(w) && ReceiveStep(cat, w, w', p, m, from)
    ensures AtRest(w')
  {
    hide Posted, LedgerOk;
    StockRests(w.planets, w'.planets);
  }

  // ----- the morning -----

  /** With nothing due and no relief on its way, no store changes before the expedition and the ships. */
  lemma NothingReceived(cat: Catalog, w: World, w': World)
    requires AtRest(w) && Received(cat, w, w', [])
    ensures AtRest(w') && w'.planets == w.planets
  {
    var a, b, c :| OpenStep(cat, w, a) && EffectsStep(cat, a, b, []) && TransfersStep(b, c) && ReliefPhase(cat, c, w');
    hide Inventory.Room;
    var inv := (z: World) => z == c;
    forall x, y, p: nat | p < |c.planets| && inv(x) && ReliefNext(cat)(x, y, p) ensures inv(y) {
    }
    ThroughKeeps(c, w', |c.planets|, ReliefNext(cat), inv);
  }

  lemma ChargeRests(cat: Catalog, w: World, w': World)
    requires AtRest(w) && ChargeStep(cat, w, w')
    ensures AtRest(w')
  {
    hide Posted, LedgerOk, Remaining;
  }

  lemma FoundRests(cat: Catalog, w: World, w': World)
    requires AtRest(w) && FoundStep(cat, w, w')
    ensures AtRest(w')
  {
    hide Posted, LedgerOk, Storable, Spill;
    var moved := Moved(w.planets, cat.expedition.target, w.colony);
    assert NoRelief(moved);
    StockRests(moved, w'.planets);
  }

  lemma ArrivalRests(cat: Catalog, w: World, w': World)
    requires AtRest(w) && ArrivalStep(cat, w, w')
    ensures AtRest(w')
  {
    hide Posted, LedgerOk, MarkAll;
  }

  lemma ArrivalsRest(cat: Catalog, w: World, w': World)
    requires AtRest(w) && Arrivals(cat, w, w')
    ensures AtRest(w')
  {
    hide ChargeStep, FoundStep, ArrivalStep;
    var f :| TravelStep(cat, w, f) && ArrivalStep(cat, f, w');
    if w.colony.launched && !w.colony.founded && w.day <= w.colony.arrivalDay {
      if w.day < w.colony.arrivalDay {
        ChargeRests(cat, w, f);
      } else {
        var mid :| ChargeStep(cat, w, mid) && FoundStep(cat, mid, f);
        ChargeRests(cat, w, mid);
        FoundRests(cat, mid, f);
      }
    }
    ArrivalRests(cat, f, w');
  }

  lemma MaintainRests(cat: Catalog, w: World, w': World, i: nat)
    requires AtRest(w) && MaintainStep(cat, w, w', i)
    ensures AtRest(w')
  {
    hide SpendStep;
    var f := w.facilities[i];
    if Upkept(cat, f) != 0 && Pays(cat, w, i) {
      SpendRests(cat, w, w'.(facilities := w.facilities), f.planet, Single(cat.machinery, Upkept(cat, f)),
          SinkMaintenance);
      SpendKeepsWidth(cat, w, w'.(facilities := w.facilities), f.planet, Single(cat.machinery, Upkept(cat, f)),
          SinkMaintenance);
    }
  }

  lemma MaintenanceRests(cat: Catalog, w: World, w': World)
    requires AtRest(w) && MaintenanceStep(cat, w, w')
    ensures AtRest(w')
  {
    hide AtRest, MaintainStep;
    forall a, b, p: nat | p < |w.planets| && Resting()(a) && MaintainWorlds(cat)(a, b, p) ensures Resting()(b) {
      var order :| IsProductionOrder(a.facilities, p, order) && Through(a, b, |order|, MaintainNext(cat, order));
      forall u, v, k: nat | k < |order| && Resting()(u) && MaintainNext(cat, order)(u, v, k) ensures Resting()(v) {
        MaintainRests(cat, u, v, order[k]);
      }
      ThroughKeeps(a, b, |order|, MaintainNext(cat, order), Resting());
    }
    ThroughKeeps(w, w', |w.planets|, MaintainWorlds(cat), Resting());
  }

  lemma MorningRests(cat: Catalog, w: World, w': World)
    requires AtRest(w) && BookedOk(w.planets) && Morning(cat, w, w', [])
    ensures AtRest(w')
  {
    hide Received, Arrivals, MaintenanceStep, BookedOk;
    var today := w.(day := w.day + 1);
    var a, b :| DueStep(cat, today, a, []) && MaintenanceStep(cat, a, b) && SnapshotStep(b, w');
    var e :| Received(cat, today, e, []) && Arrivals(cat, Noted(e), a);
    NothingReceived(cat, today, e);
    ArrivalsRest(cat, Noted(e), a);
    MaintenanceRests(cat, a, b);
  }

  lemma MorningIsClear(cat: Catalog, w: World)
    ensures !MorningStops(cat, w, [])
  {
    hide OpenStep;
  }

  // ----- the working day -----

  lemma WorkingRests(w: World, w': World)
    requires AtRest(w) && Working(w, w')
    ensures AtRest(w')
  {
    StockRests(w.planets, w'.planets);
  }

  lemma CommitRests(cat: Catalog, w: World, w': World, ratios: seq<int>)
    requires AtRest(w) && CommitPhase(cat, w, w', ratios)
    ensures AtRest(w')
  {
    hide AtRest, SpendStep, ReceiveStep, Staged, Served;
    forall a, b, p: nat | p < |w.planets| && Resting()(a) && CommitWorlds(cat, ratios)(a, b, p) ensures Resting()(b) {
      var m :| CommitStep(cat, a, m, p) && NeedsStep(cat, m, b, p, ratios[p]);
      ReceiveRests(cat, a, m, p, Staged(a.scratch[p].staged), SourceRecipe);
      SpendRests(cat, m, b, p, Served(cat, m.planets[p], ratios[p]), SinkCivilian);
    }
    ThroughKeeps(w, w', |w.planets|, CommitWorlds(cat, ratios), Resting());
  }

  /** From a morning at rest, the work of the day leaves the sector at rest. */
  lemma WorkdayRests(cat: Catalog, w: World, w': World, x: DayInputs)
    requires AtRest(w) && InvAt(cat, w, w.day, w.day) && BenchesOk(cat, w) && PowerUpto(cat, w, 0)
             && Workday(cat, w, w', x)
    ensures AtRest(w')
  {
    hide InvAt, PowerStep, ProductionStep, CommitPhase, BuildPhase, BenchesOk, PowerUpto, AtRest, Overworked;
    var a, b, c :| PowerStep(cat, w, a, x) && ProductionStep(cat, a, b, x) && CommitPhase(cat, b, c, x.foodRatio)
        && BuildPhase(cat, c, w', x);
    WorkRests(cat, w, a, b, c, x);
    BuildRests(cat, c, w', x);
  }

  lemma BuildRests(cat: Catalog, w: World, w': World, x: DayInputs)
    requires AtRest(w) && BuildPhase(cat, w, w', x)
    ensures AtRest(w')
  {
    hide AtRest, AdvanceStep;
    forall a, b, p: nat | p < |w.planets| && Resting()(a) && BuildWorlds(cat, x)(a, b, p) ensures Resting()(b) {
      var step := JobNext(cat, p, x.health[p], x.fatigue[p]);
      forall u, v, i: nat | i < |a.facilities| && Resting()(u) && step(u, v, i) ensures Resting()(v) {
        if IsJob(u.facilities[i], p) {
          AdvanceRests(cat, u, v, i, x.health[p], x.fatigue[p]);
        }
      }
      ThroughKeeps(a, b, |a.facilities|, step, Resting());
    }
    ThroughKeeps(w, w', |w.planets|, BuildWorlds(cat, x), Resting());
  }

  lemma AdvanceRests(cat: Catalog, w: World, w': World, i: nat, health: int, fatigue: int)
    requires AtRest(w) && AdvanceStep(cat, w, w', i, health, fatigue)
    ensures AtRest(w')
  {
    hide Posted, LedgerOk, SpentBy, Counted, Construction.Worked, Finished, PowerGrant;
  }

  lemma WorkRests(cat: Catalog, w: World, a: World, b: World, c: World, x: DayInputs)
    requires AtRest(w) && InvAt(cat, w, w.day, w.day) && BenchesOk(cat, w) && PowerUpto(cat, w, 0)
    requires PowerStep(cat, w, a, x) && ProductionStep(cat, a, b, x) && CommitPhase(cat, b, c, x.foodRatio)
    ensures AtRest(c)
  {
    hide InvAt, PowerStep, ProductionStep, CommitPhase, BenchesOk, PowerUpto, AtRest;
    PowerKeepsInv(cat, w, a, x, w.day, w.day);
    WorkingWidth(cat, w, a);
    ProductionKeepsInv(cat, a, b, x, w.day, w.day);
    WorkingRests(w, a);
    WorkingRests(a, b);
    CommitRests(cat, b, c, x.foodRatio);
  }

  // ----- the evening -----

  lemma UnloadRests(cat: Catalog, w: World, w': World)
    requires AtRest(w) && UnloadStep(cat, w, w')
    ensures AtRest(w')
  {
    hide Posted, LedgerOk, Landing, Unloaded, HasPort, Docking, Release;
    if Ashore(w.ship) && w.ship.cargo != map[] && PortOpen(cat, w) {
      var p := w.ship.location.value;
      var base := WithClaims(w.planets, p, Release(w.planets[p].stock.claims, w.ship.bookings));
      assert NoRelief(base);
      StockRests(base, w'.planets);
    }
  }

  lemma DepartMissionRests(cat: Catalog, w: World, w': World)
    requires AtRest(w) && DepartMissionStep(cat, w, w')
    ensures AtRest(w')
  {
    hide LegPosted, LedgerOk, MissionReady, Total, Embarked, Logged;
    if MissionReady(cat, w) && w.day <= cat.mandate.lastDeparture {
      StockRests(w.planets, w'.planets);
    }
  }

  lemma MissionFirstRests(cat: Catalog, w: World, w': World)
    requires AtRest(w) && MissionFirst(cat, w, w')
    ensures AtRest(w')
  {
    hide AtRest, UnloadStep, DepartMissionStep;
    var a :| UnloadStep(cat, w, a) && DepartMissionStep(cat, a, w');
    UnloadRests(cat, w, a);
    DepartMissionRests(cat, a, w');
  }

  lemma FreightRests(cat: Catalog, w: World, w': World, ratios: seq<int>)
    requires AtRest(w) && FreightStep(cat, w, w', ratios)
    ensures AtRest(w')
  {
    hide MissionFirst, OutcomeOf, OutboundStep, LegStep, ReturnOutcome;
    var src, dst := ratios[cat.freight.origin], ratios[cat.freight.destination];
    var b, c, m, e :| MissionFirst(cat, w, b) && RequestedStep(cat, b, c, src) && ScheduledStep(cat, c, m, src)
        && ReturnStep(cat, m, e, dst) && ReportStep(e, w');
    MissionFirstRests(cat, w, b);
    assert e == b;
  }

  lemma FreightIsClear(cat: Catalog, w: World, ratios: seq<int>)
    requires AtRest(w)
    ensures !FreightFaults(cat, w, ratios)
  {
    hide MissionFirst, OutcomeOf, OutboundStep, BackLoad, LegStep, Affords;
    forall b | MissionFirst(cat, w, b) ensures NoSailing(b.route) {
      MissionFirstRests(cat, w, b);
    }
  }

  lemma ConsequencesRest(cat: Catalog, w: World, w': World, emergency: seq<bool>)
    requires AtRest(w) && ConsequencesStep(cat, w, w', emergency)
    ensures AtRest(w')
  {
    hide Issued, Judged;
  }

  lemma EveningRests(cat: Catalog, w: World, w': World, x: DayInputs)
    requires AtRest(w) && Evening(cat, w, w', x) && x.evening == []
    ensures AtRest(w')
  {
    hide FreightStep, ConsequencesStep, BookedOk, StaffedOk, NoSailing, NoRelief;
    var e :| Reckoned(cat, w, e, x) && Passes(cat, e) && w' == Noted(e);
    var a, b :| FreightStep(cat, w, a, x.foodRatio) && ConsequencesStep(cat, a, b, x.emergency)
        && EffectsStep(cat, b, e, x.evening);
    FreightRests(cat, w, a, x.foodRatio);
    ConsequencesRest(cat, a, b, x.emergency);
  }

  lemma EveningIsClear(cat: Catalog, w: World, x: DayInputs, end: Ending)
    requires AtRest(w) && InvAt(cat, w, w.day, w.day) && HandlingOk(w) && x.evening == []
    requires forall e | Reckoned(cat, w, e, x) :: StaffedOk(cat, e.facilities)
    ensures !EveningStops(cat, w, x, end)
  {
    hide NoSailing, NoRelief, InvAt, FreightStep, FreightFaults, ConsequencesStep, BookedOk, HandlingOk, StaffedOk;
    FreightIsClear(cat, w, x.foodRatio);
    forall a, b | FreightStep(cat, w, a, x.foodRatio) && ConsequencesStep(cat, a, b, x.emergency)
        ensures BookedOk(b.planets) {
      FreightKeepsInv(cat, w, a, x.foodRatio, w.day);
      FreightRests(cat, w, a, x.foodRatio);
      ConsequencesRest(cat, a, b, x.emergency);
      ConsequencesKeepInv(cat, a, b, x.emergency, w.day, w.day);
      InvIsLooseAndBooked(cat, b, w.day, w.day);
    }
  }

  // ----- the day -----

  lemma DayRests(cat: Catalog, w: World, w': World, x: DayInputs)
    requires AtRest(w) && Inv(cat, w) && 0 <= w.day && DayStep(cat, w, w', x) && x.due == x.evening == []
    ensures AtRest(w')
  {
    hide InvAt, AtRest, Morning, Workday, Evening, BenchesOk, PowerUpto, HandlingOk, BookedOk;
    var a, b :| Morning(cat, w, a, x.due) && Workday(cat, a, b, x) && Evening(cat, b, w', x);
    StoresAreBooked(cat, w);
    MorningRests(cat, w, a);
    MorningKeepsInv(cat, w, a, x.due);
    WorkdayRests(cat, a, b, x);
    EveningRests(cat, b, w', x);
  }

  /** At rest, with no effect authored for it and nobody landing where there is no place, nothing stops a day. */
  lemma RestIsClear(cat: Catalog, w: World, x: DayInputs, end: Ending)
    requires AtRest(w) && Inv(cat, w) && 0 <= w.day && x.due == x.evening == [] && ValidInputs(cat, x, |w.planets|)
             && !Crowds(cat, w)
    ensures !DayStops(cat, w, x, end)
  {
    hide InvAt, AtRest, Morning, Workday, Reckoned, MorningStops, EveningStops, BenchesOk, PowerUpto, HandlingOk,
         BookedOk, StaffedOk, ValidInputs, Overworked, Crowds;
    StoresAreBooked(cat, w);
    MorningIsClear(cat, w);
    CrowdedDay(cat, w, x);
    forall a, b | Morning(cat, w, a, x.due) && Workday(cat, a, b, x) ensures !EveningStops(cat, b, x, end) {
      MorningRests(cat, w, a);
      MorningKeepsInv(cat, w, a, x.due);
      WorkdayRests(cat, a, b, x);
      WorkdayKeepsInv(cat, a, b, x);
      forall e | Reckoned(cat, b, e, x) ensures StaffedOk(cat, e.facilities) {
        DayStaff(cat, w, a, b, e, x);
      }
      EveningIsClear(cat, b, x, end);
    }
  }

  /** At rest, a day with nothing authored for it resolves exactly when nobody lands where there is no place. */
  lemma RestResolvesExactly(cat: Catalog, w: World, x: DayInputs)
    requires AtRest(w) && Inv(cat, w) && 0 <= w.day && x.due == x.evening == [] && ValidInputs(cat, x, |w.planets|)
    ensures (exists w' :: DayStep(cat, w, w', x)) <==> !Crowds(cat, w)
  {
    hide Inv, AtRest, DayStep, DayStops, Crowds, ValidInputs;
    CrowdedDay(cat, w, x);
    if !Crowds(cat, w) {
      forall end: Ending ensures !DayStops(cat, w, x, end) {
        RestIsClear(cat, w, x, end);
      }
      var w' := DayOnce(cat, w, x);
    }
  }

  // ----- days without construction -----

  lemma LastingIdle(fs: seq<Facility>, fs': seq<Facility>)
    requires NoJobs(fs) && Lasting(fs, fs') && (forall i | 0 <= i < |fs| :: fs[i].job.None?)
    ensures NoJobs(fs') && (forall i | 0 <= i < |fs'| :: fs'[i].job.None?)
  {
    forall i | 0 <= i < |fs'| ensures !fs'[i].life.UnderConstruction? && fs'[i].awaited == 0 && fs'[i].job.None? {
      if i < |fs| {
        assert Lasts(fs[i], fs'[i]);
      } else {
        assert Newcomer(fs'[i]);
      }
    }
  }

  lemma IdleHasNone(cat: Catalog, w: World, d: int, d': int)
    requires InvAt(cat, w, d, d') && NoJobs(w.facilities)
    ensures forall i | 0 <= i < |w.facilities| :: w.facilities[i].job.None?
  {
    hide StoresOk, FreighterOk, BalancesOk, ColonyOk, PeopleOk, WorkersOk, StaffOk, TransfersOk, SlotsOk, JobOk;
    forall i | 0 <= i < |w.facilities| ensures w.facilities[i].job.None? {
      assert FacilityOk(cat, w.facilities[i], |w.planets|);
    }
  }

  /** Where nothing was finished with workers still to come, nobody crowds. */
  lemma IdleNeverCrowds(cat: Catalog, w: World)
    requires Inv(cat, w) && NoJobs(w.facilities)
    ensures !Crowds(cat, w)
  {
    hide Sum, StoresOk, FreighterOk, BalancesOk, ColonyOk, PeopleOk, WorkersOk, SlotsOk, JobOk, Sane;
    InvIsSane(cat, w, w.day, w.day);
    forall i | 0 <= i < |w.facilities| ensures !Overfills(cat, w.facilities[i], w.transfers, w.day + 1) {
      var f := w.facilities[i];
      SaneAt(cat, w.facilities, i);
      assert StaffFits(cat, f, w.transfers);
      LandingIsIncoming(w.transfers, f.id, w.day + 1);
    }
  }

  lemma SaneAt(cat: Catalog, fs: seq<Facility>, i: nat)
    requires Sane(cat, fs) && i < |fs|
    ensures fs[i].kind < |cat.facilities| && fs[i].recipe < |cat.facilities[fs[i].kind].recipes|
            && 0 <= FullStaff(cat, fs[i])
  {
  }

  lemma {:induction false} LandingIsIncoming(ts: seq<Transfer>, id: nat, day: int)
    requires forall i | 0 <= i < |ts| :: 0 <= ts[i].count
    ensures Sum(ts, LandingAt(id, day)) <= Sum(ts, IncomingTo(id))
  {
    if ts != [] {
      LandingIsIncoming(ts[..|ts| - 1], id, day);
    }
  }

  lemma MorningIdles(cat: Catalog, w: World, w': World)
    requires Inv(cat, w) && 0 <= w.day && AtRest(w) && NoJobs(w.facilities) && Morning(cat, w, w', [])
    ensures NoJobs(w'.facilities) && forall i | 0 <= i < |w'.facilities| :: w'.facilities[i].job.None?
  {
    hide InvAt, Arrivals, MaintenanceStep, Received, Lasting, Noted, BookedOk, AtRest;
    var today := w.(day := w.day + 1);
    var a, b :| DueStep(cat, today, a, []) && MaintenanceStep(cat, a, b) && SnapshotStep(b, w');
    var r :| Received(cat, today, r, []) && Arrivals(cat, Noted(r), a);
    IdleHasNone(cat, w, w.day, w.day);
    NobodyBuilds(cat, today, r);
    NotedStays(r);
    ArrivalsLast(cat, Noted(r), a);
    LastingIdle(r.facilities, a.facilities);
    MaintenanceWears(cat, a, b);
    WornLasts(a.facilities, b.facilities);
    LastingIdle(a.facilities, b.facilities);
  }

  lemma NobodyBuilds(cat: Catalog, w: World, w': World)
    requires NoJobs(w.facilities) && Received(cat, w, w', [])
             && (forall i | 0 <= i < |w.facilities| :: w.facilities[i].job.None?)
    ensures NoJobs(w'.facilities) && forall i | 0 <= i < |w'.facilities| :: w'.facilities[i].job.None?
  {
    hide ReliefPhase, Sum;
    var a, b, c :| OpenStep(cat, w, a) && EffectsStep(cat, a, b, []) && TransfersStep(b, c) && ReliefPhase(cat, c, w');
    forall i | 0 <= i < |c.facilities| ensures !c.facilities[i].life.UnderConstruction? && c.facilities[i].awaited == 0
        && c.facilities[i].job.None? {
      assert a.facilities[i] == Serviced(cat, Opened(w.facilities[i], w.day), w.day);
    }
    ReliefLeaves(cat, c, w');
  }

  lemma DayIdles(cat: Catalog, w: World, w': World, x: DayInputs)
    requires AtRest(w) && Inv(cat, w) && 0 <= w.day && DayStep(cat, w, w', x) && x.due == x.evening == []
             && ValidInputs(cat, x, |w.planets|)
    requires NoJobs(w.facilities)
    ensures NoJobs(w'.facilities)
  {
    hide InvAt, AtRest, Morning, Workday, Reckoned, BenchesOk, PowerUpto, HandlingOk, BookedOk, StaffedOk, Lasting,
         ValidInputs;
    var a, b :| Morning(cat, w, a, x.due) && Workday(cat, a, b, x) && Evening(cat, b, w', x);
    var e :| Reckoned(cat, b, e, x) && Passes(cat, e) && w' == Noted(e);
    MorningIdles(cat, w, a);
    MorningKeepsInv(cat, w, a, x.due);
    WorkdayLasts(cat, a, b, x);
    ReckonedLasts(cat, b, e, x);
    LastingIdle(a.facilities, b.facilities);
    LastingIdle(b.facilities, e.facilities);
  }

  lemma StoresAreBooked(cat: Catalog, w: World)
    requires Inv(cat, w)
    ensures BookedOk(w.planets)
  {
    hide LooseAt, BookedOk, InvAt;
    InvIsLooseAndBooked(cat, w, w.day, w.day);
  }

  /** A day with nothing authored for it. */
  function PlainDay(n: nat): DayInputs {
    DayInputs(map[], seq(n, i => BP_ONE), seq(n, i => BP_ONE), seq(n, i => BP_ONE), seq(n, i => false), [], [])
  }

  /** At rest the next day resolves, and is at rest again. */
  lemma NextDayResolves(cat: Catalog, w: World) returns (w': World)
    requires AtRest(w) && NoJobs(w.facilities) && Inv(cat, w) && 0 <= w.day
    ensures OpStep(cat, w, w', Today(PlainDay(|w.planets|))) && AtRest(w') && NoJobs(w'.facilities)
  {
    hide Inv, AtRest, DayStep, DayStops, Crowds, NoJobs;
    var x := PlainDay(|w.planets|);
    IdleNeverCrowds(cat, w);
    forall end: Ending ensures !DayStops(cat, w, x, end) {
      RestIsClear(cat, w, x, end);
    }
    w' := DayOnce(cat, w, x);
    DayRests(cat, w, w', x);
    DayIdles(cat, w, w', x);
  }

  /** From any valid scenario, every day from the first on is reached. */
  lemma {:induction false} EveryDayIsReached(cat: Catalog, sc: Scenario, n: nat) returns (w: World)
    requires ValidScenario(cat, sc)
    ensures Reachable(cat, sc, w) && w.day == sc.startDay + n && AtRest(w) && NoJobs(w.facilities)
  {
    hide ValidScenario, Inv, Run, OpStep, AtRest, NoJobs, Continues;
    FirstStateIsSound(cat, sc);
    if n == 0 {
      w := FirstState(cat, sc);
      FirstRests(cat, sc);
      NoOps(cat, w);
    } else {
      var before := EveryDayIsReached(cat, sc, n - 1);
      var ops :| Run(cat, FirstState(cat, sc), before, ops);
      RunIsSound(cat, FirstState(cat, sc), before, ops);
      w := NextDayResolves(cat, before);
      var op := Today(PlainDay(|before.planets|));
      OneMore(cat, FirstState(cat, sc), before, w, ops, op);
      OpKeepsInv(cat, before, w, op);
    }
  }

  lemma FirstRests(cat: Catalog, sc: Scenario)
    ensures AtRest(FirstState(cat, sc)) && NoJobs(FirstState(cat, sc).facilities)
            && FirstState(cat, sc).day == sc.startDay
  {
  }

  lemma NoOps(cat: Catalog, w: World)
    ensures Run(cat, w, w, [])
  {
  }

  lemma OneMore(cat: Catalog, w: World, m: World, w': World, ops: seq<Op>, op: Op)
    requires Run(cat, w, m, ops) && OpStep(cat, m, w', op)
    ensures Run(cat, w, w', ops + [op])
  {
    hide OpStep;
    assert (ops + [op])[..|ops + [op]| - 1] == ops;
    assert RunThen(cat, w, w', ops, op);
  }
}
