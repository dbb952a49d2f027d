/** The freight phase: unloading, a strategic departure, an authorised one, a scheduled one, and the
    return leg, in that order. */
module RoutePhase {
  import opened Sums
  import opened Stock
  import opened Ledger
  import opened Catalog
  import opened State
  import opened Support
  import opened Loading
  import opened Freight
  import opened Departures
  import opened Voyages
  import opened Outside

  // ----- the return leg -----

  predicate MayReturn(cat: Catalog, w: World) {
    && w.route.enabled && w.ship.mission.NoMission? && w.ship.phase.Docked?
    && w.ship.location == Some(cat.freight.destination) && w.ship.cargo == map[] && w.ship.earliest <= w.day
    && cat.freight.origin < |w.planets| && cat.freight.destination < |w.planets|
        && cat.freight.destination < |w.scratch|
  }

  ghost function BackLoad(cat: Catalog, w: World, ratio: int): Load
    requires MayReturn(cat, w)
  {
    var f := cat.freight;
    Greedy(cat, LoadLimits(cat, w.route, w.planets, w.facilities, f.destination, f.origin, w.route.homebound, ratio),
           f.cargoCapacity, w.scratch[f.destination].handlingLeft, cat.resources)
  }

  ghost function ReturnOutcome(cat: Catalog, w: World, ratio: int): Outcome {
    if !MayReturn(cat, w) then Blocked
    else if Affords(w.planets[cat.freight.destination].stock, Total(cat, BackLoad(cat, w, ratio).goods, 0, 0),
        cat.resources) then Departed
    else Faulted
  }

  /** The ship goes home, empty if need be, burning the fuel it brought. */
  ghost predicate ReturnStep(cat: Catalog, w: World, w': World, ratio: int) {
    if !MayReturn(cat, w) then w' == w
    else
      && ReturnOutcome(cat, w, ratio).Departed?
      && LegStep(cat, w, w', cat.freight.destination, cat.freight.origin, BackLoad(cat, w, ratio), 0, 0,
          cat.freight.returnBurn, w.books.leftover)
  }

  /** The tank always covers the way home, so a loaded ship is never held back for fuel. */
  lemma ReturnIsFuelled(cat: Catalog, w: World)
    requires MayReturn(cat, w) && TankOk(cat, w.ship, w.books.leftover)
    ensures cat.freight.returnBurn <= w.ship.tank
  {
  }

  method ReturnHome(s: Session, ratio: int) returns (out: Outcome)
    requires s.Stores() && |s.scratch| == |s.planets| && 0 <= s.scratch[s.cat.freight.destination].handlingLeft
    requires TankOk(s.cat, s.ship, s.books.leftover)
    modifies s`planets, s`ship, s`nextId, s`scratch, s`ledger, s`recorded, s`books
    ensures out == old(ReturnOutcome(s.cat, s.Now(), ratio))
    ensures !out.Faulted? ==> ReturnStep(s.cat, old(s.Now()), s.Now(), ratio)
  {
    hide Sum, ValidFacility, ValidExpedition, ValidMandate, ValidRules, LedgerOk, PlanetsBalance, StockOk, LegStep,
         Affords, LoadLimits, Greedy, Spare;
    var f := s.cat.freight;
    if !s.route.enabled || !s.ship.mission.NoMission? || !s.ship.phase.Docked? || s.ship.location != Some(f.destination)
       || s.ship.cargo != map[] || s.ship.earliest > s.day {
      return Blocked;
    }
    LoadIsPlanned(s.cat, s.route, s.planets, s.facilities, f.destination, f.origin, s.route.homebound, ratio,
        f.cargoCapacity, s.scratch[f.destination].handlingLeft);
    var load := PlanLoad(s.cat, s.route, s.planets, s.facilities, f.destination, f.origin, s.route.homebound, ratio,
                         f.cargoCapacity, s.scratch[f.destination].handlingLeft);
    var covered := Covered(s.planets[f.destination].stock, load.goods, s.cat.fuel, 0, s.cat.machinery, 0,
        s.cat.resources);
    if !covered {
      return Faulted;
    }
    ReturnIsFuelled(s.cat, s.Now());
    SailLeg(s, f.destination, f.origin, load, 0, 0, f.returnBurn, s.books.leftover);
    return Departed;
  }

  lemma HomeIsSettled(cat: Catalog, planets: seq<Planet>, fs: seq<Facility>, ts: seq<Transfer>, nextId: nat)
    requires WorkforceOk(cat, planets, fs, ts, nextId) && cat.freight.origin < |planets|
    ensures planets[cat.freight.origin].colonised
  {
  }

  lemma ReturnKeepsInv(cat: Catalog, w: World, w': World, ratio: int, d: int)
    requires InvAt(cat, w, d, w.day) && ReturnStep(cat, w, w', ratio) && |w.scratch| == |w.planets|
    requires 0 <= w.scratch[cat.freight.destination].handlingLeft
    ensures InvAt(cat, w', d, w'.day) && |w'.scratch| == |w'.planets| && w'.day == w.day
  {
    hide Sum, Net, LegStep, Affords, ReserveFloor, WorkforceOk, BalancesOk, ColonyOk, PeopleOk, LoadLimits, ClaimsOk,
         DemandOk, BookedOk, LedgerOk, PlanetsBalance, ValidFacility, ValidExpedition, ValidMandate, ValidRules, Greedy,
         ClaimsFor, ShippedOk;
    if MayReturn(cat, w) {
      var f := cat.freight;
      LoadIsPlanned(cat, w.route, w.planets, w.facilities, f.destination, f.origin, w.route.homebound, ratio,
          f.cargoCapacity, w.scratch[f.destination].handlingLeft);
      var load := BackLoad(cat, w, ratio);
      HomeIsSettled(cat, w.planets, w.facilities, w.transfers, w.nextId);
      LegShip(cat, w, w', f.destination, f.origin, load, 0, 0, f.returnBurn, w.books.leftover);
      LegKeepsInv(cat, w, w', f.destination, f.origin, load, 0, 0, f.returnBurn, w.books.leftover, d, w.day);
    }
  }

  // ----- the outbound leg, authorised and scheduled -----

  function Cleared(route: Route): Route {
    route.(requested := false, allowEmpty := false)
  }

  /** An authorised departure waits for the ship, then leaves or is given up; either way it is spent. */
  ghost predicate RequestedStep(cat: Catalog, w: World, w': World, ratio: int) {
    if !w.route.requested || !AtOrigin(cat, w.ship, w.day) then w' == w
    else match OutcomeOf(cat, w, w.route.allowEmpty, ratio)
      case Departed =>
        && OutboundStep(cat, w, w'.(route := w.route), ratio)
        && w'.route == Cleared(w.route).(nextDeparture := w.day + w.route.interval)
      case Blocked => w' == w.(route := Cleared(w.route))
      case Faulted => false
  }

  /** A scheduled departure leaves, is tried again tomorrow, or is missed for want of the ship. */
  ghost predicate ScheduledStep(cat: Catalog, w: World, w': World, ratio: int) {
    if !w.route.enabled || w.day < w.route.nextDeparture then w' == w
    else if !AtOrigin(cat, w.ship, w.day) then
        w' == w.(route := w.route.(nextDeparture := w.route.nextDeparture + w.route.interval))
    else match OutcomeOf(cat, w, false, ratio)
      case Departed =>
        && OutboundStep(cat, w, w'.(route := w.route), ratio)
        && w'.route == w.route.(nextDeparture := w.day + w.route.interval)
      case Blocked => w' == w.(route := w.route.(nextDeparture := w.day + 1))
      case Faulted => false
  }

  method DepartRequested(s: Session, ratio: int) returns (ok: bool)
    requires s.Stores() && HandlingOk(s.Now())
    modifies s`planets, s`ship, s`nextId, s`scratch, s`ledger, s`recorded, s`books, s`route
    ensures ok ==> RequestedStep(s.cat, old(s.Now()), s.Now(), ratio)
    ensures !ok <==> old(RequestedFaults(s.cat, s.Now(), ratio))
  {
    hide StoresOk, OutboundStep, OutcomeOf;
    if !s.route.requested || !AtOrigin(s.cat, s.ship, s.day) {
      return true;
    }
    OriginHandled(s);
    var out := DepartColonyLeg(s, s.route.allowEmpty, ratio);
    match out {
      case Departed =>
        s.route := Cleared(s.route).(nextDeparture := s.day + s.route.interval);
      case Blocked =>
        s.route := Cleared(s.route);
      case Faulted =>
        return false;
    }
    assert unchanged(s`day, s`facilities, s`transfers, s`colony, s`demand);
    ok := true;
  }

  lemma OriginHandled(s: Session)
    requires s.Stores() && HandlingOk(s.Now())
    ensures s.cat.freight.origin < |s.scratch| && s.cat.freight.destination < |s.scratch|
    ensures 0 <= s.scratch[s.cat.freight.origin].handlingLeft && 0 <= s.scratch[s.cat.freight.destination].handlingLeft
  {
  }

  method DepartScheduled(s: Session, ratio: int) returns (ok: bool)
    requires s.Stores() && HandlingOk(s.Now())
    modifies s`planets, s`ship, s`nextId, s`scratch, s`ledger, s`recorded, s`books, s`route
    ensures ok ==> ScheduledStep(s.cat, old(s.Now()), s.Now(), ratio)
    ensures !ok <==> old(ScheduledFaults(s.cat, s.Now(), ratio))
  {
    hide StoresOk, OutboundStep, OutcomeOf;
    if !s.route.enabled || s.day < s.route.nextDeparture {
      return true;
    }
    if !AtOrigin(s.cat, s.ship, s.day) {
      s.route := s.route.(nextDeparture := s.route.nextDeparture + s.route.interval);
      return true;
    }
    OriginHandled(s);
    var out := DepartColonyLeg(s, false, ratio);
    match out {
      case Departed =>
        s.route := s.route.(nextDeparture := s.day + s.route.interval);
      case Blocked =>
        s.route := s.route.(nextDeparture := s.day + 1);
      case Faulted =>
        return false;
    }
    assert unchanged(s`day, s`facilities, s`transfers, s`colony, s`demand);
    ok := true;
  }

  lemma OutboundKeeps(cat: Catalog, w: World, w': World, allowEmpty: bool, ratio: int, d: int)
    requires InvAt(cat, w, d, w.day) && HandlingOk(w)
    requires OutcomeOf(cat, w, allowEmpty, ratio).Departed? && OutboundStep(cat, w, w'.(route := w.route), ratio)
    ensures InvAt(cat, w', d, w'.day) && HandlingOk(w') && w'.day == w.day
  {
    hide Sum, InvAt, Affords, LoadLimits, Greedy, HasPort, StoresOk, ValidCatalog;
    var f, mid := cat.freight, w'.(route := w.route);
    OutboundKeepsInv(cat, w, mid, allowEmpty, ratio, d);
    LegKeepsHandling(cat, w, mid, f.origin, f.destination, OutLoad(cat, w, ratio), f.roundTripFuel,
        f.roundTripMachinery, f.outboundBurn,
                     w.books.leftover + f.roundTripFuel - f.outboundBurn - f.returnBurn);
    PlanIsFree(cat, mid, w', d, w.day);
  }

  lemma LegKeepsHandling(cat: Catalog, w: World, w': World, src: nat, dst: nat, load: Load, fuelIn: int, machinery: int,
                         burn: int, leftover: int)
    requires LegStep(cat, w, w', src, dst, load, fuelIn, machinery, burn, leftover)
    requires HandlingOk(w) && 0 <= w'.scratch[src].handlingLeft
    ensures HandlingOk(w') && w'.day == w.day && w'.route == w.route
  {
    hide LegPosted, LedgerOk, ClaimsFor;
    LegShip(cat, w, w', src, dst, load, fuelIn, machinery, burn, leftover);
  }

  lemma RequestedKeepsInv(cat: Catalog, w: World, w': World, ratio: int, d: int)
    requires InvAt(cat, w, d, w.day) && HandlingOk(w) && RequestedStep(cat, w, w', ratio)
    ensures InvAt(cat, w', d, w'.day) && HandlingOk(w') && w'.day == w.day
  {
    hide InvAt, OutcomeOf, OutboundStep;
    if w.route.requested && AtOrigin(cat, w.ship, w.day) {
      if OutcomeOf(cat, w, w.route.allowEmpty, ratio).Departed? {
        OutboundKeeps(cat, w, w', w.route.allowEmpty, ratio, d);
      } else {
        PlanIsFree(cat, w, w', d, w.day);
      }
    }
  }

  lemma ScheduledKeepsInv(cat: Catalog, w: World, w': World, ratio: int, d: int)
    requires InvAt(cat, w, d, w.day) && HandlingOk(w) && ScheduledStep(cat, w, w', ratio)
    ensures InvAt(cat, w', d, w'.day) && HandlingOk(w') && w'.day == w.day
  {
    hide InvAt, OutcomeOf, OutboundStep;
    if w.route.enabled && w.route.nextDeparture <= w.day {
      if AtOrigin(cat, w.ship, w.day) && OutcomeOf(cat, w, false, ratio).Departed? {
        OutboundKeeps(cat, w, w', false, ratio, d);
      } else {
        PlanIsFree(cat, w, w', d, w.day);
      }
    }
  }

  // ----- the whole phase -----

  function Reported(planets: seq<Planet>, scratch: seq<Scratch>): seq<Planet>
    requires |planets| == |scratch|
  {
    seq(|planets|, p requires 0 <= p < |planets| => planets[p].(handlingYesterday := scratch[p].handling))
  }

  ghost predicate ReportStep(w: World, w': World) {
    |w.planets| == |w.scratch| && w' == w.(planets := Reported(w.planets, w.scratch))
  }

  method ReportHandling(s: Session)
    requires |s.planets| == |s.scratch|
    modifies s`planets
    ensures ReportStep(old(s.Now()), s.Now())
  {
    ghost var base := s.planets;
    for p := 0 to |s.planets|
      invariant |s.planets| == |base|
      invariant s.planets == Reported(base, s.scratch)[..p] + base[p..]
    {
      s.planets := s.planets[p := s.planets[p].(handlingYesterday := s.scratch[p].handling)];
    }
    assert s.planets == Reported(base, s.scratch);
  }

  /** Unloading, then the strategic departure, which takes the ship before any colonial one. */
  ghost predicate MissionFirst(cat: Catalog, w: World, w': World) {
    exists a :: UnloadStep(cat, w, a) && DepartMissionStep(cat, a, w')
  }

  ghost predicate FreightStep(cat: Catalog, w: World, w': World, ratios: seq<int>) {
    && cat.freight.origin < |ratios| && cat.freight.destination < |ratios|
    && exists b, c, d, e ::
        && MissionFirst(cat, w, b)
        && RequestedStep(cat, b, c, ratios[cat.freight.origin])
        && ScheduledStep(cat, c, d, ratios[cat.freight.origin])
        && ReturnStep(cat, d, e, ratios[cat.freight.destination])
        && ReportStep(e, w')
  }

  ghost predicate RequestedFaults(cat: Catalog, w: World, ratio: int) {
    w.route.requested && AtOrigin(cat, w.ship, w.day) && OutcomeOf(cat, w, w.route.allowEmpty, ratio).Faulted?
  }

  ghost predicate ScheduledFaults(cat: Catalog, w: World, ratio: int) {
    w.route.enabled && w.route.nextDeparture <= w.day && AtOrigin(cat, w.ship, w.day)
        && OutcomeOf(cat, w, false, ratio).Faulted?
  }

  /** One of the phase's three departures, when its turn comes, fails in its commit. */
  ghost predicate FreightFaults(cat: Catalog, w: World, ratios: seq<int>) {
    && cat.freight.origin < |ratios| && cat.freight.destination < |ratios|
    && var src, dst := ratios[cat.freight.origin], ratios[cat.freight.destination];
    exists b :: MissionFirst(cat, w, b) &&
      (RequestedFaults(cat, b, src)
       || exists c :: RequestedStep(cat, b, c, src) &&
            (ScheduledFaults(cat, c, src)
             || exists d :: ScheduledStep(cat, c, d, src) && ReturnOutcome(cat, d, dst).Faulted?))
  }

  lemma UnloadKeeps(cat: Catalog, w: World, w': World, d: int)
    requires InvAt(cat, w, d, w.day) && HandlingOk(w) && UnloadStep(cat, w, w')
    ensures InvAt(cat, w', d, w'.day) && HandlingOk(w') && w'.day == w.day
  {
    hide InvAt, Posted, Credited, LedgerOk, Landing, PortOpen, Unloaded;
    UnloadKeepsInv(cat, w, w', d, w.day);
  }

  lemma MissionKeeps(cat: Catalog, w: World, w': World, d: int)
    requires InvAt(cat, w, d, w.day) && HandlingOk(w) && DepartMissionStep(cat, w, w')
    ensures InvAt(cat, w', d, w'.day) && HandlingOk(w') && w'.day == w.day
  {
    hide InvAt, LegPosted, Debited, LedgerOk, Affords, CargoVolume, Total;
    DepartMissionKeepsInv(cat, w, w', d, w.day);
  }

  lemma MissionFirstKeeps(cat: Catalog, w: World, w': World, d: int)
    requires InvAt(cat, w, d, w.day) && HandlingOk(w) && MissionFirst(cat, w, w')
    ensures InvAt(cat, w', d, w'.day) && HandlingOk(w') && w'.day == w.day
  {
    hide InvAt, UnloadStep, DepartMissionStep, HandlingOk;
    var a :| UnloadStep(cat, w, a) && DepartMissionStep(cat, a, w');
    UnloadKeeps(cat, w, a, d);
    MissionKeeps(cat, a, w', d);
  }

  /** The freight phase keeps every invariant, whatever the route plan asks for. */
  lemma FreightKeepsInv(cat: Catalog, w: World, w': World, ratios: seq<int>, d: int)
    requires InvAt(cat, w, d, w.day) && HandlingOk(w) && FreightStep(cat, w, w', ratios)
    ensures InvAt(cat, w', d, w'.day) && w'.day == w.day
  {
    hide InvAt, UnloadStep, DepartMissionStep, RequestedStep, ScheduledStep, ReturnStep, HandlingOk;
    var src, dst := ratios[cat.freight.origin], ratios[cat.freight.destination];
    var b, c, m, e :| MissionFirst(cat, w, b) && RequestedStep(cat, b, c, src)
                      && ScheduledStep(cat, c, m, src) && ReturnStep(cat, m, e, dst) && ReportStep(e, w');
    MissionFirstKeeps(cat, w, b, d);
    RequestedKeepsInv(cat, b, c, src, d);
    ScheduledKeepsInv(cat, c, m, src, d);
    DestinationHandled(cat, m, d);
    ReturnKeepsInv(cat, m, e, dst, d);
    ReportsAreFree(cat, e, w', d, e.day);
  }

  lemma DestinationHandled(cat: Catalog, w: World, d: int)
    requires InvAt(cat, w, d, w.day) && HandlingOk(w)
    ensures |w.scratch| == |w.planets| && cat.freight.destination < |w.scratch|
            && 0 <= w.scratch[cat.freight.destination].handlingLeft
  {
  }

  /** What each step of the phase needs of the state, drawn from the invariants. */
  lemma PhaseNeeds(s: Session, d: int)
    requires InvAt(s.cat, s.Now(), d, s.day) && HandlingOk(s.Now())
    ensures s.Stores() && ClaimsOk(s.planets, s.ship) && Positive(s.ship.cargo, s.cat.resources)
            && TankOk(s.cat, s.ship, s.books.leftover)
    ensures Ashore(s.ship) ==>
            s.ship.location == s.ship.destination && s.ship.location.Some? && s.ship.location.value < |s.planets|
            && s.ship.mission.NoMission?
    ensures Positive(s.demand.pending, s.cat.resources)
  {
    hide Sum, WorkforceOk, BalancesOk, ColonyOk, PeopleOk, StockOk, LedgerOk, PlanetsBalance, ValidFacility,
         ValidExpedition, ValidMandate, ValidRules, VoyagesOk;
  }

  method RunMissionFirst(s: Session)
    requires InvAt(s.cat, s.Now(), s.day, s.day) && HandlingOk(s.Now())
    modifies s`planets, s`ship, s`scratch, s`ledger, s`recorded, s`demand
    ensures MissionFirst(s.cat, old(s.Now()), s.Now())
    ensures InvAt(s.cat, s.Now(), s.day, s.day) && HandlingOk(s.Now())
  {
    hide InvAt, UnloadStep, DepartMissionStep, StoresOk, ClaimsOk, TankOk, HandlingOk, Positive;
    ghost var w := s.Now();
    PhaseNeeds(s, s.day);
    HandledWidth(w);
    UnloadArrivals(s);
    ghost var mid := s.Now();
    UnloadKeeps(s.cat, w, mid, w.day);
    PhaseNeeds(s, w.day);
    HandledWidth(mid);
    DepartStrategicMission(s);
    MissionKeeps(s.cat, mid, s.Now(), w.day);
  }

  method RunFreight(s: Session, ratios: seq<int>) returns (ok: bool)
    requires InvAt(s.cat, s.Now(), s.day, s.day) && HandlingOk(s.Now())
    requires |ratios| == |s.planets|
    modifies s`planets, s`ship, s`nextId, s`scratch, s`ledger, s`recorded, s`books, s`route, s`demand
    ensures if ok then FreightStep(s.cat, old(s.Now()), s.Now(), ratios) else FreightFaults(s.cat, old(s.Now()), ratios)
  {
    hide InvAt, MissionFirst, RequestedStep, ScheduledStep, ReturnStep, StoresOk, ClaimsOk, TankOk, HandlingOk,
         Positive, OutcomeOf, ReturnOutcome, RequestedFaults, ScheduledFaults;
    PortsExist(s, s.day);
    var src, dst := ratios[s.cat.freight.origin], ratios[s.cat.freight.destination];
    ghost var day := s.day;
    RunMissionFirst(s);
    ghost var b := s.Now();
    PhaseNeeds(s, day);
    ok := DepartRequested(s, src);
    if !ok {
      return;
    }
    ghost var c := s.Now();
    RequestedKeepsInv(s.cat, b, c, src, day);
    PhaseNeeds(s, day);
    ok := DepartScheduled(s, src);
    if !ok {
      return;
    }
    ghost var m := s.Now();
    ScheduledKeepsInv(s.cat, c, m, src, day);
    ok := RunReturn(s, m, day, dst);
  }

  method RunReturn(s: Session, ghost m: World, ghost day: int, ratio: int) returns (ok: bool)
    requires s.Now() == m && m.day == day && InvAt(s.cat, m, day, day) && HandlingOk(m)
    modifies s`planets, s`ship, s`nextId, s`scratch, s`ledger, s`recorded, s`books
    ensures ok ==> exists e :: ReturnStep(s.cat, m, e, ratio) && ReportStep(e, s.Now())
    ensures !ok <==> ReturnOutcome(s.cat, m, ratio).Faulted?
  {
    hide InvAt, ReturnStep, StoresOk, ClaimsOk, TankOk, HandlingOk, Positive, ReturnOutcome;
    PhaseNeeds(s, day);
    DestinationHandled(s.cat, m, day);
    var out := ReturnHome(s, ratio);
    if out.Faulted? {
      return false;
    }
    ghost var e := s.Now();
    ReturnKeepsInv(s.cat, m, e, ratio, day);
    ReportHandling(s);
    ok := true;
  }

  lemma PortsExist(s: Session, d: int)
    requires InvAt(s.cat, s.Now(), d, s.day)
    ensures s.cat.freight.origin < |s.planets| && s.cat.freight.destination < |s.planets|
  {
    hide WorkforceOk, BalancesOk, ColonyOk, PeopleOk, FreighterOk, StockOk, LedgerOk, PlanetsBalance, ValidFacility,
         ValidExpedition, ValidMandate, ValidRules;
  }
}
