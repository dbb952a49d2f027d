/** The day as the kernel runs it, phase by phase in place. */
module Resolver {
  import opened Stock
  import opened Catalog
  import opened State
  import opened Chains
  import opened Workforce
  import opened Construction
  import opened Outside
  import opened Upkeep
  import opened Relief
  import opened Effects
  import opened Expedition
  import opened Mandate
  import opened Voyages
  import opened Maintenance
  import opened Power
  import opened Production
  import opened Needs
  import opened Building
  import opened RoutePhase
  import opened Day
  import opened Determined

  method RunRelief(s: Session, ghost d: int, ghost d': int)
    requires LooseAt(s.cat, s.Now(), d, d')
    modifies s`planets, s`ledger, s`recorded
    ensures ReliefPhase(s.cat, old(s.Now()), s.Now())
  {
    hide LooseAt, ReliefStep, StoresOk, FacilitiesOk, StockOk, BookedOk, ReliefFits;
    ghost var w := s.Now();
    ghost var step := ReliefNext(s.cat);
    for p := 0 to |s.planets|
      invariant Through(w, s.Now(), p, step) && LooseDay(s.cat, w, d, d')(s.Now())
    {
      ghost var m := s.Now();
      LooseNeeds(s, d, d');
      DeliverRelief(s, p);
      ReliefKeepsInv(s.cat, m, s.Now(), p, d, d');
      ReliefWidth(s.cat, m, s.Now(), p);
      ThroughNext(w, m, s.Now(), p, step);
    }
  }

  lemma LandingNeeds(s: Session)
    requires FacilitiesOk(s.cat, s.facilities, |s.planets|, s.nextId)
    ensures SortedById(s.facilities) && forall i | 0 <= i < |s.facilities| :: 0 < s.facilities[i].id
  {
  }

  lemma ArrivalNeeds(s: Session, d: int, d': int)
    requires InvAt(s.cat, s.Now(), d, d')
    ensures s.Stores() && Positive(s.ship.cargo, s.cat.resources)
  {
    hide StoresOk, WorkforceOk, BalancesOk, ColonyOk, PeopleOk, DemandOk, ClaimsOk, BookedOk, TankOk, ShippedOk;
  }

  /** Openings and services, consequences, transfers, relief; false where a consequence lacks what it needs. */
  method RunReceipts(s: Session, es: seq<StockEffect>, ghost d: int, ghost d': int) returns (done: bool)
    requires InvAt(s.cat, s.Now(), d, d') && EffectsOk(s.cat, es, |s.planets|)
    modifies s`planets, s`facilities, s`transfers, s`nextId, s`ledger, s`recorded
    ensures if done then Received(s.cat, old(s.Now()), s.Now(), es) else DueStops(s.cat, old(s.Now()), es)
    ensures done ==> LooseAt(s.cat, s.Now(), d, d') && |s.planets| == |old(s.planets)|
  {
    hide InvAt, LooseAt, OpenStep, EffectsStep, EffectsStop, TransfersStep, ReliefPhase, EffectsOk, StoresOk,
         FacilitiesOk, BookedOk, StockOk;
    ghost var w := s.Now();
    OpenFacilities(s);
    ghost var a := s.Now();
    OpenKeepsInv(s.cat, w, a, d, d');
    OpenWidth(s.cat, w, a);
    InvIsLooseAndBooked(s.cat, a, d, d');
    done := RunEffects(s, es, d, d');
    if !done {
      return;
    }
    ghost var b := s.Now();
    EffectsKeepInv(s.cat, a, b, es, d, d');
    LooseNeeds(s, d, d');
    LandingNeeds(s);
    CompleteTransfers(s);
    ghost var c := s.Now();
    TransfersKeepInv(s.cat, b, c, d, d');
    RunRelief(s, d, d');
    ReliefPhaseKeepsInv(s.cat, c, s.Now(), d, d');
  }

  /** Phase 1 in its order: what is received, then expedition and ships. */
  method RunDue(s: Session, es: seq<StockEffect>) returns (done: bool)
    requires InvAt(s.cat, s.Now(), s.day - 1, s.day - 1) && EffectsOk(s.cat, es, |s.planets|) && 0 <= s.day
    modifies s`planets, s`facilities, s`transfers, s`nextId, s`ship, s`colony, s`demand, s`ledger, s`recorded, s`books
    ensures if done then DueStep(s.cat, old(s.Now()), s.Now(), es) else DueStops(s.cat, old(s.Now()), es)
  {
    hide InvAt, LooseAt, Received, Arrivals, EffectsOk, BookedOk;
    ghost var y := s.day - 1;
    done := RunReceipts(s, es, y, y);
    if done {
      NotedKeeps(s.cat, s.Now(), y, y);
      s.books := s.books.(overgranted := !BookedOk(s.planets));
      RunArrivals(s, y);
    }
  }

  method RunArrivals(s: Session, ghost y: int)
    requires InvAt(s.cat, s.Now(), y, y) && y == s.day - 1 && 0 <= s.day
    modifies s`planets, s`facilities, s`nextId, s`ship, s`colony, s`demand, s`ledger, s`recorded, s`books
    ensures Arrivals(s.cat, old(s.Now()), s.Now())
  {
    hide InvAt, TravelStep, ArrivalStep, StoresOk;
    ghost var e := s.Now();
    TravellersCargo(s.cat, e, y);
    ArrivalNeeds(s, y, y);
    Travel(s);
    ghost var f := s.Now();
    TravelKeepsInv(s.cat, e, f, y);
    TravelWidth(s.cat, e, f);
    ArrivalNeeds(s, s.day, y);
    ArriveShip(s);
  }

  method RunMorning(s: Session, es: seq<StockEffect>) returns (done: bool)
    requires Inv(s.cat, s.Now()) && 0 <= s.day && EffectsOk(s.cat, es, |s.planets|)
    modifies s`day, s`planets, s`facilities, s`transfers, s`nextId, s`ship, s`colony, s`demand, s`scratch, s`ledger,
        s`recorded, s`books
    ensures if done then Morning(s.cat, old(s.Now()), s.Now(), es) else MorningStops(s.cat, old(s.Now()), es)
  {
    hide InvAt, DueStep, DueStops, MaintenanceStep, EffectsOk;
    ghost var w := s.Now();
    s.day := s.day + 1;
    PlanIsFree(s.cat, w, s.Now(), w.day, w.day);
    ghost var today := s.Now();
    done := RunDue(s, es);
    if !done {
      return;
    }
    ghost var a := s.Now();
    DueKeepsInv(s.cat, today, a, es);
    MaintainAll(s, a.day, a.day);
    ghost var b := s.Now();
    TakeSnapshot(s);
  }

  lemma InputsUsed(cat: Catalog, x: DayInputs, planets: nat)
    requires ValidInputs(cat, x, planets)
    ensures EffectsOk(cat, x.due, planets) && EffectsOk(cat, x.evening, planets) && FactorsOk(x, planets)
            && |x.foodRatio| == |x.emergency| == planets
    ensures forall q | 0 <= q < |x.foodRatio| :: 0 <= x.foodRatio[q]
  {
  }

  /** Whether every facility that will run today has no more staff than its recipe employs. */
  method ThroughputsKnown(s: Session) returns (ok: bool)
    ensures ok <==> !Overworked(s.cat, s.Now())
  {
    for i := 0 to |s.facilities|
      invariant forall k | 0 <= k < i :: !Overmanned(s.cat, s.facilities[k], s.day)
    {
      if Overmanned(s.cat, s.facilities[i], s.day) {
        return false;
      }
    }
    return true;
  }

  method RunWorkday(s: Session, x: DayInputs) returns (done: bool)
    requires InvAt(s.cat, s.Now(), s.day, s.day) && BenchesOk(s.cat, s.Now()) && PowerUpto(s.cat, s.Now(), 0)
             && ValidInputs(s.cat, x, |s.planets|)
    modifies s`planets, s`facilities, s`transfers, s`nextId, s`scratch, s`ledger, s`recorded
    ensures done <==> !Overworked(s.cat, old(s.Now()))
    ensures if done then Workday(s.cat, old(s.Now()), s.Now(), x) else s.Now() == old(s.Now())
  {
    hide InvAt, PowerStep, ProductionStep, CommitPhase, BuildPhase, BenchesOk, PowerUpto, HandlingOk, EffectsOk,
         Overworked;
    done := ThroughputsKnown(s);
    if !done {
      return;
    }
    ghost var w := s.Now();
    InputsUsed(s.cat, x, |s.planets|);
    PowerAll(s, x, s.day, s.day);
    ghost var a := s.Now();
    PowerKeepsInv(s.cat, w, a, x, w.day, w.day);
    WorkingWidth(s.cat, w, a);
    ProduceAll(s, x, w.day, w.day);
    ghost var b := s.Now();
    ProductionKeepsInv(s.cat, a, b, x, w.day, w.day);
    WorkingWidth(s.cat, a, b);
    CommitAll(s, x.foodRatio, w.day, w.day);
    CommitKeepsInv(s.cat, b, s.Now(), x.foodRatio, w.day, w.day);
    AdvanceAll(s, x, w.day, w.day);
  }

  method RaiseAlarms(s: Session, emergency: seq<bool>)
    requires |emergency| == |s.planets|
    modifies s`planets
    ensures s.planets == Alarmed(old(s.planets), emergency)
  {
    ghost var base := s.planets;
    for p := 0 to |s.planets|
      invariant |s.planets| == |base|
      invariant forall q | 0 <= q < |base| ::
                s.planets[q] == if q < p then base[q].(emergency := emergency[q]) else base[q]
    {
      s.planets := s.planets[p := s.planets[p].(emergency := emergency[p])];
    }
  }

  lemma MandateNeeds(cat: Catalog, w: World, d: int, d': int)
    requires InvAt(cat, w, d, d')
    ensures ValidMandate(cat, cat.mandate)
    ensures w.demand.issued ==> forall r | r in w.demand.required :: r < cat.resources
  {
    hide WorkforceOk, BalancesOk, ColonyOk, PeopleOk, LedgerOk, PlanetsBalance, StockOk, ValidFacility, ValidFreight,
         ValidExpedition, ValidRules, VoyagesOk;
  }

  /** Whether any facility holds more workers than its recipe employs. */
  method StaffWithin(cat: Catalog, fs: seq<Facility>) returns (ok: bool)
    requires forall i | 0 <= i < |fs| ::
             fs[i].kind < |cat.facilities| && fs[i].recipe < |cat.facilities[fs[i].kind].recipes|
    ensures ok <==> StaffedOk(cat, fs)
  {
    for i := 0 to |fs|
      invariant forall k | 0 <= k < i :: fs[k].staff <= FullStaff(cat, fs[k])
    {
      if fs[i].staff > FullStaff(cat, fs[i]) {
        return false;
      }
    }
    return true;
  }

  lemma KindsHold(cat: Catalog, fs: seq<Facility>, planets: nat, nextId: nat)
    requires FacilitiesOk(cat, fs, planets, nextId)
    ensures forall i | 0 <= i < |fs| ::
            fs[i].kind < |cat.facilities| && fs[i].recipe < |cat.facilities[fs[i].kind].recipes|
  {
    hide JobOk;
    forall i | 0 <= i < |fs| ensures fs[i].kind < |cat.facilities|
        && fs[i].recipe < |cat.facilities[fs[i].kind].recipes| {
      assert FacilityOk(cat, fs[i], planets);
    }
  }

  method RunEvening(s: Session, x: DayInputs) returns (end: Ending)
    requires InvAt(s.cat, s.Now(), s.day, s.day) && HandlingOk(s.Now()) && ValidInputs(s.cat, x, |s.planets|)
    modifies s`planets, s`facilities, s`transfers, s`nextId, s`ship, s`route, s`demand, s`scratch, s`ledger, s`recorded,
        s`books
    ensures if end.Resolved? then Evening(s.cat, old(s.Now()), s.Now(), x) else EveningStops(s.cat, old(s.Now()), x,
            end)
  {
    hide InvAt, LooseAt, FreightStep, FreightFaults, ConsequencesStep, EffectsStep, EffectsStop, HandlingOk, Issued,
         Judged, EffectsOk, StoresOk, StockOk, FacilitiesOk, BookedOk, StaffedOk;
    ghost var w := s.Now();
    InputsUsed(s.cat, x, |s.planets|);
    var ok := RunFreight(s, x.foodRatio);
    if !ok {
      return Raised;
    }
    ghost var a := s.Now();
    FreightKeepsInv(s.cat, w, a, x.foodRatio, w.day);
    FreightWidth(s.cat, w, a, x.foodRatio);
    RunConsequences(s, x.emergency);
    ghost var b := s.Now();
    ConsequencesKeepInv(s.cat, a, b, x.emergency, w.day, w.day);
    InvIsLooseAndBooked(s.cat, b, w.day, w.day);
    ok := RunEffects(s, x.evening, w.day, w.day);
    if !ok {
      return Raised;
    }
    EffectsKeepInv(s.cat, b, s.Now(), x.evening, w.day, w.day);
    LooseNeeds(s, w.day, w.day);
    assert Reckoned(s.cat, w, s.Now(), x);
    KindsHold(s.cat, s.facilities, |s.planets|, s.nextId);
    var booked := StoresBooked(s.planets, s.cat.resources);
    var staffed := StaffWithin(s.cat, s.facilities);
    s.books := s.books.(overgranted := !booked);
    end := if !booked then Overbooked else if !staffed then Overstaffed else Resolved;
  }

  method RunConsequences(s: Session, emergency: seq<bool>)
    requires InvAt(s.cat, s.Now(), s.day, s.day) && |emergency| == |s.planets|
    modifies s`planets, s`demand
    ensures ConsequencesStep(s.cat, old(s.Now()), s.Now(), emergency)
  {
    hide InvAt, Issued, Judged;
    MandateNeeds(s.cat, s.Now(), s.day, s.day);
    RaiseAlarms(s, emergency);
    UpdateMandate(s);
  }

  // ----- the day -----

  /** The phases in their order, up to the one that stops. */
  method RunDay(s: Session, x: DayInputs) returns (end: Ending)
    requires Inv(s.cat, s.Now()) && 0 <= s.day && ValidInputs(s.cat, x, |s.planets|)
    modifies s
    ensures if end.Resolved? then DayStep(s.cat, old(s.Now()), s.Now(), x) else DayStops(s.cat, old(s.Now()), x, end)
  {
    hide InvAt, Morning, Workday, Evening, MorningStops, EveningStops, BenchesOk, PowerUpto, HandlingOk, ValidInputs,
         EffectsOk;
    ghost var w := s.Now();
    InputsUsed(s.cat, x, |s.planets|);
    var begun := RunMorning(s, x.due);
    if !begun {
      return Raised;
    }
    ghost var a := s.Now();
    MorningKeepsInv(s.cat, w, a, x.due);
    var worked := RunWorkday(s, x);
    if !worked {
      return Raised;
    }
    ghost var b := s.Now();
    WorkdayKeepsInv(s.cat, a, b, x);
    end := RunEvening(s, x);
  }

  /** Resolves the next day: what a resolved day did is the ten phases in order, and it ends in a committed
      state. A day resolves exactly when nothing stops it, and ends otherwise exactly as what stops it says. */
  method StepDay(s: Session, x: DayInputs) returns (end: Ending)
    requires Inv(s.cat, s.Now()) && 0 <= s.day && ValidInputs(s.cat, x, |s.planets|)
    modifies s
    ensures end.Resolved? ==> DayStep(s.cat, old(s.Now()), s.Now(), x) && Inv(s.cat, s.Now()) && s.day == old(s.day) + 1
    ensures end.Resolved? <==> forall e: Ending :: !DayStops(s.cat, old(s.Now()), x, e)
    ensures forall e: Ending | !e.Resolved? :: end == e <==> DayStops(s.cat, old(s.Now()), x, e)
  {
    hide Inv, DayStep, DayStops, ValidInputs;
    ghost var w := s.Now();
    end := RunDay(s, x);
    if end.Resolved? {
      SameAsItself(w);
      DayIsDetermined(s.cat, w, s.Now(), w, s.Now(), x);
      DayKeepsInv(s.cat, w, s.Now(), x);
    } else {
      forall e: Ending | DayStops(s.cat, w, x, e) ensures e == end {
        OneEnding(s.cat, w, x, e, end);
      }
    }
  }
}
