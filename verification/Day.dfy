/** One day: ten phases in their fixed order, how it can end, and what a committed state still satisfies
    after it. */
module Day {
  import opened Sums
  import opened Catalog
  import opened State
  import opened Chains
  import opened Workforce
  import opened Freight
  import opened Outside
  import opened Upkeep
  import opened Relief
  import opened Effects
  import opened Expedition
  import opened Mandate
  import opened Voyages
  import opened Maintenance
  import opened Power
  import opened Production
  import opened Needs
  import opened Building
  import opened RoutePhase

  /** How a day ends: resolved, or stopped where a phase raises an error, or at the closing check, over promised
      space or over staff. */
  datatype Ending = Resolved | Overbooked | Overstaffed | Raised

  // ----- phase 1: due work -----

  ghost function ReliefNext(cat: Catalog): Step {
    (a: World, b: World, p: nat) => ReliefStep(cat, a, b, p)
  }

  ghost predicate ReliefPhase(cat: Catalog, w: World, w': World) {
    Through(w, w', |w.planets|, ReliefNext(cat))
  }

  lemma ReliefWidth(cat: Catalog, w: World, w': World, p: nat)
    requires ReliefStep(cat, w, w', p)
    ensures |w'.planets| == |w.planets| && w'.day == w.day && w'.books == w.books && w'.facilities == w.facilities
  {
    hide Posted, LedgerOk;
  }

  lemma ReliefPhaseKeepsInv(cat: Catalog, w: World, w': World, d: int, d': int)
    requires LooseAt(cat, w, d, d') && ReliefPhase(cat, w, w')
    ensures LooseAt(cat, w', d, d') && |w'.planets| == |w.planets| && w'.day == w.day
  {
    hide LooseAt, ReliefStep, ReliefFits, BookedOk;
    var inv := LooseDay(cat, w, d, d');
    forall a, b, p: nat | p < |w.planets| && inv(a) && ReliefNext(cat)(a, b, p) ensures inv(b) {
      ReliefKeepsInv(cat, a, b, p, d, d');
      ReliefWidth(cat, a, b, p);
    }
    ThroughKeeps(w, w', |w.planets|, ReliefNext(cat), inv);
  }

  /** Openings and services, the effects due, transfers and relief. */
  ghost predicate Received(cat: Catalog, w: World, w': World, es: seq<StockEffect>) {
    exists a, b, c :: OpenStep(cat, w, a) && EffectsStep(cat, a, b, es) && TransfersStep(b, c)
        && ReliefPhase(cat, c, w')
  }

  ghost predicate Arrivals(cat: Catalog, w: World, w': World) {
    exists f :: TravelStep(cat, w, f) && ArrivalStep(cat, f, w')
  }

  /** The books note whether promised space has been taken. */
  ghost function Noted(w: World): World {
    w.(books := w.books.(overgranted := !BookedOk(w.planets)))
  }

  lemma NotedKeeps(cat: Catalog, w: World, d: int, d': int)
    requires LooseAt(cat, w, d, d')
    ensures InvAt(cat, Noted(w), d, d') && Noted(w).planets == w.planets && Noted(w).day == w.day
            && Noted(w).books.overgranted == !BookedOk(w.planets)
  {
    hide StoresOk, WorkforceOk, BookedOk, ColonyOk, PeopleOk, EscrowBalance, ShipBalance, ExpeditionBalance, ShipOk,
         TankOk, ShippedOk, ClaimsOk, DemandOk;
  }

  ghost predicate DueStep(cat: Catalog, w: World, w': World, es: seq<StockEffect>) {
    exists e :: Received(cat, w, e, es) && Arrivals(cat, Noted(e), w')
  }

  /** A due effect lacks what it needs. */
  ghost predicate DueStops(cat: Catalog, w: World, es: seq<StockEffect>) {
    exists a :: OpenStep(cat, w, a) && EffectsStop(cat, a, es)
  }

  lemma OpenWidth(cat: Catalog, w: World, w': World)
    requires OpenStep(cat, w, w')
    ensures w'.planets == w.planets && w'.day == w.day
  {
  }

  lemma ArrivalWidth(cat: Catalog, w: World, w': World)
    requires ArrivalStep(cat, w, w')
    ensures w'.planets == w.planets && w'.day == w.day
  {
  }

  lemma TravelWidth(cat: Catalog, w: World, w': World)
    requires TravelStep(cat, w, w')
    ensures |w'.planets| == |w.planets| && w'.day == w.day
  {
    hide Posted, LedgerOk, Credited, Moved;
  }

  lemma ReceivedKeepsLoose(cat: Catalog, w: World, w': World, es: seq<StockEffect>, d: int, d': int)
    requires InvAt(cat, w, d, d') && Received(cat, w, w', es) && EffectsOk(cat, es, |w.planets|)
    ensures LooseAt(cat, w', d, d') && |w'.planets| == |w.planets| && w'.day == w.day
  {
    hide InvAt, LooseAt, OpenStep, EffectsStep, TransfersStep, ReliefPhase, EffectsOk, BookedOk;
    var a, b, c :| OpenStep(cat, w, a) && EffectsStep(cat, a, b, es) && TransfersStep(b, c) && ReliefPhase(cat, c, w');
    OpenKeepsInv(cat, w, a, d, d');
    OpenWidth(cat, w, a);
    InvIsLooseAndBooked(cat, a, d, d');
    EffectsKeepInv(cat, a, b, es, d, d');
    TransfersKeepInv(cat, b, c, d, d');
    ReliefPhaseKeepsInv(cat, c, w', d, d');
  }

  /** Due work brings yesterday's state up to today: expedition, transfers and ships included. */
  lemma DueKeepsInv(cat: Catalog, w: World, w': World, es: seq<StockEffect>)
    requires InvAt(cat, w, w.day - 1, w.day - 1) && DueStep(cat, w, w', es) && EffectsOk(cat, es, |w.planets|)
             && 0 <= w.day
    ensures InvAt(cat, w', w'.day, w'.day) && |w'.planets| == |w.planets| && w'.day == w.day
  {
    hide InvAt, LooseAt, Received, Arrivals, EffectsOk, BookedOk, Noted;
    var y := w.day - 1;
    var e :| Received(cat, w, e, es) && Arrivals(cat, Noted(e), w');
    ReceivedKeepsLoose(cat, w, e, es, y, y);
    NotedKeeps(cat, e, y, y);
    ArrivalsKeepInv(cat, Noted(e), w');
  }

  lemma ArrivalsKeepInv(cat: Catalog, w: World, w': World)
    requires InvAt(cat, w, w.day - 1, w.day - 1) && Arrivals(cat, w, w') && 0 <= w.day
    ensures InvAt(cat, w', w'.day, w'.day) && |w'.planets| == |w.planets| && w'.day == w.day
  {
    hide InvAt, TravelStep, ArrivalStep;
    var f :| TravelStep(cat, w, f) && ArrivalStep(cat, f, w');
    TravelKeepsInv(cat, w, f, w.day - 1);
    TravelWidth(cat, w, f);
    ArrivalKeepsInv(cat, f, w', w.day);
    ArrivalWidth(cat, f, w');
  }

  // ----- phase 9: what the day amounts to -----

  function Alarmed(planets: seq<Planet>, emergency: seq<bool>): seq<Planet>
    requires |planets| == |emergency|
  {
    seq(|planets|, p requires 0 <= p < |planets| => planets[p].(emergency := emergency[p]))
  }

  ghost predicate ConsequencesStep(cat: Catalog, w: World, w': World, emergency: seq<bool>) {
    |emergency| == |w.planets| && MandateStep(cat, w.(planets := Alarmed(w.planets, emergency)), w')
  }

  lemma ConsequencesKeepInv(cat: Catalog, w: World, w': World, emergency: seq<bool>, d: int, d': int)
    requires InvAt(cat, w, d, d') && ConsequencesStep(cat, w, w', emergency)
    ensures InvAt(cat, w', d, d') && w'.day == w.day && |w'.planets| == |w.planets|
  {
    hide InvAt, Issued, Judged;
    var mid := w.(planets := Alarmed(w.planets, emergency));
    forall p | 0 <= p < |w.planets| ensures SameWorld(w.planets[p], mid.planets[p]) {
    }
    ReportsAreFree(cat, w, mid, d, d');
    MandateKeepsInv(cat, mid, w', d, d');
  }

  /** The mandate is judged, and the events of the evening have their effects. */
  ghost predicate Reckoned(cat: Catalog, w: World, w': World, x: DayInputs) {
    exists a, b :: FreightStep(cat, w, a, x.foodRatio) && ConsequencesStep(cat, a, b, x.emergency)
        && EffectsStep(cat, b, w', x.evening)
  }

  lemma ReckonedKeepsLoose(cat: Catalog, w: World, w': World, x: DayInputs)
    requires InvAt(cat, w, w.day, w.day) && HandlingOk(w) && Reckoned(cat, w, w', x)
             && EffectsOk(cat, x.evening, |w.planets|)
    ensures LooseAt(cat, w', w'.day, w'.day) && w'.day == w.day && |w'.planets| == |w.planets|
  {
    hide InvAt, LooseAt, FreightStep, ConsequencesStep, EffectsStep, EffectsOk, HandlingOk, BookedOk;
    var a, b :| FreightStep(cat, w, a, x.foodRatio) && ConsequencesStep(cat, a, b, x.emergency)
        && EffectsStep(cat, b, w', x.evening);
    FreightKeepsInv(cat, w, a, x.foodRatio, w.day);
    FreightWidth(cat, w, a, x.foodRatio);
    ConsequencesKeepInv(cat, a, b, x.emergency, w.day, w.day);
    InvIsLooseAndBooked(cat, b, w.day, w.day);
    EffectsKeepInv(cat, b, w', x.evening, w.day, w.day);
  }

  lemma FreightWidth(cat: Catalog, w: World, w': World, ratios: seq<int>)
    requires InvAt(cat, w, w.day, w.day) && HandlingOk(w) && FreightStep(cat, w, w', ratios)
    ensures |w'.planets| == |w.planets|
  {
    hide WorkforceOk, BalancesOk, ColonyOk, PeopleOk, FreighterOk, LedgerOk, PlanetsBalance, StockOk, ValidFacility,
         ValidFreight, ValidExpedition, ValidMandate, ValidRules, FreightStep;
    FreightKeepsInv(cat, w, w', ratios, w.day);
  }

  // ----- the day -----

  ghost predicate Morning(cat: Catalog, w: World, w': World, es: seq<StockEffect>) {
    exists a, b :: DueStep(cat, w.(day := w.day + 1), a, es) && MaintenanceStep(cat, a, b) && SnapshotStep(b, w')
  }

  /** Somewhere a facility that would run has more staff than its recipe employs: working out its throughput is
      an error. */
  ghost predicate Overworked(cat: Catalog, w: World) {
    exists i :: 0 <= i < |w.facilities| && Overmanned(cat, w.facilities[i], w.day)
  }

  predicate Overmanned(cat: Catalog, f: Facility, day: int) {
    && f.kind < |cat.facilities| && f.recipe < |cat.facilities[f.kind].recipes|
    && Operable(f, day) && Works(f) && 0 < FullStaff(cat, f) < f.staff
  }

  ghost predicate Workday(cat: Catalog, w: World, w': World, x: DayInputs) {
    && !Overworked(cat, w)
    && exists a, b, c ::
      PowerStep(cat, w, a, x) && ProductionStep(cat, a, b, x) && CommitPhase(cat, b, c, x.foodRatio)
          && BuildPhase(cat, c, w', x)
  }

  /** What the check at the end of a day asks of stores and staff. */
  ghost predicate Passes(cat: Catalog, w: World) {
    BookedOk(w.planets) && StaffedOk(cat, w.facilities)
  }

  /** Staff is within what recipes employ, unless some facility was finished with more workers than that still
      on their way to it. */
  lemma StaffedUnlessAwaited(cat: Catalog, w: World, d: int, d': int)
    requires InvAt(cat, w, d, d')
    ensures || StaffedOk(cat, w.facilities)
            || exists i: nat :: i < |w.facilities| && w.facilities[i].kind < |cat.facilities|
                 && w.facilities[i].recipe < |cat.facilities[w.facilities[i].kind].recipes|
                     && FullStaff(cat, w.facilities[i]) < w.facilities[i].awaited
  {
    hide Sum, FreighterOk, BalancesOk, ColonyOk, PeopleOk, StockOk, LedgerOk, PlanetsBalance, WorkersOk, SlotsOk, JobOk,
         ValidFreight, ValidExpedition, ValidMandate, ValidRules;
    forall i | 0 <= i < |w.facilities|
      ensures var f := w.facilities[i];
              && f.kind < |cat.facilities| && f.recipe < |cat.facilities[f.kind].recipes|
              && (f.awaited <= FullStaff(cat, f) ==> f.staff <= FullStaff(cat, f))
    {
      var f := w.facilities[i];
      assert FacilityOk(cat, f, |w.planets|) && StaffFits(cat, f, w.transfers);
      assert ValidFacility(cat, cat.facilities[f.kind]);
      assert ValidRecipe(cat, cat.facilities[f.kind].recipes[f.recipe]);
      SumNonNegative(w.transfers, IncomingTo(f.id));
    }
  }

  /** The evening ends with that check. */
  ghost predicate Evening(cat: Catalog, w: World, w': World, x: DayInputs) {
    exists e :: Reckoned(cat, w, e, x) && Passes(cat, e) && w' == Noted(e)
  }

  /** A day resolved in full. */
  ghost predicate DayStep(cat: Catalog, w: World, w': World, x: DayInputs) {
    exists a, b :: Morning(cat, w, a, x.due) && Workday(cat, a, b, x) && Evening(cat, b, w', x)
  }

  ghost predicate MorningStops(cat: Catalog, w: World, es: seq<StockEffect>) {
    DueStops(cat, w.(day := w.day + 1), es)
  }

  ghost predicate EveningStops(cat: Catalog, w: World, x: DayInputs, end: Ending) {
    match end
    case Raised =>
      || FreightFaults(cat, w, x.foodRatio)
      || exists a, b :: FreightStep(cat, w, a, x.foodRatio) && ConsequencesStep(cat, a, b, x.emergency)
          && EffectsStop(cat, b, x.evening)
    case Overbooked => exists e :: Reckoned(cat, w, e, x) && !BookedOk(e.planets)
    case Overstaffed => exists e :: Reckoned(cat, w, e, x) && BookedOk(e.planets) && !StaffedOk(cat, e.facilities)
    case Resolved => false
  }

  /** The day stops, that way: in its morning, at its work, or after both in its evening. */
  ghost predicate DayStops(cat: Catalog, w: World, x: DayInputs, end: Ending) {
    || (end.Raised? && MorningStops(cat, w, x.due))
    || (end.Raised? && exists a :: Morning(cat, w, a, x.due) && Overworked(cat, a))
    || exists a, b :: Morning(cat, w, a, x.due) && Workday(cat, a, b, x) && EveningStops(cat, b, x, end)
  }

  lemma MorningKeepsInv(cat: Catalog, w: World, w': World, es: seq<StockEffect>)
    requires Inv(cat, w) && 0 <= w.day && Morning(cat, w, w', es) && EffectsOk(cat, es, |w.planets|)
    ensures InvAt(cat, w', w'.day, w'.day) && w'.day == w.day + 1 && |w'.planets| == |w.planets| && BenchesOk(cat, w')
            && PowerUpto(cat, w', 0)
  {
    hide InvAt, DueStep, MaintenanceStep, EffectsOk, BenchesOk, PowerUpto;
    var today := w.(day := w.day + 1);
    PlanIsFree(cat, w, today, w.day, w.day);
    var a, b :| DueStep(cat, today, a, es) && MaintenanceStep(cat, a, b) && SnapshotStep(b, w');
    DueKeepsInv(cat, today, a, es);
    MaintenanceKeepsInv(cat, a, b, a.day, a.day);
    SnapshotKeepsInv(cat, b, w', a.day, a.day);
  }

  lemma WorkdayKeepsInv(cat: Catalog, w: World, w': World, x: DayInputs)
    requires InvAt(cat, w, w.day, w.day) && BenchesOk(cat, w) && PowerUpto(cat, w, 0) && Workday(cat, w, w', x)
             && ValidInputs(cat, x, |w.planets|)
    ensures InvAt(cat, w', w'.day, w'.day) && AllPowered(cat, w') && HandlingOk(w') && w'.day == w.day
            && |w'.planets| == |w.planets|
  {
    hide InvAt, PowerStep, ProductionStep, CommitPhase, BuildPhase, BenchesOk, PowerUpto, HandlingOk;
    var a, b, c :| PowerStep(cat, w, a, x) && ProductionStep(cat, a, b, x) && CommitPhase(cat, b, c, x.foodRatio)
        && BuildPhase(cat, c, w', x);
    PowerKeepsInv(cat, w, a, x, w.day, w.day);
    WorkingWidth(cat, w, a);
    ProductionKeepsInv(cat, a, b, x, w.day, w.day);
    WorkingWidth(cat, a, b);
    CommitKeepsInv(cat, b, c, x.foodRatio, w.day, w.day);
    BuildPhaseKeepsInv(cat, c, w', x, w.day, w.day);
  }

  lemma EveningKeepsInv(cat: Catalog, w: World, w': World, x: DayInputs)
    requires InvAt(cat, w, w.day, w.day) && HandlingOk(w) && Evening(cat, w, w', x)
             && EffectsOk(cat, x.evening, |w.planets|)
    ensures Inv(cat, w') && w'.day == w.day
  {
    hide InvAt, LooseAt, Reckoned, HandlingOk, EffectsOk, BookedOk, StaffedOk;
    var e :| Reckoned(cat, w, e, x) && Passes(cat, e) && w' == Noted(e);
    ReckonedKeepsLoose(cat, w, e, x);
    NotedKeeps(cat, e, w.day, w.day);
  }

  /** A committed state is still one after any day. */
  lemma DayKeepsInv(cat: Catalog, w: World, w': World, x: DayInputs)
    requires Inv(cat, w) && 0 <= w.day && DayStep(cat, w, w', x) && ValidInputs(cat, x, |w.planets|)
    ensures Inv(cat, w') && w'.day == w.day + 1
  {
    hide InvAt, Morning, Workday, Evening, BenchesOk, PowerUpto, HandlingOk;
    var a, b :| Morning(cat, w, a, x.due) && Workday(cat, a, b, x) && Evening(cat, b, w', x);
    MorningKeepsInv(cat, w, a, x.due);
    WorkdayKeepsInv(cat, a, b, x);
    EveningKeepsInv(cat, b, w', x);
  }
}
