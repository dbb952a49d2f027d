/** What becomes of staff over a day: it changes only when transfers land, so whether a day can pass the checks on
    staff is settled by the state before it. */
module Staffing {
  import opened Sums
  import opened Catalog
  import opened State
  import opened Support
  import opened Chains
  import opened Workforce
  import opened Construction
  import opened Loading
  import opened Freight
  import opened Departures
  import opened Outside
  import opened Upkeep
  import opened Effects
  import opened Expedition
  import opened Mandate
  import opened Voyages
  import opened Order
  import opened Maintenance
  import opened Power
  import opened Production
  import opened Needs
  import opened Building
  import opened RoutePhase
  import opened Day

  /** Tomorrow's landings would leave a finished facility more staff than its recipe employs. */
  ghost predicate Crowds(cat: Catalog, w: World) {
    exists i :: 0 <= i < |w.facilities| && Overfills(cat, w.facilities[i], w.transfers, w.day + 1)
  }

  ghost predicate Overfills(cat: Catalog, f: Facility, transfers: seq<Transfer>, day: int) {
    && f.kind < |cat.facilities| && f.recipe < |cat.facilities[f.kind].recipes|
    && f.job.None? && FullStaff(cat, f) < f.staff + Sum(transfers, LandingAt(f.id, day))
  }

  // ----- facilities that stay as they are staffed -----

  /** The same facility later: finished it only wears or is restored, and a job never has staff. */
  ghost predicate Lasts(f: Facility, f': Facility) {
    && f'.id == f.id && f'.kind == f.kind && f'.recipe == f.recipe && f'.planet == f.planet
    && (f.job.None? ==> f' == f.(condition := f'.condition))
    && (f.job.Some? ==> f'.staff == f.staff || f'.staff == 0)
  }

  ghost predicate Newcomer(f: Facility) {
    f.job.None? && f.staff == 0 && f.awaited == 0 && !f.life.UnderConstruction?
  }

  /** The same facilities later, and perhaps new ones with nobody in them. */
  ghost predicate Lasting(fs: seq<Facility>, fs': seq<Facility>) {
    && |fs| <= |fs'|
    && (forall i | 0 <= i < |fs| :: Lasts(fs[i], fs'[i]))
    && (forall i | |fs| <= i < |fs'| :: Newcomer(fs'[i]))
  }

  lemma LastingThen(a: seq<Facility>, b: seq<Facility>, c: seq<Facility>)
    requires Lasting(a, b) && Lasting(b, c)
    ensures Lasting(a, c)
  {
    forall i | 0 <= i < |a| ensures Lasts(a[i], c[i]) {
      assert Lasts(a[i], b[i]) && Lasts(b[i], c[i]);
    }
    forall i | |a| <= i < |c| ensures Newcomer(c[i]) {
      if i < |b| {
        assert Newcomer(b[i]) && Lasts(b[i], c[i]);
      }
    }
  }

  ghost function LastingSince(w: World): World -> bool {
    (a: World) => Lasting(w.facilities, a.facilities)
  }

  lemma FoundLasts(cat: Catalog, w: World, w': World)
    requires FoundStep(cat, w, w')
    ensures Lasting(w.facilities, w'.facilities)
  {
    hide LedgerOk, Credited, Moved, Storable, Spill, Posted;
  }

  lemma ArrivalsLast(cat: Catalog, w: World, w': World)
    requires Arrivals(cat, w, w')
    ensures Lasting(w.facilities, w'.facilities)
  {
    hide FoundStep, Posted, LedgerOk, Remaining, MarkAll;
    var f :| TravelStep(cat, w, f) && ArrivalStep(cat, f, w');
    if w.colony.launched && !w.colony.founded && w.day == w.colony.arrivalDay {
      var mid :| ChargeStep(cat, w, mid) && FoundStep(cat, mid, f);
      FoundLasts(cat, mid, f);
    }
  }

  /** Nothing but condition has changed. */
  ghost predicate OnlyWorn(fs: seq<Facility>, fs': seq<Facility>) {
    |fs'| == |fs| && forall i | 0 <= i < |fs| :: fs'[i] == fs[i].(condition := fs'[i].condition)
  }

  lemma WornThen(a: seq<Facility>, b: seq<Facility>, c: seq<Facility>)
    requires OnlyWorn(a, b) && OnlyWorn(b, c)
    ensures OnlyWorn(a, c)
  {
    forall i | 0 <= i < |a| ensures c[i] == a[i].(condition := c[i].condition) {
      assert b[i] == a[i].(condition := b[i].condition);
    }
  }

  lemma WornLasts(fs: seq<Facility>, fs': seq<Facility>)
    requires OnlyWorn(fs, fs')
    ensures Lasting(fs, fs')
  {
  }

  lemma MaintainWears(cat: Catalog, w: World, w': World, i: nat)
    requires MaintainStep(cat, w, w', i)
    ensures OnlyWorn(w.facilities, w'.facilities) && w'.transfers == w.transfers && w'.day == w.day
  {
    hide Posted, LedgerOk, Debited, Affords;
  }

  ghost function WornSince(w: World): World -> bool {
    (a: World) => OnlyWorn(w.facilities, a.facilities) && a.transfers == w.transfers && a.day == w.day
  }

  lemma MaintenanceWears(cat: Catalog, w: World, w': World)
    requires MaintenanceStep(cat, w, w')
    ensures WornSince(w)(w')
  {
    hide MaintainStep, Sorted, OnDuty;
    var inv := WornSince(w);
    forall a, b, p: nat | p < |w.planets| && inv(a) && MaintainWorlds(cat)(a, b, p) ensures inv(b) {
      var order :| IsProductionOrder(a.facilities, p, order) && Through(a, b, |order|, MaintainNext(cat, order));
      forall u, v, k: nat | k < |order| && inv(u) && MaintainNext(cat, order)(u, v, k) ensures inv(v) {
        MaintainWears(cat, u, v, order[k]);
        WornThen(w.facilities, u.facilities, v.facilities);
      }
      ThroughKeeps(a, b, |order|, MaintainNext(cat, order), inv);
    }
    ThroughKeeps(w, w', |w.planets|, MaintainWorlds(cat), inv);
  }

  lemma LastsItself(fs: seq<Facility>)
    ensures Lasting(fs, fs)
  {
  }

  /** The same people at the same jobs and on the same ways. */
  ghost predicate SameCrews(w: World, w': World) {
    w'.facilities == w.facilities && w'.transfers == w.transfers && w'.day == w.day
  }

  lemma CommitLeaves(cat: Catalog, w: World, w': World, ratios: seq<int>)
    requires CommitPhase(cat, w, w', ratios)
    ensures SameCrews(w, w') && |w'.planets| == |w.planets|
  {
    hide Posted, LedgerOk, Affords, Served, Staged;
    var inv := (a: World) => SameCrews(w, a) && |a.planets| == |w.planets|;
    forall a, b, p: nat | p < |w.planets| && inv(a) && CommitWorlds(cat, ratios)(a, b, p) ensures inv(b) {
      var m :| CommitStep(cat, a, m, p) && NeedsStep(cat, m, b, p, ratios[p]);
      assert |m.planets| == |a.planets| && |b.planets| == |m.planets|;
    }
    ThroughKeeps(w, w', |w.planets|, CommitWorlds(cat, ratios), inv);
  }

  lemma AdvanceLasts(cat: Catalog, w: World, w': World, i: nat, health: int, fatigue: int)
    requires AdvanceStep(cat, w, w', i, health, fatigue)
    ensures Lasting(w.facilities, w'.facilities)
  {
    hide Posted, LedgerOk, SpentBy, Counted, Construction.Worked, Finished, PowerGrant;
    forall k | 0 <= k < |w.facilities| ensures Lasts(w.facilities[k], w'.facilities[k]) {
    }
  }

  lemma BuildLasts(cat: Catalog, w: World, w': World, x: DayInputs)
    requires BuildPhase(cat, w, w', x)
    ensures Lasting(w.facilities, w'.facilities)
  {
    hide AdvanceStep, Lasting;
    var inv := LastingSince(w);
    LastsItself(w.facilities);
    forall a, b, p: nat | p < |w.planets| && inv(a) && BuildWorlds(cat, x)(a, b, p) ensures inv(b) {
      var step := JobNext(cat, p, x.health[p], x.fatigue[p]);
      forall u, v, i: nat | i < |a.facilities| && inv(u) && step(u, v, i) ensures inv(v) {
        if IsJob(u.facilities[i], p) {
          AdvanceLasts(cat, u, v, i, x.health[p], x.fatigue[p]);
          LastingThen(w.facilities, u.facilities, v.facilities);
        }
      }
      ThroughKeeps(a, b, |a.facilities|, step, inv);
    }
    ThroughKeeps(w, w', |w.planets|, BuildWorlds(cat, x), inv);
  }

  lemma MissionLeaves(cat: Catalog, w: World, w': World)
    requires MissionFirst(cat, w, w')
    ensures SameCrews(w, w')
  {
    hide LegPosted, LedgerOk, Posted, Credited, Debited, Landing, Unloaded, PortOpen, MissionReady, Total, Embarked,
         Logged, CargoVolume;
  }

  lemma DepartureLeaves(cat: Catalog, w: World, w': World, ratio: int)
    requires RequestedStep(cat, w, w', ratio) || ScheduledStep(cat, w, w', ratio)
    ensures SameCrews(w, w')
  {
    hide Shipped, LegPosted, LedgerOk, Total, OutcomeOf, OutLoad, MaySail, ClaimsFor, Sailing, AtOrigin;
  }

  lemma ReturnLeaves(cat: Catalog, w: World, w': World, ratio: int)
    requires ReturnStep(cat, w, w', ratio)
    ensures SameCrews(w, w')
  {
    hide Shipped, LegPosted, LedgerOk, Total, ReturnOutcome, BackLoad, MayReturn, ClaimsFor, Sailing;
  }

  // ----- a single job -----

  lemma {:induction false} NothingBuilt(cat: Catalog, w: World, w': World, p: nat, n: nat, health: int, fatigue: int)
    requires Through(w, w', n, JobNext(cat, p, health, fatigue)) && n <= |w.facilities|
    requires forall i | 0 <= i < n :: !IsJob(w.facilities[i], p)
    ensures w' == w
    decreases n
  {
    hide AdvanceStep;
    if n > 0 {
      var step := JobNext(cat, p, health, fatigue);
      var m :| Through(w, m, n - 1, step) && step(m, w', n - 1);
      NothingBuilt(cat, w, m, p, n - 1, health, fatigue);
    }
  }

  /** The only job of a world advances once when its turn comes. */
  lemma {:induction false} OneJobHere(cat: Catalog, w: World, w': World, p: nat, i: nat, n: nat, health: int,
      fatigue: int)
    requires Through(w, w', n, JobNext(cat, p, health, fatigue)) && i < n <= |w.facilities|
    requires forall k | 0 <= k < |w.facilities| :: IsJob(w.facilities[k], p) <==> k == i
    ensures AdvanceStep(cat, w, w', i, health, fatigue)
    decreases n
  {
    hide AdvanceStep;
    var step := JobNext(cat, p, health, fatigue);
    var m :| Through(w, m, n - 1, step) && step(m, w', n - 1);
    if n - 1 == i {
      NothingBuilt(cat, w, m, p, i, health, fatigue);
    } else {
      OneJobHere(cat, w, m, p, i, n - 1, health, fatigue);
      AdvancedElsewhere(cat, w, m, i, health, fatigue);
      assert m.facilities[n - 1] == w.facilities[n - 1];
    }
  }

  lemma AdvancedElsewhere(cat: Catalog, w: World, w': World, i: nat, health: int, fatigue: int)
    requires AdvanceStep(cat, w, w', i, health, fatigue)
    ensures |w'.facilities| == |w.facilities| && w'.facilities[i].planet == w.facilities[i].planet
    ensures forall k | 0 <= k < |w.facilities| && k != i :: w'.facilities[k] == w.facilities[k]
  {
    hide Posted, LedgerOk, SpentBy, Counted, Construction.Worked, Finished, PowerGrant;
  }

  /** Where there is one job in all, the phase is that job's day. */
  lemma {:induction false} OneJobBuilt(cat: Catalog, w: World, w': World, i: nat, n: nat, x: DayInputs)
    requires i < |w.facilities| && Through(w, w', n, BuildWorlds(cat, x))
    requires forall k | 0 <= k < |w.facilities| :: w.facilities[k].life.UnderConstruction? <==> k == i
    ensures var p := w.facilities[i].planet;
            if n <= p then w' == w
            else p < |x.health| && p < |x.fatigue| && AdvanceStep(cat, w, w', i, x.health[p], x.fatigue[p])
    decreases n
  {
    hide AdvanceStep;
    if n > 0 {
      var step := BuildWorlds(cat, x);
      var m :| Through(w, m, n - 1, step) && step(m, w', n - 1);
      OneJobBuilt(cat, w, m, i, n - 1, x);
      var p := w.facilities[i].planet;
      if n - 1 == p {
        OneJobHere(cat, w, w', p, i, |w.facilities|, x.health[p], x.fatigue[p]);
      } else {
        if p < n - 1 {
          AdvancedElsewhere(cat, w, m, i, x.health[p], x.fatigue[p]);
        }
        NothingBuilt(cat, m, w', n - 1, |m.facilities|, x.health[n - 1], x.fatigue[n - 1]);
      }
    }
  }

  // ----- freight and the mandate -----

  lemma FreightLeaves(cat: Catalog, w: World, w': World, ratios: seq<int>)
    requires FreightStep(cat, w, w', ratios)
    ensures SameCrews(w, w')
  {
    hide MissionFirst, RequestedStep, ScheduledStep, ReturnStep;
    var f, src, dst := cat.freight, ratios[cat.freight.origin], ratios[cat.freight.destination];
    var b, c, m, e :| MissionFirst(cat, w, b) && RequestedStep(cat, b, c, src)
                      && ScheduledStep(cat, c, m, src) && ReturnStep(cat, m, e, dst) && ReportStep(e, w');
    MissionLeaves(cat, w, b);
    DepartureLeaves(cat, b, c, src);
    DepartureLeaves(cat, c, m, src);
    ReturnLeaves(cat, m, e, dst);
  }

  lemma ConsequencesLeave(cat: Catalog, w: World, w': World, emergency: seq<bool>)
    requires ConsequencesStep(cat, w, w', emergency)
    ensures SameCrews(w, w')
  {
    hide Issued, Judged, Alarmed;
  }

  // ----- effects -----

  ghost predicate JobsStay(fs: seq<Facility>, fs': seq<Facility>) {
    |fs'| == |fs| && forall i | 0 <= i < |fs| :: fs'[i].job == fs[i].job
  }

  /** Facilities stay staffed as they are, and nobody else is sent to one. */
  ghost predicate Undisturbed(w: World, w': World) {
    && Lasting(w.facilities, w'.facilities) && JobsStay(w.facilities, w'.facilities) && w'.day == w.day
    && forall id: nat,
        day: int | 0 < id :: Sum(w'.transfers, LandingAt(id, day)) == Sum(w.transfers, LandingAt(id, day))
  }

  lemma EffectUndisturbs(cat: Catalog, w: World, w': World, e: StockEffect)
    requires EffectStep(cat, w, w', e)
    ensures Undisturbed(w, w')
  {
    hide Posted, LedgerOk, Debited, Credited, Affords, SwapAllowed, Lookup, Sum;
    if e.Swap? {
      var t := w'.transfers[|w.transfers|];
      forall id: nat, day: int | 0 < id
          ensures Sum(w'.transfers, LandingAt(id, day)) == Sum(w.transfers, LandingAt(id, day)) {
        SumAppend(w.transfers, t, LandingAt(id, day));
      }
    }
  }

  lemma EffectsUndisturb(cat: Catalog, w: World, w': World, es: seq<StockEffect>)
    requires EffectsStep(cat, w, w', es)
    ensures Undisturbed(w, w')
  {
    hide EffectStep, Lasting, Sum;
    var inv := (a: World) => Undisturbed(w, a);
    LastsItself(w.facilities);
    forall a, b, k: nat | k < |es| && inv(a) && EffectNext(cat, es)(a, b, k) ensures inv(b) {
      EffectUndisturbs(cat, a, b, es[k]);
      LastingThen(w.facilities, a.facilities, b.facilities);
    }
    ThroughKeeps(w, w', |es|, EffectNext(cat, es), inv);
  }

  // ----- staffing over the day -----

  /** What a committed state's facilities are like in any case: recipes that exist, and jobs without staff. */
  ghost predicate Sane(cat: Catalog, fs: seq<Facility>) {
    forall i | 0 <= i < |fs| ::
      var f := fs[i];
      && f.kind < |cat.facilities| && f.recipe < |cat.facilities[f.kind].recipes| && 0 <= FullStaff(cat, f)
      && (f.job.Some? ==> f.staff == 0) && 0 < f.id
  }

  lemma LooseIsSane(cat: Catalog, w: World, d: int, d': int)
    requires LooseAt(cat, w, d, d')
    ensures Sane(cat, w.facilities)
  {
    hide FreightOk, BalancesOk, ColonyOk, PeopleOk, StockOk, LedgerOk, PlanetsBalance, WorkersOk, StaffOk, TransfersOk,
         SlotsOk, JobOk, ValidFreight, ValidExpedition, ValidMandate, ValidRules;
    forall i | 0 <= i < |w.facilities|
      ensures var f := w.facilities[i];
              && f.kind < |cat.facilities| && f.recipe < |cat.facilities[f.kind].recipes| && 0 <= FullStaff(cat, f)
              && (f.job.Some? ==> f.staff == 0)
    {
      var f := w.facilities[i];
      assert FacilityOk(cat, f, |w.planets|);
      assert ValidFacility(cat, cat.facilities[f.kind]);
      assert ValidRecipe(cat, cat.facilities[f.kind].recipes[f.recipe]);
    }
  }

  lemma InvIsSane(cat: Catalog, w: World, d: int, d': int)
    requires InvAt(cat, w, d, d')
    ensures Sane(cat, w.facilities)
  {
    hide LooseAt, InvAt, BookedOk, Sane;
    InvIsLooseAndBooked(cat, w, d, d');
    LooseIsSane(cat, w, d, d');
  }

  lemma LastingIsStaffed(cat: Catalog, fs: seq<Facility>, fs': seq<Facility>)
    requires Lasting(fs, fs') && Sane(cat, fs) && Sane(cat, fs')
    ensures StaffedOk(cat, fs) <==> StaffedOk(cat, fs')
  {
    forall i | 0 <= i < |fs'|
      ensures var f' := fs'[i];
              f'.staff <= FullStaff(cat, f') <==> (i < |fs| ==> fs[i].staff <= FullStaff(cat, fs[i]))
    {
      if i < |fs| {
        assert Lasts(fs[i], fs'[i]);
      } else {
        assert Newcomer(fs'[i]);
      }
    }
    forall i | 0 <= i < |fs| ensures Lasts(fs[i], fs'[i]) {
    }
  }

  /** Once the transfers have landed, staff is within bounds exactly when they did not crowd a facility. */
  lemma LandedIsStaffed(cat: Catalog, w: World, w': World)
    requires TransfersStep(w, w') && Sane(cat, w.facilities)
    ensures StaffedOk(cat, w'.facilities) <==> forall i | 0 <= i < |w.facilities| ::
            !Overfills(cat, w.facilities[i], w.transfers, w.day)
  {
    hide Sum, Waiting;
    forall i | 0 <= i < |w.facilities|
      ensures var f' := w'.facilities[i];
              && f'.kind < |cat.facilities| && f'.recipe < |cat.facilities[f'.kind].recipes|
              && (f'.staff <= FullStaff(cat, f') <==> !Overfills(cat, w.facilities[i], w.transfers, w.day))
    {
      assert w'.facilities[i] == Shift(w.facilities[i], Sum(w.transfers, LandingAt(w.facilities[i].id, w.day)));
    }
  }

  lemma SameLandings(cat: Catalog, w: World, w': World)
    requires Undisturbed(w, w') && Sane(cat, w.facilities)
    ensures forall i | 0 <= i < |w.facilities| ::
              Overfills(cat, w'.facilities[i], w'.transfers, w.day) == Overfills(cat, w.facilities[i], w.transfers,
                  w.day)
  {
    hide Sum;
    forall i | 0 <= i < |w.facilities| ensures Lasts(w.facilities[i], w'.facilities[i]) {
    }
  }

  /** What the morning receives fills the facilities exactly as their landings say. */
  lemma ReceivedStaff(cat: Catalog, w: World, w': World, es: seq<StockEffect>, d: int, d': int)
    requires InvAt(cat, w, d, d') && Received(cat, w, w', es) && EffectsOk(cat, es, |w.planets|)
    ensures StaffedOk(cat, w'.facilities) <==> forall i | 0 <= i < |w.facilities| ::
            !Overfills(cat, w.facilities[i], w.transfers, w.day)
  {
    hide InvAt, LooseAt, OpenStep, EffectsStep, TransfersStep, ReliefPhase, EffectsOk, Overfills, Sane, StaffedOk,
         Undisturbed;
    var a, b, c :| OpenStep(cat, w, a) && EffectsStep(cat, a, b, es) && TransfersStep(b, c) && ReliefPhase(cat, c, w');
    OpenKeepsInv(cat, w, a, d, d');
    OpenWidth(cat, w, a);
    OpenedFills(cat, w, a, d, d');
    InvIsLooseAndBooked(cat, a, d, d');
    LooseIsSane(cat, a, d, d');
    EffectsKeepInv(cat, a, b, es, d, d');
    EffectsUndisturb(cat, a, b, es);
    LooseIsSane(cat, b, d, d');
    SameLandings(cat, a, b);
    UndisturbedIs(a, b);
    LandedIsStaffed(cat, b, c);
    ReliefLeaves(cat, c, w');
  }

  lemma UndisturbedIs(w: World, w': World)
    requires Undisturbed(w, w')
    ensures |w'.facilities| == |w.facilities| && w'.day == w.day
  {
    hide Lasting, Sum;
  }

  lemma OpenedFills(cat: Catalog, w: World, w': World, d: int, d': int)
    requires InvAt(cat, w, d, d') && OpenStep(cat, w, w')
    ensures |w'.facilities| == |w.facilities|
    ensures forall i | 0 <= i < |w.facilities| ::
            Overfills(cat, w'.facilities[i], w'.transfers, w.day) == Overfills(cat, w.facilities[i], w.transfers, w.day)
  {
    hide InvAt, Sum;
    forall i | 0 <= i < |w.facilities|
        ensures w'.facilities[i] == Serviced(cat, Opened(w.facilities[i], w.day), w.day) {
    }
  }

  lemma ReliefLeaves(cat: Catalog, w: World, w': World)
    requires ReliefPhase(cat, w, w')
    ensures w'.facilities == w.facilities
  {
    hide ReceiveStep;
    var inv := (a: World) => a.facilities == w.facilities;
    forall a, b, p: nat | p < |w.planets| && inv(a) && ReliefNext(cat)(a, b, p) ensures inv(b) {
      ReliefWidth(cat, a, b, p);
    }
    ThroughKeeps(w, w', |w.planets|, ReliefNext(cat), inv);
  }

  /** A morning leaves staff within bounds exactly when nothing that lands crowds a facility. */
  lemma MorningStaff(cat: Catalog, w: World, w': World, es: seq<StockEffect>)
    requires Inv(cat, w) && 0 <= w.day && Morning(cat, w, w', es) && EffectsOk(cat, es, |w.planets|)
    ensures StaffedOk(cat, w'.facilities) <==> !Crowds(cat, w)
  {
    hide InvAt, LooseAt, Received, Arrivals, MaintenanceStep, EffectsOk, Overfills, Sane, StaffedOk, Lasting, Noted,
         BookedOk;
    var today := w.(day := w.day + 1);
    PlanIsFree(cat, w, today, w.day, w.day);
    var a, b :| DueStep(cat, today, a, es) && MaintenanceStep(cat, a, b) && SnapshotStep(b, w');
    var r :| Received(cat, today, r, es) && Arrivals(cat, Noted(r), a);
    ReceivedStaff(cat, today, r, es, w.day, w.day);
    ReceivedKeepsLoose(cat, today, r, es, w.day, w.day);
    NotedKeeps(cat, r, w.day, w.day);
    NotedStays(r);
    LooseIsSane(cat, r, w.day, w.day);
    DueKeepsInv(cat, today, a, es);
    InvIsSane(cat, a, a.day, a.day);
    MaintenanceKeepsInv(cat, a, b, a.day, a.day);
    InvIsSane(cat, b, a.day, a.day);
    ArrivalsLast(cat, Noted(r), a);
    LastingIsStaffed(cat, r.facilities, a.facilities);
    MaintenanceWears(cat, a, b);
    WornLasts(a.facilities, b.facilities);
    LastingIsStaffed(cat, a.facilities, b.facilities);
  }

  lemma NotedStays(w: World)
    ensures Noted(w).facilities == w.facilities && Noted(w).transfers == w.transfers
  {
    hide BookedOk;
  }

  lemma WorkdayLasts(cat: Catalog, w: World, w': World, x: DayInputs)
    requires InvAt(cat, w, w.day, w.day) && BenchesOk(cat, w) && PowerUpto(cat, w, 0) && Workday(cat, w, w', x)
    ensures Lasting(w.facilities, w'.facilities)
  {
    hide InvAt, PowerStep, ProductionStep, CommitPhase, BuildPhase, BenchesOk, PowerUpto, Lasting, Overworked;
    var a, b, c :| PowerStep(cat, w, a, x) && ProductionStep(cat, a, b, x) && CommitPhase(cat, b, c, x.foodRatio)
        && BuildPhase(cat, c, w', x);
    PowerKeepsInv(cat, w, a, x, w.day, w.day);
    WorkingWidth(cat, w, a);
    ProductionKeepsInv(cat, a, b, x, w.day, w.day);
    CommitLeaves(cat, b, c, x.foodRatio);
    BuildLasts(cat, c, w', x);
  }

  lemma ReckonedLasts(cat: Catalog, w: World, w': World, x: DayInputs)
    requires Reckoned(cat, w, w', x)
    ensures Lasting(w.facilities, w'.facilities)
  {
    hide FreightStep, ConsequencesStep, EffectsStep, Lasting;
    var a, b :| FreightStep(cat, w, a, x.foodRatio) && ConsequencesStep(cat, a, b, x.emergency)
        && EffectsStep(cat, b, w', x.evening);
    FreightLeaves(cat, w, a, x.foodRatio);
    ConsequencesLeave(cat, a, b, x.emergency);
    EffectsUndisturb(cat, b, w', x.evening);
  }

  /** From its morning to its closing check a day keeps staff within bounds, or out of them. */
  lemma DayStaff(cat: Catalog, w: World, a: World, b: World, e: World, x: DayInputs)
    requires Inv(cat, w) && 0 <= w.day && ValidInputs(cat, x, |w.planets|)
    requires Morning(cat, w, a, x.due) && Workday(cat, a, b, x) && Reckoned(cat, b, e, x)
    ensures StaffedOk(cat, e.facilities) <==> !Crowds(cat, w)
  {
    hide InvAt, LooseAt, Morning, Workday, Reckoned, BenchesOk, PowerUpto, HandlingOk, EffectsOk, Crowds, Sane,
         StaffedOk, Lasting;
    InputsGiven(cat, x, |w.planets|);
    MorningStaff(cat, w, a, x.due);
    MorningKeepsInv(cat, w, a, x.due);
    WorkdayLasts(cat, a, b, x);
    WorkdayKeepsInv(cat, a, b, x);
    ReckonedLasts(cat, b, e, x);
    ReckonedKeepsLoose(cat, b, e, x);
    InvIsSane(cat, a, a.day, a.day);
    LooseIsSane(cat, e, e.day, e.day);
    LastingThen(a.facilities, b.facilities, e.facilities);
    LastingIsStaffed(cat, a.facilities, e.facilities);
  }

  lemma InputsGiven(cat: Catalog, x: DayInputs, planets: nat)
    requires ValidInputs(cat, x, planets)
    ensures EffectsOk(cat, x.due, planets) && EffectsOk(cat, x.evening, planets)
  {
  }

  lemma OverworkedIsCrowded(cat: Catalog, w: World)
    requires Overworked(cat, w)
    ensures !StaffedOk(cat, w.facilities)
  {
    var i :| 0 <= i < |w.facilities| && Overmanned(cat, w.facilities[i], w.day);
  }

  /** A day on which more workers land at a finished facility than it employs cannot resolve, whatever else
      happens on it; and no other day is stopped over its staff, at work or at the closing check. */
  lemma CrowdedDay(cat: Catalog, w: World, x: DayInputs)
    requires Inv(cat, w) && 0 <= w.day && ValidInputs(cat, x, |w.planets|)
    ensures Crowds(cat, w) ==> forall w' :: !DayStep(cat, w, w', x)
    ensures DayStops(cat, w, x, Overstaffed) ==> Crowds(cat, w)
    ensures forall a :: Morning(cat, w, a, x.due) && Overworked(cat, a) ==> Crowds(cat, w)
  {
    hide InvAt, Morning, Workday, Reckoned, BookedOk, StaffedOk, Overworked, Crowds, FreightFaults, FreightStep,
         ConsequencesStep, EffectsStop, EffectsOk, Noted;
    InputsGiven(cat, x, |w.planets|);
    forall a, b, e | Morning(cat, w, a, x.due) && Workday(cat, a, b, x) && Reckoned(cat, b, e, x)
      ensures StaffedOk(cat, e.facilities) <==> !Crowds(cat, w)
    {
      DayStaff(cat, w, a, b, e, x);
    }
    forall a | Morning(cat, w, a, x.due) && Overworked(cat, a) ensures Crowds(cat, w) {
      OverworkedIsCrowded(cat, a);
      MorningStaff(cat, w, a, x.due);
    }
  }
}
