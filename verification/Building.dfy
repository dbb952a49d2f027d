/** Phase 7: every world's construction jobs in id order, sharing what power is left. */
module Building {
  import opened Units
  import opened Sums
  import opened Stock
  import opened Ledger
  import opened Catalog
  import opened State
  import opened Workforce
  import opened Construction
  import opened Chains
  import opened Outside
  import opened Maintenance
  import opened Power
  import opened Production
  import opened Postings

  predicate IsJob(f: Facility, p: nat) {
    f.planet == p && f.life.UnderConstruction?
  }

  ghost predicate JobStep(cat: Catalog, w: World, w': World, p: nat, i: nat, health: int, fatigue: int) {
    && i < |w.facilities|
    && if IsJob(w.facilities[i], p) then AdvanceStep(cat, w, w', i, health, fatigue) else w' == w
  }

  ghost function JobNext(cat: Catalog, p: nat, health: int, fatigue: int): Step {
    (a: World, b: World, i: nat) => JobStep(cat, a, b, p, i, health, fatigue)
  }

  ghost predicate BuildWorld(cat: Catalog, w: World, w': World, p: nat, x: DayInputs) {
    p < |x.health| && p < |x.fatigue| && Through(w, w', |w.facilities|, JobNext(cat, p, x.health[p], x.fatigue[p]))
  }

  ghost function BuildWorlds(cat: Catalog, x: DayInputs): Step {
    (a: World, b: World, p: nat) => BuildWorld(cat, a, b, p, x)
  }

  ghost predicate BuildPhase(cat: Catalog, w: World, w': World, x: DayInputs) {
    Through(w, w', |w.planets|, BuildWorlds(cat, x))
  }

  /** Construction draws only on power left over, so the balance holds and the ports are untouched. */
  lemma AdvancePower(cat: Catalog, w: World, w': World, i: nat, health: int, fatigue: int)
    requires AdvanceStep(cat, w, w', i, health, fatigue) && AllPowered(cat, w) && HandlingOk(w)
    requires 0 <= cat.rules.powerPerWorker
    ensures AllPowered(cat, w') && HandlingOk(w') && w'.planets == w.planets && w'.day == w.day
            && |w'.facilities| == |w.facilities|
    ensures w'.ship == w.ship && w'.route == w.route
  {
    hide Posted, LedgerOk, SpentBy, Counted, Worked, Finished, HomeDemand;
    var f := w.facilities[i];
    if f.job.value.crew > 0 {
      assert Powered(cat, w.planets[f.planet], w.scratch[f.planet]);
      GrantIsWithin(cat, f.job.value, w.scratch[f.planet].pool);
    }
  }

  lemma GrantIsWithin(cat: Catalog, j: Job, pool: int)
    requires 0 < j.crew && 0 <= pool && 0 <= cat.rules.powerPerWorker
    ensures 0 <= PowerGrant(cat, j, pool) <= pool
  {
    assert 0 <= j.crew * cat.rules.powerPerWorker;
  }

  ghost function Built(cat: Catalog, w: World, d: int, d': int): World -> bool {
    (a: World) => InvAt(cat, a, d, d') && AllPowered(cat, a) && HandlingOk(a) && |a.facilities| == |w.facilities|
        && |a.planets| == |w.planets| && a.day == w.day
  }

  lemma JobKeeps(cat: Catalog, w: World, w': World, p: nat, i: nat, health: int, fatigue: int, d: int, d': int)
    requires InvAt(cat, w, d, d') && AllPowered(cat, w) && HandlingOk(w) && JobStep(cat, w, w', p, i, health, fatigue)
    requires 0 <= health && 0 <= fatigue
    ensures Built(cat, w, d, d')(w')
  {
    hide InvAt, AdvanceStep, AllPowered;
    if IsJob(w.facilities[i], p) {
      RulesHold(cat, w, d, d');
      AdvancePower(cat, w, w', i, health, fatigue);
      AdvanceKeepsInv(cat, w, w', i, health, fatigue, d, d');
    }
  }

  lemma RulesHold(cat: Catalog, w: World, d: int, d': int)
    requires InvAt(cat, w, d, d')
    ensures 0 <= cat.rules.powerPerWorker
  {
    hide WorkforceOk, FreighterOk, BalancesOk, ColonyOk, PeopleOk, LedgerOk, PlanetsBalance, ValidFacility,
         ValidFreight, ValidExpedition, ValidMandate, StockOk;
  }

  lemma BuildWorldKeeps(cat: Catalog, w: World, w': World, p: nat, x: DayInputs, d: int, d': int)
    requires InvAt(cat, w, d, d') && AllPowered(cat, w) && HandlingOk(w) && BuildWorld(cat, w, w', p, x)
    requires 0 <= x.health[p] && 0 <= x.fatigue[p]
    ensures Built(cat, w, d, d')(w')
  {
    hide InvAt, JobStep, AllPowered, HandlingOk;
    var inv := Built(cat, w, d, d');
    var step := JobNext(cat, p, x.health[p], x.fatigue[p]);
    forall a, b, i: nat | i < |w.facilities| && inv(a) && step(a, b, i) ensures inv(b) {
      JobKeeps(cat, a, b, p, i, x.health[p], x.fatigue[p], d, d');
    }
    ThroughKeeps(w, w', |w.facilities|, step, inv);
  }

  ghost predicate FactorsOk(x: DayInputs, planets: nat) {
    && |x.health| == |x.fatigue| == planets
    && forall p | 0 <= p < planets :: 0 <= x.health[p] && 0 <= x.fatigue[p]
  }

  lemma BuildPhaseKeepsInv(cat: Catalog, w: World, w': World, x: DayInputs, d: int, d': int)
    requires InvAt(cat, w, d, d') && AllPowered(cat, w) && HandlingOk(w) && BuildPhase(cat, w, w', x)
             && FactorsOk(x, |w.planets|)
    ensures Built(cat, w, d, d')(w')
  {
    hide InvAt, BuildWorld, AllPowered, HandlingOk;
    var inv := Built(cat, w, d, d');
    forall a, b, p: nat | p < |w.planets| && inv(a) && BuildWorlds(cat, x)(a, b, p) ensures inv(b) {
      BuildWorldKeeps(cat, a, b, p, x, d, d');
    }
    ThroughKeeps(w, w', |w.planets|, BuildWorlds(cat, x), inv);
  }

  method AdvanceOne(s: Session, p: nat, i: nat, health: int, fatigue: int, ghost d: int, ghost d': int)
    requires InvAt(s.cat, s.Now(), d, d') && AllPowered(s.cat, s.Now()) && HandlingOk(s.Now())
    requires i < |s.facilities| && 0 <= health && 0 <= fatigue
    modifies s`facilities, s`transfers, s`nextId, s`scratch, s`ledger, s`recorded
    ensures JobStep(s.cat, old(s.Now()), s.Now(), p, i, health, fatigue)
  {
    hide InvAt, AdvanceStep, AllPowered, FacilityOk;
    if IsJob(s.facilities[i], p) {
      ghost var w := s.Now();
      MaintenanceNeeds(s, d, d');
      JobThere(s.cat, w, i);
      HandledWidth(w);
      AdvanceJob(s, i, health, fatigue);
    }
  }

  lemma JobThere(cat: Catalog, w: World, i: nat)
    requires FacilitiesOk(cat, w.facilities, |w.planets|, w.nextId) && i < |w.facilities|
    ensures w.facilities[i].life.UnderConstruction? <==> w.facilities[i].job.Some?
  {
    hide JobOk;
    assert FacilityOk(cat, w.facilities[i], |w.planets|);
  }

  method AdvanceWorld(s: Session, p: nat, x: DayInputs, ghost d: int, ghost d': int)
    requires InvAt(s.cat, s.Now(), d, d') && AllPowered(s.cat, s.Now()) && HandlingOk(s.Now())
    requires FactorsOk(x, |s.planets|) && p < |s.planets|
    modifies s`facilities, s`transfers, s`nextId, s`scratch, s`ledger, s`recorded
    ensures BuildWorld(s.cat, old(s.Now()), s.Now(), p, x) && Built(s.cat, old(s.Now()), d, d')(s.Now())
  {
    hide InvAt, JobStep, AllPowered, HandlingOk;
    ghost var w := s.Now();
    ghost var step := JobNext(s.cat, p, x.health[p], x.fatigue[p]);
    for i := 0 to |s.facilities|
      invariant Through(w, s.Now(), i, step) && Built(s.cat, w, d, d')(s.Now())
    {
      ghost var m := s.Now();
      AdvanceOne(s, p, i, x.health[p], x.fatigue[p], d, d');
      JobKeeps(s.cat, m, s.Now(), p, i, x.health[p], x.fatigue[p], d, d');
      ThroughNext(w, m, s.Now(), i, step);
    }
  }

  method AdvanceAll(s: Session, x: DayInputs, ghost d: int, ghost d': int)
    requires InvAt(s.cat, s.Now(), d, d') && AllPowered(s.cat, s.Now()) && HandlingOk(s.Now())
             && FactorsOk(x, |s.planets|)
    modifies s`facilities, s`transfers, s`nextId, s`scratch, s`ledger, s`recorded
    ensures BuildPhase(s.cat, old(s.Now()), s.Now(), x)
  {
    hide InvAt, BuildWorld, AllPowered, HandlingOk;
    ghost var w := s.Now();
    ghost var step := BuildWorlds(s.cat, x);
    for p := 0 to |s.planets|
      invariant |s.planets| == |w.planets| && Through(w, s.Now(), p, step)
      invariant InvAt(s.cat, s.Now(), d, d') && AllPowered(s.cat, s.Now()) && HandlingOk(s.Now())
    {
      ghost var m := s.Now();
      AdvanceWorld(s, p, x, d, d');
      ThroughNext(w, m, s.Now(), p, step);
    }
  }

  // ----- one outcome -----

  /** The work, the escrow and the consumption of a job's day are determined to the last entry. */
  lemma WorkedOnce(j: Job, a: Job, b: Job, n: nat)
    requires Worked(j, a, n) && Worked(j, b, n)
    ensures a == b
  {
    hide Used;
    forall r: nat ensures Used(a, r) == Used(b, r) {
      UsedSame(j, a, r);
      UsedSame(j, b, r);
    }
    forall r | r in j.escrow ensures a.escrow[r] == b.escrow[r] {
      assert Qty(a.escrow, r) == Qty(b.escrow, r);
    }
    forall r | r in a.consumed ensures a.consumed[r] == b.consumed[r] {
      assert Qty(a.consumed, r) == Qty(b.consumed, r);
    }
    assert a.escrow == b.escrow && a.consumed == b.consumed;
  }

  lemma AdvanceSame(cat: Catalog, a: World, a': World, b: World, b': World, i: nat, health: int, fatigue: int)
    requires Same(a, b) && AdvanceStep(cat, a, a', i, health, fatigue) && AdvanceStep(cat, b, b', i, health, fatigue)
    ensures Same(a', b')
  {
    hide Posted, LedgerOk, SpentBy, Counted, Worked, Finished, PowerGrant;
    var f := a.facilities[i];
    var j := f.job.value;
    var j1 := Counted(cat, j, health, fatigue, a.scratch[f.planet].pool);
    if j.crew > 0 && !Finished(cat, f, j1) {
      WorkedOnce(j1, a'.facilities[i].job.value, b'.facilities[i].job.value, cat.resources);
    }
  }

  lemma JobsRepeat(cat: Catalog, n: nat, p: nat, health: int, fatigue: int)
    ensures Repeatable(n, JobNext(cat, p, health, fatigue))
  {
    hide AdvanceStep, Same;
    var step := JobNext(cat, p, health, fatigue);
    forall a, a', b, b', i: nat | i < n && Same(a, b) && step(a, a', i) && step(b, b', i) ensures Same(a', b') {
      SameJobs(a, b);
      if IsJob(a.facilities[i], p) {
        AdvanceSame(cat, a, a', b, b', i, health, fatigue);
      }
    }
  }

  lemma SameJobs(a: World, b: World)
    requires Same(a, b)
    ensures a.facilities == b.facilities && a.planets == b.planets
  {
  }

  lemma BuildWorldSame(cat: Catalog, a: World, a': World, b: World, b': World, p: nat, x: DayInputs)
    requires Same(a, b) && BuildWorld(cat, a, a', p, x) && BuildWorld(cat, b, b', p, x)
    ensures Same(a', b')
  {
    hide Same, JobStep;
    SameJobs(a, b);
    JobsRepeat(cat, |a.facilities|, p, x.health[p], x.fatigue[p]);
    ThroughSame(a, a', b, b', |a.facilities|, JobNext(cat, p, x.health[p], x.fatigue[p]));
  }

  lemma BuildSame(cat: Catalog, a: World, a': World, b: World, b': World, x: DayInputs)
    requires Same(a, b) && BuildPhase(cat, a, a', x) && BuildPhase(cat, b, b', x)
    ensures Same(a', b')
  {
    hide Same, BuildWorld;
    SameJobs(a, b);
    var n, step := |a.planets|, BuildWorlds(cat, x);
    forall u, u', v, v', p: nat | p < n && Same(u, v) && step(u, u', p) && step(v, v', p) ensures Same(u', v') {
      BuildWorldSame(cat, u, u', v, v', p, x);
    }
    ThroughSame(a, a', b, b', n, step);
  }

  lemma WorkedCan(cat: Catalog, j: Job, j1: Job) returns (j2: Job)
    requires JobOk(cat, j) && j1 == j.(daysElapsed := j1.daysElapsed, workDone := j1.workDone)
    requires j.workDone <= j1.workDone <= j1.workTotal
    ensures Worked(j1, j2, cat.resources) && forall r | r in j2.escrow :: r in j.cost
  {
    hide FloorOf;
    var n := cat.resources;
    j2 := j1.(escrow := map r | r in j1.escrow ::
        Qty(j1.cost, r) - Used(j1, r), consumed := map r | r in ConsumedKeys(j1, n) :: Used(j1, r));
    ShareIsDue(cat, j, j1);
    forall r: nat ensures Qty(j2.consumed, r) == Used(j2, r) && Qty(j2.escrow, r) == Qty(j1.cost, r) - Used(j2, r) {
      UsedSame(j1, j2, r);
      UsedBounds(j1, r);
      assert Qty(j.escrow, r) + Qty(j.consumed, r) == Qty(j.cost, r) && 0 <= Qty(j.escrow, r)
             && 0 <= Qty(j.consumed, r);
      if r !in j.cost {
        NothingUsed(j1, r);
      }
    }
  }

  lemma NothingUsed(j: Job, r: nat)
    requires r !in j.cost && 0 <= j.workDone <= j.workTotal
    ensures Used(j, r) == 0
  {
    hide FloorOf;
    UsedBounds(j, r);
  }

  lemma AdvanceOnce(cat: Catalog, w: World, i: nat, health: int, fatigue: int, d: int, d': int) returns (w': World)
    requires InvAt(cat, w, d, d') && |w.scratch| == |w.planets| && 0 <= health && 0 <= fatigue
    requires i < |w.facilities| && w.facilities[i].job.Some?
    ensures AdvanceStep(cat, w, w', i, health, fatigue)
  {
    hide InvAt, Posted, LedgerOk, SpentBy, WorkToday, Worked, JobOk, Positive;
    JobPlace(cat, w, i, d, d');
    var f := w.facilities[i];
    var j, day := f.job.value, w.scratch[f.planet];
    var j1 := Counted(cat, j, health, fatigue, day.pool);
    if j.crew <= 0 {
      w' := w.(facilities := w.facilities[i := f.(job := Some(j1))]);
    } else {
      WorkTodayIsNat(cat, j, health, fatigue, day.pool);
      var grant := PowerGrant(cat, j, day.pool);
      var m := SpentBy(j, j1.workDone);
      SpentIsListed(cat, j, j1.workDone);
      var ledger, recorded := PostOnce(w.ledger, w.recorded, |w.planets|, w.nextId, w.day, Escrow(f.id),
          SinkConstruction, m, cat.resources);
      var mid := w.(scratch := w.scratch[f.planet := day.(pool := day.pool - grant, building := day.building + grant)],
          ledger := ledger, recorded := recorded);
      if Finished(cat, f, j1) {
        RangeGrows(ledger, recorded, |w.planets|, w.nextId, w.nextId + 1);
        w' := mid.(facilities := w.facilities[i := f.(job := None, life := Commissioning, activates := w.day + 1,
            staff := 0,
                                                            awaited := Sum(w.transfers, IncomingTo(f.id)))],
                   transfers := w.transfers + CrewHome(f, w.nextId, w.day), nextId := w.nextId + 1);
      } else {
        var j2 := WorkedCan(cat, j, j1);
        w' := mid.(facilities := w.facilities[i := f.(job := Some(j2))]);
      }
    }
  }

  lemma SpentIsListed(cat: Catalog, j: Job, done: int)
    requires JobOk(cat, j)
    ensures forall r | r in SpentBy(j, done) :: r < cat.resources
  {
  }

  lemma JobPlace(cat: Catalog, w: World, i: nat, d: int, d': int)
    requires InvAt(cat, w, d, d') && i < |w.facilities| && w.facilities[i].job.Some?
    ensures LedgerOk(w.ledger, w.recorded, |w.planets|, w.nextId)
    ensures var f := w.facilities[i];
            && f.planet < |w.planets| && f.id < w.nextId && f.kind < |cat.facilities| && JobOk(cat, f.job.value)
            && 0 <= f.job.value.crew && 0 <= f.job.value.workDone <= f.job.value.workTotal
  {
    hide FreighterOk, BalancesOk, ColonyOk, PeopleOk, TransfersOk, WorkersOk, StaffOk, SlotsOk, LedgerOk,
         PlanetsBalance, StockOk, ValidCatalog;
    JobFacts(cat, w.facilities, |w.planets|, w.nextId, i);
  }

  lemma BuildWorldOnce(cat: Catalog, w: World, p: nat, x: DayInputs, d: int, d': int) returns (w': World)
    requires InvAt(cat, w, d, d') && AllPowered(cat, w) && HandlingOk(w) && FactorsOk(x, |w.planets|) && p < |w.planets|
    ensures BuildWorld(cat, w, w', p, x)
  {
    hide InvAt, AdvanceStep, AllPowered, HandlingOk;
    var h, t := x.health[p], x.fatigue[p];
    var inv, step := Built(cat, w, d, d'), JobNext(cat, p, h, t);
    forall a, i: nat | i < |w.facilities| && inv(a) ensures Possible(a, i, step) {
      JobOnce(cat, a, p, i, h, t, d, d');
    }
    forall a, b, i: nat | i < |w.facilities| && inv(a) && step(a, b, i) ensures inv(b) {
      JobKeeps(cat, a, b, p, i, h, t, d, d');
    }
    w' := ThroughAlways(w, |w.facilities|, step, inv);
  }

  lemma JobOnce(cat: Catalog, w: World, p: nat, i: nat, health: int, fatigue: int, d: int, d': int)
    requires InvAt(cat, w, d, d') && HandlingOk(w) && 0 <= health && 0 <= fatigue && i < |w.facilities|
    ensures Possible(w, i, JobNext(cat, p, health, fatigue))
  {
    hide InvAt, AdvanceStep;
    if IsJob(w.facilities[i], p) {
      HandledWidth(w);
      FacilitiesHold(cat, w, d, d');
      JobThere(cat, w, i);
      var b := AdvanceOnce(cat, w, i, health, fatigue, d, d');
      assert JobNext(cat, p, health, fatigue)(w, b, i);
    } else {
      assert JobNext(cat, p, health, fatigue)(w, w, i);
    }
  }

  lemma FacilitiesHold(cat: Catalog, w: World, d: int, d': int)
    requires InvAt(cat, w, d, d')
    ensures FacilitiesOk(cat, w.facilities, |w.planets|, w.nextId)
  {
    hide StoresOk, FreighterOk, BalancesOk, ColonyOk, PeopleOk, TransfersOk, WorkersOk, StaffOk, SlotsOk, FacilitiesOk;
  }

  /** The phase always runs to its end. */
  lemma BuildOnce(cat: Catalog, w: World, x: DayInputs, d: int, d': int) returns (w': World)
    requires InvAt(cat, w, d, d') && AllPowered(cat, w) && HandlingOk(w) && FactorsOk(x, |w.planets|)
    ensures BuildPhase(cat, w, w', x)
  {
    hide InvAt, AllPowered, HandlingOk, BuildWorld;
    var step := BuildWorlds(cat, x);
    var inv := (a: World) => InvAt(cat, a, d, d') && AllPowered(cat, a) && HandlingOk(a) && |a.planets| == |w.planets|;
    forall a, p: nat | p < |w.planets| && inv(a) ensures Possible(a, p, step) {
      var b := BuildWorldOnce(cat, a, p, x, d, d');
      assert step(a, b, p);
    }
    forall a, b, p: nat | p < |w.planets| && inv(a) && step(a, b, p) ensures inv(b) {
      BuildWorldKeeps(cat, a, b, p, x, d, d');
    }
    w' := ThroughAlways(w, |w.planets|, step, inv);
  }
}
