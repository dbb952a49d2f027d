/** What a construction crew's day comes to: its effort, the power it got, and what that took from escrow. */
module Labour {
  import opened Units
  import opened Sums
  import opened Stock
  import opened Catalog
  import opened State
  import opened Construction

  /** A crew's effort: a thousand a head, rounded down by health and then by fatigue. */
  ghost predicate IsEffort(j: Job, health: int, fatigue: int, effort: int) {
    exists rested :: IsFloor(rested, j.crew * 1000 * health, 10000) && IsFloor(effort, rested * fatigue, 10000)
  }

  /** What the power granted makes of an effort: all of it where the whole request was granted, and otherwise the
      share of the request in basis points, rounded down twice. */
  ghost predicate IsPowered(effort: int, grant: int, request: int, work: int) {
    if request <= 0 || grant == request then work == effort
    else exists ratio :: IsFloor(ratio, 10000 * grant, request) && IsFloor(work, effort * ratio, 10000)
  }

  /** The work a day adds: the effort as far as it was powered, and never more than is left to do. */
  ghost predicate Adds(j: Job, health: int, fatigue: int, request: int, grant: int, added: int) {
    exists effort, work ::
      && IsEffort(j, health, fatigue, effort)
      && IsPowered(effort, grant, request, work)
      && added == if work < j.workTotal - j.workDone then work else j.workTotal - j.workDone
  }

  /** Consumption stands at the share of the cost that matches the work done, and the rest is in escrow. */
  ghost predicate Matched(j: Job) {
    forall r: nat ::
      && Qty(j.escrow, r) + Qty(j.consumed, r) == Qty(j.cost, r)
      && if j.workTotal > 0 then IsFloor(Qty(j.consumed, r), Qty(j.cost, r) * j.workDone, j.workTotal)
         else Qty(j.consumed, r) == Qty(j.cost, r)
  }

  lemma AddsWorkToday(cat: Catalog, j: Job, health: int, fatigue: int, pool: int)
    requires 0 <= j.crew && 0 <= health && 0 <= fatigue && 0 <= j.workDone <= j.workTotal && 0 <= pool
    ensures Adds(j, health, fatigue, j.crew * cat.rules.powerPerWorker, PowerGrant(cat, j, pool),
                 WorkToday(cat, j, health, fatigue, pool))
  {
    hide FloorOf, IsFloor;
    var rested := FloorOf(j.crew * MILLI_ONE, health, BP_ONE);
    FloorOfIsFloor(j.crew * MILLI_ONE, health, BP_ONE);
    var effort := FloorOf(rested, fatigue, BP_ONE);
    FloorOfIsFloor(rested, fatigue, BP_ONE);
    assert IsEffort(j, health, fatigue, effort);
    var request := j.crew * cat.rules.powerPerWorker;
    var grant := PowerGrant(cat, j, pool);
    FulfilmentFull(grant, request);
    var ratio := FulfilmentBp(grant, request);
    FloorOfIsFloor(effort, ratio, BP_ONE);
    WholeEffort(effort);
    var work := FloorOf(effort, ratio, BP_ONE);
    if request > 0 && grant != request {
      RatioIsFloor(grant, request);
    }
    assert IsPowered(effort, grant, request, work);
  }

  lemma WholeEffort(effort: int)
    ensures FloorOf(effort, BP_ONE, BP_ONE) == effort
  {
    FloorOfIsFloor(effort, BP_ONE, BP_ONE);
  }

  lemma RatioIsFloor(grant: int, request: int)
    requires 0 <= grant < request
    ensures IsFloor(FulfilmentBp(grant, request), 10000 * grant, request)
  {
    hide FloorOf;
    FloorOfIsFloor(grant, BP_ONE, request);
    FloorAtLeast(grant, BP_ONE, request, 0);
    FloorAtLeast(grant, BP_ONE, request, BP_ONE);
  }

  /** With power asked for and none granted there is no work. */
  lemma NothingAdded(j: Job, health: int, fatigue: int, request: int, added: int)
    requires Adds(j, health, fatigue, request, 0, added) && 0 < request && j.workDone <= j.workTotal
    ensures added == 0
  {
    hide IsFloor;
    var effort, work :| IsEffort(j, health, fatigue, effort) && IsPowered(effort, 0, request, work)
                        && added == if work < j.workTotal - j.workDone then work else j.workTotal - j.workDone;
    var ratio :| IsFloor(ratio, 10000 * 0, request) && IsFloor(work, effort * ratio, 10000);
    NoneOf(request);
    FloorIsUnique(ratio, 0, 0, request);
    NoneOf(10000);
    FloorIsUnique(work, 0, effort * 0, 10000);
  }

  lemma NoneOf(d: int)
    requires 0 < d
    ensures IsFloor(0, 0, d)
  {
  }

  lemma MatchedAfter(cat: Catalog, j: Job, j1: Job, j': Job)
    requires Worked(j1, j', cat.resources) && j1.cost == j.cost && 0 <= j1.workDone
    ensures Matched(j')
  {
    hide FloorOf, IsFloor;
    forall r: nat
      ensures j'.workTotal > 0 ==> IsFloor(Qty(j'.consumed, r), Qty(j'.cost, r) * j'.workDone, j'.workTotal)
    {
      if j'.workTotal > 0 {
        FloorOfIsFloor(Qty(j'.cost, r), j'.workDone, j'.workTotal);
      }
    }
  }

  /** The state once a facility's job is done: it opens tomorrow, and its crew is on the way home. */
  ghost predicate Completed(w: World, w': World, i: nat)
    requires i < |w.facilities| && w.facilities[i].job.Some?
  {
    var f := w.facilities[i];
    && |w'.facilities| == |w.facilities| && w'.facilities == w.facilities[i := w'.facilities[i]]
    && w'.facilities[i] == f.(job := None, life := Commissioning, activates := w.day + 1, staff := 0,
                              awaited := w'.facilities[i].awaited)
    && w'.nextId == w.nextId + 1
    && w'.transfers == w.transfers + [Transfer(w.nextId, f.planet, f.id, 0, f.job.value.crew, w.day + 1)]
  }

  /** The facility is as it was but for its job, which has one day more and the added work. */
  ghost predicate Continued(w: World, w': World, i: nat, added: int)
    requires i < |w.facilities| && w.facilities[i].job.Some?
  {
    var f := w.facilities[i];
    && |w'.facilities| == |w.facilities| && w'.facilities == w.facilities[i := w'.facilities[i]]
    && w'.facilities[i].job.Some? && w'.facilities[i] == f.(job := w'.facilities[i].job)
    && var j, j' := f.job.value, w'.facilities[i].job.value;
    && j' == j.(workDone := j.workDone + added, daysElapsed := j.daysElapsed + 1, escrow := j'.escrow,
                consumed := j'.consumed)
    && w'.transfers == w.transfers && w'.nextId == w.nextId
  }

  /** A job is completed once both its work and its days are done, and otherwise goes on, paid for to date. */
  ghost predicate DayEnds(cat: Catalog, w: World, w': World, i: nat, added: int)
    requires i < |w.facilities| && w.facilities[i].job.Some? && w.facilities[i].kind < |cat.facilities|
  {
    var f := w.facilities[i];
    var j := f.job.value;
    if j.workDone + added >= j.workTotal && j.daysElapsed + 1 >= cat.facilities[f.kind].minBuildDays
       && j.daysElapsed + 1 >= cat.rules.minBuildDays then
      Completed(w, w', i)
    else
      Continued(w, w', i, added) && Matched(w'.facilities[i].job.value)
  }

  lemma DayEndsSo(cat: Catalog, w: World, w': World, i: nat, health: int, fatigue: int)
    requires AdvanceStep(cat, w, w', i, health, fatigue) && w.facilities[i].job.value.crew > 0
    requires var j := w.facilities[i].job.value;
             0 <= j.workDone + WorkToday(cat, j, health, fatigue, w.scratch[w.facilities[i].planet].pool)
    ensures var j := w.facilities[i].job.value;
            DayEnds(cat, w, w', i, WorkToday(cat, j, health, fatigue, w.scratch[w.facilities[i].planet].pool))
  {
    hide Sum, WorkToday, PowerGrant, Posted, LedgerOk, Worked, SpentBy, Matched;
    var f := w.facilities[i];
    var j := f.job.value;
    var j1 := Counted(cat, j, health, fatigue, w.scratch[f.planet].pool);
    if Finished(cat, f, j1) {
      assert CrewHome(f, w.nextId, w.day) == [Transfer(w.nextId, f.planet, f.id, 0, j.crew, w.day + 1)];
    } else {
      WorkedIs(j1, w'.facilities[i].job.value, cat.resources);
      MatchedAfter(cat, j, j1, w'.facilities[i].job.value);
    }
  }

  /** A crew's day: power is granted as far as the pool goes, the work it adds follows the power granted,
      consumption is brought up to the work, and a job is completed once both its work and its days are done. */
  lemma WorkFollowsPower(cat: Catalog, w: World, w': World, i: nat, health: int, fatigue: int, d: int, d': int)
    requires InvAt(cat, w, d, d') && AdvanceStep(cat, w, w', i, health, fatigue) && 0 <= health && 0 <= fatigue
    requires 0 <= w.scratch[w.facilities[i].planet].pool && w.facilities[i].job.value.crew > 0
    ensures var f := w.facilities[i];
            var j, p := f.job.value, f.planet;
            var day, request := w.scratch[p], j.crew * cat.rules.powerPerWorker;
            && p < |w'.scratch|
            && var grant := w'.scratch[p].building - day.building;
            && grant == (if day.pool < request then day.pool else request)
            && w'.scratch == w.scratch[p := day.(pool := day.pool - grant, building := day.building + grant)]
            && w'.planets == w.planets && w'.day == w.day
            && exists added: int ::
                && Adds(j, health, fatigue, request, grant, added)
                && (request > 0 && grant == 0 ==> added == 0)
                && DayEnds(cat, w, w', i, added)
  {
    hide Sum, WorkToday, Adds, InvAt, Posted, LedgerOk, Worked, SpentBy, DayEnds;
    var f := w.facilities[i];
    var j, day := f.job.value, w.scratch[f.planet];
    JobsAreSound(cat, w, i, d, d');
    WorkTodayIsNat(cat, j, health, fatigue, day.pool);
    AddsWorkToday(cat, j, health, fatigue, day.pool);
    var added := WorkToday(cat, j, health, fatigue, day.pool);
    var request := j.crew * cat.rules.powerPerWorker;
    if request > 0 && PowerGrant(cat, j, day.pool) == 0 {
      NothingAdded(j, health, fatigue, request, added);
    }
    DayEndsSo(cat, w, w', i, health, fatigue);
    assert w'.scratch[f.planet].building - day.building == PowerGrant(cat, j, day.pool);
  }

  lemma WorkedIs(j: Job, j': Job, n: nat)
    requires Worked(j, j', n)
    ensures j' == j.(escrow := j'.escrow, consumed := j'.consumed)
  {
  }

  lemma JobsAreSound(cat: Catalog, w: World, i: nat, d: int, d': int)
    requires InvAt(cat, w, d, d') && i < |w.facilities| && w.facilities[i].job.Some?
    ensures JobOk(cat, w.facilities[i].job.value)
    ensures var j := w.facilities[i].job.value; 0 <= j.crew && 0 <= j.workDone <= j.workTotal
  {
    hide Sum, LedgerOk, PlanetsBalance, StockOk, JobOk, FreighterOk, BalancesOk, ColonyOk, PeopleOk, ValidCatalog;
    JobFacts(cat, w.facilities, |w.planets|, w.nextId, i);
  }

  /** A crew that asks for power and gets none leaves its job as it was, a day older. */
  lemma NoPowerNoWork(cat: Catalog, w: World, w': World, i: nat, health: int, fatigue: int, d: int, d': int)
    requires InvAt(cat, w, d, d') && AdvanceStep(cat, w, w', i, health, fatigue) && 0 <= health && 0 <= fatigue
    requires 0 <= w.scratch[w.facilities[i].planet].pool && w.facilities[i].job.value.crew > 0
    requires cat.rules.powerPerWorker > 0 && w.facilities[i].planet < |w'.scratch|
             && w'.scratch[w.facilities[i].planet].building == w.scratch[w.facilities[i].planet].building
    requires w.facilities[i].job.value.workDone < w.facilities[i].job.value.workTotal
    ensures |w'.facilities| == |w.facilities| && w'.facilities[i].job.Some?
    ensures var j, j' := w.facilities[i].job.value, w'.facilities[i].job.value;
            && j'.workDone == j.workDone
            && forall r: nat :: Qty(j'.escrow, r) == Qty(j.escrow, r) && Qty(j'.consumed, r) == Qty(j.consumed, r)
  {
    hide InvAt, AdvanceStep, JobOk, Adds, Matched, DayEnds;
    AdvanceShape(cat, w, w', i, health, fatigue);
    WorkFollowsPower(cat, w, w', i, health, fatigue, d, d');
    JobsAreSound(cat, w, i, d, d');
    assert w.facilities[i].job.value.crew * cat.rules.powerPerWorker > 0;
    UnpoweredKeeps(cat, w, w', i);
  }

  lemma AdvanceShape(cat: Catalog, w: World, w': World, i: nat, health: int, fatigue: int)
    requires AdvanceStep(cat, w, w', i, health, fatigue)
    ensures i < |w.facilities| && w.facilities[i].job.Some? && w.facilities[i].kind < |cat.facilities|
            && w.facilities[i].planet < |w.scratch|
  {
  }

  lemma UnpoweredKeeps(cat: Catalog, w: World, w': World, i: nat)
    requires i < |w.facilities| && w.facilities[i].job.Some? && w.facilities[i].kind < |cat.facilities|
    requires JobOk(cat, w.facilities[i].job.value) && DayEnds(cat, w, w', i, 0)
    requires 0 <= w.facilities[i].job.value.workDone < w.facilities[i].job.value.workTotal
    ensures |w'.facilities| == |w.facilities| && w'.facilities[i].job.Some?
    ensures var j, j' := w.facilities[i].job.value, w'.facilities[i].job.value;
            && j'.workDone == j.workDone
            && forall r: nat :: Qty(j'.escrow, r) == Qty(j.escrow, r) && Qty(j'.consumed, r) == Qty(j.consumed, r)
  {
    hide JobOk, Matched;
    JobMatched(cat, w.facilities[i].job.value);
    SameShare(w.facilities[i].job.value, w'.facilities[i].job.value);
  }

  lemma JobMatched(cat: Catalog, j: Job)
    requires JobOk(cat, j) && j.workTotal > 0
    ensures Matched(j)
  {
    hide FloorOf, IsFloor;
    forall r: nat ensures IsFloor(Qty(j.consumed, r), Qty(j.cost, r) * j.workDone, j.workTotal) {
      FloorOfIsFloor(Qty(j.cost, r), j.workDone, j.workTotal);
    }
  }

  /** Work decides what is consumed and what is left in escrow. */
  lemma SameShare(j: Job, j': Job)
    requires Matched(j) && Matched(j') && j'.cost == j.cost && j'.workDone == j.workDone && j'.workTotal == j.workTotal
    ensures forall r: nat :: Qty(j'.escrow, r) == Qty(j.escrow, r) && Qty(j'.consumed, r) == Qty(j.consumed, r)
  {
    hide IsFloor;
    forall r: nat ensures Qty(j'.consumed, r) == Qty(j.consumed, r) && Qty(j'.escrow, r) == Qty(j.escrow, r) {
      assert Qty(j.escrow, r) + Qty(j.consumed, r) == Qty(j.cost, r);
      assert Qty(j'.escrow, r) + Qty(j'.consumed, r) == Qty(j'.cost, r);
      if j.workTotal > 0 {
        FloorIsUnique(Qty(j.consumed, r), Qty(j'.consumed, r), Qty(j.cost, r) * j.workDone, j.workTotal);
      }
    }
  }
}
