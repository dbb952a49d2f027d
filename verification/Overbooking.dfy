/** Why a store can end a day with promised space taken: only a grant takes it, and which one can be named. */
module Overbooking {
  import opened Catalog
  import opened State
  import opened Chains
  import opened Workforce
  import opened Outside
  import opened Upkeep
  import opened Relief
  import opened Effects
  import opened Maintenance
  import opened Power
  import opened RoutePhase
  import opened Day
  import opened Resolver
  import opened History

  /** With every promise kept until then, the k-th effect is a grant that takes promised space. */
  ghost predicate EffectTakes(cat: Catalog, w: World, es: seq<StockEffect>, k: nat, m: World) {
    k < |es| && Through(w, m, k, EffectNext(cat, es)) && BookedOk(m.planets) && es[k].Grant? && !EffectFits(m, es[k])
  }

  /** With every promise kept until then, the relief of the p-th world takes promised space. */
  ghost predicate ReliefTakes(cat: Catalog, w: World, p: nat, m: World) {
    p < |w.planets| && Through(w, m, p, ReliefNext(cat)) && BookedOk(m.planets) && Due(m, p) && !ReliefFits(cat, m, p)
  }

  ghost function Booked(): World -> bool {
    (a: World) => BookedOk(a.planets)
  }

  lemma SomeEffectTakes(cat: Catalog, w: World, w': World, es: seq<StockEffect>, d: int, d': int)
                        returns (k: nat, m: World)
    requires LooseAt(cat, w, d, d') && EffectsStep(cat, w, w', es) && EffectsOk(cat, es, |w.planets|)
    requires BookedOk(w.planets) && !BookedOk(w'.planets)
    ensures EffectTakes(cat, w, es, k, m)
  {
    hide LooseAt, EffectStep, EffectFits, BookedOk, EffectsOk, NoneFuller;
    var inv := LooseDay(cat, w, d, d');
    SameFill(w);
    forall a, b, i: nat | i < |es| && inv(a) && EffectNext(cat, es)(a, b, i) ensures inv(b) {
      EffectKeepsDay(cat, w, a, b, es, i, d, d');
    }
    var m';
    k, m, m' := Spoiled(w, w', |es|, EffectNext(cat, es), inv, Booked());
    OneIsOk(cat, es, k, |w.planets|);
    EffectKeepsInv(cat, m, m', es[k], d, d');
    OnlyGrantsMisfit(m, es[k]);
  }

  lemma SameFill(w: World)
    ensures NoneFuller(w.facilities, w.facilities)
  {
  }

  lemma OneIsOk(cat: Catalog, es: seq<StockEffect>, k: nat, planets: nat)
    requires EffectsOk(cat, es, planets) && k < |es|
    ensures EffectOk(cat, es[k], planets)
  {
  }

  lemma OnlyGrantsMisfit(w: World, e: StockEffect)
    requires !EffectFits(w, e)
    ensures e.Grant?
  {
  }

  lemma SomeReliefTakes(cat: Catalog, w: World, w': World, d: int, d': int) returns (p: nat, m: World)
    requires LooseAt(cat, w, d, d') && ReliefPhase(cat, w, w') && BookedOk(w.planets) && !BookedOk(w'.planets)
    ensures ReliefTakes(cat, w, p, m)
  {
    hide LooseAt, ReliefStep, BookedOk, NoneFuller;
    var inv := LooseDay(cat, w, d, d');
    SameFill(w);
    forall a, b, i: nat | i < |w.planets| && inv(a) && ReliefNext(cat)(a, b, i) ensures inv(b) {
      ReliefKeepsInv(cat, a, b, i, d, d');
      ReliefWidth(cat, a, b, i);
    }
    var m';
    p, m, m' := Spoiled(w, w', |w.planets|, ReliefNext(cat), inv, Booked());
    ReliefKeepsInv(cat, m, m', p, d, d');
  }

  // ----- the morning -----

  /** An authored grant of the morning, or a relief delivery after it, takes promised space. */
  ghost predicate MorningTakes(cat: Catalog, w: World, es: seq<StockEffect>) {
    || (exists o, k: nat, m :: OpenStep(cat, w, o) && EffectTakes(cat, o, es, k, m))
    || (exists o, b, c, p: nat,
        m :: OpenStep(cat, w, o) && EffectsStep(cat, o, b, es) && TransfersStep(b, c) && ReliefTakes(cat, c, p, m))
  }

  lemma ReceivedTakes(cat: Catalog, w: World, w': World, es: seq<StockEffect>, d: int, d': int)
    requires InvAt(cat, w, d, d') && !w.books.overgranted && Received(cat, w, w', es) && EffectsOk(cat, es, |w.planets|)
    requires !BookedOk(w'.planets)
    ensures MorningTakes(cat, w, es)
  {
    hide InvAt, LooseAt, OpenStep, EffectsStep, TransfersStep, ReliefPhase, EffectsOk, BookedOk, EffectTakes,
         ReliefTakes;
    var o, b, c :| OpenStep(cat, w, o) && EffectsStep(cat, o, b, es) && TransfersStep(b, c) && ReliefPhase(cat, c, w');
    OpenKeepsInv(cat, w, o, d, d');
    OpenWidth(cat, w, o);
    OpenedBooks(cat, w, o);
    InvIsLooseAndBooked(cat, o, d, d');
    EffectsKeepInv(cat, o, b, es, d, d');
    TransfersKeepInv(cat, b, c, d, d');
    if BookedOk(b.planets) {
      var p, m := SomeReliefTakes(cat, c, w', d, d');
    } else {
      var k, m := SomeEffectTakes(cat, o, b, es, d, d');
    }
  }

  lemma OpenedBooks(cat: Catalog, w: World, w': World)
    requires OpenStep(cat, w, w')
    ensures w'.books == w.books
  {
  }

  /** A morning that takes nothing promised leaves the books clear. */
  lemma MorningNoted(cat: Catalog, w: World, w': World, es: seq<StockEffect>)
    requires Inv(cat, w) && 0 <= w.day && Morning(cat, w, w', es) && EffectsOk(cat, es, |w.planets|)
    ensures w'.books.overgranted ==> MorningTakes(cat, w.(day := w.day + 1), es)
  {
    hide InvAt, LooseAt, Received, Arrivals, MaintenanceStep, EffectsOk, Onward, BookedOk, MorningTakes;
    var today := w.(day := w.day + 1);
    var a, b :| DueStep(cat, today, a, es) && MaintenanceStep(cat, a, b) && SnapshotStep(b, w');
    var r :| Received(cat, today, r, es) && Arrivals(cat, Noted(r), a);
    PlanIsFree(cat, w, today, w.day, w.day);
    ReceivedKeepsLoose(cat, today, r, es, w.day, w.day);
    NotedKeeps(cat, r, w.day, w.day);
    ArrivalsContinue(cat, Noted(r), a);
    MaintenanceContinues(cat, a, b);
    if w'.books.overgranted {
      ReceivedTakes(cat, today, r, es, w.day, w.day);
    }
  }

  // ----- the evening -----

  /** After a day's work, freight and mandate that left every promise kept, an authored grant of the evening
      takes promised space. */
  ghost predicate EveningTakes(cat: Catalog, w: World, x: DayInputs) {
    exists f, b, k: nat, m ::
      FreightStep(cat, w, f, x.foodRatio) && ConsequencesStep(cat, f, b, x.emergency) && BookedOk(b.planets)
          && EffectTakes(cat, b, x.evening, k, m)
  }

  lemma ReckonedTakes(cat: Catalog, w: World, w': World, x: DayInputs)
    requires InvAt(cat, w, w.day, w.day) && HandlingOk(w) && !w.books.overgranted
             && EffectsOk(cat, x.evening, |w.planets|)
    requires Reckoned(cat, w, w', x) && !BookedOk(w'.planets)
    ensures EveningTakes(cat, w, x)
  {
    hide InvAt, LooseAt, FreightStep, ConsequencesStep, EffectsStep, Onward, BookedOk, HandlingOk, EffectsOk,
         EffectTakes;
    var f, b :| FreightStep(cat, w, f, x.foodRatio) && ConsequencesStep(cat, f, b, x.emergency)
        && EffectsStep(cat, b, w', x.evening);
    FreightKeepsInv(cat, w, f, x.foodRatio, w.day);
    FreightWidth(cat, w, f, x.foodRatio);
    FreightContinues(cat, w, f, x.foodRatio);
    ConsequencesKeepInv(cat, f, b, x.emergency, w.day, w.day);
    ConsequencesContinue(cat, f, b, x.emergency);
    InvIsLooseAndBooked(cat, b, w.day, w.day);
    var k, m := SomeEffectTakes(cat, b, w', x.evening, w.day, w.day);
  }

  /** A day ends overbooked only where one of its own grants took promised space: of the morning, or of the
      evening it came to. */
  lemma OnlyGrantsOverbook(cat: Catalog, w: World, x: DayInputs)
    requires Inv(cat, w) && 0 <= w.day && ValidInputs(cat, x, |w.planets|) && DayStops(cat, w, x, Overbooked)
    ensures || MorningTakes(cat, w.(day := w.day + 1), x.due)
            || exists a, v :: Morning(cat, w, a, x.due) && Workday(cat, a, v, x) && EveningTakes(cat, v, x)
  {
    hide InvAt, Morning, Workday, Reckoned, BenchesOk, PowerUpto, HandlingOk, EffectsOk, BookedOk, MorningTakes,
         EveningTakes, FreightStep, FreightFaults, EffectsStop, Onward;
    InputsUsed(cat, x, |w.planets|);
    var a, v :| Morning(cat, w, a, x.due) && Workday(cat, a, v, x) && EveningStops(cat, v, x, Overbooked);
    var e :| Reckoned(cat, v, e, x) && !BookedOk(e.planets);
    MorningKeepsInv(cat, w, a, x.due);
    MorningNoted(cat, w, a, x.due);
    WorkdayContinues(cat, a, v, x);
    WorkdayKeepsInv(cat, a, v, x);
    if !a.books.overgranted {
      ReckonedTakes(cat, v, e, x);
    }
  }
}
