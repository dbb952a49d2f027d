/** Each phase of a day has one outcome: from states that agree on everything but how their ledgers were
    written down, it leads to states that agree. */
module Determined {
  import opened Units
  import opened Stock
  import opened Ledger
  import opened Catalog
  import opened State
  import opened Support
  import opened Chains
  import opened Order
  import opened Freight
  import opened Loading
  import opened Departures
  import opened Outside
  import opened Postings
  import opened Upkeep
  import opened Relief
  import opened Effects
  import opened Expedition
  import opened Mandate
  import opened Voyages
  import opened Maintenance
  import opened Throughput
  import opened Power
  import opened Production
  import opened Needs
  import opened Building
  import opened RoutePhase
  import opened Workforce
  import opened Day

  // ----- due work -----

  lemma ReliefSame(cat: Catalog, a: World, a': World, b: World, b': World, p: nat)
    requires Same(a, b) && ReliefStep(cat, a, a', p) && ReliefStep(cat, b, b', p)
    ensures Same(a', b')
  {
    hide ReceiveStep;
    if Due(a, p) {
      ReceiveSame(cat, a.(planets := Closed(a.planets, p)), a', b.(planets := Closed(b.planets, p)), b', p,
                  Granted(cat.rules.reliefGrant, a.planets[p].stock), External);
    }
  }

  lemma ReliefPhaseSame(cat: Catalog, a: World, a': World, b: World, b': World)
    requires Same(a, b) && ReliefPhase(cat, a, a') && ReliefPhase(cat, b, b')
    ensures Same(a', b')
  {
    hide ReliefStep;
    var step := ReliefNext(cat);
    assert Repeatable(|a.planets|, step) by {
      hide Same;
      forall u, u', v, v', p: nat | p < |a.planets| && Same(u, v) && step(u, u', p) && step(v, v', p)
          ensures Same(u', v') {
        ReliefSame(cat, u, u', v, v', p);
      }
    }
    ThroughSame(a, a', b, b', |a.planets|, step);
  }

  lemma OpenSame(cat: Catalog, a: World, a': World, b: World, b': World)
    requires Same(a, b) && OpenStep(cat, a, a') && OpenStep(cat, b, b')
    ensures Same(a', b')
  {
    hide OpenedAll, ServicedAll;
  }

  lemma TransfersSame(a: World, a': World, b: World, b': World)
    requires Same(a, b) && TransfersStep(a, a') && TransfersStep(b, b')
    ensures Same(a', b')
  {
    hide Landed, Waiting;
  }

  lemma ReceivedSame(cat: Catalog, a: World, a': World, b: World, b': World, es: seq<StockEffect>)
    requires Same(a, b) && Received(cat, a, a', es)
    ensures Received(cat, b, b', es) ==> Same(a', b')
    ensures !DueStops(cat, b, es)
  {
    hide Same, OpenStep, EffectsStep, EffectsStop, TransfersStep, ReliefPhase;
    var o, e, t :| OpenStep(cat, a, o) && EffectsStep(cat, o, e, es) && TransfersStep(e, t) && ReliefPhase(cat, t, a');
    forall o' | OpenStep(cat, b, o') ensures !EffectsStop(cat, o', es) {
      OpenSame(cat, a, o, b, o');
      EffectsSame(cat, o, e, o', e, es);
    }
    if Received(cat, b, b', es) {
      var o', e', t' :| OpenStep(cat, b, o') && EffectsStep(cat, o', e', es) && TransfersStep(e', t')
          && ReliefPhase(cat, t', b');
      OpenSame(cat, a, o, b, o');
      EffectsSame(cat, o, e, o', e', es);
      TransfersSame(e, t, e', t');
      ReliefPhaseSame(cat, t, a', t', b');
    }
  }

  lemma ChargeSame(cat: Catalog, a: World, a': World, b: World, b': World)
    requires Same(a, b) && ChargeStep(cat, a, a') && ChargeStep(cat, b, b')
    ensures Same(a', b')
  {
    hide Posted, LedgerOk, Remaining;
  }

  lemma FoundSame(cat: Catalog, a: World, a': World, b: World, b': World)
    requires Same(a, b) && FoundStep(cat, a, a') && FoundStep(cat, b, b')
    ensures Same(a', b')
  {
    hide Posted, LedgerOk, Credited, Moved, Storable, Spill, Hub;
    CreditedOnce(Moved(a.planets, cat.expedition.target, a.colony), a'.planets, b'.planets, cat.expedition.target,
                 Storable(a.colony.cargo, a.planets[cat.expedition.target].stock));
  }

  lemma TravelSame(cat: Catalog, a: World, a': World, b: World, b': World)
    requires Same(a, b) && TravelStep(cat, a, a') && TravelStep(cat, b, b')
    ensures Same(a', b')
  {
    hide ChargeStep, FoundStep;
    if a.colony.launched && !a.colony.founded && a.day <= a.colony.arrivalDay {
      if a.day < a.colony.arrivalDay {
        ChargeSame(cat, a, a', b, b');
      } else {
        var m :| ChargeStep(cat, a, m) && FoundStep(cat, m, a');
        var n :| ChargeStep(cat, b, n) && FoundStep(cat, n, b');
        ChargeSame(cat, a, m, b, n);
        FoundSame(cat, m, a', n, b');
      }
    }
  }

  lemma ArrivalSame(cat: Catalog, a: World, a': World, b: World, b': World)
    requires Same(a, b) && ArrivalStep(cat, a, a') && ArrivalStep(cat, b, b')
    ensures Same(a', b')
  {
    hide Posted, LedgerOk, MarkAll;
  }

  lemma ArrivalsSame(cat: Catalog, a: World, a': World, b: World, b': World)
    requires Same(a, b) && Arrivals(cat, a, a') && Arrivals(cat, b, b')
    ensures Same(a', b')
  {
    hide Same, TravelStep, ArrivalStep;
    var m :| TravelStep(cat, a, m) && ArrivalStep(cat, m, a');
    var n :| TravelStep(cat, b, n) && ArrivalStep(cat, n, b');
    TravelSame(cat, a, m, b, n);
    ArrivalSame(cat, m, a', n, b');
  }

  lemma SameStores(a: World, b: World)
    requires Same(a, b)
    ensures BookedOk(a.planets) == BookedOk(b.planets) && a.planets == b.planets && a.facilities == b.facilities
            && a.day == b.day
    ensures Same(a.(day := a.day + 1), b.(day := b.day + 1))
  {
    hide BookedOk;
  }

  lemma NotedSame(a: World, b: World)
    requires Same(a, b)
    ensures Same(Noted(a), Noted(b))
  {
    hide BookedOk;
  }

  lemma DueSame(cat: Catalog, a: World, a': World, b: World, b': World, es: seq<StockEffect>)
    requires Same(a, b) && DueStep(cat, a, a', es)
    ensures DueStep(cat, b, b', es) ==> Same(a', b')
    ensures !DueStops(cat, b, es)
  {
    hide Same, Received, Arrivals, BookedOk, EffectsStop, OpenStep, Noted;
    var e :| Received(cat, a, e, es) && Arrivals(cat, Noted(e), a');
    ReceivedSame(cat, a, e, b, e, es);
    if DueStep(cat, b, b', es) {
      var e' :| Received(cat, b, e', es) && Arrivals(cat, Noted(e'), b');
      ReceivedSame(cat, a, e, b, e', es);
      NotedSame(e, e');
      ArrivalsSame(cat, Noted(e), a', Noted(e'), b');
    }
  }

  // ----- maintenance and the snapshot -----

  lemma MaintainSame(cat: Catalog, a: World, a': World, b: World, b': World, i: nat)
    requires Same(a, b) && MaintainStep(cat, a, a', i) && MaintainStep(cat, b, b', i)
    ensures Same(a', b')
  {
    hide SpendStep, Worn;
    var f := a.facilities[i];
    if Upkept(cat, f) != 0 && Pays(cat, a, i) {
      SpendSame(cat, a, a'.(facilities := a.facilities), b, b'.(facilities := b.facilities), f.planet,
          Single(cat.machinery, Upkept(cat, f)), SinkMaintenance);
    }
  }

  lemma MaintainWorldSame(cat: Catalog, a: World, a': World, b: World, b': World, p: nat)
    requires Same(a, b) && MaintainWorld(cat, a, a', p) && MaintainWorld(cat, b, b', p)
    ensures Same(a', b')
  {
    hide Same, MaintainStep, IsProductionOrder;
    SameStores(a, b);
    var order :| IsProductionOrder(a.facilities, p, order) && Through(a, a', |order|, MaintainNext(cat, order));
    var other :| IsProductionOrder(b.facilities, p, other) && Through(b, b', |other|, MaintainNext(cat, other));
    OrderIsUnique(a.facilities, p, order, other);
    var step := MaintainNext(cat, order);
    forall u, u', v, v', k: nat | k < |order| && Same(u, v) && step(u, u', k) && step(v, v', k) ensures Same(u', v') {
      MaintainSame(cat, u, u', v, v', order[k]);
    }
    ThroughSame(a, a', b, b', |order|, step);
  }

  lemma MaintenanceSame(cat: Catalog, a: World, a': World, b: World, b': World)
    requires Same(a, b) && MaintenanceStep(cat, a, a') && MaintenanceStep(cat, b, b')
    ensures Same(a', b')
  {
    hide Same, MaintainWorld;
    SameStores(a, b);
    var n, step := |a.planets|, MaintainWorlds(cat);
    forall u, u', v, v', p: nat | p < n && Same(u, v) && step(u, u', p) && step(v, v', p) ensures Same(u', v') {
      MaintainWorldSame(cat, u, u', v, v', p);
    }
    ThroughSame(a, a', b, b', n, step);
  }

  lemma SnapshotSame(a: World, a': World, b: World, b': World)
    requires Same(a, b) && SnapshotStep(a, a') && SnapshotStep(b, b')
    ensures Same(a', b')
  {
  }

  lemma MorningSame(cat: Catalog, a: World, a': World, b: World, b': World, es: seq<StockEffect>)
    requires Same(a, b) && Morning(cat, a, a', es)
    ensures Morning(cat, b, b', es) ==> Same(a', b')
    ensures !MorningStops(cat, b, es)
  {
    hide Same, DueStep, DueStops, MaintenanceStep, SnapshotStep;
    SameStores(a, b);
    var today, today' := a.(day := a.day + 1), b.(day := b.day + 1);
    var m, n :| DueStep(cat, today, m, es) && MaintenanceStep(cat, m, n) && SnapshotStep(n, a');
    DueSame(cat, today, m, today', m, es);
    if Morning(cat, b, b', es) {
      var m', n' :| DueStep(cat, today', m', es) && MaintenanceStep(cat, m', n') && SnapshotStep(n', b');
      DueSame(cat, today, m, today', m', es);
      MaintenanceSame(cat, m, n, m', n');
      SnapshotSame(n, a', n', b');
    }
  }

  // ----- power, production, commit -----

  lemma DrawSame(cat: Catalog, a: World, a': World, b: World, b': World, p: nat, m: ResourceMap)
    requires Same(a, b) && a'.scratch == b'.scratch
    requires SpendStep(cat, a, a'.(scratch := a.scratch), p, m, SinkRecipe)
             && SpendStep(cat, b, b'.(scratch := b.scratch), p, m, SinkRecipe)
    ensures Same(a', b')
  {
    hide SpendStep;
    SpendSame(cat, a, a'.(scratch := a.scratch), b, b'.(scratch := b.scratch), p, m, SinkRecipe);
  }

  lemma GenerateSame(cat: Catalog, a: World, a': World, b: World, b': World, i: nat, x: DayInputs)
    requires Same(a, b) && GenerateStep(cat, a, a', i, x) && GenerateStep(cat, b, b', i, x)
    ensures Same(a', b')
  {
    hide SpendStep, LargestRun, InputsAt, BurnLimits, FloorOf;
    var f := a.facilities[i];
    var day, r := a.scratch[f.planet], RecipeOf(cat, f);
    if Operable(f, a.day) && r.IsGenerator() && Works(f) {
      DrawSame(cat, a, a', b, b', f.planet, InputsAt(r, LargestRun(BurnLimits(cat, r, day), Desired(x, f))));
    }
  }

  lemma PowerWorldSame(cat: Catalog, a: World, a': World, b: World, b': World, p: nat, x: DayInputs)
    requires Same(a, b) && PowerWorld(cat, a, a', p, x) && PowerWorld(cat, b, b', p, x)
    ensures Same(a', b')
  {
    hide GenerateStep, IsProductionOrder, Shared;
    var order, m :| IsProductionOrder(a.facilities, p, order) && Through(a, m, |order|, GenerateNext(cat, order, x))
                    && p < |m.scratch| && p < |m.planets|
                        && a' == m.(scratch := m.scratch[p := Shared(cat, m.planets[p], m.scratch[p])]);
    var other, n :| IsProductionOrder(b.facilities, p, other) && Through(b, n, |other|, GenerateNext(cat, other, x))
                    && p < |n.scratch| && p < |n.planets|
                        && b' == n.(scratch := n.scratch[p := Shared(cat, n.planets[p], n.scratch[p])]);
    OrderIsUnique(a.facilities, p, order, other);
    var step := GenerateNext(cat, order, x);
    assert Repeatable(|order|, step) by {
      hide Same;
      forall u, u', v, v', k: nat | k < |order| && Same(u, v) && step(u, u', k) && step(v, v', k) ensures Same(u', v') {
        GenerateSame(cat, u, u', v, v', order[k], x);
      }
    }
    ThroughSame(a, m, b, n, |order|, step);
  }

  lemma PowerSame(cat: Catalog, a: World, a': World, b: World, b': World, x: DayInputs)
    requires Same(a, b) && PowerStep(cat, a, a', x) && PowerStep(cat, b, b', x)
    ensures Same(a', b')
  {
    hide Same, PowerWorld;
    SameStores(a, b);
    var n, step := |a.planets|, PowerWorlds(cat, x);
    forall u, u', v, v', p: nat | p < n && Same(u, v) && step(u, u', p) && step(v, v', p) ensures Same(u', v') {
      PowerWorldSame(cat, u, u', v, v', p, x);
    }
    ThroughSame(a, a', b, b', n, step);
  }

  lemma ProduceSame(cat: Catalog, a: World, a': World, b: World, b': World, i: nat, x: DayInputs)
    requires Same(a, b) && ProduceStep(cat, a, a', i, x) && ProduceStep(cat, b, b', i, x)
    ensures Same(a', b')
  {
    hide SpendStep, LargestRun, InputsAt, MakeLimits, Productive, Shifted;
    var f := a.facilities[i];
    var day, stock, r := a.scratch[f.planet], a.planets[f.planet].stock, RecipeOf(cat, f);
    if Produces(cat, f, a.day) {
      var l := MakeLimits(cat, f.planet, r, stock, day);
      DrawSame(cat, a, a', b, b', f.planet, InputsAt(r, Productive(l, LargestRun(l, Desired(x, f)))));
    }
  }

  lemma ProduceWorldSame(cat: Catalog, a: World, a': World, b: World, b': World, p: nat, x: DayInputs)
    requires Same(a, b) && ProduceWorld(cat, a, a', p, x) && ProduceWorld(cat, b, b', p, x)
    ensures Same(a', b')
  {
    hide ProduceStep, IsProductionOrder, Ready;
    var order, m :| IsProductionOrder(a.facilities, p, order) && Through(a, m, |order|, ProduceNext(cat, order, x))
                    && p < |m.scratch| && a' == m.(scratch := m.scratch[p := Ready(m.scratch[p])]);
    var other, n :| IsProductionOrder(b.facilities, p, other) && Through(b, n, |other|, ProduceNext(cat, other, x))
                    && p < |n.scratch| && b' == n.(scratch := n.scratch[p := Ready(n.scratch[p])]);
    OrderIsUnique(a.facilities, p, order, other);
    var step := ProduceNext(cat, order, x);
    assert Repeatable(|order|, step) by {
      hide Same;
      forall u, u', v, v', k: nat | k < |order| && Same(u, v) && step(u, u', k) && step(v, v', k) ensures Same(u', v') {
        ProduceSame(cat, u, u', v, v', order[k], x);
      }
    }
    ThroughSame(a, m, b, n, |order|, step);
  }

  lemma ProductionSame(cat: Catalog, a: World, a': World, b: World, b': World, x: DayInputs)
    requires Same(a, b) && ProductionStep(cat, a, a', x) && ProductionStep(cat, b, b', x)
    ensures Same(a', b')
  {
    hide Same, ProduceWorld;
    SameStores(a, b);
    var n, step := |a.planets|, ProduceWorlds(cat, x);
    forall u, u', v, v', p: nat | p < n && Same(u, v) && step(u, u', p) && step(v, v', p) ensures Same(u', v') {
      ProduceWorldSame(cat, u, u', v, v', p, x);
    }
    ThroughSame(a, a', b, b', n, step);
  }

  lemma CommitWorldSame(cat: Catalog, a: World, a': World, b: World, b': World, p: nat, ratios: seq<int>)
    requires Same(a, b) && CommitWorld(cat, a, a', p, ratios) && CommitWorld(cat, b, b', p, ratios)
    ensures Same(a', b')
  {
    hide SpendStep, ReceiveStep, Staged, Served;
    var m :| CommitStep(cat, a, m, p) && NeedsStep(cat, m, a', p, ratios[p]);
    var n :| CommitStep(cat, b, n, p) && NeedsStep(cat, n, b', p, ratios[p]);
    ReceiveSame(cat, a, m, b, n, p, Staged(a.scratch[p].staged), SourceRecipe);
    SpendSame(cat, m, a', n, b', p, Served(cat, m.planets[p], ratios[p]), SinkCivilian);
  }

  lemma CommitSame(cat: Catalog, a: World, a': World, b: World, b': World, ratios: seq<int>)
    requires Same(a, b) && CommitPhase(cat, a, a', ratios) && CommitPhase(cat, b, b', ratios)
    ensures Same(a', b')
  {
    hide Same, CommitWorld;
    SameStores(a, b);
    var n, step := |a.planets|, CommitWorlds(cat, ratios);
    forall u, u', v, v', p: nat | p < n && Same(u, v) && step(u, u', p) && step(v, v', p) ensures Same(u', v') {
      CommitWorldSame(cat, u, u', v, v', p, ratios);
    }
    ThroughSame(a, a', b, b', n, step);
  }

  lemma WorkdaySame(cat: Catalog, a: World, a': World, b: World, b': World, x: DayInputs)
    requires Same(a, b) && Workday(cat, a, a', x) && Workday(cat, b, b', x)
    ensures Same(a', b')
  {
    hide Same, PowerStep, ProductionStep, CommitPhase, BuildPhase;
    var m, n, o :| PowerStep(cat, a, m, x) && ProductionStep(cat, m, n, x) && CommitPhase(cat, n, o, x.foodRatio)
        && BuildPhase(cat, o, a', x);
    var m', n', o' :| PowerStep(cat, b, m', x) && ProductionStep(cat, m', n', x)
        && CommitPhase(cat, n', o', x.foodRatio) && BuildPhase(cat, o', b', x);
    PowerSame(cat, a, m, b, m', x);
    ProductionSame(cat, m, n, m', n', x);
    CommitSame(cat, n, o, n', o', x.foodRatio);
    BuildSame(cat, o, a', o', b', x);
  }

  // ----- freight -----

  lemma UnloadSame(cat: Catalog, a: World, a': World, b: World, b': World)
    requires Same(a, b) && UnloadStep(cat, a, a') && UnloadStep(cat, b, b')
    ensures Same(a', b')
  {
    hide Posted, LedgerOk, Credited, Greedy, UnloadLimits, Unloaded, HasPort, Docking, Release, WithClaims;
    if Ashore(a.ship) && a.ship.cargo != map[] && PortOpen(cat, a) {
      var p := a.ship.location.value;
      CreditedOnce(WithClaims(a.planets, p, Release(a.planets[p].stock.claims, a.ship.bookings)), a'.planets,
          b'.planets, p, Landing(cat, a).goods);
    }
  }

  lemma DepartMissionSame(cat: Catalog, a: World, a': World, b: World, b': World)
    requires Same(a, b) && DepartMissionStep(cat, a, a') && DepartMissionStep(cat, b, b')
    ensures Same(a', b')
  {
    hide LegPosted, LedgerOk, Debited, Total, Affords, CargoVolume, Embarked, Logged;
    if MissionReady(cat, a) && a.day <= cat.mandate.lastDeparture {
      DebitedOnce(a.planets, a'.planets, b'.planets, cat.freight.origin,
                  Total(cat, a.demand.pending, cat.mandate.missionFuel, cat.mandate.missionMachinery));
    }
  }

  lemma MissionFirstSame(cat: Catalog, a: World, a': World, b: World, b': World)
    requires Same(a, b) && MissionFirst(cat, a, a') && MissionFirst(cat, b, b')
    ensures Same(a', b')
  {
    hide Same, UnloadStep, DepartMissionStep;
    var m :| UnloadStep(cat, a, m) && DepartMissionStep(cat, m, a');
    var n :| UnloadStep(cat, b, n) && DepartMissionStep(cat, n, b');
    UnloadSame(cat, a, m, b, n);
    DepartMissionSame(cat, m, a', n, b');
  }

  lemma ShippedOnce(a: seq<Planet>, b: seq<Planet>, c: seq<Planet>, src: nat, dst: nat, total: ResourceMap,
                    goods: ResourceMap, id: nat, n: nat)
    requires src < |a| && dst < |a| && Shipped(a, b, src, dst, total, goods, id, n)
             && Shipped(a, c, src, dst, total, goods, id, n)
    ensures b == c
  {
    hide Debited, ClaimsFor;
    var claims := a[dst].stock.claims;
    DebitedOnce(a, WithClaims(b, dst, claims), WithClaims(c, dst, claims), src, total);
    assert WithClaims(WithClaims(b, dst, claims), dst, b[dst].stock.claims) == b;
    assert WithClaims(WithClaims(c, dst, claims), dst, c[dst].stock.claims) == c;
  }

  lemma LegSame(cat: Catalog, a: World, a': World, b: World, b': World, src: nat, dst: nat, load: Load, fuelIn: int,
                machinery: int, burn: int, leftover: int)
    requires Same(a, b) && LegStep(cat, a, a', src, dst, load, fuelIn, machinery, burn, leftover)
    requires LegStep(cat, b, b', src, dst, load, fuelIn, machinery, burn, leftover)
    ensures Same(a', b')
  {
    hide LegPosted, LedgerOk, Shipped, Sailing, ClaimsFor, Total;
    ShippedOnce(a.planets, a'.planets, b'.planets, src, dst, Total(cat, load.goods, fuelIn, machinery), load.goods,
        a.nextId, cat.resources);
  }

  lemma OutboundSame(cat: Catalog, a: World, a': World, b: World, b': World, ratio: int)
    requires Same(a, b) && a'.route == b'.route
    requires OutboundStep(cat, a, a'.(route := a.route), ratio) && OutboundStep(cat, b, b'.(route := b.route), ratio)
    ensures Same(a', b')
  {
    hide LegStep, HasPort;
    var f := cat.freight;
    SameOutcome(cat, a, b, false, ratio);
    LegSame(cat, a, a'.(route := a.route), b, b'.(route := b.route), f.origin, f.destination, OutLoad(cat, a, ratio),
        f.roundTripFuel, f.roundTripMachinery,
            f.outboundBurn, a.books.leftover + f.roundTripFuel - f.outboundBurn - f.returnBurn);
  }

  /** What a departure comes to reads nothing of the ledger. */
  lemma SameOutcome(cat: Catalog, a: World, b: World, allowEmpty: bool, ratio: int)
    requires Same(a, b)
    ensures OutcomeOf(cat, a, allowEmpty, ratio) == OutcomeOf(cat, b, allowEmpty, ratio)
    ensures MaySail(cat, a) == MaySail(cat, b) && (MaySail(cat, a) ==> OutLoad(cat, a, ratio) == OutLoad(cat, b, ratio))
    ensures ReturnOutcome(cat, a, ratio) == ReturnOutcome(cat, b, ratio)
    ensures MayReturn(cat, a) == MayReturn(cat, b)
            && (MayReturn(cat, a) ==> BackLoad(cat, a, ratio) == BackLoad(cat, b, ratio))
    ensures RequestedFaults(cat, a, ratio) == RequestedFaults(cat, b, ratio)
            && ScheduledFaults(cat, a, ratio) == ScheduledFaults(cat, b, ratio)
  {
    hide LoadLimits, Greedy, Affords, Total, HasPort;
  }

  lemma RequestedSame(cat: Catalog, a: World, a': World, b: World, b': World, ratio: int)
    requires Same(a, b) && RequestedStep(cat, a, a', ratio)
    ensures RequestedStep(cat, b, b', ratio) ==> Same(a', b')
    ensures !RequestedFaults(cat, b, ratio)
  {
    hide OutboundStep, OutcomeOf;
    SameOutcome(cat, a, b, a.route.allowEmpty, ratio);
    if RequestedStep(cat, b, b', ratio) && a.route.requested && AtOrigin(cat, a.ship, a.day)
       && OutcomeOf(cat, a, a.route.allowEmpty, ratio).Departed? {
      OutboundSame(cat, a, a', b, b', ratio);
    }
  }

  lemma ScheduledSame(cat: Catalog, a: World, a': World, b: World, b': World, ratio: int)
    requires Same(a, b) && ScheduledStep(cat, a, a', ratio)
    ensures ScheduledStep(cat, b, b', ratio) ==> Same(a', b')
    ensures !ScheduledFaults(cat, b, ratio)
  {
    hide OutboundStep, OutcomeOf;
    SameOutcome(cat, a, b, false, ratio);
    if ScheduledStep(cat, b, b', ratio) && a.route.enabled && a.route.nextDeparture <= a.day
       && AtOrigin(cat, a.ship, a.day)
       && OutcomeOf(cat, a, false, ratio).Departed? {
      OutboundSame(cat, a, a', b, b', ratio);
    }
  }

  lemma ReturnSame(cat: Catalog, a: World, a': World, b: World, b': World, ratio: int)
    requires Same(a, b) && ReturnStep(cat, a, a', ratio)
    ensures ReturnStep(cat, b, b', ratio) ==> Same(a', b')
    ensures !ReturnOutcome(cat, b, ratio).Faulted?
  {
    hide LegStep, ReturnOutcome, BackLoad;
    SameOutcome(cat, a, b, false, ratio);
    if MayReturn(cat, a) {
      if ReturnStep(cat, b, b', ratio) {
        var f := cat.freight;
        LegSame(cat, a, a', b, b', f.destination, f.origin, BackLoad(cat, a, ratio), 0, 0, f.returnBurn,
            a.books.leftover);
      }
    } else {
      NoReturn(cat, b, ratio);
    }
  }

  lemma NoReturn(cat: Catalog, w: World, ratio: int)
    requires !MayReturn(cat, w)
    ensures ReturnOutcome(cat, w, ratio).Blocked?
  {
  }

  lemma FreightSame(cat: Catalog, a: World, a': World, b: World, b': World, ratios: seq<int>)
    requires Same(a, b) && FreightStep(cat, a, a', ratios)
    ensures FreightStep(cat, b, b', ratios) ==> Same(a', b')
    ensures !FreightFaults(cat, b, ratios)
  {
    hide Same, MissionFirst, RequestedStep, ScheduledStep, ReturnStep, ReportStep, RequestedFaults, ScheduledFaults,
         ReturnOutcome;
    var src, dst := ratios[cat.freight.origin], ratios[cat.freight.destination];
    var m, n, o, r :| MissionFirst(cat, a, m) && RequestedStep(cat, m, n, src) && ScheduledStep(cat, n, o, src)
        && ReturnStep(cat, o, r, dst) && ReportStep(r, a');
    forall m' | MissionFirst(cat, b, m')
      ensures Same(m, m') && !RequestedFaults(cat, m', src)
    {
      MissionFirstSame(cat, a, m, b, m');
      RequestedSame(cat, m, n, m', n, src);
    }
    forall m', n' | MissionFirst(cat, b, m') && RequestedStep(cat, m', n', src)
      ensures Same(n, n') && !ScheduledFaults(cat, n', src)
    {
      RequestedSame(cat, m, n, m', n', src);
      ScheduledSame(cat, n, o, n', o, src);
    }
    forall m', n', o' | MissionFirst(cat, b, m') && RequestedStep(cat, m', n', src) && ScheduledStep(cat, n', o', src)
      ensures Same(o, o') && !ReturnOutcome(cat, o', dst).Faulted?
    {
      ScheduledSame(cat, n, o, n', o', src);
      ReturnSame(cat, o, r, o', r, dst);
    }
    if FreightStep(cat, b, b', ratios) {
      var m', n', o', r' :| MissionFirst(cat, b, m') && RequestedStep(cat, m', n', src)
          && ScheduledStep(cat, n', o', src) && ReturnStep(cat, o', r', dst) && ReportStep(r', b');
      ReturnSame(cat, o, r, o', r', dst);
      ReportSame(r, a', r', b');
    }
  }

  lemma ReportSame(a: World, a': World, b: World, b': World)
    requires Same(a, b) && ReportStep(a, a') && ReportStep(b, b')
    ensures Same(a', b')
  {
    hide Reported;
  }

  // ----- the evening and the day -----

  lemma ConsequencesSame(cat: Catalog, a: World, a': World, b: World, b': World, emergency: seq<bool>)
    requires Same(a, b) && ConsequencesStep(cat, a, a', emergency) && ConsequencesStep(cat, b, b', emergency)
    ensures Same(a', b')
  {
    hide Issued, Judged, Alarmed;
  }

  lemma ReckonedSame(cat: Catalog, a: World, a': World, b: World, b': World, x: DayInputs)
    requires Same(a, b) && Reckoned(cat, a, a', x)
    ensures Reckoned(cat, b, b', x) ==> Same(a', b')
    ensures !EveningStops(cat, b, x, Raised)
  {
    hide Same, FreightStep, FreightFaults, ConsequencesStep, EffectsStep, EffectsStop;
    var m, n :| FreightStep(cat, a, m, x.foodRatio) && ConsequencesStep(cat, m, n, x.emergency)
        && EffectsStep(cat, n, a', x.evening);
    FreightSame(cat, a, m, b, m, x.foodRatio);
    forall m', n' | FreightStep(cat, b, m', x.foodRatio) && ConsequencesStep(cat, m', n', x.emergency)
      ensures !EffectsStop(cat, n', x.evening) && (EffectsStep(cat, n', b', x.evening) ==> Same(a', b'))
    {
      FreightSame(cat, a, m, b, m', x.foodRatio);
      ConsequencesSame(cat, m, n, m', n', x.emergency);
      EffectsSame(cat, n, a', n', b', x.evening);
    }
  }

  lemma EveningSame(cat: Catalog, a: World, a': World, b: World, b': World, x: DayInputs)
    requires Same(a, b) && Evening(cat, a, a', x)
    ensures Evening(cat, b, b', x) ==> Same(a', b')
    ensures forall end: Ending :: !EveningStops(cat, b, x, end)
  {
    hide Same, Reckoned, BookedOk, StaffedOk, FreightFaults, FreightStep, EffectsStop, Noted;
    var k :| Reckoned(cat, a, k, x) && Passes(cat, k) && a' == Noted(k);
    ReckonedSame(cat, a, k, b, k, x);
    forall e | Reckoned(cat, b, e, x) ensures Passes(cat, e) && Same(a', Noted(e)) {
      ReckonedSame(cat, a, k, b, e, x);
      SameStores(k, e);
      NotedSame(k, e);
    }
  }

  /** A day that can resolve resolves in one way only, up to how its ledger entries are written down, and
      does not stop. */
  lemma DayIsDetermined(cat: Catalog, a: World, a': World, b: World, b': World, x: DayInputs)
    requires Same(a, b) && DayStep(cat, a, a', x)
    ensures DayStep(cat, b, b', x) ==> Same(a', b')
    ensures forall end: Ending :: !DayStops(cat, b, x, end)
  {
    hide Same, Morning, Workday, Evening, MorningStops, EveningStops, Overworked;
    var m, n :| Morning(cat, a, m, x.due) && Workday(cat, m, n, x) && Evening(cat, n, a', x);
    MorningSame(cat, a, m, b, m, x.due);
    forall m' | Morning(cat, b, m', x.due) ensures !Overworked(cat, m') {
      MorningSame(cat, a, m, b, m', x.due);
      SameWork(cat, m, m');
      WorkIsStaffed(cat, m, n, x);
    }
    forall m', n' | Morning(cat, b, m', x.due) && Workday(cat, m', n', x)
      ensures (Evening(cat, n', b', x) ==> Same(a', b')) && forall end: Ending :: !EveningStops(cat, n', x, end)
    {
      MorningSame(cat, a, m, b, m', x.due);
      WorkdaySame(cat, m, n, m', n', x);
      EveningSame(cat, n, a', n', b', x);
    }
  }

  lemma WorkIsStaffed(cat: Catalog, w: World, w': World, x: DayInputs)
    requires Workday(cat, w, w', x)
    ensures !Overworked(cat, w)
  {
    hide PowerStep, ProductionStep, CommitPhase, BuildPhase, Overworked;
  }

  lemma SameWork(cat: Catalog, a: World, b: World)
    requires Same(a, b)
    ensures Overworked(cat, a) == Overworked(cat, b)
  {
  }

  lemma SameAsItself(w: World)
    ensures Same(w, w)
  {
  }

  lemma OneEveningEnding(cat: Catalog, w: World, v: World, x: DayInputs, a: Ending, b: Ending)
    requires Same(w, v) && EveningStops(cat, w, x, a) && EveningStops(cat, v, x, b)
    ensures a == b
  {
    hide Same, Reckoned, BookedOk, StaffedOk, FreightFaults, FreightStep, EffectsStop, ConsequencesStep;
    SameAsItself(v);
    Turned(w, v);
    forall e, e' | Reckoned(cat, w, e, x) && Reckoned(cat, v, e', x)
      ensures BookedOk(e.planets) == BookedOk(e'.planets) && e.facilities == e'.facilities
    {
      ReckonedSame(cat, w, e, v, e', x);
      SameStores(e, e');
    }
    forall e | Reckoned(cat, w, e, x) ensures !EveningStops(cat, v, x, Raised) {
      ReckonedSame(cat, w, e, v, e, x);
    }
    forall e | Reckoned(cat, v, e, x) ensures !EveningStops(cat, w, x, Raised) {
      ReckonedSame(cat, v, e, w, e, x);
    }
  }

  lemma Turned(a: World, b: World)
    requires Same(a, b)
    ensures Same(b, a)
  {
  }

  /** A day that stops stops in one way. */
  lemma OneEnding(cat: Catalog, w: World, x: DayInputs, a: Ending, b: Ending)
    requires DayStops(cat, w, x, a) && DayStops(cat, w, x, b)
    ensures a == b
  {
    hide Same, Morning, Workday, Evening, MorningStops, EveningStops, Overworked;
    SameAsItself(w);
    forall m, m' | Morning(cat, w, m, x.due) && Morning(cat, w, m', x.due) ensures Same(m, m') {
      MorningSame(cat, w, m, w, m', x.due);
    }
    forall m | Morning(cat, w, m, x.due) ensures !MorningStops(cat, w, x.due) {
      MorningSame(cat, w, m, w, m, x.due);
    }
    forall m, m', n | Morning(cat, w, m, x.due) && Morning(cat, w, m', x.due) && Workday(cat, m, n, x)
        ensures !Overworked(cat, m') {
      SameWork(cat, m, m');
      WorkIsStaffed(cat, m, n, x);
    }
    if !MorningStops(cat, w, x.due) && !(exists m :: Morning(cat, w, m, x.due) && Overworked(cat, m)) {
      var m, n :| Morning(cat, w, m, x.due) && Workday(cat, m, n, x) && EveningStops(cat, n, x, a);
      var m', n' :| Morning(cat, w, m', x.due) && Workday(cat, m', n', x) && EveningStops(cat, n', x, b);
      WorkdaySame(cat, m, n, m', n', x);
      OneEveningEnding(cat, n, n', x, a, b);
    }
  }
}
