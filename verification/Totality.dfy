/** Each phase of a day has an outcome, unless it stops where it is said to. */
module Totality {
  import opened Units
  import opened Stock
  import opened Ledger
  import opened Catalog
  import opened State
  import opened Support
  import opened Chains
  import opened Order
  import opened Workforce
  import opened Loading
  import opened Freight
  import opened Departures
  import opened Outside
  import opened Postings
  import opened Upkeep
  import opened Relief
  import opened Effects
  import opened Expedition
  import opened Mandate
  import opened Voyages
  import opened Maintenance
  import opened Throughput
  import opened Power
  import opened Production
  import opened Needs
  import opened Building
  import opened RoutePhase
  import opened Day
  import opened Determined

  lemma InvStores(cat: Catalog, w: World, d: int, d': int)
    requires InvAt(cat, w, d, d')
    ensures LedgerOk(w.ledger, w.recorded, |w.planets|, w.nextId) && ValidCatalog(cat) && |w.planets| == |cat.planets|
    ensures forall p | 0 <= p < |w.planets| :: |w.planets[p].stock.onHand| == cat.resources
  {
    hide LooseAt, LedgerOk, BookedOk, ValidFacility, ValidFreight, ValidExpedition, ValidMandate, ValidRules,
         WorkforceOk, FreighterOk, BalancesOk, ColonyOk, PeopleOk, StockOk, PlanetsBalance;
    InvIsLooseAndBooked(cat, w, d, d');
    LooseStores(cat, w, d, d');
  }

  // ----- due work -----

  lemma ReliefOnce(cat: Catalog, w: World, p: nat, d: int, d': int)
    requires LooseAt(cat, w, d, d') && p < |w.planets|
    ensures Possible(w, p, ReliefNext(cat))
  {
    hide LooseAt, ReceiveStep, LedgerOk, Inventory.Room;
    LooseStores(cat, w, d, d');
    if Due(w, p) {
      var w' := ReceiveOnce(cat, w.(planets := Closed(w.planets, p)), p,
          Granted(cat.rules.reliefGrant, w.planets[p].stock), External);
      assert ReliefNext(cat)(w, w', p);
    } else {
      assert ReliefNext(cat)(w, w, p);
    }
  }

  lemma ReliefPhaseOnce(cat: Catalog, w: World, d: int, d': int) returns (w': World)
    requires LooseAt(cat, w, d, d')
    ensures ReliefPhase(cat, w, w')
  {
    hide LooseAt, ReliefStep, BookedOk, ReliefFits;
    var inv, step := LooseDay(cat, w, d, d'), ReliefNext(cat);
    forall a, p: nat | p < |w.planets| && inv(a) ensures Possible(a, p, step) {
      ReliefOnce(cat, a, p, d, d');
    }
    forall a, b, p: nat | p < |w.planets| && inv(a) && step(a, b, p) ensures inv(b) {
      ReliefKeepsInv(cat, a, b, p, d, d');
      ReliefWidth(cat, a, b, p);
    }
    w' := ThroughAlways(w, |w.planets|, step, inv);
  }

  lemma ReceivedOnce(cat: Catalog, w: World, es: seq<StockEffect>, d: int, d': int) returns (w': World)
    requires InvAt(cat, w, d, d') && EffectsOk(cat, es, |w.planets|) && !DueStops(cat, w, es)
    ensures Received(cat, w, w', es)
  {
    hide InvAt, LooseAt, EffectsStep, EffectsStop, ReliefPhase, EffectsOk, BookedOk, Landed, Waiting, OpenedAll,
         ServicedAll;
    var a := w.(facilities := ServicedAll(cat, OpenedAll(w.facilities, w.day), w.day));
    assert OpenStep(cat, w, a);
    OpenKeepsInv(cat, w, a, d, d');
    InvIsLooseAndBooked(cat, a, d, d');
    var b := EffectsOnce(cat, a, es, d, d');
    EffectsKeepInv(cat, a, b, es, d, d');
    var c := b.(transfers := Waiting(b.transfers, b.day), facilities := Landed(b.facilities, b.transfers, b.day));
    assert TransfersStep(b, c);
    TransfersKeepInv(cat, b, c, d, d');
    w' := ReliefPhaseOnce(cat, c, d, d');
  }

  lemma ChargeOnceDone(cat: Catalog, w: World) returns (w': World)
    requires ValidCatalog(cat) && LedgerOk(w.ledger, w.recorded, |w.planets|, w.nextId)
    ensures ChargeStep(cat, w, w')
  {
    hide Posted, LedgerOk, Remaining, ValidFacility, ValidFreight, ValidMandate, ValidRules;
    var use := cat.expedition.transitPerDay;
    var ledger, recorded := PostOnce(w.ledger, w.recorded, |w.planets|, w.nextId, w.day, Account.Expedition,
        SinkCivilian, Eaten(use, w.colony.cargo), cat.resources);
    w' := w.(colony := w.colony.(cargo := Remaining(use, w.colony.cargo)), ledger := ledger, recorded := recorded);
  }

  lemma FoundOnce(cat: Catalog, w: World) returns (w': World)
    requires ValidCatalog(cat) && LedgerOk(w.ledger, w.recorded, |w.planets|, w.nextId) && |w.planets| == |cat.planets|
    ensures FoundStep(cat, w, w')
  {
    hide Posted, LedgerOk, Credited, Spill, Hub, ValidFreight, ValidMandate, ValidRules, ValidRecipe, Inventory.Room;
    var e := cat.expedition;
    assert ValidFacility(cat, cat.facilities[e.hub]);
    var stored := Storable(w.colony.cargo, w.planets[e.target].stock);
    var after := CreditOnce(Moved(w.planets, e.target, w.colony), e.target, stored);
    CreditedMoves(Moved(w.planets, e.target, w.colony), after, e.target, stored);
    var ledger, recorded := PostOnce(w.ledger, w.recorded, |w.planets|, w.nextId, w.day, Account.Expedition,
        PlanetStock(e.target), stored,
                                     |w.planets[e.target].stock.onHand|);
    RangeGrows(ledger, recorded, |w.planets|, w.nextId, w.nextId + 1);
    w' := w.(nextId := w.nextId + 1, facilities := w.facilities + [Hub(cat, w.nextId, w.day)],
             colony := w.colony.(cargo := map[], founded := true, foundedDay := w.day),
             books := w.books.(spilled := Spill(w.books.spilled, w.colony.cargo, stored)),
             planets := after, ledger := ledger, recorded := recorded);
  }

  lemma ChargeLeaves(cat: Catalog, w: World, w': World)
    requires ChargeStep(cat, w, w')
    ensures w'.planets == w.planets && w'.nextId == w.nextId
            && LedgerOk(w'.ledger, w'.recorded, |w'.planets|, w'.nextId)
  {
    hide Posted, LedgerOk, Remaining;
  }

  lemma TravelOnce(cat: Catalog, w: World, d: int, d': int) returns (w': World)
    requires InvAt(cat, w, d, d')
    ensures TravelStep(cat, w, w')
  {
    hide InvAt, ChargeStep, FoundStep, LedgerOk, ValidCatalog;
    InvStores(cat, w, d, d');
    if !w.colony.launched || w.colony.founded || w.colony.arrivalDay < w.day {
      w' := w;
    } else {
      w' := ChargeOnceDone(cat, w);
      if w.day == w.colony.arrivalDay {
        ChargeLeaves(cat, w, w');
        w' := FoundOnce(cat, w');
      }
    }
  }

  lemma ArrivalOnce(cat: Catalog, w: World, d: int, d': int) returns (w': World)
    requires InvAt(cat, w, d, d')
    ensures ArrivalStep(cat, w, w')
  {
    hide InvAt, Posted, LedgerOk, MarkAll, ValidCatalog;
    InvStores(cat, w, d, d');
    CargoListed(cat, w, d, d');
    if !Arriving(w.ship, w.day) {
      w' := w;
    } else {
      match w.ship.mission {
        case StrategicOutbound =>
          var ledger, recorded := PostOnce(w.ledger, w.recorded, |w.planets|, w.nextId, w.day, ShipHold, Front,
              w.ship.cargo, cat.resources);
          w' := w.(ship := w.ship.(cargo := map[], mission := StrategicReturn, destination := Some(cat.freight.origin),
              location := None,
                                   arrivalDay := w.day + cat.mandate.returnDays + cat.mandate.serviceDays),
                   demand := w.demand.(delivered := Both(w.demand.delivered, w.ship.cargo),
                       voyages := MarkAll(w.demand.voyages, w.day)),
                   ledger := ledger, recorded := recorded);
        case StrategicReturn =>
          w' := w.(ship := Docking(cat, w.ship, w.day).(location := w.ship.destination, mission := NoMission),
              demand := w.demand.(committed := false));
        case NoMission =>
          w' := w.(ship := w.ship.(phase := ArrivedHolding, location := w.ship.destination));
      }
    }
  }

  lemma CargoListed(cat: Catalog, w: World, d: int, d': int)
    requires InvAt(cat, w, d, d')
    ensures Positive(w.ship.cargo, cat.resources) && Positive(w.demand.pending, cat.resources)
    ensures forall r | r in w.ship.cargo :: r < cat.resources
  {
    hide StoresOk, WorkforceOk, BalancesOk, ColonyOk, PeopleOk, ClaimsOk, BookedOk, TankOk, ShippedOk, VoyagesOk;
  }

  /** Due work runs to its end unless an effect lacks what it needs. */
  lemma DueOnce(cat: Catalog, w: World, es: seq<StockEffect>) returns (w': World)
    requires InvAt(cat, w, w.day - 1, w.day - 1) && 0 <= w.day && EffectsOk(cat, es, |w.planets|)
    requires !DueStops(cat, w, es)
    ensures DueStep(cat, w, w', es)
  {
    hide InvAt, LooseAt, Received, TravelStep, ArrivalStep, BookedOk, EffectsOk, OpenStep, EffectsStop, Noted;
    var y := w.day - 1;
    var received := ReceivedOnce(cat, w, es, y, y);
    ReceivedKeepsLoose(cat, w, received, es, y, y);
    NotedKeeps(cat, received, y, y);
    var e := Noted(received);
    var f := TravelOnce(cat, e, y, y);
    TravelKeepsInv(cat, e, f, y);
    w' := ArrivalOnce(cat, f, f.day, y);
    assert Arrivals(cat, e, w');
  }

  // ----- maintenance and the snapshot -----

  /** There is an order to serve a world's facilities in. */
  lemma {:induction false} OrderExists(fs: seq<Facility>, p: nat, n: nat) returns (order: seq<nat>)
    requires n <= |fs| && forall i, j | 0 <= i < j < |fs| :: fs[i].id < fs[j].id
    ensures Sorted(fs, order) && forall k: nat :: k in order <==> k < n && OnDuty(fs[k], p)
  {
    if n == 0 {
      order := [];
    } else {
      order := OrderExists(fs, p, n - 1);
      if OnDuty(fs[n - 1], p) {
        forall k | 0 <= k < |order| ensures fs[order[k]].id != fs[n - 1].id {
          assert order[k] in order;
        }
        var at := PlaceFor(fs, order, n - 1, |order|);
        Inserted(fs, order, at, n - 1);
        InsertKeepsAll(order, at, n - 1);
        order := Insert(order, at, n - 1);
      }
    }
  }

  lemma {:induction false} PlaceFor(fs: seq<Facility>, order: seq<nat>, i: nat, n: nat) returns (at: nat)
    requires Sorted(fs, order) && i < |fs| && n <= |order| && forall k | 0 <= k < |order| :: fs[order[k]].id != fs[i].id
    requires forall k | n <= k < |order| :: Before(fs[i], fs[order[k]])
    ensures at <= |order|
    ensures forall k | 0 <= k < at :: Before(fs[order[k]], fs[i])
    ensures forall k | at <= k < |order| :: Before(fs[i], fs[order[k]])
    decreases n
  {
    if n > 0 && Before(fs[i], fs[order[n - 1]]) {
      at := PlaceFor(fs, order, i, n - 1);
    } else {
      at := n;
    }
  }

  lemma OrderFor(cat: Catalog, w: World, p: nat, d: int, d': int) returns (order: seq<nat>)
    requires InvAt(cat, w, d, d')
    ensures IsProductionOrder(w.facilities, p, order)
  {
    hide InvAt, FacilitiesOk, Sorted, OnDuty;
    FacilitiesHold(cat, w, d, d');
    IdsAscend(cat, w.facilities, |w.planets|, w.nextId);
    order := OrderExists(w.facilities, p, |w.facilities|);
    forall k | 0 <= k < |order| ensures order[k] < |w.facilities| && OnDuty(w.facilities[order[k]], p) {
      assert order[k] in order;
    }
  }

  lemma MaintainOnce(cat: Catalog, w: World, i: nat, d: int, d': int) returns (w': World)
    requires InvAt(cat, w, d, d') && i < |w.facilities|
    ensures MaintainStep(cat, w, w', i)
  {
    hide InvAt, SpendStep, Worn, LedgerOk, ValidCatalog, Pays;
    InvStores(cat, w, d, d');
    Maintainable(cat, w, i, d, d');
    var f := w.facilities[i];
    var due := Upkept(cat, f);
    if due == 0 {
      w' := w.(facilities := w.facilities[i := Worn(cat, f, cat.rules.maintainedGain)]);
    } else if Pays(cat, w, i) {
      var mid := SpendOnce(cat, w, f.planet, Single(cat.machinery, due), SinkMaintenance);
      SpendKeepsWidth(cat, w, mid, f.planet, Single(cat.machinery, due), SinkMaintenance);
      w' := mid.(facilities := w.facilities[i := Worn(cat, f, cat.rules.maintainedGain)]);
      assert w'.(facilities := w.facilities) == mid;
    } else {
      w' := w.(facilities := w.facilities[i := Worn(cat, f, -cat.rules.unmaintainedLoss)]);
    }
  }

  lemma MaintainWorldOnce(cat: Catalog, w: World, p: nat, d: int, d': int)
    requires InvAt(cat, w, d, d')
    ensures Possible(w, p, MaintainWorlds(cat))
  {
    hide InvAt, MaintainStep, IsProductionOrder;
    var order := OrderFor(cat, w, p, d, d');
    OrderInRange(w.facilities, p, order);
    var step, inv := MaintainNext(cat, order), Kept(cat, w, d, d');
    forall a, k: nat | k < |order| && inv(a) ensures Possible(a, k, step) {
      var b := MaintainOnce(cat, a, order[k], d, d');
      assert step(a, b, k);
    }
    forall a, b, k: nat | k < |order| && inv(a) && step(a, b, k) ensures inv(b) {
      MaintainKeepsInv(cat, a, b, order[k], d, d');
    }
    var w' := ThroughAlways(w, |order|, step, inv);
    assert MaintainWorlds(cat)(w, w', p);
  }

  lemma MaintenanceOnce(cat: Catalog, w: World, d: int, d': int) returns (w': World)
    requires InvAt(cat, w, d, d')
    ensures MaintenanceStep(cat, w, w')
  {
    hide InvAt, MaintainWorld;
    var step, inv := MaintainWorlds(cat), Kept(cat, w, d, d');
    forall a, p: nat | p < |w.planets| && inv(a) ensures Possible(a, p, step) {
      MaintainWorldOnce(cat, a, p, d, d');
    }
    forall a, b, p: nat | p < |w.planets| && inv(a) && step(a, b, p) ensures inv(b) {
      MaintainWorldKeeps(cat, a, b, p, d, d');
    }
    w' := ThroughAlways(w, |w.planets|, step, inv);
  }

  lemma MorningOnce(cat: Catalog, w: World, es: seq<StockEffect>) returns (w': World)
    requires Inv(cat, w) && 0 <= w.day && EffectsOk(cat, es, |w.planets|) && !MorningStops(cat, w, es)
    ensures Morning(cat, w, w', es)
  {
    hide InvAt, DueStep, DueStops, MaintenanceStep, EffectsOk;
    var today := w.(day := w.day + 1);
    PlanIsFree(cat, w, today, w.day, w.day);
    var a := DueOnce(cat, today, es);
    DueKeepsInv(cat, today, a, es);
    var b := MaintenanceOnce(cat, a, a.day, a.day);
    w' := b.(scratch := seq(|b.planets|, p requires 0 <= p < |b.planets| => Opening(b.planets[p].stock)));
    assert SnapshotStep(b, w');
  }

  // ----- power and production -----

  lemma DrawOnce(cat: Catalog, w: World, p: nat, m: ResourceMap, day: Scratch) returns (w': World)
    requires LedgerOk(w.ledger, w.recorded, |w.planets|, w.nextId) && p < |w.planets| && p < |w.scratch|
             && forall r | r in m :: r < |w.planets[p].stock.onHand|
    ensures SpendStep(cat, w, w'.(scratch := w.scratch), p, m, SinkRecipe) && w'.scratch == w.scratch[p := day]
  {
    hide LedgerOk, SpendStep;
    var mid := SpendOnce(cat, w, p, m, SinkRecipe);
    SpendKeepsWidth(cat, w, mid, p, m, SinkRecipe);
    w' := mid.(scratch := w.scratch[p := day]);
    assert w'.(scratch := w.scratch) == mid;
  }

  lemma GenerateOnce(cat: Catalog, w: World, i: nat, x: DayInputs, d: int, d': int) returns (w': World)
    requires InvAt(cat, w, d, d') && BenchesOk(cat, w) && i < |w.facilities|
    ensures GenerateStep(cat, w, w', i, x)
  {
    hide InvAt, BenchOk, BenchesOk, SpendStep, LargestRun, InputsAt, BurnLimits, LimitsOk, FloorOf, ValidRecipe,
         LedgerOk, ValidCatalog;
    InvStores(cat, w, d, d');
    FacilityFacts(cat, w, i, d, d');
    var f := w.facilities[i];
    var day, r := w.scratch[f.planet], RecipeOf(cat, f);
    var base := day.(generated := day.generated + cat.facilities[f.kind].passivePower);
    if !Operable(f, w.day) {
      w' := w;
    } else if !r.IsGenerator() || !Works(f) {
      w' := w.(scratch := w.scratch[f.planet := base]);
    } else {
      var l := BurnLimits(cat, r, day);
      var run := LargestRun(l, Desired(x, f));
      BurnLimitsOk(cat, r, w.planets[f.planet].stock, day);
      BurnsOwnInputs(cat, r, day);
      InputsFit(l, cat.resources, Desired(x, f));
      InputsInRange(InputsAt(r, run), cat.resources);
      w' := DrawOnce(cat, w, f.planet, InputsAt(r, run),
                     base.(available := Minus(day.available, InputsAt(r, run)),
                         generated := base.generated + FloorOf(r.powerOutput, run, BP_ONE)));
    }
  }

  lemma PowerWorldOnce(cat: Catalog, w: World, p: nat, x: DayInputs, d: int, d': int)
    requires InvAt(cat, w, d, d') && BenchesOk(cat, w) && PowerUpto(cat, w, p) && p < |w.planets|
    ensures Possible(w, p, PowerWorlds(cat, x))
  {
    hide InvAt, GenerateStep, IsProductionOrder, BenchesOk, PowerUpto, Shared;
    var order := OrderFor(cat, w, p, d, d');
    OrderInRange(w.facilities, p, order);
    SameWorking(w, w);
    var step, inv := GenerateNext(cat, order, x), Generating(cat, w, p, d, d');
    forall a, k: nat | k < |order| && inv(a) ensures Possible(a, k, step) {
      var b := GenerateOnce(cat, a, order[k], x, d, d');
      assert step(a, b, k);
    }
    forall a, b, k: nat | k < |order| && inv(a) && step(a, b, k) ensures inv(b) {
      OrderedHere(w.facilities, p, order, k);
      GenerateKeeps(cat, a, b, order[k], x, d, d');
      WorkingThen(w, a, b);
    }
    var mid := ThroughAlways(w, |order|, step, inv);
    WorkingWidth(cat, w, mid);
    var w' := mid.(scratch := mid.scratch[p := Shared(cat, mid.planets[p], mid.scratch[p])]);
    assert PowerWorlds(cat, x)(w, w', p);
  }

  lemma OrderedHere(fs: seq<Facility>, p: nat, order: seq<nat>, k: nat)
    requires IsProductionOrder(fs, p, order) && k < |order|
    ensures order[k] < |fs| && fs[order[k]].planet == p
  {
  }

  lemma {:induction false} PoweringOnce(cat: Catalog, w: World, n: nat, x: DayInputs, d: int, d': int)
      returns (w': World)
    requires InvAt(cat, w, d, d') && BenchesOk(cat, w) && PowerUpto(cat, w, 0) && n <= |w.planets|
    ensures Through(w, w', n, PowerWorlds(cat, x))
    decreases n
  {
    hide InvAt, BenchesOk, PowerUpto, PowerWorld;
    if n == 0 {
      w' := w;
    } else {
      var step := PowerWorlds(cat, x);
      var m := PoweringOnce(cat, w, n - 1, x, d, d');
      PoweringKeeps(cat, w, m, n - 1, x, d, d');
      WorkingWidth(cat, w, m);
      PowerWorldOnce(cat, m, n - 1, x, d, d');
      w' :| step(m, w', n - 1);
      ThroughNext(w, m, w', n - 1, step);
    }
  }

  lemma ProduceOnce(cat: Catalog, w: World, i: nat, x: DayInputs, d: int, d': int) returns (w': World)
    requires InvAt(cat, w, d, d') && BenchesOk(cat, w) && i < |w.facilities|
    ensures ProduceStep(cat, w, w', i, x)
  {
    hide InvAt, BenchOk, BenchesOk, SpendStep, LargestRun, InputsAt, OutputsAt, MakeLimits, LimitsOk, FloorOf,
         ValidRecipe, LedgerOk, ValidCatalog, Productive, Shifted, Needed, Inventory.FreeSpace;
    InvStores(cat, w, d, d');
    FacilityFacts(cat, w, i, d, d');
    var f := w.facilities[i];
    var day, stock, r := w.scratch[f.planet], w.planets[f.planet].stock, RecipeOf(cat, f);
    BenchWidths(stock, day, cat.resources);
    if !Produces(cat, f, w.day) {
      w' := w;
    } else {
      var l := MakeLimits(cat, f.planet, r, stock, day);
      var run := Productive(l, LargestRun(l, Desired(x, f)));
      RunIsWithin(cat, f.planet, r, stock, day, Desired(x, f));
      w' := DrawOnce(cat, w, f.planet, InputsAt(r, run), Shifted(day, r, l, run));
    }
  }

  lemma ProduceWorldOnce(cat: Catalog, w: World, p: nat, x: DayInputs, d: int, d': int)
    requires InvAt(cat, w, d, d') && BenchesOk(cat, w) && AllPowered(cat, w) && p < |w.planets|
    ensures Possible(w, p, ProduceWorlds(cat, x))
  {
    hide InvAt, ProduceStep, IsProductionOrder, BenchesOk, AllPowered, Ready;
    var order := OrderFor(cat, w, p, d, d');
    OrderInRange(w.facilities, p, order);
    SameWorking(w, w);
    var step, inv := ProduceNext(cat, order, x), Producing(cat, w, d, d');
    forall a, k: nat | k < |order| && inv(a) ensures Possible(a, k, step) {
      var b := ProduceOnce(cat, a, order[k], x, d, d');
      assert step(a, b, k);
    }
    forall a, b, k: nat | k < |order| && inv(a) && step(a, b, k) ensures inv(b) {
      ProduceKeeps(cat, a, b, order[k], x, d, d');
      WorkingThen(w, a, b);
    }
    var mid := ThroughAlways(w, |order|, step, inv);
    WorkingWidth(cat, w, mid);
    var w' := mid.(scratch := mid.scratch[p := Ready(mid.scratch[p])]);
    assert ProduceWorlds(cat, x)(w, w', p);
  }

  lemma ProductionOnce(cat: Catalog, w: World, x: DayInputs, d: int, d': int) returns (w': World)
    requires InvAt(cat, w, d, d') && BenchesOk(cat, w) && AllPowered(cat, w)
    ensures ProductionStep(cat, w, w', x)
  {
    hide InvAt, ProduceWorld, BenchesOk, AllPowered;
    SameWorking(w, w);
    var step, inv := ProduceWorlds(cat, x), Producing(cat, w, d, d');
    forall a, p: nat | p < |w.planets| && inv(a) ensures Possible(a, p, step) {
      WorkingWidth(cat, w, a);
      ProduceWorldOnce(cat, a, p, x, d, d');
    }
    forall a, b, p: nat | p < |w.planets| && inv(a) && step(a, b, p) ensures inv(b) {
      ProduceWorldKeeps(cat, a, b, p, x, d, d');
      WorkingThen(w, a, b);
    }
    w' := ThroughAlways(w, |w.planets|, step, inv);
  }

  // ----- commit and needs -----

  /** What committing finds on every world, whatever has been committed. */
  ghost predicate Stocked(cat: Catalog, w: World, a: World) {
    && LedgerOk(a.ledger, a.recorded, |a.planets|, a.nextId) && a.scratch == w.scratch && |a.planets| == |w.planets|
    && forall p | 0 <= p < |a.planets| :: |a.planets[p].stock.onHand| == cat.resources
  }

  ghost predicate StagedWidths(cat: Catalog, w: World) {
    |w.scratch| == |w.planets| && forall p | 0 <= p < |w.scratch| :: |w.scratch[p].staged| == cat.resources
  }

  lemma CommitWorldOnce(cat: Catalog, w: World, a: World, p: nat, ratios: seq<int>)
    requires Stocked(cat, w, a) && StagedWidths(cat, w) && p < |a.planets| == |ratios| && cat.food < cat.resources
             && cat.water < cat.resources
    ensures Possible(a, p, CommitWorlds(cat, ratios))
  {
    hide LedgerOk, SpendStep, ReceiveStep;
    var staged := Staged(a.scratch[p].staged);
    var m := ReceiveOnce(cat, a, p, staged, SourceRecipe);
    ReceiveWidth(cat, a, m, p, staged, SourceRecipe);
    var served := Served(cat, m.planets[p], ratios[p]);
    var b := SpendOnce(cat, m, p, served, SinkCivilian);
    assert CommitStep(cat, a, m, p) && NeedsStep(cat, m, b, p, ratios[p]);
    assert CommitWorlds(cat, ratios)(a, b, p);
  }

  lemma ReceiveWidth(cat: Catalog, w: World, w': World, p: nat, m: ResourceMap, from: Account)
    requires ReceiveStep(cat, w, w', p, m, from)
    ensures w' == w.(planets := w'.planets, ledger := w'.ledger, recorded := w'.recorded)
    ensures |w'.planets| == |w.planets| && forall q | 0 <= q < |w.planets| ::
            |w'.planets[q].stock.onHand| == |w.planets[q].stock.onHand|
    ensures LedgerOk(w'.ledger, w'.recorded, |w'.planets|, w'.nextId)
  {
    hide Posted, LedgerOk;
    forall q | 0 <= q < |w.planets| ensures |w'.planets[q].stock.onHand| == |w.planets[q].stock.onHand| {
      assert OnlyStock(w.planets[q], w'.planets[q]);
    }
  }

  lemma SpendWidth(cat: Catalog, w: World, w': World, p: nat, m: ResourceMap, to: Account)
    requires SpendStep(cat, w, w', p, m, to)
    ensures w' == w.(planets := w'.planets, ledger := w'.ledger, recorded := w'.recorded)
    ensures |w'.planets| == |w.planets| && forall q | 0 <= q < |w.planets| ::
            |w'.planets[q].stock.onHand| == |w.planets[q].stock.onHand|
    ensures LedgerOk(w'.ledger, w'.recorded, |w'.planets|, w'.nextId)
  {
    hide Posted, LedgerOk;
    forall q | 0 <= q < |w.planets| ensures |w'.planets[q].stock.onHand| == |w.planets[q].stock.onHand| {
      assert OnlyStock(w.planets[q], w'.planets[q]);
    }
  }

  lemma CommitOnce(cat: Catalog, w: World, ratios: seq<int>) returns (w': World)
    requires Stocked(cat, w, w) && StagedWidths(cat, w) && |w.planets| == |ratios| && cat.food < cat.resources
             && cat.water < cat.resources
    ensures CommitPhase(cat, w, w', ratios)
  {
    hide LedgerOk, SpendStep, ReceiveStep, Staged, Served, StagedWidths;
    var step := CommitWorlds(cat, ratios);
    var inv := (a: World) => Stocked(cat, w, a);
    forall a, p: nat | p < |w.planets| && inv(a) ensures Possible(a, p, step) {
      CommitWorldOnce(cat, w, a, p, ratios);
    }
    forall a, b, p: nat | p < |w.planets| && inv(a) && step(a, b, p) ensures inv(b) {
      var m :| CommitStep(cat, a, m, p) && NeedsStep(cat, m, b, p, ratios[p]);
      ReceiveWidth(cat, a, m, p, Staged(a.scratch[p].staged), SourceRecipe);
      SpendWidth(cat, m, b, p, Served(cat, m.planets[p], ratios[p]), SinkCivilian);
    }
    w' := ThroughAlways(w, |w.planets|, step, inv);
  }

  lemma ReadyToCommit(cat: Catalog, w: World, d: int, d': int)
    requires InvAt(cat, w, d, d') && BenchesOk(cat, w)
    ensures Stocked(cat, w, w) && StagedWidths(cat, w) && cat.food < cat.resources && cat.water < cat.resources
  {
    hide InvAt, LedgerOk, BenchOk, ValidFacility, ValidFreight, ValidExpedition, ValidMandate, ValidRules;
    InvStores(cat, w, d, d');
    forall p | 0 <= p < |w.scratch| ensures |w.scratch[p].staged| == cat.resources {
      BenchWidths(w.planets[p].stock, w.scratch[p], cat.resources);
    }
  }

  /** A working day runs to its end unless a facility that would run has more staff than it employs. */
  lemma WorkdayOnce(cat: Catalog, w: World, x: DayInputs) returns (w': World)
    requires InvAt(cat, w, w.day, w.day) && BenchesOk(cat, w) && PowerUpto(cat, w, 0)
             && ValidInputs(cat, x, |w.planets|) && !Overworked(cat, w)
    ensures Workday(cat, w, w', x)
  {
    hide InvAt, Overworked, ProductionStep, CommitPhase, BuildPhase, BenchesOk, PowerUpto, HandlingOk, Stocked,
         StagedWidths, PowerWorld;
    var a := PoweringOnce(cat, w, |w.planets|, x, w.day, w.day);
    PowerKeepsInv(cat, w, a, x, w.day, w.day);
    WorkingWidth(cat, w, a);
    var b := ProductionOnce(cat, a, x, w.day, w.day);
    ProductionKeepsInv(cat, a, b, x, w.day, w.day);
    WorkingWidth(cat, a, b);
    ReadyToCommit(cat, b, w.day, w.day);
    var c := CommitOnce(cat, b, x.foodRatio);
    CommitKeepsInv(cat, b, c, x.foodRatio, w.day, w.day);
    w' := BuildOnce(cat, c, x, w.day, w.day);
  }

  // ----- freight -----

  lemma {:induction false} GreedyListed(cat: Catalog, limits: ResourceMap, volume: int, handling: int, k: nat)
    ensures forall r | r in Greedy(cat, limits, volume, handling, k).goods :: r in limits
  {
    hide VolumeOf, QuantityForVolume;
    if k > 0 {
      GreedyListed(cat, limits, volume, handling, k - 1);
    }
  }

  lemma UnloadOnce(cat: Catalog, w: World, d: int, d': int) returns (w': World)
    requires InvAt(cat, w, d, d')
    ensures UnloadStep(cat, w, w')
  {
    hide InvAt, Posted, LedgerOk, Credited, Greedy, Unloaded, HasPort, Docking, Release, ValidCatalog,
         Inventory.FreeSpace;
    InvStores(cat, w, d, d');
    if !Ashore(w.ship) {
      w' := w;
    } else if w.ship.cargo == map[] {
      w' := w.(ship := Docking(cat, w.ship, w.day));
    } else if !PortOpen(cat, w) {
      w' := w.(ship := w.ship.(phase := ArrivedHolding));
    } else {
      var p := w.ship.location.value;
      var load := Landing(cat, w);
      var base := WithClaims(w.planets, p, Release(w.planets[p].stock.claims, w.ship.bookings));
      GreedyListed(cat, UnloadLimits(w.ship.cargo, base[p].stock), w.scratch[p].handlingLeft, w.scratch[p].handlingLeft,
          cat.resources);
      var after := CreditOnce(base, p, load.goods);
      CreditedMoves(base, after, p, load.goods);
      var ledger, recorded := PostOnce(w.ledger, w.recorded, |w.planets|, w.nextId, w.day, ShipHold, PlanetStock(p),
          load.goods, |base[p].stock.onHand|);
      w' := w.(ship := Unloaded(cat, w.ship, load.goods, w.day),
          scratch := w.scratch[p := w.scratch[p].(handlingLeft := load.handling)],
               planets := after, ledger := ledger, recorded := recorded);
    }
  }

  /** Goods, fuel and machinery are posted as a leg's flow says. */
  lemma LegPostedOnce(cat: Catalog, w: World, src: nat, goods: ResourceMap, fuelIn: int, machinery: int, burn: int)
      returns (ledger: seq<Move>, recorded: seq<Move>)
    requires LedgerOk(w.ledger, w.recorded, |w.planets|, w.nextId) && src < |w.planets| && forall r | r in goods ::
             r < cat.resources
    requires cat.fuel < cat.resources && cat.machinery < cat.resources
    ensures LegPosted(cat, w.recorded, recorded, src, goods, fuelIn, machinery, burn)
            && LedgerOk(ledger, recorded, |w.planets|, w.nextId)
  {
    hide Posted, LedgerOk, LegPosted;
    var home, n, k := PlanetStock(src), |w.planets|, w.nextId;
    var l1, r1 := PostOnce(w.ledger, w.recorded, n, k, w.day, home, ShipHold, Single(cat.fuel, fuelIn), cat.resources);
    var l2, r2 := PostOnce(l1, r1, n, k, w.day, home, SinkPropulsion, Single(cat.machinery, machinery), cat.resources);
    var l3, r3 := PostOnce(l2, r2, n, k, w.day, ShipHold, SinkPropulsion, Single(cat.fuel, burn), cat.resources);
    FlowOfExtras(cat, w.recorded, r1, r2, r3, src, fuelIn, machinery, burn);
    ledger, recorded := PostOnce(l3, r3, n, k, w.day, home, ShipHold, goods, cat.resources);
    FlowOfGoods(cat, w.recorded, r3, recorded, src, goods, fuelIn, machinery, burn);
  }

  lemma TotalListed(cat: Catalog, goods: ResourceMap, fuelIn: int, machinery: int)
    requires ValidCatalog(cat) && forall r | r in goods :: r < cat.resources
    ensures forall r | r in Total(cat, goods, fuelIn, machinery) :: r < cat.resources
    ensures cat.fuel < cat.resources && cat.machinery < cat.resources && cat.freight.origin < |cat.planets|
            && cat.freight.destination < |cat.planets|
    ensures cat.freight.origin != cat.freight.destination
  {
    hide ValidFacility, ValidExpedition, ValidMandate, ValidRules;
  }

  lemma DepartMissionOnce(cat: Catalog, w: World, d: int, d': int) returns (w': World)
    requires InvAt(cat, w, d, d')
    ensures DepartMissionStep(cat, w, w')
  {
    hide InvAt, LegPosted, LedgerOk, Debited, Total, Affords, CargoVolume, Embarked, Logged, ValidCatalog, Positive;
    InvStores(cat, w, d, d');
    CargoListed(cat, w, d, d');
    if !MissionReady(cat, w) {
      w' := w;
    } else if w.day > cat.mandate.lastDeparture {
      w' := w.(demand := Abandoned(w.demand));
    } else {
      var p, m, pending := cat.freight.origin, cat.mandate, w.demand.pending;
      PositiveListed(pending, cat.resources);
      TotalListed(cat, pending, m.missionFuel, m.missionMachinery);
      var after := DebitOnce(w.planets, p, Total(cat, pending, m.missionFuel, m.missionMachinery));
      DebitedMoves(w.planets, after, p, Total(cat, pending, m.missionFuel, m.missionMachinery));
      var ledger, recorded := LegPostedOnce(cat, w, p, pending, m.missionFuel, m.missionMachinery, m.missionFuel);
      w' := w.(ship := Embarked(cat, w.ship, pending, w.day), demand := Logged(cat, w.demand, w.day),
               scratch := w.scratch[p := w.scratch[p].(handlingLeft := w.scratch[p].handlingLeft - CargoVolume(cat,
                   pending, cat.resources))],
               planets := after, ledger := ledger, recorded := recorded);
    }
  }

  lemma PositiveListed(m: ResourceMap, n: nat)
    requires Positive(m, n)
    ensures forall r | r in m :: r < n
  {
  }

  lemma LegOnce(cat: Catalog, w: World, src: nat, dst: nat, load: Load, fuelIn: int, machinery: int, burn: int,
                leftover: int, d: int, d': int)
      returns (w': World)
    requires InvAt(cat, w, d, d') && src < |w.planets| && dst < |w.planets| && src < |w.scratch| && src != dst
    requires forall r | r in load.goods :: r < cat.resources
    ensures LegStep(cat, w, w', src, dst, load, fuelIn, machinery, burn, leftover)
  {
    hide InvAt, LegPosted, LedgerOk, Debited, Total, Sailing, ClaimsFor, ValidCatalog;
    InvStores(cat, w, d, d');
    TotalListed(cat, load.goods, fuelIn, machinery);
    var claims, total := ClaimsFor(load.goods, w.nextId, cat.resources), Total(cat, load.goods, fuelIn, machinery);
    var taken := DebitOnce(w.planets, src, total);
    DebitedMoves(w.planets, taken, src, total);
    assert OnlyStock(w.planets[dst], taken[dst]);
    var before := w.planets[dst].stock.claims;
    var after := WithClaims(taken, dst, before + claims);
    assert WithClaims(after, dst, before) == taken;
    var ledger, recorded := LegPostedOnce(cat, w, src, load.goods, fuelIn, machinery, burn);
    RangeGrows(ledger, recorded, |w.planets|, w.nextId, w.nextId + |claims|);
    w' := w.(ship := Sailing(cat, w.ship, dst, load.goods, fuelIn, burn, IdsOf(claims), w.day),
        nextId := w.nextId + |claims|,
             scratch := w.scratch[src := w.scratch[src].(handlingLeft := load.handling)],
                 books := w.books.(shipped := load.goods, leftover := leftover),
             planets := after, ledger := ledger, recorded := recorded);
  }

  lemma OutboundOnce(cat: Catalog, w: World, ratio: int, route: Route, d: int, d': int) returns (w': World)
    requires InvAt(cat, w, d, d') && MaySail(cat, w)
    ensures OutboundStep(cat, w, w'.(route := w.route), ratio) && w'.route == route
  {
    hide InvAt, LegStep, HasPort, LoadLimits, Greedy, ValidCatalog, LedgerOk;
    InvStores(cat, w, d, d');
    var f, load := cat.freight, OutLoad(cat, w, ratio);
    GreedyBelow(cat, LoadLimits(cat, w.route, w.planets, w.facilities, f.origin, f.destination, w.route.outbound,
        ratio), f.cargoCapacity,
                w.scratch[f.origin].handlingLeft, cat.resources);
    TotalListed(cat, map[], 0, 0);
    var leftover := w.books.leftover + f.roundTripFuel - f.outboundBurn - f.returnBurn;
    var mid := LegOnce(cat, w, f.origin, f.destination, load, f.roundTripFuel, f.roundTripMachinery, f.outboundBurn,
        leftover, d, d');
    LegShip(cat, w, mid, f.origin, f.destination, load, f.roundTripFuel, f.roundTripMachinery, f.outboundBurn,
        leftover);
    w' := mid.(route := route);
    assert w'.(route := w.route) == mid;
  }

  lemma DepartsFrom(cat: Catalog, w: World, allowEmpty: bool, ratio: int)
    requires OutcomeOf(cat, w, allowEmpty, ratio).Departed?
    ensures MaySail(cat, w)
  {
    hide MaySail;
  }

  lemma RequestedOnce(cat: Catalog, w: World, ratio: int, d: int, d': int) returns (w': World)
    requires InvAt(cat, w, d, d') && !RequestedFaults(cat, w, ratio)
    ensures RequestedStep(cat, w, w', ratio)
  {
    hide InvAt, OutboundStep, OutcomeOf, MaySail;
    if !w.route.requested || !AtOrigin(cat, w.ship, w.day) {
      w' := w;
    } else if OutcomeOf(cat, w, w.route.allowEmpty, ratio).Departed? {
      DepartsFrom(cat, w, w.route.allowEmpty, ratio);
      w' := OutboundOnce(cat, w, ratio, Cleared(w.route).(nextDeparture := w.day + w.route.interval), d, d');
    } else {
      w' := w.(route := Cleared(w.route));
    }
  }

  lemma ScheduledOnce(cat: Catalog, w: World, ratio: int, d: int, d': int) returns (w': World)
    requires InvAt(cat, w, d, d') && !ScheduledFaults(cat, w, ratio)
    ensures ScheduledStep(cat, w, w', ratio)
  {
    hide InvAt, OutboundStep, OutcomeOf, MaySail;
    if !w.route.enabled || w.day < w.route.nextDeparture {
      w' := w;
    } else if !AtOrigin(cat, w.ship, w.day) {
      w' := w.(route := w.route.(nextDeparture := w.route.nextDeparture + w.route.interval));
    } else if OutcomeOf(cat, w, false, ratio).Departed? {
      DepartsFrom(cat, w, false, ratio);
      w' := OutboundOnce(cat, w, ratio, w.route.(nextDeparture := w.day + w.route.interval), d, d');
    } else {
      w' := w.(route := w.route.(nextDeparture := w.day + 1));
    }
  }

  lemma ReturnOnce(cat: Catalog, w: World, ratio: int, d: int, d': int) returns (w': World)
    requires InvAt(cat, w, d, d') && !ReturnOutcome(cat, w, ratio).Faulted?
    ensures ReturnStep(cat, w, w', ratio)
  {
    hide InvAt, LegStep, LoadLimits, Greedy, ValidCatalog, LedgerOk, Affords, Total;
    if !MayReturn(cat, w) {
      w' := w;
    } else {
      InvStores(cat, w, d, d');
      var f := cat.freight;
      GreedyBelow(cat, LoadLimits(cat, w.route, w.planets, w.facilities, f.destination, f.origin, w.route.homebound,
          ratio), f.cargoCapacity,
                  w.scratch[f.destination].handlingLeft, cat.resources);
      TotalListed(cat, map[], 0, 0);
      w' := LegOnce(cat, w, f.destination, f.origin, BackLoad(cat, w, ratio), 0, 0, f.returnBurn, w.books.leftover, d,
          d');
    }
  }

  /** The freight phase runs to its end unless one of its departures fails in its commit. */
  lemma FreightOnce(cat: Catalog, w: World, ratios: seq<int>) returns (w': World)
    requires InvAt(cat, w, w.day, w.day) && HandlingOk(w) && |ratios| == |w.planets| && !FreightFaults(cat, w, ratios)
    ensures FreightStep(cat, w, w', ratios)
  {
    hide InvAt, UnloadStep, DepartMissionStep, RequestedStep, ScheduledStep, ReturnStep, RequestedFaults,
         ScheduledFaults, ReturnOutcome, HandlingOk, ValidCatalog, LedgerOk;
    InvStores(cat, w, w.day, w.day);
    TotalListed(cat, map[], 0, 0);
    var d, src, dst := w.day, ratios[cat.freight.origin], ratios[cat.freight.destination];
    var a := UnloadOnce(cat, w, d, d);
    UnloadKeeps(cat, w, a, d);
    var b := DepartMissionOnce(cat, a, d, d);
    MissionKeeps(cat, a, b, d);
    assert MissionFirst(cat, w, b);
    var c := RequestedOnce(cat, b, src, d, d);
    RequestedKeepsInv(cat, b, c, src, d);
    var m := ScheduledOnce(cat, c, src, d, d);
    ScheduledKeepsInv(cat, c, m, src, d);
    DestinationHandled(cat, m, d);
    var e := ReturnOnce(cat, m, dst, d, d);
    ReturnKeepsInv(cat, m, e, dst, d);
    w' := e.(planets := Reported(e.planets, e.scratch));
    assert ReportStep(e, w');
  }

  // ----- the evening and the day -----

  lemma EveningOnce(cat: Catalog, w: World, x: DayInputs) returns (w': World)
    requires InvAt(cat, w, w.day, w.day) && HandlingOk(w) && ValidInputs(cat, x, |w.planets|)
    requires forall end: Ending :: !EveningStops(cat, w, x, end)
    ensures Evening(cat, w, w', x)
  {
    hide InvAt, LooseAt, FreightStep, FreightFaults, EffectsStep, EffectsStop, HandlingOk, BookedOk, StaffedOk, Issued,
         Judged, EffectsOk;
    assert !EveningStops(cat, w, x, Raised) && !EveningStops(cat, w, x, Overbooked)
           && !EveningStops(cat, w, x, Overstaffed);
    InputsOk(cat, x, |w.planets|);
    var a := FreightOnce(cat, w, x.foodRatio);
    FreightKeepsInv(cat, w, a, x.foodRatio, w.day);
    FreightWidth(cat, w, a, x.foodRatio);
    var mid := a.(planets := Alarmed(a.planets, x.emergency));
    var b := mid.(demand := Judged(Issued(cat, mid.demand, mid.day), mid.day));
    assert ConsequencesStep(cat, a, b, x.emergency);
    ConsequencesKeepInv(cat, a, b, x.emergency, w.day, w.day);
    InvIsLooseAndBooked(cat, b, w.day, w.day);
    var e := EffectsOnce(cat, b, x.evening, w.day, w.day);
    assert Reckoned(cat, w, e, x);
    w' := Noted(e);
  }

  lemma InputsOk(cat: Catalog, x: DayInputs, planets: nat)
    requires ValidInputs(cat, x, planets)
    ensures EffectsOk(cat, x.due, planets) && EffectsOk(cat, x.evening, planets)
            && |x.foodRatio| == |x.emergency| == planets
  {
  }

  /** Any day resolves, unless it stops where it is said to. */
  lemma DayOnce(cat: Catalog, w: World, x: DayInputs) returns (w': World)
    requires Inv(cat, w) && 0 <= w.day && ValidInputs(cat, x, |w.planets|)
    requires forall end: Ending :: !DayStops(cat, w, x, end)
    ensures DayStep(cat, w, w', x)
  {
    hide InvAt, Overworked, Morning, Workday, Evening, MorningStops, EveningStops, BenchesOk, PowerUpto, HandlingOk,
         ValidInputs, EffectsOk;
    assert !DayStops(cat, w, x, Raised);
    InputsOk(cat, x, |w.planets|);
    var a := MorningOnce(cat, w, x.due);
    MorningKeepsInv(cat, w, a, x.due);
    var b := WorkdayOnce(cat, a, x);
    WorkdayKeepsInv(cat, a, b, x);
    forall end: Ending ensures !EveningStops(cat, b, x, end) {
      assert !DayStops(cat, w, x, end);
    }
    w' := EveningOnce(cat, b, x);
  }

  /** A day can resolve exactly when nothing stops it. */
  lemma DayResolvesExactly(cat: Catalog, w: World, x: DayInputs)
    requires Inv(cat, w) && 0 <= w.day && ValidInputs(cat, x, |w.planets|)
    ensures (exists w' :: DayStep(cat, w, w', x)) <==> forall end: Ending :: !DayStops(cat, w, x, end)
  {
    hide Inv, DayStep, DayStops, ValidInputs;
    if w' :| DayStep(cat, w, w', x) {
      SameAsItself(w);
      DayIsDetermined(cat, w, w', w, w', x);
    } else if forall end: Ending :: !DayStops(cat, w, x, end) {
      var w' := DayOnce(cat, w, x);
    }
  }
}
