/** When a colony departure raises an error part-way through its commit, and what the tank can hold. */
module Faults {
  import opened Units
  import opened Sums
  import opened Stock
  import opened Catalog
  import opened State
  import opened Loading
  import opened Freight
  import opened Departures
  import opened RoutePhase

  /** No reserve floor in force on the world is below zero. */
  ghost predicate FloorsNat(cat: Catalog, route: Route, planets: seq<Planet>, fs: seq<Facility>, p: nat, ratio: int)
    requires p < |planets|
  {
    forall r: nat :: 0 <= ReserveFloor(cat, route, planets, fs, p, r, ratio)
  }

  /** The default floors are never negative, so only an authored floor can be. */
  lemma OnlyAuthoredFloorsAreNegative(cat: Catalog, route: Route, planets: seq<Planet>, fs: seq<Facility>, p: nat,
                                      ratio: int)
    requires ValidCatalog(cat) && p < |planets| && 0 <= planets[p].population && 0 <= ratio
    ensures FloorsNat(cat, route, planets, fs, p, ratio) <==> forall r | r in route.floors && r !in route.waived ::
            0 <= route.floors[r]
  {
    hide FloorOf, ValidFreight, ValidExpedition, ValidMandate;
    assert 0 <= FoodDemand(cat, planets[p], ratio) by {
      assert 0 <= planets[p].population * cat.rules.foodPerResident;
      FloorOfNat(planets[p].population * cat.rules.foodPerResident, ratio, BP_ONE);
    }
    forall i | 0 <= i < |fs| ensures 0 <= CoalUse(cat, p)(fs[i]) {
      var f := fs[i];
      if f.kind < |cat.facilities| && f.recipe < |cat.facilities[f.kind].recipes| {
        assert ValidFacility(cat, cat.facilities[f.kind]);
        assert ValidRecipe(cat, cat.facilities[f.kind].recipes[f.recipe]);
      }
    }
    SumNonNegative(fs, CoalUse(cat, p));
    if forall r | r in route.floors && r !in route.waived :: 0 <= route.floors[r] {
      forall r: nat ensures 0 <= ReserveFloor(cat, route, planets, fs, p, r, ratio) {
      }
    } else {
      var r :| r in route.floors && r !in route.waived && 0 > route.floors[r];
      assert ReserveFloor(cat, route, planets, fs, p, r, ratio) < 0;
    }
  }

  // ----- what a plan loads of one resource -----

  /** So much of a resource still fits the hold and the port once those before it have been considered. */
  predicate FitsLeft(perUnit: int, q: int, l: Load) {
    q <= QuantityForVolume(perUnit, l.volume) && q <= QuantityForVolume(perUnit, l.handling)
  }

  /** At least so much of a resource is loaded exactly when it is asked for, spared by its floor, welcome at
      the destination and fits what hold and port have left when its turn comes. */
  lemma LoadsAtLeast(cat: Catalog, limits: ResourceMap, volume: int, handling: int, r: nat, q: int)
    requires r < cat.resources && 0 < q
    ensures q <= Qty(Greedy(cat, limits, volume, handling, cat.resources).goods, r)
            <==> r in limits && q <= limits[r] && FitsLeft(cat.Volume(r), q, Greedy(cat, limits, volume, handling, r))
  {
    hide VolumeOf, QuantityForVolume;
    GreedyKeeps(cat, limits, volume, handling, r, cat.resources);
    GreedyBelow(cat, limits, volume, handling, r);
  }

  /** What the trip itself takes of a resource at home, apart from the manifest. */
  function TripNeed(cat: Catalog, r: nat): int {
    if r == cat.fuel then cat.freight.roundTripFuel else if r == cat.machinery then cat.freight.roundTripMachinery
       else 0
  }

  /** The plan can take more of a resource than a trip that needs some of it leaves: its reserve floor keeps
      back less than the trip takes, and one unit more than what the trip leaves is asked for, welcome at the
      destination, and fits what hold and port have left for it. */
  ghost predicate Overdrawn(cat: Catalog, route: Route, planets: seq<Planet>, fs: seq<Facility>, src: nat, dst: nat,
                            targets: ResourceMap,
                            ratio: int, volume: int, handling: int, r: nat, need: int)
    requires src < |planets| && dst < |planets|
  {
    && r in targets && r < |planets[src].stock.onHand| && r < |planets[dst].stock.onHand|
    && ReserveFloor(cat, route, planets, fs, src, r, ratio) < need
    && var q := planets[src].stock.Available(r) - need + 1;
       && q <= targets[r] && q <= planets[dst].stock.FreeSpace(r)
       && FitsLeft(cat.Volume(r), q, Greedy(cat, LoadLimits(cat, route, planets, fs, src, dst, targets, ratio), volume,
           handling, r))
  }

  lemma OverdrawnIs(cat: Catalog, route: Route, planets: seq<Planet>, fs: seq<Facility>, src: nat, dst: nat,
                    targets: ResourceMap,
                    ratio: int, volume: int, handling: int, r: nat, need: int)
    requires src < |planets| && dst < |planets| && r < cat.resources == |planets[src].stock.onHand|
             == |planets[dst].stock.onHand|
    requires need <= planets[src].stock.Available(r)
    ensures var goods := Greedy(cat, LoadLimits(cat, route, planets, fs, src, dst, targets, ratio), volume, handling,
            cat.resources).goods;
            Overdrawn(cat, route, planets, fs, src, dst, targets, ratio, volume, handling, r, need)
            <==> Qty(goods, r) + need > planets[src].stock.Available(r)
  {
    hide Sum, Greedy, FitsLeft, ReserveFloor;
    LoadsAtLeast(cat, LoadLimits(cat, route, planets, fs, src, dst, targets, ratio), volume, handling, r,
                 planets[src].stock.Available(r) - need + 1);
  }

  // ----- departures that fail in their commit -----

  ghost predicate OutOverdrawn(cat: Catalog, w: World, ratio: int, r: nat)
    requires MaySail(cat, w)
  {
    var f := cat.freight;
    Overdrawn(cat, w.route, w.planets, w.facilities, f.origin, f.destination, w.route.outbound, ratio, f.cargoCapacity,
              w.scratch[f.origin].handlingLeft, r, TripNeed(cat, r))
  }

  /** A departure that may sail fails exactly when some resource's floor keeps back less than the trip itself
      takes of it (nothing, but for fuel and machinery), and targets, space, hold and port let the manifest
      have what the trip needs. */
  lemma FaultsExactly(cat: Catalog, w: World, allowEmpty: bool, ratio: int)
    requires ValidCatalog(cat) && StockOk(w.planets, cat.resources) && MaySail(cat, w)
    ensures OutcomeOf(cat, w, allowEmpty, ratio).Faulted?
            <==> exists r: nat :: r < cat.resources && OutOverdrawn(cat, w, ratio, r)
  {
    hide Sum, Greedy, LoadLimits, Overdrawn, ValidFacility, ValidExpedition, ValidMandate, ValidRules, HasPort;
    var f := cat.freight;
    var goods, stock := OutLoad(cat, w, ratio).goods, w.planets[f.origin].stock;
    var total := Total(cat, goods, f.roundTripFuel, f.roundTripMachinery);
    assert stock.Sound(cat.resources) && w.planets[f.destination].stock.Sound(cat.resources);
    forall r: nat | r < cat.resources
      ensures Qty(total, r) == Qty(goods, r) + TripNeed(cat, r)
      ensures OutOverdrawn(cat, w, ratio, r) <==> Qty(total, r) > stock.Available(r)
    {
      TotalQty(cat, goods, f.roundTripFuel, f.roundTripMachinery, r);
      OverdrawnIs(cat, w.route, w.planets, w.facilities, f.origin, f.destination, w.route.outbound, ratio,
          f.cargoCapacity,
                  w.scratch[f.origin].handlingLeft, r, TripNeed(cat, r));
    }
    if r: nat :| r < cat.resources && OutOverdrawn(cat, w, ratio, r) {
      assert Qty(goods, r) > 0;
    }
  }

  /** So a plan that keeps back at least what the trip takes of everything it asks for never fails. */
  lemma KeptBackNeverFaults(cat: Catalog, w: World, allowEmpty: bool, ratio: int)
    requires ValidCatalog(cat) && StockOk(w.planets, cat.resources) && MaySail(cat, w)
    requires forall r | r in w.route.outbound ::
             TripNeed(cat, r) <= ReserveFloor(cat, w.route, w.planets, w.facilities, cat.freight.origin, r, ratio)
    ensures !OutcomeOf(cat, w, allowEmpty, ratio).Faulted?
  {
    hide Sum, ReserveFloor, Greedy, LoadLimits, HasPort, OutcomeOf, ValidCatalog, StockOk, FitsLeft;
    FaultsExactly(cat, w, allowEmpty, ratio);
  }

  ghost predicate BackOverdrawn(cat: Catalog, w: World, ratio: int, r: nat)
    requires MayReturn(cat, w)
  {
    var f := cat.freight;
    Overdrawn(cat, w.route, w.planets, w.facilities, f.destination, f.origin, w.route.homebound, ratio, f.cargoCapacity,
              w.scratch[f.destination].handlingLeft, r, 0)
  }

  /** The return leg takes nothing but its goods, so it fails exactly when a floor below zero lets the
      manifest have more than there is. */
  lemma ReturnFaultsExactly(cat: Catalog, w: World, ratio: int)
    requires ValidCatalog(cat) && StockOk(w.planets, cat.resources) && MayReturn(cat, w)
    ensures ReturnOutcome(cat, w, ratio).Faulted?
            <==> exists r: nat :: r < cat.resources && BackOverdrawn(cat, w, ratio, r)
  {
    hide Sum, Greedy, LoadLimits, Overdrawn, ValidFacility, ValidExpedition, ValidMandate, ValidRules;
    var f := cat.freight;
    var goods, stock := BackLoad(cat, w, ratio).goods, w.planets[f.destination].stock;
    assert stock.Sound(cat.resources) && w.planets[f.origin].stock.Sound(cat.resources);
    forall r: nat | r < cat.resources
      ensures Qty(Total(cat, goods, 0, 0), r) == Qty(goods, r)
      ensures BackOverdrawn(cat, w, ratio, r) <==> Qty(Total(cat, goods, 0, 0), r) > stock.Available(r)
    {
      TotalQty(cat, goods, 0, 0, r);
      OverdrawnIs(cat, w.route, w.planets, w.facilities, f.destination, f.origin, w.route.homebound, ratio,
          f.cargoCapacity,
                  w.scratch[f.destination].handlingLeft, r, 0);
    }
  }

  lemma NatFloorsNeverFaultReturns(cat: Catalog, w: World, ratio: int)
    requires ValidCatalog(cat) && StockOk(w.planets, cat.resources) && MayReturn(cat, w)
    requires FloorsNat(cat, w.route, w.planets, w.facilities, cat.freight.destination, ratio)
    ensures !ReturnOutcome(cat, w, ratio).Faulted?
  {
    hide Sum, ReserveFloor, Greedy, LoadLimits, ReturnOutcome, ValidCatalog, StockOk, FitsLeft;
    ReturnFaultsExactly(cat, w, ratio);
  }

  // ----- the tank -----

  /** When the two burns use up a round trip's fuel, the tank is empty at home, holds exactly the return
      burn while that leg is ahead, and never exceeds its capacity, not even while it is being filled. */
  lemma TankFits(cat: Catalog, w: World)
    requires Inv(cat, w) && cat.freight.outboundBurn + cat.freight.returnBurn == cat.freight.roundTripFuel
    ensures w.ship.location == Some(cat.freight.origin) ==> w.ship.tank == 0
    ensures 0 <= w.ship.tank <= cat.freight.tankCapacity
    ensures w.ship.location == Some(cat.freight.origin) ==>
            w.ship.tank + cat.freight.roundTripFuel <= cat.freight.tankCapacity
  {
    hide WorkforceOk, BalancesOk, ColonyOk, PeopleOk, StockOk, LedgerOk, PlanetsBalance, DemandOk, ClaimsOk, BookedOk,
         ShippedOk, ValidFacility, ValidExpedition, ValidMandate, ValidRules;
  }
}
