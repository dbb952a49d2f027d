/** What a colony departure leaves behind: the food and coal a world keeps for itself, written out, and what is loaded
    above them. */
module KeptBack {
  import opened Units
  import opened Sums
  import opened Stock
  import opened Catalog
  import opened State
  import opened Loading
  import opened Freight
  import opened Departures
  import opened RoutePhase

  /** The coal a world's active generators burn in a full day. */
  function FullCoal(cat: Catalog, fs: seq<Facility>, p: nat): int {
    if fs == [] then 0
    else
      var f := fs[|fs| - 1];
      FullCoal(cat, fs[..|fs| - 1], p)
      + (if f.planet == p && f.life == Active && f.kind < |cat.facilities|
            && f.recipe < |cat.facilities[f.kind].recipes| && cat.facilities[f.kind].recipes[f.recipe].powerOutput > 0
            && cat.coal in cat.facilities[f.kind].recipes[f.recipe].inputs
         then cat.facilities[f.kind].recipes[f.recipe].inputs[cat.coal] else 0)
  }

  /** What a world keeps back of a resource: nothing where its reserve is waived, the authored floor where there is one,
      and otherwise three days of its people's food, three full days of its generators' coal, and nothing else. */
  ghost predicate KeepsBack(cat: Catalog, w: World, p: nat, r: nat, ratio: int, kept: int)
    requires p < |w.planets|
  {
    if r in w.route.waived then kept == 0
    else if r in w.route.floors then kept == w.route.floors[r]
    else if r == cat.food then
      exists daily ::
        IsFloor(daily, w.planets[p].population * cat.rules.foodPerResident * ratio, 10000) && kept == 3 * daily
    else if r == cat.coal then kept == 3 * FullCoal(cat, w.facilities, p)
    else kept == 0
  }

  lemma {:induction false} FullCoalIs(cat: Catalog, fs: seq<Facility>, p: nat)
    ensures FullCoal(cat, fs, p) == Sum(fs, CoalUse(cat, p))
  {
    if fs != [] {
      var n := |fs| - 1;
      FullCoalIs(cat, fs[..n], p);
      SumAppend(fs[..n], fs[n], CoalUse(cat, p));
      assert fs == fs[..n] + [fs[n]];
    } else {
      SumEmpty(CoalUse(cat, p));
    }
  }

  lemma KeepsBackIs(cat: Catalog, w: World, p: nat, r: nat, ratio: int)
    requires p < |w.planets|
    ensures KeepsBack(cat, w, p, r, ratio, ReserveFloor(cat, w.route, w.planets, w.facilities, p, r, ratio))
  {
    hide FloorOf, IsFloor, FullCoal, Sum;
    FullCoalIs(cat, w.facilities, p);
    FloorOfIsFloor(w.planets[p].population * cat.rules.foodPerResident, ratio, BP_ONE);
  }

  /** c is the volume of so much of a resource, rounded up to a whole unit of volume. */
  ghost predicate IsBulk(cat: Catalog, r: nat, q: int, c: int)
    requires r < |cat.volumePerUnit|
  {
    IsCeil(c, q * cat.volumePerUnit[r], 1000)
  }

  function Together(bulks: seq<int>): int {
    if bulks == [] then 0 else Together(bulks[..|bulks| - 1]) + bulks[|bulks| - 1]
  }

  /** v is the volume of a manifest's first k resources together. */
  ghost predicate IsVolume(cat: Catalog, cargo: ResourceMap, k: nat, v: int)
    requires k <= |cat.volumePerUnit|
  {
    exists bulks ::
      |bulks| == k && Together(bulks) == v && forall r: nat | r < k :: IsBulk(cat, r, Qty(cargo, r), bulks[r])
  }

  lemma {:induction false} CargoVolumeIs(cat: Catalog, cargo: ResourceMap, k: nat)
    requires k <= |cat.volumePerUnit| == cat.resources
    ensures IsVolume(cat, cargo, k, CargoVolume(cat, cargo, k))
  {
    hide CeilOf, IsBulk;
    if k > 0 {
      var r := k - 1;
      CargoVolumeIs(cat, cargo, r);
      var bulks :| |bulks| == r && Together(bulks) == CargoVolume(cat, cargo, r)
                   && forall i: nat | i < r :: IsBulk(cat, i, Qty(cargo, i), bulks[i]);
      var c := VolumeOf(cat.volumePerUnit[r], Qty(cargo, r));
      BulkIs(cat, r, Qty(cargo, r));
      NoVolumeOf(cat.volumePerUnit[r]);
      assert (bulks + [c])[..r] == bulks;
      assert Together(bulks + [c]) == CargoVolume(cat, cargo, k);
    } else {
      assert Together([]) == 0;
    }
  }

  lemma BulkIs(cat: Catalog, r: nat, q: int)
    requires r < |cat.volumePerUnit|
    ensures IsBulk(cat, r, q, VolumeOf(cat.volumePerUnit[r], q))
  {
    hide CeilOf;
    CeilOfIsCeil(q, cat.volumePerUnit[r], MILLI_ONE);
  }

  /** One more unit of a resource would fit what is left of the port's handling and of the hold. */
  predicate OneFits(perUnit: int, handling: int, hold: int) {
    perUnit <= 1000 * handling && perUnit <= 1000 * hold
  }

  /** One resource's part in a departure: what left the source is what the trip takes and what is aboard; nothing is
      loaded past the target, the excess over what is kept back or the room at the destination; and where hold and port
      could still take one more unit, all of that is loaded. */
  ghost predicate Loads(cat: Catalog, w: World, w': World, src: nat, dst: nat, targets: ResourceMap, ratio: int,
                        fuelIn: int, parts: int, r: nat)
    requires src < |w.planets| == |w'.planets| && dst < |w.planets| && src < |w.scratch| && src < |w'.scratch|
    requires r < |w.planets[src].stock.onHand| && r < |w'.planets[src].stock.onHand|
    requires r < |w.planets[dst].stock.onHand| && r < |cat.volumePerUnit|
  {
    var before, loaded := w.planets[src].stock.Available(r), Qty(w'.ship.cargo, r);
    var used := w.scratch[src].handlingLeft - w'.scratch[src].handlingLeft;
    && 0 <= loaded
    && w'.planets[src].stock.Available(r)
       == before - loaded - (if r == cat.fuel then fuelIn else 0) - (if r == cat.machinery then parts else 0)
    && exists kept ::
        && KeepsBack(cat, w, src, r, ratio, kept)
        && var most := Min(Min(Qty(targets, r), before - kept), w.planets[dst].stock.FreeSpace(r));
        && (loaded > 0 ==> loaded <= most)
        && (OneFits(cat.volumePerUnit[r], w'.scratch[src].handlingLeft, cat.freight.cargoCapacity - used)
            && most <= INT64_MAX / 2
            ==> loaded == Max(0, most))
  }

  /** A unit more of a resource adds at most one unit's volume, rounded up. */
  lemma OneMore(perUnit: int, q: int, spare: int)
    requires perUnit <= 1000 * spare
    ensures VolumeOf(perUnit, q + 1) <= VolumeOf(perUnit, q) + spare
  {
    hide CeilOf;
    var v := VolumeOf(perUnit, q);
    CeilAtMost(q, perUnit, MILLI_ONE, v);
    CeilAtMost(q + 1, perUnit, MILLI_ONE, v + spare);
  }

  lemma {:induction false} BudgetsShrink(cat: Catalog, limits: ResourceMap, volume: int, handling: int, r: nat, k: nat)
    requires 0 <= volume && 0 <= handling && forall i | 0 <= i < |cat.volumePerUnit| :: 0 <= cat.volumePerUnit[i]
    requires r <= k
    ensures Greedy(cat, limits, volume, handling, k).volume <= Greedy(cat, limits, volume, handling, r).volume
    ensures Greedy(cat, limits, volume, handling, k).handling <= Greedy(cat, limits, volume, handling, r).handling
    decreases k - r
  {
    hide VolumeOf, QuantityForVolume, Takes;
    if r < k {
      BudgetsShrink(cat, limits, volume, handling, r, k - 1);
      var l := Greedy(cat, limits, volume, handling, k - 1);
      if k - 1 in limits && Takes(cat.Volume(k - 1), limits[k - 1], l) > 0 {
        VolumeIsNat(cat.Volume(k - 1), Takes(cat.Volume(k - 1), limits[k - 1], l));
      }
    }
  }

  lemma VolumeIsNat(perUnit: int, q: int)
    requires 0 <= perUnit && 0 <= q
    ensures 0 <= VolumeOf(perUnit, q)
  {
    hide CeilOf;
    CeilAtMost(q, perUnit, MILLI_ONE, -1);
    assert q * perUnit >= 0;
  }

  /** Where one more unit would still fit once everything is aboard, nothing stopped the load short of its limit. */
  lemma AmpleRoom(cat: Catalog, limits: ResourceMap, volume: int, handling: int, k: nat, r: nat)
    requires 0 <= volume && 0 <= handling && forall i | 0 <= i < |cat.volumePerUnit| :: 0 <= cat.volumePerUnit[i]
    requires r < k && r in limits && limits[r] <= INT64_MAX / 2
    requires var l := Greedy(cat, limits, volume, handling, k);
             cat.Volume(r) <= 1000 * l.volume && cat.Volume(r) <= 1000 * l.handling
    ensures Qty(Greedy(cat, limits, volume, handling, k).goods, r) == Max(0, limits[r])
  {
    hide VolumeOf, QuantityForVolume, Takes;
    var l, end := Greedy(cat, limits, volume, handling, r), Greedy(cat, limits, volume, handling, k);
    var loaded := Qty(end.goods, r);
    if limits[r] > 0 {
      GreedyIsTight(cat, limits, volume, handling, k, r);
      BudgetsShrink(cat, limits, volume, handling, r + 1, k);
      GreedyKeeps(cat, limits, volume, handling, r, k);
      GreedyBelow(cat, limits, volume, handling, r);
      NoVolumeOf(cat.Volume(r));
      OneMore(cat.Volume(r), loaded, end.volume);
      OneMore(cat.Volume(r), loaded, end.handling);
    } else {
      GreedyFits(cat, limits, volume, handling, k);
    }
  }

  lemma NoVolumeOf(perUnit: int)
    ensures VolumeOf(perUnit, 0) == 0
  {
  }

  /** A whole departure, resource by resource; and its volume is what it used of the hold and of the port's day. */
  ghost predicate LoadsWell(cat: Catalog, w: World, w': World, src: nat, dst: nat, targets: ResourceMap, ratio: int,
                            fuelIn: int, parts: int) {
    && src < |w.planets| == |w'.planets| && dst < |w.planets| && src < |w.scratch| == |w'.scratch|
    && |w.planets[src].stock.onHand| == |w'.planets[src].stock.onHand| == |w.planets[dst].stock.onHand|
       == |cat.volumePerUnit| == cat.resources
    && (forall r: nat | r < cat.resources :: Loads(cat, w, w', src, dst, targets, ratio, fuelIn, parts, r))
    && var used := w.scratch[src].handlingLeft - w'.scratch[src].handlingLeft;
    && IsVolume(cat, w'.ship.cargo, cat.resources, used)
    && 0 <= w'.scratch[src].handlingLeft && used <= cat.freight.cargoCapacity
    && w'.scratch == w.scratch[src := w.scratch[src].(handlingLeft := w'.scratch[src].handlingLeft)]
  }

  ghost function Planned(cat: Catalog, w: World, src: nat, dst: nat, targets: ResourceMap, ratio: int): ResourceMap
    requires src < |w.planets| && dst < |w.planets|
  {
    LoadLimits(cat, w.route, w.planets, w.facilities, src, dst, targets, ratio)
  }

  /** A resource's limit is its share of the plan, where that is more than nothing. */
  lemma LimitIs(cat: Catalog, w: World, src: nat, dst: nat, targets: ResourceMap, ratio: int, r: nat)
    requires src < |w.planets| && dst < |w.planets|
    requires r < |w.planets[src].stock.onHand| && r < |w.planets[dst].stock.onHand|
    ensures var limits := Planned(cat, w, src, dst, targets, ratio);
            var kept := ReserveFloor(cat, w.route, w.planets, w.facilities, src, r, ratio);
            var most := Min(Min(Qty(targets, r), w.planets[src].stock.Available(r) - kept),
                            w.planets[dst].stock.FreeSpace(r));
            if r in limits then limits[r] == most else most <= 0
  {
    hide ReserveFloor, Inventory.Available, Inventory.FreeSpace;
  }

  lemma LegLoads(cat: Catalog, w: World, w': World, src: nat, dst: nat, targets: ResourceMap, ratio: int, load: Load,
                 fuelIn: int, parts: int, burn: int, leftover: int)
    requires ValidCatalog(cat) && StockOk(w.planets, cat.resources)
    requires LegStep(cat, w, w', src, dst, load, fuelIn, parts, burn, leftover) && src != dst
    requires 0 <= w.scratch[src].handlingLeft
    requires load == Greedy(cat, Planned(cat, w, src, dst, targets, ratio), cat.freight.cargoCapacity,
                            w.scratch[src].handlingLeft, cat.resources)
    ensures LoadsWell(cat, w, w', src, dst, targets, ratio, fuelIn, parts)
  {
    hide Sum, LedgerOk, LegPosted, ValidFacility, ValidExpedition, ValidMandate, ValidRules, Planned, Greedy, Loads,
         IsVolume, Inventory.FreeSpace, Inventory.Available, Debited;
    var limits := Planned(cat, w, src, dst, targets, ratio);
    GreedyFits(cat, limits, cat.freight.cargoCapacity, w.scratch[src].handlingLeft, cat.resources);
    CargoVolumeIs(cat, load.goods, cat.resources);
    assert w.planets[src].stock.Sound(cat.resources) && w.planets[dst].stock.Sound(cat.resources);
    forall r: nat | r < cat.resources
      ensures |w'.planets[src].stock.onHand| == cat.resources
      ensures Loads(cat, w, w', src, dst, targets, ratio, fuelIn, parts, r)
    {
      SourceGave(cat, w, w', src, dst, load.goods, fuelIn, parts, r);
      KeepsBackIs(cat, w, src, r, ratio);
      LimitIs(cat, w, src, dst, targets, ratio, r);
      LoadsOne(cat, w, w', src, dst, targets, ratio, load, fuelIn, parts, r);
    }
    WidthKept(cat, w, w', src, dst, load.goods, fuelIn, parts);
  }

  lemma WidthKept(cat: Catalog, w: World, w': World, src: nat, dst: nat, goods: ResourceMap, fuelIn: int, parts: int)
    requires src < |w.planets| && dst < |w.planets| && src != dst
    requires Shipped(w.planets, w'.planets, src, dst, Total(cat, goods, fuelIn, parts), goods, w.nextId, cat.resources)
    ensures |w'.planets| == |w.planets| && |w'.planets[src].stock.onHand| == |w.planets[src].stock.onHand|
  {
    hide Total;
    var after := WithClaims(w'.planets, dst, w.planets[dst].stock.claims);
    assert OnlyStock(w.planets[src], after[src]);
  }

  lemma SourceGave(cat: Catalog, w: World, w': World, src: nat, dst: nat, goods: ResourceMap, fuelIn: int, parts: int,
                   r: nat)
    requires src < |w.planets| && dst < |w.planets| && src != dst && cat.fuel != cat.machinery
    requires Shipped(w.planets, w'.planets, src, dst, Total(cat, goods, fuelIn, parts), goods, w.nextId, cat.resources)
    requires r < |w.planets[src].stock.onHand|
    ensures |w'.planets| == |w.planets| && |w'.planets[src].stock.onHand| == |w.planets[src].stock.onHand|
    ensures w'.planets[src].stock.Available(r) == w.planets[src].stock.Available(r) - Qty(goods, r)
            - (if r == cat.fuel then fuelIn else 0) - (if r == cat.machinery then parts else 0)
  {
    hide Total;
    var after := WithClaims(w'.planets, dst, w.planets[dst].stock.claims);
    var total := Total(cat, goods, fuelIn, parts);
    TotalQty(cat, goods, fuelIn, parts, r);
    assert OnlyStock(w.planets[src], after[src]) && after[src] == w'.planets[src];
    assert OnHand(after, src, r) == OnHand(w.planets, src, r) - Qty(total, r);
  }

  lemma LoadsOne(cat: Catalog, w: World, w': World, src: nat, dst: nat, targets: ResourceMap, ratio: int, load: Load,
                 fuelIn: int, parts: int, r: nat)
    requires src < |w.planets| == |w'.planets| && dst < |w.planets| && src < |w.scratch| && src < |w'.scratch|
    requires r < |w.planets[src].stock.onHand| && r < |w'.planets[src].stock.onHand|
    requires r < |w.planets[dst].stock.onHand| && r < |cat.volumePerUnit| && r < cat.resources
    requires 0 <= cat.freight.cargoCapacity && 0 <= w.scratch[src].handlingLeft
             && forall i | 0 <= i < |cat.volumePerUnit| :: 0 <= cat.volumePerUnit[i]
    requires load == Greedy(cat, Planned(cat, w, src, dst, targets, ratio), cat.freight.cargoCapacity,
                            w.scratch[src].handlingLeft, cat.resources)
    requires LoadOk(cat, Planned(cat, w, src, dst, targets, ratio), cat.freight.cargoCapacity,
                    w.scratch[src].handlingLeft, cat.resources, load)
    requires w'.ship.cargo == load.goods && w'.scratch[src].handlingLeft == load.handling
    requires w'.planets[src].stock.Available(r) == w.planets[src].stock.Available(r) - Qty(load.goods, r)
             - (if r == cat.fuel then fuelIn else 0) - (if r == cat.machinery then parts else 0)
    ensures Loads(cat, w, w', src, dst, targets, ratio, fuelIn, parts, r)
  {
    hide ReserveFloor, KeepsBack, Inventory.Available, Inventory.FreeSpace, Greedy, Planned, CargoVolume;
    KeepsBackIs(cat, w, src, r, ratio);
    LimitIs(cat, w, src, dst, targets, ratio, r);
    var limits := Planned(cat, w, src, dst, targets, ratio);
    if r in limits && limits[r] <= INT64_MAX / 2 && OneFits(cat.Volume(r), load.handling, load.volume) {
      AmpleRoom(cat, limits, cat.freight.cargoCapacity, w.scratch[src].handlingLeft, cat.resources, r);
    }
  }

  /** An outbound departure leaves each resource as it should, and loads all it may where there is room. */
  lemma OutboundLoadsWell(cat: Catalog, w: World, w': World, ratio: int, d: int, d': int)
    requires InvAt(cat, w, d, d') && OutboundStep(cat, w, w', ratio)
    requires 0 <= w.scratch[cat.freight.origin].handlingLeft
    ensures var f := cat.freight;
            LoadsWell(cat, w, w', f.origin, f.destination, w.route.outbound, ratio, f.roundTripFuel,
                      f.roundTripMachinery)
  {
    hide LegStep, Greedy, LoadsWell, LoadLimits;
    StoresAreSound(cat, w, d, d');
    LegLoads(cat, w, w', cat.freight.origin, cat.freight.destination, w.route.outbound, ratio, OutLoad(cat, w, ratio),
             cat.freight.roundTripFuel, cat.freight.roundTripMachinery, cat.freight.outboundBurn,
             w.books.leftover + cat.freight.roundTripFuel - cat.freight.outboundBurn - cat.freight.returnBurn);
  }

  lemma StoresAreSound(cat: Catalog, w: World, d: int, d': int)
    requires InvAt(cat, w, d, d')
    ensures ValidCatalog(cat) && StockOk(w.planets, cat.resources) && cat.freight.origin != cat.freight.destination
  {
    hide Sum, WorkforceOk, FreighterOk, BalancesOk, ColonyOk, PeopleOk, LedgerOk, PlanetsBalance;
  }

  /** So does a departure for home, which takes nothing for the trip. */
  lemma HomeboundLoadsWell(cat: Catalog, w: World, w': World, ratio: int, d: int, d': int)
    requires InvAt(cat, w, d, d') && MayReturn(cat, w) && ReturnStep(cat, w, w', ratio)
    requires 0 <= w.scratch[cat.freight.destination].handlingLeft
    ensures LoadsWell(cat, w, w', cat.freight.destination, cat.freight.origin, w.route.homebound, ratio, 0, 0)
  {
    hide LegStep, Greedy, LoadsWell, LoadLimits, ReturnOutcome;
    StoresAreSound(cat, w, d, d');
    LegLoads(cat, w, w', cat.freight.destination, cat.freight.origin, w.route.homebound, ratio, BackLoad(cat, w, ratio),
             0, 0, cat.freight.returnBurn, w.books.leftover);
  }

  /** Where neither is waived or authored, three days' food and three full days' coal stay behind, or all there was. */
  lemma FoodAndCoalStay(cat: Catalog, w: World, w': World, src: nat, dst: nat, targets: ResourceMap, ratio: int,
                        fuelIn: int, parts: int)
    requires LoadsWell(cat, w, w', src, dst, targets, ratio, fuelIn, parts) && cat.fuel != cat.food
             && cat.machinery != cat.food && cat.fuel != cat.coal && cat.machinery != cat.coal
    ensures cat.food < cat.resources && cat.food !in w.route.waived + w.route.floors.Keys ==>
              exists daily ::
                && IsFloor(daily, w.planets[src].population * cat.rules.foodPerResident * ratio, 10000)
                && w'.planets[src].stock.Available(cat.food) >= Min(w.planets[src].stock.Available(cat.food), 3 * daily)
    ensures cat.coal < cat.resources && cat.coal != cat.food && cat.coal !in w.route.waived + w.route.floors.Keys ==>
              w'.planets[src].stock.Available(cat.coal)
              >= Min(w.planets[src].stock.Available(cat.coal), 3 * FullCoal(cat, w.facilities, src))
  {
    hide IsFloor, IsVolume, FullCoal, Inventory.Available, Inventory.FreeSpace;
    if cat.food < cat.resources && cat.food !in w.route.waived + w.route.floors.Keys {
      assert Loads(cat, w, w', src, dst, targets, ratio, fuelIn, parts, cat.food);
    }
    if cat.coal < cat.resources && cat.coal != cat.food && cat.coal !in w.route.waived + w.route.floors.Keys {
      assert Loads(cat, w, w', src, dst, targets, ratio, fuelIn, parts, cat.coal);
    }
  }
}
