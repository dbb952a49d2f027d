/** Loading and departing the freighter: the colony route outbound and homebound. */
module Departures {
  import opened Units
  import opened Sums
  import opened Stock
  import opened Ledger
  import opened Catalog
  import opened State
  import opened Support
  import opened Loading
  import opened Freight

  // ----- what may be loaded -----

  function FoodDemand(cat: Catalog, planet: Planet, ratio: int): int {
    FloorOf(planet.population * cat.rules.foodPerResident, ratio, BP_ONE)
  }

  function CoalUse(cat: Catalog, p: nat): Facility -> int {
    (f: Facility) =>
      if f.planet == p && f.life.Active? && f.kind < |cat.facilities| && f.recipe < |cat.facilities[f.kind].recipes|
         && cat.facilities[f.kind].recipes[f.recipe].IsGenerator()
      then Qty(cat.facilities[f.kind].recipes[f.recipe].inputs, cat.coal) else 0
  }

  /** Three days of civilian food, three days of generator coal, nothing else. */
  function DefaultFloor(cat: Catalog, planets: seq<Planet>, fs: seq<Facility>, p: nat, r: nat, ratio: int): int
    requires p < |planets|
  {
    if r == cat.food then 3 * FoodDemand(cat, planets[p], ratio)
    else if r == cat.coal then 3 * Sum(fs, CoalUse(cat, p))
    else 0
  }

  function ReserveFloor(cat: Catalog, route: Route, planets: seq<Planet>, fs: seq<Facility>, p: nat, r: nat,
                        ratio: int): int
    requires p < |planets|
  {
    if r in route.waived then 0
    else if r in route.floors then route.floors[r]
    else DefaultFloor(cat, planets, fs, p, r, ratio)
  }

  /** Stock above the reserve floor. A floor below zero counts more than there is. */
  function Spare(cat: Catalog, route: Route, planets: seq<Planet>, fs: seq<Facility>, p: nat, r: nat, ratio: int): int
    requires p < |planets| && r < |planets[p].stock.onHand|
  {
    planets[p].stock.Available(r) - ReserveFloor(cat, route, planets, fs, p, r, ratio)
  }

  function TargetLimit(cat: Catalog, route: Route, planets: seq<Planet>, fs: seq<Facility>, src: nat, dst: nat,
                       target: int, r: nat, ratio: int): int
    requires src < |planets| && dst < |planets| && r < |planets[src].stock.onHand| && r < |planets[dst].stock.onHand|
  {
    Min(Min(target, Spare(cat, route, planets, fs, src, r, ratio)), planets[dst].stock.FreeSpace(r))
  }

  /** For each targeted resource, the most the source can spare and the destination has room for. */
  ghost function LoadLimits(cat: Catalog, route: Route, planets: seq<Planet>, fs: seq<Facility>, src: nat, dst: nat,
                            targets: ResourceMap, ratio: int): ResourceMap
    requires src < |planets| && dst < |planets|
  {
    map r | r in targets && r < |planets[src].stock.onHand| && r < |planets[dst].stock.onHand| && targets[r] > 0
            && Spare(cat, route, planets, fs, src, r, ratio) > 0
      :: TargetLimit(cat, route, planets, fs, src, dst, targets[r], r, ratio)
  }

  method GeneratorCoal(cat: Catalog, fs: seq<Facility>, p: nat) returns (perDay: int)
    ensures perDay == Sum(fs, CoalUse(cat, p))
  {
    perDay := 0;
    for i := 0 to |fs|
      invariant perDay == Sum(fs[..i], CoalUse(cat, p))
    {
      SumAppend(fs[..i], fs[i], CoalUse(cat, p));
      assert fs[..i + 1] == fs[..i] + [fs[i]];
      perDay := perDay + CoalUse(cat, p)(fs[i]);
    }
    assert fs[..|fs|] == fs;
  }

  /** The loading plan: targets in ascending order, each as far as stock, room, hold and port allow. */
  method PlanLoad(cat: Catalog, route: Route, planets: seq<Planet>, fs: seq<Facility>, src: nat, dst: nat,
                  targets: ResourceMap, ratio: int, volume: int, handling: int) returns (load: Load)
    requires src < |planets| && dst < |planets| && |planets[src].stock.onHand| == |planets[dst].stock.onHand|
             == cat.resources
    ensures load == Greedy(cat, LoadLimits(cat, route, planets, fs, src, dst, targets, ratio), volume, handling,
            cat.resources)
  {
    hide Sum, FloorOf, VolumeOf, QuantityForVolume;
    ghost var limits := LoadLimits(cat, route, planets, fs, src, dst, targets, ratio);
    var coal := GeneratorCoal(cat, fs, src);
    load := Load(map[], volume, handling);
    for r := 0 to cat.resources
      invariant load == Greedy(cat, limits, volume, handling, r)
    {
      if r in targets && targets[r] > 0 {
        var floor :=
          if r in route.waived then 0
          else if r in route.floors then route.floors[r]
          else if r == cat.food then 3 * FoodDemand(cat, planets[src], ratio)
          else if r == cat.coal then 3 * coal
          else 0;
        var spare := planets[src].stock.Available(r) - floor;
        assert spare == Spare(cat, route, planets, fs, src, r, ratio);
        if spare > 0 {
          var want := Min(Min(targets[r], spare), planets[dst].stock.FreeSpace(r));
          load := LoadOne(cat.Volume(r), r, want, load);
        }
      }
    }
  }

  // ----- loading -----

  lemma WithClaimsDebited(a: seq<Planet>, b: seq<Planet>, src: nat, dst: nat, m: ResourceMap, claims: seq<Claim>)
    requires Debited(a, b, src, m) && dst < |a|
    ensures Debited(WithClaims(a, dst, claims), WithClaims(b, dst, claims), src, m)
  {
    var a', b' := WithClaims(a, dst, claims), WithClaims(b, dst, claims);
    forall q | 0 <= q < |a'| ensures OnlyStock(a'[q], b'[q]) {
      assert OnlyStock(a[q], b[q]);
    }
    forall q: nat, r: nat ensures OnHand(b', q, r) == OnHand(a', q, r) - (if q == src then Qty(m, r) else 0) {
      assert OnHand(b, q, r) == OnHand(a, q, r) - (if q == src then Qty(m, r) else 0);
      assert OnHand(b', q, r) == OnHand(b, q, r) && OnHand(a', q, r) == OnHand(a, q, r);
    }
  }

  /** Part-way through loading: goods below k have left the source and are promised at the destination. */
  ghost predicate LoadedUpto(base: seq<Planet>, planets: seq<Planet>, src: nat, dst: nat, goods: ResourceMap, id: nat,
                             k: nat)
    requires src < |base| && dst < |base|
  {
    && |planets| == |base|
    && planets[dst].stock.claims == base[dst].stock.claims + ClaimsFor(goods, id, k)
    && Debited(base, WithClaims(planets, dst, base[dst].stock.claims), src, Upto(goods, k))
  }

  lemma LoadedNext(base: seq<Planet>, was: seq<Planet>, mid: seq<Planet>, now: seq<Planet>, src: nat, dst: nat,
                   goods: ResourceMap, id: nat, r: nat)
    requires src < |base| && dst < |base| && LoadedUpto(base, was, src, dst, goods, id, r) && r in goods
    requires Debited(was, mid, src, Single(r, goods[r]))
    requires |mid| == |base|
             && now == WithClaims(mid, dst,
             mid[dst].stock.claims + [Claim(id + |ClaimsFor(goods, id, r)|, r, goods[r])])
    ensures LoadedUpto(base, now, src, dst, goods, id, r + 1)
  {
    hide OnHand;
    var c := base[dst].stock.claims;
    assert OnlyStock(was[dst], mid[dst]);
    WithClaimsDebited(was, mid, src, dst, Single(r, goods[r]), c);
    assert WithClaims(now, dst, c) == WithClaims(mid, dst, c);
    DebitedThen(base, WithClaims(was, dst, c), WithClaims(mid, dst, c), src, Upto(goods, r), Single(r, goods[r]),
        Upto(goods, r + 1));
    assert c + ClaimsFor(goods, id, r + 1) == (c + ClaimsFor(goods, id, r)) + [Claim(id + |ClaimsFor(goods, id, r)|, r,
           goods[r])];
  }

  lemma LoadedStart(base: seq<Planet>, src: nat, dst: nat, goods: ResourceMap, id: nat)
    requires src < |base| && dst < |base|
    ensures LoadedUpto(base, base, src, dst, goods, id, 0)
  {
    var c := base[dst].stock.claims;
    assert c + ClaimsFor(goods, id, 0) == c;
    NothingDebited(base, WithClaims(base, dst, c), src, Upto(goods, 0));
  }

  /** While loading, each resource still to come has all its stock at the source and all its room at
      the destination. */
  lemma LoadedLeavesTheRest(base: seq<Planet>, planets: seq<Planet>, src: nat, dst: nat, goods: ResourceMap, id: nat,
                            r: nat)
    requires src < |base| && dst < |base| && src != dst && LoadedUpto(base, planets, src, dst, goods, id, r)
    requires r < |base[src].stock.onHand| && r < |base[dst].stock.onHand|
    ensures r < |planets[src].stock.onHand| && r < |planets[dst].stock.onHand|
    ensures planets[src].stock.Available(r) == base[src].stock.Available(r)
    ensures planets[dst].stock.FreeSpace(r) == base[dst].stock.FreeSpace(r)
  {
    var undone := WithClaims(planets, dst, base[dst].stock.claims);
    assert OnlyStock(base[src], undone[src]) && OnlyStock(base[dst], undone[dst]);
    assert OnHand(undone, src, r) == OnHand(base, src, r) && OnHand(undone, dst, r) == OnHand(base, dst, r);
    SumConcat(base[dst].stock.claims, ClaimsFor(goods, id, r), ClaimedFor(r));
    ClaimsMatchCargo(goods, id, r, r);
  }

  /** Loads one resource and books its space. */
  method LoadNext(s: Session, src: nat, dst: nat, goods: ResourceMap, r: nat, ghost base: seq<Planet>,
                  ghost moves: seq<Move>, ghost id: nat)
    requires s.Stores() && src < |s.planets| == |base| && dst < |s.planets| && src != dst && r in goods
             && r < s.cat.resources
    requires 0 < goods[r] && |base[src].stock.onHand| == s.cat.resources && goods[r] <= base[src].stock.Available(r)
    requires |base[dst].stock.onHand| == s.cat.resources && goods[r] <= base[dst].stock.FreeSpace(r)
    requires LoadedUpto(base, s.planets, src, dst, goods, id, r)
    requires Posted(moves, s.recorded, PlanetStock(src), ShipHold, Upto(goods, r))
    requires s.nextId == id + |ClaimsFor(goods, id, r)|
    modifies s`planets, s`nextId, s`ledger, s`recorded
    ensures s.Stores() && |s.planets| == |base|
    ensures LoadedUpto(base, s.planets, src, dst, goods, id, r + 1)
    ensures Posted(moves, s.recorded, PlanetStock(src), ShipHold, Upto(goods, r + 1))
    ensures s.nextId == old(s.nextId) + 1
  {
    hide Sum, Net, ValidCatalog, LedgerOk, PlanetsBalance, StockOk, Posted, OnHand, LoadedUpto, Debited;
    LoadedLeavesTheRest(base, s.planets, src, dst, goods, id, r);
    ghost var was, entries := s.planets, s.recorded;
    var _ := RemoveStock(s, src, r, goods[r], ShipHold);
    ghost var mid := s.planets;
    StillRoom(was, mid, src, dst, r, goods[r]);
    var claim := ClaimSpace(s, dst, r, goods[r]);
    LoadedNext(base, was, mid, s.planets, src, dst, goods, id, r);
    PostedThen(moves, entries, s.recorded, PlanetStock(src), ShipHold, Upto(goods, r), Single(r, goods[r]),
        Upto(goods, r + 1));
  }

  /** Loads the planned goods and books space for them, resource by resource. */
  method LoadAll(s: Session, src: nat, dst: nat, goods: ResourceMap)
    requires s.Stores() && src < |s.planets| && dst < |s.planets| && src != dst && s.ship.cargo == map[]
    requires Positive(goods, s.cat.resources) && Affords(s.planets[src].stock, goods, s.cat.resources)
    requires |s.planets[dst].stock.onHand| == s.cat.resources
    requires forall r | r in goods :: goods[r] <= s.planets[dst].stock.FreeSpace(r)
    modifies s`planets, s`ship, s`nextId, s`ledger, s`recorded
    ensures s.Stores() && |s.planets| == |old(s.planets)|
    ensures LoadedUpto(old(s.planets), s.planets, src, dst, goods, old(s.nextId), s.cat.resources)
    ensures Posted(old(s.recorded), s.recorded, PlanetStock(src), ShipHold, goods)
    ensures s.nextId == old(s.nextId) + |ClaimsFor(goods, old(s.nextId), s.cat.resources)|
    ensures s.ship == old(s.ship).(cargo := goods,
            bookings := old(s.ship.bookings) + IdsOf(ClaimsFor(goods, old(s.nextId), s.cat.resources)))
  {
    hide Sum, Net, StoresOk, Posted, OnHand, LoadedUpto, Debited;
    ghost var base, moves, ship, id := s.planets, s.recorded, s.ship, s.nextId;
    LoadedStart(base, src, dst, goods, id);
    PostedNothing(moves, PlanetStock(src), ShipHold, Upto(goods, 0));
    for r := 0 to s.cat.resources
      invariant s.Stores() && |s.planets| == |base|
      invariant LoadedUpto(base, s.planets, src, dst, goods, id, r)
      invariant Posted(moves, s.recorded, PlanetStock(src), ShipHold, Upto(goods, r))
      invariant s.nextId == id + |ClaimsFor(goods, id, r)|
      invariant s.ship == ship.(cargo := Upto(goods, r), bookings := ship.bookings + IdsOf(ClaimsFor(goods, id, r)))
    {
      if r in goods {
        assert Qty(goods, r) <= base[src].stock.Available(r);
        s.ship := s.ship.(cargo := Plus(s.ship.cargo, r, goods[r]), bookings := s.ship.bookings + [s.nextId]);
        LoadNext(s, src, dst, goods, r, base, moves, id);
        assert Plus(Upto(goods, r), r, goods[r]) == Upto(goods, r + 1);
        assert IdsOf(ClaimsFor(goods, id, r + 1)) == IdsOf(ClaimsFor(goods, id, r)) + [id + |ClaimsFor(goods, id, r)|];
      } else {
        LoadedSkip(base, s.planets, src, dst, goods, id, r);
      }
    }
    UptoAll(goods, s.cat.resources);
  }

  lemma LoadedSkip(base: seq<Planet>, planets: seq<Planet>, src: nat, dst: nat, goods: ResourceMap, id: nat, r: nat)
    requires src < |base| && dst < |base| && LoadedUpto(base, planets, src, dst, goods, id, r) && r !in goods
    ensures LoadedUpto(base, planets, src, dst, goods, id, r + 1) && Upto(goods, r + 1) == Upto(goods, r)
  {
    assert Upto(goods, r + 1) == Upto(goods, r);
  }

  lemma StillRoom(was: seq<Planet>, mid: seq<Planet>, src: nat, dst: nat, r: nat, q: int)
    requires Debited(was, mid, src, Single(r, q)) && dst < |was| && src != dst && r < |was[dst].stock.onHand|
    ensures |mid| == |was| && r < |mid[dst].stock.onHand| && mid[dst].stock.FreeSpace(r) == was[dst].stock.FreeSpace(r)
    ensures mid[dst].stock.claims == was[dst].stock.claims
  {
    assert OnlyStock(was[dst], mid[dst]);
    assert OnHand(mid, dst, r) == OnHand(was, dst, r);
  }

  // ----- one leg -----

  /** Everything a departure takes from the source: the goods, fuel for the tank, machinery. */
  ghost function Total(cat: Catalog, goods: ResourceMap, fuelIn: int, machinery: int): ResourceMap {
    Both(goods, map[cat.fuel := fuelIn, cat.machinery := machinery])
  }

  /** The source gave up the total, and the goods are promised at the destination. */
  ghost predicate Shipped(before: seq<Planet>, after: seq<Planet>, src: nat, dst: nat, total: ResourceMap,
                          goods: ResourceMap, id: nat, n: nat)
    requires src < |before| && dst < |before|
  {
    && |after| == |before|
    && after[dst].stock.claims == before[dst].stock.claims + ClaimsFor(goods, id, n)
    && Debited(before, WithClaims(after, dst, before[dst].stock.claims), src, total)
  }

  /** A leg's net effect on every account: goods and fuel come aboard, machinery is spent and fuel burned. */
  function LegFlow(cat: Catalog, src: nat, goods: ResourceMap, fuelIn: int, machinery: int, burn: int, a: Account,
                   r: nat): int {
    var fuel := if r == cat.fuel then fuelIn else 0;
    var parts := if r == cat.machinery then machinery else 0;
    var burned := if r == cat.fuel then burn else 0;
    match a
    case PlanetStock(p) => if p == src then -(Qty(goods, r) + fuel + parts) else 0
    case ShipHold => Qty(goods, r) + fuel - burned
    case SinkPropulsion => parts + burned
    case _ => 0
  }

  ghost predicate LegPosted(cat: Catalog, before: seq<Move>, after: seq<Move>, src: nat, goods: ResourceMap,
                            fuelIn: int, machinery: int, burn: int) {
    && before <= after
    && forall a: Account,
        r: nat :: Net(after, a, r) == Net(before, a, r) + LegFlow(cat, src, goods, fuelIn, machinery, burn, a, r)
  }

  function Sailing(cat: Catalog, ship: Ship, dst: nat, goods: ResourceMap, fuelIn: int, burn: int, bookings: seq<nat>,
                   day: int): Ship {
    ship.(phase := Transit, location := None, destination := Some(dst), departureDay := day,
        arrivalDay := day + cat.freight.legDays,
          cargo := goods, tank := ship.tank + fuelIn - burn, bookings := ship.bookings + bookings, unloaded := map[])
  }

  /** One leg of the colony route departs. */
  ghost predicate LegStep(cat: Catalog, w: World, w': World, src: nat, dst: nat, load: Load, fuelIn: int,
                          machinery: int, burn: int, leftover: int) {
    && src < |w.planets| && dst < |w.planets| && src < |w.scratch|
    && var claims := ClaimsFor(load.goods, w.nextId, cat.resources);
    && w' == w.(ship := Sailing(cat, w.ship, dst, load.goods, fuelIn, burn, IdsOf(claims), w.day),
                nextId := w.nextId + |claims|,
                scratch := w.scratch[src := w.scratch[src].(handlingLeft := load.handling)],
                books := w.books.(shipped := load.goods, leftover := leftover),
                planets := w'.planets, ledger := w'.ledger, recorded := w'.recorded)
    && Shipped(w.planets, w'.planets, src, dst, Total(cat, load.goods, fuelIn, machinery), load.goods, w.nextId,
        cat.resources)
    && LegPosted(cat, w.recorded, w'.recorded, src, load.goods, fuelIn, machinery, burn)
    && LedgerOk(w'.ledger, w'.recorded, |w'.planets|, w'.nextId)
  }

  lemma TotalQty(cat: Catalog, goods: ResourceMap, fuelIn: int, machinery: int, r: nat)
    requires cat.fuel != cat.machinery
    ensures Qty(Total(cat, goods, fuelIn, machinery), r) ==
              Qty(goods, r) + (if r == cat.fuel then fuelIn else 0) + (if r == cat.machinery then machinery else 0)
  {
  }

  /** Booking claims within the free space keeps every store sound and every promise kept. */
  lemma ShippedKeepsStores(cat: Catalog, w: World, w': World, src: nat, dst: nat, goods: ResourceMap, fuelIn: int,
                           machinery: int, burn: int)
    requires StoresOk(cat, w.planets, w.ledger, w.recorded, w.books.opening, w.nextId)
    requires src < |w.planets| && dst < |w.planets| && src != dst && cat.fuel != cat.machinery
    requires 0 <= fuelIn && 0 <= machinery && Positive(goods, cat.resources) && cat.fuel < cat.resources
             && cat.machinery < cat.resources
    requires Affords(w.planets[src].stock, Total(cat, goods, fuelIn, machinery), cat.resources)
    requires |w.planets[dst].stock.onHand| == cat.resources && forall r | r in goods ::
             goods[r] <= w.planets[dst].stock.FreeSpace(r)
    requires Shipped(w.planets, w'.planets, src, dst, Total(cat, goods, fuelIn, machinery), goods, w.nextId,
             cat.resources)
    requires LegPosted(cat, w.recorded, w'.recorded, src, goods, fuelIn, machinery, burn)
    requires LedgerOk(w'.ledger, w'.recorded, |w'.planets|, w'.nextId) && 0 < w'.nextId
             && w'.books.opening == w.books.opening
    ensures StoresOk(cat, w'.planets, w'.ledger, w'.recorded, w'.books.opening, w'.nextId)
            && (BookedOk(w.planets) ==> BookedOk(w'.planets))
    ensures forall r: nat ::
            w'.planets[dst].stock.Claimed(r) == w.planets[dst].stock.Claimed(r) + (if r < cat.resources then
            Qty(goods, r) else 0)
  {
    hide Sum, Net, LedgerOk, ValidCatalog, PlanetsBalance, Debited;
    var total := Total(cat, goods, fuelIn, machinery);
    var mid := WithClaims(w'.planets, dst, w.planets[dst].stock.claims);
    forall r: nat ensures 0 <= Qty(total, r) {
      TotalQty(cat, goods, fuelIn, machinery, r);
    }
    DebitKeepsSound(w.planets, mid, src, total, cat.resources);
    ClaimsAdded(cat, w.planets, w'.planets, src, dst, total, goods, w.nextId);
    ShippedKeepsBalance(cat, w.books.opening, w.planets, w'.planets, src, dst, goods, fuelIn, machinery, burn,
        w.recorded, w'.recorded);
  }

  lemma ClaimsAdded(cat: Catalog, before: seq<Planet>, after: seq<Planet>, src: nat, dst: nat, total: ResourceMap,
                    goods: ResourceMap, id: nat)
    requires src < |before| && dst < |before| && src != dst && |after| == |before|
    requires after[dst].stock.claims == before[dst].stock.claims + ClaimsFor(goods, id, cat.resources)
    requires Debited(before, WithClaims(after, dst, before[dst].stock.claims), src, total)
    requires StockOk(WithClaims(after, dst, before[dst].stock.claims), cat.resources)
    requires BookedOk(before) ==> BookedOk(WithClaims(after, dst, before[dst].stock.claims))
    requires |before[dst].stock.onHand| == cat.resources
    requires Positive(goods, cat.resources) && forall r | r in goods :: goods[r] <= before[dst].stock.FreeSpace(r)
    ensures StockOk(after, cat.resources) && (BookedOk(before) ==> BookedOk(after))
    ensures forall r: nat ::
            after[dst].stock.Claimed(r) == before[dst].stock.Claimed(r) + (if r < cat.resources then Qty(goods, r)
            else 0)
  {
    hide Sum;
    var mid := WithClaims(after, dst, before[dst].stock.claims);
    forall r: nat
      ensures after[dst].stock.Claimed(r) == before[dst].stock.Claimed(r) + (if r < cat.resources then Qty(goods, r)
              else 0)
    {
      SumConcat(before[dst].stock.claims, ClaimsFor(goods, id, cat.resources), ClaimedFor(r));
      ClaimsMatchCargo(goods, id, cat.resources, r);
    }
    assert OnlyStock(before[dst], mid[dst]) && (BookedOk(before) ==> before[dst].stock.Booked());
    forall q | 0 <= q < |after| ensures after[q].stock.Sound(cat.resources)
        && (BookedOk(before) ==> after[q].stock.Booked()) {
      assert mid[q].stock.Sound(cat.resources) && (BookedOk(before) ==> mid[q].stock.Booked());
      forall r: nat | r < cat.resources
        ensures after[q].stock.Reserved(r) == mid[q].stock.Reserved(r)
                && after[q].stock.onHand[r] == mid[q].stock.onHand[r]
        ensures q == dst ==> after[q].stock.onHand[r] == before[dst].stock.onHand[r]
      {
        assert OnHand(mid, dst, r) == OnHand(before, dst, r);
      }
    }
  }

  lemma ShippedKeepsBalance(cat: Catalog, opening: seq<Planet>, before: seq<Planet>, after: seq<Planet>, src: nat,
                            dst: nat, goods: ResourceMap,
                            fuelIn: int, machinery: int, burn: int, moves: seq<Move>, moves': seq<Move>)
    requires src < |before| && dst < |before| && |after| == |before| && cat.fuel != cat.machinery
    requires |before[src].stock.onHand| == cat.resources && cat.fuel < cat.resources && cat.machinery < cat.resources
    requires Positive(goods, cat.resources)
    requires PlanetsBalance(opening, before, moves)
    requires Debited(before, WithClaims(after, dst, before[dst].stock.claims), src,
             Total(cat, goods, fuelIn, machinery))
    requires LegPosted(cat, moves, moves', src, goods, fuelIn, machinery, burn)
    ensures PlanetsBalance(opening, after, moves')
  {
    hide Net, Sum;
    var mid := WithClaims(after, dst, before[dst].stock.claims);
    forall q: nat, r: nat
      ensures OnHand(after, q, r) == OnHand(opening, q, r) + (if q < |after| && r < |after[q].stock.onHand| then
              Net(moves', PlanetStock(q), r) else 0)
    {
      TotalQty(cat, goods, fuelIn, machinery, r);
      assert OnHand(after, q, r) == OnHand(mid, q, r);
      assert OnHand(mid, q, r) == OnHand(before, q, r) - (if q == src then Qty(Total(cat, goods, fuelIn, machinery), r)
             else 0);
      assert q < |before| ==> OnlyStock(before[q], mid[q]);
      assert Net(moves', PlanetStock(q), r) == Net(moves, PlanetStock(q), r) + LegFlow(cat, src, goods, fuelIn,
             machinery, burn, PlanetStock(q), r);
    }
  }

  /** A departing ship keeps every freighter rule: its cargo is promised in full where it is bound, and
      its tank holds the return burn exactly while the return is ahead. */
  lemma LegKeepsInv(cat: Catalog, w: World, w': World, src: nat, dst: nat, load: Load, fuelIn: int, machinery: int,
                    burn: int, leftover: int, d: int, d': int)
    requires InvAt(cat, w, d, d') && LegStep(cat, w, w', src, dst, load, fuelIn, machinery, burn, leftover)
             && d' <= w.day
    requires w.ship.mission.NoMission? && w.ship.phase.Docked? && src != dst
    requires 0 <= fuelIn && 0 <= machinery && Positive(load.goods, cat.resources)
    requires Affords(w.planets[src].stock, Total(cat, load.goods, fuelIn, machinery), cat.resources)
    requires |w.planets[dst].stock.onHand| == cat.resources && forall r | r in load.goods ::
             load.goods[r] <= w.planets[dst].stock.FreeSpace(r)
    requires dst == cat.freight.origin || dst == cat.freight.destination
    requires w.planets[dst].colonised && TankOk(cat, w'.ship, leftover)
    ensures InvAt(cat, w', d, d')
  {
    hide Sum, Net, FacilityOk, EscrowBalance, StockOk, LedgerOk, PlanetsBalance, ExpeditionBalance, Debited, LegFlow,
         Affords, ColonyOk, PeopleOk, BookedOk, ShipBalance, WorkforceOk, ValidFacility, ValidExpedition, ValidMandate,
         ValidRules, TankOk, ClaimsFor, ClaimsOk, LegPosted, VoyagesOk;
    ShippedKeepsStores(cat, w, w', src, dst, load.goods, fuelIn, machinery, burn);
    LegClaims(cat, w, w', src, dst, load, fuelIn, machinery, burn, leftover);
    LegBalances(cat, w, w', src, load.goods, fuelIn, machinery, burn);
    LegPeople(cat, w, w', src, dst, Total(cat, load.goods, fuelIn, machinery), d);
    DemandSame(cat, w.demand, w.ship, w'.ship);
  }

  lemma LegClaims(cat: Catalog, w: World, w': World, src: nat, dst: nat, load: Load, fuelIn: int, machinery: int,
                  burn: int, leftover: int)
    requires LegStep(cat, w, w', src, dst, load, fuelIn, machinery, burn, leftover)
    requires ClaimsOk(w.planets, w.ship) && w.ship.mission.NoMission? && w.ship.phase.Docked?
             && Positive(load.goods, cat.resources)
    requires dst < |w.planets| && w.planets[dst].colonised
    requires forall r: nat ::
             w'.planets[dst].stock.Claimed(r) == w.planets[dst].stock.Claimed(r) + (if r < cat.resources then
             Qty(load.goods, r) else 0)
    ensures ClaimsOk(w'.planets, w'.ship)
  {
    hide Sum, LegPosted, LedgerOk;
    var claims := ClaimsFor(load.goods, w.nextId, cat.resources);
    ClaimIds(load.goods, w.nextId, cat.resources);
    ClaimsPositive(load.goods, w.nextId, cat.resources);
    assert w.planets[dst].stock.claims == [] && w.ship.bookings == [];
    assert [] + claims == claims && [] + IdsOf(claims) == IdsOf(claims);
    var mid := WithClaims(w'.planets, dst, []);
    assert OnlyStock(w.planets[dst], mid[dst]);
    forall r: nat ensures w'.planets[dst].stock.Claimed(r) == Qty(load.goods, r) {
      SumEmpty(ClaimedFor(r));
    }
    forall p | 0 <= p < |w'.planets| && p != dst ensures w'.planets[p].stock.claims == [] {
      assert OnlyStock(w.planets[p], mid[p]);
    }
  }

  lemma {:induction false} ClaimsPositive(goods: ResourceMap, id: nat, k: nat)
    requires forall r | r in goods :: 0 < goods[r]
    ensures forall i | 0 <= i < |ClaimsFor(goods, id, k)| :: 0 < ClaimsFor(goods, id, k)[i].quantity
  {
    if k > 0 {
      ClaimsPositive(goods, id, k - 1);
    }
  }

  lemma LegBalances(cat: Catalog, w: World, w': World, src: nat, goods: ResourceMap, fuelIn: int, machinery: int,
                    burn: int)
    requires BalancesOk(cat, w) && LegPosted(cat, w.recorded, w'.recorded, src, goods, fuelIn, machinery, burn)
    requires w'.facilities == w.facilities && w'.books.stranded == w.books.stranded
             && w'.books.spilled == w.books.spilled && w'.colony == w.colony
    requires w.ship.cargo == map[] && w'.ship.cargo == goods && w'.ship.tank == w.ship.tank + fuelIn - burn
    ensures BalancesOk(cat, w')
  {
    hide Sum, Net, Stranded;
    forall a: Account, r: nat ensures Net(w'.recorded, a, r) == Net(w.recorded, a, r) + LegFlow(cat, src, goods, fuelIn,
        machinery, burn, a, r) {
    }
    forall r: nat ensures Net(w'.recorded, ShipHold, r) == Qty(w'.ship.cargo, r) + (if r == cat.fuel then w'.ship.tank
        else 0) {
      assert Net(w.recorded, ShipHold, r) == Qty(w.ship.cargo, r) + (if r == cat.fuel then w.ship.tank else 0);
    }
    forall id: nat, r: nat
      ensures Net(w'.recorded, Escrow(id), r) == Sum(w'.facilities, HeldFor(id, r)) + Stranded(w'.books.stranded, id, r)
    {
      assert Net(w.recorded, Escrow(id), r) == Sum(w.facilities, HeldFor(id, r)) + Stranded(w.books.stranded, id, r);
    }
    forall r: nat ensures Net(w'.recorded, Expedition, r) == Qty(w'.colony.cargo, r) + Qty(w'.books.spilled, r) {
      assert Net(w.recorded, Expedition, r) == Qty(w.colony.cargo, r) + Qty(w.books.spilled, r);
    }
  }

  lemma LegPeople(cat: Catalog, w: World, w': World, src: nat, dst: nat, total: ResourceMap, d: int)
    requires src < |w.planets| && dst < |w.planets| && |w'.planets| == |w.planets|
    requires Debited(w.planets, WithClaims(w'.planets, dst, w.planets[dst].stock.claims), src, total)
    requires WorkforceOk(cat, w.planets, w.facilities, w.transfers, w.nextId) && ColonyOk(cat, w.colony, w.planets, d)
    requires PeopleOk(w.planets, w.colony, w.books.people, w.books.workforce) && w.nextId <= w'.nextId
    ensures WorkforceOk(cat, w'.planets, w.facilities, w.transfers, w'.nextId) && ColonyOk(cat, w.colony, w'.planets, d)
    ensures PeopleOk(w'.planets, w.colony, w.books.people, w.books.workforce)
  {
    hide Sum, AfterDays, FacilityOk, WorkersOk, SlotsOk, StaffOk;
    var mid := WithClaims(w'.planets, dst, w.planets[dst].stock.claims);
    StockMovesNobody(cat, w.planets, mid, w, d);
    assert WithClaims(mid, dst, w'.planets[dst].stock.claims) == w'.planets;
    ClaimsMoveNobody(cat, w.(planets := mid), dst, w'.planets[dst].stock.claims, d);
  }

  // ----- the outbound leg -----

  datatype Outcome = Departed | Blocked | Faulted

  predicate AtOrigin(cat: Catalog, ship: Ship, day: int) {
    ship.mission.NoMission? && ship.phase.Docked? && ship.location == Some(cat.freight.origin) && ship.earliest <= day
  }

  ghost predicate MaySail(cat: Catalog, w: World) {
    var f := cat.freight;
    && AtOrigin(cat, w.ship, w.day) && w.ship.cargo == map[]
    && f.origin < |w.planets| && f.destination < |w.planets| && f.origin < |w.scratch|
    && cat.fuel < |w.planets[f.origin].stock.onHand| && cat.machinery < |w.planets[f.origin].stock.onHand|
    && w.planets[f.destination].colonised
    && HasPort(cat, w.facilities, f.destination, w.day)
    && f.roundTripFuel <= w.planets[f.origin].stock.Available(cat.fuel)
    && f.roundTripMachinery <= w.planets[f.origin].stock.Available(cat.machinery)
  }

  ghost function OutLoad(cat: Catalog, w: World, ratio: int): Load
    requires MaySail(cat, w)
  {
    var f := cat.freight;
    Greedy(cat, LoadLimits(cat, w.route, w.planets, w.facilities, f.origin, f.destination, w.route.outbound, ratio),
           f.cargoCapacity, w.scratch[f.origin].handlingLeft, cat.resources)
  }

  /** What a departure comes to. Fuel and machinery are checked apart from the manifest, so a manifest
      that also carries them, or a floor below zero, can ask for more than there is: then the commit
      raises an error part-way. */
  ghost function OutcomeOf(cat: Catalog, w: World, allowEmpty: bool, ratio: int): Outcome {
    var f := cat.freight;
    if !MaySail(cat, w) then Blocked
    else
      var goods := OutLoad(cat, w, ratio).goods;
      if goods == map[] && !allowEmpty then Blocked
      else if Affords(w.planets[f.origin].stock, Total(cat, goods, f.roundTripFuel, f.roundTripMachinery),
          cat.resources) then Departed
      else Faulted
  }

  ghost predicate OutboundStep(cat: Catalog, w: World, w': World, ratio: int) {
    MaySail(cat, w) &&
    var f := cat.freight;
    LegStep(cat, w, w', f.origin, f.destination, OutLoad(cat, w, ratio), f.roundTripFuel, f.roundTripMachinery,
        f.outboundBurn,
            w.books.leftover + f.roundTripFuel - f.outboundBurn - f.returnBurn)
  }

  lemma LoadIsPlanned(cat: Catalog, route: Route, planets: seq<Planet>, fs: seq<Facility>, src: nat, dst: nat,
                      targets: ResourceMap, ratio: int, volume: int, handling: int)
    requires ValidCatalog(cat) && src < |planets| && dst < |planets| && 0 <= volume && 0 <= handling
    requires StockOk(planets, cat.resources)
    ensures var l := Greedy(cat, LoadLimits(cat, route, planets, fs, src, dst, targets, ratio), volume, handling,
            cat.resources);
            && Positive(l.goods, cat.resources) && 0 <= l.handling <= handling && 0 <= l.volume
            && |planets[src].stock.onHand| == |planets[dst].stock.onHand| == cat.resources
            && forall r | r in l.goods ::
                && r in targets && l.goods[r] <= targets[r] && l.goods[r] <= planets[dst].stock.FreeSpace(r)
                                        && l.goods[r] <= Spare(cat, route, planets, fs, src, r, ratio)
  {
    hide Sum, ReserveFloor, ValidFacility, ValidFreight, ValidExpedition, ValidMandate, ValidRules;
    assert planets[src].stock.Sound(cat.resources) && planets[dst].stock.Sound(cat.resources);
    var limits := LoadLimits(cat, route, planets, fs, src, dst, targets, ratio);
    GreedyFits(cat, limits, volume, handling, cat.resources);
    CargoVolumeIsNat(cat, Greedy(cat, limits, volume, handling, cat.resources).goods, cat.resources);
  }

  lemma OutboundKeepsInv(cat: Catalog, w: World, w': World, allowEmpty: bool, ratio: int, d: int)
    requires InvAt(cat, w, d, w.day) && OutcomeOf(cat, w, allowEmpty, ratio).Departed?
             && OutboundStep(cat, w, w', ratio)
    requires 0 <= w.scratch[cat.freight.origin].handlingLeft
    ensures InvAt(cat, w', d, w'.day) && |w'.scratch| == |w.scratch|
    ensures forall p | 0 <= p < |w.scratch| :: w'.scratch[p].handlingLeft <= w.scratch[p].handlingLeft
    ensures 0 <= w'.scratch[cat.freight.origin].handlingLeft
  {
    hide Sum, Net, LegStep, Affords, ReserveFloor, WorkforceOk, BalancesOk, ColonyOk, PeopleOk, HasPort, LoadLimits,
         ClaimsOk, DemandOk, BookedOk, LedgerOk, PlanetsBalance, ValidFacility, ValidExpedition, ValidMandate,
         ValidRules, Greedy, ClaimsFor, ShippedOk;
    var f := cat.freight;
    LoadIsPlanned(cat, w.route, w.planets, w.facilities, f.origin, f.destination, w.route.outbound, ratio,
        f.cargoCapacity, w.scratch[f.origin].handlingLeft);
    var load := OutLoad(cat, w, ratio);
    var leftover := w.books.leftover + f.roundTripFuel - f.outboundBurn - f.returnBurn;
    LegShip(cat, w, w', f.origin, f.destination, load, f.roundTripFuel, f.roundTripMachinery, f.outboundBurn, leftover);
    LegKeepsInv(cat, w, w', f.origin, f.destination, load, f.roundTripFuel, f.roundTripMachinery, f.outboundBurn,
        leftover, d, w.day);
  }

  lemma LegShip(cat: Catalog, w: World, w': World, src: nat, dst: nat, load: Load, fuelIn: int, machinery: int,
                burn: int, leftover: int)
    requires LegStep(cat, w, w', src, dst, load, fuelIn, machinery, burn, leftover)
    ensures w'.ship.phase.Transit? && w'.ship.mission == w.ship.mission && w'.ship.destination == Some(dst)
            && w'.ship.location.None?
    ensures w'.ship.tank == w.ship.tank + fuelIn - burn && w'.books.leftover == leftover && w'.day == w.day
            && w'.route == w.route
    ensures src < |w.scratch| && w'.scratch == w.scratch[src := w.scratch[src].(handlingLeft := load.handling)]
  {
  }

  // ----- committing a leg -----

  ghost function Extras(cat: Catalog, fuelIn: int, machinery: int): ResourceMap {
    map[cat.fuel := fuelIn, cat.machinery := machinery]
  }

  lemma FlowOfExtras(cat: Catalog, a: seq<Move>, b: seq<Move>, c: seq<Move>, d: seq<Move>, src: nat, fuelIn: int,
                     machinery: int, burn: int)
    requires Posted(a, b, PlanetStock(src), ShipHold, Single(cat.fuel, fuelIn))
    requires Posted(b, c, PlanetStock(src), SinkPropulsion, Single(cat.machinery, machinery))
    requires Posted(c, d, ShipHold, SinkPropulsion, Single(cat.fuel, burn))
    ensures LegPosted(cat, a, d, src, map[], fuelIn, machinery, burn)
  {
    hide Net;
    forall x: Account, r: nat ensures Net(d, x, r) == Net(a, x, r) + LegFlow(cat, src, map[], fuelIn, machinery, burn,
        x, r) {
      assert Net(d, x, r) == Net(c, x, r) + (if x == SinkPropulsion then Qty(Single(cat.fuel, burn), r)
             else 0) - (if x == ShipHold then Qty(Single(cat.fuel, burn), r) else 0);
      assert Net(c, x, r) == Net(b, x, r) + (if x == SinkPropulsion then Qty(Single(cat.machinery, machinery), r)
             else 0) - (if x == PlanetStock(src) then Qty(Single(cat.machinery, machinery), r) else 0);
      assert Net(b, x, r) == Net(a, x, r) + (if x == ShipHold then Qty(Single(cat.fuel, fuelIn), r)
             else 0) - (if x == PlanetStock(src) then Qty(Single(cat.fuel, fuelIn), r) else 0);
    }
  }

  lemma FlowOfGoods(cat: Catalog, a: seq<Move>, b: seq<Move>, c: seq<Move>, src: nat, goods: ResourceMap, fuelIn: int,
                    machinery: int, burn: int)
    requires LegPosted(cat, a, b, src, map[], fuelIn, machinery, burn)
    requires Posted(b, c, PlanetStock(src), ShipHold, goods)
    ensures LegPosted(cat, a, c, src, goods, fuelIn, machinery, burn)
  {
    hide Net;
    forall x: Account, r: nat ensures Net(c, x, r) == Net(a, x, r) + LegFlow(cat, src, goods, fuelIn, machinery, burn,
        x, r) {
      assert Net(b, x, r) == Net(a, x, r) + LegFlow(cat, src, map[], fuelIn, machinery, burn, x, r);
    }
  }

  /** Draws the trip's fuel and machinery and burns the leg's share of fuel. */
  method TakeFuel(s: Session, src: nat, fuelIn: int, machinery: int, burn: int)
    requires s.Stores() && src < |s.planets| && 0 <= fuelIn && 0 <= machinery && 0 <= burn
    requires s.cat.fuel < s.cat.resources && s.cat.machinery < s.cat.resources && s.cat.fuel != s.cat.machinery
    requires |s.planets[src].stock.onHand| == s.cat.resources
    requires fuelIn <= s.planets[src].stock.Available(s.cat.fuel)
             && machinery <= s.planets[src].stock.Available(s.cat.machinery)
    modifies s`planets, s`ship, s`ledger, s`recorded
    ensures s.Stores() && |s.planets| == |old(s.planets)|
    ensures Debited(old(s.planets), s.planets, src, Extras(s.cat, fuelIn, machinery))
    ensures LegPosted(s.cat, old(s.recorded), s.recorded, src, map[], fuelIn, machinery, burn)
    ensures s.ship == old(s.ship).(tank := old(s.ship.tank) + fuelIn - burn)
  {
    hide Sum, Net, ValidCatalog, LedgerOk, PlanetsBalance, StockOk, Posted, OnHand, Debited, LegPosted;
    ghost var p0, m0 := s.planets, s.recorded;
    var _ := RemoveStock(s, src, s.cat.fuel, fuelIn, ShipHold);
    s.ship := s.ship.(tank := s.ship.tank + fuelIn);
    ghost var p1, m1 := s.planets, s.recorded;
    OthersStay(p0, p1, src, s.cat.fuel, fuelIn, s.cat.machinery);
    var _ := RemoveStock(s, src, s.cat.machinery, machinery, SinkPropulsion);
    ghost var m2 := s.recorded;
    s.ship := s.ship.(tank := s.ship.tank - burn);
    Record(s, s.cat.fuel, burn, ShipHold, SinkPropulsion);
    PostedOffWorld(s.books.opening, s.planets, m2, s.recorded, ShipHold, SinkPropulsion, Single(s.cat.fuel, burn));
    DebitedThen(p0, p1, s.planets, src, Single(s.cat.fuel, fuelIn), Single(s.cat.machinery, machinery),
        Extras(s.cat, fuelIn, machinery));
    FlowOfExtras(s.cat, m0, m1, m2, s.recorded, src, fuelIn, machinery, burn);
  }

  lemma OthersStay(a: seq<Planet>, b: seq<Planet>, p: nat, r: nat, q: int, r': nat)
    requires Debited(a, b, p, Single(r, q)) && p < |a| && r != r' && r' < |a[p].stock.onHand|
    ensures |b| == |a| && |b[p].stock.onHand| == |a[p].stock.onHand|
            && b[p].stock.Available(r') == a[p].stock.Available(r')
  {
    assert OnlyStock(a[p], b[p]);
    assert OnHand(b, p, r') == OnHand(a, p, r');
  }

  /** After the extras are drawn, what is left still covers the goods. */
  lemma ExtrasLeaveGoods(cat: Catalog, a: seq<Planet>, b: seq<Planet>, src: nat, dst: nat, goods: ResourceMap,
                         fuelIn: int, machinery: int)
    requires Debited(a, b, src, Extras(cat, fuelIn, machinery)) && src < |a| && dst < |a| && src != dst
    requires cat.fuel != cat.machinery && cat.fuel < cat.resources && cat.machinery < cat.resources
    requires Affords(a[src].stock, Total(cat, goods, fuelIn, machinery), cat.resources)
             && |a[dst].stock.onHand| == cat.resources
    ensures |b| == |a| && Affords(b[src].stock, goods, cat.resources)
    ensures |b[dst].stock.onHand| == cat.resources && b[dst].stock.claims == a[dst].stock.claims
    ensures forall r: nat | r < cat.resources :: b[dst].stock.FreeSpace(r) == a[dst].stock.FreeSpace(r)
  {
    hide Sum;
    assert OnlyStock(a[src], b[src]) && OnlyStock(a[dst], b[dst]);
    forall r: nat | r < cat.resources
      ensures Qty(goods, r) <= b[src].stock.Available(r) && b[dst].stock.FreeSpace(r) == a[dst].stock.FreeSpace(r)
    {
      TotalQty(cat, goods, fuelIn, machinery, r);
      assert Qty(Total(cat, goods, fuelIn, machinery), r) <= a[src].stock.Available(r);
      assert OnHand(b, src, r) == OnHand(a, src, r) - Qty(Extras(cat, fuelIn, machinery), r);
      assert OnHand(b, dst, r) == OnHand(a, dst, r);
    }
  }

  lemma ShippedIs(cat: Catalog, a: seq<Planet>, b: seq<Planet>, c: seq<Planet>, src: nat, dst: nat, goods: ResourceMap,
                  fuelIn: int, machinery: int, id: nat)
    requires src < |a| && dst < |a| && |b| == |a| && cat.fuel != cat.machinery
    requires Debited(a, b, src, Extras(cat, fuelIn, machinery)) && LoadedUpto(b, c, src, dst, goods, id, cat.resources)
    requires forall r | r in goods :: r < cat.resources
    ensures Shipped(a, c, src, dst, Total(cat, goods, fuelIn, machinery), goods, id, cat.resources)
  {
    hide OnHand;
    UptoAll(goods, cat.resources);
    assert OnlyStock(a[dst], b[dst]);
    forall r: nat ensures Qty(Total(cat, goods, fuelIn, machinery), r) == Qty(Extras(cat, fuelIn, machinery),
        r) + Qty(goods, r) {
    }
    DebitedThen(a, b, WithClaims(c, dst, a[dst].stock.claims), src, Extras(cat, fuelIn, machinery), goods,
        Total(cat, goods, fuelIn, machinery));
  }

  /** Fuel, machinery, cargo and claims. */
  method LoadLeg(s: Session, src: nat, dst: nat, goods: ResourceMap, fuelIn: int, machinery: int, burn: int)
    requires s.Stores() && src < |s.planets| && dst < |s.planets| && src != dst
    requires s.ship.cargo == map[] && 0 <= fuelIn && 0 <= machinery && 0 <= burn && Positive(goods, s.cat.resources)
    requires Affords(s.planets[src].stock, Total(s.cat, goods, fuelIn, machinery), s.cat.resources)
    requires |s.planets[dst].stock.onHand| == s.cat.resources
    requires forall r | r in goods :: goods[r] <= s.planets[dst].stock.FreeSpace(r)
    modifies s`planets, s`ship, s`nextId, s`ledger, s`recorded
    ensures LedgerOk(s.ledger, s.recorded, |s.planets|, s.nextId)
    ensures Shipped(old(s.planets), s.planets, src, dst, Total(s.cat, goods, fuelIn, machinery), goods, old(s.nextId),
            s.cat.resources)
    ensures LegPosted(s.cat, old(s.recorded), s.recorded, src, goods, fuelIn, machinery, burn)
    ensures s.nextId == old(s.nextId) + |ClaimsFor(goods, old(s.nextId), s.cat.resources)|
    ensures s.ship == old(s.ship).(cargo := goods, tank := old(s.ship.tank) + fuelIn - burn,
                                   bookings := old(s.ship.bookings) + IdsOf(ClaimsFor(goods, old(s.nextId),
                                       s.cat.resources)))
  {
    hide Sum, Net, LedgerOk, PlanetsBalance, StockOk, Posted, OnHand, Debited, LegPosted, LoadedUpto, Affords, Shipped,
         ClaimsFor, ValidFacility, ValidFreight, ValidExpedition, ValidMandate, ValidRules, Total;
    ghost var p0, m0, id := s.planets, s.recorded, s.nextId;
    ExtrasAfforded(s.cat, s.planets[src].stock, goods, fuelIn, machinery);
    TakeFuel(s, src, fuelIn, machinery, burn);
    ghost var p1, m1 := s.planets, s.recorded;
    ExtrasLeaveGoods(s.cat, p0, p1, src, dst, goods, fuelIn, machinery);
    LoadAll(s, src, dst, goods);
    ShippedIs(s.cat, p0, p1, s.planets, src, dst, goods, fuelIn, machinery, id);
    FlowOfGoods(s.cat, m0, m1, s.recorded, src, goods, fuelIn, machinery, burn);
  }

  /** Loads and departs, all together. */
  method SailLeg(s: Session, src: nat, dst: nat, load: Load, fuelIn: int, machinery: int, burn: int,
                 ghost leftover: int)
    requires s.Stores() && src < |s.planets| && dst < |s.planets| && src != dst && src < |s.scratch|
    requires s.ship.cargo == map[] && 0 <= fuelIn && 0 <= machinery && 0 <= burn
    requires Positive(load.goods, s.cat.resources)
    requires Affords(s.planets[src].stock, Total(s.cat, load.goods, fuelIn, machinery), s.cat.resources)
    requires |s.planets[dst].stock.onHand| == s.cat.resources
    requires forall r | r in load.goods :: load.goods[r] <= s.planets[dst].stock.FreeSpace(r)
    modifies s`planets, s`ship, s`nextId, s`scratch, s`ledger, s`recorded, s`books
    ensures LegStep(s.cat, old(s.Now()), s.Now(), src, dst, load, fuelIn, machinery, burn, leftover)
  {
    hide StoresOk, LegPosted, Affords, Shipped, Total, ClaimsFor, LedgerOk, Positive;
    LoadLeg(s, src, dst, load.goods, fuelIn, machinery, burn);
    s.scratch := s.scratch[src := s.scratch[src].(handlingLeft := load.handling)];
    s.ship := s.ship.(phase := Transit, location := None, destination := Some(dst), departureDay := s.day,
                      arrivalDay := s.day + s.cat.freight.legDays, unloaded := map[]);
    s.books := s.books.(shipped := load.goods, leftover := leftover);
    assert unchanged(s`day, s`facilities, s`transfers, s`route, s`colony, s`demand);
  }

  lemma ExtrasAfforded(cat: Catalog, stock: Inventory, goods: ResourceMap, fuelIn: int, machinery: int)
    requires Affords(stock, Total(cat, goods, fuelIn, machinery), cat.resources) && Positive(goods, cat.resources)
    requires cat.fuel != cat.machinery && cat.fuel < cat.resources && cat.machinery < cat.resources
    ensures |stock.onHand| == cat.resources && fuelIn <= stock.Available(cat.fuel)
            && machinery <= stock.Available(cat.machinery)
  {
    TotalQty(cat, goods, fuelIn, machinery, cat.fuel);
    TotalQty(cat, goods, fuelIn, machinery, cat.machinery);
  }

  // ----- the freight phase's departures -----

  method CheckSail(s: Session) returns (ok: bool)
    requires s.Stores() && |s.scratch| == |s.planets|
    ensures ok <==> MaySail(s.cat, s.Now())
  {
    hide Sum, ValidFacility, ValidExpedition, ValidMandate, ValidRules, LedgerOk, PlanetsBalance, HasPort;
    var f := s.cat.freight;
    if !AtOrigin(s.cat, s.ship, s.day) || s.ship.cargo != map[] || !s.planets[f.destination].colonised {
      return false;
    }
    assert s.planets[f.origin].stock.Sound(s.cat.resources);
    var port := PortAt(s.cat, s.facilities, f.destination, s.day);
    ok := port && f.roundTripFuel <= s.planets[f.origin].stock.Available(s.cat.fuel)
               && f.roundTripMachinery <= s.planets[f.origin].stock.Available(s.cat.machinery);
  }

  /** Whether the commit would find everything it is about to take. */
  method Covered(stock: Inventory, goods: ResourceMap, fuel: nat, fuelIn: int, machinery: nat, parts: int, n: nat)
                 returns (ok: bool)
    requires |stock.onHand| == n && fuel != machinery
    ensures ok <==> Affords(stock, Both(goods, map[fuel := fuelIn, machinery := parts]), n)
  {
    hide Sum;
    ok := true;
    for r := 0 to n
      invariant ok <==> forall k: nat | k < r ::
                Qty(Both(goods, map[fuel := fuelIn, machinery := parts]), k) <= stock.Available(k)
    {
      var total := Qty(goods, r) + (if r == fuel then fuelIn else 0) + (if r == machinery then parts else 0);
      assert total == Qty(Both(goods, map[fuel := fuelIn, machinery := parts]), r);
      if total > stock.Available(r) {
        ok := false;
      }
    }
  }

  /** Loads and departs the freighter on its colony route. */
  method DepartColonyLeg(s: Session, allowEmpty: bool, ratio: int) returns (out: Outcome)
    requires s.Stores() && |s.scratch| == |s.planets| && 0 <= s.scratch[s.cat.freight.origin].handlingLeft
    modifies s`planets, s`ship, s`nextId, s`scratch, s`ledger, s`recorded, s`books
    ensures out == old(OutcomeOf(s.cat, s.Now(), allowEmpty, ratio))
    ensures out.Departed? ==> OutboundStep(s.cat, old(s.Now()), s.Now(), ratio)
    ensures out.Blocked? ==> s.Now() == old(s.Now())
  {
    hide Sum, ValidFacility, ValidExpedition, ValidMandate, ValidRules, LedgerOk, PlanetsBalance, StockOk, HasPort,
         LegStep, Affords, LoadLimits, Greedy, Spare;
    var f := s.cat.freight;
    var may := CheckSail(s);
    if !may {
      return Blocked;
    }
    LoadIsPlanned(s.cat, s.route, s.planets, s.facilities, f.origin, f.destination, s.route.outbound, ratio,
        f.cargoCapacity, s.scratch[f.origin].handlingLeft);
    var load := PlanLoad(s.cat, s.route, s.planets, s.facilities, f.origin, f.destination, s.route.outbound, ratio,
                         f.cargoCapacity, s.scratch[f.origin].handlingLeft);
    if load.goods == map[] && !allowEmpty {
      return Blocked;
    }
    var covered := Covered(s.planets[f.origin].stock, load.goods, s.cat.fuel, f.roundTripFuel, s.cat.machinery,
        f.roundTripMachinery, s.cat.resources);
    if !covered {
      return Faulted;
    }
    SailLeg(s, f.origin, f.destination, load, f.roundTripFuel, f.roundTripMachinery, f.outboundBurn,
            s.books.leftover + f.roundTripFuel - f.outboundBurn - f.returnBurn);
    return Departed;
  }
}
