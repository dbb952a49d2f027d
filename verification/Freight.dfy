/** The colony freighter: unloading, the outbound leg and the return leg. */
module Freight {
  import opened Units
  import opened Sums
  import opened Stock
  import opened Ledger
  import opened Catalog
  import opened State
  import opened Support
  import opened Loading

  // ----- ports -----

  predicate Operable(f: Facility, day: int) {
    f.life.Active? && f.activates <= day
  }

  predicate IsPort(cat: Catalog, f: Facility, p: nat, day: int) {
    f.planet == p && Operable(f, day) && f.kind < |cat.facilities| && cat.facilities[f.kind].docks > 0
  }

  predicate HasPort(cat: Catalog, fs: seq<Facility>, p: nat, day: int) {
    exists i | 0 <= i < |fs| :: IsPort(cat, fs[i], p, day)
  }

  // ----- releasing claims -----

  function RemoveClaim(claims: seq<Claim>, id: nat): seq<Claim> {
    if claims == [] then []
    else if claims[0].id == id then claims[1..]
    else [claims[0]] + RemoveClaim(claims[1..], id)
  }

  function Release(claims: seq<Claim>, bookings: seq<nat>): seq<Claim>
    decreases bookings
  {
    if bookings == [] then claims else Release(RemoveClaim(claims, bookings[0]), bookings[1..])
  }

  /** A shipment's own claims are all released, whatever their number. */
  lemma {:induction false} ReleaseAll(claims: seq<Claim>, bookings: seq<nat>)
    requires BookedFor(claims, bookings)
    ensures Release(claims, bookings) == []
  {
    if bookings != [] {
      assert claims[0].id == bookings[0];
      assert BookedFor(claims[1..], bookings[1..]) by {
        forall i | 0 <= i < |claims[1..]| ensures claims[1..][i].id == bookings[1..][i] && 0 < claims[1..][i].quantity {
          assert claims[i + 1].id == bookings[i + 1];
        }
      }
      ReleaseAll(claims[1..], bookings[1..]);
    }
  }

  function WithClaims(planets: seq<Planet>, p: nat, claims: seq<Claim>): seq<Planet>
    requires p < |planets|
  {
    planets[p := planets[p].(stock := planets[p].stock.(claims := claims))]
  }

  /** Dropping every claim on one world leaves its stock sound and its books alone. */
  lemma ClaimsDropped(cat: Catalog, planets: seq<Planet>, p: nat, opening: seq<Planet>, recorded: seq<Move>)
    requires p < |planets| && StockOk(planets, cat.resources) && PlanetsBalance(opening, planets, recorded)
    ensures StockOk(WithClaims(planets, p, []), cat.resources) && PlanetsBalance(opening, WithClaims(planets, p, []),
            recorded)
    ensures BookedOk(planets) ==> BookedOk(WithClaims(planets, p, []))
  {
    hide Net;
    var after := WithClaims(planets, p, []);
    forall q | 0 <= q < |after| ensures after[q].stock.Sound(cat.resources)
        && (BookedOk(planets) ==> after[q].stock.Booked()) {
      assert planets[q].stock.Sound(cat.resources);
      assert BookedOk(planets) ==> planets[q].stock.Booked();
      forall r: nat | r < cat.resources ensures after[q].stock.Reserved(r) == planets[q].stock.Reserved(r) {
      }
    }
    forall q: nat, r: nat ensures OnHand(after, q, r) == OnHand(planets, q, r) {
    }
  }

  // ----- unloading -----

  /** What may come ashore of each resource: what is aboard, within the world's free space. */
  ghost function UnloadLimits(cargo: ResourceMap, stock: Inventory): ResourceMap {
    map r | r in cargo && r < |stock.onHand| :: Min(cargo[r], stock.FreeSpace(r))
  }

  function Less(a: ResourceMap, b: ResourceMap): ResourceMap {
    map r | r in a && a[r] - Qty(b, r) > 0 :: a[r] - Qty(b, r)
  }

  function Both(a: ResourceMap, b: ResourceMap): ResourceMap {
    map r | r in a.Keys + b.Keys :: Qty(a, r) + Qty(b, r)
  }

  predicate Ashore(ship: Ship) {
    ship.phase.ArrivedHolding? || ship.phase.Unloading?
  }

  ghost predicate PortOpen(cat: Catalog, w: World) {
    && w.ship.location.Some? && w.ship.location.value < |w.planets| && w.ship.location.value < |w.scratch|
    && HasPort(cat, w.facilities, w.ship.location.value, w.day)
    && w.scratch[w.ship.location.value].handlingLeft > 0
  }

  /** The goods that come ashore today. */
  ghost function Landing(cat: Catalog, w: World): Load
    requires w.ship.location.Some? && w.ship.location.value < |w.planets| && w.ship.location.value < |w.scratch|
  {
    var p := w.ship.location.value;
    var stock := w.planets[p].stock.(claims := Release(w.planets[p].stock.claims, w.ship.bookings));
    Greedy(cat, UnloadLimits(w.ship.cargo, stock), w.scratch[p].handlingLeft, w.scratch[p].handlingLeft, cat.resources)
  }

  function Docking(cat: Catalog, ship: Ship, day: int): Ship {
    ship.(phase := Docked, earliest := day + cat.freight.minDwellDays)
  }

  /** The ship once today's goods have gone ashore. */
  function Unloaded(cat: Catalog, ship: Ship, goods: ResourceMap, day: int): Ship {
    var rest := Less(ship.cargo, goods);
    var after := ship.(cargo := rest, bookings := [], phase := Unloading, unloaded := Both(ship.unloaded, goods));
    if rest == map[] then Docking(cat, after, day).(unloaded := map[]) else after
  }

  ghost predicate UnloadStep(cat: Catalog, w: World, w': World) {
    if !Ashore(w.ship) then w' == w
    else if w.ship.cargo == map[] then w' == w.(ship := Docking(cat, w.ship, w.day))
    else if !PortOpen(cat, w) then w' == w.(ship := w.ship.(phase := ArrivedHolding))
    else
      var p := w.ship.location.value;
      var load := Landing(cat, w);
      && w' == w.(ship := Unloaded(cat, w.ship, load.goods, w.day),
                  scratch := w.scratch[p := w.scratch[p].(handlingLeft := load.handling)],
                  planets := w'.planets, ledger := w'.ledger, recorded := w'.recorded)
      && Credited(WithClaims(w.planets, p, Release(w.planets[p].stock.claims, w.ship.bookings)), w'.planets, p,
          load.goods)
      && Posted(w.recorded, w'.recorded, ShipHold, PlanetStock(p), load.goods)
      && LedgerOk(w'.ledger, w'.recorded, |w'.planets|, w'.nextId)
  }

  /** What the claims of a pledged shipment guarantee on its first unloading day: after they are released
      there is room for all its cargo of a resource exactly when no grant has taken the space promised, and
      then only port handling can hold any of it back. */
  lemma FirstDayHasRoom(cat: Catalog, w: World, d: int, r: nat)
    requires FreightOk(cat, w, d) && StockOk(w.planets, cat.resources)
    requires w.ship.phase.ArrivedHolding? && w.ship.bookings != [] && w.ship.location.Some?
             && w.ship.location.value < |w.planets|
    requires r in w.ship.cargo
    ensures var p := w.ship.location.value;
            var stock := w.planets[p].stock.(claims := Release(w.planets[p].stock.claims, w.ship.bookings));
            && r in UnloadLimits(w.ship.cargo, stock) && r < |w.planets[p].stock.onHand|
            && (UnloadLimits(w.ship.cargo, stock)[r] == w.ship.cargo[r]
                <==> w.planets[p].stock.onHand[r] + w.planets[p].stock.Claimed(r) <= w.planets[p].stock.capacity)
  {
    hide Sum, DemandOk, TankOk, ShippedOk;
    var p := w.ship.location.value;
    var stock := w.planets[p].stock;
    assert stock.Sound(cat.resources);
    ReleaseAll(stock.claims, w.ship.bookings);
    SumEmpty(ClaimedFor(r));
    assert stock.Claimed(r) == Qty(w.ship.cargo, r);
  }

  lemma UnloadLimitsFit(cat: Catalog, cargo: ResourceMap, stock: Inventory, handling: int, k: nat)
    requires ValidCatalog(cat) && stock.Sound(cat.resources) && 0 <= handling && stock.claims == []
             && k <= cat.resources
    ensures var l := Greedy(cat, UnloadLimits(cargo, stock), handling, handling, k);
            && 0 <= l.handling <= handling
            && l.volume == l.handling
            && forall r | r in l.goods ::
                r < k && r in cargo && 0 < l.goods[r] <= cargo[r] && l.goods[r] <= stock.FreeSpace(r) <= stock.Room(r)
  {
    hide ValidFacility, ValidFreight, ValidExpedition, ValidMandate, ValidRules;
    var limits := UnloadLimits(cargo, stock);
    GreedyFits(cat, limits, handling, handling, k);
    var l := Greedy(cat, limits, handling, handling, k);
    CargoVolumeIsNat(cat, l.goods, k);
    forall r | r in l.goods ensures r < k && r in cargo && 0 < l.goods[r] <= cargo[r]
        && l.goods[r] <= stock.FreeSpace(r) <= stock.Room(r) {
      assert limits[r] == Min(cargo[r], stock.FreeSpace(r));
      SumEmpty(ClaimedFor(r));
    }
  }

  lemma {:induction false} CargoVolumeIsNat(cat: Catalog, goods: ResourceMap, k: nat)
    requires forall r | r in goods :: 0 <= goods[r]
    requires forall r | 0 <= r < |cat.volumePerUnit| :: 0 <= cat.volumePerUnit[r]
    ensures 0 <= CargoVolume(cat, goods, k)
  {
    hide CeilOf;
    if k > 0 {
      CargoVolumeIsNat(cat, goods, k - 1);
      if k - 1 in goods {
        FloorOfNat(goods[k - 1], cat.Volume(k - 1), MILLI_ONE);
      }
    }
  }

  method PortAt(cat: Catalog, fs: seq<Facility>, p: nat, day: int) returns (open: bool)
    ensures open <==> HasPort(cat, fs, p, day)
  {
    open := false;
    for i := 0 to |fs|
      invariant open <==> exists k | 0 <= k < i :: IsPort(cat, fs[k], p, day)
    {
      if IsPort(cat, fs[i], p, day) {
        open := true;
      }
    }
  }

  /** Erases the shipment's claims one booking at a time. */
  method ReleaseClaims(s: Session, p: nat)
    requires p < |s.planets|
    modifies s`planets, s`ship
    ensures s.planets == WithClaims(old(s.planets), p, Release(old(s.planets[p].stock.claims), old(s.ship.bookings)))
    ensures s.ship == old(s.ship).(bookings := [])
  {
    var left, claims := s.ship.bookings, s.planets[p].stock.claims;
    ghost var all := claims;
    while left != []
      invariant Release(claims, left) == Release(all, s.ship.bookings)
      invariant s.ship == old(s.ship) && s.planets == old(s.planets)
      decreases left
    {
      claims := RemoveClaim(claims, left[0]);
      left := left[1..];
    }
    s.planets := WithClaims(s.planets, p, claims);
    s.ship := s.ship.(bookings := []);
  }

  function Drawn(a: ResourceMap, b: ResourceMap): ResourceMap {
    map r | r in a :: a[r] - Qty(b, r)
  }

  /** The ship part-way through unloading: emptied entries are still listed. */
  function ShipAt(ship: Ship, goods: ResourceMap): Ship {
    ship.(cargo := Drawn(ship.cargo, goods), unloaded := Both(ship.unloaded, goods))
  }

  lemma ShipAtNext(ship: Ship, goods: ResourceMap, r: nat, q: int)
    requires r in ship.cargo && r !in goods
    ensures r in ShipAt(ship, goods).cargo && ShipAt(ship, goods).cargo[r] == ship.cargo[r]
    ensures ShipAt(ship, goods[r := q]) ==
              ShipAt(ship, goods).(cargo := ShipAt(ship, goods).cargo[r := ship.cargo[r] - q],
                  unloaded := Plus(ShipAt(ship, goods).unloaded, r, q))
  {
    var now := ShipAt(ship, goods);
    assert Drawn(ship.cargo, goods[r := q]) == now.cargo[r := ship.cargo[r] - q];
    assert Both(ship.unloaded, goods[r := q]) == Plus(now.unloaded, r, q);
  }

  lemma ShipAtStart(ship: Ship)
    ensures ShipAt(ship, map[]) == ship
  {
    assert Drawn(ship.cargo, map[]) == ship.cargo;
    assert Both(ship.unloaded, map[]) == ship.unloaded;
  }

  /** One resource comes ashore: what is aboard, within handling and room. */
  method MoveOne(s: Session, p: nat, r: nat, ghost base: seq<Planet>, ghost moves: seq<Move>, ghost limits: ResourceMap,
                 ghost l: Load,
                 ghost ship: Ship)
    requires s.Stores() && p < |s.planets| == |s.scratch| && r < s.cat.resources && r in ship.cargo
    requires p < |base| && |base[p].stock.onHand| == s.cat.resources
    requires Credited(base, s.planets, p, l.goods) && Posted(moves, s.recorded, ShipHold, PlanetStock(p), l.goods)
    requires limits == UnloadLimits(ship.cargo, base[p].stock) && l.volume == l.handling == s.scratch[p].handlingLeft
    requires base[p].stock.claims == [] && r !in l.goods
    requires s.ship == ShipAt(ship, l.goods)
    modifies s`planets, s`ship, s`scratch, s`ledger, s`recorded
    ensures s.Stores() && |s.planets| == |base| == |s.scratch|
    ensures var l' := LoadOne(s.cat.Volume(r), r, limits[r], l);
            && Credited(base, s.planets, p, l'.goods) && Posted(moves, s.recorded, ShipHold, PlanetStock(p), l'.goods)
            && s.scratch == old(s.scratch)[p := old(s.scratch[p]).(handlingLeft := l'.handling)]
            && s.ship == ShipAt(ship, l'.goods)
  {
    hide Sum, Net, ValidCatalog, LedgerOk, PlanetsBalance, VolumeOf, QuantityForVolume, ShipAt, StockOk, Posted, OnHand,
         Credited;
    var day := s.scratch[p];
    ShipAtNext(ship, l.goods, r, Takes(s.cat.Volume(r), limits[r], l));
    CreditLeavesTheRest(base, s.planets, p, l.goods, r);
    CreditedMoves(base, s.planets, p, l.goods);
    assert OnlyStock(base[p], s.planets[p]);
    SumEmpty(ClaimedFor(r));
    var aboard := s.ship.cargo[r];
    var move := Min(aboard, Min(QuantityForVolume(s.cat.Volume(r), day.handlingLeft), s.planets[p].stock.FreeSpace(r)));
    assert move == Takes(s.cat.Volume(r), limits[r], l);
    if move <= 0 {
      assert s.scratch[p := day.(handlingLeft := day.handlingLeft)] == s.scratch;
      return;
    }
    ghost var soFar, entries := s.planets, s.recorded;
    var added := AddStock(s, p, r, move, ShipHold);
    ghost var goods := l.goods[r := move];
    CreditedThen(base, soFar, s.planets, p, l.goods, Single(r, added), goods);
    PostedThen(moves, entries, s.recorded, ShipHold, PlanetStock(p), l.goods, Single(r, added), goods);
    CreditedMoves(base, s.planets, p, goods);
    s.ship := s.ship.(cargo := s.ship.cargo[r := aboard - added], unloaded := Plus(s.ship.unloaded, r, added));
    s.scratch := s.scratch[p := day.(handlingLeft := day.handlingLeft - VolumeOf(s.cat.Volume(r), added))];
  }

  /** Moves the day's goods ashore, resource by resource. */
  method MoveAshore(s: Session, p: nat)
    requires s.Stores() && p < |s.planets| == |s.scratch| && s.planets[p].stock.claims == []
    requires 0 <= s.scratch[p].handlingLeft && forall r | r in s.ship.cargo :: r < s.cat.resources
    modifies s`planets, s`ship, s`scratch, s`ledger, s`recorded
    ensures s.Stores() && |s.scratch| == |old(s.scratch)|
    ensures var h := old(s.scratch[p].handlingLeft);
            var load := Greedy(s.cat, UnloadLimits(old(s.ship.cargo), old(s.planets[p].stock)), h, h, s.cat.resources);
            && s.ship == ShipAt(old(s.ship), load.goods)
            && s.scratch == old(s.scratch)[p := old(s.scratch[p]).(handlingLeft := load.handling)]
            && Credited(old(s.planets), s.planets, p, load.goods)
            && Posted(old(s.recorded), s.recorded, ShipHold, PlanetStock(p), load.goods)
  {
    hide Sum, Net, ValidCatalog, LedgerOk, PlanetsBalance, ShipAt, StockOk, Posted, OnHand, LoadOne;
    ghost var base, moves, ship, scratch := s.planets, s.recorded, s.ship, s.scratch;
    assert base[p].stock.Sound(s.cat.resources) by { StoresSound(s.cat, s.planets, p); }
    ghost var h := s.scratch[p].handlingLeft;
    ghost var limits := UnloadLimits(ship.cargo, base[p].stock);
    ShipAtStart(ship);
    PostedNothing(moves, ShipHold, PlanetStock(p), map[]);
    assert scratch[p := scratch[p].(handlingLeft := h)] == scratch;
    for r := 0 to s.cat.resources
      invariant s.Stores() && |s.planets| == |base| == |s.scratch|
      invariant var l := Greedy(s.cat, limits, h, h, r);
                && s.ship == ShipAt(ship, l.goods)
                && s.scratch == scratch[p := scratch[p].(handlingLeft := l.handling)]
                && Credited(base, s.planets, p, l.goods)
                && Posted(moves, s.recorded, ShipHold, PlanetStock(p), l.goods)
    {
      ghost var l := Greedy(s.cat, limits, h, h, r);
      UnloadLimitsFit(s.cat, ship.cargo, base[p].stock, h, r);
      CargoKeys(ship, l.goods);
      if r in s.ship.cargo {
        MoveOne(s, p, r, base, moves, limits, l, ship);
      }
    }
  }

  lemma StoresSound(cat: Catalog, planets: seq<Planet>, p: nat)
    requires StockOk(planets, cat.resources) && p < |planets|
    ensures planets[p].stock.Sound(cat.resources)
  {
  }

  lemma CargoKeys(ship: Ship, goods: ResourceMap)
    ensures ShipAt(ship, goods).cargo.Keys == ship.cargo.Keys
  {
  }

  /** Drops emptied entries and, when nothing is left aboard, docks the ship. */
  function Settle(cat: Catalog, ship: Ship, day: int): Ship {
    var rest := map r | r in ship.cargo && ship.cargo[r] > 0 :: ship.cargo[r];
    var after := ship.(phase := Unloading, cargo := rest);
    if rest == map[] then Docking(cat, after, day).(unloaded := map[]) else after
  }

  lemma SettleIs(cat: Catalog, ship: Ship, goods: ResourceMap, day: int)
    ensures Settle(cat, ShipAt(ship.(bookings := []), goods), day) == Unloaded(cat, ship, goods, day)
  {
    var aboard := Drawn(ship.cargo, goods);
    assert (map r | r in aboard && aboard[r] > 0 :: aboard[r]) == Less(ship.cargo, goods);
  }

  /** The open-port case: release, move, settle. */
  method BringAshore(s: Session, p: nat)
    requires s.Stores() && p < |s.planets| == |s.scratch| && Release(s.planets[p].stock.claims, s.ship.bookings) == []
    requires 0 <= s.scratch[p].handlingLeft && Positive(s.ship.cargo, s.cat.resources) && s.ship.location == Some(p)
    modifies s`planets, s`ship, s`scratch, s`ledger, s`recorded
    ensures s.ship == Unloaded(s.cat, old(s.ship), old(Landing(s.cat, s.Now())).goods, s.day)
    ensures s.scratch == old(s.scratch)[p := old(s.scratch[p]).(handlingLeft := old(Landing(s.cat, s.Now())).handling)]
    ensures Credited(WithClaims(old(s.planets), p, []), s.planets, p, old(Landing(s.cat, s.Now())).goods)
    ensures Posted(old(s.recorded), s.recorded, ShipHold, PlanetStock(p), old(Landing(s.cat, s.Now())).goods)
    ensures LedgerOk(s.ledger, s.recorded, |s.planets|, s.nextId)
  {
    hide Sum, Net, ValidCatalog, PlanetsBalance, StockOk, Posted, Credited, Greedy, UnloadLimits, Settle, Unloaded,
         ShipAt, LedgerOk;
    ghost var load := Landing(s.cat, s.Now());
    ClaimsDropped(s.cat, s.planets, p, s.books.opening, s.recorded);
    SettleIs(s.cat, s.ship, load.goods, s.day);
    ReleaseClaims(s, p);
    MoveAshore(s, p);
    s.ship := Settle(s.cat, s.ship, s.day);
  }

  /** Unloads an arrived ship with today's port service. */
  method UnloadArrivals(s: Session)
    requires s.Stores() && |s.scratch| == |s.planets| && ClaimsOk(s.planets, s.ship)
    requires Positive(s.ship.cargo, s.cat.resources)
    requires Ashore(s.ship) ==>
             s.ship.location == s.ship.destination && s.ship.location.Some? && s.ship.location.value < |s.planets|
    requires Ashore(s.ship) ==> s.ship.mission.NoMission?
    modifies s`planets, s`ship, s`scratch, s`ledger, s`recorded
    ensures UnloadStep(s.cat, old(s.Now()), s.Now())
  {
    hide Sum, Net, ValidCatalog, PlanetsBalance, StockOk, Posted, Credited, LedgerOk, Unloaded, HasPort, Landing,
         Positive, ClaimsOk, Docking;
    if !Ashore(s.ship) {
      return;
    }
    if s.ship.cargo == map[] {
      s.ship := Docking(s.cat, s.ship, s.day);
      return;
    }
    var p := s.ship.location.value;
    var open := PortAt(s.cat, s.facilities, p, s.day);
    if !open || s.scratch[p].handlingLeft <= 0 {
      s.ship := s.ship.(phase := ArrivedHolding);
      return;
    }
    ClaimsGone(s.planets, s.ship, p);
    BringAshore(s, p);
    assert unchanged(s`day, s`nextId, s`facilities, s`transfers, s`route, s`colony, s`demand, s`books);
  }

  /** At the ship's own port there are no claims but its own, so releasing them leaves none. */
  lemma ClaimsGone(planets: seq<Planet>, ship: Ship, p: nat)
    requires ClaimsOk(planets, ship) && Ashore(ship) && ship.mission.NoMission?
             && ship.location == ship.destination == Some(p) && p < |planets|
    ensures Release(planets[p].stock.claims, ship.bookings) == []
  {
    hide Sum;
    if Pledged(ship) {
      ReleaseAll(planets[p].stock.claims, ship.bookings);
    }
  }

  /** Cargo ashore and cargo aboard still add up to the shipment, and the emptied hold is a docked ship. */
  lemma UnloadedShip(cat: Catalog, ship: Ship, goods: ResourceMap, day: int, resolved: int, shipped: ResourceMap)
    requires ShipOk(cat, ship, resolved) && ShippedOk(ship, shipped) && Ashore(ship)
    requires forall r | r in goods :: r in ship.cargo && 0 < goods[r] <= ship.cargo[r]
    ensures var ship' := Unloaded(cat, ship, goods, day);
            && ShipOk(cat, ship', resolved) && ShippedOk(ship', shipped) && !Pledged(ship')
            && ship'.bookings == [] && ship'.mission.NoMission? && ship'.tank == ship.tank
                && ship'.location == ship.location
            && forall r: nat :: Qty(ship'.cargo, r) == Qty(ship.cargo, r) - Qty(goods, r)
  {
    var ship' := Unloaded(cat, ship, goods, day);
    forall r: nat ensures Qty(ship'.cargo, r) == Qty(ship.cargo, r) - Qty(goods, r) {
      assert r in ship.cargo ==> ship.cargo[r] > 0;
    }
    if ship'.phase.Unloading? {
      forall r: nat ensures Qty(ship'.cargo, r) + Qty(ship'.unloaded, r) == Qty(shipped, r) {
        assert Qty(ship.cargo, r) + Qty(ship.unloaded, r) == Qty(shipped, r);
      }
    }
  }

  lemma ShipSpends(ship: Ship, ship': Ship, fuel: nat, before: seq<Move>, after: seq<Move>, p: nat, goods: ResourceMap)
    requires ShipBalance(ship, fuel, before) && Posted(before, after, ShipHold, PlanetStock(p), goods)
    requires ship'.tank == ship.tank && forall r: nat :: Qty(ship'.cargo, r) == Qty(ship.cargo, r) - Qty(goods, r)
    ensures ShipBalance(ship', fuel, after)
  {
    hide Net;
    forall r: nat ensures Net(after, ShipHold, r) == Qty(ship'.cargo, r) + (if r == fuel then ship'.tank else 0) {
      assert Net(before, ShipHold, r) == Qty(ship.cargo, r) + (if r == fuel then ship.tank else 0);
    }
  }

  /** With the ship unpledged no world has a claim on it, before or after its stock changes. */
  lemma NoClaimsLeft(planets: seq<Planet>, after: seq<Planet>, ship: Ship, ship': Ship, p: nat)
    requires ClaimsOk(planets, ship) && Ashore(ship) && ship.mission.NoMission?
             && ship.location == ship.destination == Some(p) && p < |planets|
    requires OnlyStocks(WithClaims(planets, p, []), after) && !Pledged(ship') && ship'.bookings == []
    ensures ClaimsOk(after, ship')
  {
    hide Sum;
    forall q | 0 <= q < |after| ensures after[q].stock.claims == [] {
      assert OnlyStock(WithClaims(planets, p, [])[q], after[q]);
    }
  }

  lemma UnloadKeepsInv(cat: Catalog, w: World, w': World, d: int, d': int)
    requires InvAt(cat, w, d, d') && UnloadStep(cat, w, w') && |w.scratch| == |w.planets|
    requires forall p | 0 <= p < |w.scratch| :: 0 <= w.scratch[p].handlingLeft
    ensures InvAt(cat, w', d, d') && |w'.scratch| == |w'.planets|
    ensures forall p | 0 <= p < |w'.scratch| :: 0 <= w'.scratch[p].handlingLeft <= w.scratch[p].handlingLeft
  {
    if Ashore(w.ship) && w.ship.cargo != map[] && PortOpen(cat, w) {
      UnloadOpenKeepsInv(cat, w, w', d, d');
    } else {
      UnloadIdleKeepsInv(cat, w, w', d, d');
    }
  }

  lemma UnloadOpenKeepsInv(cat: Catalog, w: World, w': World, d: int, d': int)
    requires InvAt(cat, w, d, d') && UnloadStep(cat, w, w') && |w.scratch| == |w.planets|
    requires forall p | 0 <= p < |w.scratch| :: 0 <= w.scratch[p].handlingLeft
    requires Ashore(w.ship) && w.ship.cargo != map[] && PortOpen(cat, w)
    ensures InvAt(cat, w', d, d') && |w'.scratch| == |w'.planets|
    ensures forall p | 0 <= p < |w'.scratch| :: 0 <= w'.scratch[p].handlingLeft <= w.scratch[p].handlingLeft
  {
    hide Sum, Net, FacilityOk, EscrowBalance, StockOk, LedgerOk, PlanetsBalance, ExpeditionBalance, Posted, Credited,
         Greedy, UnloadLimits, Unloaded, ColonyOk, PeopleOk, BookedOk, ShipBalance, ValidCatalog, WorkforceOk, HasPort,
         VoyagesOk;
    var p := w.ship.location.value;
    var load := Landing(cat, w);
    var base := WithClaims(w.planets, p, []);
    ClaimsGone(w.planets, w.ship, p);
    ClaimsDropped(cat, w.planets, p, w.books.opening, w.recorded);
    StoresSound(cat, base, p);
    UnloadLimitsFit(cat, w.ship.cargo, base[p].stock, w.scratch[p].handlingLeft, cat.resources);
    UnloadedShip(cat, w.ship, load.goods, w.day, d', w.books.shipped);
    CreditKeepsStores(cat, w.(planets := base), w', p, load.goods, ShipHold);
    ShipSpends(w.ship, w'.ship, cat.fuel, w.recorded, w'.recorded, p, load.goods);
    PostedElsewhere(w.recorded, w'.recorded, ShipHold, PlanetStock(p), load.goods, w, cat.fuel);
    CreditedMoves(base, w'.planets, p, load.goods);
    NoClaimsLeft(w.planets, w'.planets, w.ship, w'.ship, p);
    ClaimsMoveNobody(cat, w, p, [], d);
    StockMovesNobody(cat, base, w'.planets, w, d);
    DemandSame(cat, w.demand, w.ship, w'.ship);
  }

  /** Off mission, the mandate does not depend on where the ship is. */
  lemma DemandSame(cat: Catalog, demand: Demand, ship: Ship, ship': Ship)
    requires DemandOk(cat, demand, ship) && ship.mission.NoMission? && ship'.mission.NoMission?
    ensures DemandOk(cat, demand, ship')
  {
  }

  lemma ClaimsMoveNobody(cat: Catalog, w: World, p: nat, claims: seq<Claim>, day: int)
    requires p < |w.planets|
    ensures var b := WithClaims(w.planets, p, claims);
            && (WorkforceOk(cat, w.planets, w.facilities, w.transfers, w.nextId) ==>
                WorkforceOk(cat, b, w.facilities, w.transfers, w.nextId))
            && (ColonyOk(cat, w.colony, w.planets, day) ==> ColonyOk(cat, w.colony, b, day))
            && (PeopleOk(w.planets, w.colony, w.books.people, w.books.workforce) ==>
                PeopleOk(b, w.colony, w.books.people, w.books.workforce))
  {
    hide AfterDays, FacilityOk, StaffOk, TransfersOk;
    SumsOfPeople(w.planets, WithClaims(w.planets, p, claims));
  }

  lemma UnloadIdleKeepsInv(cat: Catalog, w: World, w': World, d: int, d': int)
    requires InvAt(cat, w, d, d') && UnloadStep(cat, w, w')
    requires !(Ashore(w.ship) && w.ship.cargo != map[] && PortOpen(cat, w))
    ensures InvAt(cat, w', d, d') && w'.scratch == w.scratch && w'.planets == w.planets
  {
    hide Sum, Net, WorkforceOk, StoresOk, EscrowBalance, ExpeditionBalance, ColonyOk, PeopleOk, BookedOk, Posted,
         Credited, LedgerOk, Landing, HasPort;
    if Ashore(w.ship) && w.ship.cargo == map[] {
      NothingPledged(w.planets, w.ship);
    }
  }

  /** A ship that arrived empty holds no claims. */
  lemma NothingPledged(planets: seq<Planet>, ship: Ship)
    requires ClaimsOk(planets, ship) && ship.cargo == map[]
    ensures ship.bookings == [] && forall p | 0 <= p < |planets| :: planets[p].stock.claims == []
  {
    if Pledged(ship) {
      var p := ship.destination.value;
      var claims := planets[p].stock.claims;
      if claims != [] {
        var c := claims[0];
        assert c.id == ship.bookings[0];
        var total := planets[p].stock.Claimed(c.resource);
        SumAtLeast(claims, 0, ClaimedFor(c.resource));
      }
    }
  }
}
