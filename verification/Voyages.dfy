/** The ship's strategic voyages and every kind of arrival. */
module Voyages {
  import opened Sums
  import opened Stock
  import opened Ledger
  import opened Catalog
  import opened State
  import opened Support
  import opened Loading
  import opened Freight
  import opened Departures
  import opened Mandate

  // ----- strategic departure -----

  ghost predicate MissionWaiting(cat: Catalog, w: World) {
    && w.demand.requested && AtOrigin(cat, w.ship, w.day) && w.ship.cargo == map[]
    && cat.freight.origin < |w.planets| && cat.freight.origin < |w.scratch|
  }

  ghost predicate MissionReady(cat: Catalog, w: World) {
    && MissionWaiting(cat, w)
    && Affords(w.planets[cat.freight.origin].stock,
               Total(cat, w.demand.pending, cat.mandate.missionFuel, cat.mandate.missionMachinery), cat.resources)
    && CargoVolume(cat, w.demand.pending, cat.resources) <= w.scratch[cat.freight.origin].handlingLeft
  }

  function Embarked(cat: Catalog, ship: Ship, manifest: ResourceMap, day: int): Ship {
    ship.(phase := Transit, mission := StrategicOutbound, location := None, destination := None, departureDay := day,
          arrivalDay := day + cat.mandate.outboundDays, cargo := manifest)
  }

  function Logged(cat: Catalog, d: Demand, day: int): Demand {
    d.(voyages := d.voyages + [Voyage(day, day + cat.mandate.outboundDays, d.pending, false)],
       requested := false, pending := map[], committed := true)
  }

  function Abandoned(d: Demand): Demand {
    d.(requested := false, pending := map[], committed := false)
  }

  /** A committed mission departs with its whole manifest or not at all, and is given up once it can no
      longer leave in time. */
  ghost predicate DepartMissionStep(cat: Catalog, w: World, w': World) {
    if !MissionReady(cat, w) then w' == w
    else if w.day > cat.mandate.lastDeparture then w' == w.(demand := Abandoned(w.demand))
    else
      var p, m, pending := cat.freight.origin, cat.mandate, w.demand.pending;
      && w' == w.(ship := Embarked(cat, w.ship, pending, w.day), demand := Logged(cat, w.demand, w.day),
                  scratch := w.scratch[p := w.scratch[p].(handlingLeft := w.scratch[p].handlingLeft - CargoVolume(cat,
                      pending, cat.resources))],
                  planets := w'.planets, ledger := w'.ledger, recorded := w'.recorded)
      && Debited(w.planets, w'.planets, p, Total(cat, pending, m.missionFuel, m.missionMachinery))
      && LegPosted(cat, w.recorded, w'.recorded, p, pending, m.missionFuel, m.missionMachinery, m.missionFuel)
      && LedgerOk(w'.ledger, w'.recorded, |w'.planets|, w'.nextId)
  }

  lemma FlowOfMission(cat: Catalog, a: seq<Move>, b: seq<Move>, c: seq<Move>, d: seq<Move>, src: nat,
                      goods: ResourceMap, fuel: int, machinery: int)
    requires Posted(a, b, PlanetStock(src), ShipHold, goods)
    requires Posted(b, c, PlanetStock(src), SinkPropulsion, Single(cat.fuel, fuel))
    requires Posted(c, d, PlanetStock(src), SinkPropulsion, Single(cat.machinery, machinery))
    ensures LegPosted(cat, a, d, src, goods, fuel, machinery, fuel)
  {
    hide Net;
    forall x: Account, r: nat ensures Net(d, x, r) == Net(a, x, r) + LegFlow(cat, src, goods, fuel, machinery, fuel, x,
        r) {
      assert Net(d, x, r) == Net(c, x, r) + (if x == SinkPropulsion then Qty(Single(cat.machinery, machinery), r)
             else 0) - (if x == PlanetStock(src) then Qty(Single(cat.machinery, machinery), r) else 0);
      assert Net(c, x, r) == Net(b, x, r) + (if x == SinkPropulsion then Qty(Single(cat.fuel, fuel), r)
             else 0) - (if x == PlanetStock(src) then Qty(Single(cat.fuel, fuel), r) else 0);
      assert Net(b, x, r) == Net(a, x, r) + (if x == ShipHold then Qty(goods, r)
             else 0) - (if x == PlanetStock(src) then Qty(goods, r) else 0);
    }
  }

  /** Takes the manifest aboard and pays the voyage's fuel and machinery up front. */
  method LoadMission(s: Session, p: nat, goods: ResourceMap, fuel: int, machinery: int)
    requires s.Stores() && p < |s.planets| && 0 <= fuel && 0 <= machinery && Positive(goods, s.cat.resources)
    requires Affords(s.planets[p].stock, Total(s.cat, goods, fuel, machinery), s.cat.resources)
    modifies s`planets, s`ledger, s`recorded
    ensures Debited(old(s.planets), s.planets, p, Total(s.cat, goods, fuel, machinery))
    ensures LegPosted(s.cat, old(s.recorded), s.recorded, p, goods, fuel, machinery, fuel)
    ensures LedgerOk(s.ledger, s.recorded, |s.planets|, s.nextId)
  {
    hide Sum, Net, LedgerOk, PlanetsBalance, StockOk, Posted, Debited, LegPosted, OnHand, ValidFacility, ValidFreight,
         ValidExpedition, ValidMandate, ValidRules;
    ghost var p0, m0 := s.planets, s.recorded;
    ghost var extras := Extras(s.cat, fuel, machinery);
    GoodsAfforded(s.cat, s.planets[p].stock, goods, fuel, machinery);
    DebitAll(s, p, goods, ShipHold);
    ghost var p1, m1 := s.planets, s.recorded;
    GoodsLeaveExtras(s.cat, p0, p1, p, goods, fuel, machinery);
    var _ := RemoveStock(s, p, s.cat.fuel, fuel, SinkPropulsion);
    ghost var p2, m2 := s.planets, s.recorded;
    OthersStay(p1, p2, p, s.cat.fuel, fuel, s.cat.machinery);
    var _ := RemoveStock(s, p, s.cat.machinery, machinery, SinkPropulsion);
    DebitedThen(p1, p2, s.planets, p, Single(s.cat.fuel, fuel), Single(s.cat.machinery, machinery), extras);
    DebitedThen(p0, p1, s.planets, p, goods, extras, Total(s.cat, goods, fuel, machinery));
    FlowOfMission(s.cat, m0, m1, m2, s.recorded, p, goods, fuel, machinery);
  }

  lemma GoodsAfforded(cat: Catalog, stock: Inventory, goods: ResourceMap, fuel: int, machinery: int)
    requires Affords(stock, Total(cat, goods, fuel, machinery), cat.resources) && cat.fuel != cat.machinery && 0 <= fuel
             && 0 <= machinery
    ensures Affords(stock, goods, cat.resources)
  {
    hide Sum;
    forall r: nat | r < cat.resources ensures Qty(goods, r) <= stock.Available(r) {
      TotalQty(cat, goods, fuel, machinery, r);
      assert Qty(Total(cat, goods, fuel, machinery), r) <= stock.Available(r);
    }
  }

  lemma GoodsLeaveExtras(cat: Catalog, a: seq<Planet>, b: seq<Planet>, p: nat, goods: ResourceMap, fuel: int,
                         machinery: int)
    requires Debited(a, b, p, goods) && p < |a|
    requires cat.fuel != cat.machinery && cat.fuel < cat.resources && cat.machinery < cat.resources
    requires Affords(a[p].stock, Total(cat, goods, fuel, machinery), cat.resources)
    ensures |b| == |a| && |b[p].stock.onHand| == cat.resources
    ensures fuel <= b[p].stock.Available(cat.fuel) && machinery <= b[p].stock.Available(cat.machinery)
  {
    assert OnlyStock(a[p], b[p]);
    TotalQty(cat, goods, fuel, machinery, cat.fuel);
    TotalQty(cat, goods, fuel, machinery, cat.machinery);
    assert OnHand(b, p, cat.fuel) == OnHand(a, p, cat.fuel) - Qty(goods, cat.fuel);
    assert OnHand(b, p, cat.machinery) == OnHand(a, p, cat.machinery) - Qty(goods, cat.machinery);
  }

  method DepartStrategicMission(s: Session)
    requires s.Stores() && |s.scratch| == |s.planets| && Positive(s.demand.pending, s.cat.resources)
    modifies s`planets, s`ship, s`demand, s`scratch, s`ledger, s`recorded
    ensures DepartMissionStep(s.cat, old(s.Now()), s.Now())
  {
    hide Sum, ValidFacility, ValidExpedition, LedgerOk, PlanetsBalance, StockOk, Affords, CargoVolume, Debited,
         LegPosted, Total, Positive;
    var p, m, pending := s.cat.freight.origin, s.cat.mandate, s.demand.pending;
    if !s.demand.requested || !AtOrigin(s.cat, s.ship, s.day) || s.ship.cargo != map[] {
      return;
    }
    StoresSound(s.cat, s.planets, p);
    var covered := Covered(s.planets[p].stock, pending, s.cat.fuel, m.missionFuel, s.cat.machinery, m.missionMachinery,
        s.cat.resources);
    TotalIs(s.cat, pending, m.missionFuel, m.missionMachinery);
    var volume := VolumeAboard(s.cat, pending);
    if !covered || s.scratch[p].handlingLeft < volume {
      return;
    }
    if s.day > m.lastDeparture {
      s.demand := Abandoned(s.demand);
      return;
    }
    LoadMission(s, p, pending, m.missionFuel, m.missionMachinery);
    s.scratch := s.scratch[p := s.scratch[p].(handlingLeft := s.scratch[p].handlingLeft - volume)];
    s.ship := Embarked(s.cat, s.ship, pending, s.day);
    s.demand := Logged(s.cat, s.demand, s.day);
    assert unchanged(s`day, s`nextId, s`facilities, s`transfers, s`route, s`colony, s`books);
  }

  lemma TotalIs(cat: Catalog, goods: ResourceMap, fuel: int, machinery: int)
    ensures Total(cat, goods, fuel, machinery) == Both(goods, map[cat.fuel := fuel, cat.machinery := machinery])
  {
  }

  lemma DepartMissionKeepsInv(cat: Catalog, w: World, w': World, d: int, d': int)
    requires InvAt(cat, w, d, d') && DepartMissionStep(cat, w, w') && d' <= w.day && |w.scratch| == |w.planets|
    ensures InvAt(cat, w', d, d') && |w'.scratch| == |w'.planets|
  {
    hide Sum, Net, FacilityOk, EscrowBalance, StockOk, LedgerOk, PlanetsBalance, ExpeditionBalance, Debited, LegPosted,
         Affords, ColonyOk, PeopleOk, BookedOk, ShipBalance, WorkforceOk, ValidFacility, ValidExpedition, ValidRules,
         CargoVolume, ClaimsOk;
    if MissionReady(cat, w) {
      if w.day > cat.mandate.lastDeparture {
        DemandOnly(cat, w, w', d, d');
      } else {
        var p, m, pending := cat.freight.origin, cat.mandate, w.demand.pending;
        MissionStores(cat, w, w', p, pending, m.missionFuel, m.missionMachinery);
        LegBalances(cat, w, w', p, pending, m.missionFuel, m.missionMachinery, m.missionFuel);
        DebitedMoves(w.planets, w'.planets, p, Total(cat, pending, m.missionFuel, m.missionMachinery));
        StockMovesNobody(cat, w.planets, w'.planets, w, d);
        UnpledgedClaims(w'.planets, w.ship, w'.ship);
        VoyageAppended(w.demand.voyages, w'.demand.voyages[|w.demand.voyages|]);
      }
    }
  }

  lemma MissionStores(cat: Catalog, w: World, w': World, p: nat, goods: ResourceMap, fuel: int, machinery: int)
    requires StoresOk(cat, w.planets, w.ledger, w.recorded, w.books.opening, w.nextId) && p < |w.planets|
    requires 0 <= fuel && 0 <= machinery && Positive(goods, cat.resources)
    requires Affords(w.planets[p].stock, Total(cat, goods, fuel, machinery), cat.resources)
    requires Debited(w.planets, w'.planets, p, Total(cat, goods, fuel, machinery))
    requires LegPosted(cat, w.recorded, w'.recorded, p, goods, fuel, machinery, fuel)
    requires LedgerOk(w'.ledger, w'.recorded, |w'.planets|, w'.nextId) && 0 < w'.nextId
             && w'.books.opening == w.books.opening
    ensures StoresOk(cat, w'.planets, w'.ledger, w'.recorded, w'.books.opening, w'.nextId)
            && (BookedOk(w.planets) ==> BookedOk(w'.planets))
  {
    hide Sum, Net, LedgerOk, PlanetsBalance, LegPosted, ValidFacility, ValidFreight, ValidExpedition, ValidMandate,
         ValidRules;
    forall r: nat ensures 0 <= Qty(Total(cat, goods, fuel, machinery), r) {
      TotalQty(cat, goods, fuel, machinery, r);
    }
    DebitKeepsSound(w.planets, w'.planets, p, Total(cat, goods, fuel, machinery), cat.resources);
    assert OnlyStock(w.planets[p], w'.planets[p]);
    assert WithClaims(w'.planets, p, w.planets[p].stock.claims) == w'.planets;
    ShippedKeepsBalance(cat, w.books.opening, w.planets, w'.planets, p, p, goods, fuel, machinery, fuel, w.recorded,
        w'.recorded);
  }

  /** With neither ship pledged the worlds have no claims, whichever ship they are read against. */
  lemma UnpledgedClaims(planets: seq<Planet>, ship: Ship, ship': Ship)
    requires ClaimsOk(planets, ship) && !Pledged(ship) && !Pledged(ship') && ship'.bookings == ship.bookings
    ensures ClaimsOk(planets, ship')
  {
    hide Sum;
  }

  // ----- arrivals -----

  function Marked(v: Voyage, day: int): Voyage {
    if v.delivery == day && !v.delivered then v.(delivered := true) else v
  }

  function MarkAll(vs: seq<Voyage>, day: int): seq<Voyage> {
    seq(|vs|, i requires 0 <= i < |vs| => Marked(vs[i], day))
  }

  predicate Arriving(ship: Ship, day: int) {
    ship.phase.Transit? && 0 <= ship.arrivalDay <= day
  }

  /** The ship arrives at the front, back from the front, or at a port of its colony route. */
  ghost predicate ArrivalStep(cat: Catalog, w: World, w': World) {
    if !Arriving(w.ship, w.day) then w' == w
    else match w.ship.mission
      case StrategicOutbound =>
        && w' == w.(ship := w.ship.(cargo := map[], mission := StrategicReturn, destination := Some(cat.freight.origin),
            location := None,
                                    arrivalDay := w.day + cat.mandate.returnDays + cat.mandate.serviceDays),
                    demand := w.demand.(delivered := Both(w.demand.delivered, w.ship.cargo),
                        voyages := MarkAll(w.demand.voyages, w.day)),
                    ledger := w'.ledger, recorded := w'.recorded)
        && Posted(w.recorded, w'.recorded, ShipHold, Front, w.ship.cargo)
        && LedgerOk(w'.ledger, w'.recorded, |w'.planets|, w'.nextId)
      case StrategicReturn =>
        w' == w.(ship := Docking(cat, w.ship, w.day).(location := w.ship.destination, mission := NoMission),
                 demand := w.demand.(committed := false))
      case NoMission =>
        w' == w.(ship := w.ship.(phase := ArrivedHolding, location := w.ship.destination))
  }

  method ArriveShip(s: Session)
    requires s.Stores() && Positive(s.ship.cargo, s.cat.resources)
    modifies s`ship, s`demand, s`ledger, s`recorded
    ensures ArrivalStep(s.cat, old(s.Now()), s.Now())
  {
    hide Sum, Net, ValidCatalog, StockOk, PlanetsBalance, LedgerOk, Posted;
    if !Arriving(s.ship, s.day) {
      return;
    }
    match s.ship.mission {
      case StrategicOutbound =>
        RecordAll(s, s.ship.cargo, ShipHold, Front);
        s.demand := s.demand.(delivered := Both(s.demand.delivered, s.ship.cargo),
            voyages := MarkAll(s.demand.voyages, s.day));
        s.ship := s.ship.(cargo := map[], mission := StrategicReturn, destination := Some(s.cat.freight.origin),
            location := None,
                          arrivalDay := s.day + s.cat.mandate.returnDays + s.cat.mandate.serviceDays);
      case StrategicReturn =>
        s.ship := Docking(s.cat, s.ship, s.day).(location := s.ship.destination, mission := NoMission);
        s.demand := s.demand.(committed := false);
      case NoMission =>
        s.ship := s.ship.(phase := ArrivedHolding, location := s.ship.destination);
    }
    assert unchanged(s`day, s`nextId, s`planets, s`facilities, s`transfers, s`route, s`colony, s`scratch, s`books);
  }

  /** A delivery credits exactly the voyage under way. */
  lemma DeliveryCredits(cat: Catalog, d: Demand, ship: Ship, ship': Ship, day: int)
    requires DemandOk(cat, d, ship) && ship.mission.StrategicOutbound? && ship.arrivalDay == day
             && ship'.mission.StrategicReturn?
    ensures DemandOk(cat, d.(delivered := Both(d.delivered, ship.cargo), voyages := MarkAll(d.voyages, day)), ship')
  {
    hide Sum;
    var vs := d.voyages;
    var last := vs[|vs| - 1];
    var before := vs[..|vs| - 1];
    assert vs == before + [last];
    assert MarkAll(vs, day) == before + [last.(delivered := true)];
    VoyageAppended(before, last);
    VoyageAppended(before, last.(delivered := true));
    forall r: nat
      ensures Qty(Both(d.delivered, ship.cargo), r) == Sum(MarkAll(vs, day), DeliveredBy(r))
      ensures Sum(MarkAll(vs, day), CarriedBy(r)) == Sum(vs, CarriedBy(r))
    {
      assert Qty(d.delivered, r) == Sum(vs, DeliveredBy(r));
    }
  }

  lemma ArrivalKeepsInv(cat: Catalog, w: World, w': World, d: int)
    requires InvAt(cat, w, d, w.day - 1) && ArrivalStep(cat, w, w') && 0 <= w.day
    ensures InvAt(cat, w', d, w.day)
  {
    hide Sum, Net, FacilityOk, EscrowBalance, StockOk, LedgerOk, PlanetsBalance, ExpeditionBalance, Posted, DemandOk,
         ColonyOk, PeopleOk, BookedOk, ShipBalance, WorkforceOk, ValidFacility, ValidExpedition, ValidRules, ClaimsOk;
    if Arriving(w.ship, w.day) {
      match w.ship.mission {
        case StrategicOutbound =>
          DeliveryCredits(cat, w.demand, w.ship, w'.ship, w.day);
          PostedElsewhere(w.recorded, w'.recorded, ShipHold, Front, w.ship.cargo, w, cat.fuel);
          PostedOffWorld(w.books.opening, w.planets, w.recorded, w'.recorded, ShipHold, Front, w.ship.cargo);
          HoldEmptied(w.ship, w'.ship, cat.fuel, w.recorded, w'.recorded);
          UnpledgedClaims(w.planets, w.ship, w'.ship);
        case StrategicReturn =>
          UnpledgedClaims(w.planets, w.ship, w'.ship);
          HomeAgain(cat, w.demand, w.ship, w'.ship);
          SameHold(w.ship, w'.ship, cat.fuel, w.recorded);
        case NoMission =>
          HeldClaims(w.planets, w.ship, w'.ship);
          DemandSame(cat, w.demand, w.ship, w'.ship);
          SameHold(w.ship, w'.ship, cat.fuel, w.recorded);
      }
    }
  }

  lemma HoldEmptied(ship: Ship, ship': Ship, fuel: nat, before: seq<Move>, after: seq<Move>)
    requires ShipBalance(ship, fuel, before) && Posted(before, after, ShipHold, Front, ship.cargo)
    requires ship'.cargo == map[] && ship'.tank == ship.tank
    ensures ShipBalance(ship', fuel, after)
  {
    hide Net;
    forall r: nat ensures Net(after, ShipHold, r) == Qty(ship'.cargo, r) + (if r == fuel then ship'.tank else 0) {
      assert Net(before, ShipHold, r) == Qty(ship.cargo, r) + (if r == fuel then ship.tank else 0);
    }
  }

  lemma SameHold(ship: Ship, ship': Ship, fuel: nat, moves: seq<Move>)
    requires ShipBalance(ship, fuel, moves) && ship'.cargo == ship.cargo && ship'.tank == ship.tank
    ensures ShipBalance(ship', fuel, moves)
  {
  }

  lemma HomeAgain(cat: Catalog, d: Demand, ship: Ship, ship': Ship)
    requires DemandOk(cat, d, ship) && ship.mission.StrategicReturn? && ship'.mission.NoMission?
    ensures DemandOk(cat, d.(committed := false), ship')
  {
  }

  /** Claims stay with the cargo when the ship arrives. */
  lemma HeldClaims(planets: seq<Planet>, ship: Ship, ship': Ship)
    requires ClaimsOk(planets, ship) && ship.mission.NoMission? && ship.phase.Transit? && ship.location.None?
    requires ship' == ship.(phase := ArrivedHolding, location := ship.destination)
    ensures ClaimsOk(planets, ship')
  {
    hide Sum;
    if ship.bookings == [] {
      var p := ship.destination.value;
      assert planets[p].stock.claims == [];
    }
  }
}
