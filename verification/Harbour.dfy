/** What the freighter's steps come to in a day: coming ashore, sailing, arriving. */
module Harbour {
  import opened Units
  import opened Sums
  import opened Stock
  import opened Catalog
  import opened State
  import opened Loading
  import opened Freight
  import opened Departures
  import opened RoutePhase
  import opened Mandate
  import opened Support
  import opened Voyages
  import opened KeptBack
  import opened Shelves

  /** A port that can serve a ship today. */
  ghost predicate PortServes(cat: Catalog, w: World, p: nat) {
    exists i :: 0 <= i < |w.facilities| &&
      var f := w.facilities[i];
      && f.planet == p && f.life == Active && f.activates <= w.day
      && f.kind < |cat.facilities| && cat.facilities[f.kind].docks > 0
  }

  lemma PortServesIs(cat: Catalog, w: World, p: nat)
    ensures PortServes(cat, w, p) <==> HasPort(cat, w.facilities, p, w.day)
  {
    if PortServes(cat, w, p) {
      var i :| 0 <= i < |w.facilities| &&
        var f := w.facilities[i];
        && f.planet == p && f.life == Active && f.activates <= w.day
        && f.kind < |cat.facilities| && cat.facilities[f.kind].docks > 0;
      assert IsPort(cat, w.facilities[i], p, w.day);
    }
  }

  /** One resource coming ashore: what leaves the hold is in store, no more than has room beside what is promised once
      the ship's own bookings are gone; and all of that, where the port could still take one more unit. */
  ghost predicate Lands(cat: Catalog, w: World, w': World, p: nat, r: nat)
    requires p < |w.planets| == |w'.planets| && p < |w'.scratch|
    requires r < |w.planets[p].stock.onHand| && r < |w'.planets[p].stock.onHand| && r < |cat.volumePerUnit|
  {
    var aboard, ashore := Qty(w.ship.cargo, r), Qty(w.ship.cargo, r) - Qty(w'.ship.cargo, r);
    var before, after := w.planets[p].stock, w'.planets[p].stock;
    var room := Max(0, before.capacity - before.onHand[r] - after.Claimed(r));
    && 0 <= ashore <= Min(aboard, room) && after.onHand[r] == before.onHand[r] + ashore
    && (OneFits(cat.volumePerUnit[r], w'.scratch[p].handlingLeft, w'.scratch[p].handlingLeft)
        && aboard <= INT64_MAX / 2
        ==> ashore == Min(aboard, room))
  }

  /** A ship that is in and has cargo waits where no port can take it, and otherwise puts ashore what it can; one that
      is in and empty docks, and rests before it may leave. */
  ghost predicate Unloads(cat: Catalog, w: World, w': World) {
    var ship, ship' := w.ship, w'.ship;
    if ship.phase != ArrivedHolding && ship.phase != Unloading then w' == w
    else if ship.cargo == map[] then
      w' == w.(ship := ship.(phase := Docked, earliest := w.day + cat.freight.minDwellDays))
    else if ship.location.None? || !PortServes(cat, w, ship.location.value) || |w.planets| <= ship.location.value
            || |w.scratch| <= ship.location.value || w.scratch[ship.location.value].handlingLeft <= 0 then
      w' == w.(ship := ship.(phase := ArrivedHolding))
    else UnloadsAt(cat, w, w', ship.location.value)
  }

  /** The port's part of a day's unloading: an emptied ship docks, and another waits to go on. */
  ghost predicate UnloadsAt(cat: Catalog, w: World, w': World, p: nat)
    requires p < |w.planets|
  {
    var ship, ship' := w.ship, w'.ship;
    && |w'.planets| == |w.planets| && p < |w'.scratch| == |w.scratch|
    && |w.planets[p].stock.onHand| == |w'.planets[p].stock.onHand| == |cat.volumePerUnit| == cat.resources
    && (forall r: nat | r < cat.resources :: Lands(cat, w, w', p, r))
    && (if ship'.cargo == map[] then
          ship'.phase == Docked && ship'.earliest == w.day + cat.freight.minDwellDays && ship'.unloaded == map[]
        else
          ship'.phase == Unloading && ship'.earliest == ship.earliest
          && forall r: nat :: Qty(ship'.unloaded, r)
                              == Qty(ship.unloaded, r) + Qty(ship.cargo, r) - Qty(ship'.cargo, r))
    && ship' == ship.(cargo := ship'.cargo, bookings := [], phase := ship'.phase, earliest := ship'.earliest,
                      unloaded := ship'.unloaded)
  }

  lemma CargoComesAshore(cat: Catalog, w: World, w': World, d: int, d': int)
    requires InvAt(cat, w, d, d') && UnloadStep(cat, w, w')
    ensures Unloads(cat, w, w')
  {
    hide InvAt, HasPort, PortServes, UnloadsAt;
    if w.ship.location.Some? {
      PortServesIs(cat, w, w.ship.location.value);
    }
    if Ashore(w.ship) && w.ship.cargo != map[] && PortOpen(cat, w) {
      CargoIsSound(cat, w, d, d');
      PortUnloads(cat, w, w');
    }
  }

  lemma PortUnloads(cat: Catalog, w: World, w': World)
    requires ValidCatalog(cat) && StockOk(w.planets, cat.resources) && Positive(w.ship.cargo, cat.resources)
    requires Ashore(w.ship) && w.ship.cargo != map[] && PortOpen(cat, w) && UnloadStep(cat, w, w')
    ensures UnloadsAt(cat, w, w', w.ship.location.value)
  {
    hide Sum, Greedy, UnloadLimits, Release, HasPort, Posted, LedgerOk, Credited, Lands, ValidFacility, ValidFreight,
         ValidExpedition, ValidMandate, ValidRules;
    var p := w.ship.location.value;
    var load := Landing(cat, w);
    PortWidths(cat, w, w', p, load.goods);
    LandingFits(cat, w);
    forall r: nat | r < cat.resources ensures Lands(cat, w, w', p, r) {
      LandsOne(cat, w, w', r);
    }
    LessLeaves(w.ship.cargo, load.goods);
  }

  lemma CargoIsSound(cat: Catalog, w: World, d: int, d': int)
    requires InvAt(cat, w, d, d')
    ensures ValidCatalog(cat) && StockOk(w.planets, cat.resources) && Positive(w.ship.cargo, cat.resources)
  {
    hide Sum, WorkforceOk, BalancesOk, ColonyOk, PeopleOk, LedgerOk, PlanetsBalance, ClaimsOk, DemandOk, TankOk,
         ShippedOk;
  }

  lemma LandingFits(cat: Catalog, w: World)
    requires ValidCatalog(cat) && w.ship.location.Some? && w.ship.location.value < |w.planets|
             && w.ship.location.value < |w.scratch| && 0 <= w.scratch[w.ship.location.value].handlingLeft
    requires Positive(w.ship.cargo, cat.resources)
    ensures var load := Landing(cat, w);
            forall r: nat :: 0 <= Qty(load.goods, r) <= Qty(w.ship.cargo, r)
  {
    hide ValidFacility, ValidFreight, ValidExpedition, ValidMandate, ValidRules, Release, Greedy;
    var p := w.ship.location.value;
    var stock := w.planets[p].stock.(claims := Release(w.planets[p].stock.claims, w.ship.bookings));
    var limits := UnloadLimits(w.ship.cargo, stock);
    var h := w.scratch[p].handlingLeft;
    GreedyFits(cat, limits, h, h, cat.resources);
  }

  /** What is left aboard is what was there less what went ashore, with nothing kept that is used up. */
  lemma LessLeaves(a: ResourceMap, b: ResourceMap)
    requires forall r: nat :: 0 <= Qty(b, r) <= Qty(a, r)
    ensures forall r: nat :: Qty(Less(a, b), r) == Qty(a, r) - Qty(b, r)
    ensures forall r: nat :: Qty(Both(a, b), r) == Qty(a, r) + Qty(b, r)
  {
  }

  lemma PortWidths(cat: Catalog, w: World, w': World, p: nat, goods: ResourceMap)
    requires StockOk(w.planets, cat.resources) && p < |w.planets|
    requires Credited(WithClaims(w.planets, p, Release(w.planets[p].stock.claims, w.ship.bookings)), w'.planets, p,
             goods)
    ensures |w'.planets| == |w.planets| && |w.planets[p].stock.onHand| == |w'.planets[p].stock.onHand| == cat.resources
    ensures w'.planets[p].stock.claims == Release(w.planets[p].stock.claims, w.ship.bookings)
    ensures forall r: nat | r < cat.resources ::
              w'.planets[p].stock.onHand[r] == w.planets[p].stock.onHand[r] + Qty(goods, r)
  {
    hide Sum;
    var freed := WithClaims(w.planets, p, Release(w.planets[p].stock.claims, w.ship.bookings));
    assert w.planets[p].stock.Sound(cat.resources);
    assert OnlyStock(freed[p], w'.planets[p]);
    forall r: nat | r < cat.resources
      ensures w'.planets[p].stock.onHand[r] == w.planets[p].stock.onHand[r] + Qty(goods, r)
    {
      assert OnHand(w'.planets, p, r) == OnHand(freed, p, r) + Qty(goods, r);
    }
  }

  lemma LandsOne(cat: Catalog, w: World, w': World, r: nat)
    requires ValidCatalog(cat) && StockOk(w.planets, cat.resources) && Positive(w.ship.cargo, cat.resources)
    requires PortOpen(cat, w) && r < cat.resources
    requires |w'.planets| == |w.planets| && |w'.scratch| == |w.scratch|
    requires var p, load := w.ship.location.value, Landing(cat, w);
             && w'.planets[p].stock.claims == Release(w.planets[p].stock.claims, w.ship.bookings)
             && |w'.planets[p].stock.onHand| == cat.resources && |w.planets[p].stock.onHand| == cat.resources
             && w'.planets[p].stock.onHand[r] == w.planets[p].stock.onHand[r] + Qty(load.goods, r)
             && w'.scratch[p].handlingLeft == load.handling && w'.ship.cargo == Less(w.ship.cargo, load.goods)
    ensures Lands(cat, w, w', w.ship.location.value, r)
  {
    hide Sum, ValidFacility, ValidFreight, ValidExpedition, ValidMandate, ValidRules, Release, Greedy, HasPort, StockOk;
    var p := w.ship.location.value;
    var stock := w.planets[p].stock.(claims := Release(w.planets[p].stock.claims, w.ship.bookings));
    var limits := UnloadLimits(w.ship.cargo, stock);
    var h := w.scratch[p].handlingLeft;
    LandingFits(cat, w);
    LessLeaves(w.ship.cargo, Landing(cat, w).goods);
    GreedyFits(cat, limits, h, h, cat.resources);
    if r in limits && limits[r] <= INT64_MAX / 2
       && OneFits(cat.Volume(r), Landing(cat, w).handling, Landing(cat, w).volume) {
      AmpleRoom(cat, limits, h, h, cat.resources, r);
    }
  }

  // ----- sailing -----

  /** What the freighter needs to sail out: to be free, in and rested at home, with nothing aboard, a settled
      destination with a port at work, and the trip's fuel and machinery in stock. */
  ghost predicate ReadyToSail(cat: Catalog, w: World) {
    var f, ship := cat.freight, w.ship;
    && ship.mission == NoMission && ship.phase == Docked && ship.location == Some(f.origin) && ship.earliest <= w.day
    && ship.cargo == map[] && f.destination < |w.planets| && w.planets[f.destination].colonised
    && PortServes(cat, w, f.destination)
    && f.origin < |w.planets| && f.origin < |w.scratch|
    && cat.fuel < |w.planets[f.origin].stock.onHand| && cat.machinery < |w.planets[f.origin].stock.onHand|
    && f.roundTripFuel <= w.planets[f.origin].stock.Available(cat.fuel)
    && f.roundTripMachinery <= w.planets[f.origin].stock.Available(cat.machinery)
  }

  /** A departure is blocked exactly where the ship is not ready, or would sail empty without leave to. */
  lemma BlockedExactly(cat: Catalog, w: World, allowEmpty: bool, ratio: int)
    ensures OutcomeOf(cat, w, allowEmpty, ratio).Blocked?
            <==> !ReadyToSail(cat, w) || (!allowEmpty && OutLoad(cat, w, ratio).goods == map[])
  {
    hide OutLoad, PortServes, HasPort, Affords, Total;
    PortServesIs(cat, w, cat.freight.destination);
  }

  /** A departed ship is under way to its port, due a leg's days later, its fuel aboard less what the leg burns. */
  lemma ShipSails(cat: Catalog, w: World, w': World, src: nat, dst: nat, load: Load, fuelIn: int, parts: int, burn: int,
                  leftover: int)
    requires LegStep(cat, w, w', src, dst, load, fuelIn, parts, burn, leftover)
    ensures var ship, ship' := w.ship, w'.ship;
            && ship'.phase == Transit && ship'.location.None? && ship'.destination == Some(dst)
            && ship'.departureDay == w.day && ship'.arrivalDay == w.day + cat.freight.legDays
            && ship'.tank == ship.tank + fuelIn - burn && ship'.cargo == load.goods && ship'.unloaded == map[]
            && ship'.mission == ship.mission && ship'.earliest == ship.earliest
            && |ship'.bookings| == |ship.bookings| + |ClaimsFor(load.goods, w.nextId, cat.resources)|
  {
    hide Shipped, LegPosted, ClaimsFor;
  }

  lemma OutboundSails(cat: Catalog, w: World, w': World, ratio: int)
    ensures OutboundStep(cat, w, w', ratio) ==> w'.ship.phase == Transit && w'.ship.departureDay == w.day
    ensures ReadyToSail(cat, w) <==> MaySail(cat, w)
  {
    hide LegStep, OutLoad, PortServes, HasPort;
    PortServesIs(cat, w, cat.freight.destination);
    if OutboundStep(cat, w, w', ratio) {
      var f := cat.freight;
      ShipSails(cat, w, w', f.origin, f.destination, OutLoad(cat, w, ratio), f.roundTripFuel, f.roundTripMachinery,
                f.outboundBurn, w.books.leftover + f.roundTripFuel - f.outboundBurn - f.returnBurn);
    }
  }

  /** An authorised departure waits for the ship and is then spent, whether it leaves or is blocked; leaving puts the
      next scheduled one a full interval off. */
  lemma AuthorityIsSpent(cat: Catalog, w: World, w': World, ratio: int)
    requires RequestedStep(cat, w, w', ratio)
    ensures var home := w.ship.mission == NoMission && w.ship.phase == Docked
                        && w.ship.location == Some(cat.freight.origin) && w.ship.earliest <= w.day;
            if !w.route.requested || !home then w' == w
            else
              && !w'.route.requested && !w'.route.allowEmpty
              && if ReadyToSail(cat, w) && (w.route.allowEmpty || OutLoad(cat, w, ratio).goods != map[]) then
                   && w'.ship.phase == Transit && w'.ship.departureDay == w.day
                   && w'.route == w.route.(requested := false, allowEmpty := false,
                                           nextDeparture := w.day + w.route.interval)
                 else w' == w.(route := w.route.(requested := false, allowEmpty := false))
  {
    hide OutLoad, PortServes, ReadyToSail, OutcomeOf, OutboundStep, MaySail;
    BlockedExactly(cat, w, w.route.allowEmpty, ratio);
    OutboundSails(cat, w, w'.(route := w.route), ratio);
  }

  /** A scheduled departure is missed for its interval when the ship is away, tried again tomorrow when it is blocked,
      and followed by the next an interval later. */
  lemma ScheduleIsKept(cat: Catalog, w: World, w': World, ratio: int)
    requires ScheduledStep(cat, w, w', ratio)
    ensures var home := w.ship.mission == NoMission && w.ship.phase == Docked
                        && w.ship.location == Some(cat.freight.origin) && w.ship.earliest <= w.day;
            if !w.route.enabled || w.day < w.route.nextDeparture then w' == w
            else if !home then
              w' == w.(route := w.route.(nextDeparture := w.route.nextDeparture + w.route.interval))
            else if ReadyToSail(cat, w) && OutLoad(cat, w, ratio).goods != map[] then
              && w'.ship.phase == Transit && w'.ship.departureDay == w.day
              && w'.route == w.route.(nextDeparture := w.day + w.route.interval)
            else w' == w.(route := w.route.(nextDeparture := w.day + 1))
  {
    hide OutLoad, PortServes, ReadyToSail, OutcomeOf, OutboundStep, MaySail;
    BlockedExactly(cat, w, false, ratio);
    OutboundSails(cat, w, w'.(route := w.route), ratio);
  }

  /** A mission that finds its ship, its stock and its port ready sails with its whole manifest, or is given up past
      its last day; otherwise nothing happens. */
  ghost predicate MissionSails(cat: Catalog, w: World, w': World) {
    var d, ship, m, p := w.demand, w.ship, cat.mandate, cat.freight.origin;
    var ready :=
      && d.requested && ship.mission == NoMission && ship.phase == Docked && ship.location == Some(p)
      && ship.earliest <= w.day && ship.cargo == map[] && p < |w.planets| && p < |w.scratch|
      && |w.planets[p].stock.onHand| == cat.resources
      && (forall r: nat | r < cat.resources ::
            Qty(d.pending, r) + (if r == cat.fuel then m.missionFuel else 0)
            + (if r == cat.machinery then m.missionMachinery else 0) <= w.planets[p].stock.Available(r))
      && CargoVolume(cat, d.pending, cat.resources) <= w.scratch[p].handlingLeft;
    if !ready then w' == w
    else if w.day > m.lastDeparture then
      w' == w.(demand := d.(requested := false, pending := map[], committed := false))
    else
      && w'.ship == ship.(phase := Transit, mission := StrategicOutbound, location := None, destination := None,
                          departureDay := w.day, arrivalDay := w.day + m.outboundDays, cargo := d.pending)
      && w'.demand == d.(voyages := d.voyages + [Voyage(w.day, w.day + m.outboundDays, d.pending, false)],
                         requested := false, pending := map[], committed := true)
      && |w'.planets| == |w.planets|
      && (forall r: nat | r < cat.resources ::
            r < |w'.planets[p].stock.onHand|
            && w'.planets[p].stock.onHand[r] == w.planets[p].stock.onHand[r] - Qty(d.pending, r)
               - (if r == cat.fuel then m.missionFuel else 0) - (if r == cat.machinery then m.missionMachinery else 0))
      && w'.scratch == w.scratch[p := w.scratch[p].(handlingLeft :=
                                     w.scratch[p].handlingLeft - CargoVolume(cat, d.pending, cat.resources))]
  }

  lemma MissionsSail(cat: Catalog, w: World, w': World)
    requires DepartMissionStep(cat, w, w') && cat.fuel != cat.machinery
    ensures MissionSails(cat, w, w')
  {
    hide LegPosted, LedgerOk, Debited, Total, CargoVolume, Inventory.Available;
    var p, m := cat.freight.origin, cat.mandate;
    forall r: nat
      ensures Qty(Total(cat, w.demand.pending, m.missionFuel, m.missionMachinery), r) == Qty(w.demand.pending, r)
              + (if r == cat.fuel then m.missionFuel else 0) + (if r == cat.machinery then m.missionMachinery else 0)
    {
      TotalQty(cat, w.demand.pending, m.missionFuel, m.missionMachinery, r);
    }
    if MissionReady(cat, w) && w.day <= m.lastDeparture {
      forall r: nat | r < cat.resources
        ensures |w'.planets| == |w.planets| && r < |w'.planets[p].stock.onHand|
        ensures w'.planets[p].stock.onHand[r] == w.planets[p].stock.onHand[r]
                - Qty(Total(cat, w.demand.pending, m.missionFuel, m.missionMachinery), r)
      {
        DebitedHere(w.planets, w'.planets, p, Total(cat, w.demand.pending, m.missionFuel, m.missionMachinery), p, r);
      }
      DebitedWidth(w.planets, w'.planets, p, Total(cat, w.demand.pending, m.missionFuel, m.missionMachinery));
    }
  }

  lemma DebitedWidth(before: seq<Planet>, after: seq<Planet>, p: nat, m: ResourceMap)
    requires Debited(before, after, p, m)
    ensures |after| == |before|
  {
  }

  /** A ship due in is at its port, at the front with its manifest delivered, or home from it and resting. */
  lemma ShipsArrive(cat: Catalog, w: World, w': World)
    requires ArrivalStep(cat, w, w')
    ensures var ship, d := w.ship, w.demand;
            if ship.phase != Transit || ship.arrivalDay < 0 || w.day < ship.arrivalDay then w' == w
            else if ship.mission == NoMission then
              w' == w.(ship := ship.(phase := ArrivedHolding, location := ship.destination))
            else if ship.mission == StrategicReturn then
              && w' == w.(ship := w'.ship, demand := d.(committed := false))
              && w'.ship == ship.(phase := Docked, mission := NoMission, location := ship.destination,
                                  earliest := w.day + cat.freight.minDwellDays)
            else
              && w'.ship == ship.(cargo := map[], mission := StrategicReturn, destination := Some(cat.freight.origin),
                                  location := None,
                                  arrivalDay := w.day + cat.mandate.serviceDays + cat.mandate.returnDays)
              && w'.demand == d.(delivered := w'.demand.delivered, voyages := w'.demand.voyages)
              && (forall r: nat :: Qty(w'.demand.delivered, r) == Qty(d.delivered, r) + Qty(ship.cargo, r))
              && |w'.demand.voyages| == |d.voyages|
              && forall i | 0 <= i < |d.voyages| ::
                  w'.demand.voyages[i] == d.voyages[i].(delivered := d.voyages[i].delivered
                                                                     || d.voyages[i].delivery == w.day)
  {
    hide Posted, LedgerOk;
  }

  /** The demand is made on its day, on its terms, and judged while it stands: met, or at its deadline failed. */
  lemma DemandIsJudged(cat: Catalog, w: World, w': World)
    requires MandateStep(cat, w, w')
    ensures w' == w.(demand := w'.demand)
    ensures var d, d' := w.demand, w'.demand;
            var opens := !d.issued && cat.mandate.issueDay <= w.day;
            var required := if opens then cat.mandate.requirement else d.required;
            var deadline := if opens then cat.mandate.deadlineDay else d.deadline;
            var met := forall r | r in required :: required[r] <= Qty(d.delivered, r);
            var judged := (d.issued || opens) && !d.resolved && (met || deadline <= w.day);
            && d'.issued == (d.issued || opens) && d'.required == required && d'.deadline == deadline
            && d'.resolved == (d.resolved || judged)
            && d'.decision == (if !judged then d.decision
                               else if !met then Failed else if d.negotiated then Negotiated else Honoured)
            && d' == d.(issued := d'.issued, required := required, deadline := deadline, resolved := d'.resolved,
                        decision := d'.decision)
  {
  }
}
