/** The strategic mandate: demand, negotiation, the shared freighter's missions and their delivery. */
module Mandate {
  import opened Units
  import opened Sums
  import opened Stock
  import opened Catalog
  import opened State
  import opened Support
  import opened Loading
  import opened Departures

  // ----- commands -----

  datatype Response = Honour | Negotiate | Decline

  ghost predicate RespondAllowed(cat: Catalog, d: Demand, day: int, response: Response) {
    d.issued && !d.resolved && (response.Negotiate? ==> !d.negotiated && day < cat.mandate.negotiateBefore)
  }

  function Responded(cat: Catalog, d: Demand, response: Response): Demand {
    match response
    case Honour => d
    case Negotiate => d.(negotiated := true, required := cat.mandate.negotiated)
    case Decline => d.(resolved := true, decision := Declined)
  }

  ghost predicate RespondStep(cat: Catalog, w: World, w': World, response: Response) {
    RespondAllowed(cat, w.demand, w.day, response) && w' == w.(demand := Responded(cat, w.demand, response))
  }

  method RespondToDemand(s: Session, response: Response) returns (accepted: bool)
    modifies s`demand
    ensures accepted <==> old(RespondAllowed(s.cat, s.demand, s.day, response))
    ensures if accepted then RespondStep(s.cat, old(s.Now()), s.Now(), response) else s.Now() == old(s.Now())
  {
    if !s.demand.issued || s.demand.resolved {
      return false;
    }
    match response {
      case Honour =>
      case Negotiate =>
        if s.demand.negotiated || s.day >= s.cat.mandate.negotiateBefore {
          return false;
        }
        s.demand := s.demand.(negotiated := true, required := s.cat.mandate.negotiated);
      case Decline =>
        s.demand := s.demand.(resolved := true, decision := Declined);
    }
    return true;
  }

  /** The entries of a request that ask for something. */
  function Asked(m: ResourceMap): ResourceMap {
    map r | r in m && m[r] > 0 :: m[r]
  }

  /** When a mission is accepted: the ship is free at home in time, the manifest is within what the
      mandate still lacks, and it fits the hold, yesterday's dock and the stock, voyage costs included. */
  ghost predicate MissionAllowed(cat: Catalog, w: World, asked: ResourceMap) {
    var d, f, m := w.demand, cat.freight, cat.mandate;
    var manifest := Asked(asked);
    && d.issued && !d.resolved && !d.requested
    && w.ship.mission.NoMission? && w.ship.phase.Docked? && w.ship.location == Some(f.origin) && w.ship.cargo == map[]
    && w.day <= m.lastDeparture && asked != map[]
    && (forall r | r in manifest :: r in d.required && manifest[r] <= d.required[r] - Qty(d.delivered, r))
    && CargoVolume(cat, manifest, cat.resources) <= f.cargoCapacity
    && f.origin < |w.planets| && CargoVolume(cat, manifest, cat.resources) <= w.planets[f.origin].handlingYesterday
    && Affords(w.planets[f.origin].stock, Total(cat, manifest, m.missionFuel, m.missionMachinery), cat.resources)
  }

  ghost predicate MissionStep(cat: Catalog, w: World, w': World, asked: ResourceMap) {
    MissionAllowed(cat, w, asked)
        && w' == w.(demand := w.demand.(pending := Asked(asked), requested := true, committed := true))
  }

  method VolumeAboard(cat: Catalog, goods: ResourceMap) returns (volume: int)
    ensures volume == CargoVolume(cat, goods, cat.resources)
  {
    volume := 0;
    for r := 0 to cat.resources
      invariant volume == CargoVolume(cat, goods, r)
    {
      if r in goods {
        volume := volume + VolumeOf(cat.Volume(r), goods[r]);
      }
    }
  }

  /** The demand check walks the manifest; resources outside the catalog are never in the mandate. */
  method WithinDemand(d: Demand, manifest: ResourceMap, n: nat) returns (ok: bool)
    requires forall r | r in d.required :: r < n
    ensures ok <==> forall r | r in manifest :: r in d.required && manifest[r] <= d.required[r] - Qty(d.delivered, r)
  {
    ok := true;
    var left := manifest.Keys;
    while left != {}
      invariant left <= manifest.Keys
      invariant ok <==> forall r | r in manifest
                && r !in left :: r in d.required && manifest[r] <= d.required[r] - Qty(d.delivered, r)
      decreases |left|
    {
      var r :| r in left;
      left := left - {r};
      if r !in d.required || manifest[r] > d.required[r] - Qty(d.delivered, r) {
        ok := false;
      }
    }
  }

  method LaunchStrategicMission(s: Session, asked: ResourceMap) returns (accepted: bool)
    requires s.Stores() && (s.demand.issued ==> forall r | r in s.demand.required :: r < s.cat.resources)
    modifies s`demand
    ensures accepted <==> old(MissionAllowed(s.cat, s.Now(), asked))
    ensures if accepted then MissionStep(s.cat, old(s.Now()), s.Now(), asked) else s.Now() == old(s.Now())
  {
    hide Sum, LedgerOk, PlanetsBalance, VolumeOf, CargoVolume, Affords, ValidFacility, ValidExpedition, ValidMandate,
         ValidRules;
    var d, ship, f := s.demand, s.ship, s.cat.freight;
    if !d.issued || d.resolved || d.requested || !ship.mission.NoMission? || !ship.phase.Docked?
       || ship.location != Some(f.origin)
       || ship.cargo != map[] || s.day > s.cat.mandate.lastDeparture || asked == map[] {
      return false;
    }
    var manifest := Asked(asked);
    var within := WithinDemand(d, manifest, s.cat.resources);
    if !within {
      return false;
    }
    var volume := VolumeAboard(s.cat, manifest);
    if volume > f.cargoCapacity || s.planets[f.origin].handlingYesterday < volume {
      return false;
    }
    assert s.planets[f.origin].stock.Sound(s.cat.resources);
    var covered := Covered(s.planets[f.origin].stock, manifest, s.cat.fuel, s.cat.mandate.missionFuel,
                           s.cat.machinery, s.cat.mandate.missionMachinery, s.cat.resources);
    if !covered {
      return false;
    }
    s.demand := d.(pending := manifest, requested := true, committed := true);
    return true;
  }

  // ----- how the log's totals follow -----

  lemma VoyageAppended(vs: seq<Voyage>, v: Voyage)
    ensures forall r :: Sum(vs + [v], CarriedBy(r)) == Sum(vs, CarriedBy(r)) + Qty(v.manifest, r)
    ensures forall r ::
            Sum(vs + [v], DeliveredBy(r)) == Sum(vs, DeliveredBy(r)) + (if v.delivered then Qty(v.manifest, r) else 0)
  {
    forall r ensures Sum(vs + [v], CarriedBy(r)) == Sum(vs, CarriedBy(r)) + Qty(v.manifest, r) {
      SumAppend(vs, v, CarriedBy(r));
    }
    forall r ensures Sum(vs + [v], DeliveredBy(r)) == Sum(vs, DeliveredBy(r)) + (if v.delivered then Qty(v.manifest, r)
        else 0) {
      SumAppend(vs, v, DeliveredBy(r));
    }
  }

  lemma AllDelivered(vs: seq<Voyage>, r: nat)
    requires forall i | 0 <= i < |vs| :: vs[i].delivered
    ensures Sum(vs, CarriedBy(r)) == Sum(vs, DeliveredBy(r))
  {
    SumSame(vs, CarriedBy(r), DeliveredBy(r));
  }

  lemma RespondKeepsDemand(cat: Catalog, d: Demand, ship: Ship, day: int, response: Response)
    requires DemandOk(cat, d, ship) && RespondAllowed(cat, d, day, response)
    ensures DemandOk(cat, Responded(cat, d, response), ship)
  {
    hide Sum;
  }

  lemma MissionKeepsDemand(cat: Catalog, w: World, asked: ResourceMap)
    requires ValidCatalog(cat) && DemandOk(cat, w.demand, w.ship) && MissionAllowed(cat, w, asked)
    ensures DemandOk(cat, w.demand.(pending := Asked(asked), requested := true, committed := true), w.ship)
  {
    hide Sum, Affords, CargoVolume, Total, ValidFacility, ValidExpedition, ValidFreight, ValidRules;
    var d, manifest := w.demand, Asked(asked);
    forall r: nat ensures Sum(d.voyages, CarriedBy(r)) + Qty(manifest, r) <= Qty(cat.mandate.requirement, r) {
      AllDelivered(d.voyages, r);
      assert Qty(d.delivered, r) == Sum(d.voyages, DeliveredBy(r));
      assert Sum(d.voyages, CarriedBy(r)) + Qty(d.pending, r) <= Qty(cat.mandate.requirement, r);
      assert Qty(cat.mandate.negotiated, r) <= Qty(cat.mandate.requirement, r);
    }
    forall r | r in manifest ensures r < cat.resources && manifest[r] > 0 {
      assert r in d.required;
    }
  }

  /** A change to the demand alone touches no other rule. */
  lemma DemandOnly(cat: Catalog, w: World, w': World, d: int, d': int)
    requires InvAt(cat, w, d, d') && w' == w.(demand := w'.demand) && DemandOk(cat, w'.demand, w.ship)
    ensures InvAt(cat, w', d, d')
  {
    hide StoresOk, WorkforceOk, ColonyOk, PeopleOk, EscrowBalance, ShipBalance, ExpeditionBalance, DemandOk, ShipOk,
         ClaimsOk, BookedOk;
  }

  lemma RespondKeepsInv(cat: Catalog, w: World, w': World, response: Response, d: int, d': int)
    requires InvAt(cat, w, d, d') && RespondStep(cat, w, w', response)
    ensures InvAt(cat, w', d, d')
  {
    hide DemandOk, RespondAllowed, Responded, StoresOk, WorkforceOk, ColonyOk, PeopleOk, BalancesOk;
    RespondKeepsDemand(cat, w.demand, w.ship, w.day, response);
    DemandOnly(cat, w, w', d, d');
  }

  lemma MissionKeepsInv(cat: Catalog, w: World, w': World, asked: ResourceMap, d: int, d': int)
    requires InvAt(cat, w, d, d') && MissionStep(cat, w, w', asked)
    ensures InvAt(cat, w', d, d')
  {
    hide DemandOk, MissionAllowed, LedgerOk, PlanetsBalance, StockOk, WorkforceOk, ColonyOk, PeopleOk, BalancesOk;
    MissionKeepsDemand(cat, w, asked);
    DemandOnly(cat, w, w', d, d');
  }

  // ----- the daily mandate check -----

  function Issued(cat: Catalog, d: Demand, day: int): Demand {
    if !d.issued && day >= cat.mandate.issueDay then
      d.(issued := true, deadline := cat.mandate.deadlineDay, required := cat.mandate.requirement)
    else d
  }

  ghost predicate Met(d: Demand) {
    forall r | r in d.required :: Qty(d.delivered, r) >= d.required[r]
  }

  ghost function Judged(d: Demand, day: int): Demand {
    if !d.issued || d.resolved then d
    else if Met(d) then d.(resolved := true, decision := if d.negotiated then Negotiated else Honoured)
    else if day >= d.deadline then d.(resolved := true, decision := Failed)
    else d
  }

  ghost predicate MandateStep(cat: Catalog, w: World, w': World) {
    w' == w.(demand := Judged(Issued(cat, w.demand, w.day), w.day))
  }

  method UpdateMandate(s: Session)
    requires ValidMandate(s.cat, s.cat.mandate)
    requires s.demand.issued ==> forall r | r in s.demand.required :: r < s.cat.resources
    modifies s`demand
    ensures MandateStep(s.cat, old(s.Now()), s.Now())
  {
    if !s.demand.issued && s.day >= s.cat.mandate.issueDay {
      s.demand := s.demand.(issued := true, deadline := s.cat.mandate.deadlineDay,
          required := s.cat.mandate.requirement);
    }
    var d := s.demand;
    if !d.issued || d.resolved {
      return;
    }
    var complete := true;
    for r := 0 to s.cat.resources
      invariant complete <==> forall k | k in d.required && k < r :: Qty(d.delivered, k) >= d.required[k]
    {
      if r in d.required && Qty(d.delivered, r) < d.required[r] {
        complete := false;
      }
    }
    if complete {
      s.demand := d.(resolved := true, decision := if d.negotiated then Negotiated else Honoured);
    } else if s.day >= d.deadline {
      s.demand := d.(resolved := true, decision := Failed);
    }
  }

  lemma MandateKeepsInv(cat: Catalog, w: World, w': World, d: int, d': int)
    requires InvAt(cat, w, d, d') && MandateStep(cat, w, w')
    ensures InvAt(cat, w', d, d')
  {
    hide StoresOk, WorkforceOk, ColonyOk, PeopleOk, BalancesOk, VoyagesOk, TankOk, ClaimsOk, ShippedOk, BookedOk;
    assert DemandOk(cat, w'.demand, w.ship) by {
      hide Sum;
    }
    DemandOnly(cat, w, w', d, d');
  }
}
