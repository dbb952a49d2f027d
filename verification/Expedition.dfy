/** The one colony expedition: launch, daily use of its cargo, founding. */
module Expedition {
  import opened Units
  import opened Sums
  import opened Stock
  import opened Ledger
  import opened Catalog
  import opened State
  import opened Support
  import opened Workforce
  import opened Construction
  import opened Freight

  /** A world after people have moved in (or, with negative counts, out). */
  function Settled(planets: seq<Planet>, p: nat, people: int, workers: int): seq<Planet>
    requires p < |planets|
  {
    planets[p := planets[p].(population := planets[p].population + people, workers := planets[p].workers + workers)]
  }

  // ----- launch -----

  ghost predicate LaunchAllowed(cat: Catalog, w: World, named: Option<nat>) {
    var e, home := cat.expedition, cat.freight.origin;
    && !w.colony.launched && e.target < |w.planets| && home < |w.planets|
    && !w.planets[e.target].colonised && (named.Some? ==> named.value == e.target)
    && Affords(w.planets[home].stock, e.launchCost, cat.resources)
    && e.workers <= ReserveOf(w.planets[home], w.facilities, w.transfers, home)
    && e.residents - e.workers <= w.planets[home].population - w.planets[home].workers
  }

  /** The travelling part of the cost becomes cargo and the rest is spent on the outfitting. */
  function LaunchFlow(cost: ResourceMap, cargo: ResourceMap, p: nat, a: Account, r: nat): int {
    var travels := if r in cost then Qty(cargo, r) else 0;
    match a
    case PlanetStock(q) => if q == p then -Qty(cost, r) else 0
    case Expedition => travels
    case SinkOutfitting => Qty(cost, r) - travels
    case _ => 0
  }

  ghost predicate LaunchPosted(before: seq<Move>, after: seq<Move>, p: nat, cost: ResourceMap, cargo: ResourceMap) {
    && before <= after
    && forall a: Account, r: nat :: Net(after, a, r) == Net(before, a, r) + LaunchFlow(cost, cargo, p, a, r)
  }

  function Travelling(cat: Catalog, colony: Colony, day: int): Colony {
    var e := cat.expedition;
    colony.(launched := true, residents := e.residents, workers := e.workers, cargo := e.cargo, launchDay := day,
        arrivalDay := day + e.transitDays)
  }

  ghost predicate LaunchStep(cat: Catalog, w: World, w': World) {
    var e, home := cat.expedition, cat.freight.origin;
    && home < |w.planets| && |w'.planets| == |w.planets|
    && w' == w.(nextId := w.nextId + 1, colony := Travelling(cat, w.colony, w.day),
                planets := w'.planets, ledger := w'.ledger, recorded := w'.recorded)
    && Debited(w.planets, Settled(w'.planets, home, e.residents, e.workers), home, e.launchCost)
    && LaunchPosted(w.recorded, w'.recorded, home, e.launchCost, e.cargo)
    && LedgerOk(w'.ledger, w'.recorded, |w'.planets|, w'.nextId)
  }

  lemma LaunchNext(a: seq<Move>, b: seq<Move>, c: seq<Move>, d: seq<Move>, p: nat, cost: ResourceMap,
                   cargo: ResourceMap, k: nat)
    requires k in cost && LaunchPosted(a, b, p, Upto(cost, k), cargo)
    requires Posted(b, c, PlanetStock(p), Expedition, Single(k, Qty(cargo, k)))
    requires Posted(c, d, PlanetStock(p), SinkOutfitting, Single(k, cost[k] - Qty(cargo, k)))
    ensures LaunchPosted(a, d, p, Upto(cost, k + 1), cargo)
  {
    hide Net;
    forall x: Account, r: nat ensures Net(d, x, r) == Net(a, x, r) + LaunchFlow(Upto(cost, k + 1), cargo, p, x, r) {
      assert Net(b, x, r) == Net(a, x, r) + LaunchFlow(Upto(cost, k), cargo, p, x, r);
      assert Net(c, x, r) == Net(b, x, r) + (if x == Expedition then Qty(Single(k, Qty(cargo, k)), r)
             else 0) - (if x == PlanetStock(p) then Qty(Single(k, Qty(cargo, k)), r) else 0);
      assert Net(d, x, r) == Net(c, x, r) + (if x == SinkOutfitting then Qty(Single(k, cost[k] - Qty(cargo, k)), r)
             else 0) - (if x == PlanetStock(p) then Qty(Single(k, cost[k] - Qty(cargo, k)), r) else 0);
    }
  }

  lemma LaunchPostedNothing(moves: seq<Move>, p: nat, cost: ResourceMap, cargo: ResourceMap)
    ensures LaunchPosted(moves, moves, p, Upto(cost, 0), cargo)
  {
  }

  /** Pays one resource of the launch cost: what travels, then what is sunk. */
  method PayOne(s: Session, p: nat, k: nat, cost: int, travels: int)
    requires s.Stores() && p < |s.planets| && k < s.cat.resources && |s.planets[p].stock.onHand| == s.cat.resources
    requires 0 <= travels <= cost <= s.planets[p].stock.Available(k)
    modifies s`planets, s`ledger, s`recorded
    ensures s.Stores() && Debited(old(s.planets), s.planets, p, Single(k, cost))
    ensures exists mid :: Posted(old(s.recorded), mid, PlanetStock(p), Expedition, Single(k, travels))
                       && Posted(mid, s.recorded, PlanetStock(p), SinkOutfitting, Single(k, cost - travels))
  {
    hide Sum, Net, ValidCatalog, LedgerOk, PlanetsBalance, StockOk, Posted, OnHand;
    ghost var before := s.planets;
    var _ := RemoveStock(s, p, k, travels, Expedition);
    ghost var mid, entries := s.planets, s.recorded;
    DebitedLeaves(before, mid, p, k, travels);
    var _ := RemoveStock(s, p, k, cost - travels, SinkOutfitting);
    DebitedThen(before, mid, s.planets, p, Single(k, travels), Single(k, cost - travels), Single(k, cost));
  }

  lemma DebitedLeaves(a: seq<Planet>, b: seq<Planet>, p: nat, r: nat, q: int)
    requires Debited(a, b, p, Single(r, q)) && p < |a| && r < |a[p].stock.onHand|
    ensures |b| == |a| && r < |b[p].stock.onHand| && b[p].stock.Available(r) == a[p].stock.Available(r) - q
  {
    assert OnlyStock(a[p], b[p]);
    assert OnHand(b, p, r) == OnHand(a, p, r) - Qty(Single(r, q), r);
  }

  method PayLaunch(s: Session, p: nat, cost: ResourceMap, cargo: ResourceMap)
    requires s.Stores() && p < |s.planets| && Positive(cost, s.cat.resources)
    requires Affords(s.planets[p].stock, cost, s.cat.resources)
    requires forall r: nat :: 0 <= Qty(cargo, r) <= Qty(cost, r)
    modifies s`planets, s`ledger, s`recorded
    ensures s.Stores() && Debited(old(s.planets), s.planets, p, cost)
    ensures LaunchPosted(old(s.recorded), s.recorded, p, cost, cargo)
  {
    hide Sum, Net, ValidCatalog, LedgerOk, PlanetsBalance, StockOk, OnHand, LaunchPosted, Posted;
    ghost var before, moves := s.planets, s.recorded;
    LaunchPostedNothing(moves, p, cost, cargo);
    assert Upto(cost, 0) == map[];
    NothingDebited(before, s.planets, p, Upto(cost, 0));
    for k := 0 to s.cat.resources
      invariant s.Stores() && |s.planets| == |before|
      invariant Debited(before, s.planets, p, Upto(cost, k))
      invariant LaunchPosted(moves, s.recorded, p, Upto(cost, k), cargo)
    {
      if k in cost {
        ghost var soFar, entries := s.planets, s.recorded;
        DebitLeavesTheRest(before, soFar, p, cost, k);
        DebitedMoves(before, soFar, p, Upto(cost, k));
        assert OnlyStock(before[p], soFar[p]);
        assert Qty(cost, k) == cost[k] <= before[p].stock.Available(k) && 0 <= Qty(cargo, k) <= Qty(cost, k);
        PayOne(s, p, k, cost[k], Qty(cargo, k));
        ghost var mid :| Posted(entries, mid, PlanetStock(p), Expedition, Single(k, Qty(cargo, k)))
                         && Posted(mid, s.recorded, PlanetStock(p), SinkOutfitting, Single(k, cost[k] - Qty(cargo, k)));
        LaunchNext(moves, entries, mid, s.recorded, p, cost, cargo, k);
        DebitedThen(before, soFar, s.planets, p, Upto(cost, k), Single(k, cost[k]), Upto(cost, k + 1));
      } else {
        assert Upto(cost, k + 1) == Upto(cost, k);
      }
    }
    UptoAll(cost, s.cat.resources);
  }

  method LaunchColonization(s: Session, named: Option<nat>) returns (accepted: bool)
    requires s.Stores() && WorkforceOk(s.cat, s.planets, s.facilities, s.transfers, s.nextId)
    modifies s`planets, s`colony, s`nextId, s`ledger, s`recorded
    ensures accepted <==> old(LaunchAllowed(s.cat, s.Now(), named))
    ensures if accepted then LaunchStep(s.cat, old(s.Now()), s.Now()) else s.Now() == old(s.Now())
  {
    hide Sum, Net, LedgerOk, PlanetsBalance, StockOk, OnHand, LaunchPosted, Affords, Positive, FacilityOk, TransfersOk,
         StaffOk, ValidFacility, ValidMandate, ValidRules, Debited;
    var e, home := s.cat.expedition, s.cat.freight.origin;
    if s.colony.launched || s.planets[e.target].colonised || (named.Some? && named.value != e.target) {
      return false;
    }
    StoresSound(s.cat, s.planets, home);
    CostsAreListed(s.cat);
    var affordable := CanAfford(s.planets[home].stock, e.launchCost, s.cat.resources);
    if !affordable {
      return false;
    }
    var reserve := WorkersReserve(s.planets[home], s.facilities, s.transfers, home);
    if reserve < e.workers || s.planets[home].population - s.planets[home].workers < e.residents - e.workers {
      return false;
    }
    PayLaunch(s, home, e.launchCost, e.cargo);
    ghost var paid := s.planets;
    RangeGrows(s.ledger, s.recorded, |s.planets|, s.nextId, s.nextId + 1);
    s.nextId := s.nextId + 1;
    s.colony := Travelling(s.cat, s.colony, s.day);
    s.planets := Settled(s.planets, home, -e.residents, -e.workers);
    SettledBack(paid, home, e.residents, e.workers);
    assert unchanged(s`day, s`facilities, s`transfers, s`ship, s`route, s`demand, s`scratch, s`books);
    accepted := true;
  }

  lemma CostsAreListed(cat: Catalog)
    requires ValidCatalog(cat)
    ensures Positive(cat.expedition.launchCost, cat.resources) && forall r | r in cat.expedition.launchCost ::
            r < cat.resources
    ensures forall r: nat :: 0 <= Qty(cat.expedition.cargo, r) <= Qty(cat.expedition.launchCost, r)
  {
  }

  lemma SettledBack(planets: seq<Planet>, p: nat, people: int, workers: int)
    requires p < |planets|
    ensures Settled(Settled(planets, p, -people, -workers), p, people, workers) == planets
  {
  }

  lemma LaunchBalance(cat: Catalog, opening: seq<Planet>, before: seq<Planet>, paid: seq<Planet>, after: seq<Planet>,
                      p: nat,
                      moves: seq<Move>, moves': seq<Move>)
    requires PlanetsBalance(opening, before, moves) && p < |before| && |before[p].stock.onHand| == cat.resources
    requires Debited(before, paid, p, cat.expedition.launchCost) && Positive(cat.expedition.launchCost, cat.resources)
    requires LaunchPosted(moves, moves', p, cat.expedition.launchCost, cat.expedition.cargo)
    requires |after| == |paid| && forall q | 0 <= q < |paid| :: after[q].stock == paid[q].stock
    ensures PlanetsBalance(opening, after, moves')
  {
    hide Net, Sum;
    forall q: nat, r: nat
      ensures OnHand(after, q, r) == OnHand(opening, q, r) + (if q < |after| && r < |after[q].stock.onHand| then
              Net(moves', PlanetStock(q), r) else 0)
    {
      assert OnHand(after, q, r) == OnHand(paid, q, r);
      assert OnHand(paid, q, r) == OnHand(before, q, r) - (if q == p then Qty(cat.expedition.launchCost, r) else 0);
      assert q < |before| ==> OnlyStock(before[q], paid[q]);
      assert Net(moves', PlanetStock(q), r) == Net(moves, PlanetStock(q), r) + LaunchFlow(cat.expedition.launchCost,
             cat.expedition.cargo, p, PlanetStock(q), r);
    }
  }

  lemma LaunchStores(cat: Catalog, w: World, w': World)
    requires StoresOk(cat, w.planets, w.ledger, w.recorded, w.books.opening, w.nextId) && LaunchStep(cat, w, w')
    requires Affords(w.planets[cat.freight.origin].stock, cat.expedition.launchCost, cat.resources)
    ensures StoresOk(cat, w'.planets, w'.ledger, w'.recorded, w'.books.opening, w'.nextId)
    ensures BookedOk(w.planets) ==> BookedOk(w'.planets)
  {
    hide Sum, Net, PlanetsBalance, LaunchPosted, LedgerOk, ValidCatalog;
    var e, home := cat.expedition, cat.freight.origin;
    var paid := Settled(w'.planets, home, e.residents, e.workers);
    CostsAreListed(cat);
    DebitKeepsSound(w.planets, paid, home, e.launchCost, cat.resources);
    LaunchBalance(cat, w.books.opening, w.planets, paid, w'.planets, home, w.recorded, w'.recorded);
    SameStocks(paid, w'.planets, cat.resources, w.books.opening, w'.recorded);
  }

  lemma LaunchWorkforce(cat: Catalog, w: World, w': World)
    requires WorkforceOk(cat, w.planets, w.facilities, w.transfers, w.nextId) && LaunchStep(cat, w, w')
             && LaunchAllowed(cat, w, None)
    ensures WorkforceOk(cat, w'.planets, w'.facilities, w'.transfers, w'.nextId)
    ensures ClaimsOk(w.planets, w.ship) ==> ClaimsOk(w'.planets, w'.ship)
  {
    hide Sum, FacilityOk, StaffOk, LaunchPosted, LedgerOk, Affords;
    var e, home := cat.expedition, cat.freight.origin;
    var paid := Settled(w'.planets, home, e.residents, e.workers);
    forall p | 0 <= p < |w'.planets|
      ensures w'.planets[p].crew == w.planets[p].crew && w'.planets[p].colonised == w.planets[p].colonised
      ensures w'.planets[p].workers == w.planets[p].workers - (if p == home then e.workers else 0)
      ensures w'.planets[p].population == w.planets[p].population - (if p == home then e.residents else 0)
      ensures w'.planets[p].stock.claims == w.planets[p].stock.claims
    {
      assert OnlyStock(w.planets[p], paid[p]);
    }
    SameClaims(w.planets, w'.planets, w.ship);
  }

  /** The people who leave one world are exactly the people who travel. */
  lemma LaunchPeople(cat: Catalog, w: World, w': World)
    requires PeopleOk(w.planets, w.colony, w.books.people, w.books.workforce) && LaunchStep(cat, w, w')
             && !w.colony.launched && !w.colony.founded
    ensures PeopleOk(w'.planets, w'.colony, w'.books.people, w'.books.workforce)
  {
    hide Sum, LaunchPosted, LedgerOk;
    var e, home := cat.expedition, cat.freight.origin;
    var paid := Settled(w'.planets, home, e.residents, e.workers);
    forall p | 0 <= p < |paid| ensures paid[p].population == w.planets[p].population
        && paid[p].workers == w.planets[p].workers {
      assert OnlyStock(w.planets[p], paid[p]);
    }
    SumsOfPeople(w.planets, paid);
    SettledSums(w'.planets, home, e.residents, e.workers);
  }

  lemma SettledSums(planets: seq<Planet>, p: nat, people: int, workers: int)
    requires p < |planets|
    ensures Sum(Settled(planets, p, people, workers), PopulationOf()) == Sum(planets, PopulationOf()) + people
    ensures Sum(Settled(planets, p, people, workers), WorkersOf()) == Sum(planets, WorkersOf()) + workers
  {
    var after := Settled(planets, p, people, workers)[p];
    SumUpdate(planets, p, after, PopulationOf());
    SumUpdate(planets, p, after, WorkersOf());
  }

  lemma LaunchBalances(cat: Catalog, w: World, w': World)
    requires BalancesOk(cat, w) && LaunchStep(cat, w, w') && w.colony.cargo == map[]
             && Positive(cat.expedition.launchCost, cat.resources)
    requires forall r: nat :: 0 <= Qty(cat.expedition.cargo, r) <= Qty(cat.expedition.launchCost, r)
    ensures BalancesOk(cat, w')
  {
    hide Sum, Net, Stranded, Debited, LedgerOk;
    var home, cost, cargo := cat.freight.origin, cat.expedition.launchCost, cat.expedition.cargo;
    forall a: Account, r: nat ensures Net(w'.recorded, a, r) == Net(w.recorded, a, r) + LaunchFlow(cost, cargo, home, a,
        r) {
    }
    forall r: nat ensures Net(w'.recorded, ShipHold, r) == Qty(w'.ship.cargo, r) + (if r == cat.fuel then w'.ship.tank
        else 0) {
      assert Net(w.recorded, ShipHold, r) == Qty(w.ship.cargo, r) + (if r == cat.fuel then w.ship.tank else 0);
    }
    forall id: nat, r: nat
      ensures Net(w'.recorded, Escrow(id), r) == Sum(w'.facilities, HeldFor(id, r)) + Stranded(w'.books.stranded, id, r)
    {
      assert Net(w.recorded, Escrow(id), r) == Sum(w.facilities, HeldFor(id, r)) + Stranded(w.books.stranded, id, r);
    }
    forall r: nat ensures Net(w'.recorded, Expedition, r) == Qty(w'.colony.cargo, r) + Qty(w'.books.spilled, r) {
      assert Net(w.recorded, Expedition, r) == Qty(w.colony.cargo, r) + Qty(w.books.spilled, r);
      assert 0 <= Qty(cargo, r) <= Qty(cost, r);
    }
  }

  lemma LaunchColony(cat: Catalog, w: World, w': World)
    requires ValidCatalog(cat) && ColonyOk(cat, w.colony, w.planets, w.day) && LaunchAllowed(cat, w, None)
             && LaunchStep(cat, w, w')
    ensures ColonyOk(cat, w'.colony, w'.planets, w.day) && w.colony.cargo == map[] && !w.colony.founded
  {
    hide Sum, LaunchPosted, LedgerOk, Affords, ValidFacility, ValidFreight, ValidMandate, ValidRules;
    var e, home := cat.expedition, cat.freight.origin;
    var paid := Settled(w'.planets, home, e.residents, e.workers);
    assert OnlyStock(w.planets[e.target], paid[e.target]);
  }

  /** A launch keeps every invariant: stock, escrow, ship and expedition still equal their books, and
      nobody is lost between the worlds and the expedition. */
  lemma LaunchKeepsInv(cat: Catalog, w: World, w': World, named: Option<nat>, d': int)
    requires InvAt(cat, w, w.day, d') && LaunchAllowed(cat, w, named) && LaunchStep(cat, w, w')
    ensures InvAt(cat, w', w'.day, d')
  {
    hide Sum, Net, WorkforceOk, EscrowBalance, ShipBalance, ExpeditionBalance, ColonyOk, PeopleOk, BookedOk, ClaimsOk,
         ShipOk, DemandOk, TankOk, ShippedOk, StockOk, LedgerOk, PlanetsBalance, LaunchPosted, Debited, Affords,
         ValidFacility, ValidFreight, ValidMandate, ValidRules;
    LaunchStores(cat, w, w');
    LaunchWorkforce(cat, w, w');
    LaunchColony(cat, w, w');
    LaunchPeople(cat, w, w');
    CostsAreListed(cat);
    LaunchBalances(cat, w, w');
  }

  // ----- a day of travel -----

  /** What a day's travel takes from the cargo: the daily use, as far as it lasts. */
  function Eaten(use: ResourceMap, cargo: ResourceMap): ResourceMap {
    map r | r in use && Min(Qty(cargo, r), use[r]) > 0 :: Min(Qty(cargo, r), use[r])
  }

  function Remaining(use: ResourceMap, cargo: ResourceMap): ResourceMap {
    map r | r in cargo :: cargo[r] - Qty(Eaten(use, cargo), r)
  }

  ghost predicate ChargeStep(cat: Catalog, w: World, w': World) {
    var use := cat.expedition.transitPerDay;
    && w' == w.(colony := w.colony.(cargo := Remaining(use, w.colony.cargo)), ledger := w'.ledger,
        recorded := w'.recorded)
    && Posted(w.recorded, w'.recorded, Expedition, SinkCivilian, Eaten(use, w.colony.cargo))
    && LedgerOk(w'.ledger, w'.recorded, |w'.planets|, w'.nextId)
  }

  /** The expedition part-way through its day: resources below r have been charged. */
  ghost function ChargedUpto(use: ResourceMap, cargo: ResourceMap, r: nat): ResourceMap {
    Drawn(cargo, Upto(Eaten(use, cargo), r))
  }

  /** Charges one resource's daily use. */
  method ChargeOne(s: Session, use: ResourceMap, r: nat, ghost cargo: ResourceMap, ghost moves: seq<Move>)
    requires LedgerOk(s.ledger, s.recorded, |s.planets|, s.nextId)
             && PlanetsBalance(s.books.opening, s.planets, s.recorded)
    requires s.colony.cargo == ChargedUpto(use, cargo, r)
    requires Posted(moves, s.recorded, Expedition, SinkCivilian, Upto(Eaten(use, cargo), r))
    modifies s`colony, s`ledger, s`recorded
    ensures LedgerOk(s.ledger, s.recorded, |s.planets|, s.nextId)
            && PlanetsBalance(s.books.opening, s.planets, s.recorded)
    ensures s.colony == old(s.colony).(cargo := ChargedUpto(use, cargo, r + 1))
    ensures Posted(moves, s.recorded, Expedition, SinkCivilian, Upto(Eaten(use, cargo), r + 1))
  {
    hide Sum, Net, LedgerOk, PlanetsBalance, Posted, Eaten, ChargedUpto;
    ghost var eaten := Eaten(use, cargo);
    EatenPart(use, cargo, r);
    if r in use {
      var have := Qty(s.colony.cargo, r);
      var take := if have < use[r] then have else use[r];
      if take > 0 {
        ghost var entries := s.recorded;
        s.colony := s.colony.(cargo := s.colony.cargo[r := have - take]);
        Record(s, r, take, Expedition, SinkCivilian);
        PostedOffWorld(s.books.opening, s.planets, entries, s.recorded, Expedition, SinkCivilian, Single(r, take));
        PostedThen(moves, entries, s.recorded, Expedition, SinkCivilian, Upto(eaten, r), Single(r, take),
            Upto(eaten, r + 1));
      }
    }
  }

  method ChargeTransitDay(s: Session)
    requires s.Stores()
    modifies s`colony, s`ledger, s`recorded
    ensures s.Stores() && ChargeStep(s.cat, old(s.Now()), s.Now())
  {
    hide Sum, Net, LedgerOk, PlanetsBalance, StockOk, Posted, ValidCatalog, Eaten, ChargedUpto;
    var use := s.cat.expedition.transitPerDay;
    ghost var moves, cargo, colony := s.recorded, s.colony.cargo, s.colony;
    NothingEaten(use, cargo);
    PostedNothing(moves, Expedition, SinkCivilian, Upto(Eaten(use, cargo), 0));
    for r := 0 to s.cat.resources
      invariant LedgerOk(s.ledger, s.recorded, |s.planets|, s.nextId)
                && PlanetsBalance(s.books.opening, s.planets, s.recorded)
      invariant s.colony == colony.(cargo := ChargedUpto(use, cargo, r))
      invariant Posted(moves, s.recorded, Expedition, SinkCivilian, Upto(Eaten(use, cargo), r))
    {
      ChargeOne(s, use, r, cargo, moves);
    }
    EatenAll(s.cat, cargo);
    assert unchanged(s`day, s`nextId, s`planets, s`facilities, s`transfers, s`ship, s`route, s`demand, s`scratch,
           s`books);
  }

  lemma NothingEaten(use: ResourceMap, cargo: ResourceMap)
    ensures ChargedUpto(use, cargo, 0) == cargo && Upto(Eaten(use, cargo), 0) == map[]
  {
    assert Upto(Eaten(use, cargo), 0) == map[];
    assert Drawn(cargo, map[]) == cargo;
  }

  lemma EatenPart(use: ResourceMap, cargo: ResourceMap, r: nat)
    ensures var eaten, now := Eaten(use, cargo), ChargedUpto(use, cargo, r);
            && Qty(now, r) == Qty(cargo, r)
            && (if r in use && Min(Qty(cargo, r), use[r]) > 0 then
                  var take := Min(Qty(cargo, r), use[r]);
                  && ChargedUpto(use, cargo, r + 1) == now[r := Qty(cargo, r) - take]
                  && Upto(eaten, r + 1) == Upto(eaten, r)[r := take]
                  && r !in Upto(eaten, r)
                else
                  ChargedUpto(use, cargo, r + 1) == now && Upto(eaten, r + 1) == Upto(eaten, r))
  {
    var eaten, now := Eaten(use, cargo), ChargedUpto(use, cargo, r);
    if r in use && Min(Qty(cargo, r), use[r]) > 0 {
      assert Upto(eaten, r + 1) == Upto(eaten, r)[r := Min(Qty(cargo, r), use[r])];
    } else {
      assert Upto(eaten, r + 1) == Upto(eaten, r);
    }
  }

  lemma EatenAll(cat: Catalog, cargo: ResourceMap)
    requires ValidCatalog(cat)
    ensures var use := cat.expedition.transitPerDay;
            Upto(Eaten(use, cargo), cat.resources) == Eaten(use, cargo)
                && ChargedUpto(use, cargo, cat.resources) == Remaining(use, cargo)
  {
    hide ValidFacility, ValidFreight, ValidMandate, ValidRules;
    UptoAll(Eaten(cat.expedition.transitPerDay, cargo), cat.resources);
  }

  /** Everything but where the expedition stands. */
  ghost predicate Settling(cat: Catalog, w: World, shipDay: int) {
    && StoresOk(cat, w.planets, w.ledger, w.recorded, w.books.opening, w.nextId)
    && WorkforceOk(cat, w.planets, w.facilities, w.transfers, w.nextId)
    && FreighterOk(cat, w, shipDay)
    && BalancesOk(cat, w)
    && PeopleOk(w.planets, w.colony, w.books.people, w.books.workforce)
  }

  /** One more day uses up one more day's worth, never more than there is. */
  lemma ChargedOnce(cargo: int, use: int, days: int)
    requires 0 <= cargo && 0 <= use && 0 <= days
    ensures AfterDays(cargo, use, days + 1) == AfterDays(cargo, use, days) - Max(0,
            Min(AfterDays(cargo, use, days), use))
    ensures 0 <= AfterDays(cargo, use, days)
  {
    assert (days + 1) * use == days * use + use;
  }

  /** The expedition's cargo after its nth charged day is exactly the launch cargo less n days of use. */
  lemma ChargeKeepsCargo(cat: Catalog, w: World, w': World, days: int)
    requires ValidCatalog(cat) && ChargeStep(cat, w, w') && 0 <= days
    requires forall r: nat ::
             Qty(w.colony.cargo, r) == AfterDays(Qty(cat.expedition.cargo, r), Qty(cat.expedition.transitPerDay, r),
             days)
    ensures forall r: nat ::
            Qty(w'.colony.cargo, r) == AfterDays(Qty(cat.expedition.cargo, r), Qty(cat.expedition.transitPerDay, r),
            days + 1)
    ensures w'.colony.cargo.Keys == w.colony.cargo.Keys
  {
    hide Posted, LedgerOk, ValidFacility, ValidFreight, ValidMandate, ValidRules, AfterDays;
    var e := cat.expedition;
    forall r: nat ensures Qty(w'.colony.cargo, r) == AfterDays(Qty(e.cargo, r), Qty(e.transitPerDay, r), days + 1) {
      assert 0 <= Qty(e.cargo, r) && 0 <= Qty(e.transitPerDay, r);
      ChargedOnce(Qty(e.cargo, r), Qty(e.transitPerDay, r), days);
    }
  }

  lemma ChargeKeepsRest(cat: Catalog, w: World, w': World, d: int, d': int)
    requires InvAt(cat, w, d, d') && ChargeStep(cat, w, w')
    ensures Settling(cat, w', d')
  {
    hide Sum, WorkforceOk, EscrowBalance, ShipBalance, BookedOk, ClaimsOk, ShipOk, DemandOk, TankOk, ShippedOk, StockOk,
         LedgerOk, PlanetsBalance, ColonyOk, Posted, ValidCatalog, Net, Eaten;
    var m := Eaten(cat.expedition.transitPerDay, w.colony.cargo);
    PostedElsewhere(w.recorded, w'.recorded, Expedition, SinkCivilian, m, w, cat.fuel);
    PostedOffWorld(w.books.opening, w.planets, w.recorded, w'.recorded, Expedition, SinkCivilian, m);
    CargoEaten(cat.expedition.transitPerDay, w.colony, w'.colony, w.books.spilled, w.recorded, w'.recorded);
  }

  lemma CargoEaten(use: ResourceMap, colony: Colony, colony': Colony, spilled: ResourceMap, before: seq<Move>,
                   after: seq<Move>)
    requires ExpeditionBalance(colony, spilled, before) && colony'.cargo == Remaining(use, colony.cargo)
    requires Posted(before, after, Expedition, SinkCivilian, Eaten(use, colony.cargo))
    ensures ExpeditionBalance(colony', spilled, after)
  {
    hide Net;
    forall r: nat ensures Net(after, Expedition, r) == Qty(colony'.cargo, r) + Qty(spilled, r) {
      assert Net(before, Expedition, r) == Qty(colony.cargo, r) + Qty(spilled, r);
    }
  }

  // ----- founding -----

  /** Cargo that did not fit at the founding leaves no entry: it is spilled. */
  ghost function Spill(spilled: ResourceMap, cargo: ResourceMap, stored: ResourceMap): ResourceMap {
    map r | r in spilled.Keys + cargo.Keys :: Qty(spilled, r) + Qty(cargo, r) - Qty(stored, r)
  }

  ghost function Storable(cargo: ResourceMap, stock: Inventory): ResourceMap {
    map r | r in cargo && r < |stock.onHand| :: Min(cargo[r], stock.Room(r))
  }

  function Hub(cat: Catalog, id: nat, day: int): Facility
    requires cat.expedition.hub < |cat.facilities| && |cat.facilities[cat.expedition.hub].recipes| > 0
  {
    Facility(id, cat.expedition.hub, 0, cat.expedition.target, Active, 0, BP_ONE,
        cat.facilities[cat.expedition.hub].recipes[0].band,
             false, day, -1, None, None, 0)
  }

  /** The colony stands: its people move in, its cargo is stored as far as it fits, its hub opens. */
  ghost predicate FoundStep(cat: Catalog, w: World, w': World) {
    var e := cat.expedition;
    && e.target < |w.planets| && |w'.planets| == |w.planets| && e.hub < |cat.facilities|
        && |cat.facilities[e.hub].recipes| > 0
    && var stored := Storable(w.colony.cargo, w.planets[e.target].stock);
    && w' == w.(nextId := w.nextId + 1, facilities := w.facilities + [Hub(cat, w.nextId, w.day)],
                colony := w.colony.(cargo := map[], founded := true, foundedDay := w.day),
                books := w.books.(spilled := Spill(w.books.spilled, w.colony.cargo, stored)),
                planets := w'.planets, ledger := w'.ledger, recorded := w'.recorded)
    && Credited(Moved(w.planets, e.target, w.colony), w'.planets, e.target, stored)
    && Posted(w.recorded, w'.recorded, Expedition, PlanetStock(e.target), stored)
    && LedgerOk(w'.ledger, w'.recorded, |w'.planets|, w'.nextId)
  }

  function Moved(planets: seq<Planet>, p: nat, colony: Colony): seq<Planet>
    requires p < |planets|
  {
    var after := Settled(planets, p, colony.residents, colony.workers);
    after[p := after[p].(colonised := true)]
  }

  /** The people move in and the cargo is unpacked. */
  method MoveIn(s: Session, p: nat) returns (ghost stored: ResourceMap)
    requires s.Stores() && p < |s.planets|
    requires forall r | r in s.colony.cargo :: r < s.cat.resources && 0 <= s.colony.cargo[r]
    modifies s`planets, s`ledger, s`recorded
    ensures s.Stores() && |s.planets| == |old(s.planets)|
    ensures stored == Storable(s.colony.cargo, old(s.planets[p].stock))
    ensures Credited(Moved(old(s.planets), p, s.colony), s.planets, p, stored)
    ensures Posted(old(s.recorded), s.recorded, Expedition, PlanetStock(p), stored)
  {
    hide Sum, Net, LedgerOk, PlanetsBalance, StockOk, Posted, OnHand, ValidCatalog, Inventory.Room;
    StoresSound(s.cat, s.planets, p);
    ghost var before, stock := s.planets, s.planets[p].stock;
    s.planets := Moved(s.planets, p, s.colony);
    SameStocks(before, s.planets, s.cat.resources, s.books.opening, s.recorded);
    stored := CreditAll(s, p, s.colony.cargo, Expedition);
    assert stored == Storable(s.colony.cargo, stock);
  }

  method FoundColony(s: Session)
    requires s.Stores()
    requires forall r | r in s.colony.cargo :: r < s.cat.resources && 0 <= s.colony.cargo[r]
    modifies s`planets, s`facilities, s`colony, s`nextId, s`ledger, s`recorded, s`books
    ensures FoundStep(s.cat, old(s.Now()), s.Now())
  {
    hide Sum, Net, LedgerOk, PlanetsBalance, StockOk, Posted, Credited, ValidFreight, ValidMandate, ValidRules,
         ValidRecipe, Storable, Spill, Moved;
    var e := s.cat.expedition;
    assert ValidFacility(s.cat, s.cat.facilities[e.hub]);
    ghost var stored := MoveIn(s, e.target);
    s.books := s.books.(spilled := Spill(s.books.spilled, s.colony.cargo, stored));
    RangeGrows(s.ledger, s.recorded, |s.planets|, s.nextId, s.nextId + 1);
    s.facilities := s.facilities + [Hub(s.cat, s.nextId, s.day)];
    s.nextId := s.nextId + 1;
    s.colony := s.colony.(cargo := map[], founded := true, foundedDay := s.day);
    assert unchanged(s`day, s`transfers, s`ship, s`route, s`demand, s`scratch);
  }

  /** The expedition is on its way, as launched, to a world not yet settled. */
  ghost predicate EnRoute(cat: Catalog, w: World) {
    && w.colony.launched && !w.colony.founded
    && w.colony.residents == cat.expedition.residents && w.colony.workers == cat.expedition.workers
    && cat.expedition.target < |w.planets| && !w.planets[cat.expedition.target].colonised
    && forall r | r in w.colony.cargo :: r < cat.resources && 0 <= w.colony.cargo[r]
  }

  lemma MovedWorlds(planets: seq<Planet>, p: nat, colony: Colony)
    requires p < |planets|
    ensures var b := Moved(planets, p, colony);
            && |b| == |planets|
            && Sum(b, PopulationOf()) == Sum(planets, PopulationOf()) + colony.residents
            && Sum(b, WorkersOf()) == Sum(planets, WorkersOf()) + colony.workers
  {
    var settled := Settled(planets, p, colony.residents, colony.workers);
    SettledSums(planets, p, colony.residents, colony.workers);
    SumsOfPeople(settled, Moved(planets, p, colony));
  }

  /** The arriving workers join Reserve, and the hub takes the slot kept for it. */
  lemma FoundWorkforce(cat: Catalog, w: World)
    requires ValidCatalog(cat) && WorkforceOk(cat, w.planets, w.facilities, w.transfers, w.nextId) && EnRoute(cat, w)
             && 0 < w.nextId
    ensures cat.expedition.hub < |cat.facilities| && |cat.facilities[cat.expedition.hub].recipes| > 0
    ensures WorkforceOk(cat, Moved(w.planets, cat.expedition.target, w.colony),
            w.facilities + [Hub(cat, w.nextId, w.day)], w.transfers, w.nextId + 1)
  {
    hide Sum, FacilityOk, StaffOk, ValidFreight, ValidMandate;
    var e, hub := cat.expedition, Hub(cat, w.nextId, w.day);
    assert ValidFacility(cat, cat.facilities[e.hub]) && ValidRecipe(cat, cat.facilities[e.hub].recipes[0]);
    var after := Moved(w.planets, e.target, w.colony);
    forall p | 0 <= p < |after|
      ensures 0 <= after[p].crew && 0 <= ReserveOf(after[p], w.facilities, w.transfers, p)
              && after[p].workers <= after[p].population
    {
      assert 0 <= ReserveOf(w.planets[p], w.facilities, w.transfers, p);
    }
    HubIsSound(cat, hub, |after|, w.nextId, w.day);
    EmptyFacilityKeepsWorkforce(cat, after, w.facilities, w.transfers, w.nextId, hub);
  }

  lemma HubIsSound(cat: Catalog, hub: Facility, planets: nat, id: nat, day: int)
    requires cat.expedition.hub < |cat.facilities| && |cat.facilities[cat.expedition.hub].recipes| > 0
    requires hub == Hub(cat, id, day) && ValidRules(cat, cat.rules) && cat.expedition.target < planets
    ensures FacilityOk(cat, hub, planets)
  {
  }

  lemma HubHoldsNothing(fs: seq<Facility>, hub: Facility, stranded: map<(nat, nat), int>, recorded: seq<Move>)
    requires EscrowBalance(fs, stranded, recorded) && hub.job.None?
    ensures EscrowBalance(fs + [hub], stranded, recorded)
  {
    hide Sum, Net, Stranded;
    FacilityAppended(fs, hub);
    forall id: nat, r: nat ensures Net(recorded, Escrow(id), r) == Sum(fs + [hub], HeldFor(id, r)) + Stranded(stranded,
        id, r) {
      assert Net(recorded, Escrow(id), r) == Sum(fs, HeldFor(id, r)) + Stranded(stranded, id, r);
    }
  }

  lemma CargoSpills(colony: Colony, spilled: ResourceMap, stored: ResourceMap, before: seq<Move>, after: seq<Move>,
                    p: nat)
    requires ExpeditionBalance(colony, spilled, before) && Posted(before, after, Expedition, PlanetStock(p), stored)
    requires forall r | r in stored :: r in colony.cargo
    ensures ExpeditionBalance(colony.(cargo := map[]), Spill(spilled, colony.cargo, stored), after)
  {
    hide Net;
    forall r: nat ensures Net(after, Expedition, r) == Qty(map[], r) + Qty(Spill(spilled, colony.cargo, stored), r) {
      assert Net(before, Expedition, r) == Qty(colony.cargo, r) + Qty(spilled, r);
    }
  }

  /** An unsettled world has no space promised to anyone, so its free space is all its room. */
  lemma UnsettledHasNoClaims(cat: Catalog, w: World, p: nat)
    requires ClaimsOk(w.planets, w.ship) && p < |w.planets| && !w.planets[p].colonised
    ensures w.planets[p].stock.claims == []
    ensures forall r: nat | r < |w.planets[p].stock.onHand| ::
            w.planets[p].stock.FreeSpace(r) == w.planets[p].stock.Room(r)
  {
    hide Sum;
    forall r: nat | r < |w.planets[p].stock.onHand|
        ensures w.planets[p].stock.FreeSpace(r) == w.planets[p].stock.Room(r) {
      SumEmpty(ClaimedFor(r));
    }
  }

  lemma FoundStores(cat: Catalog, w: World, w': World)
    requires StoresOk(cat, w.planets, w.ledger, w.recorded, w.books.opening, w.nextId) && EnRoute(cat, w)
             && FoundStep(cat, w, w')
    requires ClaimsOk(w.planets, w.ship)
    ensures StoresOk(cat, w'.planets, w'.ledger, w'.recorded, w'.books.opening, w'.nextId)
            && (BookedOk(w.planets) ==> BookedOk(w'.planets))
    ensures ClaimsOk(Moved(w.planets, cat.expedition.target, w.colony), w.ship)
  {
    hide Sum, Net, LedgerOk, PlanetsBalance, ValidCatalog, Credited, Posted, Inventory.Room, Inventory.FreeSpace,
         Inventory.Sound;
    var p := cat.expedition.target;
    var moved := Moved(w.planets, p, w.colony);
    var stored := Storable(w.colony.cargo, w.planets[p].stock);
    UnsettledHasNoClaims(cat, w, p);
    StoresSound(cat, w.planets, p);
    SameStocks(w.planets, moved, cat.resources, w.books.opening, w.recorded);
    LaunchClaimsMoved(w.planets, moved, w.ship);
    StorableFits(w.colony.cargo, w.planets[p].stock, cat.resources);
    CreditKeepsStores(cat, w.(planets := moved), w', p, stored, Expedition);
  }

  lemma StorableFits(cargo: ResourceMap, stock: Inventory, n: nat)
    requires stock.Sound(n) && forall r | r in cargo :: 0 <= cargo[r]
    ensures |stock.onHand| == n && forall r | r in Storable(cargo, stock) ::
            r < n && 0 <= Storable(cargo, stock)[r] <= stock.Room(r)
  {
    hide Sum;
  }

  lemma LaunchClaimsMoved(a: seq<Planet>, b: seq<Planet>, ship: Ship)
    requires |a| == |b| && forall p | 0 <= p < |a| :: b[p].stock == a[p].stock && (a[p].colonised ==> b[p].colonised)
    ensures ClaimsOk(a, ship) ==> ClaimsOk(b, ship)
  {
    hide Sum;
  }

  lemma FoundKeepsInv(cat: Catalog, w: World, w': World, d': int)
    requires Settling(cat, w, d') && EnRoute(cat, w) && FoundStep(cat, w, w') && w.day == w.colony.arrivalDay
    ensures InvAt(cat, w', w.day, d')
  {
    hide Sum, Net, WorkforceOk, EscrowBalance, ShipBalance, ClaimsOk, ShipOk, DemandOk, TankOk, ShippedOk, StockOk,
         LedgerOk, PlanetsBalance, Posted, Credited, BookedOk, ValidCatalog, ExpeditionBalance, Storable, Spill, Moved;
    var p := cat.expedition.target;
    var moved := Moved(w.planets, p, w.colony);
    var stored := Storable(w.colony.cargo, w.planets[p].stock);
    FoundStores(cat, w, w');
    FoundWorkforce(cat, w);
    MovedWorlds(w.planets, p, w.colony);
    CreditedMoves(moved, w'.planets, p, stored);
    StockMovesNobody(cat, moved, w'.planets, w', w.day);
    HubHoldsNothing(w.facilities, Hub(cat, w.nextId, w.day), w.books.stranded, w.recorded);
    PostedElsewhere(w.recorded, w'.recorded, Expedition, PlanetStock(p), stored, w', cat.fuel);
    StorableIsCargo(w.colony.cargo, w.planets[p].stock);
    CargoSpills(w.colony, w.books.spilled, stored, w.recorded, w'.recorded, p);
    FoundedBalance(w.colony, w'.colony, w'.books.spilled, w'.recorded);
  }

  lemma StorableIsCargo(cargo: ResourceMap, stock: Inventory)
    ensures forall r | r in Storable(cargo, stock) :: r in cargo
  {
  }

  lemma FoundedBalance(colony: Colony, colony': Colony, spilled: ResourceMap, recorded: seq<Move>)
    requires ExpeditionBalance(colony.(cargo := map[]), spilled, recorded) && colony'.cargo == map[]
    ensures ExpeditionBalance(colony', spilled, recorded)
  {
  }

  // ----- the expedition's day -----

  ghost predicate TravelStep(cat: Catalog, w: World, w': World) {
    if !w.colony.launched || w.colony.founded || w.colony.arrivalDay < w.day then w' == w
    else if w.day < w.colony.arrivalDay then ChargeStep(cat, w, w')
    else exists mid :: ChargeStep(cat, w, mid) && FoundStep(cat, mid, w')
  }

  method Travel(s: Session)
    requires s.Stores() && forall r | r in s.colony.cargo :: r < s.cat.resources && 0 <= s.colony.cargo[r]
    modifies s`planets, s`facilities, s`colony, s`nextId, s`ledger, s`recorded, s`books
    ensures TravelStep(s.cat, old(s.Now()), s.Now())
  {
    hide StoresOk, ChargeStep, FoundStep, Eaten;
    if s.colony.launched && !s.colony.founded && s.colony.arrivalDay > s.day {
      ChargeTransitDay(s);
    } else if s.colony.launched && !s.colony.founded && s.colony.arrivalDay == s.day {
      ghost var w := s.Now();
      ChargeTransitDay(s);
      ChargedCargo(s.cat, w, s.Now());
      FoundColony(s);
    }
  }

  lemma ChargedCargo(cat: Catalog, w: World, w': World)
    requires ChargeStep(cat, w, w') && forall r | r in w.colony.cargo :: r < cat.resources && 0 <= w.colony.cargo[r]
    ensures forall r | r in w'.colony.cargo :: r < cat.resources && 0 <= w'.colony.cargo[r]
    ensures w'.colony == w.colony.(cargo := w'.colony.cargo) && w'.planets == w.planets && w'.day == w.day
            && w'.nextId == w.nextId
  {
    hide Posted, LedgerOk;
  }

  /** The state an arriving expedition founds from: charged once for each day it travelled, so each
      resource is the launch cargo less that many days of use, or nothing. */
  lemma ArrivesCharged(cat: Catalog, w: World, mid: World, d': int)
    requires InvAt(cat, w, w.day - 1, d') && ChargeStep(cat, w, mid)
    requires w.colony.launched && !w.colony.founded && w.day == w.colony.arrivalDay
    ensures EnRoute(cat, mid) && Settling(cat, mid, d')
    ensures forall r: nat ::
            Qty(mid.colony.cargo, r) == AfterDays(Qty(cat.expedition.cargo, r), Qty(cat.expedition.transitPerDay, r),
            cat.expedition.transitDays)
  {
    hide StoresOk, WorkforceOk, FreighterOk, BalancesOk, PeopleOk, ChargeStep, AfterDays;
    TravellersCargo(cat, w, d');
    ChargedCargo(cat, w, mid);
    ChargeKeepsCargo(cat, w, mid, w.day - 1 - w.colony.launchDay);
    ChargeKeepsRest(cat, w, mid, w.day - 1, d');
  }

  lemma TravellersCargo(cat: Catalog, w: World, d': int)
    requires InvAt(cat, w, w.day - 1, d')
    ensures ValidCatalog(cat) && forall r | r in w.colony.cargo :: r < cat.resources && 0 <= w.colony.cargo[r]
  {
    hide WorkforceOk, FreighterOk, BalancesOk, PeopleOk, ValidFacility, ValidFreight, ValidMandate, ValidRules, StockOk,
         PlanetsBalance, LedgerOk;
    forall r | r in w.colony.cargo ensures r < cat.resources && 0 <= w.colony.cargo[r] {
      assert Qty(w.colony.cargo, r) == AfterDays(Qty(cat.expedition.cargo, r), Qty(cat.expedition.transitPerDay, r),
             w.day - 1 - w.colony.launchDay);
    }
  }

  /** Each day the expedition is charged once, or charged and founded on the day it is due, and every
      invariant moves on to that day. */
  lemma TravelKeepsInv(cat: Catalog, w: World, w': World, d': int)
    requires InvAt(cat, w, w.day - 1, d') && TravelStep(cat, w, w')
    ensures InvAt(cat, w', w'.day, d') && w'.day == w.day
  {
    hide StoresOk, WorkforceOk, FreighterOk, BalancesOk, PeopleOk, ChargeStep, FoundStep, AfterDays;
    if w.colony.launched && !w.colony.founded {
      TravellersCargo(cat, w, d');
      if w.day < w.colony.arrivalDay {
        ChargeKeepsRest(cat, w, w', w.day - 1, d');
        ChargedCargo(cat, w, w');
        ChargeKeepsCargo(cat, w, w', w.day - 1 - w.colony.launchDay);
      } else {
        var mid :| ChargeStep(cat, w, mid) && FoundStep(cat, mid, w');
        ArrivesCharged(cat, w, mid, d');
        ChargedCargo(cat, w, mid);
        FoundKeepsInv(cat, mid, w', d');
        FoundedDay(cat, mid, w');
      }
    }
  }

  lemma FoundedDay(cat: Catalog, w: World, w': World)
    requires FoundStep(cat, w, w')
    ensures w'.day == w.day && w'.colony.founded && w'.colony.foundedDay == w.day
  {
  }
}
