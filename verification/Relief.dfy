/** Relief contracts: goods from outside for a world in need, once. */
module Relief {
  import opened Units
  import opened Sums
  import opened Stock
  import opened Ledger
  import opened Catalog
  import opened State
  import opened Support
  import opened Outside
  import opened Upkeep

  // ----- the contract -----

  ghost predicate ReliefAllowed(w: World, p: nat) {
    p < |w.planets| && w.planets[p].emergency && w.planets[p].reliefDue < 0 && !w.planets[p].reliefUsed
  }

  ghost predicate RequestStep(cat: Catalog, w: World, w': World, p: nat) {
    p < |w.planets| && w'
        == w.(planets := w.planets[p := w.planets[p].(reliefUsed := true, reliefDue := w.day + cat.rules.reliefDelay)])
  }

  method RequestRelief(s: Session, p: nat) returns (accepted: bool)
    modifies s`planets
    ensures accepted <==> old(ReliefAllowed(s.Now(), p))
    ensures if accepted then RequestStep(s.cat, old(s.Now()), s.Now(), p) else s.Now() == old(s.Now())
  {
    accepted := p < |s.planets| && s.planets[p].emergency && s.planets[p].reliefDue < 0 && !s.planets[p].reliefUsed;
    if accepted {
      s.planets := s.planets[p := s.planets[p].(reliefUsed := true, reliefDue := s.day + s.cat.rules.reliefDelay)];
    }
  }

  lemma RequestKeepsInv(cat: Catalog, w: World, w': World, p: nat, d: int, d': int)
    requires InvAt(cat, w, d, d') && RequestStep(cat, w, w', p)
    ensures InvAt(cat, w', d, d')
  {
    hide InvAt;
    assert forall q | 0 <= q < |w.planets| :: SameWorld(w.planets[q], w'.planets[q]);
    ReportsAreFree(cat, w, w', d, d');
  }

  /** What is stored of a grant: as much as the store has room for. */
  ghost function Granted(m: ResourceMap, stock: Inventory): ResourceMap {
    map r | r in m && r < |stock.onHand| :: Min(m[r], stock.Room(r))
  }

  /** None of it takes space promised to an inbound shipment. */
  ghost predicate Unpromised(m: ResourceMap, stock: Inventory) {
    forall r | r in m && r < |stock.onHand| :: Min(m[r], stock.Room(r)) <= stock.FreeSpace(r)
  }

  predicate Due(w: World, p: nat) {
    p < |w.planets| && 0 <= w.planets[p].reliefDue <= w.day
  }

  ghost predicate ReliefFits(cat: Catalog, w: World, p: nat) {
    Due(w, p) ==> Unpromised(cat.rules.reliefGrant, w.planets[p].stock)
  }

  function Closed(planets: seq<Planet>, p: nat): seq<Planet>
    requires p < |planets|
  {
    planets[p := planets[p].(reliefDue := -1)]
  }

  ghost predicate ReliefStep(cat: Catalog, w: World, w': World, p: nat) {
    if !Due(w, p) then w' == w
    else ReceiveStep(cat, w.(planets := Closed(w.planets, p)), w', p,
        Granted(cat.rules.reliefGrant, w.planets[p].stock), External)
  }

  method DeliverRelief(s: Session, p: nat)
    requires s.Stores() && p < |s.planets|
    modifies s`planets, s`ledger, s`recorded
    ensures ReliefStep(s.cat, old(s.Now()), s.Now(), p)
  {
    hide Sum, Net, LedgerOk, PlanetsBalance, StockOk, Posted, Credited, OnHand, ValidFacility, ValidFreight,
         ValidExpedition, ValidMandate, Inventory.Room;
    if s.planets[p].reliefDue < 0 || s.planets[p].reliefDue > s.day {
      return;
    }
    StockWidth(s.cat, s.planets, p);
    ghost var before, stock := s.planets, s.planets[p].stock;
    s.planets := Closed(s.planets, p);
    SameStocks(before, s.planets, s.cat.resources, s.books.opening, s.recorded);
    var stored := CreditAll(s, p, s.cat.rules.reliefGrant, External);
    assert stored == Granted(s.cat.rules.reliefGrant, stock);
    assert unchanged(s`day, s`nextId, s`facilities, s`transfers, s`ship, s`route, s`colony, s`demand, s`scratch,
           s`books);
  }

  /** A relief delivery keeps every rule but the booking one, and that one exactly when none of it lands in
      promised space. */
  lemma ReliefKeepsInv(cat: Catalog, w: World, w': World, p: nat, d: int, d': int)
    requires LooseAt(cat, w, d, d') && ReliefStep(cat, w, w', p)
    ensures LooseAt(cat, w', d, d')
    ensures BookedOk(w.planets) ==> (BookedOk(w'.planets) <==> ReliefFits(cat, w, p))
  {
    hide LooseAt, ReceiveStep, BookedOk, Inventory.Room, Inventory.FreeSpace;
    if Due(w, p) {
      var mid := w.(planets := Closed(w.planets, p));
      assert forall q | 0 <= q < |w.planets| :: SameWorld(w.planets[q], mid.planets[q]);
      ReportsAreLoose(cat, w, mid, d, d');
      ReceivedKeepsInv(cat, mid, w', p, cat.rules.reliefGrant, External, d, d');
    }
  }

  /** Storing what fits of a grant keeps every rule but the booking one, and that one exactly when it leaves
      promised space alone. */
  lemma ReceivedKeepsInv(cat: Catalog, w: World, w': World, p: nat, m: ResourceMap, from: Account, d: int, d': int)
    requires LooseAt(cat, w, d, d') && p < |w.planets| && ReceiveStep(cat, w, w', p, Granted(m, w.planets[p].stock),
             from) && !Owned(from)
    requires m == cat.rules.reliefGrant || forall r | r in m :: r < cat.resources && 0 <= m[r]
    ensures LooseAt(cat, w', d, d')
    ensures BookedOk(w.planets) ==> (BookedOk(w'.planets) <==> Unpromised(m, w.planets[p].stock))
  {
    hide ReceiveStep, LooseAt, BookedOk, Inventory.Room, Inventory.FreeSpace;
    GrantFacts(cat, w, p, m, d, d');
    ReceiveKeepsLoose(cat, w, w', p, Granted(m, w.planets[p].stock), from, d, d');
  }

  lemma GrantFacts(cat: Catalog, w: World, p: nat, m: ResourceMap, d: int, d': int)
    requires LooseAt(cat, w, d, d') && p < |w.planets|
    requires m == cat.rules.reliefGrant || forall r | r in m :: r < cat.resources && 0 <= m[r]
    ensures |w.planets[p].stock.onHand| == cat.resources
    ensures forall r | r in m :: r < cat.resources && 0 <= m[r] && 0 <= w.planets[p].stock.Room(r)
  {
    hide Sum, WorkforceOk, FreightOk, BalancesOk, ColonyOk, PeopleOk, LedgerOk, PlanetsBalance, ValidFacility,
         ValidFreight, ValidExpedition, ValidMandate;
    StockWidth(cat, w.planets, p);
  }
}
