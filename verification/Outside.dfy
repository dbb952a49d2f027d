/** Trade between a world's stock and accounts outside the sector, and the changes no invariant sees. */
module Outside {
  import opened Sums
  import opened Stock
  import opened Ledger
  import opened Catalog
  import opened State
  import opened Support

  /** The invariants do not depend on the route plan, the day's scratch or what a world reports. */
  lemma PlanIsFree(cat: Catalog, w: World, w': World, d: int, d': int)
    requires InvAt(cat, w, d, d') && w' == w.(route := w'.route, scratch := w'.scratch, day := w'.day)
    ensures InvAt(cat, w', d, d')
  {
    hide StoresOk, WorkforceOk, ColonyOk, PeopleOk, EscrowBalance, ShipBalance, ExpeditionBalance, DemandOk, ShipOk,
         ClaimsOk, BookedOk, TankOk, ShippedOk;
  }

  /** Two worlds differ at most in what they report and in their relief contract. */
  ghost predicate SameWorld(a: Planet, b: Planet) {
    b == a.(emergency := b.emergency, reliefDue := b.reliefDue, reliefUsed := b.reliefUsed,
        handlingYesterday := b.handlingYesterday)
  }

  ghost predicate SameWorlds(a: seq<Planet>, b: seq<Planet>) {
    |b| == |a| && forall p | 0 <= p < |a| :: SameWorld(a[p], b[p])
  }

  lemma ReportsAreFree(cat: Catalog, w: World, w': World, d: int, d': int)
    requires InvAt(cat, w, d, d') && SameWorlds(w.planets, w'.planets) && w' == w.(planets := w'.planets)
    ensures InvAt(cat, w', d, d')
  {
    hide LooseAt, SameWorlds, BookedOk, InvAt;
    InvIsLooseAndBooked(cat, w, d, d');
    ReportsAreLoose(cat, w, w', d, d');
    InvIsLooseAndBooked(cat, w', d, d');
  }

  lemma ReportsAreLoose(cat: Catalog, w: World, w': World, d: int, d': int)
    requires LooseAt(cat, w, d, d') && SameWorlds(w.planets, w'.planets) && w' == w.(planets := w'.planets)
    ensures LooseAt(cat, w', d, d') && (BookedOk(w.planets) ==> BookedOk(w'.planets))
  {
    hide Sum, Net, AfterDays, FacilityOk, StaffOk, TransfersOk, EscrowBalance, ShipBalance, ExpeditionBalance, DemandOk,
         ShipOk, TankOk, ShippedOk, LedgerOk, ValidCatalog;
    forall q: nat, r: nat ensures OnHand(w'.planets, q, r) == OnHand(w.planets, q, r) {
      assert q < |w.planets| ==> SameWorld(w.planets[q], w'.planets[q]);
    }
    forall p | 0 <= p < |w.planets|
      ensures w'.planets[p].stock == w.planets[p].stock && w'.planets[p].workers == w.planets[p].workers
              && w'.planets[p].crew == w.planets[p].crew
      ensures w'.planets[p].population == w.planets[p].population && w'.planets[p].colonised == w.planets[p].colonised
    {
      assert SameWorld(w.planets[p], w'.planets[p]);
    }
    SumsOfPeople(w.planets, w'.planets);
    SameStocks(w.planets, w'.planets, cat.resources, w.books.opening, w.recorded);
  }

  /** No world's handling budget is overdrawn. */
  ghost predicate HandlingOk(w: World) {
    |w.scratch| == |w.planets| && forall p | 0 <= p < |w.scratch| :: 0 <= w.scratch[p].handlingLeft
  }

  lemma HandledWidth(w: World)
    requires HandlingOk(w)
    ensures |w.scratch| == |w.planets|
  {
  }

  // ----- stock leaving the sector -----

  ghost predicate SpendStep(cat: Catalog, w: World, w': World, p: nat, m: ResourceMap, to: Account) {
    && w' == w.(planets := w'.planets, ledger := w'.ledger, recorded := w'.recorded)
    && Debited(w.planets, w'.planets, p, m)
    && Posted(w.recorded, w'.recorded, PlanetStock(p), to, m)
    && LedgerOk(w'.ledger, w'.recorded, |w'.planets|, w'.nextId)
  }

  /** Spending unreserved stock outside the sector keeps every invariant. */
  lemma SpendKeepsInv(cat: Catalog, w: World, w': World, p: nat, m: ResourceMap, to: Account, d: int, d': int)
    requires InvAt(cat, w, d, d') && SpendStep(cat, w, w', p, m, to) && !Owned(to)
    requires p < |w.planets| && (forall r | r in m :: r < cat.resources && 0 <= m[r])
             && Affords(w.planets[p].stock, m, cat.resources)
    ensures InvAt(cat, w', d, d')
  {
    hide LooseAt, SpendStep, Affords, BookedOk, InvAt;
    InvIsLooseAndBooked(cat, w, d, d');
    SpendKeepsLoose(cat, w, w', p, m, to, d, d');
    InvIsLooseAndBooked(cat, w', d, d');
  }

  lemma SpendKeepsLoose(cat: Catalog, w: World, w': World, p: nat, m: ResourceMap, to: Account, d: int, d': int)
    requires LooseAt(cat, w, d, d') && SpendStep(cat, w, w', p, m, to) && !Owned(to)
    requires p < |w.planets| && (forall r | r in m :: r < cat.resources && 0 <= m[r])
             && Affords(w.planets[p].stock, m, cat.resources)
    ensures w'.books == w.books
    ensures LooseAt(cat, w', d, d') && (BookedOk(w.planets) ==> BookedOk(w'.planets))
  {
    hide Sum, Net, WorkforceOk, EscrowBalance, StockOk, LedgerOk, PlanetsBalance, ShipBalance, ExpeditionBalance,
         ColonyOk, PeopleOk, BookedOk, ClaimsOk, ShipOk, DemandOk, Debited, Posted, Affords, ValidCatalog, TankOk,
         ShippedOk;
    SpendKeepsStores(cat, w, w', p, m, to);
    PostedElsewhere(w.recorded, w'.recorded, PlanetStock(p), to, m, w, cat.fuel);
    DebitedMoves(w.planets, w'.planets, p, m);
    StockMovesNobody(cat, w.planets, w'.planets, w, d);
  }

  lemma SpendKeepsStores(cat: Catalog, w: World, w': World, p: nat, m: ResourceMap, to: Account)
    requires StoresOk(cat, w.planets, w.ledger, w.recorded, w.books.opening, w.nextId)
             && SpendStep(cat, w, w', p, m, to) && !to.PlanetStock?
    requires p < |w.planets| && (forall r | r in m :: r < cat.resources && 0 <= m[r])
             && Affords(w.planets[p].stock, m, cat.resources)
    ensures StoresOk(cat, w'.planets, w'.ledger, w'.recorded, w'.books.opening, w'.nextId)
    ensures BookedOk(w.planets) ==> BookedOk(w'.planets)
  {
    hide Sum, Net, LedgerOk, ValidCatalog, PlanetsBalance;
    DebitKeepsSound(w.planets, w'.planets, p, m, cat.resources);
    DebitKeepsBalance(w.books.opening, w.planets, w'.planets, p, m, w.recorded, w'.recorded, to);
  }

  // ----- stock entering the sector -----

  ghost predicate ReceiveStep(cat: Catalog, w: World, w': World, p: nat, m: ResourceMap, from: Account) {
    && w' == w.(planets := w'.planets, ledger := w'.ledger, recorded := w'.recorded)
    && Credited(w.planets, w'.planets, p, m)
    && Posted(w.recorded, w'.recorded, from, PlanetStock(p), m)
    && LedgerOk(w'.ledger, w'.recorded, |w'.planets|, w'.nextId)
  }

  /** Storing goods from outside within a world's room keeps every invariant exactly when it leaves
      the space promised to an inbound shipment free, or some was taken already. */
  lemma ReceiveKeepsInv(cat: Catalog, w: World, w': World, p: nat, m: ResourceMap, from: Account, d: int, d': int)
    requires InvAt(cat, w, d, d') && ReceiveStep(cat, w, w', p, m, from) && !Owned(from)
    requires p < |w.planets| && |w.planets[p].stock.onHand| == cat.resources
    requires forall r | r in m :: r < cat.resources && 0 <= m[r] <= w.planets[p].stock.Room(r)
    ensures InvAt(cat, w', d, d') <==>
              w.books.overgranted || forall r | r in m :: m[r] <= w.planets[p].stock.FreeSpace(r)
  {
    hide LooseAt, ReceiveStep, BookedOk, InvAt, Inventory.Room, Inventory.FreeSpace;
    InvIsLooseAndBooked(cat, w, d, d');
    ReceiveKeepsLoose(cat, w, w', p, m, from, d, d');
    InvIsLooseAndBooked(cat, w', d, d');
  }

  /** Wherever it lands, storing within the room keeps every rule but the booking one. */
  lemma ReceiveKeepsLoose(cat: Catalog, w: World, w': World, p: nat, m: ResourceMap, from: Account, d: int, d': int)
    requires LooseAt(cat, w, d, d') && ReceiveStep(cat, w, w', p, m, from) && !Owned(from)
    requires p < |w.planets| && |w.planets[p].stock.onHand| == cat.resources
    requires forall r | r in m :: r < cat.resources && 0 <= m[r] <= w.planets[p].stock.Room(r)
    ensures w'.books == w.books
    ensures LooseAt(cat, w', d, d')
    ensures BookedOk(w.planets) ==>
            (BookedOk(w'.planets) <==> forall r | r in m :: m[r] <= w.planets[p].stock.FreeSpace(r))
  {
    hide Sum, Net, WorkforceOk, EscrowBalance, StockOk, LedgerOk, PlanetsBalance, ShipBalance, ExpeditionBalance,
         ColonyOk, PeopleOk, BookedOk, ClaimsOk, ShipOk, DemandOk, Credited, Posted, ValidCatalog, TankOk, ShippedOk,
         Inventory.Room, Inventory.FreeSpace;
    CreditKeepsStores(cat, w, w', p, m, from);
    PostedElsewhere(w.recorded, w'.recorded, from, PlanetStock(p), m, w, cat.fuel);
    CreditedMoves(w.planets, w'.planets, p, m);
    StockMovesNobody(cat, w.planets, w'.planets, w, d);
  }
}
