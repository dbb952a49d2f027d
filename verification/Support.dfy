/** The stock helpers every change of owned quantity goes through, and the worker counts. */
module Support {
  import opened Units
  import opened Sums
  import opened Stock
  import opened Ledger
  import opened Catalog
  import opened State

  /** The part of a map below resource k: what a loop in ascending order has handled. */
  ghost function Upto(m: ResourceMap, k: nat): ResourceMap {
    map r | r in m && r < k :: m[r]
  }

  function Single(r: nat, q: int): ResourceMap {
    map[r := q]
  }

  lemma UptoAll(m: ResourceMap, n: nat)
    requires forall r | r in m :: r < n
    ensures Upto(m, n) == m
  {
  }

  lemma PostedNothing(moves: seq<Move>, from: Account, to: Account, m: ResourceMap)
    requires forall r: nat :: Qty(m, r) == 0
    ensures Posted(moves, moves, from, to, m)
  {
  }

  /** One more posting between the same two accounts adds up quantity by quantity. */
  lemma PostedThen(a: seq<Move>, b: seq<Move>, c: seq<Move>, from: Account, to: Account,
                   m: ResourceMap, m': ResourceMap, total: ResourceMap)
    requires Posted(a, b, from, to, m) && Posted(b, c, from, to, m')
    requires forall r: nat :: Qty(total, r) == Qty(m, r) + Qty(m', r)
    ensures Posted(a, c, from, to, total)
  {
    hide Net;
    forall x: Account, r: nat
      ensures Net(c, x, r) == Net(a, x, r) + (if x == to then Qty(total, r) else 0) - (if x == from then Qty(total, r)
              else 0)
    {
      assert Net(c, x, r) == Net(b, x, r) + (if x == to then Qty(m', r) else 0) - (if x == from then Qty(m', r) else 0);
      assert Net(b, x, r) == Net(a, x, r) + (if x == to then Qty(m, r) else 0) - (if x == from then Qty(m, r) else 0);
    }
  }

  lemma DebitedThen(a: seq<Planet>, b: seq<Planet>, c: seq<Planet>, p: nat,
                    m: ResourceMap, m': ResourceMap, total: ResourceMap)
    requires Debited(a, b, p, m) && Debited(b, c, p, m')
    requires forall r: nat :: Qty(total, r) == Qty(m, r) + Qty(m', r)
    ensures Debited(a, c, p, total)
  {
    forall q | 0 <= q < |a| ensures OnlyStock(a[q], c[q]) {
      assert OnlyStock(a[q], b[q]) && OnlyStock(b[q], c[q]);
    }
    hide OnHand;
    forall q: nat, r: nat ensures OnHand(c, q, r) == OnHand(a, q, r) - (if q == p then Qty(total, r) else 0) {
      assert OnHand(b, q, r) == OnHand(a, q, r) - (if q == p then Qty(m, r) else 0);
    }
  }

  lemma NothingDebited(a: seq<Planet>, b: seq<Planet>, p: nat, m: ResourceMap)
    requires a == b && m == map[]
    ensures Debited(a, b, p, m)
  {
  }

  lemma CreditedThen(a: seq<Planet>, b: seq<Planet>, c: seq<Planet>, p: nat,
                     m: ResourceMap, m': ResourceMap, total: ResourceMap)
    requires Credited(a, b, p, m) && Credited(b, c, p, m')
    requires forall r: nat :: Qty(total, r) == Qty(m, r) + Qty(m', r)
    ensures Credited(a, c, p, total)
  {
    forall q | 0 <= q < |a| ensures OnlyStock(a[q], c[q]) {
      assert OnlyStock(a[q], b[q]) && OnlyStock(b[q], c[q]);
    }
    hide OnHand;
    forall q: nat, r: nat ensures OnHand(c, q, r) == OnHand(a, q, r) + (if q == p then Qty(total, r) else 0) {
      assert OnHand(b, q, r) == OnHand(a, q, r) + (if q == p then Qty(m, r) else 0);
    }
  }

  /** Taking stock out leaves every store sound as long as reservations stay covered. */
  lemma DebitKeepsSound(a: seq<Planet>, b: seq<Planet>, p: nat, m: ResourceMap, n: nat)
    requires StockOk(a, n) && Debited(a, b, p, m)
    requires p < |a| && |a[p].stock.onHand| == n
    requires forall r: nat | r < n :: 0 <= Qty(m, r) <= a[p].stock.Available(r)
    ensures StockOk(b, n)
    ensures BookedOk(a) ==> BookedOk(b)
  {
    forall q | 0 <= q < |b| ensures b[q].stock.Sound(n) && (BookedOk(a) ==> b[q].stock.Booked()) {
      assert OnlyStock(a[q], b[q]) && a[q].stock.Sound(n);
      assert BookedOk(a) ==> a[q].stock.Booked();
      forall r: nat | r < n
        ensures b[q].stock.Reserved(r) == a[q].stock.Reserved(r) && b[q].stock.Claimed(r) == a[q].stock.Claimed(r)
        ensures b[q].stock.onHand[r] == a[q].stock.onHand[r] - (if q == p then Qty(m, r) else 0)
      {
        assert OnHand(b, q, r) == OnHand(a, q, r) - (if q == p then Qty(m, r) else 0);
      }
    }
  }

  /** Putting stock in keeps stores sound within their room, and keeps promised space free exactly
      when it stays within the free space. */
  lemma CreditKeepsSound(a: seq<Planet>, b: seq<Planet>, p: nat, m: ResourceMap, n: nat)
    requires StockOk(a, n) && Credited(a, b, p, m)
    requires p < |a| && |a[p].stock.onHand| == n
    requires forall r: nat | r < n :: 0 <= Qty(m, r) <= a[p].stock.Room(r)
    ensures StockOk(b, n)
    ensures BookedOk(a) ==> (BookedOk(b) <==> forall r: nat | r < n :: Qty(m, r) <= a[p].stock.FreeSpace(r))
  {
    var fits := forall r: nat | r < n :: Qty(m, r) <= a[p].stock.FreeSpace(r);
    forall q | 0 <= q < |b|
      ensures b[q].stock.Sound(n) && (BookedOk(a) && fits ==> b[q].stock.Booked())
      ensures BookedOk(a) && b[q].stock.Booked() && q == p ==> fits
    {
      assert OnlyStock(a[q], b[q]) && a[q].stock.Sound(n);
      assert BookedOk(a) ==> a[q].stock.Booked();
      forall r: nat | r < n
        ensures b[q].stock.Reserved(r) == a[q].stock.Reserved(r) && b[q].stock.Claimed(r) == a[q].stock.Claimed(r)
        ensures b[q].stock.onHand[r] == a[q].stock.onHand[r] + (if q == p then Qty(m, r) else 0)
      {
        assert OnHand(b, q, r) == OnHand(a, q, r) + (if q == p then Qty(m, r) else 0);
      }
    }
  }

  /** A debit posted from the world's own account keeps its stock equal to its books. */
  lemma DebitKeepsBalance(opening: seq<Planet>, a: seq<Planet>, b: seq<Planet>, p: nat, m: ResourceMap,
                          before: seq<Move>, after: seq<Move>, to: Account)
    requires PlanetsBalance(opening, a, before) && Debited(a, b, p, m)
    requires Posted(before, after, PlanetStock(p), to, m) && !to.PlanetStock?
    requires p < |a| && forall r | r in m :: r < |a[p].stock.onHand|
    ensures PlanetsBalance(opening, b, after)
  {
    hide Net;
    forall q: nat, r: nat
      ensures OnHand(b, q, r) == OnHand(opening, q, r) + (if q < |b| && r < |b[q].stock.onHand| then
              Net(after, PlanetStock(q), r) else 0)
    {
      assert OnHand(b, q, r) == OnHand(a, q, r) - (if q == p then Qty(m, r) else 0);
      assert q < |a| ==> OnlyStock(a[q], b[q]);
    }
  }

  lemma CreditKeepsBalance(opening: seq<Planet>, a: seq<Planet>, b: seq<Planet>, p: nat, m: ResourceMap,
                           before: seq<Move>, after: seq<Move>, from: Account)
    requires PlanetsBalance(opening, a, before) && Credited(a, b, p, m)
    requires Posted(before, after, from, PlanetStock(p), m) && !from.PlanetStock?
    requires p < |a| && forall r | r in m :: r < |a[p].stock.onHand|
    ensures PlanetsBalance(opening, b, after)
  {
    hide Net;
    forall q: nat, r: nat
      ensures OnHand(b, q, r) == OnHand(opening, q, r) + (if q < |b| && r < |b[q].stock.onHand| then
              Net(after, PlanetStock(q), r) else 0)
    {
      assert OnHand(b, q, r) == OnHand(a, q, r) + (if q == p then Qty(m, r) else 0);
      assert q < |a| ==> OnlyStock(a[q], b[q]);
    }
  }

  lemma DebitKeepsStores(cat: Catalog, a: World, b: World, p: nat, m: ResourceMap, to: Account)
    requires StoresOk(cat, a.planets, a.ledger, a.recorded, a.books.opening, a.nextId)
    requires LedgerOk(b.ledger, b.recorded, |b.planets|, b.nextId) && 0 < b.nextId && b.books.opening == a.books.opening
    requires p < |a.planets| && Positive(m, cat.resources) && !to.PlanetStock?
    requires Affords(a.planets[p].stock, m, cat.resources)
    requires Debited(a.planets, b.planets, p, m) && Posted(a.recorded, b.recorded, PlanetStock(p), to, m)
    ensures StoresOk(cat, b.planets, b.ledger, b.recorded, b.books.opening, b.nextId)
    ensures BookedOk(a.planets) ==> BookedOk(b.planets)
  {
    hide Sum, Net, LedgerOk, ValidCatalog, PlanetsBalance;
    DebitKeepsSound(a.planets, b.planets, p, m, cat.resources);
    DebitKeepsBalance(a.books.opening, a.planets, b.planets, p, m, a.recorded, b.recorded, to);
  }

  lemma CreditKeepsStores(cat: Catalog, a: World, b: World, p: nat, m: ResourceMap, from: Account)
    requires StoresOk(cat, a.planets, a.ledger, a.recorded, a.books.opening, a.nextId)
    requires LedgerOk(b.ledger, b.recorded, |b.planets|, b.nextId) && 0 < b.nextId && b.books.opening == a.books.opening
    requires p < |a.planets| && !from.PlanetStock? && |a.planets[p].stock.onHand| == cat.resources
    requires forall r | r in m :: r < cat.resources && 0 <= m[r] <= a.planets[p].stock.Room(r)
    requires Credited(a.planets, b.planets, p, m) && Posted(a.recorded, b.recorded, from, PlanetStock(p), m)
    ensures StoresOk(cat, b.planets, b.ledger, b.recorded, b.books.opening, b.nextId)
    ensures BookedOk(a.planets) ==>
            (BookedOk(b.planets) <==> forall r | r in m :: m[r] <= a.planets[p].stock.FreeSpace(r))
  {
    hide Sum, Net, LedgerOk, ValidCatalog, PlanetsBalance;
    assert a.planets[p].stock.Sound(cat.resources);
    CreditKeepsSound(a.planets, b.planets, p, m, cat.resources);
    CreditFitsIff(a.planets, b.planets, p, m, cat.resources);
    CreditKeepsBalance(a.books.opening, a.planets, b.planets, p, m, a.recorded, b.recorded, from);
  }

  /** The world has the quantities of m unreserved. */
  ghost predicate Affords(stock: Inventory, m: ResourceMap, n: nat) {
    |stock.onHand| == n && forall r: nat | r < n :: Qty(m, r) <= stock.Available(r)
  }

  lemma DebitedMoves(a: seq<Planet>, b: seq<Planet>, p: nat, m: ResourceMap)
    requires Debited(a, b, p, m)
    ensures OnlyStocks(a, b)
  {
  }

  lemma CreditedMoves(a: seq<Planet>, b: seq<Planet>, p: nat, m: ResourceMap)
    requires Credited(a, b, p, m)
    ensures OnlyStocks(a, b)
  {
  }

  // ----- what a change of stock leaves alone -----

  /** People, workers, slots, claims and founding depend on worlds only through what a change of
      stock on hand does not touch. */
  lemma StockMovesNobody(cat: Catalog, a: seq<Planet>, b: seq<Planet>, w: World, day: int)
    requires OnlyStocks(a, b)
    ensures WorkforceOk(cat, a, w.facilities, w.transfers, w.nextId) ==>
            WorkforceOk(cat, b, w.facilities, w.transfers, w.nextId)
    ensures ClaimsOk(a, w.ship) ==> ClaimsOk(b, w.ship)
    ensures ColonyOk(cat, w.colony, a, day) ==> ColonyOk(cat, w.colony, b, day)
    ensures PeopleOk(a, w.colony, w.books.people, w.books.workforce) ==>
            PeopleOk(b, w.colony, w.books.people, w.books.workforce)
  {
    var ship := w.ship;
    hide AfterDays, FacilityOk, StaffOk, TransfersOk;
    forall p | 0 <= p < |a|
      ensures b[p].workers == a[p].workers && b[p].crew == a[p].crew && b[p].population == a[p].population
      ensures b[p].colonised == a[p].colonised && b[p].stock.claims == a[p].stock.claims
    {
      assert OnlyStock(a[p], b[p]);
    }
    if ClaimsOk(a, ship) {
      forall p | 0 <= p < |b| ensures
          if Pledged(ship) && ship.destination.value == p then
            && BookedFor(b[p].stock.claims, ship.bookings)
            && forall r: nat :: b[p].stock.Claimed(r) == Qty(ship.cargo, r)
          else b[p].stock.claims == []
      {
        assert forall r: nat :: b[p].stock.Claimed(r) == a[p].stock.Claimed(r);
      }
    }
    SumsOfPeople(a, b);
  }

  /** The claims rule reads only which worlds are settled and the claims they hold. */
  lemma SameClaims(a: seq<Planet>, b: seq<Planet>, ship: Ship)
    requires |a| == |b| && forall p | 0 <= p < |a| ::
             b[p].stock.claims == a[p].stock.claims && b[p].colonised == a[p].colonised
    ensures ClaimsOk(a, ship) ==> ClaimsOk(b, ship)
  {
    if ClaimsOk(a, ship) {
      forall p | 0 <= p < |b| ensures
          if Pledged(ship) && ship.destination.value == p then
            && BookedFor(b[p].stock.claims, ship.bookings)
            && forall r: nat :: b[p].stock.Claimed(r) == Qty(ship.cargo, r)
          else b[p].stock.claims == []
      {
        assert forall r: nat :: b[p].stock.Claimed(r) == a[p].stock.Claimed(r);
      }
    }
  }

  lemma SameStocks(a: seq<Planet>, b: seq<Planet>, n: nat, opening: seq<Planet>, recorded: seq<Move>)
    requires |a| == |b| && forall p | 0 <= p < |a| :: b[p].stock == a[p].stock
    ensures StockOk(a, n) ==> StockOk(b, n)
    ensures BookedOk(a) ==> BookedOk(b)
    ensures PlanetsBalance(opening, a, recorded) ==> PlanetsBalance(opening, b, recorded)
  {
    hide Sum, Net;
    if PlanetsBalance(opening, a, recorded) {
      forall p: nat, r: nat
          ensures OnHand(b, p, r) == OnHand(opening, p, r) + (if p < |b| && r < |b[p].stock.onHand| then
          Net(recorded, PlanetStock(p), r) else 0) {
        assert OnHand(b, p, r) == OnHand(a, p, r);
      }
    }
  }

  lemma {:induction false} SumsOfPeople(a: seq<Planet>, b: seq<Planet>)
    requires |a| == |b|
    requires forall p | 0 <= p < |a| :: a[p].population == b[p].population && a[p].workers == b[p].workers
    ensures Sum(a, PopulationOf()) == Sum(b, PopulationOf()) && Sum(a, WorkersOf()) == Sum(b, WorkersOf())
  {
    if a != [] {
      SumsOfPeople(a[..|a| - 1], b[..|b| - 1]);
    }
  }

  /** A posting changes no account it does not name. */
  lemma PostedElsewhere(before: seq<Move>, after: seq<Move>, from: Account, to: Account, m: ResourceMap, w: World,
                        fuel: nat)
    requires Posted(before, after, from, to, m)
    ensures !from.Escrow? && !to.Escrow? && EscrowBalance(w.facilities, w.books.stranded, before) ==>
            EscrowBalance(w.facilities, w.books.stranded, after)
    ensures !from.ShipHold? && !to.ShipHold? && ShipBalance(w.ship, fuel, before) ==> ShipBalance(w.ship, fuel, after)
    ensures !from.Expedition? && !to.Expedition? && ExpeditionBalance(w.colony, w.books.spilled, before) ==>
            ExpeditionBalance(w.colony, w.books.spilled, after)
  {
    hide Sum, Net, Stranded;
    if !from.Escrow? && !to.Escrow? && EscrowBalance(w.facilities, w.books.stranded, before) {
      forall id: nat, r: nat
        ensures Net(after, Escrow(id), r) == Sum(w.facilities, HeldFor(id, r)) + Stranded(w.books.stranded, id, r)
      {
        assert Net(after, Escrow(id), r) == Net(before, Escrow(id), r);
      }
    }
    if !from.ShipHold? && !to.ShipHold? && ShipBalance(w.ship, fuel, before) {
      forall r: nat
        ensures Net(after, ShipHold, r) == Qty(w.ship.cargo, r) + (if r == fuel then w.ship.tank else 0)
      {
        assert Net(after, ShipHold, r) == Net(before, ShipHold, r);
      }
    }
    if !from.Expedition? && !to.Expedition? && ExpeditionBalance(w.colony, w.books.spilled, before) {
      forall r: nat ensures Net(after, Expedition, r) == Qty(w.colony.cargo, r) + Qty(w.books.spilled, r) {
        assert Net(after, Expedition, r) == Net(before, Expedition, r);
      }
    }
  }

  /** A posting between accounts that are not worlds leaves every world's stock equal to its books. */
  lemma PostedOffWorld(opening: seq<Planet>, planets: seq<Planet>, before: seq<Move>, after: seq<Move>, from: Account,
                       to: Account, m: ResourceMap)
    requires PlanetsBalance(opening, planets, before) && Posted(before, after, from, to, m)
    requires !from.PlanetStock? && !to.PlanetStock?
    ensures PlanetsBalance(opening, planets, after)
  {
    hide Net;
    forall q: nat, r: nat
      ensures OnHand(planets, q, r) == OnHand(opening, q, r) + (if q < |planets| && r < |planets[q].stock.onHand| then
              Net(after, PlanetStock(q), r) else 0)
    {
      assert Net(after, PlanetStock(q), r) == Net(before, PlanetStock(q), r);
    }
  }

  // ----- the helpers themselves -----

  method Record(s: Session, r: nat, q: int, from: Account, to: Account)
    requires LedgerOk(s.ledger, s.recorded, |s.planets|, s.nextId)
    requires InRange(from, |s.planets|, s.nextId) && InRange(to, |s.planets|, s.nextId)
    modifies s`ledger, s`recorded
    ensures LedgerOk(s.ledger, s.recorded, |s.planets|, s.nextId)
    ensures s.recorded == old(s.recorded) + (if q == 0 then [] else [Move(s.day, r, q, from, to)])
    ensures from != to ==> Posted(old(s.recorded), s.recorded, from, to, Single(r, q))
  {
    if q == 0 {
      PostedNothing(s.recorded, from, to, Single(r, q));
      return;
    }
    var m := Move(s.day, r, q, from, to);
    NetAppend(s.recorded, m);
    s.ledger := s.ledger + [m];
    s.recorded := s.recorded + [m];
    if |s.ledger| > LEDGER_CAP {
      s.ledger := s.ledger[|s.ledger| - LEDGER_CAP..];
    }
  }

  /** on_hand[r] += delta on one world. */
  function Restock(planets: seq<Planet>, p: nat, r: nat, delta: int): seq<Planet>
    requires p < |planets| && r < |planets[p].stock.onHand|
  {
    var stock := planets[p].stock;
    planets[p := planets[p].(stock := stock.(onHand := stock.onHand[r := stock.onHand[r] + delta]))]
  }

  lemma RestockIs(planets: seq<Planet>, p: nat, r: nat, delta: int)
    requires p < |planets| && r < |planets[p].stock.onHand|
    ensures Credited(planets, Restock(planets, p, r, delta), p, Single(r, delta))
    ensures Debited(planets, Restock(planets, p, r, delta), p, Single(r, -delta))
    ensures delta == 0 ==> Restock(planets, p, r, delta) == planets
  {
    if delta == 0 {
      assert planets[p].stock.onHand[r := planets[p].stock.onHand[r] + delta] == planets[p].stock.onHand;
    }
  }

  /** Adds what the store has room for, and says how much that was; claims do not limit it. */
  method AddStock(s: Session, p: nat, r: nat, q: int, from: Account) returns (added: int)
    requires s.Stores() && p < |s.planets| && r < s.cat.resources && 0 <= q
    requires InRange(from, |s.planets|, s.nextId) && !from.PlanetStock?
    modifies s`planets, s`ledger, s`recorded
    ensures s.Stores()
    ensures added == Min(q, old(s.planets[p].stock.Room(r)))
    ensures Credited(old(s.planets), s.planets, p, Single(r, added))
    ensures Posted(old(s.recorded), s.recorded, from, PlanetStock(p), Single(r, added))
    ensures old(BookedOk(s.planets)) ==> (BookedOk(s.planets) <==> added <= old(s.planets[p].stock.FreeSpace(r)))
  {
    hide Sum, Net, ValidCatalog, LedgerOk;
    ghost var before := s.planets;
    assert before[p].stock.Sound(s.cat.resources);
    var room := s.planets[p].stock.Room(r);
    added := if q < room then q else room;
    if added != 0 {
      s.planets := Restock(s.planets, p, r, added);
    }
    Record(s, r, added, from, PlanetStock(p));
    RestockIs(before, p, r, added);
    CreditKeepsSound(before, s.planets, p, Single(r, added), s.cat.resources);
    CreditKeepsBalance(s.books.opening, before, s.planets, p, Single(r, added), old(s.recorded), s.recorded, from);
    assert before[p].stock.FreeSpace(r) >= 0;
  }

  /** Takes unreserved stock out; a negative quantity, or more than there is, is an error and takes nothing. */
  method RemoveStock(s: Session, p: nat, r: nat, q: int, to: Account) returns (done: bool)
    requires s.Stores() && p < |s.planets| && r < s.cat.resources
    requires InRange(to, |s.planets|, s.nextId) && !to.PlanetStock?
    modifies s`planets, s`ledger, s`recorded
    ensures s.Stores()
    ensures done <==> 0 <= q <= old(s.planets[p].stock).Available(r)
    ensures done ==> Debited(old(s.planets), s.planets, p, Single(r, q))
    ensures done ==> Posted(old(s.recorded), s.recorded, PlanetStock(p), to, Single(r, q))
    ensures !done ==> s.Now() == old(s.Now())
    ensures old(BookedOk(s.planets)) ==> BookedOk(s.planets)
  {
    hide Sum, Net, ValidCatalog, LedgerOk;
    ghost var before := s.planets;
    assert before[p].stock.Sound(s.cat.resources);
    done := 0 <= q <= s.planets[p].stock.Available(r);
    if !done {
      return;
    }
    if q != 0 {
      s.planets := Restock(s.planets, p, r, -q);
    }
    Record(s, r, q, PlanetStock(p), to);
    RestockIs(before, p, r, -q);
    DebitKeepsSound(before, s.planets, p, Single(r, q), s.cat.resources);
    DebitKeepsBalance(s.books.opening, before, s.planets, p, Single(r, q), old(s.recorded), s.recorded, to);
  }

  /** Pays the whole of m out of one world's stock, one resource after another in ascending order. */
  method DebitAll(s: Session, p: nat, m: ResourceMap, to: Account)
    requires s.Stores() && p < |s.planets| && Positive(m, s.cat.resources)
    requires Affords(s.planets[p].stock, m, s.cat.resources)
    requires InRange(to, |s.planets|, s.nextId) && !to.PlanetStock?
    modifies s`planets, s`ledger, s`recorded
    ensures s.Stores()
    ensures Debited(old(s.planets), s.planets, p, m)
    ensures Posted(old(s.recorded), s.recorded, PlanetStock(p), to, m)
    ensures old(BookedOk(s.planets)) ==> BookedOk(s.planets)
  {
    hide Sum, Net, ValidCatalog, LedgerOk, PlanetsBalance, OnHand;
    ghost var before, moves := s.planets, s.recorded;
    PostedNothing(moves, PlanetStock(p), to, map[]);
    for k := 0 to s.cat.resources
      invariant s.Stores() && |s.planets| == |before|
      invariant Debited(before, s.planets, p, Upto(m, k))
      invariant Posted(moves, s.recorded, PlanetStock(p), to, Upto(m, k))
      invariant BookedOk(before) ==> BookedOk(s.planets)
    {
      if k in m {
        ghost var soFar, entries := s.planets, s.recorded;
        DebitLeavesTheRest(before, soFar, p, m, k);
        var _ := RemoveStock(s, p, k, m[k], to);
        DebitedThen(before, soFar, s.planets, p, Upto(m, k), Single(k, m[k]), Upto(m, k + 1));
        PostedThen(moves, entries, s.recorded, PlanetStock(p), to, Upto(m, k), Single(k, m[k]), Upto(m, k + 1));
      } else {
        assert Upto(m, k + 1) == Upto(m, k);
      }
    }
    UptoAll(m, s.cat.resources);
  }

  lemma DebitLeavesTheRest(before: seq<Planet>, after: seq<Planet>, p: nat, m: ResourceMap, k: nat)
    requires Debited(before, after, p, Upto(m, k)) && p < |before| && k < |before[p].stock.onHand|
    ensures k < |after[p].stock.onHand| && after[p].stock.Available(k) == before[p].stock.Available(k)
  {
    assert OnlyStock(before[p], after[p]);
    assert OnHand(after, p, k) == OnHand(before, p, k);
  }

  lemma CreditLeavesTheRest(before: seq<Planet>, after: seq<Planet>, p: nat, m: ResourceMap, k: nat)
    requires Credited(before, after, p, m) && p < |before| && k < |before[p].stock.onHand| && Qty(m, k) == 0
    ensures k < |after[p].stock.onHand| && after[p].stock.Room(k) == before[p].stock.Room(k)
    ensures after[p].stock.FreeSpace(k) == before[p].stock.FreeSpace(k)
  {
    assert OnlyStock(before[p], after[p]);
    assert OnHand(after, p, k) == OnHand(before, p, k);
  }

  /** Stores as much of m as there is room for, one resource after another, and returns what was
      stored; promised space is respected exactly when every amount stored was free. */
  method CreditAll(s: Session, p: nat, m: ResourceMap, from: Account) returns (added: ResourceMap)
    requires s.Stores() && p < |s.planets|
    requires forall r | r in m :: r < s.cat.resources && 0 <= m[r]
    requires InRange(from, |s.planets|, s.nextId) && !from.PlanetStock?
    modifies s`planets, s`ledger, s`recorded
    ensures s.Stores()
    ensures added.Keys == m.Keys
    ensures forall r | r in m :: added[r] == Min(m[r], old(s.planets[p].stock.Room(r)))
    ensures Credited(old(s.planets), s.planets, p, added)
    ensures Posted(old(s.recorded), s.recorded, from, PlanetStock(p), added)
    ensures old(BookedOk(s.planets)) ==>
              (BookedOk(s.planets) <==> forall r | r in m :: added[r] <= old(s.planets[p].stock.FreeSpace(r)))
  {
    hide Sum, Net, ValidCatalog, LedgerOk, PlanetsBalance, OnHand;
    ghost var before, moves := s.planets, s.recorded;
    PostedNothing(moves, from, PlanetStock(p), map[]);
    added := map[];
    assert before[p].stock.Sound(s.cat.resources);
    for k := 0 to s.cat.resources
      invariant s.Stores() && |s.planets| == |before|
      invariant forall r | r in added :: r in m && r < k
      invariant forall r | r in m && r < k :: r in added
      invariant forall r | r in added :: added[r] == Min(m[r], before[p].stock.Room(r))
      invariant Credited(before, s.planets, p, added)
      invariant Posted(moves, s.recorded, from, PlanetStock(p), added)
    {
      if k in m {
        ghost var soFar, entries, was := s.planets, s.recorded, added;
        CreditLeavesTheRest(before, soFar, p, added, k);
        var put := AddStock(s, p, k, m[k], from);
        added := added[k := put];
        CreditedThen(before, soFar, s.planets, p, was, Single(k, put), added);
        PostedThen(moves, entries, s.recorded, from, PlanetStock(p), was, Single(k, put), added);
      }
    }
    CreditFitsIff(before, s.planets, p, added, s.cat.resources);
  }

  lemma CreditFitsIff(a: seq<Planet>, b: seq<Planet>, p: nat, m: ResourceMap, n: nat)
    requires StockOk(a, n) && Credited(a, b, p, m) && p < |a| && |a[p].stock.onHand| == n
    requires forall r | r in m :: r < n && 0 <= m[r] <= a[p].stock.Room(r)
    ensures BookedOk(a) ==> (BookedOk(b) <==> forall r | r in m :: m[r] <= a[p].stock.FreeSpace(r))
  {
    assert a[p].stock.Sound(n);
    CreditKeepsSound(a, b, p, m, n);
    if BookedOk(a) && forall r | r in m :: m[r] <= a[p].stock.FreeSpace(r) {
      assert forall r: nat | r < n :: Qty(m, r) <= a[p].stock.FreeSpace(r);
    } else if BookedOk(a) {
      var r :| r in m && m[r] > a[p].stock.FreeSpace(r);
      assert Qty(m, r) > a[p].stock.FreeSpace(r);
    }
  }

  /** Promises space to an inbound shipment; a quantity that is not positive, or more than is free, is an error
      and promises nothing. */
  method ClaimSpace(s: Session, p: nat, r: nat, q: int) returns (claimed: Option<nat>)
    requires s.Stores() && p < |s.planets| && r < s.cat.resources
    modifies s`planets, s`nextId
    ensures s.Stores()
    ensures claimed.Some? <==> 0 < q <= old(s.planets[p].stock).FreeSpace(r)
    ensures claimed.None? ==> s.Now() == old(s.Now())
    ensures claimed.Some? ==>
              && claimed.value == old(s.nextId) && s.nextId == old(s.nextId) + 1
              && s.planets == old(s.planets)[p := s.planets[p]]
              && var stock := old(s.planets[p].stock);
                 s.planets[p] ==
                 old(s.planets[p]).(stock := stock.(claims := stock.claims + [Claim(claimed.value, r, q)]))
    ensures old(BookedOk(s.planets)) ==> BookedOk(s.planets)
  {
    hide Sum, Net, ValidCatalog;
    ghost var before := s.planets;
    var stock := s.planets[p].stock;
    assert stock.Sound(s.cat.resources);
    if q <= 0 || stock.FreeSpace(r) < q {
      return None;
    }
    var id := s.nextId;
    claimed := Some(id);
    s.nextId := s.nextId + 1;
    s.planets := s.planets[p := s.planets[p].(stock := stock.(claims := stock.claims + [Claim(id, r, q)]))];
    ClaimKeepsStores(before, s.planets, p, Claim(id, r, q), s.cat.resources);
    forall q: nat, r: nat ensures OnHand(s.planets, q, r) == OnHand(before, q, r) {
    }
  }

  lemma ClaimKeepsStores(a: seq<Planet>, b: seq<Planet>, p: nat, c: Claim, n: nat)
    requires StockOk(a, n) && p < |a| && c.resource < n && |a[p].stock.onHand| == n
    requires 0 < c.quantity <= a[p].stock.FreeSpace(c.resource)
    requires b == a[p := a[p].(stock := a[p].stock.(claims := a[p].stock.claims + [c]))]
    ensures StockOk(b, n)
    ensures forall r: nat ::
            b[p].stock.Claimed(r) == a[p].stock.Claimed(r) + (if r == c.resource then c.quantity else 0)
    ensures BookedOk(a) ==> BookedOk(b)
  {
    forall r: nat
      ensures b[p].stock.Claimed(r) == a[p].stock.Claimed(r) + (if r == c.resource then c.quantity else 0)
    {
      SumAppend(a[p].stock.claims, c, ClaimedFor(r));
    }
    forall q | 0 <= q < |b| ensures b[q].stock.Sound(n) && (BookedOk(a) ==> b[q].stock.Booked()) {
      assert a[q].stock.Sound(n) && (BookedOk(a) ==> a[q].stock.Booked());
      if q == p {
        assert forall r: nat | r < n :: b[q].stock.Reserved(r) == a[q].stock.Reserved(r);
      }
    }
  }

  /** Records the whole of m between two accounts that are not worlds. */
  method RecordAll(s: Session, m: ResourceMap, from: Account, to: Account)
    requires s.Stores() && from != to && !from.PlanetStock? && !to.PlanetStock?
    requires InRange(from, |s.planets|, s.nextId) && InRange(to, |s.planets|, s.nextId)
    requires forall r | r in m :: r < s.cat.resources
    modifies s`ledger, s`recorded
    ensures s.Stores()
    ensures Posted(old(s.recorded), s.recorded, from, to, m)
  {
    hide Sum, Net, ValidCatalog, LedgerOk, PlanetsBalance, Posted;
    ghost var moves := s.recorded;
    PostedNothing(moves, from, to, Upto(m, 0));
    for r := 0 to s.cat.resources
      invariant s.Stores()
      invariant Posted(moves, s.recorded, from, to, Upto(m, r))
    {
      if r in m {
        ghost var entries := s.recorded;
        Record(s, r, m[r], from, to);
        PostedOffWorld(s.books.opening, s.planets, entries, s.recorded, from, to, Single(r, m[r]));
        PostedThen(moves, entries, s.recorded, from, to, Upto(m, r), Single(r, m[r]), Upto(m, r + 1));
      } else {
        assert Upto(m, r + 1) == Upto(m, r);
      }
    }
    UptoAll(m, s.cat.resources);
  }
}
