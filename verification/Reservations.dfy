/** Stock set aside for an owner: reserved, released, or consumed out of what was set aside. */
module Reservations {
  import opened Sums
  import opened Stock
  import opened Ledger
  import opened Catalog
  import opened State
  import opened Support
  import opened Workforce
  import opened Freight
  import opened Outside

  function WithReservations(planets: seq<Planet>, p: nat, rs: seq<Reservation>): seq<Planet>
    requires p < |planets|
  {
    planets[p := planets[p].(stock := planets[p].stock.(reservations := rs))]
  }

  function PlaceOf(rs: seq<Reservation>, id: nat): nat {
    if rs == [] || rs[0].id == id then 0 else 1 + PlaceOf(rs[1..], id)
  }

  lemma {:induction false} PlaceIsFirst(rs: seq<Reservation>, id: nat)
    ensures PlaceOf(rs, id) <= |rs| && (PlaceOf(rs, id) < |rs| ==> rs[PlaceOf(rs, id)].id == id)
    ensures forall i | 0 <= i < PlaceOf(rs, id) :: rs[i].id != id
  {
    if rs != [] && rs[0].id != id {
      PlaceIsFirst(rs[1..], id);
      assert forall i | 1 <= i < |rs| :: rs[i] == rs[1..][i - 1];
    }
  }

  ghost predicate ReserveStep(w: World, w': World, p: nat, r: nat, q: int) {
    && p < |w.planets| && r < |w.planets[p].stock.onHand| && 0 < q <= w.planets[p].stock.Available(r)
    && w' == w.(nextId := w.nextId + 1,
        planets := WithReservations(w.planets, p, w.planets[p].stock.reservations + [Reservation(w.nextId, r, q)]))
  }

  /** The reservations left once the ith is erased. */
  function Erased(rs: seq<Reservation>, i: nat): seq<Reservation>
    requires i < |rs|
  {
    rs[..i] + rs[i + 1..]
  }

  ghost predicate ReleaseStep(w: World, w': World, p: nat, id: nat) {
    && p < |w.planets| && PlaceOf(w.planets[p].stock.reservations, id) < |w.planets[p].stock.reservations|
    && var rs := w.planets[p].stock.reservations;
       w' == w.(planets := WithReservations(w.planets, p, Erased(rs, PlaceOf(rs, id))))
  }

  /** The reservation goes, and what it held leaves the store with it. */
  ghost predicate ConsumeStep(cat: Catalog, w: World, w': World, p: nat, id: nat, to: Account) {
    && p < |w.planets| && PlaceOf(w.planets[p].stock.reservations, id) < |w.planets[p].stock.reservations|
    && var rs := w.planets[p].stock.reservations;
       var x := rs[PlaceOf(rs, id)];
       SpendStep(cat, w.(planets := WithReservations(w.planets, p, Erased(rs, PlaceOf(rs, id)))), w', p,
           Single(x.resource, x.quantity), to)
  }

  /** Every reservation is for a listed resource and positive, as reserving makes it. */
  ghost predicate ReservedOk(rs: seq<Reservation>, n: nat) {
    forall i | 0 <= i < |rs| :: rs[i].resource < n && 0 < rs[i].quantity
  }

  /** Changing one world's reservations, within its stock, touches nothing else. */
  lemma ReservedKeepsInv(cat: Catalog, w: World, w': World, p: nat, rs: seq<Reservation>, d: int, d': int)
    requires InvAt(cat, w, d, d') && p < |w.planets| && w.nextId <= w'.nextId
    requires w' == w.(nextId := w'.nextId, planets := WithReservations(w.planets, p, rs))
    requires forall r: nat | r < cat.resources :: 0 <= Sum(rs, ReservedFor(r)) <= OnHand(w.planets, p, r)
    ensures InvAt(cat, w', d, d')
  {
    hide Sum, Net, WorkforceOk, EscrowBalance, ShipBalance, ExpeditionBalance, ColonyOk, PeopleOk, ClaimsOk, ShipOk,
         DemandOk, TankOk, ShippedOk, ValidCatalog, LedgerOk, AllInRange;
    RangeGrows(w.ledger, w.recorded, |w.planets|, w.nextId, w'.nextId);
    ReservedStores(cat, w, w', p, rs);
    ReservedElsewhere(cat, w, w', p, rs, d);
  }

  lemma ReservedStores(cat: Catalog, w: World, w': World, p: nat, rs: seq<Reservation>)
    requires p < |w.planets| && w'.planets == WithReservations(w.planets, p, rs) && StockOk(w.planets, cat.resources)
    requires forall r: nat | r < cat.resources :: 0 <= Sum(rs, ReservedFor(r)) <= OnHand(w.planets, p, r)
    ensures StockOk(w'.planets, cat.resources) && (BookedOk(w.planets) ==> BookedOk(w'.planets))
    ensures PlanetsBalance(w.books.opening, w.planets, w.recorded) ==>
            PlanetsBalance(w.books.opening, w'.planets, w.recorded)
  {
    hide Sum, Net;
    forall q | 0 <= q < |w'.planets| ensures w'.planets[q].stock.Sound(cat.resources)
        && (BookedOk(w.planets) ==> w'.planets[q].stock.Booked()) {
      assert w.planets[q].stock.Sound(cat.resources) && (BookedOk(w.planets) ==> w.planets[q].stock.Booked());
      forall r: nat | r < cat.resources
        ensures 0 <= w'.planets[q].stock.Reserved(r) <= w'.planets[q].stock.onHand[r]
                && w'.planets[q].stock.Claimed(r) == w.planets[q].stock.Claimed(r)
      {
        assert OnHand(w.planets, p, r) == w.planets[p].stock.onHand[r] || q != p;
      }
    }
    forall q: nat, r: nat ensures OnHand(w'.planets, q, r) == OnHand(w.planets, q, r) {
    }
  }

  lemma ReservedElsewhere(cat: Catalog, w: World, w': World, p: nat, rs: seq<Reservation>, d: int)
    requires p < |w.planets| && w'.planets == WithReservations(w.planets, p, rs) && w.nextId <= w'.nextId
    ensures WorkforceOk(cat, w.planets, w.facilities, w.transfers, w.nextId) ==>
            WorkforceOk(cat, w'.planets, w.facilities, w.transfers, w'.nextId)
    ensures ClaimsOk(w.planets, w.ship) ==> ClaimsOk(w'.planets, w.ship)
    ensures ColonyOk(cat, w.colony, w.planets, d) ==> ColonyOk(cat, w.colony, w'.planets, d)
    ensures PeopleOk(w.planets, w.colony, w.books.people, w.books.workforce) ==>
            PeopleOk(w'.planets, w.colony, w.books.people, w.books.workforce)
  {
    hide AfterDays, FacilityOk, StaffOk, ClaimsOk, Sum;
    SumsOfPeople(w.planets, w'.planets);
    SameClaims(w.planets, w'.planets, w.ship);
  }

  lemma StockAt(cat: Catalog, w: World, p: nat, d: int, d': int)
    requires InvAt(cat, w, d, d') && p < |w.planets|
    ensures |w.planets[p].stock.onHand| == cat.resources
    ensures forall r: nat | r < cat.resources ::
            0 <= w.planets[p].stock.Reserved(r) <= w.planets[p].stock.onHand[r] == OnHand(w.planets, p, r)
  {
    hide Sum, WorkforceOk, FreighterOk, BalancesOk, ColonyOk, PeopleOk, LedgerOk, PlanetsBalance, ValidCatalog;
    StoresSound(cat, w.planets, p);
  }

  /** Reservations stay backed by stock: what is reserved was available. */
  lemma ReserveKeepsInv(cat: Catalog, w: World, w': World, p: nat, r: nat, q: int, d: int, d': int)
    requires InvAt(cat, w, d, d') && ReserveStep(w, w', p, r, q)
    ensures InvAt(cat, w', d, d')
    ensures w'.planets[p].stock.Available(r) == w.planets[p].stock.Available(r) - q
  {
    hide InvAt, Sum;
    StockAt(cat, w, p, d, d');
    var rs := w.planets[p].stock.reservations;
    forall k: nat | k < cat.resources
      ensures Sum(rs + [Reservation(w.nextId, r, q)], ReservedFor(k))
              == w.planets[p].stock.Reserved(k) + (if k == r then q else 0)
    {
      SumAppend(rs, Reservation(w.nextId, r, q), ReservedFor(k));
    }
    ReservedKeepsInv(cat, w, w', p, rs + [Reservation(w.nextId, r, q)], d, d');
  }

  lemma ErasedSums(rs: seq<Reservation>, i: nat, n: nat)
    requires i < |rs| && ReservedOk(rs, n)
    ensures forall k: nat ::
            0 <= Sum(Erased(rs, i), ReservedFor(k)) == Sum(rs, ReservedFor(k)) - (if rs[i].resource == k then
            rs[i].quantity else 0)
  {
    forall k: nat
      ensures 0 <= Sum(Erased(rs, i), ReservedFor(k)) == Sum(rs, ReservedFor(k)) - (if rs[i].resource == k then
              rs[i].quantity else 0)
    {
      SumRemove(rs, i, ReservedFor(k));
      SumNonNegative(Erased(rs, i), ReservedFor(k));
    }
  }

  lemma ReleaseKeepsInv(cat: Catalog, w: World, w': World, p: nat, id: nat, d: int, d': int)
    requires InvAt(cat, w, d, d') && ReleaseStep(w, w', p, id)
             && ReservedOk(w.planets[p].stock.reservations, cat.resources)
    ensures InvAt(cat, w', d, d')
    ensures var x := w.planets[p].stock.reservations[PlaceOf(w.planets[p].stock.reservations, id)];
            x.resource < |w'.planets[p].stock.onHand| == |w.planets[p].stock.onHand|
            && w'.planets[p].stock.Available(x.resource)
                == w.planets[p].stock.Available(x.resource) + x.quantity >= x.quantity
  {
    hide InvAt, Sum;
    StockAt(cat, w, p, d, d');
    var rs := w.planets[p].stock.reservations;
    ErasedSums(rs, PlaceOf(rs, id), cat.resources);
    forall k: nat | k < cat.resources ensures 0 <= Sum(Erased(rs, PlaceOf(rs, id)), ReservedFor(k)) <= OnHand(w.planets,
        p, k) {
      assert w.planets[p].stock.Reserved(k) == Sum(rs, ReservedFor(k));
    }
    ReservedKeepsInv(cat, w, w', p, Erased(rs, PlaceOf(rs, id)), d, d');
  }

  /** Consuming a reservation out of the sector keeps every invariant and leaves what others may draw on
      unchanged. */
  lemma ConsumeKeepsInv(cat: Catalog, w: World, w': World, p: nat, id: nat, to: Account, d: int, d': int)
    requires InvAt(cat, w, d, d') && ConsumeStep(cat, w, w', p, id, to) && !Owned(to)
             && ReservedOk(w.planets[p].stock.reservations, cat.resources)
    ensures InvAt(cat, w', d, d')
    ensures var x := w.planets[p].stock.reservations[PlaceOf(w.planets[p].stock.reservations, id)];
            && |w'.planets| == |w.planets| && x.resource < |w.planets[p].stock.onHand| == |w'.planets[p].stock.onHand|
            && w'.planets[p].stock.Available(x.resource) == w.planets[p].stock.Available(x.resource)
  {
    hide InvAt, Sum, SpendStep;
    var rs := w.planets[p].stock.reservations;
    var x := rs[PlaceOf(rs, id)];
    var mid := w.(planets := WithReservations(w.planets, p, Erased(rs, PlaceOf(rs, id))));
    ReleaseKeepsInv(cat, w, mid, p, id, d, d');
    StockAt(cat, mid, p, d, d');
    SpendKeepsInv(cat, mid, w', p, Single(x.resource, x.quantity), to, d, d');
    SpentHere(cat, mid, w', p, x.resource, x.quantity, to);
  }

  lemma SpentHere(cat: Catalog, w: World, w': World, p: nat, r: nat, q: int, to: Account)
    requires SpendStep(cat, w, w', p, Single(r, q), to) && p < |w.planets| && r < |w.planets[p].stock.onHand|
    ensures |w'.planets| == |w.planets| && |w'.planets[p].stock.onHand| == |w.planets[p].stock.onHand|
    ensures w'.planets[p].stock.Available(r) == w.planets[p].stock.Available(r) - q
  {
    hide Sum, Posted, LedgerOk;
    assert OnlyStock(w.planets[p], w'.planets[p]);
    assert OnHand(w'.planets, p, r) == OnHand(w.planets, p, r) - q;
  }

  method ReserveStock(s: Session, p: nat, r: nat, q: int) returns (id: Option<nat>)
    requires s.Stores() && p < |s.planets| && r < s.cat.resources
    modifies s`planets, s`nextId
    ensures id.Some? <==> 0 < q <= old(OnHand(s.planets, p, r) - s.planets[p].stock.Reserved(r))
    ensures if id.Some? then ReserveStep(old(s.Now()), s.Now(), p, r, q) && id.value == old(s.nextId)
            else s.Now() == old(s.Now())
  {
    hide Sum, Net, ValidCatalog, LedgerOk, PlanetsBalance;
    StoresSound(s.cat, s.planets, p);
    var stock := s.planets[p].stock;
    if q <= 0 || stock.Available(r) < q {
      return None;
    }
    id := Some(s.nextId);
    s.planets := WithReservations(s.planets, p, stock.reservations + [Reservation(s.nextId, r, q)]);
    s.nextId := s.nextId + 1;
  }

  method FindReservation(rs: seq<Reservation>, id: nat) returns (i: nat)
    ensures i == PlaceOf(rs, id) <= |rs|
  {
    PlaceIsFirst(rs, id);
    i := 0;
    while i < |rs| && rs[i].id != id
      invariant i <= PlaceOf(rs, id)
    {
      i := i + 1;
    }
  }

  method ReleaseReservation(s: Session, p: nat, id: nat) returns (released: bool)
    requires p < |s.planets|
    modifies s`planets
    ensures released <==> exists i ::
            0 <= i < |old(s.planets[p].stock.reservations)| && old(s.planets[p].stock.reservations[i].id) == id
    ensures if released then ReleaseStep(old(s.Now()), s.Now(), p, id) else s.Now() == old(s.Now())
  {
    var rs := s.planets[p].stock.reservations;
    PlaceIsFirst(rs, id);
    var i := FindReservation(rs, id);
    if i == |rs| {
      return false;
    }
    s.planets := WithReservations(s.planets, p, Erased(rs, i));
    released := true;
  }

  lemma ErasedAffords(planets: seq<Planet>, p: nat, i: nat, n: nat)
    requires StockOk(planets, n) && p < |planets| && i < |planets[p].stock.reservations|
             && ReservedOk(planets[p].stock.reservations, n)
    ensures forall k: nat | k < n ::
            0 <= Sum(Erased(planets[p].stock.reservations, i), ReservedFor(k)) <= OnHand(planets, p, k)
    ensures var x, after := planets[p].stock.reservations[i],
            WithReservations(planets, p, Erased(planets[p].stock.reservations, i));
            x.resource < |after[p].stock.onHand| && 0 < x.quantity <= after[p].stock.Available(x.resource)
  {
    hide Sum;
    assert planets[p].stock.Sound(n);
    ErasedSums(planets[p].stock.reservations, i, n);
    forall k: nat | k < n ensures planets[p].stock.Reserved(k) <= planets[p].stock.onHand[k] == OnHand(planets, p, k) {
    }
  }

  /** Takes what a reservation held; the error of stock below the reserved quantity cannot arise. */
  method ConsumeReservation(s: Session, p: nat, id: nat, to: Account) returns (consumed: bool)
    requires s.Stores() && p < |s.planets| && ReservedOk(s.planets[p].stock.reservations, s.cat.resources)
    requires InRange(to, |s.planets|, s.nextId) && !to.PlanetStock?
    modifies s`planets, s`ledger, s`recorded
    ensures consumed <==> exists i ::
            0 <= i < |old(s.planets[p].stock.reservations)| && old(s.planets[p].stock.reservations[i].id) == id
    ensures if consumed then ConsumeStep(s.cat, old(s.Now()), s.Now(), p, id, to) else s.Now() == old(s.Now())
  {
    hide Sum, Net, ValidCatalog, LedgerOk, PlanetsBalance, Debited, Posted, StockOk, Inventory.Available;
    var rs := s.planets[p].stock.reservations;
    PlaceIsFirst(rs, id);
    var i := FindReservation(rs, id);
    if i == |rs| {
      return false;
    }
    ghost var w := s.Now();
    ErasedAffords(s.planets, p, i, s.cat.resources);
    s.planets := WithReservations(s.planets, p, Erased(rs, i));
    ReservedStores(s.cat, w, s.Now(), p, Erased(rs, i));
    var _ := RemoveStock(s, p, rs[i].resource, rs[i].quantity, to);
    assert unchanged(s`day, s`nextId, s`facilities, s`transfers, s`ship, s`route, s`colony, s`demand, s`scratch,
           s`books);
    consumed := true;
  }
}
