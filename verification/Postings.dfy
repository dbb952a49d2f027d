/** Stock changes and ledger postings have one outcome each, and an outcome whenever they are covered. */
module Postings {
  import opened Units
  import opened Sums
  import opened Stock
  import opened Ledger
  import opened Catalog
  import opened State
  import opened Support
  import opened Chains
  import opened Outside

  // ----- one outcome -----

  lemma SameOnHand(a: seq<Planet>, b: seq<Planet>, c: seq<Planet>)
    requires OnlyStocks(a, b) && OnlyStocks(a, c)
    requires forall q: nat, r: nat :: OnHand(b, q, r) == OnHand(c, q, r)
    ensures b == c
  {
    forall q | 0 <= q < |a| ensures b[q] == c[q] {
      assert OnlyStock(a[q], b[q]) && OnlyStock(a[q], c[q]);
      forall r: nat | r < |a[q].stock.onHand| ensures b[q].stock.onHand[r] == c[q].stock.onHand[r] {
        assert OnHand(b, q, r) == OnHand(c, q, r);
      }
      assert b[q].stock.onHand == c[q].stock.onHand;
    }
  }

  /** A debit leaves the worlds in one state only. */
  lemma DebitedOnce(a: seq<Planet>, b: seq<Planet>, c: seq<Planet>, p: nat, m: ResourceMap)
    requires Debited(a, b, p, m) && Debited(a, c, p, m)
    ensures b == c
  {
    hide OnHand;
    SameOnHand(a, b, c);
  }

  lemma CreditedOnce(a: seq<Planet>, b: seq<Planet>, c: seq<Planet>, p: nat, m: ResourceMap)
    requires Credited(a, b, p, m) && Credited(a, c, p, m)
    ensures b == c
  {
    hide OnHand;
    SameOnHand(a, b, c);
  }

  lemma SpendSame(cat: Catalog, a: World, a': World, b: World, b': World, p: nat, m: ResourceMap, to: Account)
    requires Same(a, b) && SpendStep(cat, a, a', p, m, to) && SpendStep(cat, b, b', p, m, to)
    ensures Same(a', b')
  {
    hide Posted, LedgerOk, Debited;
    DebitedOnce(a.planets, a'.planets, b'.planets, p, m);
  }

  lemma ReceiveSame(cat: Catalog, a: World, a': World, b: World, b': World, p: nat, m: ResourceMap, from: Account)
    requires Same(a, b) && ReceiveStep(cat, a, a', p, m, from) && ReceiveStep(cat, b, b', p, m, from)
    ensures Same(a', b')
  {
    hide Posted, LedgerOk, Credited;
    CreditedOnce(a.planets, a'.planets, b'.planets, p, m);
  }

  // ----- an outcome -----

  function Restocked(planets: seq<Planet>, p: nat, onHand: seq<int>): seq<Planet>
    requires p < |planets|
  {
    planets[p := planets[p].(stock := planets[p].stock.(onHand := onHand))]
  }

  lemma DebitOnce(planets: seq<Planet>, p: nat, m: ResourceMap) returns (after: seq<Planet>)
    requires p < |planets| && forall r | r in m :: r < |planets[p].stock.onHand|
    ensures Debited(planets, after, p, m)
  {
    after := Restocked(planets, p, Minus(planets[p].stock.onHand, m));
  }

  lemma CreditOnce(planets: seq<Planet>, p: nat, m: ResourceMap) returns (after: seq<Planet>)
    requires p < |planets| && forall r | r in m :: r < |planets[p].stock.onHand|
    ensures Credited(planets, after, p, m)
  {
    after := Restocked(planets, p, Added(planets[p].stock.onHand, m));
  }

  /** The latest entries, up to the cap. */
  ghost function Latest(recorded: seq<Move>): seq<Move> {
    recorded[|recorded| - Min(|recorded|, LEDGER_CAP)..]
  }

  lemma LatestIsOk(ledger: seq<Move>, recorded: seq<Move>, moves: seq<Move>, planets: nat, nextId: nat)
    requires LedgerOk(ledger, recorded, planets, nextId) && AllInRange(moves, planets, nextId)
    ensures LedgerOk(Latest(recorded + moves), recorded + moves, planets, nextId)
  {
  }

  /** Entries that carry the quantities of m below k. */
  ghost function EntriesFor(day: int, from: Account, to: Account, m: ResourceMap, k: nat): seq<Move> {
    if k == 0 then []
    else EntriesFor(day, from, to, m, k - 1) + (if k - 1 in m then [Move(day, k - 1, m[k - 1], from, to)] else [])
  }

  lemma NothingPosted()
    ensures forall a: Account, r: nat :: Net([], a, r) == 0
  {
    forall a: Account, r: nat ensures Net([], a, r) == 0 {
      SumEmpty(EffectOn(a, r));
    }
  }

  lemma {:induction false} EntriesCarry(day: int, from: Account, to: Account, m: ResourceMap, k: nat, planets: nat,
      nextId: nat)
    requires InRange(from, planets, nextId) && InRange(to, planets, nextId) && from != to
    ensures AllInRange(EntriesFor(day, from, to, m, k), planets, nextId)
    ensures forall a: Account, r: nat :: Net(EntriesFor(day, from, to, m, k), a, r) ==
              (if a == to then Qty(Upto(m, k), r) else 0) - (if a == from then Qty(Upto(m, k), r) else 0)
  {
    hide Sum, Net;
    if k == 0 {
      NothingPosted();
    } else {
      var before := EntriesFor(day, from, to, m, k - 1);
      EntriesCarry(day, from, to, m, k - 1, planets, nextId);
      if k - 1 in m {
        NetAppend(before, Move(day, k - 1, m[k - 1], from, to));
      } else {
        assert before + [] == before;
      }
      forall a: Account, r: nat
        ensures Net(EntriesFor(day, from, to, m, k), a, r) ==
                  (if a == to then Qty(Upto(m, k), r) else 0) - (if a == from then Qty(Upto(m, k), r) else 0)
      {
        assert Net(before, a, r) == (if a == to then Qty(Upto(m, k - 1), r) else 0) - (if a == from then
               Qty(Upto(m, k - 1), r) else 0);
      }
    }
  }

  /** Any quantities can be posted between two accounts. */
  lemma PostOnce(ledger: seq<Move>, recorded: seq<Move>, planets: nat, nextId: nat, day: int, from: Account,
                 to: Account, m: ResourceMap, n: nat)
      returns (ledger': seq<Move>, recorded': seq<Move>)
    requires LedgerOk(ledger, recorded, planets, nextId) && forall r | r in m :: r < n
    requires InRange(from, planets, nextId) && InRange(to, planets, nextId) && from != to
    ensures Posted(recorded, recorded', from, to, m) && LedgerOk(ledger', recorded', planets, nextId)
  {
    hide Sum, LedgerOk;
    var moves := EntriesFor(day, from, to, m, n);
    EntriesCarry(day, from, to, m, n, planets, nextId);
    UptoAll(m, n);
    LatestIsOk(ledger, recorded, moves, planets, nextId);
    recorded' := recorded + moves;
    ledger' := Latest(recorded');
    forall a: Account, r: nat ensures Net(recorded', a, r) == Net(recorded, a, r) + Net(moves, a, r) {
      SumConcat(recorded, moves, EffectOn(a, r));
    }
  }

  /** What a world has listed can be paid out. */
  lemma SpendOnce(cat: Catalog, w: World, p: nat, m: ResourceMap, to: Account) returns (w': World)
    requires LedgerOk(w.ledger, w.recorded, |w.planets|, w.nextId) && p < |w.planets|
    requires !to.PlanetStock? && InRange(to, |w.planets|, w.nextId)
             && forall r | r in m :: r < |w.planets[p].stock.onHand|
    ensures SpendStep(cat, w, w', p, m, to)
  {
    hide Posted, LedgerOk, Debited;
    var after := DebitOnce(w.planets, p, m);
    var ledger, recorded := PostOnce(w.ledger, w.recorded, |w.planets|, w.nextId, w.day, PlanetStock(p), to, m,
        |w.planets[p].stock.onHand|);
    w' := w.(planets := after, ledger := ledger, recorded := recorded);
    DebitedMoves(w.planets, after, p, m);
  }

  lemma ReceiveOnce(cat: Catalog, w: World, p: nat, m: ResourceMap, from: Account) returns (w': World)
    requires LedgerOk(w.ledger, w.recorded, |w.planets|, w.nextId) && p < |w.planets|
    requires !from.PlanetStock? && InRange(from, |w.planets|, w.nextId)
             && forall r | r in m :: r < |w.planets[p].stock.onHand|
    ensures ReceiveStep(cat, w, w', p, m, from)
  {
    hide Posted, LedgerOk, Credited;
    var after := CreditOnce(w.planets, p, m);
    var ledger, recorded := PostOnce(w.ledger, w.recorded, |w.planets|, w.nextId, w.day, from, PlanetStock(p), m,
        |w.planets[p].stock.onHand|);
    w' := w.(planets := after, ledger := ledger, recorded := recorded);
    CreditedMoves(w.planets, after, p, m);
  }
}
