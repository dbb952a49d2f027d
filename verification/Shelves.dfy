/** Changes of stock told quantity by quantity. */
module Shelves {
  import opened Stock
  import opened State

  /** Of resource k, world q holds less by what m names if it is p that pays, and the same otherwise. */
  ghost predicate PaidOf(before: seq<Planet>, after: seq<Planet>, p: nat, m: ResourceMap, q: nat, k: nat)
    requires q < |before| == |after| && k < |before[q].stock.onHand|
  {
    k < |after[q].stock.onHand|
    && after[q].stock.onHand[k] == before[q].stock.onHand[k] - (if q == p && k in m then m[k] else 0)
  }

  /** World p gave up the quantities of m, and no other stock moved. */
  ghost predicate Paid(before: seq<Planet>, after: seq<Planet>, p: nat, m: ResourceMap) {
    && OnlyStocks(before, after)
    && forall q: nat, k: nat | q < |before| && k < |before[q].stock.onHand| :: PaidOf(before, after, p, m, q, k)
  }

  /** World p took in the quantities of m, and no other stock moved. */
  ghost predicate Stored(before: seq<Planet>, after: seq<Planet>, p: nat, m: ResourceMap) {
    Paid(after, before, p, m)
  }

  lemma DebitedIsPaid(before: seq<Planet>, after: seq<Planet>, p: nat, m: ResourceMap)
    requires Debited(before, after, p, m)
    ensures Paid(before, after, p, m)
  {
    forall q: nat, k: nat | q < |before| && k < |before[q].stock.onHand| ensures PaidOf(before, after, p, m, q, k) {
      DebitedHere(before, after, p, m, q, k);
    }
  }

  lemma DebitedHere(before: seq<Planet>, after: seq<Planet>, p: nat, m: ResourceMap, q: nat, k: nat)
    requires Debited(before, after, p, m) && q < |before| && k < |before[q].stock.onHand|
    ensures |after| == |before| && k < |after[q].stock.onHand|
    ensures after[q].stock.onHand[k] == before[q].stock.onHand[k] - (if q == p then Qty(m, k) else 0)
  {
    assert OnlyStock(before[q], after[q]);
    assert OnHand(after, q, k) == OnHand(before, q, k) - (if q == p then Qty(m, k) else 0);
  }

  lemma CreditedIsStored(before: seq<Planet>, after: seq<Planet>, p: nat, m: ResourceMap)
    requires Credited(before, after, p, m)
    ensures Stored(before, after, p, m)
  {
    assert OnlyStocks(after, before) by {
      forall i | 0 <= i < |after| ensures OnlyStock(after[i], before[i]) {
        assert OnlyStock(before[i], after[i]);
      }
    }
    assert Debited(after, before, p, m) by {
      forall q: nat, r: nat ensures OnHand(before, q, r) == OnHand(after, q, r) - (if q == p then Qty(m, r) else 0) {
        assert OnHand(after, q, r) == OnHand(before, q, r) + (if q == p then Qty(m, r) else 0);
      }
    }
    DebitedIsPaid(after, before, p, m);
  }

  lemma NothingPaid(planets: seq<Planet>, p: nat)
    ensures Paid(planets, planets, p, map[])
  {
    forall i | 0 <= i < |planets| ensures OnlyStock(planets[i], planets[i]) {
    }
  }
}
