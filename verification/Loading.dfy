/** The greedy manifest: resources in ascending order, each up to its own limit and to what still
    fits the hold and the port's handling for the day. */
module Loading {
  import opened Units
  import opened Sums
  import opened Stock
  import opened Catalog

  datatype Load = Load(goods: ResourceMap, volume: int, handling: int)

  /** The most of one resource that fits the two budgets and its limit. */
  function Takes(perUnit: int, limit: int, l: Load): int {
    Min(limit, Min(QuantityForVolume(perUnit, l.volume), QuantityForVolume(perUnit, l.handling)))
  }

  function LoadOne(perUnit: int, r: nat, limit: int, l: Load): Load {
    var q := Takes(perUnit, limit, l);
    if q <= 0 then l
    else Load(l.goods[r := q], l.volume - VolumeOf(perUnit, q), l.handling - VolumeOf(perUnit, q))
  }

  /** The load after considering every resource below k. */
  function Greedy(cat: Catalog, limits: ResourceMap, volume: int, handling: int, k: nat): Load {
    if k == 0 then Load(map[], volume, handling)
    else
      var l := Greedy(cat, limits, volume, handling, k - 1);
      if k - 1 in limits then LoadOne(cat.Volume(k - 1), k - 1, limits[k - 1], l) else l
  }

  /** The volume of a manifest: the sum of each entry's volume rounded up. */
  function CargoVolume(cat: Catalog, goods: ResourceMap, k: nat): int {
    if k == 0 then 0
    else CargoVolume(cat, goods, k - 1) + (if k - 1 in goods then VolumeOf(cat.Volume(k - 1), goods[k - 1]) else 0)
  }

  /** A load within both budgets whose every entry is positive and within its limit. */
  ghost predicate LoadOk(cat: Catalog, limits: ResourceMap, volume: int, handling: int, k: nat, l: Load) {
    && 0 <= l.volume && 0 <= l.handling
    && (forall r | r in l.goods :: r < k && r in limits && 0 < l.goods[r] <= limits[r])
    && volume - l.volume == handling - l.handling == CargoVolume(cat, l.goods, k)
  }

  lemma TakesFits(perUnit: int, limit: int, l: Load, q: int)
    requires 0 <= perUnit && 0 <= l.volume && 0 <= l.handling && 0 < q <= Takes(perUnit, limit, l)
    ensures VolumeOf(perUnit, q) <= l.volume && VolumeOf(perUnit, q) <= l.handling
  {
    hide VolumeOf, QuantityForVolume;
    if perUnit > 0 {
      VolumeFits(perUnit, q, l.volume);
      VolumeFits(perUnit, q, l.handling);
    } else {
      WeightlessVolume(q);
    }
  }

  /** One more unit of a resource left below its limit would not have fitted. */
  lemma TakesIsTight(perUnit: int, limit: int, l: Load)
    requires 0 < perUnit && 0 <= l.volume && 0 <= l.handling && Takes(perUnit, limit, l) < limit
    ensures var q := Takes(perUnit, limit, l) + 1; VolumeOf(perUnit, q) > l.volume || VolumeOf(perUnit, q) > l.handling
  {
    hide VolumeOf, QuantityForVolume;
    var q := Takes(perUnit, limit, l) + 1;
    VolumeFits(perUnit, q, l.volume);
    VolumeFits(perUnit, q, l.handling);
  }

  lemma {:induction false} CargoVolumeSame(cat: Catalog, a: ResourceMap, b: ResourceMap, k: nat)
    requires forall r | r < k :: (r in a <==> r in b) && (r in a ==> a[r] == b[r])
    ensures CargoVolume(cat, a, k) == CargoVolume(cat, b, k)
  {
    if k > 0 {
      CargoVolumeSame(cat, a, b, k - 1);
    }
  }

  /** Every greedy load fits the hold and the port, and the budgets left are exactly what its volume
      did not use. */
  lemma {:induction false} GreedyFits(cat: Catalog, limits: ResourceMap, volume: int, handling: int, k: nat)
    requires 0 <= volume && 0 <= handling && forall r | 0 <= r < |cat.volumePerUnit| :: 0 <= cat.volumePerUnit[r]
    ensures LoadOk(cat, limits, volume, handling, k, Greedy(cat, limits, volume, handling, k))
  {
    hide VolumeOf, QuantityForVolume;
    if k > 0 {
      var r := k - 1;
      GreedyFits(cat, limits, volume, handling, r);
      var l := Greedy(cat, limits, volume, handling, r);
      var l' := Greedy(cat, limits, volume, handling, k);
      CargoVolumeSame(cat, l.goods, l'.goods, r);
      if r in limits && Takes(cat.Volume(r), limits[r], l) > 0 {
        TakesFits(cat.Volume(r), limits[r], l, Takes(cat.Volume(r), limits[r], l));
      }
    }
  }

  lemma {:induction false} GreedyKeeps(cat: Catalog, limits: ResourceMap, volume: int, handling: int, r: nat, k: nat)
    requires r < k
    ensures Qty(Greedy(cat, limits, volume, handling, k).goods, r)
            == Qty(Greedy(cat, limits, volume, handling, r + 1).goods, r)
    ensures r in Greedy(cat, limits, volume, handling, k).goods
            <==> r in Greedy(cat, limits, volume, handling, r + 1).goods
  {
    hide VolumeOf, QuantityForVolume;
    if r + 1 < k {
      GreedyKeeps(cat, limits, volume, handling, r, k - 1);
    }
  }

  lemma {:induction false} GreedyBelow(cat: Catalog, limits: ResourceMap, volume: int, handling: int, k: nat)
    ensures forall r | r in Greedy(cat, limits, volume, handling, k).goods :: r < k
  {
    if k > 0 {
      GreedyBelow(cat, limits, volume, handling, k - 1);
    }
  }

  /** Each resource ends at its limit, or one more unit of it would not have fitted the hold or the
      port when its turn came. */
  lemma GreedyIsTight(cat: Catalog, limits: ResourceMap, volume: int, handling: int, k: nat, r: nat)
    requires 0 <= volume && 0 <= handling && forall i | 0 <= i < |cat.volumePerUnit| :: 0 <= cat.volumePerUnit[i]
    requires r < k && r in limits && 0 < limits[r] <= INT64_MAX / 2
    ensures var loaded := Qty(Greedy(cat, limits, volume, handling, k).goods, r);
            var l := Greedy(cat, limits, volume, handling, r);
            loaded == limits[r]
            || (loaded < limits[r] && (VolumeOf(cat.Volume(r), loaded + 1) > l.volume
                || VolumeOf(cat.Volume(r), loaded + 1) > l.handling))
  {
    hide VolumeOf, Takes;
    GreedyKeeps(cat, limits, volume, handling, r, k);
    GreedyFits(cat, limits, volume, handling, r);
    GreedyBelow(cat, limits, volume, handling, r);
    LoadOneIsTight(cat.Volume(r), r, limits[r], Greedy(cat, limits, volume, handling, r));
  }

  lemma LoadOneIsTight(perUnit: int, r: nat, limit: int, l: Load)
    requires 0 <= perUnit && 0 <= l.volume && 0 <= l.handling && r !in l.goods && 0 < limit <= INT64_MAX / 2
    ensures var q := Qty(LoadOne(perUnit, r, limit, l).goods, r);
            q == limit || (q < limit && (VolumeOf(perUnit, q + 1) > l.volume || VolumeOf(perUnit, q + 1) > l.handling))
  {
    hide VolumeOf, FloorOf;
    if perUnit > 0 {
      FloorAtLeast(l.volume, MILLI_ONE, perUnit, 0);
      FloorAtLeast(l.handling, MILLI_ONE, perUnit, 0);
      if Takes(perUnit, limit, l) < limit {
        TakesIsTight(perUnit, limit, l);
      }
    }
  }

  // ----- the claims a departure books -----

  /** One claim per loaded resource, in ascending order, with consecutive ids. */
  function ClaimsFor(goods: ResourceMap, id: nat, k: nat): seq<Claim> {
    if k == 0 then []
    else
      var before := ClaimsFor(goods, id, k - 1);
      if k - 1 in goods then before + [Claim(id + |before|, k - 1, goods[k - 1])] else before
  }

  function IdsOf(claims: seq<Claim>): seq<nat> {
    seq(|claims|, i requires 0 <= i < |claims| => claims[i].id)
  }

  /** The claims booked for a shipment add up to its cargo, resource by resource. */
  lemma {:induction false} ClaimsMatchCargo(goods: ResourceMap, id: nat, k: nat, r: nat)
    ensures Sum(ClaimsFor(goods, id, k), ClaimedFor(r)) == if r < k then Qty(goods, r) else 0
  {
    if k > 0 {
      ClaimsMatchCargo(goods, id, k - 1, r);
      if k - 1 in goods {
        SumAppend(ClaimsFor(goods, id, k - 1), Claim(id + |ClaimsFor(goods, id, k - 1)|, k - 1, goods[k - 1]),
            ClaimedFor(r));
      }
    }
  }

  lemma {:induction false} ClaimIds(goods: ResourceMap, id: nat, k: nat)
    ensures forall i | 0 <= i < |ClaimsFor(goods, id, k)| :: ClaimsFor(goods, id, k)[i].id == id + i
    ensures (|ClaimsFor(goods, id, k)| == 0) <==> (forall r | r in goods :: r >= k)
  {
    if k > 0 {
      ClaimIds(goods, id, k - 1);
    }
  }
}
