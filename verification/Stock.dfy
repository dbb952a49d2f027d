/** Sparse resource maps and one world's inventory: stock on hand, reservations against it, and
    space promised to an inbound shipment. */
module Stock {
  import opened Sums

  /** Quantities by resource index; an absent resource is zero. */
  type ResourceMap = map<nat, int>

  function Qty(m: ResourceMap, r: nat): int {
    if r in m then m[r] else 0
  }

  /** m[r] += q, creating the entry when it is absent. */
  function Plus(m: ResourceMap, r: nat, q: int): ResourceMap {
    m[r := Qty(m, r) + q]
  }

  /** Every entry names one of the catalog's n resources and is positive, as catalog maps are. */
  ghost predicate Positive(m: ResourceMap, n: nat) {
    forall r | r in m :: r < n && m[r] > 0
  }

  function Minus(a: seq<int>, m: ResourceMap): seq<int> {
    seq(|a|, r requires 0 <= r < |a| => a[r] - Qty(m, r))
  }

  function Added(a: seq<int>, m: ResourceMap): seq<int> {
    seq(|a|, r requires 0 <= r < |a| => a[r] + Qty(m, r))
  }

  datatype Reservation = Reservation(id: nat, resource: nat, quantity: int)
  datatype Claim = Claim(id: nat, resource: nat, quantity: int)

  function ReservedFor(r: nat): Reservation -> int {
    (x: Reservation) => if x.resource == r then x.quantity else 0
  }

  function ClaimedFor(r: nat): Claim -> int {
    (x: Claim) => if x.resource == r then x.quantity else 0
  }

  datatype Inventory = Inventory(
    onHand: seq<int>,
    reservations: seq<Reservation>,
    claims: seq<Claim>,
    capacity: int)
  {
    function Reserved(r: nat): int {
      Sum(reservations, ReservedFor(r))
    }

    function Claimed(r: nat): int {
      Sum(claims, ClaimedFor(r))
    }

    function Available(r: nat): int
      requires r < |onHand|
    {
      onHand[r] - Reserved(r)
    }

    /** capacity - on hand - claimed, never negative. */
    function FreeSpace(r: nat): int
      requires r < |onHand|
    {
      var free := capacity - (onHand[r] + Claimed(r));
      if free < 0 then 0 else free
    }

    function Room(r: nat): int
      requires r < |onHand|
    {
      var room := capacity - onHand[r];
      if room < 0 then 0 else room
    }

    /** The width is the catalog's, reservations are backed by stock, and stock fits its store. */
    ghost predicate Sound(n: nat) {
      && |onHand| == n
      && forall r | 0 <= r < n :: 0 <= Reserved(r) <= onHand[r] <= capacity
    }

    /** No promised space is double-booked. */
    ghost predicate Booked() {
      forall r | 0 <= r < |onHand| :: onHand[r] + Claimed(r) <= capacity
    }
  }
}
