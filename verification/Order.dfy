/** The order in which a world's facilities are served: by priority band, then by id. */
module Order {
  import opened State

  predicate OnDuty(f: Facility, p: nat) {
    f.planet == p && f.life.Active?
  }

  predicate Before(a: Facility, b: Facility) {
    a.band < b.band || (a.band == b.band && a.id < b.id)
  }

  ghost predicate Sorted(fs: seq<Facility>, order: seq<nat>) {
    && (forall k | 0 <= k < |order| :: order[k] < |fs|)
    && forall j, k | 0 <= j < k < |order| :: Before(fs[order[j]], fs[order[k]])
  }

  /** The positions of the world's active facilities, each once, in priority order. */
  ghost predicate IsProductionOrder(fs: seq<Facility>, p: nat, order: seq<nat>) {
    && Sorted(fs, order)
    && (forall k | 0 <= k < |order| :: OnDuty(fs[order[k]], p))
    && (forall i: nat | i < |fs| && OnDuty(fs[i], p) :: i in order)
  }

  /** There is exactly one such order. */
  lemma OrderIsUnique(fs: seq<Facility>, p: nat, a: seq<nat>, b: seq<nat>)
    requires IsProductionOrder(fs, p, a) && IsProductionOrder(fs, p, b)
    ensures a == b
  {
    var k := 0;
    while k < |a| && k < |b|
      invariant k <= |a| && k <= |b|
      invariant forall i | 0 <= i < k :: a[i] == b[i]
    {
      AgreeNext(fs, p, a, b, k);
      k := k + 1;
    }
    AgreeEnd(fs, p, a, b, k);
    AgreeEnd(fs, p, b, a, k);
  }

  lemma AgreeNext(fs: seq<Facility>, p: nat, a: seq<nat>, b: seq<nat>, k: nat)
    requires IsProductionOrder(fs, p, a) && IsProductionOrder(fs, p, b) && k < |a| && k < |b|
    requires forall i | 0 <= i < k :: a[i] == b[i]
    ensures a[k] == b[k]
  {
    assert OnDuty(fs[a[k]], p) && OnDuty(fs[b[k]], p);
    var j :| 0 <= j < |b| && b[j] == a[k];
    var i :| 0 <= i < |a| && a[i] == b[k];
  }

  lemma AgreeEnd(fs: seq<Facility>, p: nat, a: seq<nat>, b: seq<nat>, k: nat)
    requires IsProductionOrder(fs, p, a) && IsProductionOrder(fs, p, b) && k <= |a| && k <= |b|
    requires forall i | 0 <= i < k :: a[i] == b[i]
    ensures k < |b| ==> k < |a|
  {
    if k < |b| {
      assert OnDuty(fs[b[k]], p);
      var i :| 0 <= i < |a| && a[i] == b[k];
    }
  }

  /** Where a facility belongs among those already in order. */
  method Position(fs: seq<Facility>, order: seq<nat>, i: nat) returns (at: nat)
    requires Sorted(fs, order) && i < |fs| && forall k | 0 <= k < |order| :: fs[order[k]].id != fs[i].id
    ensures at <= |order|
    ensures forall k | 0 <= k < at :: Before(fs[order[k]], fs[i])
    ensures forall k | at <= k < |order| :: Before(fs[i], fs[order[k]])
  {
    at := |order|;
    while at > 0 && Before(fs[i], fs[order[at - 1]])
      invariant at <= |order|
      invariant forall k | at <= k < |order| :: Before(fs[i], fs[order[k]])
    {
      at := at - 1;
    }
  }

  /** The order with i put in at a position. */
  function Insert(order: seq<nat>, at: nat, i: nat): seq<nat>
    requires at <= |order|
  {
    seq(|order| + 1, k requires 0 <= k < |order| + 1 => if k < at then order[k] else if k == at then i
        else order[k - 1])
  }

  lemma InsertKeepsAll(order: seq<nat>, at: nat, i: nat)
    requires at <= |order|
    ensures forall k: nat :: k in Insert(order, at, i) <==> k == i || k in order
  {
    var after := Insert(order, at, i);
    forall k: nat | k in order ensures k in after {
      var j :| 0 <= j < |order| && order[j] == k;
      assert after[if j < at then j else j + 1] == k;
    }
    assert after[at] == i;
  }

  lemma Inserted(fs: seq<Facility>, order: seq<nat>, at: nat, i: nat)
    requires Sorted(fs, order) && i < |fs| && at <= |order|
    requires forall k | 0 <= k < at :: Before(fs[order[k]], fs[i])
    requires forall k | at <= k < |order| :: Before(fs[i], fs[order[k]])
    ensures Sorted(fs, Insert(order, at, i))
  {
    hide Before;
  }

  method ProductionOrder(fs: seq<Facility>, p: nat) returns (order: seq<nat>)
    requires forall i, j | 0 <= i < j < |fs| :: fs[i].id < fs[j].id
    ensures IsProductionOrder(fs, p, order)
  {
    order := [];
    for i := 0 to |fs|
      invariant Sorted(fs, order)
      invariant forall k: nat :: k in order <==> k < i && OnDuty(fs[k], p)
    {
      if OnDuty(fs[i], p) {
        forall k | 0 <= k < |order| ensures fs[order[k]].id != fs[i].id {
          assert order[k] in order;
        }
        var at := Position(fs, order, i);
        Inserted(fs, order, at, i);
        InsertKeepsAll(order, at, i);
        order := Insert(order, at, i);
      }
    }
    forall k | 0 <= k < |order| ensures OnDuty(fs[order[k]], p) {
      assert order[k] in order;
    }
  }

  /** Of two facilities on duty, the one of the lower band is served first, and of one band the one with the lower
      id. */
  lemma LowerBandFirst(fs: seq<Facility>, p: nat, order: seq<nat>, a: nat, b: nat)
    requires IsProductionOrder(fs, p, order) && a < |fs| && b < |fs|
    requires fs[a].planet == p && fs[a].life == Active && fs[b].planet == p && fs[b].life == Active
    requires fs[a].band < fs[b].band || (fs[a].band == fs[b].band && fs[a].id < fs[b].id)
    ensures exists j, k :: 0 <= j < k < |order| && order[j] == a && order[k] == b
  {
    assert OnDuty(fs[a], p) && OnDuty(fs[b], p);
    var j :| 0 <= j < |order| && order[j] == a;
    var k :| 0 <= k < |order| && order[k] == b;
  }
}
