/** What a morning brings: workers landing, relief and authored effects, and the expedition's days and founding. */
module Landfall {
  import opened Units
  import opened Sums
  import opened Stock
  import opened Catalog
  import opened State
  import opened Support
  import opened Workforce
  import opened Relief
  import opened Effects
  import opened Expedition
  import opened Shelves

  // ----- workers -----

  /** The workers due at a job by a day. */
  function DueAt(ts: seq<Transfer>, id: nat, day: int): int {
    if ts == [] then 0
    else
      var t := ts[|ts| - 1];
      DueAt(ts[..|ts| - 1], id, day) + (if t.to == id && t.ready <= day then t.count else 0)
  }

  lemma {:induction false} DueAtIs(ts: seq<Transfer>, id: nat, day: int)
    ensures DueAt(ts, id, day) == Sum(ts, LandingAt(id, day))
  {
    if ts == [] {
      SumEmpty(LandingAt(id, day));
    } else {
      var n := |ts| - 1;
      DueAtIs(ts[..n], id, day);
      SumAppend(ts[..n], ts[n], LandingAt(id, day));
      assert ts == ts[..n] + [ts[n]];
    }
  }

  lemma {:induction false} WaitingAre(ts: seq<Transfer>, day: int)
    ensures forall t :: multiset(Waiting(ts, day))[t] == if t.ready > day then multiset(ts)[t] else 0
  {
    if ts != [] {
      var n := |ts| - 1;
      WaitingAre(ts[..n], day);
      assert ts == ts[..n] + [ts[n]];
    }
  }

  /** Every job takes in the workers due at it, as crew while it is being built and as staff afterwards; those not due
      are still on their way. */
  lemma WorkersLand(cat: Catalog, w: World, w': World)
    requires TransfersStep(w, w')
    ensures w' == w.(transfers := w'.transfers, facilities := w'.facilities) && |w'.facilities| == |w.facilities|
    ensures forall t :: multiset(w'.transfers)[t] == if t.ready > w.day then multiset(w.transfers)[t] else 0
    ensures forall i | 0 <= i < |w.facilities| ::
              var f, n := w.facilities[i], DueAt(w.transfers, w.facilities[i].id, w.day);
              w'.facilities[i] == match f.job
                                  case None => f.(staff := f.staff + n)
                                  case Some(j) => f.(job := Some(j.(crew := j.crew + n)))
  {
    hide Waiting;
    WaitingAre(w.transfers, w.day);
    forall i | 0 <= i < |w.facilities|
      ensures DueAt(w.transfers, w.facilities[i].id, w.day)
              == Sum(w.transfers, LandingAt(w.facilities[i].id, w.day))
    {
      DueAtIs(w.transfers, w.facilities[i].id, w.day);
    }
  }

  // ----- relief and effects -----

  /** As much of a gift as the store has room for, promised or not. */
  ghost predicate Gift(w: World, w': World, p: nat, m: ResourceMap)
    requires p < |w.planets|
  {
    exists given: ResourceMap ::
      && Stored(w.planets, w'.planets, p, given)
      && (forall r :: r in given <==> r in m && r < |w.planets[p].stock.onHand|)
      && forall r | r in given ::
          given[r] == Min(m[r], Max(0, w.planets[p].stock.capacity - w.planets[p].stock.onHand[r]))
  }

  /** Relief that is due arrives once, as much of it as there is room for. */
  lemma ReliefArrives(cat: Catalog, w: World, w': World, p: nat)
    requires ReliefStep(cat, w, w', p) && p < |w.planets|
    ensures if w.planets[p].reliefDue < 0 || w.day < w.planets[p].reliefDue then w' == w
            else
              && |w'.planets| == |w.planets| && w'.planets[p].reliefDue < 0
              && Gift(w.(planets := w.planets[p := w.planets[p].(reliefDue := w'.planets[p].reliefDue)]), w', p,
                      cat.rules.reliefGrant)
  {
    hide Posted, LedgerOk, Credited, Stored;
    if Due(w, p) {
      var closed := w.(planets := Closed(w.planets, p));
      var given := Granted(cat.rules.reliefGrant, w.planets[p].stock);
      CreditedIsStored(closed.planets, w'.planets, p, given);
      CreditedKeeps(closed.planets, w'.planets, p, given);
      assert Gift(closed, w', p, cat.rules.reliefGrant);
    }
  }

  lemma CreditedKeeps(before: seq<Planet>, after: seq<Planet>, p: nat, m: ResourceMap)
    requires Credited(before, after, p, m) && p < |before|
    ensures |after| == |before| && OnlyStock(before[p], after[p])
  {
  }

  /** An authored effect gives what fits, takes what there is, sends staff home with a return of their own, or raises a
      condition to a floor it was below. */
  lemma EffectsActSo(cat: Catalog, w: World, w': World, e: StockEffect)
    requires EffectStep(cat, w, w', e)
    ensures e.Grant? ==> e.planet < |w.planets| && Gift(w, w', e.planet, map[e.resource := e.quantity])
    ensures e.Take? ==>
              && e.planet < |w.planets| && e.resource < |w.planets[e.planet].stock.onHand|
              && Paid(w.planets, w'.planets, e.planet,
                      map[e.resource := Min(e.quantity, w.planets[e.planet].stock.Available(e.resource))])
    ensures e.Swap? ==>
              exists i: nat ::
                && i < |w.facilities| && w.facilities[i].id == e.facility && e.count <= w.facilities[i].staff
                && w' == w.(nextId := w.nextId + 1,
                            transfers := w.transfers + [Transfer(w.nextId, w.facilities[i].planet, e.facility, 0,
                                                                 e.count, w.day + if e.days > 0 then e.days else 2)])
    ensures e.Restore? ==>
              && w' == w.(facilities := w'.facilities) && |w'.facilities| == |w.facilities|
              && forall i | 0 <= i < |w.facilities| ::
                  var f := w.facilities[i];
                  w'.facilities[i] == f.(condition := if f.id == e.facility then Max(f.condition, e.condition)
                                                      else f.condition)
  {
    hide Posted, LedgerOk, Credited, Debited, Stored, Paid, ReserveOf, Inventory.Available;
    match e {
      case Grant(p, r, q) =>
        CreditedIsStored(w.planets, w'.planets, p, Granted(Single(r, q), w.planets[p].stock));
      case Take(p, r, q, _) =>
        DebitedIsPaid(w.planets, w'.planets, p, Single(r, Min(q, w.planets[p].stock.Available(r))));
      case Swap(id, _, _) =>
        var i := LookupIndex(w.facilities, id);
      case _ =>
    }
  }

  // ----- the expedition -----

  /** A day under way uses up what travellers need of each resource, or the last of it; and on the day of arrival the
      colony is founded with what is left, as far as it has room for, its people settled and its hub at work. */
  lemma TravellersLand(cat: Catalog, w: World, w': World)
    requires FoundStep(cat, w, w')
    ensures var e, p := cat.expedition, cat.expedition.target;
            && p < |w.planets| == |w'.planets| && w'.planets[p].colonised
            && w'.planets[p].population == w.planets[p].population + w.colony.residents
            && w'.planets[p].workers == w.planets[p].workers + w.colony.workers
            && (forall r | r in w.colony.cargo && r < |w.planets[p].stock.onHand| ::
                  r < |w'.planets[p].stock.onHand|
                  && w'.planets[p].stock.onHand[r] == w.planets[p].stock.onHand[r]
                     + Min(w.colony.cargo[r], Max(0, w.planets[p].stock.capacity - w.planets[p].stock.onHand[r])))
            && w'.colony == w.colony.(cargo := map[], founded := true, foundedDay := w.day)
            && |w'.facilities| == |w.facilities| + 1 && w'.facilities[..|w.facilities|] == w.facilities
            && var f := w'.facilities[|w.facilities|];
            && f.kind == e.hub && f.planet == p && f.life == Active && f.activates == w.day && f.staff == 0
            && f.condition == 10000 && f.job.None? && !f.idle && f.serviceReady.None? && f.recipe == 0
            && f.id == w.nextId
  {
    hide Posted, LedgerOk, Credited, Spill;
    var p := cat.expedition.target;
    var there := Moved(w.planets, p, w.colony);
    var stored := Storable(w.colony.cargo, w.planets[p].stock);
    CreditedKeeps(there, w'.planets, p, stored);
    forall r | r in w.colony.cargo && r < |w.planets[p].stock.onHand|
      ensures r < |w'.planets[p].stock.onHand|
      ensures w'.planets[p].stock.onHand[r] == w.planets[p].stock.onHand[r] + stored[r]
    {
      CreditedHere(there, w'.planets, p, stored, r);
    }
    assert w'.facilities[..|w.facilities|] == w.facilities;
  }

  lemma CreditedHere(before: seq<Planet>, after: seq<Planet>, p: nat, m: ResourceMap, r: nat)
    requires Credited(before, after, p, m) && p < |before| && r < |before[p].stock.onHand|
    ensures |after| == |before| && r < |after[p].stock.onHand|
    ensures after[p].stock.onHand[r] == before[p].stock.onHand[r] + Qty(m, r)
  {
    assert OnlyStock(before[p], after[p]);
    assert OnHand(after, p, r) == OnHand(before, p, r) + Qty(m, r);
  }

  lemma TravellersEat(cat: Catalog, w: World, w': World)
    requires ChargeStep(cat, w, w')
    ensures w' == w.(colony := w.colony.(cargo := w'.colony.cargo), ledger := w'.ledger, recorded := w'.recorded)
    ensures w'.colony.cargo.Keys == w.colony.cargo.Keys
    ensures forall r | r in w.colony.cargo && 0 <= w.colony.cargo[r] ::
              w'.colony.cargo[r] == w.colony.cargo[r] - Max(0, Min(w.colony.cargo[r],
                                                                 Qty(cat.expedition.transitPerDay, r)))
  {
    hide Posted, LedgerOk;
  }
}
