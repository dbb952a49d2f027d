/** Authored effects: goods granted or taken, crews swapped, conditions restored, one after another. */
module Effects {
  import opened Units
  import opened Sums
  import opened Stock
  import opened Ledger
  import opened Catalog
  import opened State
  import opened Support
  import opened Chains
  import opened Workforce
  import opened Outside
  import opened Upkeep
  import opened Postings
  import opened Relief

  // ----- one effect -----

  /** The facility with its condition at least at a floor. */
  function Restored(f: Facility, floor: int): Facility {
    if f.condition < floor then f.(condition := floor) else f
  }

  function RestoredAt(fs: seq<Facility>, id: nat, floor: int): seq<Facility> {
    seq(|fs|, i requires 0 <= i < |fs| => if fs[i].id == id then Restored(fs[i], floor) else fs[i])
  }

  /** What an effect needs in place, or else the kernel raises an error. */
  ghost predicate EffectAllowed(w: World, e: StockEffect) {
    match e
    case Swap(id, n, _) => SwapAllowed(w.planets, w.facilities, w.transfers, id, n)
    case Restore(id, _) => Lookup(w.facilities, id).Some?
    case Modify(id) => Lookup(w.facilities, id).Some?
    case _ => true
  }

  /** A grant stores what fits; a taking takes what is there; a swap needs its crew, a restoration and a modifier
      their facility. The modifier itself is outside this model. */
  ghost predicate EffectStep(cat: Catalog, w: World, w': World, e: StockEffect) {
    match e
    case Grant(p, r, q) =>
      p < |w.planets| && ReceiveStep(cat, w, w', p, Granted(Single(r, q), w.planets[p].stock), External)
    case Take(p, r, q, to) =>
      && p < |w.planets| && r < |w.planets[p].stock.onHand|
      && SpendStep(cat, w, w', p, Single(r, Min(q, w.planets[p].stock.Available(r))), to)
    case Swap(id, n, days) =>
      SwapStep(w, w', id, n, days)
    case Restore(id, floor) =>
      EffectAllowed(w, e) && w' == w.(facilities := RestoredAt(w.facilities, id, floor))
    case Modify(_) =>
      EffectAllowed(w, e) && w' == w
  }

  ghost predicate EffectFits(w: World, e: StockEffect) {
    e.Grant? && e.planet < |w.planets| ==> Unpromised(Single(e.resource, e.quantity), w.planets[e.planet].stock)
  }

  method GrantExternal(s: Session, p: nat, r: nat, q: int)
    requires s.Stores() && p < |s.planets| && r < s.cat.resources && 0 <= q
    modifies s`planets, s`ledger, s`recorded
    ensures ReceiveStep(s.cat, old(s.Now()), s.Now(), p, Granted(Single(r, q), old(s.planets[p].stock)), External)
  {
    hide Sum, Net, LedgerOk, PlanetsBalance, StockOk, Posted, Credited, ValidCatalog, Inventory.Room;
    StockWidth(s.cat, s.planets, p);
    ghost var stock := s.planets[p].stock;
    var added := AddStock(s, p, r, q, External);
    assert Single(r, added) == Granted(Single(r, q), stock);
    assert unchanged(s`day, s`nextId, s`facilities, s`transfers, s`ship, s`route, s`colony, s`demand, s`scratch,
           s`books);
  }

  method ConsumeResource(s: Session, p: nat, r: nat, q: int, to: Account)
    requires s.Stores() && p < |s.planets| && r < s.cat.resources && 0 <= q && !Owned(to)
    modifies s`planets, s`ledger, s`recorded
    ensures r < |old(s.planets[p].stock.onHand)|
    ensures SpendStep(s.cat, old(s.Now()), s.Now(), p, Single(r, Min(q, old(s.planets[p].stock.Available(r)))), to)
  {
    hide Sum, Net, LedgerOk, PlanetsBalance, StockOk, Posted, Debited, ValidCatalog;
    StockWidth(s.cat, s.planets, p);
    var have := s.planets[p].stock.Available(r);
    var _ := RemoveStock(s, p, r, if have < q then have else q, to);
    assert unchanged(s`day, s`nextId, s`facilities, s`transfers, s`ship, s`route, s`colony, s`demand, s`scratch,
           s`books);
  }

  /** Brings a facility's condition up to a floor; without the facility the kernel raises an error. */
  method RestoreCondition(s: Session, id: nat, floor: int) returns (done: bool)
    requires FacilitiesOk(s.cat, s.facilities, |s.planets|, s.nextId)
    modifies s`facilities
    ensures done <==> Lookup(old(s.facilities), id).Some?
    ensures s.facilities == if done then RestoredAt(old(s.facilities), id, floor) else old(s.facilities)
  {
    hide FacilityOk, Lookup;
    var found := FindFacility(s.facilities, id);
    done := found.Some?;
    if done && s.facilities[found.value].condition < floor {
      s.facilities := s.facilities[found.value := s.facilities[found.value].(condition := floor)];
    }
  }

  /** A modifier on a facility needs the facility to be there still. */
  method ApplyModifier(s: Session, id: nat) returns (done: bool)
    requires FacilitiesOk(s.cat, s.facilities, |s.planets|, s.nextId)
    ensures done <==> Lookup(s.facilities, id).Some?
  {
    hide FacilityOk, Lookup;
    var found := FindFacility(s.facilities, id);
    return found.Some?;
  }

  method ExecuteEffect(s: Session, e: StockEffect) returns (done: bool)
    requires s.Stores() && FacilitiesOk(s.cat, s.facilities, |s.planets|, s.nextId) && EffectOk(s.cat, e, |s.planets|)
    modifies s`planets, s`facilities, s`transfers, s`nextId, s`ledger, s`recorded
    ensures done <==> old(EffectAllowed(s.Now(), e))
    ensures if done then EffectStep(s.cat, old(s.Now()), s.Now(), e) else s.Now() == old(s.Now())
  {
    hide StoresOk, FacilitiesOk, ReceiveStep, SpendStep, SwapStep, SwapAllowed, RestoredAt, Lookup;
    match e {
      case Grant(p, r, q) =>
        GrantExternal(s, p, r, q);
        done := true;
      case Take(p, r, q, to) =>
        ConsumeResource(s, p, r, q, to);
        done := true;
      case Swap(id, n, days) =>
        done := ReplaceCrews(s, id, n, days);
      case Restore(id, floor) =>
        done := RestoreCondition(s, id, floor);
      case Modify(id) =>
        done := ApplyModifier(s, id);
    }
  }

  /** Every effect keeps every rule but the booking one, and that one too, except a grant that takes
      promised space. */
  lemma EffectKeepsInv(cat: Catalog, w: World, w': World, e: StockEffect, d: int, d': int)
    requires LooseAt(cat, w, d, d') && EffectStep(cat, w, w', e) && EffectOk(cat, e, |w.planets|)
    ensures LooseAt(cat, w', d, d')
    ensures BookedOk(w.planets) ==> (BookedOk(w'.planets) <==> EffectFits(w, e))
  {
    hide LooseAt, ReceiveStep, SpendStep, SwapStep, BookedOk, RestoredAt, Inventory.Room, Inventory.FreeSpace,
         Inventory.Available;
    match e {
      case Grant(p, r, q) =>
        ReceivedKeepsInv(cat, w, w', p, Single(r, q), External, d, d');
      case Take(p, r, q, to) =>
        TakeIsAfforded(cat, w, p, r, q, d, d');
        SpendKeepsLoose(cat, w, w', p, Single(r, Min(q, w.planets[p].stock.Available(r))), to, d, d');
      case Swap(id, n, days) =>
        SwapKeepsInv(cat, w, w', id, n, days, d, d');
      case Restore(id, floor) =>
        RestoredIsTuned(cat, w, id, floor, d, d');
        TuneKeepsLoose(cat, w, w', d, d');
      case Modify(_) =>
    }
  }

  /** A floor within full condition stays within the catalogue's bounds. */
  lemma RestoredIsTuned(cat: Catalog, w: World, id: nat, floor: int, d: int, d': int)
    requires LooseAt(cat, w, d, d') && 0 <= floor <= BP_ONE
    ensures AllTuned(cat, w.facilities, RestoredAt(w.facilities, id, floor))
  {
    hide Sum, FreightOk, BalancesOk, ColonyOk, PeopleOk, StockOk, LedgerOk, PlanetsBalance, ValidFacility, ValidFreight,
         ValidExpedition, ValidMandate, JobOk, TransfersOk, WorkersOk, StaffOk, SlotsOk;
    forall i | 0 <= i < |w.facilities| ensures Tuned(cat, w.facilities[i], RestoredAt(w.facilities, id, floor)[i]) {
      assert FacilityOk(cat, w.facilities[i], |w.planets|);
    }
  }

  lemma TakeIsAfforded(cat: Catalog, w: World, p: nat, r: nat, q: int, d: int, d': int)
    requires LooseAt(cat, w, d, d') && p < |w.planets| && r < cat.resources && 0 <= q
    ensures r < |w.planets[p].stock.onHand| && 0 <= w.planets[p].stock.Available(r)
    ensures Affords(w.planets[p].stock, Single(r, Min(q, w.planets[p].stock.Available(r))), cat.resources)
  {
    hide Sum, WorkforceOk, FreightOk, BalancesOk, ColonyOk, PeopleOk, LedgerOk, PlanetsBalance, ValidCatalog;
    StockWidth(cat, w.planets, p);
  }

  // ----- a list of effects -----

  ghost function EffectNext(cat: Catalog, es: seq<StockEffect>): Step {
    (a: World, b: World, k: nat) => k < |es| && EffectStep(cat, a, b, es[k])
  }

  ghost function EffectClear(es: seq<StockEffect>): Check {
    (a: World, k: nat) => k < |es| ==> EffectAllowed(a, es[k])
  }

  ghost predicate EffectsStep(cat: Catalog, w: World, w': World, es: seq<StockEffect>) {
    Through(w, w', |es|, EffectNext(cat, es))
  }

  /** Some effect, when its turn comes, lacks what it needs. */
  ghost predicate EffectsStop(cat: Catalog, w: World, es: seq<StockEffect>) {
    Stops(w, |es|, EffectNext(cat, es), EffectClear(es))
  }

  ghost function LooseDay(cat: Catalog, w: World, d: int, d': int): World -> bool {
    (a: World) => LooseAt(cat, a, d, d') && |a.planets| == |w.planets| && a.day == w.day && a.books == w.books
        && NoneFuller(w.facilities, a.facilities)
  }

  lemma EffectWidth(cat: Catalog, w: World, w': World, e: StockEffect)
    requires EffectStep(cat, w, w', e)
    ensures |w'.planets| == |w.planets| && w'.day == w.day && w'.books == w.books
            && NoneFuller(w.facilities, w'.facilities)
  {
    hide Posted, LedgerOk, SwapAllowed;
  }

  lemma EffectKeepsDay(cat: Catalog, w: World, a: World, b: World, es: seq<StockEffect>, k: nat, d: int, d': int)
    requires EffectsOk(cat, es, |w.planets|) && LooseDay(cat, w, d, d')(a) && EffectNext(cat, es)(a, b, k)
    ensures LooseDay(cat, w, d, d')(b)
  {
    hide LooseAt, EffectStep, EffectFits, EffectOk, BookedOk;
    EffectKeepsInv(cat, a, b, es[k], d, d');
    EffectWidth(cat, a, b, es[k]);
  }

  /** Any list of effects keeps every rule but the booking one. */
  lemma EffectsKeepInv(cat: Catalog, w: World, w': World, es: seq<StockEffect>, d: int, d': int)
    requires LooseAt(cat, w, d, d') && EffectsStep(cat, w, w', es) && EffectsOk(cat, es, |w.planets|)
    ensures LooseAt(cat, w', d, d') && |w'.planets| == |w.planets| && w'.day == w.day && w'.books == w.books
            && NoneFuller(w.facilities, w'.facilities)
  {
    hide LooseAt, EffectStep, EffectsOk;
    var inv := LooseDay(cat, w, d, d');
    forall a, b, k: nat | k < |es| && inv(a) && EffectNext(cat, es)(a, b, k) ensures inv(b) {
      EffectKeepsDay(cat, w, a, b, es, k, d, d');
    }
    ThroughKeeps(w, w', |es|, EffectNext(cat, es), inv);
  }

  lemma LooseNeeds(s: Session, d: int, d': int)
    requires LooseAt(s.cat, s.Now(), d, d')
    ensures s.Stores() && FacilitiesOk(s.cat, s.facilities, |s.planets|, s.nextId)
            && StockOk(s.planets, s.cat.resources)
  {
    hide FreightOk, BalancesOk, ColonyOk, PeopleOk, TransfersOk, WorkersOk, StaffOk, SlotsOk, FacilitiesOk, LedgerOk,
         PlanetsBalance, StockOk, ValidCatalog;
  }

  /** Runs the effects in order, up to the first that raises an error. */
  method RunEffects(s: Session, es: seq<StockEffect>, ghost d: int, ghost d': int) returns (done: bool)
    requires LooseAt(s.cat, s.Now(), d, d') && EffectsOk(s.cat, es, |s.planets|)
    modifies s`planets, s`facilities, s`transfers, s`nextId, s`ledger, s`recorded
    ensures if done then EffectsStep(s.cat, old(s.Now()), s.Now(), es) else EffectsStop(s.cat, old(s.Now()), es)
  {
    hide LooseAt, EffectStep, EffectAllowed, StoresOk, FacilitiesOk, EffectOk, StockOk;
    ghost var w := s.Now();
    ghost var step := EffectNext(s.cat, es);
    for k := 0 to |es|
      invariant Through(w, s.Now(), k, step) && LooseDay(s.cat, w, d, d')(s.Now())
    {
      ghost var m := s.Now();
      LooseNeeds(s, d, d');
      assert EffectOk(s.cat, es[k], |s.planets|);
      done := ExecuteEffect(s, es[k]);
      if !done {
        assert !EffectClear(es)(m, k);
        return;
      }
      EffectKeepsDay(s.cat, w, m, s.Now(), es, k, d, d');
      ThroughNext(w, m, s.Now(), k, step);
    }
    done := true;
  }

  // ----- one outcome, unless stopped -----

  lemma EffectSame(cat: Catalog, a: World, a': World, b: World, b': World, e: StockEffect)
    requires Same(a, b) && EffectStep(cat, a, a', e) && EffectStep(cat, b, b', e)
    ensures Same(a', b')
  {
    hide SpendStep, ReceiveStep, SwapAllowed, RestoredAt, Lookup;
    match e {
      case Grant(p, r, q) => ReceiveSame(cat, a, a', b, b', p, Granted(Single(r, q), a.planets[p].stock), External);
      case Take(p, r, q, to) => SpendSame(cat, a, a', b, b', p, Single(r, Min(q, a.planets[p].stock.Available(r))), to);
      case Swap(_, _, _) =>
      case Restore(_, _) =>
      case Modify(_) =>
    }
  }

  lemma EffectsRepeat(cat: Catalog, es: seq<StockEffect>)
    ensures Repeatable(|es|, EffectNext(cat, es)) && Guards(|es|, EffectNext(cat, es), EffectClear(es))
  {
    hide EffectStep, EffectAllowed, Same;
    var step := EffectNext(cat, es);
    forall a, a', b, b', i: nat | i < |es| && Same(a, b) && step(a, a', i) && step(b, b', i) ensures Same(a', b') {
      EffectSame(cat, a, a', b, b', es[i]);
    }
    forall a, b, c, i: nat | i < |es| && step(a, b, i) && Same(a, c) ensures EffectClear(es)(c, i) {
      EffectNeeds(cat, a, b, es[i]);
      SameNeeds(a, c, es[i]);
    }
  }

  lemma EffectNeeds(cat: Catalog, w: World, w': World, e: StockEffect)
    requires EffectStep(cat, w, w', e)
    ensures EffectAllowed(w, e)
  {
    hide SpendStep, ReceiveStep, SwapAllowed, Lookup;
  }

  lemma SameNeeds(a: World, b: World, e: StockEffect)
    requires Same(a, b)
    ensures EffectAllowed(a, e) == EffectAllowed(b, e)
  {
  }

  lemma EffectOnce(cat: Catalog, w: World, e: StockEffect, d: int, d': int) returns (w': World)
    requires LooseAt(cat, w, d, d') && EffectOk(cat, e, |w.planets|) && EffectAllowed(w, e)
    ensures EffectStep(cat, w, w', e)
  {
    hide LooseAt, SpendStep, ReceiveStep, SwapAllowed, RestoredAt, Lookup, Inventory.Room, Inventory.Available;
    LooseStores(cat, w, d, d');
    match e {
      case Grant(p, r, q) =>
        w' := ReceiveOnce(cat, w, p, Granted(Single(r, q), w.planets[p].stock), External);
      case Take(p, r, q, to) =>
        w' := SpendOnce(cat, w, p, Single(r, Min(q, w.planets[p].stock.Available(r))), to);
      case Swap(id, n, days) =>
        w' := SwapOnce(w, id, n, days);
      case Restore(id, floor) =>
        w' := w.(facilities := RestoredAt(w.facilities, id, floor));
      case Modify(_) =>
        w' := w;
    }
  }

  lemma SwapOnce(w: World, id: nat, n: nat, days: int) returns (w': World)
    requires SwapAllowed(w.planets, w.facilities, w.transfers, id, n)
    ensures SwapStep(w, w', id, n, days)
  {
    hide Sum, Lookup;
    w' := w.(nextId := w.nextId + 1,
             transfers := w.transfers + [Transfer(w.nextId, Lookup(w.facilities, id).value.planet, id, 0, n,
                 w.day + (if days > 0 then days else 2))]);
  }

  lemma LooseStores(cat: Catalog, w: World, d: int, d': int)
    requires LooseAt(cat, w, d, d')
    ensures LedgerOk(w.ledger, w.recorded, |w.planets|, w.nextId)
    ensures forall p | 0 <= p < |w.planets| :: |w.planets[p].stock.onHand| == cat.resources
  {
    hide Sum, WorkforceOk, FreightOk, BalancesOk, ColonyOk, PeopleOk, LedgerOk, PlanetsBalance, ValidCatalog;
    forall p | 0 <= p < |w.planets| ensures |w.planets[p].stock.onHand| == cat.resources {
      assert w.planets[p].stock.Sound(cat.resources);
    }
  }

  lemma EffectsSame(cat: Catalog, a: World, a': World, b: World, b': World, es: seq<StockEffect>)
    requires Same(a, b) && EffectsStep(cat, a, a', es)
    ensures EffectsStep(cat, b, b', es) ==> Same(a', b')
    ensures !EffectsStop(cat, b, es)
  {
    hide Same, EffectStep, EffectAllowed;
    EffectsRepeat(cat, es);
    if EffectsStep(cat, b, b', es) {
      ThroughSame(a, a', b, b', |es|, EffectNext(cat, es));
    }
    ThroughNeverStops(a, a', b, |es|, EffectNext(cat, es), EffectClear(es));
  }

  /** A list of effects runs to its end unless one of them lacks what it needs. */
  lemma EffectsOnce(cat: Catalog, w: World, es: seq<StockEffect>, d: int, d': int) returns (w': World)
    requires LooseAt(cat, w, d, d') && EffectsOk(cat, es, |w.planets|) && !EffectsStop(cat, w, es)
    ensures EffectsStep(cat, w, w', es)
  {
    hide LooseAt, EffectStep, EffectAllowed, EffectOk;
    var inv, step := LooseDay(cat, w, d, d'), EffectNext(cat, es);
    forall a, i: nat | i < |es| && inv(a) && EffectClear(es)(a, i) ensures Possible(a, i, step) {
      var b := EffectOnce(cat, a, es[i], d, d');
      assert step(a, b, i);
    }
    forall a, b, i: nat | i < |es| && inv(a) && step(a, b, i) ensures inv(b) {
      EffectKeepsDay(cat, w, a, b, es, i, d, d');
    }
    w' := ThroughUnlessStopped(w, |es|, step, EffectClear(es), inv);
  }
}
