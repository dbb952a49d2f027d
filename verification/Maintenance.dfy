/** Phase 2: each world's facilities draw their machinery in priority order, or wear. */
module Maintenance {
  import opened Sums
  import opened Stock
  import opened Ledger
  import opened Catalog
  import opened State
  import opened Support
  import opened Chains
  import opened Order
  import opened Outside
  import opened Upkeep

  function Worn(cat: Catalog, f: Facility, change: int): Facility {
    f.(condition := Clamp(f.condition + change, cat.rules.conditionMin, cat.rules.conditionMax))
  }

  function Upkept(cat: Catalog, f: Facility): int {
    if f.kind < |cat.facilities| then cat.facilities[f.kind].maintenance else 0
  }

  /** Whether the facility's world can pay for it today. */
  predicate Pays(cat: Catalog, w: World, i: nat)
    requires i < |w.facilities|
  {
    var f := w.facilities[i];
    && f.planet < |w.planets| && cat.machinery < |w.planets[f.planet].stock.onHand|
    && Upkept(cat, f) <= w.planets[f.planet].stock.Available(cat.machinery)
  }

  /** A facility that is paid for, or costs nothing, gains condition; one that is not loses it. */
  ghost predicate MaintainStep(cat: Catalog, w: World, w': World, i: nat) {
    && i < |w.facilities|
    && var f := w.facilities[i];
    && var due := Upkept(cat, f);
    if due == 0 then
      w' == w.(facilities := w.facilities[i := Worn(cat, f, cat.rules.maintainedGain)])
    else if Pays(cat, w, i) then
      && SpendStep(cat, w, w'.(facilities := w.facilities), f.planet, Single(cat.machinery, due), SinkMaintenance)
      && w'.facilities == w.facilities[i := Worn(cat, f, cat.rules.maintainedGain)]
    else
      w' == w.(facilities := w.facilities[i := Worn(cat, f, -cat.rules.unmaintainedLoss)])
  }

  method Maintain(s: Session, i: nat)
    requires s.Stores() && FacilitiesOk(s.cat, s.facilities, |s.planets|, s.nextId) && i < |s.facilities|
    modifies s`planets, s`facilities, s`ledger, s`recorded
    ensures MaintainStep(s.cat, old(s.Now()), s.Now(), i)
  {
    hide Sum, Net, LedgerOk, PlanetsBalance, StockOk, Posted, Debited, ValidFreight, ValidExpedition, ValidMandate,
         JobOk, ValidRules, ValidRecipe;
    var f := s.facilities[i];
    assert FacilityOk(s.cat, f, |s.planets|);
    assert ValidFacility(s.cat, s.cat.facilities[f.kind]);
    var due := s.cat.facilities[f.kind].maintenance;
    if due == 0 {
      s.facilities := s.facilities[i := Worn(s.cat, f, s.cat.rules.maintainedGain)];
      return;
    }
    StockWidth(s.cat, s.planets, f.planet);
    if s.planets[f.planet].stock.Available(s.cat.machinery) >= due {
      var _ := RemoveStock(s, f.planet, s.cat.machinery, due, SinkMaintenance);
      s.facilities := s.facilities[i := Worn(s.cat, f, s.cat.rules.maintainedGain)];
    } else {
      s.facilities := s.facilities[i := Worn(s.cat, f, -s.cat.rules.unmaintainedLoss)];
    }
    assert unchanged(s`day, s`nextId, s`transfers, s`ship, s`route, s`colony, s`demand, s`scratch, s`books);
  }

  lemma WornIsTuned(cat: Catalog, w: World, i: nat, change: int)
    requires FacilitiesOk(cat, w.facilities, |w.planets|, w.nextId) && i < |w.facilities| && ValidRules(cat, cat.rules)
    ensures AllTuned(cat, w.facilities, w.facilities[i := Worn(cat, w.facilities[i], change)])
  {
    hide JobOk;
    forall k | 0 <= k < |w.facilities|
        ensures Tuned(cat, w.facilities[k], w.facilities[i := Worn(cat, w.facilities[i], change)][k]) {
      assert FacilityOk(cat, w.facilities[k], |w.planets|);
    }
  }

  lemma MaintainKeepsInv(cat: Catalog, w: World, w': World, i: nat, d: int, d': int)
    requires InvAt(cat, w, d, d') && MaintainStep(cat, w, w', i)
    ensures InvAt(cat, w', d, d') && |w'.facilities| == |w.facilities| && w'.day == w.day && |w'.planets| == |w.planets|
    ensures AllTuned(cat, w.facilities, w'.facilities)
  {
    hide InvAt, SpendStep, AllTuned;
    Maintainable(cat, w, i, d, d');
    var f := w.facilities[i];
    WornIsTuned(cat, w, i, cat.rules.maintainedGain);
    WornIsTuned(cat, w, i, -cat.rules.unmaintainedLoss);
    if Upkept(cat, f) != 0 && Pays(cat, w, i) {
      var mid := w'.(facilities := w.facilities);
      SpendKeepsInv(cat, w, mid, f.planet, Single(cat.machinery, Upkept(cat, f)), SinkMaintenance, d, d');
      SpendKeepsWidth(cat, w, mid, f.planet, Single(cat.machinery, Upkept(cat, f)), SinkMaintenance);
      TuneKeepsInv(cat, mid, w', d, d');
    } else {
      TuneKeepsInv(cat, w, w', d, d');
    }
  }

  lemma SpendKeepsWidth(cat: Catalog, w: World, w': World, p: nat, m: ResourceMap, to: Account)
    requires SpendStep(cat, w, w', p, m, to)
    ensures |w'.planets| == |w.planets| && w' == w.(planets := w'.planets, ledger := w'.ledger, recorded := w'.recorded)
    ensures OnlyStocks(w.planets, w'.planets)
  {
    hide Posted, LedgerOk;
  }

  lemma Maintainable(cat: Catalog, w: World, i: nat, d: int, d': int)
    requires InvAt(cat, w, d, d') && i < |w.facilities|
    ensures FacilitiesOk(cat, w.facilities, |w.planets|, w.nextId) && ValidRules(cat, cat.rules)
    ensures w.facilities[i].planet < |w.planets| && cat.machinery < cat.resources && 0 <= Upkept(cat, w.facilities[i])
    ensures Pays(cat, w, i) ==>
            Affords(w.planets[w.facilities[i].planet].stock, Single(cat.machinery, Upkept(cat, w.facilities[i])),
            cat.resources)
  {
    hide Sum, LedgerOk, PlanetsBalance, ValidFreight, ValidExpedition, ValidMandate, JobOk, FreighterOk, BalancesOk,
         ColonyOk, PeopleOk, TransfersOk, WorkersOk, StaffOk, SlotsOk, ValidRecipe;
    var f := w.facilities[i];
    assert FacilityOk(cat, f, |w.planets|);
    assert ValidFacility(cat, cat.facilities[f.kind]);
    StockWidth(cat, w.planets, f.planet);
  }

  // ----- the phase -----

  ghost function MaintainNext(cat: Catalog, order: seq<nat>): Step {
    (a: World, b: World, k: nat) => k < |order| && MaintainStep(cat, a, b, order[k])
  }

  /** One world's maintenance, in its priority order. */
  ghost predicate MaintainWorld(cat: Catalog, w: World, w': World, p: nat) {
    exists order :: IsProductionOrder(w.facilities, p, order) && Through(w, w', |order|, MaintainNext(cat, order))
  }

  ghost function MaintainWorlds(cat: Catalog): Step {
    (a: World, b: World, p: nat) => MaintainWorld(cat, a, b, p)
  }

  ghost predicate MaintenanceStep(cat: Catalog, w: World, w': World) {
    Through(w, w', |w.planets|, MaintainWorlds(cat))
  }

  /** What maintenance carries along: the invariants, and which facilities and worlds there are. */
  ghost function Kept(cat: Catalog, w: World, d: int, d': int): World -> bool {
    (a: World) => InvAt(cat, a, d, d') && |a.facilities| == |w.facilities| && |a.planets| == |w.planets|
        && a.day == w.day
  }

  lemma MaintainWorldKeeps(cat: Catalog, w: World, w': World, p: nat, d: int, d': int)
    requires InvAt(cat, w, d, d') && MaintainWorld(cat, w, w', p)
    ensures Kept(cat, w, d, d')(w')
  {
    hide InvAt, MaintainStep, IsProductionOrder;
    var order :| IsProductionOrder(w.facilities, p, order) && Through(w, w', |order|, MaintainNext(cat, order));
    forall a, b, k: nat | k < |order| && Kept(cat, w, d, d')(a) && MaintainNext(cat, order)(a, b, k)
        ensures Kept(cat, w, d, d')(b) {
      MaintainKeepsInv(cat, a, b, order[k], d, d');
    }
    ThroughKeeps(w, w', |order|, MaintainNext(cat, order), Kept(cat, w, d, d'));
  }

  lemma MaintenanceKeepsInv(cat: Catalog, w: World, w': World, d: int, d': int)
    requires InvAt(cat, w, d, d') && MaintenanceStep(cat, w, w')
    ensures InvAt(cat, w', d, d') && |w'.planets| == |w.planets| && w'.day == w.day
  {
    hide InvAt, MaintainWorld;
    forall a, b, p: nat | p < |w.planets| && Kept(cat, w, d, d')(a) && MaintainWorlds(cat)(a, b, p)
        ensures Kept(cat, w, d, d')(b) {
      MaintainWorldKeeps(cat, a, b, p, d, d');
    }
    ThroughKeeps(w, w', |w.planets|, MaintainWorlds(cat), Kept(cat, w, d, d'));
  }

  method MaintainOne(s: Session, p: nat, ghost d: int, ghost d': int)
    requires InvAt(s.cat, s.Now(), d, d')
    modifies s`planets, s`facilities, s`ledger, s`recorded
    ensures MaintainWorld(s.cat, old(s.Now()), s.Now(), p) && InvAt(s.cat, s.Now(), d, d')
            && |s.planets| == |old(s.planets)|
  {
    hide InvAt, MaintainStep, IsProductionOrder, FacilitiesOk, StoresOk;
    MaintenanceNeeds(s, d, d');
    ghost var w := s.Now();
    IdsAscend(s.cat, s.facilities, |s.planets|, s.nextId);
    var order := ProductionOrder(s.facilities, p);
    OrderInRange(s.facilities, p, order);
    ghost var step := MaintainNext(s.cat, order);
    for k := 0 to |order|
      invariant Through(w, s.Now(), k, step)
      invariant InvAt(s.cat, s.Now(), d, d') && |s.facilities| == |w.facilities| && |s.planets| == |w.planets|
    {
      ghost var m := s.Now();
      MaintenanceNeeds(s, d, d');
      Maintain(s, order[k]);
      MaintainKeepsInv(s.cat, m, s.Now(), order[k], d, d');
      ThroughNext(w, m, s.Now(), k, step);
    }
  }

  lemma MaintenanceNeeds(s: Session, d: int, d': int)
    requires InvAt(s.cat, s.Now(), d, d')
    ensures s.Stores() && FacilitiesOk(s.cat, s.facilities, |s.planets|, s.nextId)
  {
    hide StoresOk, FreighterOk, BalancesOk, ColonyOk, PeopleOk, TransfersOk, WorkersOk, StaffOk, SlotsOk, FacilitiesOk;
  }

  lemma IdsAscend(cat: Catalog, fs: seq<Facility>, planets: nat, nextId: nat)
    requires FacilitiesOk(cat, fs, planets, nextId)
    ensures forall i, j | 0 <= i < j < |fs| :: fs[i].id < fs[j].id
  {
  }

  lemma OrderInRange(fs: seq<Facility>, p: nat, order: seq<nat>)
    requires IsProductionOrder(fs, p, order)
    ensures forall k | 0 <= k < |order| :: order[k] < |fs|
  {
  }

  method MaintainAll(s: Session, ghost d: int, ghost d': int)
    requires InvAt(s.cat, s.Now(), d, d')
    modifies s`planets, s`facilities, s`ledger, s`recorded
    ensures MaintenanceStep(s.cat, old(s.Now()), s.Now())
  {
    hide InvAt, MaintainWorld;
    ghost var w := s.Now();
    ghost var step := MaintainWorlds(s.cat);
    for p := 0 to |s.planets|
      invariant |s.planets| == |w.planets| && Through(w, s.Now(), p, step)
      invariant InvAt(s.cat, s.Now(), d, d')
    {
      ghost var m := s.Now();
      MaintainOne(s, p, d, d');
      ThroughNext(w, m, s.Now(), p, step);
    }
  }
}
