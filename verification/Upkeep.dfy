/** The start of a day: facilities opening and serviced, consequences due, relief, and maintenance. */
module Upkeep {
  import opened Sums
  import opened Stock
  import opened Ledger
  import opened Catalog
  import opened State
  import opened Support
  import opened Workforce
  import opened Outside

  // ----- changes to a facility that move nobody and no material -----

  /** Later versions of the same facilities: staff, jobs, place and kind are as they were. */
  ghost predicate Tuned(cat: Catalog, f: Facility, f': Facility) {
    && f' == f.(life := f'.life, condition := f'.condition, band := f'.band, idle := f'.idle, activates := f'.activates,
                lastService := f'.lastService, serviceReady := f'.serviceReady)
    && (f'.life.UnderConstruction? <==> f.life.UnderConstruction?)
    && cat.rules.conditionMin <= f'.condition <= cat.rules.conditionMax
  }

  ghost predicate AllTuned(cat: Catalog, fs: seq<Facility>, fs': seq<Facility>) {
    |fs'| == |fs| && forall i | 0 <= i < |fs| :: Tuned(cat, fs[i], fs'[i])
  }

  lemma {:induction false} SumsOfFacilities(a: seq<Facility>, b: seq<Facility>, f: Facility -> int)
    requires |a| == |b| && forall i | 0 <= i < |a| :: f(a[i]) == f(b[i])
    ensures Sum(a, f) == Sum(b, f)
  {
    if a != [] {
      SumsOfFacilities(a[..|a| - 1], b[..|b| - 1], f);
    }
  }

  lemma TunedWorkforce(cat: Catalog, planets: seq<Planet>, fs: seq<Facility>, fs': seq<Facility>, ts: seq<Transfer>,
                       nextId: nat)
    requires WorkforceOk(cat, planets, fs, ts, nextId) && AllTuned(cat, fs, fs')
    ensures WorkforceOk(cat, planets, fs', ts, nextId)
  {
    hide Sum, JobOk;
    forall p: nat ensures Sum(fs', StaffOn(p)) == Sum(fs, StaffOn(p)) && Sum(fs', SlotOn(p)) == Sum(fs, SlotOn(p)) {
      SumsOfFacilities(fs, fs', StaffOn(p));
      SumsOfFacilities(fs, fs', SlotOn(p));
    }
    forall p | 0 <= p < |planets|
      ensures 0 <= planets[p].crew && 0 <= ReserveOf(planets[p], fs', ts, p)
              && planets[p].workers <= planets[p].population
    {
      assert 0 <= ReserveOf(planets[p], fs, ts, p);
    }
    TunedStaff(cat, fs, fs', ts);
    TunedFacilities(cat, fs, fs', |planets|, nextId);
  }

  lemma TunedFacilities(cat: Catalog, fs: seq<Facility>, fs': seq<Facility>, planets: nat, nextId: nat)
    requires FacilitiesOk(cat, fs, planets, nextId) && AllTuned(cat, fs, fs')
    ensures FacilitiesOk(cat, fs', planets, nextId)
  {
    hide JobOk;
    forall i | 0 <= i < |fs'| ensures 0 < fs'[i].id < nextId && FacilityOk(cat, fs'[i], planets) {
      assert FacilityOk(cat, fs[i], planets) && Tuned(cat, fs[i], fs'[i]);
    }
    forall i, j | 0 <= i < j < |fs'| ensures fs'[i].id < fs'[j].id {
      assert Tuned(cat, fs[i], fs'[i]) && Tuned(cat, fs[j], fs'[j]);
    }
  }

  lemma TunedStaff(cat: Catalog, fs: seq<Facility>, fs': seq<Facility>, ts: seq<Transfer>)
    requires StaffOk(cat, fs, ts) && AllTuned(cat, fs, fs')
    ensures StaffOk(cat, fs', ts)
  {
    hide Sum;
    forall i | 0 <= i < |fs'| ensures
        fs'[i].kind < |cat.facilities| && fs'[i].recipe < |cat.facilities[fs'[i].kind].recipes|
            && StaffFits(cat, fs'[i], ts)
    {
      assert StaffFits(cat, fs[i], ts) && Tuned(cat, fs[i], fs'[i]);
    }
  }

  lemma TunedEscrow(cat: Catalog, fs: seq<Facility>, fs': seq<Facility>, stranded: map<(nat, nat), int>,
                    recorded: seq<Move>)
    requires EscrowBalance(fs, stranded, recorded) && AllTuned(cat, fs, fs')
    ensures EscrowBalance(fs', stranded, recorded)
  {
    hide Sum, Net, Stranded;
    forall id: nat, r: nat ensures Net(recorded, Escrow(id), r) == Sum(fs', HeldFor(id, r)) + Stranded(stranded, id,
        r) {
      forall i | 0 <= i < |fs| ensures HeldFor(id, r)(fs[i]) == HeldFor(id, r)(fs'[i]) {
        assert Tuned(cat, fs[i], fs'[i]);
      }
      SumsOfFacilities(fs, fs', HeldFor(id, r));
    }
  }

  /** Opening, servicing, reprioritising or wearing a facility disturbs nothing else. */
  lemma TuneKeepsInv(cat: Catalog, w: World, w': World, d: int, d': int)
    requires InvAt(cat, w, d, d') && AllTuned(cat, w.facilities, w'.facilities) && w' == w.(facilities := w'.facilities)
    ensures InvAt(cat, w', d, d')
  {
    hide LooseAt, AllTuned, BookedOk, InvAt;
    InvIsLooseAndBooked(cat, w, d, d');
    TuneKeepsLoose(cat, w, w', d, d');
    InvIsLooseAndBooked(cat, w', d, d');
  }

  lemma TuneKeepsLoose(cat: Catalog, w: World, w': World, d: int, d': int)
    requires LooseAt(cat, w, d, d') && AllTuned(cat, w.facilities, w'.facilities)
             && w' == w.(facilities := w'.facilities)
    ensures LooseAt(cat, w', d, d')
  {
    hide Sum, Net, WorkforceOk, StoresOk, EscrowBalance, ShipBalance, ExpeditionBalance, ColonyOk, PeopleOk, FreightOk,
         AllTuned;
    TunedWorkforce(cat, w.planets, w.facilities, w'.facilities, w.transfers, w.nextId);
    TunedEscrow(cat, w.facilities, w'.facilities, w.books.stranded, w.recorded);
    FreighterSame(cat, w, w', d');
  }

  // ----- opening and service -----

  function Clamp(x: int, lo: int, hi: int): int {
    if x < lo then lo else if x > hi then hi else x
  }

  function Opened(f: Facility, day: int): Facility {
    if f.life.Commissioning? && f.activates <= day then f.(life := Active) else f
  }

  function Serviced(cat: Catalog, f: Facility, day: int): Facility {
    if f.serviceReady.Some? && f.serviceReady.value <= day then
      f.(condition := Clamp(f.condition + cat.rules.serviceGain, cat.rules.conditionMin, cat.rules.conditionMax),
         lastService := day, serviceReady := None)
    else f
  }

  function OpenedAll(fs: seq<Facility>, day: int): seq<Facility> {
    seq(|fs|, i requires 0 <= i < |fs| => Opened(fs[i], day))
  }

  function ServicedAll(cat: Catalog, fs: seq<Facility>, day: int): seq<Facility> {
    seq(|fs|, i requires 0 <= i < |fs| => Serviced(cat, fs[i], day))
  }

  ghost predicate OpenStep(cat: Catalog, w: World, w': World) {
    w' == w.(facilities := ServicedAll(cat, OpenedAll(w.facilities, w.day), w.day))
  }

  method OpenFinished(s: Session)
    modifies s`facilities
    ensures s.facilities == OpenedAll(old(s.facilities), s.day)
  {
    ghost var base := s.facilities;
    for i := 0 to |s.facilities|
      invariant |s.facilities| == |base|
      invariant forall k | 0 <= k < |base| :: s.facilities[k] == if k < i then Opened(base[k], s.day) else base[k]
    {
      var f := s.facilities[i];
      if f.life.Commissioning? && s.day >= f.activates {
        s.facilities := s.facilities[i := f.(life := Active)];
      }
    }
  }

  method FinishServices(s: Session)
    modifies s`facilities
    ensures s.facilities == ServicedAll(s.cat, old(s.facilities), s.day)
  {
    ghost var base := s.facilities;
    for i := 0 to |s.facilities|
      invariant |s.facilities| == |base|
      invariant forall k | 0 <= k < |base| ::
                s.facilities[k] == if k < i then Serviced(s.cat, base[k], s.day) else base[k]
    {
      var f := s.facilities[i];
      if f.serviceReady.Some? && s.day >= f.serviceReady.value {
        s.facilities := s.facilities[i := Serviced(s.cat, f, s.day)];
      }
    }
  }

  method OpenFacilities(s: Session)
    modifies s`facilities
    ensures OpenStep(s.cat, old(s.Now()), s.Now())
  {
    OpenFinished(s);
    FinishServices(s);
  }

  lemma OpenKeepsInv(cat: Catalog, w: World, w': World, d: int, d': int)
    requires InvAt(cat, w, d, d') && OpenStep(cat, w, w')
    ensures InvAt(cat, w', d, d')
  {
    hide Sum, StoresOk, EscrowBalance, ShipBalance, ExpeditionBalance, ColonyOk, PeopleOk, FreighterOk, TransfersOk,
         WorkersOk, StaffOk, SlotsOk, JobOk;
    OpenedIsTuned(cat, w.facilities, |w.planets|, w.nextId, w.day);
    TuneKeepsInv(cat, w, w', d, d');
  }

  lemma OpenedIsTuned(cat: Catalog, fs: seq<Facility>, planets: nat, nextId: nat, day: int)
    requires FacilitiesOk(cat, fs, planets, nextId)
    ensures AllTuned(cat, fs, ServicedAll(cat, OpenedAll(fs, day), day))
  {
    hide JobOk;
    forall i | 0 <= i < |fs| ensures Tuned(cat, fs[i], Serviced(cat, Opened(fs[i], day), day)) {
      assert FacilityOk(cat, fs[i], planets);
    }
  }

  // ----- a service ordered -----

  ghost predicate ServiceAllowed(cat: Catalog, w: World, i: nat) {
    && i < |w.facilities| && w.facilities[i].planet < |w.planets|
    && var f := w.facilities[i];
    && f.life.Active? && f.condition < cat.rules.serviceMaxCondition && f.serviceReady.None?
    && !(f.lastService >= 0 && w.day - f.lastService < cat.rules.serviceCooldown)
    && cat.machinery < |w.planets[f.planet].stock.onHand|
    && cat.rules.serviceCost <= w.planets[f.planet].stock.Available(cat.machinery)
  }

  ghost predicate ServiceStep(cat: Catalog, w: World, w': World, i: nat) {
    && i < |w.facilities| && SpendStep(cat, w, w'.(facilities := w.facilities), w.facilities[i].planet,
        Single(cat.machinery, cat.rules.serviceCost), SinkEvent)
    && w'.facilities == w.facilities[i := w.facilities[i].(serviceReady := Some(w.day + cat.rules.serviceDowntime + 1))]
  }

  method MayService(s: Session, i: nat) returns (allowed: bool)
    requires s.Stores() && FacilitiesOk(s.cat, s.facilities, |s.planets|, s.nextId) && i < |s.facilities|
    ensures allowed <==> ServiceAllowed(s.cat, s.Now(), i)
    ensures s.facilities[i].planet < |s.planets|
  {
    hide Sum, LedgerOk, PlanetsBalance, StockOk, ValidFacility, ValidFreight, ValidExpedition, ValidMandate, JobOk;
    var f, rules := s.facilities[i], s.cat.rules;
    assert FacilityOk(s.cat, f, |s.planets|);
    StockWidth(s.cat, s.planets, f.planet);
    if !f.life.Active? || f.condition >= rules.serviceMaxCondition || f.serviceReady.Some? {
      return false;
    }
    if f.lastService >= 0 && s.day - f.lastService < rules.serviceCooldown {
      return false;
    }
    allowed := s.planets[f.planet].stock.Available(s.cat.machinery) >= rules.serviceCost;
  }

  method OrderService(s: Session, i: nat)
    requires s.Stores() && ServiceAllowed(s.cat, s.Now(), i)
    modifies s`planets, s`facilities, s`ledger, s`recorded
    ensures ServiceStep(s.cat, old(s.Now()), s.Now(), i)
  {
    hide Sum, Net, LedgerOk, PlanetsBalance, StockOk, Posted, Debited, ValidFacility, ValidFreight, ValidExpedition,
         ValidMandate;
    var f := s.facilities[i];
    var _ := RemoveStock(s, f.planet, s.cat.machinery, s.cat.rules.serviceCost, SinkEvent);
    s.facilities := s.facilities[i := f.(serviceReady := Some(s.day + s.cat.rules.serviceDowntime + 1))];
    assert unchanged(s`day, s`nextId, s`transfers, s`ship, s`route, s`colony, s`demand, s`scratch, s`books);
  }

  method ServiceFacility(s: Session, id: nat) returns (accepted: bool, ghost i: nat)
    requires s.Stores() && FacilitiesOk(s.cat, s.facilities, |s.planets|, s.nextId)
    modifies s`planets, s`facilities, s`ledger, s`recorded
    ensures accepted ==>
            i < |old(s.facilities)| && old(s.facilities[i].id) == id && old(ServiceAllowed(s.cat, s.Now(), i))
            && ServiceStep(s.cat, old(s.Now()), s.Now(), i)
    ensures !accepted ==>
            s.Now() == old(s.Now()) && forall k: nat | k < |s.facilities| && s.facilities[k].id == id ::
            !ServiceAllowed(s.cat, s.Now(), k)
  {
    hide StoresOk, ServiceAllowed, ServiceStep, FacilityOk;
    var found := FindFacility(s.facilities, id);
    if found.None? {
      return false, 0;
    }
    i := found.value;
    accepted := MayService(s, found.value);
    if accepted {
      OrderService(s, found.value);
    }
  }

  lemma StockWidth(cat: Catalog, planets: seq<Planet>, p: nat)
    requires StockOk(planets, cat.resources) && p < |planets|
    ensures |planets[p].stock.onHand| == cat.resources
    ensures forall r: nat | r < cat.resources :: 0 <= planets[p].stock.Available(r)
  {
    hide Sum;
    assert planets[p].stock.Sound(cat.resources);
  }

  lemma ServiceKeepsInv(cat: Catalog, w: World, w': World, i: nat, d: int, d': int)
    requires InvAt(cat, w, d, d') && ServiceAllowed(cat, w, i) && ServiceStep(cat, w, w', i)
    ensures InvAt(cat, w', d, d')
  {
    hide Sum, Net, EscrowBalance, StockOk, LedgerOk, PlanetsBalance, ShipBalance, ExpeditionBalance, FreighterOk,
         Debited, Posted, ColonyOk, PeopleOk, TransfersOk, WorkersOk, StaffOk, SlotsOk, JobOk, ValidFacility,
         ValidFreight, ValidExpedition, ValidMandate;
    var mid := w'.(facilities := w.facilities);
    var p, cost := w.facilities[i].planet, Single(cat.machinery, cat.rules.serviceCost);
    StockWidth(cat, w.planets, p);
    SpendKeepsInv(cat, w, mid, p, cost, SinkEvent, d, d');
    forall k | 0 <= k < |w.facilities| ensures Tuned(cat, w.facilities[k], w'.facilities[k]) {
      assert FacilityOk(cat, w.facilities[k], |w.planets|);
    }
    TuneKeepsInv(cat, mid, w', d, d');
  }
}
