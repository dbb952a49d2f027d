/** Construction jobs: escrow in, work and consumption, refund or completion. */
module Construction {
  import opened Units
  import opened Sums
  import opened Stock
  import opened Ledger
  import opened Catalog
  import opened State
  import opened Support
  import opened Workforce

  method CanAfford(stock: Inventory, m: ResourceMap, n: nat) returns (affordable: bool)
    requires stock.Sound(n)
    requires forall r | r in m :: r < n
    ensures affordable <==> Affords(stock, m, n)
  {
    hide Sum;
    for r := 0 to n
      invariant forall k: nat | k < r :: Qty(m, k) <= stock.Available(k)
    {
      assert 0 <= stock.Available(r);
      if r in m && stock.Available(r) < m[r] {
        assert Qty(m, r) > stock.Available(r);
        return false;
      }
    }
    return true;
  }

  /** When a job is accepted. A definition that claims no slots is still refused on a full world, by
      the invariant check that follows every command. */
  ghost predicate BuildAllowed(cat: Catalog, planets: seq<Planet>, fs: seq<Facility>, p: nat, kind: nat,
                               recipe: Option<nat>) {
    && p < |planets| && p < |cat.planets| && planets[p].colonised && kind < |cat.facilities|
    && var def := cat.facilities[kind];
    && def.buildable
    && (recipe.Some? ==> recipe.value < |def.recipes|) && (recipe.None? ==> |def.recipes| == 1)
    && (def.onePerWorld ==> forall i | 0 <= i < |fs| :: !(fs[i].planet == p && fs[i].kind == kind))
    && Sum(fs, SlotOn(p)) + Max(def.slots, 1) <= cat.planets[p].slotCount
    && Affords(planets[p].stock, def.buildCost, cat.resources)
  }

  method MayBuild(cat: Catalog, planets: seq<Planet>, fs: seq<Facility>, p: nat, kind: nat, recipe: Option<nat>)
                  returns (allowed: bool)
    requires ValidCatalog(cat) && |planets| == |cat.planets| && StockOk(planets, cat.resources)
    ensures allowed <==> BuildAllowed(cat, planets, fs, p, kind, recipe)
  {
    hide Sum;
    if p >= |planets| || !planets[p].colonised || kind >= |cat.facilities| {
      return false;
    }
    var def := cat.facilities[kind];
    assert ValidFacility(cat, def);
    if !def.buildable {
      return false;
    }
    if recipe.Some? {
      if recipe.value >= |def.recipes| {
        return false;
      }
    } else if |def.recipes| > 1 {
      return false;
    }
    var used := 0;
    SumEmpty(SlotOn(p));
    assert fs[..0] == [];
    for i := 0 to |fs|
      invariant used == Sum(fs[..i], SlotOn(p))
      invariant def.onePerWorld ==> forall k | 0 <= k < i :: !(fs[k].planet == p && fs[k].kind == kind)
    {
      SumAppend(fs[..i], fs[i], SlotOn(p));
      assert fs[..i + 1] == fs[..i] + [fs[i]];
      if fs[i].planet == p {
        if def.onePerWorld && fs[i].kind == kind {
          return false;
        }
        used := used + 1;
      }
    }
    assert fs[..|fs|] == fs;
    if used + def.slots > cat.planets[p].slotCount || used + 1 > cat.planets[p].slotCount {
      return false;
    }
    allowed := CanAfford(planets[p].stock, def.buildCost, cat.resources);
  }

  function NewJob(cat: Catalog, id: nat, p: nat, kind: nat, recipe: nat): Facility
    requires kind < |cat.facilities| && recipe < |cat.facilities[kind].recipes|
  {
    var def := cat.facilities[kind];
    Facility(id, kind, recipe, p, UnderConstruction, 0, BP_ONE, def.recipes[recipe].band, false, INT64_MAX, -1, None,
             Some(Job(def.buildWork, 0, def.buildCost, def.buildCost, map[], 0, 0)), 0)
  }

  lemma NewJobOk(cat: Catalog, f: Facility, id: nat, p: nat, kind: nat, recipe: nat, planets: nat)
    requires ValidCatalog(cat) && kind < |cat.facilities| && recipe < |cat.facilities[kind].recipes| && p < planets
    requires f == NewJob(cat, id, p, kind, recipe)
    ensures FacilityOk(cat, f, planets)
  {
    var def := cat.facilities[kind];
    assert ValidFacility(cat, def);
    if def.buildWork > 0 {
      forall r: nat ensures Qty(map[], r) == FloorOf(Qty(def.buildCost, r), 0, def.buildWork) {
        FloorAtLeast(Qty(def.buildCost, r), 0, def.buildWork, 0);
        FloorAtLeast(Qty(def.buildCost, r), 0, def.buildWork, 1);
      }
    }
  }

  /** A new facility with nobody in it disturbs no worker rule as long as its slot is there. */
  lemma EmptyFacilityKeepsWorkforce(cat: Catalog, planets: seq<Planet>, fs: seq<Facility>, ts: seq<Transfer>,
                                    nextId: nat, f: Facility)
    requires WorkforceOk(cat, planets, fs, ts, nextId)
    requires FacilityOk(cat, f, |planets|) && f.id == nextId > 0 && f.staff + JobCrew(f) == 0
    requires f.kind < |cat.facilities| && f.recipe < |cat.facilities[f.kind].recipes| && 0 <= FullStaff(cat, f)
    requires Sum(fs, SlotOn(f.planet)) + 1 + (if f.planet == cat.expedition.target && !planets[f.planet].colonised then
             1 else 0)
               <= (if f.planet < |cat.planets| then cat.planets[f.planet].slotCount else 0)
    ensures WorkforceOk(cat, planets, fs + [f], ts, nextId + 1)
  {
    hide Sum, FacilityOk;
    FacilityAppended(fs, f);
    NobodyBoundFor(ts, nextId);
    assert WorkersOk(planets, fs + [f], ts) by {
      forall p | 0 <= p < |planets|
        ensures 0 <= planets[p].crew && 0 <= ReserveOf(planets[p], fs + [f], ts, p)
                && planets[p].workers <= planets[p].population
      {
        assert 0 <= ReserveOf(planets[p], fs, ts, p);
      }
    }
    assert StaffOk(cat, fs + [f], ts) by {
      forall j | 0 <= j < |fs + [f]| ensures
          (fs + [f])[j].kind < |cat.facilities| && (fs + [f])[j].recipe < |cat.facilities[(fs + [f])[j].kind].recipes|
          && StaffFits(cat, (fs + [f])[j], ts)
      {
        if j < |fs| {
          assert StaffFits(cat, fs[j], ts);
        } else {
          assert f.job.None? ==> f.staff <= 0;
        }
      }
    }
  }

  lemma NobodyBoundFor(ts: seq<Transfer>, id: nat)
    requires forall i | 0 <= i < |ts| :: ts[i].to < id
    ensures Sum(ts, IncomingTo(id)) == 0
  {
    SumZero(ts, IncomingTo(id));
  }

  lemma EscrowOpens(fs: seq<Facility>, f: Facility, stranded: map<(nat, nat), int>, before: seq<Move>, after: seq<Move>,
                    from: Account, m: ResourceMap)
    requires EscrowBalance(fs, stranded, before) && !from.Escrow?
    requires Posted(before, after, from, Escrow(f.id), m)
    requires f.job.Some? && f.job.value.escrow == m
    ensures EscrowBalance(fs + [f], stranded, after)
  {
    hide Sum, Net, Stranded;
    FacilityAppended(fs, f);
    forall id: nat, r: nat
      ensures Net(after, Escrow(id), r) == Sum(fs + [f], HeldFor(id, r)) + Stranded(stranded, id, r)
    {
      assert Net(before, Escrow(id), r) == Sum(fs, HeldFor(id, r)) + Stranded(stranded, id, r);
    }
  }

  /** The state after a job has started: the slot is taken and the materials are in escrow. */
  ghost predicate BuildStep(cat: Catalog, w: World, w': World, p: nat, kind: nat, recipe: Option<nat>) {
    && BuildAllowed(cat, w.planets, w.facilities, p, kind, recipe)
    && var def := cat.facilities[kind];
    && w' == w.(nextId := w.nextId + 1,
                facilities := w.facilities + [NewJob(cat, w.nextId, p, kind, if recipe.Some? then recipe.value else 0)],
                planets := w'.planets, ledger := w'.ledger, recorded := w'.recorded)
    && Debited(w.planets, w'.planets, p, def.buildCost)
    && Posted(w.recorded, w'.recorded, PlanetStock(p), Escrow(w.nextId), def.buildCost)
    && LedgerOk(w'.ledger, w'.recorded, |w'.planets|, w'.nextId)
  }

  lemma BuildKeepsInv(cat: Catalog, w: World, w': World, p: nat, kind: nat, recipe: Option<nat>, d: int)
    requires InvAt(cat, w, d, d) && BuildStep(cat, w, w', p, kind, recipe)
    ensures InvAt(cat, w', d, d)
  {
    hide Sum, Net, WorkforceOk, EscrowBalance, StockOk, LedgerOk, PlanetsBalance, ShipBalance, ExpeditionBalance,
         ColonyOk, PeopleOk, BookedOk, ClaimsOk, ShipOk, DemandOk, Debited, Posted, Affords, ValidCatalog, TankOk,
         ShippedOk;
    var def := cat.facilities[kind];
    var f := w'.facilities[|w.facilities|];
    BuildFits(cat, w.planets, w.facilities, w.transfers, w.nextId, f, p, kind, recipe);
    DebitKeepsStores(cat, w, w', p, def.buildCost, Escrow(w.nextId));
    EscrowOpens(w.facilities, f, w.books.stranded, w.recorded, w'.recorded, PlanetStock(p), def.buildCost);
    PostedElsewhere(w.recorded, w'.recorded, PlanetStock(p), Escrow(w.nextId), def.buildCost, w, cat.fuel);
    DebitedMoves(w.planets, w'.planets, p, def.buildCost);
    StockMovesNobody(cat, w.planets, w'.planets, w', d);
  }

  lemma BuildFits(cat: Catalog, planets: seq<Planet>, fs: seq<Facility>, ts: seq<Transfer>, nextId: nat, f: Facility,
                  p: nat, kind: nat, recipe: Option<nat>)
    requires ValidCatalog(cat) && WorkforceOk(cat, planets, fs, ts, nextId) && 0 < nextId && |planets| == |cat.planets|
    requires BuildAllowed(cat, planets, fs, p, kind, recipe)
    requires f == NewJob(cat, nextId, p, kind, if recipe.Some? then recipe.value else 0)
    ensures WorkforceOk(cat, planets, fs + [f], ts, nextId + 1)
    ensures Positive(cat.facilities[kind].buildCost, cat.resources)
  {
    hide Sum, WorkforceOk, FacilityOk;
    assert ValidFacility(cat, cat.facilities[kind]);
    assert ValidRecipe(cat, cat.facilities[kind].recipes[f.recipe]);
    NewJobOk(cat, f, nextId, p, kind, f.recipe, |planets|);
    EmptyFacilityKeepsWorkforce(cat, planets, fs, ts, nextId, f);
  }

  lemma BuildNeeds(cat: Catalog, planets: seq<Planet>, fs: seq<Facility>, p: nat, kind: nat, recipe: Option<nat>)
    requires ValidCatalog(cat) && BuildAllowed(cat, planets, fs, p, kind, recipe)
    ensures p < |planets| && kind < |cat.facilities| && Positive(cat.facilities[kind].buildCost, cat.resources)
    ensures (if recipe.Some? then recipe.value else 0) < |cat.facilities[kind].recipes|
    ensures Affords(planets[p].stock, cat.facilities[kind].buildCost, cat.resources)
  {
    assert ValidFacility(cat, cat.facilities[kind]);
  }

  method StartConstruction(s: Session, p: nat, kind: nat, recipe: Option<nat>) returns (accepted: bool)
    requires s.Stores()
    modifies s`planets, s`facilities, s`nextId, s`ledger, s`recorded
    ensures accepted <==> old(BuildAllowed(s.cat, s.planets, s.facilities, p, kind, recipe))
    ensures if accepted then BuildStep(s.cat, old(s.Now()), s.Now(), p, kind, recipe) else s.Now() == old(s.Now())
  {
    hide Sum, Net, PlanetsBalance, Debited, Posted, Affords, BuildAllowed, ValidCatalog, LedgerOk, StockOk, Positive;
    accepted := MayBuild(s.cat, s.planets, s.facilities, p, kind, recipe);
    if !accepted {
      return;
    }
    BuildNeeds(s.cat, s.planets, s.facilities, p, kind, recipe);
    var def := s.cat.facilities[kind];
    var f := NewJob(s.cat, s.nextId, p, kind, if recipe.Some? then recipe.value else 0);
    RangeGrows(s.ledger, s.recorded, |s.planets|, s.nextId, s.nextId + 1);
    s.nextId := s.nextId + 1;
    s.facilities := s.facilities + [f];
    DebitAll(s, p, def.buildCost, Escrow(f.id));
    assert unchanged(s`day, s`transfers, s`ship, s`route, s`colony, s`demand, s`scratch, s`books);
  }

  // ----- cancelling -----

  lemma EscrowCloses(fs: seq<Facility>, i: nat, stranded: map<(nat, nat), int>, stranded': map<(nat, nat), int>,
                     before: seq<Move>, after: seq<Move>, to: Account, returned: ResourceMap)
    requires i < |fs| && EscrowBalance(fs, stranded, before) && !to.Escrow?
    requires Posted(before, after, Escrow(fs[i].id), to, returned)
    requires forall id: nat, r: nat :: Stranded(stranded', id, r) ==
               Stranded(stranded, id, r) + (if id == fs[i].id then EscrowQty(fs[i], r) - Qty(returned, r) else 0)
    ensures EscrowBalance(fs[..i] + fs[i + 1..], stranded', after)
  {
    hide Sum, Net, Stranded;
    FacilityRemoved(fs, i);
    forall id: nat, r: nat
      ensures Net(after, Escrow(id), r) == Sum(fs[..i] + fs[i + 1..], HeldFor(id, r)) + Stranded(stranded', id, r)
    {
      assert Net(before, Escrow(id), r) == Sum(fs, HeldFor(id, r)) + Stranded(stranded, id, r);
    }
  }

  /** A cancelled job's crew goes into transit to Reserve, so nobody is lost with the slot. */
  lemma RemovalKeepsWorkforce(cat: Catalog, planets: seq<Planet>, fs: seq<Facility>, ts: seq<Transfer>, nextId: nat,
                              i: nat, t: Transfer)
    requires WorkforceOk(cat, planets, fs, ts, nextId) && i < |fs| && 0 < nextId
    requires t.planet == fs[i].planet && t.to == 0 && t.count == fs[i].staff + JobCrew(fs[i])
    ensures WorkforceOk(cat, planets, fs[..i] + fs[i + 1..], ts + [t], nextId + 1)
    ensures t.count == 0 ==> WorkforceOk(cat, planets, fs[..i] + fs[i + 1..], ts, nextId)
  {
    hide Sum, FacilityOk;
    var rest := fs[..i] + fs[i + 1..];
    FacilityRemoved(fs, i);
    TransferAppended(ts, t);
    RestOfFacilities(cat, fs, |planets|, nextId, i);
    assert 0 <= t.count by {
      assert FacilityOk(cat, fs[i], |planets|);
      HoldsNobodyNegative(cat, fs[i], |planets|);
    }
    forall p | 0 <= p < |planets|
      ensures 0 <= planets[p].crew && planets[p].workers <= planets[p].population
      ensures ReserveOf(planets[p], rest, ts + [t], p) == ReserveOf(planets[p], fs, ts, p) >= 0
      ensures t.count == 0 ==> ReserveOf(planets[p], rest, ts, p) >= 0
    {
      assert 0 <= ReserveOf(planets[p], fs, ts, p);
    }
    forall j | 0 <= j < |rest|
      ensures rest[j].kind < |cat.facilities| && rest[j].recipe < |cat.facilities[rest[j].kind].recipes|
      ensures StaffFits(cat, rest[j], ts) && StaffFits(cat, rest[j], ts + [t])
    {
      var k := if j < i then j else j + 1;
      assert rest[j] == fs[k] && StaffFits(cat, fs[k], ts) && fs[k].id != 0;
    }
    assert SlotsOk(cat, rest, planets);
  }

  lemma HoldsNobodyNegative(cat: Catalog, f: Facility, planets: nat)
    requires FacilityOk(cat, f, planets)
    ensures 0 <= f.staff + JobCrew(f)
  {
  }

  lemma RestOfFacilities(cat: Catalog, fs: seq<Facility>, planets: nat, nextId: nat, i: nat)
    requires FacilitiesOk(cat, fs, planets, nextId) && i < |fs|
    ensures FacilitiesOk(cat, fs[..i] + fs[i + 1..], planets, nextId + 1)
    ensures FacilitiesOk(cat, fs[..i] + fs[i + 1..], planets, nextId)
  {
    hide FacilityOk;
    var rest := fs[..i] + fs[i + 1..];
    forall j | 0 <= j < |rest| ensures 0 < rest[j].id < nextId && FacilityOk(cat, rest[j], planets) {
      assert rest[j] == fs[if j < i then j else j + 1];
    }
    forall j, k | 0 <= j < k < |rest| ensures rest[j].id < rest[k].id {
      assert rest[j] == fs[if j < i then j else j + 1] && rest[k] == fs[if k < i then k else k + 1];
    }
  }

  function Without(fs: seq<Facility>, id: nat): seq<Facility> {
    if fs == [] then []
    else Without(fs[..|fs| - 1], id) + (if fs[|fs| - 1].id == id then [] else [fs[|fs| - 1]])
  }

  lemma {:induction false} WithoutNone(fs: seq<Facility>, id: nat)
    requires forall j | 0 <= j < |fs| :: fs[j].id != id
    ensures Without(fs, id) == fs
  {
    if fs != [] {
      WithoutNone(fs[..|fs| - 1], id);
    }
  }

  lemma {:induction false} WithoutIs(fs: seq<Facility>, i: nat)
    requires SortedById(fs) && i < |fs|
    ensures Without(fs, fs[i].id) == fs[..i] + fs[i + 1..]
  {
    var m := |fs| - 1;
    if i == m {
      WithoutNone(fs[..m], fs[i].id);
    } else {
      WithoutIs(fs[..m], i);
      assert fs[..m][..i] + fs[..m][i + 1..] + [fs[m]] == fs[..i] + fs[i + 1..];
    }
  }

  /** What was refunded resource by resource, and what the full store kept out. */
  ghost function Refund(escrow: ResourceMap, stock: Inventory): ResourceMap
    requires forall r | r in escrow :: r < |stock.onHand|
  {
    map r | r in escrow :: Min(escrow[r], stock.Room(r))
  }

  ghost function Strand(stranded: map<(nat, nat), int>, id: nat, escrow: ResourceMap, returned: ResourceMap): map<(nat,
                        nat), int>
    requires returned.Keys == escrow.Keys
  {
    stranded + map r | r in escrow :: (id, r) := Stranded(stranded, id, r) + escrow[r] - returned[r]
  }

  lemma StrandAdds(stranded: map<(nat, nat), int>, id: nat, escrow: ResourceMap, returned: ResourceMap)
    requires returned.Keys == escrow.Keys
    ensures forall id': nat, r: nat :: Stranded(Strand(stranded, id, escrow, returned), id', r) ==
              Stranded(stranded, id', r) + (if id' == id then Qty(escrow, r) - Qty(returned, r) else 0)
  {
  }

  /** The refund takes no space that is promised to an inbound shipment. */
  ghost predicate RefundFree(planets: seq<Planet>, f: Facility) {
    f.planet < |planets| && f.job.Some? && forall r | r in f.job.value.escrow ::
      r < |planets[f.planet].stock.onHand|
      && Min(f.job.value.escrow[r], planets[f.planet].stock.Room(r)) <= planets[f.planet].stock.FreeSpace(r)
  }

  /** The job exists, is under construction, and its refund fits beside what is already promised. */
  ghost predicate CancelAllowed(planets: seq<Planet>, fs: seq<Facility>, id: nat) {
    var f := Lookup(fs, id);
    f.Some? && f.value.job.Some? && RefundFree(planets, f.value)
  }

  function CrewHome(f: Facility, nextId: nat, day: int): seq<Transfer> {
    if JobCrew(f) > 0 then [Transfer(nextId, f.planet, f.id, 0, JobCrew(f), day + 1)] else []
  }

  /** The overbooking check every command ends with. */
  method StoresBooked(planets: seq<Planet>, n: nat) returns (fine: bool)
    requires StockOk(planets, n)
    ensures fine <==> BookedOk(planets)
  {
    hide Sum;
    for p := 0 to |planets|
      invariant forall q | 0 <= q < p :: planets[q].stock.Booked()
    {
      assert planets[p].stock.Sound(n);
      for r := 0 to n
        invariant forall k: nat | k < r ::
                  planets[p].stock.onHand[k] + planets[p].stock.Claimed(k) <= planets[p].stock.capacity
      {
        if planets[p].stock.onHand[r] + planets[p].stock.Claimed(r) > planets[p].stock.capacity {
          assert !planets[p].stock.Booked();
          return false;
        }
      }
    }
    return true;
  }

  lemma JobEscrow(cat: Catalog, fs: seq<Facility>, planets: seq<Planet>, nextId: nat, i: nat)
    requires FacilitiesOk(cat, fs, |planets|, nextId) && i < |fs| && fs[i].job.Some? && StockOk(planets, cat.resources)
    ensures fs[i].planet < |planets| && fs[i].id < nextId && fs[i].staff == 0 && 0 <= JobCrew(fs[i])
    ensures |planets[fs[i].planet].stock.onHand| == cat.resources
    ensures forall r | r in fs[i].job.value.escrow :: r < cat.resources && 0 <= fs[i].job.value.escrow[r]
  {
    assert FacilityOk(cat, fs[i], |planets|);
    assert planets[fs[i].planet].stock.Sound(cat.resources);
    var j := fs[i].job.value;
    forall r | r in j.escrow ensures r < cat.resources && 0 <= j.escrow[r] {
      assert Qty(j.escrow, r) == j.escrow[r] && r in j.cost;
    }
  }

  /** The state after a job has been cancelled: its materials are refunded as far as the store has
      room, its crew is on the way to Reserve and its slot is free. */
  ghost predicate CancelStep(cat: Catalog, w: World, w': World, id: nat) {
    && CancelAllowed(w.planets, w.facilities, id)
    && var f := Lookup(w.facilities, id).value;
    && var escrow, refund := f.job.value.escrow, Refund(f.job.value.escrow, w.planets[f.planet].stock);
    && w' == w.(facilities := Without(w.facilities, id),
                transfers := w.transfers + CrewHome(f, w.nextId, w.day),
                nextId := w.nextId + |CrewHome(f, w.nextId, w.day)|,
                books := w.books.(stranded := Strand(w.books.stranded, id, escrow, refund)),
                planets := w'.planets, ledger := w'.ledger, recorded := w'.recorded)
    && Credited(w.planets, w'.planets, f.planet, refund)
    && Posted(w.recorded, w'.recorded, Escrow(id), PlanetStock(f.planet), refund)
    && LedgerOk(w'.ledger, w'.recorded, |w'.planets|, w'.nextId)
  }

  lemma CancelKeepsInv(cat: Catalog, w: World, w': World, id: nat, d: int)
    requires InvAt(cat, w, d, d) && CancelStep(cat, w, w', id)
    ensures InvAt(cat, w', d, d)
  {
    hide Sum, Net, FacilityOk, EscrowBalance, StockOk, LedgerOk, PlanetsBalance, ShipBalance, ExpeditionBalance, Posted,
         Credited, Lookup, ColonyOk, PeopleOk, BookedOk, ClaimsOk, ShipOk, DemandOk, ValidCatalog, TankOk, ShippedOk,
         TransfersOk, StaffOk, WorkersOk, SlotsOk, Stranded, Strand, Without;
    var i := LookupIndex(w.facilities, id);
    var f := w.facilities[i];
    JobEscrow(cat, w.facilities, w.planets, w.nextId, i);
    var refund := Refund(f.job.value.escrow, w.planets[f.planet].stock);
    CreditKeepsStores(cat, w, w', f.planet, refund, Escrow(id));
    StrandAdds(w.books.stranded, id, f.job.value.escrow, refund);
    EscrowCloses(w.facilities, i, w.books.stranded, w'.books.stranded, w.recorded, w'.recorded, PlanetStock(f.planet),
        refund);
    WithoutIs(w.facilities, i);
    PostedElsewhere(w.recorded, w'.recorded, Escrow(id), PlanetStock(f.planet), refund, w, cat.fuel);
    RemovalKeepsWorkforce(cat, w.planets, w.facilities, w.transfers, w.nextId, i,
        Transfer(w.nextId, f.planet, id, 0, JobCrew(f), w.day + 1));
    assert w.transfers + [] == w.transfers;
    CreditedMoves(w.planets, w'.planets, f.planet, refund);
    StockMovesNobody(cat, w.planets, w'.planets, w', d);
  }

  lemma CancelAllowedIs(planets: seq<Planet>, fs: seq<Facility>, i: nat)
    requires SortedById(fs) && i < |fs| && fs[i].job.Some? && fs[i].planet < |planets|
    requires forall r | r in fs[i].job.value.escrow :: r < |planets[fs[i].planet].stock.onHand|
    ensures CancelAllowed(planets, fs, fs[i].id) <==> forall r | r in fs[i].job.value.escrow ::
              Min(fs[i].job.value.escrow[r],
                  planets[fs[i].planet].stock.Room(r)) <= planets[fs[i].planet].stock.FreeSpace(r)
  {
    LookupFinds(fs, i);
  }

  /** The handler itself: refund, send the crew home, free the slot. */
  method Dismantle(s: Session, i: nat)
    requires s.Stores() && FacilitiesOk(s.cat, s.facilities, |s.planets|, s.nextId) && BookedOk(s.planets)
    requires i < |s.facilities| && s.facilities[i].job.Some?
    modifies s`planets, s`facilities, s`transfers, s`nextId, s`ledger, s`recorded, s`books
    ensures StockOk(s.planets, s.cat.resources)
    ensures BookedOk(s.planets) <==> old(CancelAllowed(s.planets, s.facilities, s.facilities[i].id))
    ensures BookedOk(s.planets) ==> CancelStep(s.cat, old(s.Now()), s.Now(), old(s.facilities[i].id))
  {
    hide Sum, Net, FacilityOk, StockOk, LedgerOk, PlanetsBalance, Posted, Credited, OnHand, Lookup, BookedOk,
         ValidCatalog, Stranded, Strand, Without, CancelAllowed, RefundFree;
    var f := s.facilities[i];
    var job := f.job.value;
    JobEscrow(s.cat, s.facilities, s.planets, s.nextId, i);
    CancelAllowedIs(s.planets, s.facilities, i);
    LookupFinds(s.facilities, i);
    WithoutIs(s.facilities, i);
    ghost var stock := s.planets[f.planet].stock;
    var returned := CreditAll(s, f.planet, job.escrow, Escrow(f.id));
    assert returned == Refund(job.escrow, stock);
    s.books := s.books.(stranded := Strand(s.books.stranded, f.id, job.escrow, returned));
    RangeGrows(s.ledger, s.recorded, |s.planets|, s.nextId, s.nextId + 1);
    if job.crew > 0 {
      s.transfers := s.transfers + [Transfer(s.nextId, f.planet, f.id, 0, job.crew, s.day + 1)];
      s.nextId := s.nextId + 1;
    }
    s.facilities := s.facilities[..i] + s.facilities[i + 1..];
    assert unchanged(s`day, s`ship, s`route, s`colony, s`demand, s`scratch);
  }

  /** Only unconsumed escrow comes back, and only as much as the store has room for; when the refund
      would take promised space the invariant check puts the whole state back. */
  method CancelConstruction(s: Session, id: nat) returns (accepted: bool)
    requires s.Stores() && FacilitiesOk(s.cat, s.facilities, |s.planets|, s.nextId) && BookedOk(s.planets)
    modifies s`planets, s`facilities, s`transfers, s`nextId, s`ledger, s`recorded, s`books
    ensures accepted <==> old(CancelAllowed(s.planets, s.facilities, id))
    ensures if accepted then CancelStep(s.cat, old(s.Now()), s.Now(), id) else s.Now() == old(s.Now())
  {
    hide Sum, FacilityOk, StockOk, LedgerOk, PlanetsBalance, ValidCatalog, CancelStep, RefundFree, Lookup, BookedOk;
    var found := FindFacility(s.facilities, id);
    if found.None? || s.facilities[found.value].job.None? {
      return false;
    }
    var planets, facilities, transfers, nextId, ledger := s.planets, s.facilities, s.transfers, s.nextId, s.ledger;
    ghost var before := s.Now();
    Dismantle(s, found.value);
    accepted := StoresBooked(s.planets, s.cat.resources);
    if !accepted {
      s.planets, s.facilities, s.transfers, s.nextId, s.ledger := planets, facilities, transfers, nextId, ledger;
      s.recorded, s.books := before.recorded, before.books;
    }
    assert unchanged(s`day, s`ship, s`route, s`colony, s`demand, s`scratch);
  }

  // ----- a day's work on one job -----

  /** How much of a cost the work done so far has used up, rounded down. */
  function Used(j: Job, r: nat): int {
    if j.workTotal > 0 then FloorOf(Qty(j.cost, r), j.workDone, j.workTotal) else Qty(j.cost, r)
  }

  lemma UsedBounds(j: Job, r: nat)
    requires 0 <= j.workDone <= j.workTotal && 0 <= Qty(j.cost, r)
    ensures 0 <= Used(j, r) <= Qty(j.cost, r)
    ensures j.workDone == j.workTotal ==> Used(j, r) == Qty(j.cost, r)
  {
    if j.workTotal > 0 {
      hide FloorOf;
      FloorOfNat(Qty(j.cost, r), j.workDone, j.workTotal);
      FloorAtLeast(Qty(j.cost, r), j.workDone, j.workTotal, 0);
      FloorAtLeast(Qty(j.cost, r), j.workDone, j.workTotal, Qty(j.cost, r));
      FloorAtLeast(Qty(j.cost, r), j.workDone, j.workTotal, Qty(j.cost, r) + 1);
      MulMonotone(j.workDone, j.workTotal, Qty(j.cost, r));
    }
  }

  lemma UsedGrows(j: Job, done: int, r: nat)
    requires 0 <= j.workDone <= done <= j.workTotal && 0 <= Qty(j.cost, r)
    ensures Used(j, r) <= Used(j.(workDone := done), r)
  {
    if j.workTotal > 0 {
      FloorMonotone(Qty(j.cost, r), j.workDone, done, j.workTotal);
    }
  }

  /** What is listed as consumed once consumption has caught up for the resources below k. */
  ghost function ConsumedKeys(j: Job, k: nat): set<nat> {
    j.consumed.Keys + set r | r in j.cost && r < k && Used(j, r) > Qty(j.consumed, r)
  }

  /** The job once consumption has caught up with its work. */
  ghost predicate Worked(j: Job, j': Job, n: nat) {
    && j' == j.(escrow := j'.escrow, consumed := j'.consumed)
    && (forall r: nat :: Qty(j'.consumed, r) == Used(j', r) && Qty(j'.escrow, r) == Qty(j.cost, r) - Used(j', r))
    && j'.escrow.Keys == j.escrow.Keys && j'.consumed.Keys == ConsumedKeys(j, n)
  }

  /** What reaching a given amount of work takes out of escrow. */
  ghost function SpentBy(j: Job, done: int): ResourceMap {
    map r | r in j.cost :: Used(j.(workDone := done), r) - Qty(j.consumed, r)
  }

  /** Takes one resource's consumption up to its target, never taking more than is held. */
  method ConsumeUpTo(s: Session, id: nat, j: Job, r: nat, target: int) returns (j': Job, delta: int)
    requires LedgerOk(s.ledger, s.recorded, |s.planets|, s.nextId) && id < s.nextId
    modifies s`ledger, s`recorded
    ensures LedgerOk(s.ledger, s.recorded, |s.planets|, s.nextId)
    ensures Posted(old(s.recorded), s.recorded, Escrow(id), SinkConstruction, Single(r, delta))
    ensures j' == j.(escrow := j'.escrow, consumed := j'.consumed)
    ensures target - Qty(j.consumed, r) <= Qty(j.escrow, r) ==>
              j'.escrow.Keys == j.escrow.Keys && j'.consumed.Keys == j.consumed.Keys + (if delta > 0 then {r} else {})
    ensures forall k: nat :: Qty(j'.escrow, k) == Qty(j.escrow, k) - (if k == r then delta else 0)
    ensures forall k: nat :: Qty(j'.consumed, k) == Qty(j.consumed, k) + (if k == r then delta else 0)
    ensures delta == (if target <= Qty(j.consumed, r) then 0 else Min(target - Qty(j.consumed, r), Qty(j.escrow, r)))
  {
    hide Sum, Net, LedgerOk, Posted;
    j' := j;
    delta := target - Qty(j.consumed, r);
    if delta > 0 {
      var held := Qty(j.escrow, r);
      if delta > held {
        delta := held;
      }
      j' := j.(escrow := j.escrow[r := held - delta], consumed := j.consumed[r := Qty(j.consumed, r) + delta]);
    } else {
      delta := 0;
    }
    Record(s, r, delta, Escrow(id), SinkConstruction);
  }

  /** Consumption has caught up for every resource below r, and nothing else has changed. */
  ghost predicate SharedUpto(j: Job, j': Job, r: nat) {
    && j' == j.(escrow := j'.escrow, consumed := j'.consumed)
    && (forall k | k in j'.escrow :: k in j.cost)
    && j'.escrow.Keys == j.escrow.Keys && j'.consumed.Keys == ConsumedKeys(j, r)
    && (forall k: nat :: Qty(j'.escrow, k) + Qty(j'.consumed, k) == Qty(j.cost, k))
    && (forall k: nat :: Qty(j'.consumed, k) == if k < r && k in j.cost then Used(j, k) else Qty(j.consumed, k))
  }

  /** The escrow held always covers the next share, so the clamp changes nothing. */
  lemma SharedNext(j: Job, was: Job, now: Job, r: nat, delta: int)
    requires SharedUpto(j, was, r) && r in j.cost && 0 <= Qty(j.cost, r)
    requires 0 <= j.workDone <= j.workTotal && 0 <= Qty(j.consumed, r) <= Used(j, r)
    requires now == was.(escrow := now.escrow, consumed := now.consumed)
    requires Used(j, r) - Qty(was.consumed, r) <= Qty(was.escrow, r) ==>
               now.escrow.Keys == was.escrow.Keys
                   && now.consumed.Keys == was.consumed.Keys + (if delta > 0 then {r} else {})
    requires forall k: nat :: Qty(now.escrow, k) == Qty(was.escrow, k) - (if k == r then delta else 0)
    requires forall k: nat :: Qty(now.consumed, k) == Qty(was.consumed, k) + (if k == r then delta else 0)
    requires delta == (if Used(j, r) <= Qty(was.consumed, r) then 0 else Min(Used(j, r) - Qty(was.consumed, r),
             Qty(was.escrow, r)))
    ensures SharedUpto(j, now, r + 1) && delta == Used(j, r) - Qty(j.consumed, r)
  {
    hide Used;
    UsedBounds(j, r);
  }

  lemma SharedAll(j: Job, j': Job, n: nat)
    requires SharedUpto(j, j', n) && forall k | k in j.cost :: k < n
    requires 0 <= j.workDone <= j.workTotal
    requires forall r: nat :: 0 <= Qty(j.cost, r) && 0 <= Qty(j.consumed, r) <= Used(j, r)
    ensures Worked(j, j', n)
  {
    hide Used;
    forall r: nat ensures Qty(j'.consumed, r) == Used(j', r) && Qty(j'.escrow, r) == Qty(j.cost, r) - Used(j', r) {
      UsedBounds(j, r);
      UsedSame(j, j', r);
    }
  }

  /** Consumes escrow up to the share matching the cumulative work. The clamp to what is held is the
      kernel's; it never bites. */
  method ConsumeShare(s: Session, id: nat, j: Job) returns (j': Job)
    requires LedgerOk(s.ledger, s.recorded, |s.planets|, s.nextId) && id < s.nextId
    requires 0 <= j.workDone <= j.workTotal && Positive(j.cost, s.cat.resources)
    requires SharedUpto(j, j, 0) && forall r: nat :: 0 <= Qty(j.consumed, r) <= Used(j, r)
    modifies s`ledger, s`recorded
    ensures LedgerOk(s.ledger, s.recorded, |s.planets|, s.nextId)
    ensures Worked(j, j', s.cat.resources) && forall r | r in j'.escrow :: r in j.cost
    ensures Posted(old(s.recorded), s.recorded, Escrow(id), SinkConstruction, SpentBy(j, j.workDone))
  {
    hide Sum, Net, LedgerOk, Used, Posted, SharedUpto, Worked;
    ghost var moves, spent := s.recorded, SpentBy(j, j.workDone);
    j' := j;
    PostedNothing(moves, Escrow(id), SinkConstruction, Upto(spent, 0));
    for r := 0 to s.cat.resources
      invariant LedgerOk(s.ledger, s.recorded, |s.planets|, s.nextId)
      invariant SharedUpto(j, j', r)
      invariant Posted(moves, s.recorded, Escrow(id), SinkConstruction, Upto(spent, r))
    {
      if r in j.cost {
        ghost var entries, was := s.recorded, j';
        var delta;
        j', delta := ConsumeUpTo(s, id, j', r, Used(j, r));
        SharedNext(j, was, j', r, delta);
        PostedThen(moves, entries, s.recorded, Escrow(id), SinkConstruction, Upto(spent, r), Single(r, delta),
            Upto(spent, r + 1));
      } else {
        SharedSkip(j, j', r);
        assert Upto(spent, r + 1) == Upto(spent, r);
      }
    }
    UptoAll(spent, s.cat.resources);
    SharedAll(j, j', s.cat.resources);
    assert SharedUpto(j, j', s.cat.resources);
    SharedKeys(j, j', s.cat.resources);
  }

  lemma SharedSkip(j: Job, j': Job, r: nat)
    requires SharedUpto(j, j', r) && r !in j.cost
    ensures SharedUpto(j, j', r + 1)
  {
  }

  lemma SharedKeys(j: Job, j': Job, r: nat)
    requires SharedUpto(j, j', r)
    ensures forall k | k in j'.escrow :: k in j.cost
  {
  }

  lemma UsedSame(j: Job, j': Job, r: nat)
    requires j' == j.(escrow := j'.escrow, consumed := j'.consumed)
    ensures Used(j, r) == Used(j', r)
  {
  }

  /** The day's power for a crew, the most the pool allows. */
  function PowerGrant(cat: Catalog, j: Job, pool: int): int {
    Min(pool, j.crew * cat.rules.powerPerWorker)
  }

  /** Crew effort scaled by health, fatigue and power in turn, each rounded down, capped at what is left. */
  function WorkToday(cat: Catalog, j: Job, health: int, fatigue: int, pool: int): int {
    var effective := FloorOf(FloorOf(j.crew * MILLI_ONE, health, BP_ONE), fatigue, BP_ONE);
    var request := j.crew * cat.rules.powerPerWorker;
    var ratio := if request > 0 then FulfilmentBp(PowerGrant(cat, j, pool), request) else BP_ONE;
    Min(FloorOf(effective, ratio, BP_ONE), j.workTotal - j.workDone)
  }

  lemma WorkTodayIsNat(cat: Catalog, j: Job, health: int, fatigue: int, pool: int)
    requires 0 <= j.crew && 0 <= health && 0 <= fatigue && 0 <= j.workDone <= j.workTotal
    ensures 0 <= WorkToday(cat, j, health, fatigue, pool) <= j.workTotal - j.workDone
  {
    hide FloorOf, FulfilmentBp;
    FloorOfNat(j.crew * MILLI_ONE, health, BP_ONE);
    var effort := FloorOf(j.crew * MILLI_ONE, health, BP_ONE);
    FloorOfNat(effort, fatigue, BP_ONE);
    var effective := FloorOf(effort, fatigue, BP_ONE);
    var request := j.crew * cat.rules.powerPerWorker;
    FulfilmentFull(PowerGrant(cat, j, pool), request);
    FloorOfNat(effective, FulfilmentBp(PowerGrant(cat, j, pool), request), BP_ONE);
    FloorOfNat(effective, BP_ONE, BP_ONE);
  }

  /** The job with the day counted and the work added, before consumption catches up. */
  function Counted(cat: Catalog, j: Job, health: int, fatigue: int, pool: int): Job {
    if j.crew <= 0 then j.(daysElapsed := j.daysElapsed + 1)
    else j.(daysElapsed := j.daysElapsed + 1, workDone := j.workDone + WorkToday(cat, j, health, fatigue, pool))
  }

  predicate Finished(cat: Catalog, f: Facility, j: Job)
    requires f.kind < |cat.facilities|
  {
    j.crew > 0 && j.workDone >= j.workTotal && j.daysElapsed >= Max(cat.facilities[f.kind].minBuildDays,
        cat.rules.minBuildDays)
  }

  /** One day's work on one job: power is drawn, work is done, escrow is consumed to match, and a
      finished job becomes a facility that opens tomorrow with its crew on the way home. */
  ghost predicate AdvanceStep(cat: Catalog, w: World, w': World, i: nat, health: int, fatigue: int) {
    && i < |w.facilities| && w.facilities[i].job.Some? && w.facilities[i].kind < |cat.facilities|
    && w.facilities[i].planet < |w.scratch|
    && var f := w.facilities[i];
    && var j, day := f.job.value, w.scratch[f.planet];
    && var j1 := Counted(cat, j, health, fatigue, day.pool);
    && (if j.crew <= 0 then
          w' == w.(facilities := w.facilities[i := f.(job := Some(j1))])
        else
          && var grant := PowerGrant(cat, j, day.pool);
          && var scratch' := w.scratch[f.planet := day.(pool := day.pool - grant, building := day.building + grant)];
          && Posted(w.recorded, w'.recorded, Escrow(f.id), SinkConstruction, SpentBy(j, j1.workDone))
          && LedgerOk(w'.ledger, w'.recorded, |w'.planets|, w'.nextId)
          && (if Finished(cat, f, j1) then
                w' == w.(scratch := scratch', ledger := w'.ledger, recorded := w'.recorded,
                         facilities := w.facilities[i := f.(job := None, life := Commissioning, activates := w.day + 1,
                             staff := 0,
                                                            awaited := Sum(w.transfers, IncomingTo(f.id)))],
                         transfers := w.transfers + CrewHome(f, w.nextId, w.day), nextId := w.nextId + 1)
              else
                && |w'.facilities| == |w.facilities| && w'.facilities[i].job.Some?
                && Worked(j1, w'.facilities[i].job.value, cat.resources)
                && (forall r | r in w'.facilities[i].job.value.escrow :: r in j.cost)
                && w' == w.(scratch := scratch', ledger := w'.ledger, recorded := w'.recorded,
                            facilities := w.facilities[i := f.(job := w'.facilities[i].job)])))
  }

  method AdvanceJob(s: Session, i: nat, health: int, fatigue: int)
    requires s.Stores() && FacilitiesOk(s.cat, s.facilities, |s.planets|, s.nextId)
    requires |s.scratch| == |s.planets| && 0 <= health && 0 <= fatigue
    requires i < |s.facilities| && s.facilities[i].job.Some?
    modifies s`facilities, s`transfers, s`nextId, s`scratch, s`ledger, s`recorded
    ensures AdvanceStep(s.cat, old(s.Now()), s.Now(), i, health, fatigue)
  {
    hide Sum, Net, LedgerOk, PlanetsBalance, StockOk, ValidCatalog, Posted, WorkToday, SpentBy, FacilityOk, Worked,
         JobOk, Used, SharedUpto, Positive, PowerGrant;
    var f := s.facilities[i];
    var j := f.job.value;
    JobFacts(s.cat, s.facilities, |s.planets|, s.nextId, i);
    if j.crew <= 0 {
      s.facilities := s.facilities[i := f.(job := Some(j.(daysElapsed := j.daysElapsed + 1)))];
      return;
    }
    var day := s.scratch[f.planet];
    var grant := PowerGrant(s.cat, j, day.pool);
    s.scratch := s.scratch[f.planet := day.(pool := day.pool - grant, building := day.building + grant)];
    var j1 := Counted(s.cat, j, health, fatigue, day.pool);
    WorkTodayIsNat(s.cat, j, health, fatigue, day.pool);
    ShareIsDue(s.cat, j, j1);
    var j2 := ConsumeShare(s, f.id, j1);
    if Finished(s.cat, f, j1) {
      RangeGrows(s.ledger, s.recorded, |s.planets|, s.nextId, s.nextId + 1);
      var awaited := Incoming(s.transfers, f.id);
      s.facilities := s.facilities[i := f.(job := None, life := Commissioning, activates := s.day + 1, staff := 0,
          awaited := awaited)];
      s.transfers := s.transfers + [Transfer(s.nextId, f.planet, f.id, 0, j.crew, s.day + 1)];
      s.nextId := s.nextId + 1;
    } else {
      s.facilities := s.facilities[i := f.(job := Some(j2))];
    }
    assert unchanged(s`day, s`planets, s`ship, s`route, s`colony, s`demand, s`books);
  }

  lemma JobFacts(cat: Catalog, fs: seq<Facility>, planets: nat, nextId: nat, i: nat)
    requires FacilitiesOk(cat, fs, planets, nextId) && i < |fs| && fs[i].job.Some?
    ensures fs[i].planet < planets && fs[i].kind < |cat.facilities| && fs[i].id < nextId && JobOk(cat, fs[i].job.value)
    ensures var j := fs[i].job.value; 0 <= j.crew && 0 <= j.workDone <= j.workTotal
  {
    assert FacilityOk(cat, fs[i], planets);
  }

  lemma ShareIsDue(cat: Catalog, j: Job, j1: Job)
    requires JobOk(cat, j) && j.workDone <= j1.workDone <= j.workTotal
    requires j1 == j.(daysElapsed := j1.daysElapsed, workDone := j1.workDone)
    ensures forall r: nat :: 0 <= Qty(j1.consumed, r) <= Used(j1, r)
    ensures SpentBy(j, j1.workDone) == SpentBy(j1, j1.workDone)
    ensures SharedUpto(j1, j1, 0) && Positive(j1.cost, cat.resources)
  {
    hide FloorOf;
    forall r: nat ensures 0 <= Qty(j1.consumed, r) <= Used(j1, r) {
      if j.workTotal > 0 {
        UsedGrows(j, j1.workDone, r);
        UsedHere(j, j1, r);
      }
    }
    forall r: nat ensures Used(j.(workDone := j1.workDone), r) == Used(j1.(workDone := j1.workDone), r) {
      UsedHere(j, j1, r);
    }
  }

  lemma UsedHere(j: Job, j1: Job, r: nat)
    requires j1.workTotal == j.workTotal && j1.cost == j.cost
    ensures Used(j.(workDone := j1.workDone), r) == Used(j1, r)
  {
  }

  /** Replacing a facility by a later version of itself, with some of its people put in transit to
      Reserve, keeps every rule except possibly the new version's own staffing limit. */
  lemma ReplacedKeepsWorkforce(cat: Catalog, planets: seq<Planet>, fs: seq<Facility>, ts: seq<Transfer>, nextId: nat,
                               i: nat, f: Facility, t: Transfer)
    requires WorkforceOk(cat, planets, fs, ts, nextId) && i < |fs| && 0 < nextId && FacilityOk(cat, f, |planets|)
    requires f.id == fs[i].id && f.planet == fs[i].planet && f.kind == fs[i].kind && f.recipe == fs[i].recipe
    requires t.planet == f.planet && t.to == 0 && 0 <= t.count == fs[i].staff + JobCrew(fs[i]) - f.staff - JobCrew(f)
    ensures WorkforceOk(cat, planets, fs[i := f], ts + [t], nextId + 1) <==> StaffFits(cat, f, ts)
    ensures t.count == 0 ==> (WorkforceOk(cat, planets, fs[i := f], ts, nextId) <==> StaffFits(cat, f, ts))
  {
    hide Sum, FacilityOk;
    FacilityReplaced(fs, i, f);
    TransferAppended(ts, t);
    var after := fs[i := f];
    forall p | 0 <= p < |planets|
      ensures 0 <= planets[p].crew && planets[p].workers <= planets[p].population
      ensures ReserveOf(planets[p], after, ts + [t], p) == ReserveOf(planets[p], fs, ts, p) >= 0
      ensures t.count == 0 ==> ReserveOf(planets[p], after, ts, p) >= 0
    {
      assert 0 <= ReserveOf(planets[p], fs, ts, p);
    }
    assert FacilitiesOk(cat, after, |planets|, nextId);
    StaffOkAfter(cat, fs, ts, i, f, t, nextId, |planets|);
  }

  lemma StaffOkAfter(cat: Catalog, fs: seq<Facility>, ts: seq<Transfer>, i: nat, f: Facility, t: Transfer, nextId: nat,
                     planets: nat)
    requires StaffOk(cat, fs, ts) && FacilitiesOk(cat, fs, planets, nextId) && i < |fs| && t.to == 0
    requires f.id == fs[i].id && f.kind == fs[i].kind && f.recipe == fs[i].recipe
    ensures StaffOk(cat, fs[i := f], ts + [t]) <==> StaffFits(cat, f, ts)
    ensures StaffOk(cat, fs[i := f], ts) <==> StaffFits(cat, f, ts)
  {
    hide Sum, FacilityOk;
    TransferAppended(ts, t);
    var after := fs[i := f];
    assert after[i] == f && 0 < fs[i].id;
    forall k | 0 <= k < |after|
      ensures after[k].kind < |cat.facilities| && after[k].recipe < |cat.facilities[after[k].kind].recipes|
      ensures StaffFits(cat, after[k], ts + [t]) <==> StaffFits(cat, after[k], ts)
      ensures k != i ==> StaffFits(cat, after[k], ts)
    {
      assert StaffFits(cat, fs[k], ts) && 0 < fs[k].id;
    }
  }

  lemma EscrowSpends(fs: seq<Facility>, i: nat, f: Facility, stranded: map<(nat, nat), int>, before: seq<Move>,
                     after: seq<Move>, m: ResourceMap)
    requires i < |fs| && f.id == fs[i].id && f.planet == fs[i].planet && EscrowBalance(fs, stranded, before)
    requires Posted(before, after, Escrow(f.id), SinkConstruction, m)
    requires forall r: nat :: EscrowQty(f, r) == EscrowQty(fs[i], r) - Qty(m, r)
    ensures EscrowBalance(fs[i := f], stranded, after)
  {
    hide Sum, Net, Stranded;
    FacilityReplaced(fs, i, f);
    forall id: nat, r: nat
      ensures Net(after, Escrow(id), r) == Sum(fs[i := f], HeldFor(id, r)) + Stranded(stranded, id, r)
    {
      assert Net(before, Escrow(id), r) == Sum(fs, HeldFor(id, r)) + Stranded(stranded, id, r);
    }
  }

  /** A worked day takes out of escrow exactly the consumption it adds, all that is left on the last. */
  lemma WorkedDay(cat: Catalog, j: Job, health: int, fatigue: int, pool: int)
    requires JobOk(cat, j) && ValidCatalog(cat) && 0 < j.crew && 0 <= health && 0 <= fatigue
    ensures var j1 := Counted(cat, j, health, fatigue, pool);
            && 0 <= j1.workDone <= j1.workTotal && j1 == j.(daysElapsed := j1.daysElapsed, workDone := j1.workDone)
            && (forall r: nat ::
                Qty(SpentBy(j, j1.workDone), r) == Used(j1, r) - Qty(j.consumed, r)
                && 0 <= Used(j1, r) <= Qty(j.cost, r))
            && (j1.workDone == j1.workTotal ==> forall r: nat :: Used(j1, r) == Qty(j.cost, r))
  {
    hide FloorOf, WorkToday, ValidCatalog;
    var j1 := Counted(cat, j, health, fatigue, pool);
    WorkTodayIsNat(cat, j, health, fatigue, pool);
    forall r: nat
      ensures 0 <= Used(j1, r) <= Qty(j.cost, r) && Used(j.(workDone := j1.workDone), r) == Used(j1, r)
      ensures j1.workDone == j1.workTotal ==> Used(j1, r) == Qty(j.cost, r)
    {
      UsedBounds(j1, r);
      UsedHere(j, j1, r);
    }
  }

  /** A day never asks escrow for more than it holds, so clamping to what is held changes nothing; and once
      the work is done, nothing is left to consume. */
  lemma ClampNeverBites(cat: Catalog, j: Job, health: int, fatigue: int, pool: int, r: nat)
    requires JobOk(cat, j) && ValidCatalog(cat) && 0 < j.crew && 0 <= health && 0 <= fatigue
    ensures var done := Counted(cat, j, health, fatigue, pool).workDone;
            && 0 <= Qty(SpentBy(j, done), r) <= Qty(j.escrow, r)
            && (done == j.workTotal ==> Qty(SpentBy(j, done), r) == Qty(j.escrow, r))
  {
    hide FloorOf, Counted, SpentBy, ValidCatalog;
    var j1 := Counted(cat, j, health, fatigue, pool);
    WorkedDay(cat, j, health, fatigue, pool);
    CountedGrows(cat, j, health, fatigue, pool);
    if j.workTotal > 0 {
      UsedGrows(j, j1.workDone, r);
      UsedHere(j, j1, r);
    }
    assert Qty(j.escrow, r) + Qty(j.consumed, r) == Qty(j.cost, r);
  }

  lemma CountedGrows(cat: Catalog, j: Job, health: int, fatigue: int, pool: int)
    requires JobOk(cat, j) && ValidCatalog(cat) && 0 < j.crew && 0 <= health && 0 <= fatigue
    ensures j.workDone <= Counted(cat, j, health, fatigue, pool).workDone <= j.workTotal
  {
    hide WorkToday, ValidCatalog, FloorOf;
    WorkTodayIsNat(cat, j, health, fatigue, pool);
  }

  lemma WorkedJobOk(cat: Catalog, j: Job, j1: Job, j': Job)
    requires JobOk(cat, j) && j1 == j.(daysElapsed := j1.daysElapsed, workDone := j1.workDone)
    requires 0 <= j1.workDone <= j1.workTotal && Worked(j1, j', cat.resources)
    requires forall r: nat :: 0 <= Used(j1, r) <= Qty(j.cost, r)
    requires forall r | r in j'.escrow :: r in j.cost
    ensures JobOk(cat, j') && j'.crew == j.crew
    ensures forall r: nat :: Qty(j'.escrow, r) == Qty(j.escrow, r) - (Used(j1, r) - Qty(j.consumed, r))
  {
    hide FloorOf;
    forall r: nat ensures Used(j', r) == Used(j1, r) {
      UsedHere(j1, j', r);
    }
  }

  lemma AdvancedFacility(cat: Catalog, w: World, w': World, i: nat, health: int, fatigue: int)
    requires AdvanceStep(cat, w, w', i, health, fatigue)
    requires ValidCatalog(cat) && FacilitiesOk(cat, w.facilities, |w.planets|, w.nextId) && 0 <= health && 0 <= fatigue
    ensures |w'.facilities| == |w.facilities| && w'.facilities == w.facilities[i := w'.facilities[i]]
    ensures FacilityOk(cat, w'.facilities[i], |w.planets|)
    ensures var f, f' := w.facilities[i], w'.facilities[i];
            && f'.id == f.id && f'.planet == f.planet && f'.kind == f.kind && f'.recipe == f.recipe
            && (f.job.value.crew > 0 ==>
                  forall r: nat :: EscrowQty(f', r) == EscrowQty(f,
                      r) - Qty(SpentBy(f.job.value,
                      Counted(cat, f.job.value, health, fatigue, w.scratch[f.planet].pool).workDone), r))
            && (f.job.value.crew <= 0 ==> forall r: nat :: EscrowQty(f', r) == EscrowQty(f, r))
            && (f'.job.None? ==> f'.staff == 0) && (f'.job.Some? ==> f'.staff == f.staff && JobCrew(f') == JobCrew(f))
  {
    hide FloorOf, Posted, LedgerOk, ValidCatalog, SpentBy, Used, Worked, WorkToday;
    var f := w.facilities[i];
    var j := f.job.value;
    assert FacilityOk(cat, f, |w.planets|) && JobOk(cat, j);
    if j.crew > 0 {
      var j1 := Counted(cat, j, health, fatigue, w.scratch[f.planet].pool);
      WorkedDay(cat, j, health, fatigue, w.scratch[f.planet].pool);
      if w'.facilities[i].job.Some? {
        WorkedJobOk(cat, j, j1, w'.facilities[i].job.value);
      }
    }
  }

  /** If today's work finishes the job, no more workers are still on their way to it than its recipe
      employs. */
  ghost predicate OpensStaffed(cat: Catalog, w: World, i: nat, health: int, fatigue: int) {
    && i < |w.facilities| && w.facilities[i].job.Some? && w.facilities[i].planet < |w.scratch|
    && var f := w.facilities[i];
    && f.kind < |cat.facilities| && f.recipe < |cat.facilities[f.kind].recipes|
    && var j := f.job.value;
       j.crew > 0 && Finished(cat, f, Counted(cat, j, health, fatigue, w.scratch[f.planet].pool)) ==>
         Sum(w.transfers, IncomingTo(f.id)) <= FullStaff(cat, f)
  }

  /** A finished job's new facility is within its quota, and promised more than its full staff exactly when too
      many were on their way to it before. */
  lemma OpensWithinQuota(cat: Catalog, w: World, w': World, i: nat, health: int, fatigue: int)
    requires AdvanceStep(cat, w, w', i, health, fatigue) && |w'.facilities| == |w.facilities|
    requires var f, f' := w.facilities[i], w'.facilities[i];
             && f'.id == f.id && f'.kind == f.kind && f'.recipe == f.recipe
                 && f.recipe < |cat.facilities[f.kind].recipes|
             && (f'.job.None? ==> f'.staff == 0)
    ensures StaffFits(cat, w'.facilities[i], w.transfers)
    ensures var f' := w'.facilities[i];
            (f'.job.None? ==> f'.staff + Sum(w.transfers, IncomingTo(f'.id)) <= FullStaff(cat, f'))
                <==> OpensStaffed(cat, w, i, health, fatigue)
  {
    hide Sum, Posted, LedgerOk, Worked, SpentBy, PowerGrant, Counted, Finished;
  }

  /** A day of construction keeps every invariant; but a job finished while more workers were still travelling
      to it than its recipe can employ, and only such a one, is left promised more than its full staff. */
  lemma AdvanceKeepsInv(cat: Catalog, w: World, w': World, i: nat, health: int, fatigue: int, d: int, d': int)
    requires InvAt(cat, w, d, d') && AdvanceStep(cat, w, w', i, health, fatigue) && 0 <= health && 0 <= fatigue
    requires |w.scratch| == |w.planets|
    ensures |w'.facilities| == |w.facilities| && |w'.scratch| == |w.scratch|
    ensures InvAt(cat, w', d, d')
    ensures var f' := w'.facilities[i];
            && f'.kind < |cat.facilities| && f'.recipe < |cat.facilities[f'.kind].recipes|
            && ((f'.job.None? ==> f'.staff + Sum(w.transfers, IncomingTo(f'.id)) <= FullStaff(cat, f'))
                <==> OpensStaffed(cat, w, i, health, fatigue))
  {
    hide Sum, Net, FacilityOk, EscrowBalance, StockOk, LedgerOk, PlanetsBalance, ShipBalance, ExpeditionBalance, Posted,
         Worked, SpentBy, PowerGrant, ColonyOk, PeopleOk, BookedOk, ClaimsOk, ShipOk, DemandOk, ValidCatalog, TankOk,
         ShippedOk, TransfersOk, StaffOk, WorkersOk, SlotsOk, Counted, Finished, OpensStaffed;
    AdvancedFacility(cat, w, w', i, health, fatigue);
    var f, f' := w.facilities[i], w'.facilities[i];
    assert FacilityOk(cat, f, |w.planets|);
    KindExists(cat, f, |w.planets|);
    var j := f.job.value;
    var t := Transfer(w.nextId, f.planet, f.id, 0, f.staff + JobCrew(f) - f'.staff - JobCrew(f'), w.day + 1);
    ReplacedKeepsWorkforce(cat, w.planets, w.facilities, w.transfers, w.nextId, i, f', t);
    OpensWithinQuota(cat, w, w', i, health, fatigue);
    if j.crew <= 0 {
      EscrowUnmoved(w.facilities, i, f', w.books.stranded, w.recorded);
    } else {
      var m := SpentBy(j, Counted(cat, j, health, fatigue, w.scratch[f.planet].pool).workDone);
      EscrowSpends(w.facilities, i, f', w.books.stranded, w.recorded, w'.recorded, m);
      PostedElsewhere(w.recorded, w'.recorded, Escrow(f.id), SinkConstruction, m, w, cat.fuel);
      PostedOffWorld(w.books.opening, w.planets, w.recorded, w'.recorded, Escrow(f.id), SinkConstruction, m);
    }
  }

  lemma KindExists(cat: Catalog, f: Facility, planets: nat)
    requires FacilityOk(cat, f, planets)
    ensures f.kind < |cat.facilities| && f.recipe < |cat.facilities[f.kind].recipes|
            && (f.job.Some? ==> f.staff == 0 && 0 <= JobCrew(f))
  {
  }
}
