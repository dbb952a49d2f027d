/** Workers moving between Reserve, facilities and construction crews. */
module Workforce {
  import opened Sums
  import opened Ledger
  import opened Catalog
  import opened State

  // ----- how totals follow a change to one facility or transfer -----

  /** Replacing one facility changes each total by that facility's own difference. */
  lemma FacilityReplaced(fs: seq<Facility>, i: nat, f: Facility)
    requires i < |fs| && f.id == fs[i].id && f.planet == fs[i].planet
    ensures forall p :: Sum(fs[i := f], StaffOn(p)) ==
              Sum(fs, StaffOn(p)) + (if p == f.planet then f.staff + JobCrew(f) - fs[i].staff - JobCrew(fs[i]) else 0)
    ensures forall p :: Sum(fs[i := f], SlotOn(p)) == Sum(fs, SlotOn(p))
    ensures forall id, r :: Sum(fs[i := f], HeldFor(id, r)) ==
              Sum(fs, HeldFor(id, r)) + (if id == f.id then EscrowQty(f, r) - EscrowQty(fs[i], r) else 0)
  {
    forall p ensures Sum(fs[i := f], StaffOn(p)) ==
              Sum(fs, StaffOn(p)) + (if p == f.planet then f.staff + JobCrew(f) - fs[i].staff - JobCrew(fs[i]) else 0)
    {
      SumUpdate(fs, i, f, StaffOn(p));
    }
    forall p ensures Sum(fs[i := f], SlotOn(p)) == Sum(fs, SlotOn(p)) {
      SumUpdate(fs, i, f, SlotOn(p));
    }
    forall id, r ensures Sum(fs[i := f], HeldFor(id, r)) ==
              Sum(fs, HeldFor(id, r)) + (if id == f.id then EscrowQty(f, r) - EscrowQty(fs[i], r) else 0)
    {
      SumUpdate(fs, i, f, HeldFor(id, r));
    }
  }

  lemma FacilityAppended(fs: seq<Facility>, f: Facility)
    ensures forall p ::
            Sum(fs + [f], StaffOn(p)) == Sum(fs, StaffOn(p)) + (if p == f.planet then f.staff + JobCrew(f) else 0)
    ensures forall p :: Sum(fs + [f], SlotOn(p)) == Sum(fs, SlotOn(p)) + (if p == f.planet then 1 else 0)
    ensures forall id,
            r :: Sum(fs + [f], HeldFor(id, r)) == Sum(fs, HeldFor(id, r)) + (if id == f.id then EscrowQty(f, r) else 0)
  {
    forall p ensures Sum(fs + [f], StaffOn(p)) == Sum(fs, StaffOn(p)) + (if p == f.planet then f.staff + JobCrew(f)
        else 0) {
      SumAppend(fs, f, StaffOn(p));
    }
    forall p ensures Sum(fs + [f], SlotOn(p)) == Sum(fs, SlotOn(p)) + (if p == f.planet then 1 else 0) {
      SumAppend(fs, f, SlotOn(p));
    }
    forall id, r ensures Sum(fs + [f], HeldFor(id, r)) == Sum(fs, HeldFor(id, r)) + (if id == f.id then EscrowQty(f, r)
        else 0) {
      SumAppend(fs, f, HeldFor(id, r));
    }
  }

  lemma FacilityRemoved(fs: seq<Facility>, i: nat)
    requires i < |fs|
    ensures forall p :: Sum(fs[..i] + fs[i + 1..], StaffOn(p)) ==
              Sum(fs, StaffOn(p)) - (if p == fs[i].planet then fs[i].staff + JobCrew(fs[i]) else 0)
    ensures forall p ::
            Sum(fs[..i] + fs[i + 1..], SlotOn(p)) == Sum(fs, SlotOn(p)) - (if p == fs[i].planet then 1 else 0)
    ensures forall id, r :: Sum(fs[..i] + fs[i + 1..], HeldFor(id, r)) ==
              Sum(fs, HeldFor(id, r)) - (if id == fs[i].id then EscrowQty(fs[i], r) else 0)
  {
    var f := fs[i];
    forall p ensures Sum(fs[..i] + fs[i + 1..], StaffOn(p)) ==
              Sum(fs, StaffOn(p)) - (if p == f.planet then f.staff + JobCrew(f) else 0)
    {
      SumRemove(fs, i, StaffOn(p));
    }
    forall p ensures Sum(fs[..i] + fs[i + 1..], SlotOn(p)) == Sum(fs, SlotOn(p)) - (if p == f.planet then 1 else 0) {
      SumRemove(fs, i, SlotOn(p));
    }
    forall id, r ensures Sum(fs[..i] + fs[i + 1..], HeldFor(id, r)) ==
              Sum(fs, HeldFor(id, r)) - (if id == f.id then EscrowQty(f, r) else 0)
    {
      SumRemove(fs, i, HeldFor(id, r));
    }
  }

  lemma TransferAppended(ts: seq<Transfer>, t: Transfer)
    ensures forall p :: Sum(ts + [t], MovingOn(p)) == Sum(ts, MovingOn(p)) + (if p == t.planet then t.count else 0)
    ensures forall id :: Sum(ts + [t], IncomingTo(id)) == Sum(ts, IncomingTo(id)) + (if id == t.to then t.count else 0)
  {
    forall p ensures Sum(ts + [t], MovingOn(p)) == Sum(ts, MovingOn(p)) + (if p == t.planet then t.count else 0) {
      SumAppend(ts, t, MovingOn(p));
    }
    forall id ensures Sum(ts + [t], IncomingTo(id)) == Sum(ts, IncomingTo(id)) + (if id == t.to then t.count else 0) {
      SumAppend(ts, t, IncomingTo(id));
    }
  }

  lemma TransferRemoved(ts: seq<Transfer>, i: nat)
    requires i < |ts|
    ensures forall p ::
            Sum(ts[..i] + ts[i + 1..], MovingOn(p)) == Sum(ts, MovingOn(p)) - (if p == ts[i].planet then ts[i].count
            else 0)
    ensures forall id ::
            Sum(ts[..i] + ts[i + 1..], IncomingTo(id)) == Sum(ts, IncomingTo(id)) - (if id == ts[i].to then ts[i].count
            else 0)
  {
    var t := ts[i];
    forall p ensures Sum(ts[..i] + ts[i + 1..], MovingOn(p)) == Sum(ts, MovingOn(p)) - (if p == t.planet then t.count
        else 0) {
      SumRemove(ts, i, MovingOn(p));
    }
    forall id ensures Sum(ts[..i] + ts[i + 1..], IncomingTo(id)) == Sum(ts, IncomingTo(id)) - (if id == t.to then
        t.count else 0) {
      SumRemove(ts, i, IncomingTo(id));
    }
  }

  // ----- reading -----

  ghost predicate SortedById(fs: seq<Facility>) {
    forall i, j | 0 <= i < j < |fs| :: fs[i].id < fs[j].id
  }

  /** The facility with an id, if there is one. */
  function Lookup(fs: seq<Facility>, id: nat): Option<Facility> {
    if fs == [] then None
    else if fs[|fs| - 1].id == id then Some(fs[|fs| - 1])
    else Lookup(fs[..|fs| - 1], id)
  }

  lemma {:induction false} LookupFinds(fs: seq<Facility>, i: nat)
    requires SortedById(fs) && i < |fs|
    ensures Lookup(fs, fs[i].id) == Some(fs[i])
  {
    if i < |fs| - 1 {
      LookupFinds(fs[..|fs| - 1], i);
    }
  }

  lemma {:induction false} LookupMisses(fs: seq<Facility>, id: nat)
    requires forall i | 0 <= i < |fs| :: fs[i].id != id
    ensures Lookup(fs, id) == None
  {
    if fs != [] {
      LookupMisses(fs[..|fs| - 1], id);
    }
  }

  lemma {:induction false} LookupIndex(fs: seq<Facility>, id: nat) returns (i: nat)
    requires Lookup(fs, id).Some?
    ensures i < |fs| && fs[i] == Lookup(fs, id).value && fs[i].id == id
  {
    if fs[|fs| - 1].id == id {
      i := |fs| - 1;
    } else {
      i := LookupIndex(fs[..|fs| - 1], id);
    }
  }

  /** Binary search over the id-sorted facilities. */
  method FindFacility(fs: seq<Facility>, id: nat) returns (found: Option<nat>)
    requires SortedById(fs)
    ensures found.Some? ==> found.value < |fs| && fs[found.value].id == id
    ensures found.None? ==> forall i | 0 <= i < |fs| :: fs[i].id != id
    ensures Lookup(fs, id) == if found.Some? then Some(fs[found.value]) else None
  {
    var lo, hi := 0, |fs|;
    while lo < hi
      invariant 0 <= lo <= hi <= |fs|
      invariant forall i | 0 <= i < lo :: fs[i].id < id
      invariant forall i | hi <= i < |fs| :: id <= fs[i].id
    {
      var mid := (lo + hi) / 2;
      if fs[mid].id < id {
        lo := mid + 1;
      } else {
        hi := mid;
      }
    }
    if lo == |fs| || fs[lo].id != id {
      LookupMisses(fs, id);
      return None;
    }
    LookupFinds(fs, lo);
    return Some(lo);
  }

  method WorkersReserve(planet: Planet, facilities: seq<Facility>, transfers: seq<Transfer>, p: nat)
                        returns (reserve: int)
    ensures reserve == ReserveOf(planet, facilities, transfers, p)
  {
    var working := 0;
    for i := 0 to |facilities|
      invariant working == Sum(facilities[..i], StaffOn(p))
    {
      var f := facilities[i];
      SumAppend(facilities[..i], f, StaffOn(p));
      assert facilities[..i + 1] == facilities[..i] + [f];
      if f.planet == p {
        working := working + f.staff;
        if f.job.Some? {
          working := working + f.job.value.crew;
        }
      }
    }
    assert facilities[..|facilities|] == facilities;
    var moving := 0;
    for i := 0 to |transfers|
      invariant moving == Sum(transfers[..i], MovingOn(p))
    {
      var t := transfers[i];
      SumAppend(transfers[..i], t, MovingOn(p));
      assert transfers[..i + 1] == transfers[..i] + [t];
      if t.planet == p {
        moving := moving + t.count;
      }
    }
    assert transfers[..|transfers|] == transfers;
    reserve := planet.workers - working - moving - planet.crew;
  }

  method Incoming(transfers: seq<Transfer>, id: nat) returns (total: int)
    ensures total == Sum(transfers, IncomingTo(id))
  {
    total := 0;
    for i := 0 to |transfers|
      invariant total == Sum(transfers[..i], IncomingTo(id))
    {
      SumAppend(transfers[..i], transfers[i], IncomingTo(id));
      assert transfers[..i + 1] == transfers[..i] + [transfers[i]];
      if transfers[i].to == id {
        total := total + transfers[i].count;
      }
    }
    assert transfers[..|transfers|] == transfers;
  }

  // ----- moving workers -----

  /** The workers a job holds now: its crew while under construction, its staff afterwards. */
  function Holding(f: Facility): int {
    if f.job.Some? then f.job.value.crew else f.staff
  }

  function Shift(f: Facility, delta: int): Facility {
    if f.job.Some? then f.(job := Some(f.job.value.(crew := f.job.value.crew + delta)))
    else f.(staff := f.staff + delta)
  }

  function ShiftAt(fs: seq<Facility>, id: nat, delta: int): seq<Facility> {
    seq(|fs|, i requires 0 <= i < |fs| => if fs[i].id == id then Shift(fs[i], delta) else fs[i])
  }

  /** When an assignment is accepted: the source holds the workers now, and the destination, if it
      is a finished facility, stays within its full staff counting everyone already on the way. */
  ghost predicate AssignAllowed(cat: Catalog, planets: seq<Planet>, fs: seq<Facility>, ts: seq<Transfer>,
                                p: nat, from: nat, to: nat, count: int)
  {
    && p < |planets| && 0 < count && from != to
    && (from == 0 ==> count <= ReserveOf(planets[p], fs, ts, p))
    && (from != 0 ==>
          var f := Lookup(fs, from);
          f.Some? && f.value.planet == p && count <= Holding(f.value))
    && (to != 0 ==>
          var f := Lookup(fs, to);
          f.Some? && f.value.planet == p && Accepts(cat, f.value, ts, count))
  }

  ghost predicate Accepts(cat: Catalog, f: Facility, ts: seq<Transfer>, count: int) {
    f.job.None? ==>
      && f.kind < |cat.facilities| && f.recipe < |cat.facilities[f.kind].recipes|
      && f.staff + Sum(ts, IncomingTo(f.id)) + count <= FullStaff(cat, f)
  }

  /** Moving count workers out of one job into transit keeps every workforce rule. */
  lemma ShiftKeepsWorkforce(cat: Catalog, planets: seq<Planet>, fs: seq<Facility>, ts: seq<Transfer>, nextId: nat,
                            i: nat, t: Transfer)
    requires FacilitiesOk(cat, fs, |planets|, nextId) && TransfersOk(ts, fs, nextId) && WorkersOk(planets, fs, ts)
    requires StaffOk(cat, fs, ts) && SlotsOk(cat, fs, planets)
    requires i < |fs| && 0 <= t.count <= Holding(fs[i]) && t.planet == fs[i].planet && t.to < nextId && t.to != fs[i].id
    requires forall j | 0 <= j < |fs| :: fs[j].id == t.to ==> fs[j].planet == t.planet
    requires forall j | 0 <= j < |fs| :: fs[j].id == t.to && fs[j].job.None? ==>
               fs[j].staff + Sum(ts, IncomingTo(t.to)) + t.count <= FullStaff(cat, fs[j])
    ensures var fs' := fs[i := Shift(fs[i], -t.count)];
            && FacilitiesOk(cat, fs', |planets|, nextId + 1) && TransfersOk(ts + [t], fs', nextId + 1)
            && WorkersOk(planets, fs', ts + [t]) && StaffOk(cat, fs', ts + [t]) && SlotsOk(cat, fs', planets)
  {
    hide Sum;
    var f := Shift(fs[i], -t.count);
    FacilityReplaced(fs, i, f);
    TransferAppended(ts, t);
    assert FacilityOk(cat, fs[i], |planets|);
    forall p | 0 <= p < |planets|
      ensures 0 <= planets[p].crew && 0 <= ReserveOf(planets[p], fs[i := f], ts + [t], p)
              && planets[p].workers <= planets[p].population
    {
      assert 0 <= ReserveOf(planets[p], fs, ts, p);
    }
    var after := fs[i := f];
    forall j | 0 <= j < |after| ensures StaffFits(cat, after[j], ts + [t]) {
      assert StaffFits(cat, fs[j], ts) && after[j].id == fs[j].id;
    }
  }

  /** Sending count workers from Reserve into transit keeps every workforce rule. */
  lemma ReserveSendKeepsWorkforce(cat: Catalog, planets: seq<Planet>, fs: seq<Facility>, ts: seq<Transfer>, nextId: nat,
                                  t: Transfer)
    requires FacilitiesOk(cat, fs, |planets|, nextId) && TransfersOk(ts, fs, nextId) && WorkersOk(planets, fs, ts)
    requires StaffOk(cat, fs, ts) && SlotsOk(cat, fs, planets)
    requires t.planet < |planets| && 0 <= t.count <= ReserveOf(planets[t.planet], fs, ts, t.planet) && t.to < nextId
    requires forall j | 0 <= j < |fs| :: fs[j].id == t.to ==> fs[j].planet == t.planet
    requires forall j | 0 <= j < |fs| :: fs[j].id == t.to && fs[j].job.None? ==>
               fs[j].staff + Sum(ts, IncomingTo(t.to)) + t.count <= FullStaff(cat, fs[j])
    ensures && FacilitiesOk(cat, fs, |planets|, nextId + 1) && TransfersOk(ts + [t], fs, nextId + 1)
            && WorkersOk(planets, fs, ts + [t]) && StaffOk(cat, fs, ts + [t])
  {
    hide Sum;
    TransferAppended(ts, t);
    forall p | 0 <= p < |planets|
      ensures 0 <= planets[p].crew && 0 <= ReserveOf(planets[p], fs, ts + [t], p)
              && planets[p].workers <= planets[p].population
    {
      assert 0 <= ReserveOf(planets[p], fs, ts, p);
    }
    forall j | 0 <= j < |fs|
      ensures StaffFits(cat, fs[j], ts + [t])
    {
      assert StaffFits(cat, fs[j], ts);
    }
  }

  lemma RangeGrows(ledger: seq<Move>, recorded: seq<Move>, planets: nat, a: nat, b: nat)
    requires LedgerOk(ledger, recorded, planets, a) && a <= b
    ensures LedgerOk(ledger, recorded, planets, b)
  {
    forall i | 0 <= i < |recorded| ensures InRange(recorded[i].from, planets, b)
        && InRange(recorded[i].to, planets, b) {
      assert InRange(recorded[i].from, planets, a) && InRange(recorded[i].to, planets, a);
    }
  }

  /** A change to staff and crews alone leaves every escrow where it was. */
  lemma EscrowUnmoved(fs: seq<Facility>, i: nat, f: Facility, stranded: map<(nat, nat), int>, recorded: seq<Move>)
    requires i < |fs| && f.id == fs[i].id && f.planet == fs[i].planet
             && forall r: nat :: EscrowQty(f, r) == EscrowQty(fs[i], r)
    requires EscrowBalance(fs, stranded, recorded)
    ensures EscrowBalance(fs[i := f], stranded, recorded)
  {
    hide Sum, Net;
    FacilityReplaced(fs, i, f);
    forall id: nat, r: nat
      ensures Net(recorded, Escrow(id), r) == Sum(fs[i := f], HeldFor(id, r)) + Stranded(stranded, id, r)
    {
      assert Net(recorded, Escrow(id), r) == Sum(fs, HeldFor(id, r)) + Stranded(stranded, id, r);
    }
  }

  lemma ShiftAtIs(fs: seq<Facility>, i: nat, delta: int)
    requires SortedById(fs) && i < |fs|
    ensures ShiftAt(fs, fs[i].id, delta) == fs[i := Shift(fs[i], delta)]
  {
  }

  /** The guard chain of worker assignment. */
  method MayAssign(cat: Catalog, planets: seq<Planet>, fs: seq<Facility>, ts: seq<Transfer>, nextId: nat,
                   p: nat, from: nat, to: nat, count: int) returns (allowed: bool, source: nat)
    requires FacilitiesOk(cat, fs, |planets|, nextId)
    ensures allowed <==> AssignAllowed(cat, planets, fs, ts, p, from, to, count)
    ensures allowed && from != 0 ==> source < |fs| && fs[source].id == from
  {
    hide Sum, Lookup;
    source := 0;
    if p >= |planets| || count <= 0 || from == to {
      return false, 0;
    }
    if from == 0 {
      var reserve := WorkersReserve(planets[p], fs, ts, p);
      if reserve < count {
        return false, 0;
      }
    } else {
      var found := FindFacility(fs, from);
      if found.None? || fs[found.value].planet != p || Holding(fs[found.value]) < count {
        return false, 0;
      }
      source := found.value;
    }
    if to != 0 {
      var target := FindFacility(fs, to);
      if target.None? || fs[target.value].planet != p {
        return false, 0;
      }
      var f := fs[target.value];
      assert FacilityOk(cat, f, |planets|);
      if f.job.None? {
        var incoming := Incoming(ts, to);
        if f.staff + incoming + count > FullStaff(cat, f) {
          return false, 0;
        }
      }
    }
    return true, source;
  }

  function DelayFor(cat: Catalog, from: nat, to: nat): int {
    if from != 0 && to != 0 then cat.rules.jobToJobDays else cat.rules.reserveToJobDays
  }

  /** What an allowed assignment says of its destination, wherever that facility stands in the list. */
  lemma AllowedTarget(cat: Catalog, planets: seq<Planet>, fs: seq<Facility>, ts: seq<Transfer>, nextId: nat,
                      t: Transfer)
    requires FacilitiesOk(cat, fs, |planets|, nextId) && 0 < nextId
    requires AssignAllowed(cat, planets, fs, ts, t.planet, t.from, t.to, t.count)
    ensures t.to < nextId
    ensures forall j | 0 <= j < |fs| :: fs[j].id == t.to ==> fs[j].planet == t.planet
    ensures forall j | 0 <= j < |fs| :: fs[j].id == t.to && fs[j].job.None? ==>
              fs[j].staff + Sum(ts, IncomingTo(t.to)) + t.count <= FullStaff(cat, fs[j])
  {
    hide Sum, ReserveOf, Lookup;
    if t.to != 0 {
      var k := LookupIndex(fs, t.to);
      forall j | 0 <= j < |fs| && fs[j].id == t.to ensures Lookup(fs, t.to) == Some(fs[j]) {
        LookupFinds(fs, j);
      }
    }
  }

  /** Any allowed assignment keeps every workforce rule, wherever the workers come from. */
  lemma AssignKeepsWorkforce(cat: Catalog, planets: seq<Planet>, fs: seq<Facility>, ts: seq<Transfer>, nextId: nat,
                             stranded: map<(nat, nat), int>, recorded: seq<Move>, t: Transfer, fs': seq<Facility>)
    requires FacilitiesOk(cat, fs, |planets|, nextId) && TransfersOk(ts, fs, nextId) && WorkersOk(planets, fs, ts)
    requires StaffOk(cat, fs, ts) && SlotsOk(cat, fs, planets) && EscrowBalance(fs, stranded, recorded) && 0 < nextId
    requires AssignAllowed(cat, planets, fs, ts, t.planet, t.from, t.to, t.count)
    requires fs' == if t.from == 0 then fs else ShiftAt(fs, t.from, -t.count)
    ensures && FacilitiesOk(cat, fs', |planets|, nextId + 1) && TransfersOk(ts + [t], fs', nextId + 1)
            && WorkersOk(planets, fs', ts + [t]) && StaffOk(cat, fs', ts + [t]) && SlotsOk(cat, fs', planets)
            && EscrowBalance(fs', stranded, recorded)
  {
    hide Sum, Net, WorkersOk, SlotsOk, EscrowBalance, StaffOk, TransfersOk, Accepts, FullStaff, FacilityOk, Lookup;
    AllowedTarget(cat, planets, fs, ts, nextId, t);
    if t.from == 0 {
      ReserveSendKeepsWorkforce(cat, planets, fs, ts, nextId, t);
    } else {
      var i := LookupIndex(fs, t.from);
      ShiftAtIs(fs, i, -t.count);
      ShiftKeepsWorkforce(cat, planets, fs, ts, nextId, i, t);
      EscrowUnmoved(fs, i, Shift(fs[i], -t.count), stranded, recorded);
    }
  }

  /** The state after an accepted assignment. */
  ghost predicate AssignStep(cat: Catalog, w: World, w': World, p: nat, from: nat, to: nat, count: int) {
    && AssignAllowed(cat, w.planets, w.facilities, w.transfers, p, from, to, count)
    && w' == w.(nextId := w.nextId + 1,
                facilities := if from == 0 then w.facilities else ShiftAt(w.facilities, from, -count),
                transfers := w.transfers + [Transfer(w.nextId, p, from, to, count, w.day + DelayFor(cat, from, to))])
  }

  lemma AssignKeepsInv(cat: Catalog, w: World, w': World, p: nat, from: nat, to: nat, count: int, d: int, d': int)
    requires InvAt(cat, w, d, d') && AssignStep(cat, w, w', p, from, to, count)
    ensures InvAt(cat, w', d, d')
  {
    hide AssignAllowed, FacilitiesOk, TransfersOk, WorkersOk, StaffOk, SlotsOk, EscrowBalance, StockOk, LedgerOk,
         PlanetsBalance, ValidCatalog, ShipBalance, ExpeditionBalance, ColonyOk, PeopleOk, FreightOk, BookedOk;
    RangeGrows(w.ledger, w.recorded, |w.planets|, w.nextId, w.nextId + 1);
    AssignKeepsWorkforce(cat, w.planets, w.facilities, w.transfers, w.nextId, w.books.stranded, w.recorded,
                         w'.transfers[|w.transfers|], w'.facilities);
    FreighterSame(cat, w, w', d');
  }

  /** The freighter rules read only the ship, its voyages and the worlds' stores. */
  lemma FreighterSame(cat: Catalog, w: World, w': World, day: int)
    requires FreightOk(cat, w, day)
    requires w'.ship == w.ship && w'.books.leftover == w.books.leftover && w'.books.shipped == w.books.shipped
             && w'.planets == w.planets && w'.demand == w.demand
    ensures FreightOk(cat, w', day)
  {
  }

  method AssignWorkers(s: Session, p: nat, from: nat, to: nat, count: int) returns (accepted: bool)
    requires FacilitiesOk(s.cat, s.facilities, |s.planets|, s.nextId)
    modifies s`facilities, s`transfers, s`nextId
    ensures accepted <==> old(AssignAllowed(s.cat, s.planets, s.facilities, s.transfers, p, from, to, count))
    ensures if accepted then AssignStep(s.cat, old(s.Now()), s.Now(), p, from, to, count) else s.Now() == old(s.Now())
  {
    hide AssignAllowed, FacilityOk;
    var source;
    accepted, source := MayAssign(s.cat, s.planets, s.facilities, s.transfers, s.nextId, p, from, to, count);
    if !accepted {
      return;
    }
    var t := Transfer(s.nextId, p, from, to, count, s.day + DelayFor(s.cat, from, to));
    if from != 0 {
      FoundIsTheOne(s.cat, s.facilities, |s.planets|, s.nextId, source, -count);
      s.facilities := s.facilities[source := Shift(s.facilities[source], -count)];
    }
    s.nextId := s.nextId + 1;
    s.transfers := s.transfers + [t];
  }

  lemma FoundIsTheOne(cat: Catalog, fs: seq<Facility>, planets: nat, nextId: nat, i: nat, delta: int)
    requires FacilitiesOk(cat, fs, planets, nextId) && i < |fs|
    ensures ShiftAt(fs, fs[i].id, delta) == fs[i := Shift(fs[i], delta)]
  {
    ShiftAtIs(fs, i, delta);
  }

  // ----- completing transfers -----

  /** The transfers still travelling after the given day. */
  function Waiting(ts: seq<Transfer>, day: int): seq<Transfer> {
    if ts == [] then []
    else
      var t := ts[|ts| - 1];
      Waiting(ts[..|ts| - 1], day) + (if t.ready > day then [t] else [])
  }

  function LandingAt(id: nat, day: int): Transfer -> int {
    (t: Transfer) => if t.ready <= day && t.to == id then t.count else 0
  }

  /** Every facility, with the workers due to reach it by the given day added to its job. */
  function Landed(fs: seq<Facility>, ts: seq<Transfer>, day: int): seq<Facility> {
    seq(|fs|, i requires 0 <= i < |fs| => Shift(fs[i], Sum(ts, LandingAt(fs[i].id, day))))
  }

  lemma WaitingNext(ts: seq<Transfer>, i: nat, day: int)
    requires i < |ts|
    ensures Waiting(ts[..i + 1], day) == Waiting(ts[..i], day) + (if ts[i].ready > day then [ts[i]] else [])
  {
    assert ts[..i + 1][..i] == ts[..i];
  }

  lemma LandedNext(fs: seq<Facility>, ts: seq<Transfer>, i: nat, day: int)
    requires i < |ts|
    ensures var t := ts[i];
            Landed(fs, ts[..i + 1], day) == (if t.ready <= day then ShiftAt(Landed(fs, ts[..i], day), t.to, t.count)
                else Landed(fs, ts[..i], day))
  {
    hide Sum;
    var t := ts[i];
    assert ts[..i + 1] == ts[..i] + [t];
    forall k | 0 <= k < |fs|
      ensures Sum(ts[..i + 1], LandingAt(fs[k].id, day)) ==
                Sum(ts[..i], LandingAt(fs[k].id, day)) + (if t.ready <= day && t.to == fs[k].id then t.count else 0)
    {
      SumAppend(ts[..i], t, LandingAt(fs[k].id, day));
    }
  }

  lemma LandedNothing(fs: seq<Facility>, day: int)
    ensures Landed(fs, [], day) == fs
  {
  }

  lemma ShiftAtMissing(fs: seq<Facility>, id: nat, delta: int)
    requires forall i | 0 <= i < |fs| :: fs[i].id != id
    ensures ShiftAt(fs, id, delta) == fs
  {
  }

  /** A transfer that lands leaves the total commitment of its world unchanged, or frees the workers
      to Reserve when the job it was bound for is gone. */
  lemma LandingKeepsWorkforce(cat: Catalog, planets: seq<Planet>, fs: seq<Facility>, ts: seq<Transfer>, nextId: nat,
                              i: nat, found: Option<nat>)
    requires WorkforceOk(cat, planets, fs, ts, nextId) && i < |ts|
    requires found.None? ==> forall j | 0 <= j < |fs| :: fs[j].id != ts[i].to
    requires found.Some? ==> found.value < |fs| && fs[found.value].id == ts[i].to
    ensures WorkforceOk(cat, planets, ShiftAt(fs, ts[i].to, ts[i].count), ts[..i] + ts[i + 1..], nextId)
  {
    hide Sum;
    var t, rest := ts[i], ts[..i] + ts[i + 1..];
    TransferRemoved(ts, i);
    match found {
      case None =>
        ShiftAtMissing(fs, t.to, t.count);
        LandedStaff(cat, fs, ts, fs, rest, t);
        LandedWorkers(planets, fs, ts, fs, rest, t);
      case Some(j) =>
        ShiftAtIs(fs, j, t.count);
        FacilityReplaced(fs, j, Shift(fs[j], t.count));
        assert FacilityOk(cat, fs[j], |planets|);
        assert fs[j].planet == t.planet;
        LandedStaff(cat, fs, ts, ShiftAt(fs, t.to, t.count), rest, t);
        LandedWorkers(planets, fs, ts, ShiftAt(fs, t.to, t.count), rest, t);
    }
  }

  lemma LandedStaff(cat: Catalog, fs: seq<Facility>, ts: seq<Transfer>, fs': seq<Facility>, rest: seq<Transfer>,
                    t: Transfer)
    requires StaffOk(cat, fs, ts) && fs' == ShiftAt(fs, t.to, t.count)
    requires 0 <= t.count
    requires forall id :: Sum(rest, IncomingTo(id)) == Sum(ts, IncomingTo(id)) - (if id == t.to then t.count else 0)
    ensures StaffOk(cat, fs', rest)
  {
    hide Sum;
    forall j | 0 <= j < |fs'| ensures StaffFits(cat, fs'[j], rest) {
      assert StaffFits(cat, fs[j], ts) && fs'[j].id == fs[j].id;
    }
  }

  lemma LandedWorkers(planets: seq<Planet>, fs: seq<Facility>, ts: seq<Transfer>, fs': seq<Facility>,
                      rest: seq<Transfer>, t: Transfer)
    requires WorkersOk(planets, fs, ts) && 0 <= t.count
    requires forall p :: Sum(rest, MovingOn(p)) == Sum(ts, MovingOn(p)) - (if p == t.planet then t.count else 0)
    requires forall p :: Sum(fs', StaffOn(p)) <= Sum(fs, StaffOn(p)) + (if p == t.planet then t.count else 0)
    ensures WorkersOk(planets, fs', rest)
  {
    hide Sum;
    forall p | 0 <= p < |planets|
      ensures 0 <= planets[p].crew && 0 <= ReserveOf(planets[p], fs', rest, p)
              && planets[p].workers <= planets[p].population
    {
      assert 0 <= ReserveOf(planets[p], fs, ts, p);
    }
  }

  lemma ShiftAtKeepsEscrow(fs: seq<Facility>, id: nat, delta: int, found: Option<nat>, stranded: map<(nat, nat), int>,
                           recorded: seq<Move>)
    requires EscrowBalance(fs, stranded, recorded) && SortedById(fs)
    requires found.None? ==> forall j | 0 <= j < |fs| :: fs[j].id != id
    requires found.Some? ==> found.value < |fs| && fs[found.value].id == id
    ensures EscrowBalance(ShiftAt(fs, id, delta), stranded, recorded)
  {
    hide Sum, Net;
    match found {
      case None => ShiftAtMissing(fs, id, delta);
      case Some(j) =>
        ShiftAtIs(fs, j, delta);
        EscrowUnmoved(fs, j, Shift(fs[j], delta), stranded, recorded);
    }
  }

  /** The state after due transfers have landed. */
  ghost predicate TransfersStep(w: World, w': World) {
    w' == w.(transfers := Waiting(w.transfers, w.day), facilities := Landed(w.facilities, w.transfers, w.day))
  }

  lemma TransfersKeepInv(cat: Catalog, w: World, w': World, d: int, d': int)
    requires LooseAt(cat, w, d, d') && TransfersStep(w, w')
    ensures LooseAt(cat, w', d, d') && w'.planets == w.planets && w'.day == w.day
  {
    hide WorkforceOk, EscrowBalance, Landed, Waiting, StoresOk, FreightOk, ShipBalance, ExpeditionBalance, ColonyOk,
         PeopleOk;
    LandingAll(cat, w.planets, w.facilities, w.transfers, w.nextId, w.books.stranded, w.recorded, w.day, |w.transfers|);
    assert w.transfers[..|w.transfers|] == w.transfers && w'.transfers + w.transfers[|w.transfers|..] == w'.transfers;
    FreighterSame(cat, w, w', d');
  }

  /** Once everyone on the way to a finished facility is due, the landing leaves it more staff than its recipe
      employs, which the kernel's check refuses, exactly when more were promised to it. */
  lemma LandedFits(cat: Catalog, w: World, w': World, i: nat)
    requires i < |w.facilities| && FacilityOk(cat, w.facilities[i], |w.planets|) && w.facilities[i].job.None?
             && TransfersStep(w, w')
    requires forall k | 0 <= k < |w.transfers| && w.transfers[k].to == w.facilities[i].id ::
             w.transfers[k].ready <= w.day
    ensures var f' := w'.facilities[i];
            && f'.kind < |cat.facilities| && f'.recipe < |cat.facilities[f'.kind].recipes|
            && (f'.staff <= FullStaff(cat, f')
                <==> w.facilities[i].staff + Sum(w.transfers, IncomingTo(w.facilities[i].id)) <= FullStaff(cat,
                    w.facilities[i]))
  {
    var id := w.facilities[i].id;
    SumSame(w.transfers, LandingAt(id, w.day), IncomingTo(id));
  }

  /** However many transfers have been handled, everyone is accounted for exactly once. */
  lemma {:induction false} LandingAll(cat: Catalog, planets: seq<Planet>, fs: seq<Facility>, ts: seq<Transfer>,
      nextId: nat,
                                      stranded: map<(nat, nat), int>, recorded: seq<Move>, day: int, i: nat)
    requires i <= |ts| && WorkforceOk(cat, planets, fs, ts, nextId) && EscrowBalance(fs, stranded, recorded)
    ensures WorkforceOk(cat, planets, Landed(fs, ts[..i], day), Waiting(ts[..i], day) + ts[i..], nextId)
    ensures EscrowBalance(Landed(fs, ts[..i], day), stranded, recorded)
  {
    hide WorkforceOk, EscrowBalance, Landed, Waiting, ShiftAt;
    if i == 0 {
      LandedNothing(fs, day);
      WaitingNothing(day);
      assert ts[..0] == [] && [] + ts[0..] == ts;
    } else {
      LandingAll(cat, planets, fs, ts, nextId, stranded, recorded, day, i - 1);
      var t, fs', keep := ts[i - 1], Landed(fs, ts[..i - 1], day), Waiting(ts[..i - 1], day);
      var all := keep + ts[i - 1..];
      WaitingNext(ts, i - 1, day);
      LandedNext(fs, ts, i - 1, day);
      assert all[|keep|] == t;
      if t.ready > day {
        assert all == keep + [t] + ts[i..];
      } else {
        assert Waiting(ts[..i], day) == keep;
        assert all[..|keep|] + all[|keep| + 1..] == keep + ts[i..];
        LandingKeepsBoth(cat, planets, fs', all, nextId, stranded, recorded, |keep|);
      }
    }
  }

  lemma LandingKeepsBoth(cat: Catalog, planets: seq<Planet>, fs: seq<Facility>, ts: seq<Transfer>, nextId: nat,
                         stranded: map<(nat, nat), int>, recorded: seq<Move>, i: nat)
    requires WorkforceOk(cat, planets, fs, ts, nextId) && EscrowBalance(fs, stranded, recorded) && i < |ts|
    ensures WorkforceOk(cat, planets, ShiftAt(fs, ts[i].to, ts[i].count), ts[..i] + ts[i + 1..], nextId)
    ensures EscrowBalance(ShiftAt(fs, ts[i].to, ts[i].count), stranded, recorded)
  {
    hide Sum, EscrowBalance, TransfersOk, WorkersOk, StaffOk, SlotsOk, FacilityOk, Lookup;
    var found: Option<nat> := None;
    if Lookup(fs, ts[i].to).Some? {
      var k := LookupIndex(fs, ts[i].to);
      found := Some(k);
    } else {
      LookupNone(fs, ts[i].to);
    }
    LandingKeepsWorkforce(cat, planets, fs, ts, nextId, i, found);
    ShiftAtKeepsEscrow(fs, ts[i].to, ts[i].count, found, stranded, recorded);
  }

  lemma {:induction false} LookupNone(fs: seq<Facility>, id: nat)
    requires Lookup(fs, id).None?
    ensures forall i | 0 <= i < |fs| :: fs[i].id != id
  {
    if fs != [] {
      LookupNone(fs[..|fs| - 1], id);
    }
  }

  /** One due transfer reaches its job, or Reserve when that job no longer exists. */
  method Land(s: Session, t: Transfer)
    requires SortedById(s.facilities) && forall i | 0 <= i < |s.facilities| :: 0 < s.facilities[i].id
    modifies s`facilities
    ensures s.facilities == ShiftAt(old(s.facilities), t.to, t.count)
    ensures |s.facilities| == |old(s.facilities)| && forall i | 0 <= i < |s.facilities| ::
            s.facilities[i].id == old(s.facilities)[i].id
  {
    hide Lookup;
    var found: Option<nat> := None;
    if t.to != 0 {
      found := FindFacility(s.facilities, t.to);
    }
    if found.Some? {
      ShiftAtIs(s.facilities, found.value, t.count);
      s.facilities := s.facilities[found.value := Shift(s.facilities[found.value], t.count)];
    } else {
      ShiftAtMissing(s.facilities, t.to, t.count);
    }
  }

  /** Transfers complete on their ready day; a vanished destination returns its workers to Reserve. */
  method CompleteTransfers(s: Session)
    requires SortedById(s.facilities) && forall i | 0 <= i < |s.facilities| :: 0 < s.facilities[i].id
    modifies s`facilities, s`transfers
    ensures TransfersStep(old(s.Now()), s.Now())
  {
    hide Landed, Waiting, ShiftAt;
    var ts, keep := s.transfers, [];
    ghost var fs := s.facilities;
    LandedNothing(fs, s.day);
    WaitingNothing(s.day);
    assert ts[..0] == [];
    for i := 0 to |ts|
      invariant s.transfers == ts
      invariant keep == Waiting(ts[..i], s.day)
      invariant s.facilities == Landed(fs, ts[..i], s.day)
      invariant SortedById(s.facilities) && forall k | 0 <= k < |s.facilities| :: 0 < s.facilities[k].id
    {
      var t := ts[i];
      WaitingNext(ts, i, s.day);
      LandedNext(fs, ts, i, s.day);
      if t.ready > s.day {
        keep := keep + [t];
      } else {
        Land(s, t);
      }
    }
    assert ts[..|ts|] == ts;
    s.transfers := keep;
  }

  lemma WaitingNothing(day: int)
    ensures Waiting([], day) == []
  {
  }

  // ----- staff that only falls -----

  /** The same facilities, none with more staff than before. */
  ghost predicate NoneFuller(fs: seq<Facility>, fs': seq<Facility>) {
    |fs'| == |fs| && forall i | 0 <= i < |fs| ::
        fs'[i].kind == fs[i].kind && fs'[i].recipe == fs[i].recipe && fs'[i].staff <= fs[i].staff
  }

  lemma NoneFullerStaffed(cat: Catalog, fs: seq<Facility>, fs': seq<Facility>)
    requires NoneFuller(fs, fs') && StaffedOk(cat, fs)
    ensures StaffedOk(cat, fs')
  {
    forall i | 0 <= i < |fs'|
      ensures var f := fs'[i];
              f.kind < |cat.facilities| && f.recipe < |cat.facilities[f.kind].recipes| && f.staff <= FullStaff(cat, f)
    {
      var f := fs[i];
      assert f.kind < |cat.facilities| && f.recipe < |cat.facilities[f.kind].recipes| && f.staff <= FullStaff(cat, f);
    }
  }

  // ----- swapping crews -----

  /** Both halves of a crew swap are there: n on shift and n in Reserve. */
  ghost predicate SwapAllowed(planets: seq<Planet>, fs: seq<Facility>, ts: seq<Transfer>, id: nat, n: int) {
    var f := Lookup(fs, id);
    && f.Some? && n <= f.value.staff
    && f.value.planet < |planets| && n <= ReserveOf(planets[f.value.planet], fs, ts, f.value.planet)
  }

  /** The state after a swap: n workers leave for Reserve while as many from Reserve take over. */
  ghost predicate SwapStep(w: World, w': World, id: nat, n: nat, days: int) {
    && SwapAllowed(w.planets, w.facilities, w.transfers, id, n)
    && w' == w.(nextId := w.nextId + 1,
                transfers := w.transfers + [Transfer(w.nextId, Lookup(w.facilities, id).value.planet, id, 0, n,
                                                     w.day + (if days > 0 then days else 2))])
  }

  lemma SwapKeepsInv(cat: Catalog, w: World, w': World, id: nat, n: nat, days: int, d: int, d': int)
    requires LooseAt(cat, w, d, d') && SwapStep(w, w', id, n, days)
    ensures LooseAt(cat, w', d, d') && w'.planets == w.planets
  {
    hide Sum, Lookup, SwapAllowed, TransfersOk, WorkersOk, StaffOk, SlotsOk, EscrowBalance, StockOk, LedgerOk,
         PlanetsBalance, FacilityOk, ValidCatalog, ShipBalance, ExpeditionBalance, ColonyOk, PeopleOk, FreightOk;
    RangeGrows(w.ledger, w.recorded, |w.planets|, w.nextId, w.nextId + 1);
    SwapSends(cat, w.planets, w.facilities, w.transfers, w.nextId, id, n, w'.transfers[|w.transfers|]);
    FreighterSame(cat, w, w', d');
  }

  lemma SwapSends(cat: Catalog, planets: seq<Planet>, fs: seq<Facility>, ts: seq<Transfer>, nextId: nat, id: nat,
                  n: nat, t: Transfer)
    requires WorkforceOk(cat, planets, fs, ts, nextId) && SwapAllowed(planets, fs, ts, id, n) && 0 < nextId
    requires t.planet == Lookup(fs, id).value.planet && t.to == 0 && t.count == n
    ensures WorkforceOk(cat, planets, fs, ts + [t], nextId + 1)
  {
    hide Sum, Lookup, TransfersOk, WorkersOk, StaffOk, SlotsOk, FacilityOk;
    ReserveSendKeepsWorkforce(cat, planets, fs, ts, nextId, t);
  }

  /** A crew swap sends n workers off shift and puts n from Reserve in their place at once, so the
      facility's staff does not change; the kernel raises an error when either side is short. */
  method ReplaceCrews(s: Session, id: nat, n: nat, days: int) returns (done: bool)
    requires FacilitiesOk(s.cat, s.facilities, |s.planets|, s.nextId)
    modifies s`transfers, s`nextId
    ensures done <==> old(SwapAllowed(s.planets, s.facilities, s.transfers, id, n))
    ensures if done then SwapStep(old(s.Now()), s.Now(), id, n, days) else s.Now() == old(s.Now())
  {
    hide Sum, Lookup;
    var found := FindFacility(s.facilities, id);
    if found.None? || s.facilities[found.value].staff < n {
      return false;
    }
    var f := s.facilities[found.value];
    assert FacilityOk(s.cat, f, |s.planets|);
    var reserve := WorkersReserve(s.planets[f.planet], s.facilities, s.transfers, f.planet);
    if reserve < n {
      return false;
    }
    s.transfers := s.transfers + [Transfer(s.nextId, f.planet, id, 0, n, s.day + (if days > 0 then days else 2))];
    s.nextId := s.nextId + 1;
    return true;
  }
}
