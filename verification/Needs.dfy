/** Phase 6's stock: the day's output is committed and people eat and drink; and phase 7's jobs. */
module Needs {
  import opened Units
  import opened Sums
  import opened Stock
  import opened Ledger
  import opened Catalog
  import opened State
  import opened Support
  import opened Chains
  import opened Outside
  import opened Upkeep
  import opened Departures
  import opened Power
  import opened Production
  import opened Maintenance

  /** The outputs staged today, by resource. */
  function Staged(staged: seq<int>): ResourceMap {
    map r: nat | r < |staged| && staged[r] != 0 :: staged[r]
  }

  /** All of it is stored. */
  ghost predicate CommitStep(cat: Catalog, w: World, w': World, p: nat) {
    p < |w.scratch| && ReceiveStep(cat, w, w', p, Staged(w.scratch[p].staged), SourceRecipe)
  }

  function WaterDemand(cat: Catalog, planet: Planet): int {
    planet.population * cat.rules.waterPerResident
  }

  /** Food and water served: what is asked for, or what there is. */
  ghost function Served(cat: Catalog, planet: Planet, ratio: int): ResourceMap
    requires cat.food < |planet.stock.onHand| && cat.water < |planet.stock.onHand|
  {
    map[cat.food := Min(planet.stock.Available(cat.food), FoodDemand(cat, planet, ratio)),
        cat.water := Min(planet.stock.Available(cat.water), WaterDemand(cat, planet))]
  }

  ghost predicate NeedsStep(cat: Catalog, w: World, w': World, p: nat, ratio: int) {
    && p < |w.planets| && cat.food < |w.planets[p].stock.onHand| && cat.water < |w.planets[p].stock.onHand|
    && SpendStep(cat, w, w', p, Served(cat, w.planets[p], ratio), SinkCivilian)
  }

  /** Space left beside what is promised is never more than the room there is. */
  lemma FreeIsRoom(cat: Catalog, w: World, p: nat, r: nat, d: int, d': int)
    requires InvAt(cat, w, d, d') && p < |w.planets| && r < cat.resources
    ensures r < |w.planets[p].stock.onHand| == cat.resources
            && w.planets[p].stock.FreeSpace(r) <= w.planets[p].stock.Room(r)
  {
    hide Sum, WorkforceOk, BalancesOk, ColonyOk, PeopleOk, LedgerOk, PlanetsBalance, ValidCatalog, DemandOk, TankOk,
         ShippedOk, BookedOk;
    StockWidth(cat, w.planets, p);
    SumEmpty(ClaimedFor(r));
    assert 0 <= w.planets[p].stock.Claimed(r);
  }

  /** Committing finds room for every unit staged, so production is never turned away at the door. */
  lemma StagedIsStored(cat: Catalog, w: World, p: nat, d: int, d': int)
    requires InvAt(cat, w, d, d') && p < |w.planets| && p < |w.scratch|
             && BenchOk(w.planets[p].stock, w.scratch[p], cat.resources)
    ensures forall r | r in Staged(w.scratch[p].staged) ::
              r < cat.resources == |w.planets[p].stock.onHand|
                  && 0 <= w.scratch[p].staged[r] <= w.planets[p].stock.FreeSpace(r) <= w.planets[p].stock.Room(r)
  {
    hide InvAt, Inventory.FreeSpace, Inventory.Room, Inventory.Available;
    forall r | r in Staged(w.scratch[p].staged) ensures w.planets[p].stock.FreeSpace(r) <= w.planets[p].stock.Room(r) {
      FreeIsRoom(cat, w, p, r, d, d');
    }
  }

  method CommitOutputs(s: Session, p: nat, ghost d: int, ghost d': int)
    requires InvAt(s.cat, s.Now(), d, d') && p < |s.planets| && p < |s.scratch|
             && BenchOk(s.planets[p].stock, s.scratch[p], s.cat.resources)
    modifies s`planets, s`ledger, s`recorded
    ensures CommitStep(s.cat, old(s.Now()), s.Now(), p)
  {
    hide InvAt, BenchOk, Credited, Posted, LedgerOk, FacilitiesOk, ValidCatalog, Inventory.FreeSpace, Inventory.Room,
         PlanetsBalance, StockOk;
    MaintenanceNeeds(s, d, d');
    StagedIsStored(s.cat, s.Now(), p, d, d');
    var staged := Staged(s.scratch[p].staged);
    var added := CreditAll(s, p, staged, SourceRecipe);
    assert added == staged;
    assert unchanged(s`day, s`nextId, s`facilities, s`transfers, s`ship, s`route, s`colony, s`demand, s`scratch,
           s`books);
  }

  lemma CommitKeeps(cat: Catalog, w: World, w': World, p: nat, d: int, d': int)
    requires InvAt(cat, w, d, d') && p < |w.planets| && p < |w.scratch|
             && BenchOk(w.planets[p].stock, w.scratch[p], cat.resources)
    requires CommitStep(cat, w, w', p)
    ensures InvAt(cat, w', d, d')
  {
    hide InvAt, ReceiveStep, Inventory.FreeSpace, Inventory.Room, Inventory.Available;
    StagedIsStored(cat, w, p, d, d');
    BenchWidths(w.planets[p].stock, w.scratch[p], cat.resources);
    ReceiveKeepsInv(cat, w, w', p, Staged(w.scratch[p].staged), SourceRecipe, d, d');
  }

  lemma ServedIsAfforded(cat: Catalog, w: World, p: nat, ratio: int, d: int, d': int)
    requires InvAt(cat, w, d, d') && p < |w.planets| && 0 <= ratio
    ensures cat.food < |w.planets[p].stock.onHand| == cat.resources && cat.water < |w.planets[p].stock.onHand|
            && cat.food != cat.water
    ensures Affords(w.planets[p].stock, Served(cat, w.planets[p], ratio), cat.resources)
    ensures var planet := w.planets[p];
            && 0 <= planet.stock.Available(cat.food) && 0 <= planet.stock.Available(cat.water)
            && 0 <= FoodDemand(cat, planet, ratio) && 0 <= WaterDemand(cat, planet)
  {
    hide Sum, WorkforceOk, FreighterOk, BalancesOk, ColonyOk, PeopleOk, LedgerOk, PlanetsBalance, ValidFacility,
         ValidFreight, ValidExpedition, ValidMandate, FloorOf;
    StockWidth(cat, w.planets, p);
    PeopleAreNat(cat, w, p, d, d');
    FloorOfNat(w.planets[p].population * cat.rules.foodPerResident, ratio, BP_ONE);
  }

  method ServeNeeds(s: Session, p: nat, ratio: int, ghost d: int, ghost d': int)
    requires InvAt(s.cat, s.Now(), d, d') && p < |s.planets| && 0 <= ratio
    modifies s`planets, s`ledger, s`recorded
    ensures NeedsStep(s.cat, old(s.Now()), s.Now(), p, ratio)
  {
    hide InvAt, Sum, Net, Posted, Debited, LedgerOk, FacilitiesOk, ValidCatalog, PlanetsBalance, StockOk, FloorOf,
         Affords;
    MaintenanceNeeds(s, d, d');
    ServedIsAfforded(s.cat, s.Now(), p, ratio, d, d');
    var food, water := s.cat.food, s.cat.water;
    ghost var w := s.Now();
    var fed := Min(s.planets[p].stock.Available(food), FoodDemand(s.cat, s.planets[p], ratio));
    var watered := Min(s.planets[p].stock.Available(water), WaterDemand(s.cat, s.planets[p]));
    var _ := RemoveStock(s, p, food, fed, SinkCivilian);
    ghost var mid, entries := s.planets, s.recorded;
    OthersStay(w.planets, mid, p, food, fed, water);
    var _ := RemoveStock(s, p, water, watered, SinkCivilian);
    ghost var all := Served(s.cat, w.planets[p], ratio);
    DebitedThen(w.planets, mid, s.planets, p, Single(food, fed), Single(water, watered), all);
    PostedThen(w.recorded, entries, s.recorded, PlanetStock(p), SinkCivilian, Single(food, fed), Single(water, watered),
        all);
    assert unchanged(s`day, s`nextId, s`facilities, s`transfers, s`ship, s`route, s`colony, s`demand, s`scratch,
           s`books);
  }

  lemma NeedsKeep(cat: Catalog, w: World, w': World, p: nat, ratio: int, d: int, d': int)
    requires InvAt(cat, w, d, d') && NeedsStep(cat, w, w', p, ratio) && 0 <= ratio
    ensures InvAt(cat, w', d, d')
  {
    hide InvAt, SpendStep, Affords, Inventory.Available, FoodDemand;
    ServedIsAfforded(cat, w, p, ratio, d, d');
    SpendKeepsInv(cat, w, w', p, Served(cat, w.planets[p], ratio), SinkCivilian, d, d');
  }

  // ----- the phase -----

  /** Worlds from p on have yet to commit. */
  ghost predicate Uncommitted(cat: Catalog, w: World, p: nat) {
    && |w.scratch| == |w.planets|
    && forall q: nat | p <= q < |w.planets| :: BenchOk(w.planets[q].stock, w.scratch[q], cat.resources)
  }

  ghost predicate CommitWorld(cat: Catalog, w: World, w': World, p: nat, ratios: seq<int>) {
    p < |ratios| && exists mid :: CommitStep(cat, w, mid, p) && NeedsStep(cat, mid, w', p, ratios[p])
  }

  ghost function CommitWorlds(cat: Catalog, ratios: seq<int>): Step {
    (a: World, b: World, p: nat) => CommitWorld(cat, a, b, p, ratios)
  }

  ghost predicate CommitPhase(cat: Catalog, w: World, w': World, ratios: seq<int>) {
    Through(w, w', |w.planets|, CommitWorlds(cat, ratios))
  }

  /** Another world's change leaves this one's bench as it was. */
  lemma BenchesApart(cat: Catalog, w: World, w': World, p: nat)
    requires Uncommitted(cat, w, p) && w'.scratch == w.scratch && OnlyStocks(w.planets, w'.planets)
    requires forall q: nat, r: nat | q != p :: OnHand(w'.planets, q, r) == OnHand(w.planets, q, r)
    ensures Uncommitted(cat, w', p + 1)
  {
    hide Sum;
    forall q: nat | p + 1 <= q < |w'.planets| ensures BenchOk(w'.planets[q].stock, w'.scratch[q], cat.resources) {
      assert OnlyStock(w.planets[q], w'.planets[q]) && BenchOk(w.planets[q].stock, w.scratch[q], cat.resources);
      forall r: nat | r < cat.resources
        ensures w'.planets[q].stock.Available(r) == w.planets[q].stock.Available(r)
                && w'.planets[q].stock.FreeSpace(r) == w.planets[q].stock.FreeSpace(r)
      {
        assert OnHand(w'.planets, q, r) == OnHand(w.planets, q, r);
        assert w'.planets[q].stock.Claimed(r) == w.planets[q].stock.Claimed(r)
               && w'.planets[q].stock.Reserved(r) == w.planets[q].stock.Reserved(r);
      }
    }
  }

  lemma CommitApart(cat: Catalog, w: World, mid: World, w': World, p: nat, ratio: int)
    requires CommitStep(cat, w, mid, p) && NeedsStep(cat, mid, w', p, ratio) && Uncommitted(cat, w, p)
    ensures Uncommitted(cat, w', p + 1) && w'.scratch == w.scratch && w'.day == w.day
            && OnlyStocks(w.planets, w'.planets) && w'.facilities == w.facilities
  {
    hide Posted, LedgerOk, BenchOk, OnHand, Served, Uncommitted;
    var m, n := Staged(w.scratch[p].staged), Served(cat, mid.planets[p], ratio);
    forall q | 0 <= q < |w.planets| ensures OnlyStock(w.planets[q], w'.planets[q]) {
      assert OnlyStock(w.planets[q], mid.planets[q]) && OnlyStock(mid.planets[q], w'.planets[q]);
    }
    forall q: nat, r: nat | q != p ensures OnHand(w'.planets, q, r) == OnHand(w.planets, q, r) {
      assert OnHand(w'.planets, q, r) == OnHand(mid.planets, q, r) - (if q == p then Qty(n, r) else 0);
      assert OnHand(mid.planets, q, r) == OnHand(w.planets, q, r) + (if q == p then Qty(m, r) else 0);
    }
    BenchesApart(cat, w, w', p);
  }

  /** Stock changes leave shared power and handling as they were. */
  lemma SharedStays(cat: Catalog, w: World, w': World)
    requires OnlyStocks(w.planets, w'.planets) && w'.scratch == w.scratch
    ensures AllPowered(cat, w) ==> AllPowered(cat, w')
    ensures HandlingOk(w) ==> HandlingOk(w')
  {
    if AllPowered(cat, w) {
      forall q: nat | q < |w'.planets| ensures Powered(cat, w'.planets[q], w'.scratch[q]) {
        assert OnlyStock(w.planets[q], w'.planets[q]) && Powered(cat, w.planets[q], w.scratch[q]);
      }
    }
  }

  lemma CommitWorldKeeps(cat: Catalog, w: World, w': World, p: nat, ratios: seq<int>, d: int, d': int)
    requires InvAt(cat, w, d, d') && Uncommitted(cat, w, p) && p < |w.planets| && CommitWorld(cat, w, w', p, ratios)
    requires forall q | 0 <= q < |ratios| :: 0 <= ratios[q]
    ensures InvAt(cat, w', d, d') && Uncommitted(cat, w', p + 1) && |w'.planets| == |w.planets| && w'.day == w.day
            && w'.facilities == w.facilities
    ensures AllPowered(cat, w) ==> AllPowered(cat, w')
    ensures HandlingOk(w) ==> HandlingOk(w')
  {
    hide InvAt, CommitStep, NeedsStep, BenchOk, AllPowered, HandlingOk;
    var mid :| CommitStep(cat, w, mid, p) && NeedsStep(cat, mid, w', p, ratios[p]);
    CommitKeeps(cat, w, mid, p, d, d');
    NeedsKeep(cat, mid, w', p, ratios[p], d, d');
    CommitApart(cat, w, mid, w', p, ratios[p]);
    SharedStays(cat, w, w');
  }

  lemma {:induction false} CommittingKeeps(cat: Catalog, w: World, w': World, n: nat, ratios: seq<int>, d: int, d': int)
    requires InvAt(cat, w, d, d') && Uncommitted(cat, w, 0) && AllPowered(cat, w) && HandlingOk(w) && n <= |w.planets|
    requires forall q | 0 <= q < |ratios| :: 0 <= ratios[q]
    requires Through(w, w', n, CommitWorlds(cat, ratios))
    ensures InvAt(cat, w', d, d') && Uncommitted(cat, w', n) && |w'.planets| == |w.planets| && w'.day == w.day
    ensures AllPowered(cat, w') && HandlingOk(w')
    decreases n
  {
    hide InvAt, Uncommitted, CommitWorld, AllPowered, HandlingOk;
    if n > 0 {
      var m :| Through(w, m, n - 1, CommitWorlds(cat, ratios)) && CommitWorlds(cat, ratios)(m, w', n - 1);
      CommittingKeeps(cat, w, m, n - 1, ratios, d, d');
      CommitWorldKeeps(cat, m, w', n - 1, ratios, d, d');
    }
  }

  lemma CommitKeepsInv(cat: Catalog, w: World, w': World, ratios: seq<int>, d: int, d': int)
    requires InvAt(cat, w, d, d') && BenchesOk(cat, w) && AllPowered(cat, w) && CommitPhase(cat, w, w', ratios)
    requires forall q | 0 <= q < |ratios| :: 0 <= ratios[q]
    ensures InvAt(cat, w', d, d') && AllPowered(cat, w') && HandlingOk(w') && |w'.planets| == |w.planets|
            && w'.day == w.day
  {
    hide InvAt, CommitWorld, AllPowered, BenchOk;
    forall q | 0 <= q < |w.scratch| ensures 0 <= w.scratch[q].handlingLeft {
      BenchWidths(w.planets[q].stock, w.scratch[q], cat.resources);
    }
    CommittingKeeps(cat, w, w', |w.planets|, ratios, d, d');
  }

  method CommitOne(s: Session, p: nat, ratios: seq<int>, ghost d: int, ghost d': int)
    requires InvAt(s.cat, s.Now(), d, d') && Uncommitted(s.cat, s.Now(), p) && p < |s.planets| == |ratios|
    requires forall q | 0 <= q < |ratios| :: 0 <= ratios[q]
    modifies s`planets, s`ledger, s`recorded
    ensures CommitWorld(s.cat, old(s.Now()), s.Now(), p, ratios)
  {
    hide InvAt, BenchOk, CommitStep, NeedsStep;
    ghost var w := s.Now();
    CommitOutputs(s, p, d, d');
    ghost var mid := s.Now();
    CommitKeeps(s.cat, w, mid, p, d, d');
    CommitWidth(s.cat, w, mid, p);
    ServeNeeds(s, p, ratios[p], d, d');
  }

  lemma CommitWidth(cat: Catalog, w: World, w': World, p: nat)
    requires CommitStep(cat, w, w', p)
    ensures |w'.planets| == |w.planets| && w'.scratch == w.scratch
  {
    hide Posted, LedgerOk;
  }

  method CommitAll(s: Session, ratios: seq<int>, ghost d: int, ghost d': int)
    requires InvAt(s.cat, s.Now(), d, d') && BenchesOk(s.cat, s.Now()) && |s.planets| == |ratios|
    requires forall q | 0 <= q < |ratios| :: 0 <= ratios[q]
    modifies s`planets, s`ledger, s`recorded
    ensures CommitPhase(s.cat, old(s.Now()), s.Now(), ratios)
  {
    hide InvAt, CommitWorld, BenchOk;
    ghost var w := s.Now();
    ghost var step := CommitWorlds(s.cat, ratios);
    for p := 0 to |s.planets|
      invariant |s.planets| == |w.planets| && Through(w, s.Now(), p, step)
      invariant InvAt(s.cat, s.Now(), d, d') && Uncommitted(s.cat, s.Now(), p)
    {
      ghost var m := s.Now();
      CommitOne(s, p, ratios, d, d');
      CommitWorldKeeps(s.cat, m, s.Now(), p, ratios, d, d');
      ThroughNext(w, m, s.Now(), p, step);
    }
  }
}
