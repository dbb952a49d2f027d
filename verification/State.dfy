/** The authoritative session state and the invariants every committed state satisfies. */
module State {
  import opened Units
  import opened Sums
  import opened Stock
  import opened Ledger
  import opened Catalog

  datatype Planet = Planet(
    colonised: bool,
    population: int,
    workers: int,
    crew: int,
    stock: Inventory,
    emergency: bool,
    reliefDue: int,
    reliefUsed: bool,
    handlingYesterday: int)

  /** The lifecycle's fourth value, cancelled, is never assigned: cancelling erases the facility. */
  datatype Lifecycle = UnderConstruction | Commissioning | Active

  datatype Job = Job(
    workTotal: int,
    workDone: int,
    cost: ResourceMap,
    escrow: ResourceMap,
    consumed: ResourceMap,
    crew: int,
    daysElapsed: int)

  /** `awaited` is kept for the proofs: how many workers were on their way to the job when it was finished. */
  datatype Facility = Facility(
    id: nat,
    kind: nat,
    recipe: nat,
    planet: nat,
    life: Lifecycle,
    staff: int,
    condition: int,
    band: int,
    idle: bool,
    activates: int,
    lastService: int,
    serviceReady: Option<int>,
    job: Option<Job>,
    awaited: int)

  /** Facility id 0 means the world's Reserve. */
  datatype Transfer = Transfer(id: nat, planet: nat, from: nat, to: nat, count: int, ready: int)

  datatype Phase = Docked | Transit | ArrivedHolding | Unloading
  datatype Mission = NoMission | StrategicOutbound | StrategicReturn

  datatype Ship = Ship(
    phase: Phase,
    mission: Mission,
    location: Option<nat>,
    destination: Option<nat>,
    departureDay: int,
    arrivalDay: int,
    earliest: int,
    cargo: ResourceMap,
    tank: int,
    bookings: seq<nat>,
    unloaded: ResourceMap)

  datatype Route = Route(
    outbound: ResourceMap,
    homebound: ResourceMap,
    floors: ResourceMap,
    waived: set<nat>,
    enabled: bool,
    nextDeparture: int,
    interval: int,
    requested: bool,
    allowEmpty: bool)

  datatype Colony = Colony(
    launched: bool,
    founded: bool,
    residents: int,
    workers: int,
    cargo: ResourceMap,
    launchDay: int,
    arrivalDay: int,
    foundedDay: int)

  datatype Decision = Pending | Honoured | Negotiated | Declined | Failed
  datatype Voyage = Voyage(departure: int, delivery: int, manifest: ResourceMap, delivered: bool)

  datatype Demand = Demand(
    issued: bool,
    deadline: int,
    required: ResourceMap,
    delivered: ResourceMap,
    negotiated: bool,
    resolved: bool,
    decision: Decision,
    voyages: seq<Voyage>,
    committed: bool,
    pending: ResourceMap,
    requested: bool)

  // ----- stock -----

  ghost predicate StockOk(planets: seq<Planet>, n: nat) {
    forall p | 0 <= p < |planets| :: planets[p].stock.Sound(n)
  }

  ghost predicate BookedOk(planets: seq<Planet>) {
    forall p | 0 <= p < |planets| :: planets[p].stock.Booked()
  }

  /** Two worlds differ at most in the stock they have on hand. */
  ghost predicate OnlyStock(before: Planet, after: Planet) {
    after == before.(stock := before.stock.(onHand := after.stock.onHand))
    && |after.stock.onHand| == |before.stock.onHand|
  }

  ghost predicate OnlyStocks(before: seq<Planet>, after: seq<Planet>) {
    |after| == |before| && forall p | 0 <= p < |before| :: OnlyStock(before[p], after[p])
  }

  function OnHand(planets: seq<Planet>, p: nat, r: nat): int {
    if p < |planets| && r < |planets[p].stock.onHand| then planets[p].stock.onHand[r] else 0
  }

  /** World p gave up the quantities of m and nothing else changed anywhere. */
  ghost predicate Debited(before: seq<Planet>, after: seq<Planet>, p: nat, m: ResourceMap) {
    && OnlyStocks(before, after)
    && forall q: nat, r: nat :: OnHand(after, q, r) == OnHand(before, q, r) - (if q == p then Qty(m, r) else 0)
  }

  /** World p received the quantities of m and nothing else changed anywhere. */
  ghost predicate Credited(before: seq<Planet>, after: seq<Planet>, p: nat, m: ResourceMap) {
    && OnlyStocks(before, after)
    && forall q: nat, r: nat :: OnHand(after, q, r) == OnHand(before, q, r) + (if q == p then Qty(m, r) else 0)
  }

  // ----- ledger -----

  /** The kept ledger is the most recent part of everything ever recorded, up to its cap, and no
      entry names an account that does not exist. */
  ghost predicate LedgerOk(ledger: seq<Move>, recorded: seq<Move>, planets: nat, nextId: nat) {
    && |ledger| == Min(|recorded|, LEDGER_CAP)
    && ledger == recorded[|recorded| - |ledger|..]
    && AllInRange(recorded, planets, nextId)
  }

  /** The entries added carry exactly the quantities of m from one account to another. */
  ghost predicate Posted(before: seq<Move>, after: seq<Move>, from: Account, to: Account, m: ResourceMap) {
    && before <= after
    && forall a: Account, r: nat ::
        Net(after, a, r) == Net(before, a, r) + (if a == to then Qty(m, r) else 0) - (if a == from then Qty(m, r)
            else 0)
  }

  ghost predicate PlanetsBalance(opening: seq<Planet>, planets: seq<Planet>, recorded: seq<Move>) {
    forall p: nat, r: nat ::
      OnHand(planets, p, r) == OnHand(opening, p, r) + (if p < |planets| && r < |planets[p].stock.onHand| then
          Net(recorded, PlanetStock(p), r) else 0)
  }

  function EscrowQty(f: Facility, r: nat): int {
    if f.job.Some? then Qty(f.job.value.escrow, r) else 0
  }

  function HeldFor(id: nat, r: nat): Facility -> int {
    (f: Facility) => if f.id == id then EscrowQty(f, r) else 0
  }

  function EscrowOf(r: nat): Facility -> int {
    (f: Facility) => EscrowQty(f, r)
  }

  /** Materials a cancelled job could not return because the store was full. */
  ghost function Stranded(stranded: map<(nat, nat), int>, id: nat, r: nat): int {
    if (id, r) in stranded then stranded[(id, r)] else 0
  }

  ghost predicate EscrowBalance(facilities: seq<Facility>, stranded: map<(nat, nat), int>, recorded: seq<Move>) {
    forall id: nat, r: nat ::
      Net(recorded, Escrow(id), r) == Sum(facilities, HeldFor(id, r)) + Stranded(stranded, id, r)
  }

  ghost predicate ShipBalance(ship: Ship, fuel: nat, recorded: seq<Move>) {
    forall r: nat :: Net(recorded, ShipHold, r) == Qty(ship.cargo, r) + (if r == fuel then ship.tank else 0)
  }

  ghost predicate ExpeditionBalance(colony: Colony, spilled: ResourceMap, recorded: seq<Move>) {
    forall r: nat :: Net(recorded, Expedition, r) == Qty(colony.cargo, r) + Qty(spilled, r)
  }

  // ----- facilities and workforce -----

  ghost predicate FacilityOk(cat: Catalog, f: Facility, planets: nat) {
    && f.planet < planets && f.kind < |cat.facilities| && f.recipe < |cat.facilities[f.kind].recipes|
    && 0 <= f.staff
    && cat.rules.conditionMin <= f.condition <= cat.rules.conditionMax
    && (f.job.Some? <==> f.life.UnderConstruction?)
    && (f.job.Some? ==> f.staff == 0 && JobOk(cat, f.job.value))
  }

  ghost predicate FacilitiesOk(cat: Catalog, facilities: seq<Facility>, planets: nat, nextId: nat) {
    && (forall i | 0 <= i < |facilities| :: 0 < facilities[i].id < nextId && FacilityOk(cat, facilities[i], planets))
    && (forall i, j | 0 <= i < j < |facilities| :: facilities[i].id < facilities[j].id)
  }

  function JobCrew(f: Facility): int {
    if f.job.Some? then f.job.value.crew else 0
  }

  function StaffOn(p: nat): Facility -> int {
    (f: Facility) => if f.planet == p then f.staff + JobCrew(f) else 0
  }

  function MovingOn(p: nat): Transfer -> int {
    (t: Transfer) => if t.planet == p then t.count else 0
  }

  function IncomingTo(id: nat): Transfer -> int {
    (t: Transfer) => if t.to == id then t.count else 0
  }

  function SlotOn(p: nat): Facility -> int {
    (f: Facility) => if f.planet == p then 1 else 0
  }

  function Committed(facilities: seq<Facility>, transfers: seq<Transfer>, p: nat): int {
    Sum(facilities, StaffOn(p)) + Sum(transfers, MovingOn(p))
  }

  function ReserveOf(planet: Planet, facilities: seq<Facility>, transfers: seq<Transfer>, p: nat): int {
    planet.workers - Committed(facilities, transfers, p) - planet.crew
  }

  function FullStaff(cat: Catalog, f: Facility): int
    requires f.kind < |cat.facilities| && f.recipe < |cat.facilities[f.kind].recipes|
  {
    cat.facilities[f.kind].recipes[f.recipe].staff
  }

  /** Every transfer carries a count to Reserve or to a facility of its own world, if that still exists. */
  ghost predicate TransfersOk(transfers: seq<Transfer>, facilities: seq<Facility>, nextId: nat) {
    && (forall i | 0 <= i < |transfers| :: 0 <= transfers[i].count && transfers[i].to < nextId)
    && (forall i, j | 0 <= i < |transfers| && 0 <= j < |facilities| ::
          facilities[j].id == transfers[i].to ==> facilities[j].planet == transfers[i].planet)
  }

  /** No world has committed more workers than it has, nor has more workers than people. */
  ghost predicate WorkersOk(planets: seq<Planet>, facilities: seq<Facility>, transfers: seq<Transfer>) {
    forall p | 0 <= p < |planets| ::
      && 0 <= planets[p].crew
      && 0 <= ReserveOf(planets[p], facilities, transfers, p)
      && planets[p].workers <= planets[p].population
  }

  /** The most workers a finished facility may hold or be promised: its full staff, or those already on their
      way when it was finished if they are more. */
  function Quota(cat: Catalog, f: Facility): int
    requires f.kind < |cat.facilities| && f.recipe < |cat.facilities[f.kind].recipes|
  {
    Max(FullStaff(cat, f), f.awaited)
  }

  ghost predicate StaffFits(cat: Catalog, f: Facility, transfers: seq<Transfer>)
    requires f.kind < |cat.facilities| && f.recipe < |cat.facilities[f.kind].recipes|
  {
    f.job.None? ==> f.staff + Sum(transfers, IncomingTo(f.id)) <= Quota(cat, f)
  }

  ghost predicate StaffOk(cat: Catalog, facilities: seq<Facility>, transfers: seq<Transfer>) {
    forall i | 0 <= i < |facilities| ::
      facilities[i].kind < |cat.facilities| && facilities[i].recipe < |cat.facilities[facilities[i].kind].recipes|
      && StaffFits(cat, facilities[i], transfers)
  }

  /** What the kernel checks of staffing at every commit. */
  ghost predicate StaffedOk(cat: Catalog, facilities: seq<Facility>) {
    forall i | 0 <= i < |facilities| ::
      var f := facilities[i];
          f.kind < |cat.facilities| && f.recipe < |cat.facilities[f.kind].recipes| && f.staff <= FullStaff(cat, f)
  }

  /** Escrow and consumption partition the cost, and consumption follows the work done. */
  ghost predicate JobOk(cat: Catalog, j: Job) {
    && 0 <= j.crew && 0 <= j.workDone <= j.workTotal
    && Positive(j.cost, cat.resources)
    && (forall r: nat :: Qty(j.escrow, r) + Qty(j.consumed, r) == Qty(j.cost, r))
    && (forall r: nat :: 0 <= Qty(j.escrow, r) && 0 <= Qty(j.consumed, r))
    && (forall r | r in j.escrow :: r in j.cost)
    && (j.workTotal > 0 ==> forall r: nat :: Qty(j.consumed, r) == FloorOf(Qty(j.cost, r), j.workDone, j.workTotal))
  }

  /** Every world has a slot for each of its facilities, and one kept for the founding hub; the home
      world is settled. */
  ghost predicate SlotsOk(cat: Catalog, facilities: seq<Facility>, planets: seq<Planet>) {
    && |planets| == |cat.planets|
    && (cat.freight.origin < |planets| ==> planets[cat.freight.origin].colonised)
    && forall p | 0 <= p < |planets| ::
      Sum(facilities, SlotOn(p)) + (if p == cat.expedition.target && !planets[p].colonised then 1
          else 0) <= cat.planets[p].slotCount
  }

  ghost predicate WorkforceOk(cat: Catalog, planets: seq<Planet>, facilities: seq<Facility>, transfers: seq<Transfer>,
                              nextId: nat) {
    && FacilitiesOk(cat, facilities, |planets|, nextId)
    && TransfersOk(transfers, facilities, nextId)
    && WorkersOk(planets, facilities, transfers)
    && StaffOk(cat, facilities, transfers)
    && SlotsOk(cat, facilities, planets)
  }

  // ----- freighter -----

  /** The cargo still has its whole berth promised at the world it is bound for. */
  predicate Pledged(ship: Ship) {
    ship.mission.NoMission? && (ship.phase.Transit? || (ship.phase.ArrivedHolding? && ship.bookings != []))
  }

  /** The ship has flown outbound and still has its return leg to fly. */
  predicate AwaitingReturn(f: FreightSpec, ship: Ship) {
    ship.location == Some(f.destination) || (ship.mission.NoMission? && ship.phase.Transit?
        && ship.destination == Some(f.destination))
  }

  ghost predicate ShipOk(cat: Catalog, ship: Ship, day: int) {
    var f := cat.freight;
    && Positive(ship.cargo, cat.resources)
    && (!ship.mission.NoMission? ==> ship.phase.Transit?)
    && (ship.phase.Transit? <==> ship.location.None?)
    && (ship.phase.Transit? ==> day < ship.arrivalDay)
    && (ship.phase.Docked? ==> ship.cargo == map[])
    && (ship.phase.Unloading? ==> ship.cargo != map[])
    && (ship.location.Some? ==> ship.location == Some(f.origin) || ship.location == Some(f.destination))
    && (ship.mission.NoMission? && !ship.phase.Docked? ==>
          ship.destination == Some(f.origin) || ship.destination == Some(f.destination))
    && (ship.location.Some? && !ship.phase.Docked? ==> ship.location == ship.destination)
    && (ship.mission.StrategicReturn? ==> ship.cargo == map[] && ship.destination == Some(f.origin))
  }

  /** The tank holds the return burn exactly while the return is still to be flown, on top of what
      earlier round trips left over: nothing, when the two burns use up a round trip's fuel. */
  ghost predicate TankOk(cat: Catalog, ship: Ship, leftover: int) {
    && 0 <= leftover
    && (cat.freight.outboundBurn + cat.freight.returnBurn == cat.freight.roundTripFuel ==> leftover == 0)
    && ship.tank == leftover + (if AwaitingReturn(cat.freight, ship) then cat.freight.returnBurn else 0)
  }

  ghost predicate ShippedOk(ship: Ship, shipped: ResourceMap) {
    ship.mission.NoMission? && !ship.phase.Docked? ==>
      forall r: nat :: Qty(ship.cargo, r) + Qty(ship.unloaded, r) == Qty(shipped, r)
  }

  ghost predicate BookedFor(claims: seq<Claim>, bookings: seq<nat>) {
    |claims| == |bookings| && forall i | 0 <= i < |claims| :: claims[i].id == bookings[i] && 0 < claims[i].quantity
  }

  /** The only claims anywhere are the pledged ship's, at its destination, which is settled, and they
      equal its cargo. */
  ghost predicate ClaimsOk(planets: seq<Planet>, ship: Ship) {
    && (!Pledged(ship) ==> ship.bookings == [])
    && (Pledged(ship) ==>
        ship.destination.Some? && ship.destination.value < |planets| && planets[ship.destination.value].colonised)
    && forall p | 0 <= p < |planets| ::
        if Pledged(ship) && ship.destination.value == p then
          && BookedFor(planets[p].stock.claims, ship.bookings)
          && forall r: nat :: planets[p].stock.Claimed(r) == Qty(ship.cargo, r)
        else planets[p].stock.claims == []
  }

  // ----- expedition and mandate -----

  /** What is left of a cargo after so many days of use. */
  function AfterDays(cargo: int, use: int, days: int): int {
    Max(0, cargo - days * use)
  }

  ghost predicate ColonyOk(cat: Catalog, colony: Colony, planets: seq<Planet>, day: int) {
    var e := cat.expedition;
    && (colony.founded ==> colony.launched && colony.foundedDay == colony.arrivalDay <= day)
    && (!colony.launched || colony.founded ==> colony.cargo == map[])
    && (colony.launched && !colony.founded ==>
          && colony.launchDay <= day < colony.arrivalDay == colony.launchDay + e.transitDays
          && (forall r | r in colony.cargo :: r < cat.resources)
          && (forall r: nat ::
              Qty(colony.cargo, r) == AfterDays(Qty(e.cargo, r), Qty(e.transitPerDay, r), day - colony.launchDay))
          && colony.residents == e.residents && colony.workers == e.workers
          && e.target < |planets| && !planets[e.target].colonised)
  }

  function PopulationOf(): Planet -> int {
    (p: Planet) => p.population
  }

  function WorkersOf(): Planet -> int {
    (p: Planet) => p.workers
  }

  /** Nobody is born and nobody dies: worlds plus travellers hold the sector's people and workers. */
  ghost predicate PeopleOk(planets: seq<Planet>, colony: Colony, people: int, workforce: int) {
    var travelling := colony.launched && !colony.founded;
    && Sum(planets, PopulationOf()) + (if travelling then colony.residents else 0) == people
    && Sum(planets, WorkersOf()) + (if travelling then colony.workers else 0) == workforce
  }

  function CarriedBy(r: nat): Voyage -> int {
    (v: Voyage) => Qty(v.manifest, r)
  }

  function DeliveredBy(r: nat): Voyage -> int {
    (v: Voyage) => if v.delivered then Qty(v.manifest, r) else 0
  }

  /** The voyage log agrees with the ship: at most the last voyage is still under way. */
  ghost predicate VoyagesOk(voyages: seq<Voyage>, ship: Ship) {
    && (forall i | 0 <= i < |voyages| ::
        voyages[i].delivered || (ship.mission.StrategicOutbound? && i == |voyages| - 1))
    && (ship.mission.StrategicOutbound? ==>
          && |voyages| > 0
          && var last := voyages[|voyages| - 1];
              !last.delivered && last.manifest == ship.cargo && last.delivery == ship.arrivalDay)
  }

  ghost predicate DemandOk(cat: Catalog, d: Demand, ship: Ship) {
    var m := cat.mandate;
    && Positive(d.pending, cat.resources)
    && (!d.requested ==> d.pending == map[])
    && (d.requested ==> d.issued && ship.mission.NoMission?)
    && (d.committed <==> d.requested || !ship.mission.NoMission?)
    && (d.issued ==> d.required == (if d.negotiated then m.negotiated else m.requirement))
    && (!d.issued ==> d.delivered == map[] && d.voyages == [] && !d.resolved && !d.negotiated)
    && (d.resolved <==> !d.decision.Pending?)
    && VoyagesOk(d.voyages, ship)
    && (forall r: nat :: Qty(d.delivered, r) == Sum(d.voyages, DeliveredBy(r)))
    && (forall r: nat :: Sum(d.voyages, CarriedBy(r)) + Qty(d.pending, r) <= Qty(m.requirement, r))
  }

  // ----- the session -----

  /** An authored effect that touches stock, workers or a facility: goods granted from outside or taken out
      of the sector, a crew swapped, a condition brought up to a floor. */
  datatype StockEffect =
    | Grant(planet: nat, resource: nat, quantity: int)
    | Take(planet: nat, resource: nat, quantity: int, to: Account)
    | Swap(facility: nat, count: nat, days: int)
    | Restore(facility: nat, condition: int)
    | Modify(facility: nat)

  /** What catalogue loading guarantees of an effect. */
  ghost predicate EffectOk(cat: Catalog, e: StockEffect, planets: nat) {
    match e
    case Grant(p, r, q) => p < planets && r < cat.resources && 0 <= q
    case Take(p, r, q, to) => p < planets && r < cat.resources && 0 <= q && !Owned(to)
    case Swap(_, _, _) | Modify(_) => true
    case Restore(_, c) => 0 <= c <= BP_ONE
  }

  ghost predicate EffectsOk(cat: Catalog, es: seq<StockEffect>, planets: nat) {
    forall i | 0 <= i < |es| :: EffectOk(cat, es[i], planets)
  }

  /** What the parts of the kernel outside this model contribute to a day: each facility's desired
      throughput, each world's health and fatigue factors, food ration and declared emergency, the
      authored effects due in the morning, and those of the events that resolve, expire or open in the
      evening. */
  datatype DayInputs = DayInputs(
    desired: map<nat, nat>,
    health: seq<int>,
    fatigue: seq<int>,
    foodRatio: seq<int>,
    emergency: seq<bool>,
    due: seq<StockEffect>,
    evening: seq<StockEffect>)

  ghost predicate ValidInputs(cat: Catalog, x: DayInputs, planets: nat) {
    && |x.health| == |x.fatigue| == |x.foodRatio| == |x.emergency| == planets
    && (forall p | 0 <= p < planets :: 0 <= x.health[p] && 0 <= x.fatigue[p] && 0 <= x.foodRatio[p])
    && EffectsOk(cat, x.due, planets) && EffectsOk(cat, x.evening, planets)
  }

  /** One world's working set for the day being resolved. */
  datatype Scratch = Scratch(
    available: seq<int>,
    staged: seq<int>,
    generated: int,
    served: int,
    granted: int,
    building: int,
    pool: int,
    handling: int,
    handlingLeft: int)

  /** What conservation is stated against: the worlds at the start, materials stranded by refunds and
      cargo spilled at the founding, the current shipment as it was loaded, fuel left over from
      completed trips, the sector's people and workers, and whether grants may have taken promised space since
      the last check. */
  datatype Books = Books(
    opening: seq<Planet>,
    stranded: map<(nat, nat), int>,
    spilled: ResourceMap,
    shipped: ResourceMap,
    leftover: int,
    people: int,
    workforce: int,
    overgranted: bool)

  /** Everything the kernel's state holds, as one value, with the full history behind the bounded ledger. */
  datatype World = World(
    day: int,
    nextId: nat,
    planets: seq<Planet>,
    facilities: seq<Facility>,
    transfers: seq<Transfer>,
    ship: Ship,
    route: Route,
    colony: Colony,
    demand: Demand,
    scratch: seq<Scratch>,
    ledger: seq<Move>,
    recorded: seq<Move>,
    books: Books)

  /** Stocks and ledger agree with each other, whatever else is mid-operation. */
  ghost predicate StoresOk(cat: Catalog, planets: seq<Planet>, ledger: seq<Move>, recorded: seq<Move>,
                           opening: seq<Planet>, nextId: nat) {
    && ValidCatalog(cat) && |planets| == |cat.planets| && 0 < nextId
    && StockOk(planets, cat.resources)
    && LedgerOk(ledger, recorded, |planets|, nextId)
    && PlanetsBalance(opening, planets, recorded)
  }

  ghost predicate FreightOk(cat: Catalog, w: World, resolved: int) {
    && ShipOk(cat, w.ship, resolved)
    && TankOk(cat, w.ship, w.books.leftover)
    && ShippedOk(w.ship, w.books.shipped)
    && ClaimsOk(w.planets, w.ship)
    && DemandOk(cat, w.demand, w.ship)
  }

  ghost predicate FreighterOk(cat: Catalog, w: World, resolved: int) {
    FreightOk(cat, w, resolved) && (w.books.overgranted || BookedOk(w.planets))
  }

  ghost predicate BalancesOk(cat: Catalog, w: World) {
    && EscrowBalance(w.facilities, w.books.stranded, w.recorded)
    && ShipBalance(w.ship, cat.fuel, w.recorded)
    && ExpeditionBalance(w.colony, w.books.spilled, w.recorded)
  }

  /** Everything a state satisfies between operations, with colony travel and ship arrivals resolved
      through the given days. Promised space is free unless the books note that a grant took some today. */
  ghost predicate InvAt(cat: Catalog, w: World, colonyDay: int, shipDay: int) {
    && StoresOk(cat, w.planets, w.ledger, w.recorded, w.books.opening, w.nextId)
    && WorkforceOk(cat, w.planets, w.facilities, w.transfers, w.nextId)
    && FreighterOk(cat, w, shipDay)
    && BalancesOk(cat, w)
    && ColonyOk(cat, w.colony, w.planets, colonyDay)
    && PeopleOk(w.planets, w.colony, w.books.people, w.books.workforce)
  }

  /** All of that but the booking rule: what holds while grants from outside may have taken space that is
      promised, until the next check. */
  ghost predicate LooseAt(cat: Catalog, w: World, colonyDay: int, shipDay: int) {
    && StoresOk(cat, w.planets, w.ledger, w.recorded, w.books.opening, w.nextId)
    && WorkforceOk(cat, w.planets, w.facilities, w.transfers, w.nextId)
    && FreightOk(cat, w, shipDay)
    && BalancesOk(cat, w)
    && ColonyOk(cat, w.colony, w.planets, colonyDay)
    && PeopleOk(w.planets, w.colony, w.books.people, w.books.workforce)
  }

  lemma InvIsLooseAndBooked(cat: Catalog, w: World, d: int, d': int)
    ensures InvAt(cat, w, d, d') <==> LooseAt(cat, w, d, d') && (w.books.overgranted || BookedOk(w.planets))
  {
    hide StoresOk, WorkforceOk, FreightOk, BalancesOk, ColonyOk, PeopleOk, BookedOk;
  }

  /** What every committed state satisfies: nothing granted beyond what is free, and no facility overstaffed. */
  ghost predicate Inv(cat: Catalog, w: World) {
    InvAt(cat, w, w.day, w.day) && !w.books.overgranted && StaffedOk(cat, w.facilities)
  }

  class Session {
    const cat: Catalog
    var day: int
    var nextId: nat
    var planets: seq<Planet>
    var facilities: seq<Facility>
    var transfers: seq<Transfer>
    var ship: Ship
    var route: Route
    var colony: Colony
    var demand: Demand
    var scratch: seq<Scratch>
    var ledger: seq<Move>

    ghost var recorded: seq<Move>
    ghost var books: Books

    /** A session over a given state, with the history and the books it is checked against. */
    constructor FromState(cat: Catalog, w: World)
      ensures this.cat == cat && Now() == w
    {
      this.cat := cat;
      day, nextId, planets, facilities, transfers := w.day, w.nextId, w.planets, w.facilities, w.transfers;
      ship, route, colony, demand, scratch, ledger := w.ship, w.route, w.colony, w.demand, w.scratch, w.ledger;
      recorded, books := w.recorded, w.books;
    }

    ghost function Now(): World
      reads this
    {
      World(day, nextId, planets, facilities, transfers, ship, route, colony, demand, scratch, ledger, recorded, books)
    }

    ghost predicate Stores()
      reads this
    {
      StoresOk(cat, planets, ledger, recorded, books.opening, nextId)
    }
  }
}
