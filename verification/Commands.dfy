/** Player commands between days: each is applied whole or leaves the state as it was. */
module Commands {
  import opened Sums
  import opened Stock
  import opened Ledger
  import opened Catalog
  import opened State
  import opened Support
  import opened Chains
  import opened Workforce
  import opened Construction
  import opened Departures
  import opened Outside
  import opened Upkeep
  import opened Postings
  import opened Relief
  import opened Effects
  import opened Expedition
  import opened Mandate
  import opened Maintenance
  import opened Determined
  import opened Building
  import opened Totality
  import opened Resolver

  datatype RouteEdit =
    | Outbound
    | Homebound
    | Enable(on: bool)
    | Floors(floors: ResourceMap, waived: set<nat>)
    | Interval(days: int)

  /** What a response asks for before it is taken: a cost, workers in Reserve, and workers at the event's site. */
  datatype Terms = Terms(cost: ResourceMap, reserve: int, onSite: int, site: nat)

  datatype Command =
    | AssignCrew(planet: nat, from: nat, to: nat, count: int)
    | SetPriority(facility: nat, band: int)
    | SetIdle(facility: nat, idle: bool)
    | Build(planet: nat, kind: nat, recipe: Option<nat>)
    | CancelBuild(facility: nat)
    | Service(facility: nat)
    | EditRoute(edit: RouteEdit, targets: ResourceMap)
    | Authorise(allowEmpty: bool)
    | Launch(named: Option<nat>)
    | Choose(planet: nat, terms: Terms, effects: seq<StockEffect>)
    | Respond(response: Response)
    | SendMission(asked: ResourceMap)
    | AskRelief(planet: nat)

  // ----- route plan -----

  predicate RouteAllowed(cat: Catalog, edit: RouteEdit, targets: ResourceMap) {
    && (forall r | r in targets :: r < cat.resources && 0 <= targets[r])
    && (edit.Interval? ==> 1 <= edit.days)
  }

  function Merged(a: ResourceMap, b: ResourceMap): ResourceMap {
    map r | r in a.Keys + b.Keys :: if r in b then b[r] else a[r]
  }

  function Edited(route: Route, edit: RouteEdit, targets: ResourceMap, day: int): Route {
    match edit
    case Outbound => route.(outbound := targets)
    case Homebound => route.(homebound := targets)
    case Enable(on) => route.(enabled := on, nextDeparture := if on && route.nextDeparture < day then day + 1
         else route.nextDeparture)
    case Floors(floors, waived) => route.(floors := Merged(route.floors, floors), waived := route.waived + waived)
    case Interval(days) => route.(interval := days)
  }

  /** What an edit of floors means at the next loading: a waived resource keeps nothing back, an authored
      floor is in force as it was given, whatever its sign, and every other floor is as before. */
  lemma FloorsInForce(cat: Catalog, route: Route, floors: ResourceMap, waived: set<nat>, targets: ResourceMap, day: int,
                      planets: seq<Planet>, fs: seq<Facility>, p: nat, r: nat, ratio: int)
    requires p < |planets|
    ensures ReserveFloor(cat, Edited(route, Floors(floors, waived), targets, day), planets, fs, p, r, ratio) ==
              if r in waived then 0
              else if r in floors && r !in route.waived then floors[r]
              else ReserveFloor(cat, route, planets, fs, p, r, ratio)
  {
    hide DefaultFloor;
  }

  predicate AuthoriseAllowed(ship: Ship, day: int) {
    ship.mission.NoMission? && ship.phase.Docked? && ship.earliest <= day
  }

  // ----- a choice that costs and has effects -----

  /** Once paid for, some effect lacks what it needs, or a store ends with promised space taken. */
  ghost predicate ChooseStops(cat: Catalog, w: World, p: nat, cost: ResourceMap, effects: seq<StockEffect>) {
    exists mid :: SpendStep(cat, w, mid, p, cost, SinkEvent) &&
      (EffectsStop(cat, mid, effects) || exists e :: EffectsStep(cat, mid, e, effects) && !BookedOk(e.planets))
  }

  /** The workers a response asks for are there. */
  ghost predicate Staffed(w: World, p: nat, t: Terms)
    requires p < |w.planets|
  {
    && (0 < t.reserve ==> t.reserve <= ReserveOf(w.planets[p], w.facilities, w.transfers, p))
    && (0 < t.onSite ==> Lookup(w.facilities, t.site).Some? && t.onSite <= Lookup(w.facilities, t.site).value.staff)
  }

  ghost predicate ChooseAllowed(cat: Catalog, w: World, p: nat, t: Terms, effects: seq<StockEffect>) {
    p < |w.planets| && Affords(w.planets[p].stock, t.cost, cat.resources) && Staffed(w, p, t)
        && !ChooseStops(cat, w, p, t.cost, effects)
  }

  ghost predicate ChooseStep(cat: Catalog, w: World, w': World, p: nat, t: Terms, effects: seq<StockEffect>) {
    && p < |w.planets| && Affords(w.planets[p].stock, t.cost, cat.resources) && Staffed(w, p, t)
    && (exists mid :: SpendStep(cat, w, mid, p, t.cost, SinkEvent) && EffectsStep(cat, mid, w', effects))
    && BookedOk(w'.planets)
  }

  lemma ChooseKeepsInv(cat: Catalog, w: World, w': World, p: nat, t: Terms, effects: seq<StockEffect>, d: int, d': int)
    requires InvAt(cat, w, d, d') && ChooseStep(cat, w, w', p, t, effects)
    requires Positive(t.cost, cat.resources) && EffectsOk(cat, effects, |w.planets|)
    ensures InvAt(cat, w', d, d') && w'.day == w.day && |w'.planets| == |w.planets| && w'.books == w.books
    ensures NoneFuller(w.facilities, w'.facilities)
  {
    hide InvAt, LooseAt, Affords, SpendStep, EffectsStep, EffectsOk, BookedOk, NoneFuller;
    var mid :| SpendStep(cat, w, mid, p, t.cost, SinkEvent) && EffectsStep(cat, mid, w', effects);
    SpendKeepsInv(cat, w, mid, p, t.cost, SinkEvent, d, d');
    SpendKeepsWidth(cat, w, mid, p, t.cost, SinkEvent);
    InvIsLooseAndBooked(cat, mid, d, d');
    EffectsKeepInv(cat, mid, w', effects, d, d');
    InvIsLooseAndBooked(cat, w', d, d');
  }

  /** A choice has one outcome, and only an allowed one has any. */
  lemma ChooseSame(cat: Catalog, a: World, a': World, b: World, b': World, p: nat, t: Terms, effects: seq<StockEffect>)
    requires Same(a, b) && ChooseStep(cat, a, a', p, t, effects)
    ensures ChooseStep(cat, b, b', p, t, effects) ==> Same(a', b')
    ensures ChooseAllowed(cat, b, p, t, effects)
  {
    hide Same, Affords, Staffed, SpendStep, EffectsStep, EffectsStop, BookedOk;
    SameStores(a, b);
    SameStaff(a, b, p, t);
    var mid :| SpendStep(cat, a, mid, p, t.cost, SinkEvent) && EffectsStep(cat, mid, a', effects);
    forall n | SpendStep(cat, b, n, p, t.cost, SinkEvent)
      ensures !EffectsStop(cat, n, effects)
      ensures forall e :: EffectsStep(cat, n, e, effects) ==> Same(a', e) && BookedOk(e.planets)
    {
      SpendSame(cat, a, mid, b, n, p, t.cost, SinkEvent);
      EffectsSame(cat, mid, a', n, a', effects);
      forall e | EffectsStep(cat, n, e, effects) ensures Same(a', e) && BookedOk(e.planets) {
        EffectsSame(cat, mid, a', n, e, effects);
        SameStores(a', e);
      }
    }
  }

  lemma SameStaff(a: World, b: World, p: nat, t: Terms)
    requires Same(a, b) && p < |a.planets|
    ensures p < |b.planets| && Staffed(a, p, t) == Staffed(b, p, t)
  {
    hide ReserveOf, Lookup;
  }

  method PayChoice(s: Session, p: nat, cost: ResourceMap)
    requires s.Stores() && p < |s.planets| && Positive(cost, s.cat.resources)
             && Affords(s.planets[p].stock, cost, s.cat.resources)
    modifies s`planets, s`ledger, s`recorded
    ensures SpendStep(s.cat, old(s.Now()), s.Now(), p, cost, SinkEvent)
  {
    hide Sum, Net, LedgerOk, PlanetsBalance, StockOk, Posted, Debited, ValidCatalog, Affords;
    DebitAll(s, p, cost, SinkEvent);
    assert unchanged(s`day, s`nextId, s`facilities, s`transfers, s`ship, s`route, s`colony, s`demand, s`scratch,
           s`books);
  }

  /** Whether the workers a response asks for are there. */
  method HasWorkers(s: Session, p: nat, t: Terms) returns (ok: bool)
    requires p < |s.planets| && SortedById(s.facilities)
    ensures ok == Staffed(s.Now(), p, t)
  {
    if 0 < t.reserve {
      var reserve := WorkersReserve(s.planets[p], s.facilities, s.transfers, p);
      if reserve < t.reserve {
        return false;
      }
    }
    if 0 < t.onSite {
      var site := FindFacility(s.facilities, t.site);
      return site.Some? && t.onSite <= s.facilities[site.value].staff;
    }
    return true;
  }

  /** Pays a choice, runs its effects and checks the stores. */
  method TryChoice(s: Session, p: nat, t: Terms, effects: seq<StockEffect>) returns (fine: bool)
    requires Inv(s.cat, s.Now()) && Positive(t.cost, s.cat.resources) && EffectsOk(s.cat, effects, |s.planets|)
    requires p < |s.planets| && Affords(s.planets[p].stock, t.cost, s.cat.resources) && Staffed(s.Now(), p, t)
    modifies s`planets, s`facilities, s`transfers, s`nextId, s`ledger, s`recorded
    ensures if fine then ChooseStep(s.cat, old(s.Now()), s.Now(), p, t, effects) else ChooseStops(s.cat, old(s.Now()),
            p, t.cost, effects)
  {
    hide InvAt, LooseAt, Affords, Staffed, SpendStep, EffectsStep, EffectsStop, EffectsOk, StoresOk, FacilitiesOk,
         BookedOk, StockOk;
    ghost var w := s.Now();
    MaintenanceNeeds(s, s.day, s.day);
    PayChoice(s, p, t.cost);
    ghost var mid := s.Now();
    SpendKeepsInv(s.cat, w, mid, p, t.cost, SinkEvent, w.day, w.day);
    SpendKeepsWidth(s.cat, w, mid, p, t.cost, SinkEvent);
    InvIsLooseAndBooked(s.cat, mid, w.day, w.day);
    fine := RunEffects(s, effects, w.day, w.day);
    if fine {
      EffectsKeepInv(s.cat, mid, s.Now(), effects, w.day, w.day);
      LooseNeeds(s, w.day, w.day);
      fine := StoresBooked(s.planets, s.cat.resources);
    }
  }

  /** Pays a choice and runs its effects; when one raises an error, or a store ends overbooked, everything is
      put back. */
  method ChooseEvent(s: Session, p: nat, t: Terms, effects: seq<StockEffect>) returns (accepted: bool)
    requires Inv(s.cat, s.Now()) && Positive(t.cost, s.cat.resources) && EffectsOk(s.cat, effects, |s.planets|)
    modifies s`planets, s`facilities, s`transfers, s`nextId, s`ledger, s`recorded
    ensures accepted <==> ChooseAllowed(s.cat, old(s.Now()), p, t, effects)
    ensures if accepted then ChooseStep(s.cat, old(s.Now()), s.Now(), p, t, effects) else s.Now() == old(s.Now())
  {
    hide InvAt, Affords, Staffed, ChooseStep, ChooseStops, EffectsOk, StoresOk, FacilitiesOk;
    MaintenanceNeeds(s, s.day, s.day);
    if p >= |s.planets| {
      return false;
    }
    WorldSound(s, p);
    PositiveBelow(t.cost, s.cat.resources);
    var affordable := CanAfford(s.planets[p].stock, t.cost, s.cat.resources);
    if !affordable {
      return false;
    }
    Facilities(s.cat, s.Now());
    var staffed := HasWorkers(s, p, t);
    if !staffed {
      return false;
    }
    ghost var w := s.Now();
    var planets, facilities, transfers, nextId, ledger := s.planets, s.facilities, s.transfers, s.nextId, s.ledger;
    accepted := TryChoice(s, p, t, effects);
    if accepted {
      SameAsItself(w);
      ChooseSame(s.cat, w, s.Now(), w, s.Now(), p, t, effects);
    } else {
      s.planets, s.facilities, s.transfers, s.nextId, s.ledger := planets, facilities, transfers, nextId, ledger;
      s.recorded := w.recorded;
      assert unchanged(s`day, s`ship, s`route, s`colony, s`demand, s`scratch, s`books);
    }
  }

  lemma PositiveBelow(m: ResourceMap, n: nat)
    requires Positive(m, n)
    ensures forall r | r in m :: r < n
  {
  }

  lemma WorldSound(s: Session, p: nat)
    requires s.Stores() && p < |s.planets|
    ensures s.planets[p].stock.Sound(s.cat.resources)
  {
    hide Sum, LedgerOk, PlanetsBalance, ValidCatalog;
  }

  // ----- any command -----

  /** What a command's arguments must be whatever the state: named resources and worlds exist. */
  ghost predicate CommandOk(cat: Catalog, c: Command, planets: nat) {
    match c
    case Choose(p, t, effects) => Positive(t.cost, cat.resources) && EffectsOk(cat, effects, planets)
    case _ => true
  }

  /** When a command is accepted. */
  ghost predicate CommandAllowed(cat: Catalog, w: World, c: Command) {
    match c
    case AssignCrew(p, from, to, count) => AssignAllowed(cat, w.planets, w.facilities, w.transfers, p, from, to, count)
    case SetPriority(id, band) => 1 <= band <= 99 && Lookup(w.facilities, id).Some?
    case SetIdle(id, _) => Lookup(w.facilities, id).Some?
    case Build(p, kind, recipe) => BuildAllowed(cat, w.planets, w.facilities, p, kind, recipe)
    case CancelBuild(id) => CancelAllowed(w.planets, w.facilities, id)
    case Service(id) => exists i: nat :: i < |w.facilities| && w.facilities[i].id == id && ServiceAllowed(cat, w, i)
    case EditRoute(edit, targets) => RouteAllowed(cat, edit, targets)
    case Authorise(_) => AuthoriseAllowed(w.ship, w.day)
    case Launch(named) => LaunchAllowed(cat, w, named)
    case Choose(p, t, effects) => ChooseAllowed(cat, w, p, t, effects)
    case Respond(response) => RespondAllowed(cat, w.demand, w.day, response)
    case SendMission(asked) => MissionAllowed(cat, w, asked)
    case AskRelief(p) => ReliefAllowed(w, p)
  }

  ghost predicate TuneAt(w: World, w': World, id: nat, i: nat, f: Facility) {
    i < |w.facilities| && w.facilities[i].id == id && w' == w.(facilities := w.facilities[i := f])
  }

  /** The transition of an accepted command. */
  ghost predicate CommandStep(cat: Catalog, w: World, w': World, c: Command) {
    match c
    case AssignCrew(p, from, to, count) =>
      AssignStep(cat, w, w', p, from, to, count)
    case SetPriority(id, band) =>
      1 <= band <= 99 && exists i: nat :: i < |w.facilities| && TuneAt(w, w', id, i, w.facilities[i].(band := band))
    case SetIdle(id, idle) =>
      exists i: nat :: i < |w.facilities| && TuneAt(w, w', id, i, w.facilities[i].(idle := idle))
    case Build(p, kind, recipe) =>
      BuildStep(cat, w, w', p, kind, recipe)
    case CancelBuild(id) =>
      CancelStep(cat, w, w', id)
    case Service(id) =>
      exists i: nat :: i < |w.facilities| && w.facilities[i].id == id && ServiceAllowed(cat, w, i)
          && ServiceStep(cat, w, w', i)
    case EditRoute(edit, targets) =>
      RouteAllowed(cat, edit, targets) && w' == w.(route := Edited(w.route, edit, targets, w.day))
    case Authorise(allowEmpty) =>
      AuthoriseAllowed(w.ship, w.day) && w' == w.(route := w.route.(requested := true, allowEmpty := allowEmpty))
    case Launch(named) =>
      LaunchAllowed(cat, w, named) && LaunchStep(cat, w, w')
    case Choose(p, t, effects) =>
      ChooseStep(cat, w, w', p, t, effects)
    case Respond(response) =>
      RespondStep(cat, w, w', response)
    case SendMission(asked) =>
      MissionStep(cat, w, w', asked)
    case AskRelief(p) =>
      ReliefAllowed(w, p) && RequestStep(cat, w, w', p)
  }

  lemma TuneAtKeeps(cat: Catalog, w: World, w': World, id: nat, i: nat, f: Facility, d: int, d': int)
    requires InvAt(cat, w, d, d') && TuneAt(w, w', id, i, f)
    requires f == w.facilities[i].(band := f.band, idle := f.idle)
    ensures InvAt(cat, w', d, d')
  {
    hide InvAt;
    FacilityRanges(cat, w, d, d');
    assert AllTuned(cat, w.facilities, w'.facilities);
    TuneKeepsInv(cat, w, w', d, d');
  }

  lemma FacilityRanges(cat: Catalog, w: World, d: int, d': int)
    requires InvAt(cat, w, d, d')
    ensures forall i | 0 <= i < |w.facilities| ::
            cat.rules.conditionMin <= w.facilities[i].condition <= cat.rules.conditionMax
  {
    hide StoresOk, FreighterOk, BalancesOk, ColonyOk, PeopleOk, TransfersOk, WorkersOk, StaffOk, SlotsOk, JobOk;
    forall i | 0 <= i < |w.facilities|
        ensures cat.rules.conditionMin <= w.facilities[i].condition <= cat.rules.conditionMax {
      assert FacilityOk(cat, w.facilities[i], |w.planets|);
    }
  }

  /** Every accepted command takes a committed state to a committed state, so the check that follows it
      never has anything to undo. */
  lemma CommandKeepsInv(cat: Catalog, w: World, w': World, c: Command)
    requires Inv(cat, w) && CommandStep(cat, w, w', c) && CommandOk(cat, c, |w.planets|)
    ensures Inv(cat, w') && w'.day == w.day
  {
    hide InvAt, AssignStep, BuildStep, CancelStep, ServiceAllowed, ServiceStep, LaunchAllowed, LaunchStep, ChooseStep,
         RespondStep, MissionStep, RequestStep, EffectsOk, TuneAt, Positive, StaffedOk, NoneFuller, ValidCatalog;
    CatalogHolds(cat, w, w.day, w.day);
    match c {
      case AssignCrew(p, from, to, count) => AssignKeepsInv(cat, w, w', p, from, to, count, w.day, w.day);
           AssignDay(cat, w, w', p, from, to, count);
      case SetPriority(id, band) =>
        var i: nat :| i < |w.facilities| && TuneAt(w, w', id, i, w.facilities[i].(band := band));
        TuneAtKeeps(cat, w, w', id, i, w.facilities[i].(band := band), w.day, w.day);
        TunedDay(w, w', id, i, w.facilities[i].(band := band));
      case SetIdle(id, idle) =>
        var i: nat :| i < |w.facilities| && TuneAt(w, w', id, i, w.facilities[i].(idle := idle));
        TuneAtKeeps(cat, w, w', id, i, w.facilities[i].(idle := idle), w.day, w.day);
        TunedDay(w, w', id, i, w.facilities[i].(idle := idle));
      case Build(p, kind, recipe) => BuildKeepsInv(cat, w, w', p, kind, recipe, w.day);
           BuildDay(cat, w, w', p, kind, recipe); BuildStaffed(cat, w, w', p, kind, recipe);
      case CancelBuild(id) => CancelKeepsInv(cat, w, w', id, w.day);
           CancelDay(cat, w, w', id); CancelStaffed(cat, w, w', id);
      case Service(id) =>
        var i: nat :| i < |w.facilities| && w.facilities[i].id == id && ServiceAllowed(cat, w, i)
            && ServiceStep(cat, w, w', i);
        ServiceKeepsInv(cat, w, w', i, w.day, w.day);
        ServiceDay(cat, w, w', i);
      case EditRoute(edit, targets) => PlanIsFree(cat, w, w', w.day, w.day);
      case Authorise(allowEmpty) => PlanIsFree(cat, w, w', w.day, w.day);
      case Launch(named) => LaunchKeepsInv(cat, w, w', named, w.day); LaunchDay(cat, w, w');
      case Choose(p, t, effects) => ChooseKeepsInv(cat, w, w', p, t, effects, w.day, w.day);
      case Respond(response) => RespondKeepsInv(cat, w, w', response, w.day, w.day); RespondDay(cat, w, w', response);
      case SendMission(asked) => MissionKeepsInv(cat, w, w', asked, w.day, w.day); MissionDay(cat, w, w', asked);
      case AskRelief(p) => RequestKeepsInv(cat, w, w', p, w.day, w.day); RequestDay(cat, w, w', p);
    }
    if NoneFuller(w.facilities, w'.facilities) {
      NoneFullerStaffed(cat, w.facilities, w'.facilities);
    }
  }

  lemma BuildStaffed(cat: Catalog, w: World, w': World, p: nat, kind: nat, recipe: Option<nat>)
    requires ValidCatalog(cat) && StaffedOk(cat, w.facilities) && BuildStep(cat, w, w', p, kind, recipe)
    ensures StaffedOk(cat, w'.facilities)
  {
    hide Sum, Posted, Debited, LedgerOk, Affords, ValidFreight, ValidExpedition, ValidMandate, ValidRules;
    var n := if recipe.Some? then recipe.value else 0;
    assert ValidFacility(cat, cat.facilities[kind]) && ValidRecipe(cat, cat.facilities[kind].recipes[n]);
  }

  lemma CancelStaffed(cat: Catalog, w: World, w': World, id: nat)
    requires StaffedOk(cat, w.facilities) && CancelStep(cat, w, w', id)
    ensures StaffedOk(cat, w'.facilities)
  {
    hide Sum, Posted, Credited, LedgerOk, Lookup, Without;
    WithoutStaffed(cat, w.facilities, id);
  }

  lemma {:induction false} WithoutStaffed(cat: Catalog, fs: seq<Facility>, id: nat)
    requires StaffedOk(cat, fs)
    ensures StaffedOk(cat, Without(fs, id))
  {
    if fs != [] {
      WithoutStaffed(cat, fs[..|fs| - 1], id);
    }
  }

  lemma CatalogHolds(cat: Catalog, w: World, d: int, d': int)
    requires InvAt(cat, w, d, d')
    ensures ValidCatalog(cat)
  {
    hide WorkforceOk, FreighterOk, BalancesOk, ColonyOk, PeopleOk, LedgerOk, PlanetsBalance, StockOk, ValidFacility,
         ValidFreight, ValidExpedition, ValidMandate, ValidRules;
  }

  lemma AssignDay(cat: Catalog, w: World, w': World, p: nat, from: nat, to: nat, count: int)
    requires AssignStep(cat, w, w', p, from, to, count)
    ensures w'.day == w.day && w'.books.overgranted == w.books.overgranted && NoneFuller(w.facilities, w'.facilities)
  {
  }

  lemma TunedDay(w: World, w': World, id: nat, i: nat, f: Facility)
    requires TuneAt(w, w', id, i, f) && f == w.facilities[i].(band := f.band, idle := f.idle)
    ensures w'.day == w.day && w'.books.overgranted == w.books.overgranted && NoneFuller(w.facilities, w'.facilities)
  {
  }

  lemma BuildDay(cat: Catalog, w: World, w': World, p: nat, kind: nat, recipe: Option<nat>)
    requires BuildStep(cat, w, w', p, kind, recipe)
    ensures w'.day == w.day && w'.books.overgranted == w.books.overgranted
  {
  }

  lemma CancelDay(cat: Catalog, w: World, w': World, id: nat)
    requires CancelStep(cat, w, w', id)
    ensures w'.day == w.day && w'.books.overgranted == w.books.overgranted
  {
  }

  lemma ServiceDay(cat: Catalog, w: World, w': World, i: nat)
    requires ServiceStep(cat, w, w', i)
    ensures w'.day == w.day && w'.books.overgranted == w.books.overgranted && NoneFuller(w.facilities, w'.facilities)
  {
  }

  lemma LaunchDay(cat: Catalog, w: World, w': World)
    requires LaunchStep(cat, w, w')
    ensures w'.day == w.day && w'.books.overgranted == w.books.overgranted && NoneFuller(w.facilities, w'.facilities)
  {
  }

  lemma RespondDay(cat: Catalog, w: World, w': World, response: Response)
    requires RespondStep(cat, w, w', response)
    ensures w'.day == w.day && w'.books.overgranted == w.books.overgranted && NoneFuller(w.facilities, w'.facilities)
  {
  }

  lemma MissionDay(cat: Catalog, w: World, w': World, asked: ResourceMap)
    requires MissionStep(cat, w, w', asked)
    ensures w'.day == w.day && w'.books.overgranted == w.books.overgranted && NoneFuller(w.facilities, w'.facilities)
  {
  }

  lemma RequestDay(cat: Catalog, w: World, w': World, p: nat)
    requires RequestStep(cat, w, w', p)
    ensures w'.day == w.day && w'.books.overgranted == w.books.overgranted && NoneFuller(w.facilities, w'.facilities)
  {
  }

  // ----- the dispatcher -----

  method TuneFacility(s: Session, c: Command) returns (accepted: bool)
    requires FacilitiesOk(s.cat, s.facilities, |s.planets|, s.nextId) && (c.SetPriority? || c.SetIdle?)
    modifies s`facilities
    ensures accepted <==> CommandAllowed(s.cat, old(s.Now()), c)
    ensures if accepted then CommandStep(s.cat, old(s.Now()), s.Now(), c) else s.Now() == old(s.Now())
  {
    hide FacilityOk, Lookup;
    if c.SetPriority? && !(1 <= c.band <= 99) {
      return false;
    }
    var found := FindFacility(s.facilities, c.facility);
    if found.None? {
      return false;
    }
    var i := found.value;
    ghost var w := s.Now();
    var f := if c.SetPriority? then s.facilities[i].(band := c.band) else s.facilities[i].(idle := c.idle);
    s.facilities := s.facilities[i := f];
    assert TuneAt(w, s.Now(), c.facility, i, f);
    accepted := true;
  }

  method ChangeRoute(s: Session, c: Command) returns (accepted: bool)
    requires c.EditRoute? || c.Authorise?
    modifies s`route
    ensures accepted <==> CommandAllowed(s.cat, old(s.Now()), c)
    ensures if accepted then CommandStep(s.cat, old(s.Now()), s.Now(), c) else s.Now() == old(s.Now())
  {
    match c {
      case EditRoute(edit, targets) =>
        accepted := RouteAllowed(s.cat, edit, targets);
        if accepted {
          s.route := Edited(s.route, edit, targets, s.day);
        }
      case Authorise(allowEmpty) =>
        accepted := AuthoriseAllowed(s.ship, s.day);
        if accepted {
          s.route := s.route.(requested := true, allowEmpty := allowEmpty);
        }
    }
  }

  lemma CommandNeeds(s: Session)
    requires Inv(s.cat, s.Now())
    ensures s.Stores() && FacilitiesOk(s.cat, s.facilities, |s.planets|, s.nextId) && BookedOk(s.planets)
    ensures WorkforceOk(s.cat, s.planets, s.facilities, s.transfers, s.nextId) && ShipOk(s.cat, s.ship, s.day)
  {
    hide StoresOk, BalancesOk, ColonyOk, PeopleOk, TransfersOk, WorkersOk, StaffOk, SlotsOk, FacilitiesOk, ShipOk,
         DemandOk, ClaimsOk, TankOk, ShippedOk, BookedOk;
  }

  /** The commands about the freighter, the expedition and the mandate. */
  method ApplyVoyage(s: Session, c: Command) returns (accepted: bool)
    requires Inv(s.cat, s.Now()) && (c.Launch? || c.Respond? || c.SendMission? || c.EditRoute? || c.Authorise?)
    modifies s`planets, s`colony, s`demand, s`route, s`nextId, s`ledger, s`recorded
    ensures accepted <==> CommandAllowed(s.cat, old(s.Now()), c)
    ensures if accepted then CommandStep(s.cat, old(s.Now()), s.Now(), c) else s.Now() == old(s.Now())
  {
    hide Inv, StoresOk, WorkforceOk, FacilitiesOk, ShipOk, LaunchAllowed, LaunchStep, RespondAllowed, Responded,
         MissionAllowed, MissionStep;
    CommandNeeds(s);
    MandateReady(s);
    if c.Launch? {
      accepted := LaunchColonization(s, c.named);
    } else if c.Respond? {
      accepted := RespondToDemand(s, c.response);
    } else if c.SendMission? {
      accepted := LaunchStrategicMission(s, c.asked);
    } else {
      accepted := ChangeRoute(s, c);
    }
  }

  lemma MandateReady(s: Session)
    requires Inv(s.cat, s.Now())
    ensures s.demand.issued ==> forall r | r in s.demand.required :: r < s.cat.resources
  {
    MandateNeeds(s.cat, s.Now(), s.day, s.day);
  }

  method ApplyService(s: Session, c: Command) returns (accepted: bool)
    requires s.Stores() && FacilitiesOk(s.cat, s.facilities, |s.planets|, s.nextId) && c.Service?
    modifies s`planets, s`facilities, s`ledger, s`recorded
    ensures accepted <==> CommandAllowed(s.cat, old(s.Now()), c)
    ensures if accepted then CommandStep(s.cat, old(s.Now()), s.Now(), c) else s.Now() == old(s.Now())
  {
    hide StoresOk, FacilitiesOk, ServiceAllowed, ServiceStep;
    ghost var i;
    accepted, i := ServiceFacility(s, c.facility);
  }

  /** Applies one command to a committed state: its whole transition exactly when it is allowed, and nothing
      at all otherwise. */
  method ApplyCommand(s: Session, c: Command) returns (accepted: bool)
    requires Inv(s.cat, s.Now()) && CommandOk(s.cat, c, |s.planets|)
    modifies s
    ensures accepted <==> CommandAllowed(s.cat, old(s.Now()), c)
    ensures if accepted then CommandStep(s.cat, old(s.Now()), s.Now(), c) else s.Now() == old(s.Now())
    ensures Inv(s.cat, s.Now())
  {
    hide Inv, StoresOk, WorkforceOk, FacilitiesOk, ShipOk, BookedOk, AssignAllowed, AssignStep, BuildAllowed, BuildStep,
         CancelAllowed, CancelStep, ChooseStep, ChooseAllowed, ReliefAllowed, RequestStep, EffectsOk, Positive,
         ServiceAllowed, ServiceStep, LaunchAllowed, LaunchStep, MissionAllowed, MissionStep, RespondAllowed,
         RespondStep, RouteAllowed, Lookup, TuneAt;
    CommandNeeds(s);
    ghost var w := s.Now();
    match c {
      case AssignCrew(p, from, to, count) => accepted := AssignWorkers(s, p, from, to, count);
      case Build(p, kind, recipe) => accepted := StartConstruction(s, p, kind, recipe);
      case CancelBuild(id) => accepted := CancelConstruction(s, id);
      case Service(id) => accepted := ApplyService(s, c);
      case Choose(p, t, effects) => accepted := ChooseEvent(s, p, t, effects);
      case AskRelief(p) => accepted := RequestRelief(s, p);
      case SetPriority(id, band) => accepted := TuneFacility(s, c);
      case SetIdle(id, idle) => accepted := TuneFacility(s, c);
      case _ => accepted := ApplyVoyage(s, c);
    }
    if accepted {
      CommandKeepsInv(s.cat, w, s.Now(), c);
    }
  }

  // ----- one outcome -----

  lemma BuildStepSame(cat: Catalog, a: World, a': World, b: World, b': World, p: nat, kind: nat, recipe: Option<nat>)
    requires Same(a, b) && BuildStep(cat, a, a', p, kind, recipe) && BuildStep(cat, b, b', p, kind, recipe)
    ensures Same(a', b')
  {
    hide Sum, Affords, NewJob, Debited, Posted, LedgerOk;
    DebitedOnce(a.planets, a'.planets, b'.planets, p, cat.facilities[kind].buildCost);
  }

  lemma CancelSame(cat: Catalog, a: World, a': World, b: World, b': World, id: nat)
    requires Same(a, b) && CancelStep(cat, a, a', id) && CancelStep(cat, b, b', id)
    ensures Same(a', b')
  {
    hide Lookup, Without, Strand, CrewHome, Credited, Posted, LedgerOk;
    var f := Lookup(a.facilities, id).value;
    CreditedOnce(a.planets, a'.planets, b'.planets, f.planet, Refund(f.job.value.escrow, a.planets[f.planet].stock));
  }

  lemma LaunchSame(cat: Catalog, a: World, a': World, b: World, b': World)
    requires Same(a, b) && LaunchStep(cat, a, a') && LaunchStep(cat, b, b')
    ensures Same(a', b')
  {
    hide Debited, LaunchPosted, LedgerOk, Travelling, Settled;
    var e, home := cat.expedition, cat.freight.origin;
    DebitedOnce(a.planets, Settled(a'.planets, home, e.residents, e.workers),
        Settled(b'.planets, home, e.residents, e.workers), home, e.launchCost);
    SettledInverse(a'.planets, b'.planets, home, e.residents, e.workers);
  }

  lemma SettledInverse(a: seq<Planet>, b: seq<Planet>, p: nat, people: int, workers: int)
    requires p < |a| == |b| && Settled(a, p, people, workers) == Settled(b, p, people, workers)
    ensures a == b
  {
    SettledBack(a, p, -people, -workers);
    SettledBack(b, p, -people, -workers);
  }

  lemma ServiceStepSame(cat: Catalog, a: World, a': World, b: World, b': World, i: nat)
    requires Same(a, b) && ServiceStep(cat, a, a', i) && ServiceStep(cat, b, b', i)
    ensures Same(a', b')
  {
    hide SpendStep;
    SpendSame(cat, a, a'.(facilities := a.facilities), b, b'.(facilities := b.facilities), a.facilities[i].planet,
              Single(cat.machinery, cat.rules.serviceCost), SinkEvent);
  }

  /** An id names one facility. */
  lemma OnePlace(fs: seq<Facility>, i: nat, j: nat)
    requires SortedById(fs) && i < |fs| && j < |fs| && fs[i].id == fs[j].id
    ensures i == j
  {
  }

  /** A command has one outcome, up to how its ledger entries are written down, and only an allowed command
      has any. */
  lemma CommandIsDetermined(cat: Catalog, a: World, a': World, b: World, b': World, c: Command)
    requires Same(a, b) && Inv(cat, a) && CommandStep(cat, a, a', c)
    ensures CommandStep(cat, b, b', c) ==> Same(a', b')
    ensures CommandAllowed(cat, b, c)
  {
    hide InvAt, AssignAllowed, BuildStep, BuildAllowed, CancelStep, CancelAllowed, ServiceAllowed, ServiceStep,
         LaunchAllowed, LaunchStep, ChooseStep, ChooseAllowed, RespondAllowed, Responded, MissionAllowed, ReliefAllowed,
         Lookup, Edited, StaffedOk, RouteAllowed, MissionStep, RequestStep;
    Facilities(cat, a);
    SameHandling(cat, a, b, c);
    match c {
      case AssignCrew(_, _, _, _) =>
      case SetPriority(id, band) =>
        var i: nat :| i < |a.facilities| && TuneAt(a, a', id, i, a.facilities[i].(band := band));
        LookupFinds(a.facilities, i);
        if CommandStep(cat, b, b', c) {
          var j: nat :| j < |b.facilities| && TuneAt(b, b', id, j, b.facilities[j].(band := band));
          OnePlace(a.facilities, i, j);
        }
      case SetIdle(id, idle) =>
        var i: nat :| i < |a.facilities| && TuneAt(a, a', id, i, a.facilities[i].(idle := idle));
        LookupFinds(a.facilities, i);
        if CommandStep(cat, b, b', c) {
          var j: nat :| j < |b.facilities| && TuneAt(b, b', id, j, b.facilities[j].(idle := idle));
          OnePlace(a.facilities, i, j);
        }
      case Build(p, kind, recipe) =>
        BuildNeedsAllowed(cat, a, a', p, kind, recipe);
        if CommandStep(cat, b, b', c) {
          BuildStepSame(cat, a, a', b, b', p, kind, recipe);
        }
      case CancelBuild(id) =>
        CancelNeedsAllowed(cat, a, a', id);
        if CommandStep(cat, b, b', c) {
          CancelSame(cat, a, a', b, b', id);
        }
      case Service(id) =>
        var i: nat :| i < |a.facilities| && a.facilities[i].id == id && ServiceAllowed(cat, a, i)
            && ServiceStep(cat, a, a', i);
        assert ServiceAllowed(cat, b, i);
        if CommandStep(cat, b, b', c) {
          var j: nat :| j < |b.facilities| && b.facilities[j].id == id && ServiceAllowed(cat, b, j)
              && ServiceStep(cat, b, b', j);
          OnePlace(a.facilities, i, j);
          ServiceStepSame(cat, a, a', b, b', i);
        }
      case EditRoute(_, _) =>
      case Authorise(_) =>
      case Launch(_) =>
        if CommandStep(cat, b, b', c) {
          LaunchSame(cat, a, a', b, b');
        }
      case Choose(p, t, effects) => ChooseSame(cat, a, a', b, b', p, t, effects);
      case Respond(_) =>
      case SendMission(asked) =>
        MissionSame(cat, a, a', b, b', asked);
      case AskRelief(p) =>
        RequestSame(cat, a, a', b, b', p);
    }
  }

  lemma MissionSame(cat: Catalog, a: World, a': World, b: World, b': World, asked: ResourceMap)
    requires Same(a, b) && MissionStep(cat, a, a', asked)
    ensures MissionStep(cat, b, b', asked) ==> Same(a', b')
    ensures MissionAllowed(cat, a, asked)
  {
    hide MissionAllowed;
  }

  lemma RequestSame(cat: Catalog, a: World, a': World, b: World, b': World, p: nat)
    requires Same(a, b) && RequestStep(cat, a, a', p)
    ensures RequestStep(cat, b, b', p) ==> Same(a', b')
  {
  }

  lemma Facilities(cat: Catalog, w: World)
    requires Inv(cat, w)
    ensures SortedById(w.facilities)
  {
    hide StoresOk, FreighterOk, BalancesOk, ColonyOk, PeopleOk, TransfersOk, WorkersOk, StaffOk, SlotsOk, FacilityOk;
  }

  /** No handler's checks read the ledger. */
  lemma SameHandling(cat: Catalog, a: World, b: World, c: Command)
    requires Same(a, b)
    ensures !c.Choose? && !c.Service? ==> CommandAllowed(cat, a, c) == CommandAllowed(cat, b, c)
    ensures forall i: nat :: ServiceAllowed(cat, a, i) == ServiceAllowed(cat, b, i)
  {
    hide AssignAllowed, BuildAllowed, CancelAllowed, RespondAllowed, Affords, Total, ReserveOf, Lookup;
  }

  lemma BuildNeedsAllowed(cat: Catalog, w: World, w': World, p: nat, kind: nat, recipe: Option<nat>)
    requires BuildStep(cat, w, w', p, kind, recipe)
    ensures BuildAllowed(cat, w.planets, w.facilities, p, kind, recipe)
  {
    hide BuildAllowed;
  }

  lemma CancelNeedsAllowed(cat: Catalog, w: World, w': World, id: nat)
    requires CancelStep(cat, w, w', id)
    ensures CancelAllowed(w.planets, w.facilities, id)
  {
    hide CancelAllowed;
  }

  // ----- an outcome whenever allowed -----

  lemma BuildCan(cat: Catalog, w: World, p: nat, kind: nat, recipe: Option<nat>) returns (w': World)
    requires Inv(cat, w) && BuildAllowed(cat, w.planets, w.facilities, p, kind, recipe)
    ensures BuildStep(cat, w, w', p, kind, recipe)
  {
    hide Sum, InvAt, Debited, Posted, LedgerOk, ValidCatalog;
    InvStores(cat, w, w.day, w.day);
    var def, cost := cat.facilities[kind], cat.facilities[kind].buildCost;
    CostListed(cat, kind);
    var f := NewJob(cat, w.nextId, p, kind, if recipe.Some? then recipe.value else 0);
    RangeGrows(w.ledger, w.recorded, |w.planets|, w.nextId, w.nextId + 1);
    var after := DebitOnce(w.planets, p, cost);
    DebitedMoves(w.planets, after, p, cost);
    var ledger, recorded := PostOnce(w.ledger, w.recorded, |w.planets|, w.nextId + 1, w.day, PlanetStock(p),
        Escrow(w.nextId), cost, cat.resources);
    w' := w.(nextId := w.nextId + 1, facilities := w.facilities + [f], planets := after, ledger := ledger,
        recorded := recorded);
  }

  lemma CostListed(cat: Catalog, kind: nat)
    requires ValidCatalog(cat) && kind < |cat.facilities|
    ensures forall r | r in cat.facilities[kind].buildCost :: r < cat.resources
  {
    assert ValidFacility(cat, cat.facilities[kind]);
  }

  lemma CancelCan(cat: Catalog, w: World, id: nat) returns (w': World)
    requires Inv(cat, w) && CancelAllowed(w.planets, w.facilities, id)
    ensures CancelStep(cat, w, w', id)
  {
    hide Sum, InvAt, Credited, Posted, LedgerOk, ValidCatalog, Lookup, Without, Strand, Inventory.Room,
         Inventory.FreeSpace;
    InvStores(cat, w, w.day, w.day);
    FacilitiesHold(cat, w, w.day, w.day);
    var i := LookupIndex(w.facilities, id);
    JobPlace(cat, w, i, w.day, w.day);
    var f := w.facilities[i];
    var escrow := f.job.value.escrow;
    var refund := Refund(escrow, w.planets[f.planet].stock);
    var after := CreditOnce(w.planets, f.planet, refund);
    CreditedMoves(w.planets, after, f.planet, refund);
    var n := w.nextId + |CrewHome(f, w.nextId, w.day)|;
    var ledger, recorded := PostOnce(w.ledger, w.recorded, |w.planets|, w.nextId, w.day, Escrow(id),
        PlanetStock(f.planet), refund, cat.resources);
    RangeGrows(ledger, recorded, |w.planets|, w.nextId, n);
    w' := w.(facilities := Without(w.facilities, id), transfers := w.transfers + CrewHome(f, w.nextId, w.day),
        nextId := n,
             books := w.books.(stranded := Strand(w.books.stranded, id, escrow, refund)), planets := after,
                 ledger := ledger, recorded := recorded);
  }

  lemma LaunchCan(cat: Catalog, w: World, named: Option<nat>) returns (w': World)
    requires Inv(cat, w) && LaunchAllowed(cat, w, named)
    ensures LaunchStep(cat, w, w')
  {
    hide Sum, InvAt, Debited, Posted, LaunchPosted, LedgerOk, ValidCatalog, Affords, Settled, Travelling;
    InvStores(cat, w, w.day, w.day);
    CostsAreListed(cat);
    var e, home := cat.expedition, cat.freight.origin;
    var paid := DebitOnce(w.planets, home, e.launchCost);
    DebitedMoves(w.planets, paid, home, e.launchCost);
    SettledBack(paid, home, e.residents, e.workers);
    var travels := map r | r in e.launchCost :: Qty(e.cargo, r);
    var sunk := map r | r in e.launchCost :: e.launchCost[r] - Qty(e.cargo, r);
    var l1, r1 := PostOnce(w.ledger, w.recorded, |w.planets|, w.nextId, w.day, PlanetStock(home), Account.Expedition,
        travels, cat.resources);
    var ledger, recorded := PostOnce(l1, r1, |w.planets|, w.nextId, w.day, PlanetStock(home), SinkOutfitting, sunk,
        cat.resources);
    LaunchFlows(w.recorded, r1, recorded, home, e.launchCost, e.cargo, travels, sunk);
    RangeGrows(ledger, recorded, |w.planets|, w.nextId, w.nextId + 1);
    var after := Settled(paid, home, -e.residents, -e.workers);
    assert |after| == |paid| by { SettledKeepsAll(paid, home, -e.residents, -e.workers); }
    w' := w.(nextId := w.nextId + 1, colony := Travelling(cat, w.colony, w.day), planets := after, ledger := ledger,
        recorded := recorded);
  }

  lemma SettledKeepsAll(planets: seq<Planet>, p: nat, people: int, workers: int)
    requires p < |planets|
    ensures |Settled(planets, p, people, workers)| == |planets|
  {
  }

  lemma LaunchFlows(a: seq<Move>, b: seq<Move>, c: seq<Move>, p: nat, cost: ResourceMap, cargo: ResourceMap,
                    travels: ResourceMap, sunk: ResourceMap)
    requires Posted(a, b, PlanetStock(p), Account.Expedition, travels)
             && Posted(b, c, PlanetStock(p), SinkOutfitting, sunk)
    requires travels == map r | r in cost :: Qty(cargo, r)
    requires sunk == map r | r in cost :: cost[r] - Qty(cargo, r)
    ensures LaunchPosted(a, c, p, cost, cargo)
  {
    hide Net;
    forall x: Account, r: nat ensures Net(c, x, r) == Net(a, x, r) + LaunchFlow(cost, cargo, p, x, r) {
      assert Net(b, x, r) == Net(a, x, r) + (if x == Account.Expedition then Qty(travels, r)
             else 0) - (if x == PlanetStock(p) then Qty(travels, r) else 0);
      assert Net(c, x, r) == Net(b, x, r) + (if x == SinkOutfitting then Qty(sunk, r)
             else 0) - (if x == PlanetStock(p) then Qty(sunk, r) else 0);
    }
  }

  lemma ServiceCan(cat: Catalog, w: World, i: nat) returns (w': World)
    requires Inv(cat, w) && ServiceAllowed(cat, w, i)
    ensures ServiceStep(cat, w, w', i)
  {
    hide Sum, InvAt, SpendStep, LedgerOk, ValidCatalog;
    InvStores(cat, w, w.day, w.day);
    var f := w.facilities[i];
    var cost := Single(cat.machinery, cat.rules.serviceCost);
    var mid := SpendOnce(cat, w, f.planet, cost, SinkEvent);
    SpendKeepsWidth(cat, w, mid, f.planet, cost, SinkEvent);
    w' := mid.(facilities := w.facilities[i := f.(serviceReady := Some(w.day + cat.rules.serviceDowntime + 1))]);
    assert w'.(facilities := w.facilities) == mid;
  }

  lemma ChooseCan(cat: Catalog, w: World, p: nat, t: Terms, effects: seq<StockEffect>) returns (w': World)
    requires Inv(cat, w) && Positive(t.cost, cat.resources) && EffectsOk(cat, effects, |w.planets|)
             && ChooseAllowed(cat, w, p, t, effects)
    ensures ChooseStep(cat, w, w', p, t, effects)
  {
    hide InvAt, LooseAt, Affords, Staffed, SpendStep, EffectsStep, EffectsStop, EffectsOk, BookedOk, LedgerOk,
         ValidCatalog;
    InvStores(cat, w, w.day, w.day);
    var mid := SpendOnce(cat, w, p, t.cost, SinkEvent);
    SpendKeepsInv(cat, w, mid, p, t.cost, SinkEvent, w.day, w.day);
    SpendKeepsWidth(cat, w, mid, p, t.cost, SinkEvent);
    InvIsLooseAndBooked(cat, mid, w.day, w.day);
    w' := EffectsOnce(cat, mid, effects, w.day, w.day);
  }

  /** A command has an outcome exactly when it is allowed. */
  lemma CommandResolvesExactly(cat: Catalog, w: World, c: Command)
    requires Inv(cat, w) && CommandOk(cat, c, |w.planets|)
    ensures (exists w' :: CommandStep(cat, w, w', c)) <==> CommandAllowed(cat, w, c)
  {
    hide Inv, CommandStep, CommandAllowed, CommandOk;
    if w' :| CommandStep(cat, w, w', c) {
      SameAsItself(w);
      CommandIsDetermined(cat, w, w', w, w', c);
    } else if CommandAllowed(cat, w, c) {
      var w' := CommandOnce(cat, w, c);
    }
  }

  lemma CommandOnce(cat: Catalog, w: World, c: Command) returns (w': World)
    requires Inv(cat, w) && CommandOk(cat, c, |w.planets|) && CommandAllowed(cat, w, c)
    ensures CommandStep(cat, w, w', c)
  {
    hide InvAt, AssignAllowed, BuildAllowed, BuildStep, CancelAllowed, CancelStep, ServiceAllowed, ServiceStep,
         LaunchAllowed, LaunchStep, ChooseAllowed, ChooseStep, RespondAllowed, Responded, MissionAllowed, ReliefAllowed,
         Lookup, Edited, EffectsOk, Positive, RouteAllowed, ShiftAt;
    match c {
      case AssignCrew(p, from, to, count) =>
        w' := w.(nextId := w.nextId + 1, facilities := if from == 0 then w.facilities else ShiftAt(w.facilities, from,
            -count),
                 transfers := w.transfers + [Transfer(w.nextId, p, from, to, count, w.day + DelayFor(cat, from, to))]);
      case SetPriority(id, band) =>
        var i := LookupIndex(w.facilities, id);
        w' := w.(facilities := w.facilities[i := w.facilities[i].(band := band)]);
        assert TuneAt(w, w', id, i, w.facilities[i].(band := band));
      case SetIdle(id, idle) =>
        var i := LookupIndex(w.facilities, id);
        w' := w.(facilities := w.facilities[i := w.facilities[i].(idle := idle)]);
        assert TuneAt(w, w', id, i, w.facilities[i].(idle := idle));
      case Build(p, kind, recipe) => w' := BuildCan(cat, w, p, kind, recipe);
      case CancelBuild(id) => w' := CancelCan(cat, w, id);
      case Service(id) =>
        var i: nat :| i < |w.facilities| && w.facilities[i].id == id && ServiceAllowed(cat, w, i);
        w' := ServiceCan(cat, w, i);
      case EditRoute(edit, targets) => w' := w.(route := Edited(w.route, edit, targets, w.day));
      case Authorise(allowEmpty) => w' := w.(route := w.route.(requested := true, allowEmpty := allowEmpty));
      case Launch(named) => w' := LaunchCan(cat, w, named);
      case Choose(p, t, effects) => w' := ChooseCan(cat, w, p, t, effects);
      case Respond(response) => w' := w.(demand := Responded(cat, w.demand, response));
      case SendMission(asked) => w' :=
           w.(demand := w.demand.(pending := Asked(asked), requested := true, committed := true));
      case AskRelief(p) =>
        ReliefPlace(w, p);
        w' := w.(planets := w.planets[p := w.planets[p].(reliefUsed := true,
            reliefDue := w.day + cat.rules.reliefDelay)]);
    }
  }

  lemma ReliefPlace(w: World, p: nat)
    requires ReliefAllowed(w, p)
    ensures p < |w.planets|
  {
  }
}
