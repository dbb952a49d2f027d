/** What no operation ever takes back: the record, the sector's people, a resolved mandate, a founded
    colony and what has been delivered. */
module History {
  import opened Units
  import opened Stock
  import opened Ledger
  import opened Catalog
  import opened State
  import opened Support
  import opened Chains
  import opened Order
  import opened Workforce
  import opened Construction
  import opened Loading
  import opened Freight
  import opened Departures
  import opened Outside
  import opened Upkeep
  import opened Relief
  import opened Effects
  import opened Expedition
  import opened Mandate
  import opened Voyages
  import opened Maintenance
  import opened Power
  import opened Production
  import opened Needs
  import opened Building
  import opened RoutePhase
  import opened Day
  import opened Resolver
  import opened Commands

  /** The later state continues the earlier one's history. */
  ghost predicate Onward(w: World, w': World) {
    && w'.books.opening == w.books.opening && w'.books.people == w.books.people
        && w'.books.workforce == w.books.workforce
    && w.recorded <= w'.recorded
    && (w.demand.issued ==> w'.demand.issued)
    && (w.demand.resolved ==> w'.demand.resolved && w'.demand.decision == w.demand.decision)
    && (forall r: nat :: Qty(w.demand.delivered, r) <= Qty(w'.demand.delivered, r))
    && w.route.waived <= w'.route.waived
    && (w.colony.founded ==> w'.colony == w.colony)
    && (w.colony.launched ==>
        w'.colony.launched && w'.colony.launchDay == w.colony.launchDay && w'.colony.arrivalDay == w.colony.arrivalDay)
  }

  /** And what the books note of promised space stands. */
  ghost predicate Continues(w: World, w': World) {
    Onward(w, w') && w'.books.overgranted == w.books.overgranted
  }

  lemma ContinuesThen(a: World, b: World, c: World)
    requires Continues(a, b) && Continues(b, c)
    ensures Continues(a, c)
  {
    hide Onward;
    OnwardThen(a, b, c);
  }

  lemma NotedIsOnward(w: World)
    ensures Onward(w, Noted(w))
  {
    hide BookedOk;
  }

  lemma OnwardThen(a: World, b: World, c: World)
    requires Onward(a, b) && Onward(b, c)
    ensures Onward(a, c)
  {
    forall r: nat ensures Qty(a.demand.delivered, r) <= Qty(c.demand.delivered, r) {
      assert Qty(a.demand.delivered, r) <= Qty(b.demand.delivered, r) <= Qty(c.demand.delivered, r);
    }
  }

  /** Most steps leave mandate, expedition and books alone and only add to the record. */
  lemma Routine(w: World, w': World)
    requires w'.books == w.books.(stranded := w'.books.stranded, spilled := w'.books.spilled,
             shipped := w'.books.shipped, leftover := w'.books.leftover)
    requires w.recorded <= w'.recorded && w'.demand == w.demand && w'.colony == w.colony
             && w.route.waived <= w'.route.waived
    ensures Continues(w, w')
  {
  }

  lemma LegGrows(cat: Catalog, a: seq<Move>, b: seq<Move>, src: nat, goods: ResourceMap, fuelIn: int, machinery: int,
                 burn: int)
    requires LegPosted(cat, a, b, src, goods, fuelIn, machinery, burn)
    ensures a <= b
  {
  }

  lemma SpendContinues(cat: Catalog, w: World, w': World, p: nat, m: ResourceMap, to: Account)
    requires SpendStep(cat, w, w', p, m, to)
    ensures Continues(w, w')
  {
    hide LedgerOk, Debited;
    Routine(w, w');
  }

  lemma ReceiveContinues(cat: Catalog, w: World, w': World, p: nat, m: ResourceMap, from: Account)
    requires ReceiveStep(cat, w, w', p, m, from)
    ensures Continues(w, w')
  {
    hide LedgerOk, Credited;
    Routine(w, w');
  }

  // ----- commands -----

  lemma ServiceContinues(cat: Catalog, w: World, w': World, i: nat)
    requires ServiceStep(cat, w, w', i)
    ensures Continues(w, w')
  {
    SpendContinues(cat, w, w'.(facilities := w.facilities), w.facilities[i].planet,
        Single(cat.machinery, cat.rules.serviceCost), SinkEvent);
    Routine(w, w');
  }

  lemma BuildContinues(cat: Catalog, w: World, w': World, p: nat, kind: nat, recipe: Option<nat>)
    requires BuildStep(cat, w, w', p, kind, recipe)
    ensures Continues(w, w')
  {
    hide LedgerOk, Debited, BuildAllowed;
    Routine(w, w');
  }

  lemma CancelContinues(cat: Catalog, w: World, w': World, id: nat)
    requires CancelStep(cat, w, w', id)
    ensures Continues(w, w')
  {
    hide LedgerOk, Credited, CancelAllowed, Lookup, Without, Strand, Refund;
    Routine(w, w');
  }

  lemma LaunchContinues(cat: Catalog, w: World, w': World)
    requires LaunchStep(cat, w, w') && !w.colony.launched && !w.colony.founded
    ensures Continues(w, w')
  {
    hide LedgerOk, Debited, Settled;
  }

  lemma EffectContinues(cat: Catalog, w: World, w': World, e: StockEffect)
    requires EffectStep(cat, w, w', e)
    ensures Continues(w, w')
  {
    hide SpendStep, ReceiveStep, SwapAllowed;
    match e {
      case Grant(p, r, q) => ReceiveContinues(cat, w, w', p, Granted(Single(r, q), w.planets[p].stock), External);
      case Take(p, r, q, to) => SpendContinues(cat, w, w', p, Single(r, Min(q, w.planets[p].stock.Available(r))), to);
      case Swap(id, n, days) => Routine(w, w');
      case Restore(id, floor) => Routine(w, w');
      case Modify(_) => Routine(w, w');
    }
  }

  ghost function Since(w: World): World -> bool {
    (a: World) => Continues(w, a)
  }

  lemma EffectsContinue(cat: Catalog, w: World, w': World, es: seq<StockEffect>)
    requires EffectsStep(cat, w, w', es)
    ensures Continues(w, w')
  {
    hide EffectStep, Continues;
    Routine(w, w);
    forall a, b, k: nat | k < |es| && Since(w)(a) && EffectNext(cat, es)(a, b, k) ensures Since(w)(b) {
      EffectContinues(cat, a, b, es[k]);
      ContinuesThen(w, a, b);
    }
    ThroughKeeps(w, w', |es|, EffectNext(cat, es), Since(w));
  }

  lemma ChooseContinues(cat: Catalog, w: World, w': World, p: nat, t: Terms, effects: seq<StockEffect>)
    requires ChooseStep(cat, w, w', p, t, effects)
    ensures Continues(w, w')
  {
    hide SpendStep, EffectsStep, Continues, Affords, BookedOk;
    var mid :| SpendStep(cat, w, mid, p, t.cost, SinkEvent) && EffectsStep(cat, mid, w', effects);
    SpendContinues(cat, w, mid, p, t.cost, SinkEvent);
    EffectsContinue(cat, mid, w', effects);
    ContinuesThen(w, mid, w');
  }

  /** A command answers the mandate only while it is open, and launches only once. */
  lemma CommandContinues(cat: Catalog, w: World, w': World, c: Command)
    requires Inv(cat, w) && CommandStep(cat, w, w', c)
    ensures Continues(w, w')
  {
    hide InvAt, BuildStep, CancelStep, ServiceAllowed, ServiceStep, LaunchStep, ChooseStep, Continues, AssignAllowed,
         MissionAllowed, StaffedOk, RouteAllowed, ReliefAllowed;
    LaunchedFirst(cat, w, w.day, w.day);
    match c {
      case AssignCrew(p, from, to, count) => Routine(w, w');
      case SetPriority(id, band) => Routine(w, w');
      case SetIdle(id, idle) => Routine(w, w');
      case Build(p, kind, recipe) => BuildContinues(cat, w, w', p, kind, recipe);
      case CancelBuild(id) => CancelContinues(cat, w, w', id);
      case Service(id) =>
        var i: nat :| i < |w.facilities| && w.facilities[i].id == id && ServiceAllowed(cat, w, i)
            && ServiceStep(cat, w, w', i);
        ServiceContinues(cat, w, w', i);
      case EditRoute(edit, targets) => Routine(w, w');
      case Authorise(allowEmpty) => Routine(w, w');
      case Launch(named) => LaunchContinues(cat, w, w');
      case Choose(p, t, effects) => ChooseContinues(cat, w, w', p, t, effects);
      case Respond(response) => AnswerContinues(cat, w, w', response);
      case SendMission(asked) => RequestContinues(cat, w, w', asked);
      case AskRelief(p) => Routine(w, w');
    }
  }

  lemma LaunchedFirst(cat: Catalog, w: World, d: int, d': int)
    requires InvAt(cat, w, d, d')
    ensures w.colony.founded ==> w.colony.launched
  {
    hide StoresOk, WorkforceOk, FreighterOk, BalancesOk, PeopleOk;
  }

  lemma AnswerContinues(cat: Catalog, w: World, w': World, response: Response)
    requires RespondStep(cat, w, w', response)
    ensures Continues(w, w')
  {
  }

  lemma RequestContinues(cat: Catalog, w: World, w': World, asked: ResourceMap)
    requires MissionStep(cat, w, w', asked)
    ensures Continues(w, w')
  {
    hide MissionAllowed;
  }

  // ----- the day's phases -----

  lemma ReliefContinues(cat: Catalog, w: World, w': World, p: nat)
    requires ReliefStep(cat, w, w', p)
    ensures Continues(w, w')
  {
    hide ReceiveStep;
    if Due(w, p) {
      var mid := w.(planets := Closed(w.planets, p));
      ReceiveContinues(cat, mid, w', p, Granted(cat.rules.reliefGrant, w.planets[p].stock), External);
      Routine(w, mid);
      ContinuesThen(w, mid, w');
    } else {
      Routine(w, w');
    }
  }

  lemma ReliefPhaseContinues(cat: Catalog, w: World, w': World)
    requires ReliefPhase(cat, w, w')
    ensures Continues(w, w')
  {
    hide ReliefStep, Continues;
    Routine(w, w);
    forall a, b, k: nat | k < |w.planets| && Since(w)(a) && ReliefNext(cat)(a, b, k) ensures Since(w)(b) {
      ReliefContinues(cat, a, b, k);
      ContinuesThen(w, a, b);
    }
    ThroughKeeps(w, w', |w.planets|, ReliefNext(cat), Since(w));
  }

  lemma ChargeContinues(cat: Catalog, w: World, w': World)
    requires ChargeStep(cat, w, w') && w.colony.launched && !w.colony.founded
    ensures Continues(w, w') && w'.colony.launched && !w'.colony.founded
  {
    hide LedgerOk, Eaten;
  }

  lemma FoundContinues(cat: Catalog, w: World, w': World)
    requires FoundStep(cat, w, w') && w.colony.launched && !w.colony.founded
    ensures Continues(w, w')
  {
    hide LedgerOk, Credited, Moved, Storable, Spill;
  }

  lemma TravelContinues(cat: Catalog, w: World, w': World)
    requires TravelStep(cat, w, w')
    ensures Continues(w, w')
  {
    hide ChargeStep, FoundStep, Continues;
    if !w.colony.launched || w.colony.founded || w.colony.arrivalDay < w.day {
      Routine(w, w');
    } else if w.day < w.colony.arrivalDay {
      ChargeContinues(cat, w, w');
    } else {
      var mid :| ChargeStep(cat, w, mid) && FoundStep(cat, mid, w');
      ChargeContinues(cat, w, mid);
      FoundContinues(cat, mid, w');
      ContinuesThen(w, mid, w');
    }
  }

  lemma ArrivalContinues(cat: Catalog, w: World, w': World, d: int)
    requires InvAt(cat, w, d, w.day - 1) && ArrivalStep(cat, w, w')
    ensures Continues(w, w')
  {
    hide LedgerOk, StoresOk, WorkforceOk, BalancesOk, ColonyOk, PeopleOk, DemandOk, ClaimsOk, BookedOk, TankOk,
         ShippedOk, MarkAll;
  }

  lemma DueContinues(cat: Catalog, w: World, w': World, es: seq<StockEffect>)
    requires InvAt(cat, w, w.day - 1, w.day - 1) && DueStep(cat, w, w', es) && EffectsOk(cat, es, |w.planets|)
             && 0 <= w.day
    ensures Onward(w, w')
  {
    hide InvAt, LooseAt, Received, Arrivals, EffectsOk, Onward, BookedOk, Noted;
    var y := w.day - 1;
    var received :| Received(cat, w, received, es) && Arrivals(cat, Noted(received), w');
    var e := Noted(received);
    ReceivedKeepsLoose(cat, w, received, es, y, y);
    NotedKeeps(cat, received, y, y);
    ReceivedContinues(cat, w, received, es);
    NotedIsOnward(received);
    OnwardThen(w, received, e);
    ArrivalsContinue(cat, e, w');
    OnwardThen(w, e, w');
  }

  lemma ArrivalsContinue(cat: Catalog, w: World, w': World)
    requires InvAt(cat, w, w.day - 1, w.day - 1) && Arrivals(cat, w, w') && 0 <= w.day
    ensures Continues(w, w')
  {
    hide InvAt, TravelStep, ArrivalStep, Continues;
    var f :| TravelStep(cat, w, f) && ArrivalStep(cat, f, w');
    TravelKeepsInv(cat, w, f, w.day - 1);
    TravelContinues(cat, w, f);
    ArrivalContinues(cat, f, w', w.day);
    ContinuesThen(w, f, w');
  }

  lemma ReceivedContinues(cat: Catalog, w: World, w': World, es: seq<StockEffect>)
    requires Received(cat, w, w', es)
    ensures Continues(w, w')
  {
    hide EffectsStep, ReliefPhase, Continues, ServicedAll, OpenedAll, Landed, Waiting;
    var a, b, c :| OpenStep(cat, w, a) && EffectsStep(cat, a, b, es) && TransfersStep(b, c) && ReliefPhase(cat, c, w');
    Routine(w, a);
    EffectsContinue(cat, a, b, es);
    Routine(b, c);
    ReliefPhaseContinues(cat, c, w');
    ContinuesThen(w, a, b);
    ContinuesThen(w, b, c);
    ContinuesThen(w, c, w');
  }

  lemma MaintainContinues(cat: Catalog, w: World, w': World, i: nat)
    requires MaintainStep(cat, w, w', i)
    ensures Continues(w, w')
  {
    hide SpendStep, Worn;
    var f := w.facilities[i];
    if Upkept(cat, f) != 0 && Pays(cat, w, i) {
      SpendContinues(cat, w, w'.(facilities := w.facilities), f.planet, Single(cat.machinery, Upkept(cat, f)),
          SinkMaintenance);
      SpendKeepsWidth(cat, w, w'.(facilities := w.facilities), f.planet, Single(cat.machinery, Upkept(cat, f)),
          SinkMaintenance);
    }
    Routine(w, w');
  }

  lemma MaintainWorldContinues(cat: Catalog, w: World, w': World, p: nat)
    requires MaintainWorld(cat, w, w', p)
    ensures Continues(w, w')
  {
    hide MaintainStep, Continues, Sorted, OnDuty;
    var order :| IsProductionOrder(w.facilities, p, order) && Through(w, w', |order|, MaintainNext(cat, order));
    Routine(w, w);
    forall a, b, k: nat | k < |order| && Since(w)(a) && MaintainNext(cat, order)(a, b, k) ensures Since(w)(b) {
      MaintainContinues(cat, a, b, order[k]);
      ContinuesThen(w, a, b);
    }
    ThroughKeeps(w, w', |order|, MaintainNext(cat, order), Since(w));
  }

  lemma MaintenanceContinues(cat: Catalog, w: World, w': World)
    requires MaintenanceStep(cat, w, w')
    ensures Continues(w, w')
  {
    hide MaintainWorld, Continues;
    Routine(w, w);
    forall a, b, k: nat | k < |w.planets| && Since(w)(a) && MaintainWorlds(cat)(a, b, k) ensures Since(w)(b) {
      MaintainWorldContinues(cat, a, b, k);
      ContinuesThen(w, a, b);
    }
    ThroughKeeps(w, w', |w.planets|, MaintainWorlds(cat), Since(w));
  }

  lemma WorkingContinues(w: World, w': World)
    requires Working(w, w')
    ensures Continues(w, w')
  {
    Routine(w, w');
  }

  lemma CommitContinues(cat: Catalog, w: World, w': World, ratios: seq<int>)
    requires CommitPhase(cat, w, w', ratios)
    ensures Continues(w, w')
  {
    hide SpendStep, ReceiveStep, Continues, Served, Staged;
    Routine(w, w);
    forall a, b, p: nat | p < |w.planets| && Since(w)(a) && CommitWorlds(cat, ratios)(a, b, p) ensures Since(w)(b) {
      var mid :| CommitStep(cat, a, mid, p) && NeedsStep(cat, mid, b, p, ratios[p]);
      ReceiveContinues(cat, a, mid, p, Staged(a.scratch[p].staged), SourceRecipe);
      SpendContinues(cat, mid, b, p, Served(cat, mid.planets[p], ratios[p]), SinkCivilian);
      ContinuesThen(w, a, mid);
      ContinuesThen(w, mid, b);
    }
    ThroughKeeps(w, w', |w.planets|, CommitWorlds(cat, ratios), Since(w));
  }

  lemma AdvanceContinues(cat: Catalog, w: World, w': World, i: nat, health: int, fatigue: int)
    requires AdvanceStep(cat, w, w', i, health, fatigue)
    ensures Continues(w, w')
  {
    hide LedgerOk, SpentBy, Counted, Construction.Worked, Finished, PowerGrant;
    Routine(w, w');
  }

  lemma BuildWorldContinues(cat: Catalog, w: World, w': World, p: nat, x: DayInputs)
    requires BuildWorld(cat, w, w', p, x)
    ensures Continues(w, w')
  {
    hide AdvanceStep, Continues, OpensStaffed;
    Routine(w, w);
    var step := JobNext(cat, p, x.health[p], x.fatigue[p]);
    forall a, b, i: nat | i < |w.facilities| && Since(w)(a) && step(a, b, i) ensures Since(w)(b) {
      if IsJob(a.facilities[i], p) {
        AdvanceContinues(cat, a, b, i, x.health[p], x.fatigue[p]);
        ContinuesThen(w, a, b);
      }
    }
    ThroughKeeps(w, w', |w.facilities|, step, Since(w));
  }

  lemma BuildPhaseContinues(cat: Catalog, w: World, w': World, x: DayInputs)
    requires BuildPhase(cat, w, w', x)
    ensures Continues(w, w')
  {
    hide BuildWorld, Continues;
    Routine(w, w);
    forall a, b, p: nat | p < |w.planets| && Since(w)(a) && BuildWorlds(cat, x)(a, b, p) ensures Since(w)(b) {
      BuildWorldContinues(cat, a, b, p, x);
      ContinuesThen(w, a, b);
    }
    ThroughKeeps(w, w', |w.planets|, BuildWorlds(cat, x), Since(w));
  }

  lemma UnloadContinues(cat: Catalog, w: World, w': World)
    requires UnloadStep(cat, w, w')
    ensures Continues(w, w')
  {
    hide LedgerOk, Credited, Landing, Unloaded, PortOpen;
    Routine(w, w');
  }

  lemma DepartMissionContinues(cat: Catalog, w: World, w': World)
    requires DepartMissionStep(cat, w, w')
    ensures Continues(w, w')
  {
    hide LedgerOk, Debited, MissionReady, Total;
    if MissionReady(cat, w) && w.day <= cat.mandate.lastDeparture {
      LegGrows(cat, w.recorded, w'.recorded, cat.freight.origin, w.demand.pending, cat.mandate.missionFuel,
          cat.mandate.missionMachinery, cat.mandate.missionFuel);
    }
  }

  lemma LegContinues(cat: Catalog, w: World, w': World, src: nat, dst: nat, load: Load, fuelIn: int, machinery: int,
                     burn: int, leftover: int)
    requires LegStep(cat, w, w'.(route := w.route), src, dst, load, fuelIn, machinery, burn, leftover)
             && w.route.waived <= w'.route.waived
    ensures Continues(w, w')
  {
    hide LedgerOk, Shipped, ClaimsFor, Sailing;
    Routine(w, w');
  }

  lemma FreightContinues(cat: Catalog, w: World, w': World, ratios: seq<int>)
    requires FreightStep(cat, w, w', ratios)
    ensures Continues(w, w')
  {
    hide UnloadStep, DepartMissionStep, LegStep, MaySail, OutcomeOf, Affords, OutLoad, BackLoad, Continues;
    var f, src, dst := cat.freight, ratios[cat.freight.origin], ratios[cat.freight.destination];
    var b, c, m, e :| MissionFirst(cat, w, b) && RequestedStep(cat, b, c, src)
                      && ScheduledStep(cat, c, m, src) && ReturnStep(cat, m, e, dst) && ReportStep(e, w');
    var a :| UnloadStep(cat, w, a) && DepartMissionStep(cat, a, b);
    UnloadContinues(cat, w, a);
    DepartMissionContinues(cat, a, b);
    RequestedContinues(cat, b, c, src);
    ScheduledContinues(cat, c, m, src);
    ReturnContinues(cat, m, e, dst);
    Routine(e, w');
    ContinuesThen(w, a, b);
    ContinuesThen(w, b, c);
    ContinuesThen(w, c, m);
    ContinuesThen(w, m, e);
    ContinuesThen(w, e, w');
  }

  lemma OutboundContinues(cat: Catalog, w: World, w': World, ratio: int)
    requires OutboundStep(cat, w, w'.(route := w.route), ratio) && w.route.waived <= w'.route.waived
    ensures Continues(w, w')
  {
    hide LegStep, MaySail, OutLoad, Continues;
    var f := cat.freight;
    LegContinues(cat, w, w', f.origin, f.destination, OutLoad(cat, w, ratio), f.roundTripFuel, f.roundTripMachinery,
        f.outboundBurn,
                 w.books.leftover + f.roundTripFuel - f.outboundBurn - f.returnBurn);
  }

  lemma RequestedContinues(cat: Catalog, w: World, w': World, ratio: int)
    requires RequestedStep(cat, w, w', ratio)
    ensures Continues(w, w')
  {
    hide OutboundStep, OutcomeOf, Continues;
    if w.route.requested && AtOrigin(cat, w.ship, w.day) && OutcomeOf(cat, w, w.route.allowEmpty, ratio).Departed? {
      OutboundContinues(cat, w, w', ratio);
    } else {
      Routine(w, w');
    }
  }

  lemma ScheduledContinues(cat: Catalog, w: World, w': World, ratio: int)
    requires ScheduledStep(cat, w, w', ratio)
    ensures Continues(w, w')
  {
    hide OutboundStep, OutcomeOf, Continues;
    if w.route.enabled && w.route.nextDeparture <= w.day && AtOrigin(cat, w.ship, w.day)
       && OutcomeOf(cat, w, false, ratio).Departed? {
      OutboundContinues(cat, w, w', ratio);
    } else {
      Routine(w, w');
    }
  }

  lemma ReturnContinues(cat: Catalog, w: World, w': World, ratio: int)
    requires ReturnStep(cat, w, w', ratio)
    ensures Continues(w, w')
  {
    hide LegStep, Affords, BackLoad, Continues, ReturnOutcome;
    if MayReturn(cat, w) {
      SameRoute(cat, w, w', cat.freight.destination, cat.freight.origin, BackLoad(cat, w, ratio), 0, 0,
          cat.freight.returnBurn, w.books.leftover);
      LegContinues(cat, w, w', cat.freight.destination, cat.freight.origin, BackLoad(cat, w, ratio), 0, 0,
          cat.freight.returnBurn, w.books.leftover);
    } else {
      Routine(w, w');
    }
  }

  lemma SameRoute(cat: Catalog, w: World, w': World, src: nat, dst: nat, load: Load, fuelIn: int, machinery: int,
                  burn: int, leftover: int)
    requires LegStep(cat, w, w', src, dst, load, fuelIn, machinery, burn, leftover)
    ensures w'.(route := w.route) == w'
  {
    hide LedgerOk, Shipped, ClaimsFor, Sailing, LegPosted;
  }

  lemma ConsequencesContinue(cat: Catalog, w: World, w': World, emergency: seq<bool>)
    requires ConsequencesStep(cat, w, w', emergency)
    ensures Continues(w, w')
  {
    hide Alarmed, Met;
  }

  lemma DayContinues(cat: Catalog, w: World, w': World, x: DayInputs)
    requires Inv(cat, w) && 0 <= w.day && DayStep(cat, w, w', x) && ValidInputs(cat, x, |w.planets|)
    ensures Continues(w, w')
  {
    hide InvAt, Morning, Workday, Evening, BenchesOk, PowerUpto, EffectsOk, Onward, HandlingOk;
    var a, b :| Morning(cat, w, a, x.due) && Workday(cat, a, b, x) && Evening(cat, b, w', x);
    InputsUsed(cat, x, |w.planets|);
    MorningGoesOn(cat, w, a, x.due);
    MorningKeepsInv(cat, w, a, x.due);
    WorkdayContinues(cat, a, b, x);
    EveningGoesOn(cat, b, w', x);
    OnwardThen(w, a, b);
    OnwardThen(w, b, w');
    DayKeepsInv(cat, w, w', x);
  }

  lemma MorningGoesOn(cat: Catalog, w: World, w': World, es: seq<StockEffect>)
    requires Inv(cat, w) && 0 <= w.day && Morning(cat, w, w', es) && EffectsOk(cat, es, |w.planets|)
    ensures Onward(w, w')
  {
    hide InvAt, DueStep, MaintenanceStep, EffectsOk, Onward;
    var today := w.(day := w.day + 1);
    var a, b :| DueStep(cat, today, a, es) && MaintenanceStep(cat, a, b) && SnapshotStep(b, w');
    PlanIsFree(cat, w, today, w.day, w.day);
    Routine(w, today);
    DueContinues(cat, today, a, es);
    MaintenanceContinues(cat, a, b);
    Routine(b, w');
    OnwardThen(w, today, a);
    OnwardThen(w, a, b);
    OnwardThen(w, b, w');
  }

  lemma WorkdayContinues(cat: Catalog, w: World, w': World, x: DayInputs)
    requires InvAt(cat, w, w.day, w.day) && BenchesOk(cat, w) && PowerUpto(cat, w, 0) && Workday(cat, w, w', x)
    ensures Continues(w, w')
  {
    hide InvAt, PowerStep, ProductionStep, CommitPhase, BuildPhase, BenchesOk, PowerUpto, Continues;
    var a, b, c :| PowerStep(cat, w, a, x) && ProductionStep(cat, a, b, x) && CommitPhase(cat, b, c, x.foodRatio)
        && BuildPhase(cat, c, w', x);
    PowerKeepsInv(cat, w, a, x, w.day, w.day);
    WorkingWidth(cat, w, a);
    ProductionKeepsInv(cat, a, b, x, w.day, w.day);
    WorkingContinues(w, a);
    WorkingContinues(a, b);
    CommitContinues(cat, b, c, x.foodRatio);
    BuildPhaseContinues(cat, c, w', x);
    ContinuesThen(w, a, b);
    ContinuesThen(w, b, c);
    ContinuesThen(w, c, w');
  }

  lemma EveningGoesOn(cat: Catalog, w: World, w': World, x: DayInputs)
    requires Evening(cat, w, w', x)
    ensures Onward(w, w')
  {
    hide FreightStep, ConsequencesStep, EffectsStep, Onward, BookedOk, Noted;
    var e :| Reckoned(cat, w, e, x) && Passes(cat, e) && w' == Noted(e);
    var a, b :| FreightStep(cat, w, a, x.foodRatio) && ConsequencesStep(cat, a, b, x.emergency)
        && EffectsStep(cat, b, e, x.evening);
    FreightContinues(cat, w, a, x.foodRatio);
    ConsequencesContinue(cat, a, b, x.emergency);
    EffectsContinue(cat, b, e, x.evening);
    NotedIsOnward(e);
    OnwardThen(w, a, b);
    OnwardThen(w, b, e);
    OnwardThen(w, e, w');
  }
}
