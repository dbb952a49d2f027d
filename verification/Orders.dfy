/** What each accepted order changes, in the state's own fields. */
module Orders {
  import opened Units
  import opened Sums
  import opened Stock
  import opened Catalog
  import opened State
  import opened Support
  import opened Workforce
  import opened Construction
  import opened Expedition
  import opened Mandate
  import opened Upkeep
  import opened Maintenance
  import opened Shelves
  import opened Commands

  /** What an accepted edit of the plan changes: each kind its own fields, as they were given, and no other. Switching
      the route on when its departure is overdue puts that off to tomorrow; a waiver is never withdrawn. */
  lemma EditsTakeHold(cat: Catalog, w: World, w': World, edit: RouteEdit, targets: ResourceMap)
    requires CommandStep(cat, w, w', EditRoute(edit, targets))
    ensures w' == w.(route := w'.route)
    ensures w'.route.outbound == if edit.Outbound? then targets else w.route.outbound
    ensures w'.route.homebound == if edit.Homebound? then targets else w.route.homebound
    ensures w'.route.enabled == if edit.Enable? then edit.on else w.route.enabled
    ensures w'.route.interval == if edit.Interval? then edit.days else w.route.interval
    ensures w'.route.nextDeparture == if edit.Enable? && edit.on && w.route.nextDeparture < w.day then w.day + 1
                                      else w.route.nextDeparture
    ensures w'.route.waived == if edit.Floors? then w.route.waived + edit.waived else w.route.waived
    ensures forall r: nat :: r in w'.route.floors <==> r in w.route.floors || (edit.Floors? && r in edit.floors)
    ensures forall r | r in w'.route.floors ::
              w'.route.floors[r] == if edit.Floors? && r in edit.floors then edit.floors[r] else w.route.floors[r]
    ensures w'.route.requested == w.route.requested && w'.route.allowEmpty == w.route.allowEmpty
  {
  }

  /** A facility with some of its workers gone, from its job while it has one. */
  ghost predicate Gives(f: Facility, f': Facility, count: int) {
    match f.job
    case None => count <= f.staff && f' == f.(staff := f.staff - count)
    case Some(j) => count <= j.crew && f' == f.(job := Some(j.(crew := j.crew - count)))
  }

  /** Workers sent to another job leave their own at once and are there after the delay between jobs, or the delay to
      and from Reserve. */
  lemma CrewsAreSent(cat: Catalog, w: World, w': World, p: nat, from: nat, to: nat, count: int)
    requires Inv(cat, w) && CommandStep(cat, w, w', AssignCrew(p, from, to, count))
    ensures w' == w.(nextId := w.nextId + 1, facilities := w'.facilities, transfers := w'.transfers)
    ensures var delay := if from != 0 && to != 0 then cat.rules.jobToJobDays else cat.rules.reserveToJobDays;
            w'.transfers == w.transfers + [Transfer(w.nextId, p, from, to, count, w.day + delay)]
    ensures 0 < count && from != to && |w'.facilities| == |w.facilities|
    ensures from == 0 ==> w'.facilities == w.facilities
    ensures from != 0 ==> exists i: nat ::
              && i < |w.facilities| && w.facilities[i].id == from && w.facilities[i].planet == p
              && w'.facilities == w.facilities[i := w'.facilities[i]]
              && Gives(w.facilities[i], w'.facilities[i], count)
    ensures to != 0 ==> exists i: nat :: i < |w.facilities| && w.facilities[i].id == to && w.facilities[i].planet == p
  {
    hide Inv, Gives, ShiftAt, ReserveOf, Accepts;
    if from != 0 {
      GivesAt(cat, w, from, count);
    }
    if to != 0 {
      var i := LookupIndex(w.facilities, to);
    }
  }

  lemma GivesAt(cat: Catalog, w: World, from: nat, count: int)
    requires Inv(cat, w) && Lookup(w.facilities, from).Some? && count <= Holding(Lookup(w.facilities, from).value)
    ensures exists i: nat ::
              && i < |w.facilities| && w.facilities[i].id == from && w.facilities[i] == Lookup(w.facilities, from).value
              && ShiftAt(w.facilities, from, -count)
                 == w.facilities[i := ShiftAt(w.facilities, from, -count)[i]]
              && Gives(w.facilities[i], ShiftAt(w.facilities, from, -count)[i], count)
  {
    hide ValidCatalog, StoresOk, FreighterOk, BalancesOk, ColonyOk, PeopleOk, Sum, WorkersOk, StaffOk, SlotsOk,
         TransfersOk;
    IdsAscend(cat, w.facilities, |w.planets|, w.nextId);
    var i := LookupIndex(w.facilities, from);
    var after := ShiftAt(w.facilities, from, -count);
    assert after == w.facilities[i := after[i]];
    assert Gives(w.facilities[i], after[i], count);
  }

  /** A service is paid for at once and takes its days, the facility out of work meanwhile. */
  lemma ServiceIsBooked(cat: Catalog, w: World, w': World, id: nat)
    requires CommandStep(cat, w, w', Service(id))
    ensures w' == w.(planets := w'.planets, facilities := w'.facilities, ledger := w'.ledger, recorded := w'.recorded)
    ensures exists i: nat ::
              && i < |w.facilities| && w.facilities[i].id == id
              && var f := w.facilities[i];
              && f.life == Active && f.serviceReady.None? && f.condition < cat.rules.serviceMaxCondition
              && (f.lastService < 0 || cat.rules.serviceCooldown <= w.day - f.lastService)
              && w'.facilities
                 == w.facilities[i := f.(serviceReady := Some(w.day + cat.rules.serviceDowntime + 1))]
              && Paid(w.planets, w'.planets, f.planet, map[cat.machinery := cat.rules.serviceCost])
              && f.planet < |w.planets| && cat.machinery < |w.planets[f.planet].stock.onHand|
              && cat.rules.serviceCost <= w.planets[f.planet].stock.Available(cat.machinery)
  {
    hide Paid, Posted, LedgerOk, Debited, Inventory.Available;
    var i: nat :| i < |w.facilities| && w.facilities[i].id == id && ServiceAllowed(cat, w, i)
                  && ServiceStep(cat, w, w', i);
    DebitedIsPaid(w.planets, w'.planets, w.facilities[i].planet, Single(cat.machinery, cat.rules.serviceCost));
  }

  /** A site opens with its whole cost in escrow and no work done, in the recipe's own priority band. */
  lemma SiteIsOpened(cat: Catalog, w: World, w': World, p: nat, kind: nat, recipe: Option<nat>)
    requires CommandStep(cat, w, w', Build(p, kind, recipe))
    ensures kind < |cat.facilities| && cat.facilities[kind].buildable && p < |w.planets| && w.planets[p].colonised
    ensures cat.facilities[kind].onePerWorld ==> forall f | f in w.facilities :: f.planet != p || f.kind != kind
    ensures recipe.None? ==> |cat.facilities[kind].recipes| == 1
    ensures var def, k := cat.facilities[kind], if recipe.Some? then recipe.value else 0;
            && k < |def.recipes|
            && Paid(w.planets, w'.planets, p, def.buildCost)
            && |w'.facilities| == |w.facilities| + 1 && w'.facilities[..|w.facilities|] == w.facilities
            && var f := w'.facilities[|w.facilities|];
            && f.id == w.nextId && f.kind == kind && f.recipe == k && f.planet == p && f.life == UnderConstruction
            && f.staff == 0 && f.condition == 10000 && f.band == def.recipes[k].band && !f.idle && f.lastService < 0
            && f.serviceReady.None? && f.job.Some?
            && var j := f.job.value;
            && j.workTotal == def.buildWork && j.workDone == 0 && j.cost == j.escrow == def.buildCost
            && j.consumed == map[] && j.crew == 0 && j.daysElapsed == 0
    ensures w' == w.(nextId := w.nextId + 1, facilities := w'.facilities, planets := w'.planets, ledger := w'.ledger,
                     recorded := w'.recorded)
  {
    hide Sum, Paid, Posted, LedgerOk, Debited, Affords;
    DebitedIsPaid(w.planets, w'.planets, p, cat.facilities[kind].buildCost);
    assert w'.facilities[..|w.facilities|] == w.facilities;
  }

  /** A site given up is gone, its crew is in Reserve tomorrow, and of what its escrow held all that fits is back. */
  lemma SiteIsCleared(cat: Catalog, w: World, w': World, id: nat)
    requires Inv(cat, w) && CommandStep(cat, w, w', CancelBuild(id))
    ensures exists i: nat ::
              && i < |w.facilities| && w.facilities[i].id == id && w.facilities[i].job.Some?
              && w'.facilities == w.facilities[..i] + w.facilities[i + 1..]
              && var f := w.facilities[i];
              && var j := f.job.value;
              && w'.transfers == w.transfers + (if j.crew > 0 then [Transfer(w.nextId, f.planet, id, 0, j.crew,
                                                                             w.day + 1)] else [])
              && f.planet < |w.planets|
              && exists back: ResourceMap ::
                  && back.Keys == j.escrow.Keys && Stored(w.planets, w'.planets, f.planet, back)
                  && forall r | r in back :: r < |w.planets[f.planet].stock.onHand|
                      && back[r] == Min(j.escrow[r], Max(0, w.planets[f.planet].stock.capacity
                                                            - w.planets[f.planet].stock.onHand[r]))
    ensures w' == w.(facilities := w'.facilities, transfers := w'.transfers, nextId := w'.nextId, books := w'.books,
                     planets := w'.planets, ledger := w'.ledger, recorded := w'.recorded)
  {
    hide ValidCatalog, StoresOk, FreighterOk, BalancesOk, ColonyOk, PeopleOk, Sum, Stored, Posted, LedgerOk, Credited,
         WorkersOk, StaffOk, SlotsOk, TransfersOk, Strand, Without;
    IdsAscend(cat, w.facilities, |w.planets|, w.nextId);
    var i := LookupIndex(w.facilities, id);
    var f := w.facilities[i];
    var back := Refund(f.job.value.escrow, w.planets[f.planet].stock);
    WithoutIs(w.facilities, i);
    CreditedIsStored(w.planets, w'.planets, f.planet, back);
    assert f == Lookup(w.facilities, id).value;
  }

  /** The expedition takes its cost from home and its people with it, its cargo aboard and its arrival set. */
  lemma ExpeditionSetsOut(cat: Catalog, w: World, w': World, named: Option<nat>)
    requires CommandStep(cat, w, w', Launch(named))
    ensures var e, home := cat.expedition, cat.freight.origin;
            && !w.colony.launched && e.target < |w.planets| && !w.planets[e.target].colonised
            && home < |w.planets| == |w'.planets|
            && w'.colony == w.colony.(launched := true, residents := e.residents, workers := e.workers,
                                      cargo := e.cargo, launchDay := w.day, arrivalDay := w.day + e.transitDays)
            && w'.planets[home].population == w.planets[home].population - e.residents
            && w'.planets[home].workers == w.planets[home].workers - e.workers
            && forall r: nat | r < |w.planets[home].stock.onHand| ::
                r < |w'.planets[home].stock.onHand|
                && w'.planets[home].stock.onHand[r] == w.planets[home].stock.onHand[r] - Qty(e.launchCost, r)
    ensures w' == w.(nextId := w.nextId + 1, colony := w'.colony, planets := w'.planets, ledger := w'.ledger,
                     recorded := w'.recorded)
  {
    hide Posted, LedgerOk, LaunchPosted, Debited, Affords, ReserveOf;
    var e, home := cat.expedition, cat.freight.origin;
    var there := Settled(w'.planets, home, e.residents, e.workers);
    OnlyStocksHere(w.planets, there, home, e.launchCost);
    forall r: nat | r < |w.planets[home].stock.onHand|
      ensures r < |w'.planets[home].stock.onHand|
      ensures w'.planets[home].stock.onHand[r] == w.planets[home].stock.onHand[r] - Qty(e.launchCost, r)
    {
      DebitedHere(w.planets, there, home, e.launchCost, home, r);
    }
  }

  lemma OnlyStocksHere(before: seq<Planet>, after: seq<Planet>, p: nat, m: ResourceMap)
    requires Debited(before, after, p, m) && p < |before|
    ensures |after| == |before| && OnlyStock(before[p], after[p])
  {
  }

  /** An answer to the mandate keeps what it says: negotiated terms in place of the demand's, a refusal resolved. */
  lemma AnswerIsKept(cat: Catalog, w: World, w': World, response: Response)
    requires CommandStep(cat, w, w', Respond(response))
    ensures w' == w.(demand := w'.demand) && w.demand.issued && !w.demand.resolved
    ensures response.Negotiate? ==> !w.demand.negotiated && w.day < cat.mandate.negotiateBefore
    ensures response.Negotiate? ==> w'.demand == w.demand.(negotiated := true, required := cat.mandate.negotiated)
    ensures response.Decline? ==> w'.demand == w.demand.(resolved := true, decision := Declined)
    ensures response.Honour? ==> w' == w
  {
  }

  /** A mission is booked with the part of the asked manifest that is more than nothing, within what is still
      required. */
  lemma MissionIsBooked(cat: Catalog, w: World, w': World, asked: ResourceMap)
    requires CommandStep(cat, w, w', SendMission(asked))
    ensures w' == w.(demand := w.demand.(pending := w'.demand.pending, requested := true, committed := true))
    ensures forall r :: r in w'.demand.pending <==> r in asked && asked[r] > 0
    ensures forall r | r in w'.demand.pending ::
              && w'.demand.pending[r] == asked[r] && r in w.demand.required
              && asked[r] + Qty(w.demand.delivered, r) <= w.demand.required[r]
  {
    hide Affords;
  }

  /** Relief is promised once to a world in an emergency, for the day its delay ends. */
  lemma ReliefIsPromised(cat: Catalog, w: World, w': World, p: nat)
    requires CommandStep(cat, w, w', AskRelief(p))
    ensures p < |w.planets| && w.planets[p].emergency && !w.planets[p].reliefUsed && w.planets[p].reliefDue < 0
    ensures w' == w.(planets := w.planets[p := w.planets[p].(reliefUsed := true,
                                                             reliefDue := w.day + cat.rules.reliefDelay)])
  {
  }
}
