# Expansion kernel: model and proofs

A Dafny model of the deterministic integer simulation kernel, with proofs of what its parts keep together.
`dafny verify dfyconfig.toml` checks the whole project.

What is modelled:

- **The session as a step machine.** Worlds with stock, reservations and promised space; one freighter
  with an optional strategic mission; construction jobs with escrow; workers moving between jobs; one
  colony expedition; the strategic mandate; a bounded ledger. `State.World` is the whole state as a value
  and `State.Inv` what every committed state satisfies. Each operation X has a relation `XStep`, an
  imperative method on the class `State.Session` proved to take exactly that step, and a lemma that the step
  keeps the invariant. A step fixes every field of the new state except how the ledger entries of its
  movements are written down: of those it fixes what each account gains and loses of each resource.
- **Exact endings.** `Commands.ApplyCommand` accepts a command exactly when its condition on the state before
  it holds, and `Resolver.StepDay` resolves a day exactly when nothing named in `Day.DayStops` happens: an error
  in a phase, or a closing check that finds promised space taken or a facility overstaffed. `Determined` proves
  that a day ends in one way only, `Totality` that it resolves whenever nothing stops it; `Overbooking` and
  `Staffing` prove what alone can make the check fail, on the state before the day.
- **Whole runs.** `Runs` proves the theorems about every run from a fresh session; `Rest` that from any valid
  scenario every later day is reached; `SessionReplay` that what a session plays and records, and its replay, are
  such runs.
- **One day of power and production**: the scratch mirror, the binary search for the largest run under
  nested floors and ceilings, staged output, the commit and construction.
- **Text and replay**: decimal parsers and printers with 64-bit wrap-around, milli-unit text, canonical
  JSON (writer and strict reader, both proved against functions of the text, and the reader against a grammar of
  glyphs, tokens and white space that says nothing of how text is read), the command journal and its replay.
- **The event scheduler and the bounded archives.**
- **What the steps come to.** `Yields`, `Labour`, `KeptBack`, `Harbour`, `Tending`, `Landfall`, `Orders`, `Docket` and
  `Windows` state the steps' effects a second time, resource by resource and field by field, as floors, ceilings and
  orders of the catalogue's own figures instead of through the functions the methods compute with.

How to read it: `Units`, `Sums`, `Stock`, `Ledger`, `Catalog` and `State` hold the vocabulary; `Support`
holds the stock helpers everything else goes through; `Chains` is the one notion of a loop over steps, of
where it stops and of when it is determined. Ledger balances are kept per account class: `State.Books`
remembers what the worlds opened with and the two quantities that leave without an entry, so that
conservation is an equation and not a hope. The books also note whether a grant has taken promised space since
the last check, and a facility how many workers were on their way when it was finished (`awaited`); nothing the
kernel does depends on either.

Findings, each with its exact condition and a state where it happens:

- A colony departure that passed every check can fail in its commit. It does exactly when for some targeted
  resource the target, the destination's free space and the room left in hold and handling all exceed what the
  trip's own fuel and machinery leave available, while the reserve floor keeps back less than the trip needs
  (`Faults.FaultsExactly`). It takes a manifest that names fuel or machinery
  (`PlannedDays.AFuelManifestFaults`) or an authored floor below zero, which is accepted unchecked
  (`PlannedDays.ANegativeFloorFaults`): both are days that accepted edits of the plan bring down. On the return
  leg only floors below zero can cause it (`Faults.ReturnFaultsExactly`, `Faults.NatFloorsNeverFaultReturns`).
- A grant or relief delivery ignores promised space; it breaks the booking rule exactly when what it stores
  exceeds the free space (`Outside.ReceiveKeepsInv`, `Relief.ReliefKeepsInv`, `Effects.EffectKeepsInv`,
  `PlannedDays.AGrantTakesPromisedSpace`). The day goes on, and unloading or meals may put it right; only such a
  grant can make the closing check fail over a store, and it can be named (`Overbooking.OnlyGrantsOverbook`).
- A job that finishes while more workers are travelling to it than its recipe employs is left promised more than
  its full staff, and that is the only way (`Construction.AdvanceKeepsInv`, `Day.StaffedUnlessAwaited`). The day
  it opens may resolve; the day they land does not, whatever else happens on it, and no other day is stopped over its
  staff (`Staffing.CrowdedDay`). Three accepted commands lead there (`Standstill.AnOverstaffedOpening`).
- A cancelled job's refund and the founding cargo can be turned away by a full store without a ledger entry;
  conservation holds with those losses counted (`Runs.HoldingsBalance`, `Witnesses.ARefundIsStranded`,
  `Witnesses.CargoIsSpilled`).
- A waived reserve stays waived: no edit and no run puts a floor back on it (`Commands.FloorsInForce`,
  `Runs.WaiversStay`; nothing rejects a later floor for it).
- Both decimal parsers' wrap test accepts some twenty-digit strings as other numbers, characterised exactly
  (`Decimal.FalselyAccepted`, `Decimal.FalselyAcceptedUnsigned`, `Decimal.ATwentyDigitString`).
- Milli-unit text round-trips for every 64-bit value but the least (`MilliText.MilliRoundTrip`).
- Replay is exact when and only when no command that carries an id was turned down by its handler
  (`Replay.ReplayIsExact`, `Replay.ARejectionIsNotReplayed`).
- A run zeroed because it would make nothing can report no limiting constraint
  (`Throughput.AnIdledRunReportsNothing`).

Of the kernel's closing check, `Runs.CheckCannotFail` covers stock, reservations, workers, slots, condition, jobs
and the ship as consequences of the invariant, and promised space and staffing because a day resolves only when the
check on them passes; what those two ask of the state before is `Overbooking` and `Staffing`. Overdue queued effects and windows past
their deadline are covered by `Events.EveryRunIsRegular`; health, fatigue, stability, adherence and references to
removed content are not modelled.

## Model

| member | source | states |
|---|---|---|
| Runs.Create | core/src/session.cpp:14-98 | a created session is exactly the scenario's first state and satisfies every invariant |
| Runs.FirstStateIsSound | core/src/session.cpp:14-98 | base case: the first state of any valid scenario satisfies the invariant |
| Runs.RunIsSound | core/src/sim_day.cpp:13-63 | every state of every run of accepted commands and resolved days satisfies the invariant, continues the history before it, and the calendar counts the days |
| Runs.CheckCannotFail | core/src/sim_day.cpp:360-439 | no reachable state fails what the run-time check asks of stock, reservations, workers, slots, condition, jobs and the ship, by the invariant, nor of promised space and staffing, which a day must pass to resolve |
| Runs.PromisesFitStaff | core/src/sim_day.cpp:127-149 | over any run, what a finished facility holds and is promised is within its full staff, unless more than that were on their way when it was finished, and then within those |
| Runs.HoldingsBalance | core/src/sim_support.cpp:13-73 | sector conservation: worlds + escrow + hold + tank + expedition, plus what was stranded or spilled, equals the opening stock plus the net inflow of the recorded entries |
| Runs.RunConserves | core/src/sim_support.cpp:13-73 | over any run the change in holdings is the net inflow of exactly the entries that run added, less losses |
| Runs.NobodyIsLost | core/src/sim_commands.cpp:515-552 | people and workers, on worlds and travelling, are constant over any run |
| Runs.FoundsOnTime | core/src/sim_day.cpp:184-190 | an expedition is founded exactly on its arrival day, once, and never changes afterwards |
| Runs.MandateIsBounded | core/src/sim_commands.cpp:717-788 | delivered + pending + in flight never exceeds the original requirement, and a pending mission excludes one under way |
| Runs.ResolutionIsPermanent | core/src/sim_consequences.cpp:156-196 | a resolved mandate stays resolved with the same decision over any run, and deliveries only grow |
| Runs.WaiversStay | core/src/sim_commands.cpp:460-462 | no run withdraws a waiver: a waived resource keeps nothing back, whatever floor is authored for it later |
| Runs.RunIsDetermined | core/src/sim_day.cpp:13-63 | the same operations from states that agree on all but the writing of ledger entries lead to states that agree |
| Rest.RestIsClear | core/src/sim_day.cpp:13-63 | with the route switched off, no relief or authored effect and nobody landing where there is no place, nothing can stop a day, construction or not |
| Rest.RestResolvesExactly | core/src/sim_day.cpp:13-63 | such a day resolves iff nobody lands where there is no place |
| Rest.EveryDayIsReached | core/src/sim_day.cpp:13-63 | from any valid scenario every later day is reached by some run |
| History.CommandContinues | core/src/sim_commands.cpp:46-128 | no command shortens the record, reopens a mandate, alters a founded colony or takes back a delivery |
| History.DayContinues | core/src/sim_day.cpp:13-63 | no day does either |
| Ledger.OwnedIsTheSumOfItsAccounts | core/src/sim_support.cpp:13-20 | transfers between owned accounts cancel: sector net inflow is the sum of the balances of worlds, escrows, hold and expedition |
| Support.Record | core/src/sim_support.cpp:29-46 | an entry is appended (none for a zero quantity), moves exactly its quantity between its two accounts, and the kept ledger stays the latest entries up to the cap |
| Support.AddStock | core/src/sim_support.cpp:48-60 | stores min(quantity, room), credits exactly that and records it; promised space stays free iff the amount was within the free space |
| Support.RemoveStock | core/src/sim_support.cpp:62-73 | done iff the quantity is not negative and unreserved stock covers it: then debited and recorded exactly; otherwise nothing changes |
| Support.ClaimSpace | core/src/sim_support.cpp:117-129 | promised iff the quantity is positive and within the free space: one more claim with a fresh id; otherwise nothing changes |
| Support.CreditFitsIff | core/src/sim_support.cpp:48-60 | a credit within room keeps promises iff every amount stays within free space |
| Reservations.ReserveStock | core/src/sim_support.cpp:75-92 | reserves iff the quantity is positive and unreserved stock covers it |
| Reservations.ReserveKeepsInv | core/src/sim_support.cpp:75-92 | reserving keeps every invariant and takes the quantity from what others may draw on |
| Reservations.ReleaseReservation | core/src/sim_support.cpp:94-99 | erases the first reservation with the id, or reports that there is none |
| Reservations.ReleaseKeepsInv | core/src/sim_support.cpp:94-99 | releasing keeps every invariant and gives the quantity back |
| Reservations.ConsumeReservation | core/src/sim_support.cpp:101-115 | the reservation and its stock leave together; the too-little-stock error cannot arise |
| Reservations.ConsumeKeepsInv | core/src/sim_support.cpp:101-115 | consuming keeps every invariant and leaves what others may draw on unchanged |
| Outside.SpendKeepsInv | core/src/sim_support.cpp:62-73 | paying unreserved stock out of the sector keeps every invariant |
| Outside.ReceiveKeepsInv | core/src/sim_support.cpp:48-60 | storing goods from outside keeps every invariant iff none of them takes promised space, or some was taken already |
| Workforce.FindFacility | core/src/state.cpp:287-292 | finds the facility with an id iff there is one |
| Workforce.WorkersReserve | core/src/sim_support.cpp:142-168 | Reserve is the pool less assigned, moving and crew |
| Workforce.AssignWorkers | core/src/sim_commands.cpp:134-220 | accepted iff the source holds the workers and the destination has room counting workers on the way; then exactly that transfer, else nothing |
| Orders.CrewsAreSent | core/src/sim_commands.cpp:134-220 | the workers leave their job at once and are due after the delay between jobs, or the one to and from Reserve |
| Workforce.AssignKeepsInv | core/src/sim_commands.cpp:134-220 | no world over-commits and no finished facility is promised more than its quota |
| Workforce.CompleteTransfers | core/src/sim_day.cpp:127-149 | due transfers land at their job, or in Reserve when it is gone; the rest wait in order |
| Landfall.WorkersLand | core/src/sim_day.cpp:127-149 | each job takes in exactly the workers due at it, and exactly the transfers not due wait on |
| Workforce.LandedFits | core/src/sim_day.cpp:127-149 | once all are due, a finished facility holds more than its full staff iff more was promised to it |
| Workforce.TransfersKeepInv | core/src/sim_day.cpp:127-149 | landing keeps every worker accounted for once |
| Workforce.ReplaceCrews | core/src/sim_effects.cpp:313-334 | a swap needs n staff and n in Reserve, sends n home and leaves staffing as it was |
| Workforce.SwapKeepsInv | core/src/sim_effects.cpp:313-334 | a swap adds no net workforce and keeps every invariant |
| Construction.StartConstruction | core/src/sim_commands.cpp:249-314 | accepted iff allowed (settled world, buildable, recipe, uniqueness, slot, materials); then slot and escrow are taken, else nothing |
| Orders.SiteIsOpened | core/src/sim_commands.cpp:249-314 | the new site has its whole cost in escrow, no work done and the recipe's band; stock falls by the cost |
| Construction.BuildKeepsInv | core/src/sim_commands.cpp:249-314 | starting a job keeps every invariant, materials moving from stock to escrow |
| Construction.CancelConstruction | core/src/sim_commands.cpp:316-350 | accepted iff the job exists and its refund leaves promised space free; otherwise everything is put back |
| Orders.SiteIsCleared | core/src/sim_commands.cpp:316-350 | the site is gone, its crew is due in Reserve tomorrow and min(escrow, room) of each material is back |
| Construction.CancelKeepsInv | core/src/sim_commands.cpp:316-350 | cancelling keeps every invariant; what a full store turned away is counted as stranded |
| Construction.UsedBounds | core/src/sim_production.cpp:472-490 | floor(cost x done / total) is between 0 and the cost, and is the cost when the work is done |
| Construction.UsedGrows | core/src/sim_production.cpp:472-490 | more work never un-consumes material |
| Construction.ClampNeverBites | core/src/sim_production.cpp:472-490 | a day never asks escrow for more than it holds, and exactly empties it when the work is done |
| Construction.ConsumeShare | core/src/sim_production.cpp:472-490 | consumption is brought exactly to the share matching the cumulative work |
| Construction.WorkedDay | core/src/sim_production.cpp:449-490 | a worked day takes from escrow exactly the consumption it adds |
| Construction.AdvanceJob | core/src/sim_production.cpp:449-526 | one job-day: power drawn, work added, escrow consumed, completion and crew release, exactly |
| Labour.WorkFollowsPower | core/src/sim_production.cpp:449-526 | over a crew's day: power granted is min(pool, request); the work added is the effort (a thousand a head, floored by health and by fatigue) when all was granted, the floored share of it in basis points otherwise, never past what is left; consumption is brought to the floored share of the cost; a job is complete once work and days both are |
| Labour.NoPowerNoWork | core/src/sim_production.cpp:462-472 | a crew that asks for power and gets none adds no work and takes nothing from escrow |
| Construction.AdvanceKeepsInv | core/src/sim_production.cpp:449-526 | keeps escrow + consumed = cost and every other invariant; the new facility is promised more than its full staff iff the job finishes that day and the state before it has more workers on the way than the recipe employs |
| Building.AdvanceAll | core/src/sim_production.cpp:437-533 | every world's jobs in id order, to the end |
| Building.BuildOnce | core/src/sim_production.cpp:437-533 | the phase can always run to its end |
| Building.AdvancePower | core/src/sim_production.cpp:465-468 | construction is granted only leftover power; the power balance still holds |
| Building.BuildPhaseKeepsInv | core/src/sim_production.cpp:437-533 | the phase keeps every invariant and the balance |
| Loading.GreedyFits | core/src/sim_freight.cpp:105-122 | every manifest or unloading fits hold and handling budgets, which are left with exactly what its volume did not use |
| Loading.GreedyIsTight | core/src/sim_freight.cpp:305-334 | each resource reaches its limit, or one more unit of it would not have fitted when its turn came |
| Loading.TakesFits | core/src/sim_freight.cpp:14-22 | the amount taken fits both budgets |
| Loading.ClaimsMatchCargo | core/src/sim_freight.cpp:351-355 | the claims booked add up to the cargo resource by resource |
| Loading.ClaimIds | core/src/sim_support.cpp:117-129 | booked claims carry consecutive fresh ids |
| Departures.PlanLoad | core/src/sim_freight.cpp:305-334 | the plan is the greedy load of min(target, spare above floor, destination space) |
| Departures.LoadIsPlanned | core/src/sim_freight.cpp:305-334 | nothing loaded exceeds its target, its spare or the destination's space; no budget goes negative |
| Departures.DepartColonyLeg | core/src/sim_freight.cpp:244-376 | blocked, departed or failed exactly as decided by its checks; a departure is fuel, machinery, cargo, claims and sailing together |
| Departures.LegKeepsInv | core/src/sim_freight.cpp:342-365 | a departing ship keeps every invariant: cargo promised in full, tank holding the return burn exactly while the return is ahead |
| Departures.OutboundKeepsInv | core/src/sim_freight.cpp:244-376 | an outbound departure keeps every invariant and no handling budget is overdrawn |
| KeptBack.OutboundLoadsWell | core/src/sim_freight.cpp:305-334 | per resource: what leaves home is the trip's need and the cargo; the cargo is within target, room and what exceeds the reserve kept back (none if waived, the authored floor, else three days' food and three full days' coal, written out), and is all of that where hold and port could still take one more unit |
| KeptBack.HomeboundLoadsWell | core/src/sim_freight.cpp:97-154 | the same for the return leg, which takes nothing for the trip |
| KeptBack.FoodAndCoalStay | core/src/sim_support.cpp:420-437 | with neither waived nor authored, a departure leaves at least three days' food and three full days' generator coal, or all there was |
| Harbour.BlockedExactly | core/src/sim_freight.cpp:244-340 | a departure is blocked iff the ship is not free, docked, rested and empty at home, the destination not settled with a working port, fuel or machinery short, or nothing is loaded without leave to sail empty |
| Harbour.ShipSails | core/src/sim_freight.cpp:342-365 | a departed ship is due a leg's days later at its destination, its tank filled and the leg's burn gone |
| Faults.FaultsExactly | core/src/sim_freight.cpp:291-355 | a departure fails part-way iff for some resource the target, destination space and room left all exceed what the trip leaves available, and the floor keeps back less than the trip needs; nothing assumed of floors |
| Faults.LoadsAtLeast | core/src/sim_freight.cpp:305-334 | a load holds at least q of a resource iff its limit allows q and q fits what the earlier resources left |
| Faults.KeptBackNeverFaults | core/src/sim_freight.cpp:291-355 | a manifest whose every resource keeps back at least what the trip needs of it never fails |
| PlannedDays.AFuelManifestFaults | core/src/sim_freight.cpp:291-355 | a state reached by accepted edits of the plan whose next day raises its error in a departure that passed every check, and cannot resolve |
| PlannedDays.ANegativeFloorFaults | core/src/sim_freight.cpp:291-355 | likewise with an authored floor below zero, and neither fuel nor machinery in the manifest |
| PlannedDays.AGrantTakesPromisedSpace | core/src/sim_effects.cpp:223-236 | a state reached by commands and a real day, a shipment under way, where a grant due the next morning takes promised space |
| Standstill.AnOverstaffedOpening | core/src/sim_production.cpp:498-520 | three accepted commands and a day that resolves, after which the next day cannot, whatever its inputs; with plain ones it raises its error |
| Witnesses.ARefundIsStranded | core/src/sim_commands.cpp:330-345 | a committed state in which cancelling a job loses its materials without an entry |
| Witnesses.CargoIsSpilled | core/src/sim_freight.cpp:479-487 | a sound state in which founding loses cargo without an entry |
| Faults.OnlyAuthoredFloorsAreNegative | core/src/sim_support.cpp:420-437 | floors are all non-negative iff the authored ones in force are |
| Faults.ReturnFaultsExactly | core/src/sim_freight.cpp:97-133 | the same condition for the return leg, which itself needs nothing: it takes a floor below zero |
| Faults.NatFloorsNeverFaultReturns | core/src/sim_freight.cpp:97-133 | and with no floor below zero it never fails |
| Faults.TankFits | core/src/sim_freight.cpp:129-154 | when the burns sum to the round-trip fuel the tank is empty at home and never exceeds capacity, filling included |
| RoutePhase.ReturnIsFuelled | core/src/sim_freight.cpp:129-133 | the branch holding a loaded ship back for fuel is unreachable |
| RoutePhase.ReturnHome | core/src/sim_freight.cpp:97-154 | the return leg leaves when enabled, docked, empty and rested; nothing else happens |
| RoutePhase.ReturnKeepsInv | core/src/sim_freight.cpp:97-154 | and keeps every invariant |
| RoutePhase.DepartRequested | core/src/sim_freight.cpp:44-61 | an authorised departure is spent whether it leaves or is blocked, and waits for the ship |
| RoutePhase.DepartScheduled | core/src/sim_freight.cpp:64-94 | a scheduled departure leaves, is retried tomorrow, or is missed |
| Harbour.AuthorityIsSpent | core/src/sim_freight.cpp:44-61 | on the plan's own fields: when an authorisation waits, is spent by a departure and is spent without one, and the next scheduled day |
| Harbour.ScheduleIsKept | core/src/sim_freight.cpp:64-94 | when a scheduled departure leaves, is tried again the next day, and is missed for an interval |
| RoutePhase.RunFreight | core/src/sim_freight.cpp:31-161 | the phase in its order: unload, mission, authorised, scheduled, return, report; or it stops exactly where a departure fails in its commit |
| RoutePhase.FreightKeepsInv | core/src/sim_freight.cpp:31-161 | the whole phase keeps every invariant, whatever the route plan asks |
| Freight.ReleaseAll | core/src/sim_freight.cpp:186-193 | releasing a shipment's bookings leaves none of its claims |
| Freight.FirstDayHasRoom | core/src/sim_freight.cpp:186-214 | on its first unloading day a pledged shipment has room for all it carries of a resource iff stock and promises still fit the store there, so then only handling can hold any back |
| Freight.UnloadArrivals | core/src/sim_freight.cpp:163-242 | one day's unloading: claims released, the greedy amount ashore, the hold settled, blocked ports waiting |
| Harbour.CargoComesAshore | core/src/sim_freight.cpp:163-242 | per resource: what leaves the hold is in store, within the room beside other promises, and is all of that where the port could take one more unit; an emptied ship docks and rests, a blocked one waits |
| Freight.UnloadedShip | core/src/sim_freight.cpp:202-241 | aboard + unloaded still equals shipped, and an emptied ship is docked |
| Freight.UnloadKeepsInv | core/src/sim_freight.cpp:163-242 | unloading keeps every invariant and never overdraws handling |
| Mandate.RespondToDemand | core/src/sim_commands.cpp:667-715 | a response is accepted iff issued, unresolved and, to negotiate, in time and not already negotiated |
| Orders.AnswerIsKept | core/src/sim_commands.cpp:667-715 | negotiating replaces what is required, declining resolves, honouring changes nothing |
| Mandate.RespondKeepsInv | core/src/sim_commands.cpp:667-715 | responses keep every invariant |
| Mandate.LaunchStrategicMission | core/src/sim_commands.cpp:717-788 | accepted iff the ship is free at home in time, the manifest is within remaining demand, hold, handling and stock |
| Orders.MissionIsBooked | core/src/sim_commands.cpp:717-788 | the pending manifest is the positive part of what was asked, within what is still required |
| Mandate.MissionKeepsInv | core/src/sim_commands.cpp:717-788 | a committed mission stays within the requirement |
| Mandate.UpdateMandate | core/src/sim_consequences.cpp:156-196 | issues on its day, resolves when met or at the deadline |
| Harbour.DemandIsJudged | core/src/sim_consequences.cpp:156-196 | on the demand's own fields: issued from its day on its terms, resolved iff everything required is delivered or the deadline is reached, with the decision that follows |
| Mandate.MandateKeepsInv | core/src/sim_consequences.cpp:156-196 | the daily check keeps every invariant |
| Voyages.DepartStrategicMission | core/src/sim_freight.cpp:383-463 | a mission loads its whole manifest with its fuel and machinery, or nothing, and is abandoned when too late |
| Harbour.MissionsSail | core/src/sim_freight.cpp:383-463 | a mission sails iff ship, stock and handling are ready in time: its manifest, fuel and machinery leave home and the voyage is logged for its delivery day; past the last day it is given up |
| Voyages.DepartMissionKeepsInv | core/src/sim_freight.cpp:383-463 | mission departure keeps every invariant |
| Voyages.ArriveShip | core/src/sim_day.cpp:193-211 | arrival at the front, back from it, or at a port |
| Harbour.ShipsArrive | core/src/sim_day.cpp:193-211 | an arrival delivers the manifest and turns home after its service and return days, or ends the voyage, or waits at its port |
| Voyages.DeliveryCredits | core/src/sim_freight.cpp:520-548 | a delivery credits exactly the voyage under way, so delivered totals equal the delivered voyages' manifests |
| Voyages.ArrivalKeepsInv | core/src/sim_day.cpp:193-211 | arrivals carry every invariant on to today |
| Expedition.LaunchColonization | core/src/sim_commands.cpp:499-566 | accepted iff not launched, target unsettled, cost, Reserve and dependents there; then cargo, cost and people move together |
| Orders.ExpeditionSetsOut | core/src/sim_commands.cpp:499-566 | home loses the cost and the people; the expedition has its cargo and its arrival day |
| Expedition.LaunchKeepsInv | core/src/sim_commands.cpp:499-566 | launching keeps every invariant: what travels plus what is sunk is the cost, and nobody is lost |
| Expedition.ChargeTransitDay | core/src/sim_day.cpp:171-183 | a day charges min(cargo, daily use) of each resource and records it |
| Landfall.TravellersEat | core/src/sim_day.cpp:171-183 | a transit day takes min(cargo, daily use) of each resource and nothing else |
| Expedition.ChargeKeepsCargo | core/src/sim_day.cpp:171-183 | after n charged days each resource is max(0, cargo - n x use) |
| Expedition.ArrivesCharged | core/src/sim_day.cpp:184-190 | an arriving expedition has been charged exactly once for each transit day |
| Expedition.FoundColony | core/src/sim_freight.cpp:469-514 | founding settles the world, stores what fits, opens the hub |
| Landfall.TravellersLand | core/src/sim_freight.cpp:469-514 | the target is settled with its people, stores min(cargo, room) of each resource and has its hub at work in full condition, without staff |
| Expedition.UnsettledHasNoClaims | core/src/sim_freight.cpp:479-487 | nothing is promised at an unsettled world, so founding cargo never takes promised space |
| Expedition.FoundKeepsInv | core/src/sim_freight.cpp:469-514 | founding keeps every invariant; what did not fit is counted as spilled; the hub takes the slot kept for it |
| Expedition.Travel | core/src/sim_day.cpp:184-190 | each day charges the expedition, and on its arrival day also founds it |
| Expedition.TravelKeepsInv | core/src/sim_day.cpp:184-190 | travel and founding carry every invariant on to today |
| Upkeep.OpenFacilities | core/src/sim_day.cpp:84-101 | finished facilities open and services complete on their days |
| Tending.OpeningsAreDue | core/src/sim_day.cpp:84-101 | per facility: opened iff commissioned and its day has come; a due service ends with its bounded gain and its day noted; nothing else changes |
| Upkeep.OpenKeepsInv | core/src/sim_day.cpp:84-101 | and keep every invariant |
| Upkeep.ServiceFacility | core/src/sim_commands.cpp:352-387 | accepted iff active, worn, idle of service, off cooldown and affordable; the cost is paid and the ready day set |
| Orders.ServiceIsBooked | core/src/sim_commands.cpp:352-387 | the service is paid for and ends a day after its downtime; only an active, worn, rested facility is taken |
| Upkeep.ServiceKeepsInv | core/src/sim_commands.cpp:352-387 | servicing keeps every invariant |
| Maintenance.MaintainAll | core/src/sim_day.cpp:220-252 | each world's facilities pay in priority order or wear, within the condition bounds |
| Tending.UpkeepIsPaid | core/src/sim_day.cpp:220-252 | per facility: its machinery is used up and its condition gains iff unreserved machinery covers it; otherwise nothing is used and it loses, within the bounds |
| Maintenance.MaintenanceKeepsInv | core/src/sim_day.cpp:220-252 | maintenance keeps every invariant |
| Order.ProductionOrder | core/src/sim_support.cpp:283-303 | the active facilities of a world, each once, by band then id |
| Order.LowerBandFirst | core/src/sim_support.cpp:283-303 | of two facilities on duty the one of the lower band, then of the lower id, is served first |
| Order.OrderIsUnique | core/src/sim_support.cpp:283-303 | there is exactly one such order |
| Throughput.FeasibleBelow | core/src/sim_production.cpp:32-47 | feasibility is downward closed through nested floors and ceilings |
| Throughput.LargestRunIsLargest | core/src/sim_production.cpp:49-62 | trying every factor from the top finds the maximum feasible one |
| Throughput.LargestFeasibleRun | core/src/sim_production.cpp:49-62 | the binary search finds that same maximum |
| Throughput.ClassifyLimits | core/src/sim_production.cpp:64-83 | reports exactly the limits one basis point more would break |
| Throughput.ReportsExactly | core/src/sim_production.cpp:64-83 | something is reported iff the probed factor cannot run, and every report is true |
| Throughput.SomethingBinds | core/src/sim_production.cpp:64-83 | a search that stopped short of the desire reports at least one limit |
| Throughput.AnIdledRunReportsNothing | core/src/sim_production.cpp:260-274 | a run zeroed for making nothing can report no limit at all |
| Throughput.RunFits | core/src/sim_production.cpp:245-296 | a run's inputs are there, its power is in the pool and its outputs have room |
| Power.TakeSnapshot | core/src/sim_day.cpp:259-276 | the working set mirrors each world's unreserved stock |
| Power.SnapshotKeepsInv | core/src/sim_day.cpp:259-276 | the mirror is exact when the day opens |
| Power.MirrorAffords | core/src/sim_production.cpp:178-187 | what the mirror allows the store affords, so taking inputs never fails |
| Power.Generate | core/src/sim_production.cpp:130-194 | one generator: passive supply, largest run its fuel allows, fuel drawn from stock and mirror, supply added |
| Yields.BurnsItsFuel | core/src/sim_production.cpp:130-194 | an open facility adds its passive supply; a generator at work runs at the largest factor its fuel and desire allow, draws each fuel rounded up and adds its supply rounded down |
| Yields.HomesComeFirst | core/src/sim_production.cpp:196-203 | homes are served min(generated, population x need) and the rest is the pool |
| Power.GenerateKeeps | core/src/sim_production.cpp:130-194 | keeps the mirror exact and every invariant |
| Power.PowerAll | core/src/sim_production.cpp:130-203 | every world's generators in priority order, then homes, then the pool |
| Power.PowerKeepsInv | core/src/sim_production.cpp:130-203 | generated = served + granted + building + pool with served = min(generated, demand), whatever the order |
| Production.RunIsWithin | core/src/sim_production.cpp:245-296 | a run stays within the mirror, the pool and the room left beside what is promised and already staged |
| Production.Produce | core/src/sim_production.cpp:211-317 | one recipe: largest productive run, inputs, power, staged outputs and port service |
| Yields.RunsItsRecipe | core/src/sim_production.cpp:211-317 | a facility at work runs at the largest factor up to its desire that stock, pool and room allow, or not at all where that yields no unit: each input drawn is rounded up, each output rounded down by the factor and again by the world's efficiency for its class, power rounded up, port service down; any other facility changes nothing |
| Production.ProduceKeeps | core/src/sim_production.cpp:211-317 | keeps mirror, staged-fits, power balance and every invariant |
| Production.ProduceAll | core/src/sim_production.cpp:211-317 | every world's recipes in priority order |
| Production.ProductionKeepsInv | core/src/sim_production.cpp:211-317 | the phase does too |
| Production.InputsFromOpening | core/src/sim_production.cpp:178-290 | power and production together never draw more than the opening snapshot showed, in any priority order |
| Needs.StagedIsStored | core/src/sim_production.cpp:335-345 | there is room for every unit staged |
| Needs.CommitOutputs | core/src/sim_production.cpp:335-345 | commit stores all of today's output |
| Needs.CommitKeeps | core/src/sim_production.cpp:335-345 | and keeps every invariant, promised space included |
| Needs.ServeNeeds | core/src/sim_production.cpp:347-363 | food and water served are min(demand, unreserved stock) |
| Tending.PeopleAreServed | core/src/sim_production.cpp:347-363 | a world's people take min(need, unreserved stock) of food, floored by the ration, and of water |
| Needs.NeedsKeep | core/src/sim_production.cpp:347-363 | civilian needs keep every invariant |
| Needs.CommitKeepsInv | core/src/sim_production.cpp:324-363 | the commit of all worlds keeps the invariants, the power balance and the handling budgets |
| Relief.RequestRelief | core/src/sim_commands.cpp:794-819 | accepted iff an emergency is declared, none is pending and the contract is unused |
| Orders.ReliefIsPromised | core/src/sim_commands.cpp:794-819 | once per world, in an emergency, for the day the delay ends |
| Relief.DeliverRelief | core/src/sim_day.cpp:153-166 | a due grant is stored as far as it fits and closed |
| Landfall.ReliefArrives | core/src/sim_day.cpp:153-166 | due relief arrives once, min(grant, room) of each resource |
| Relief.ReliefKeepsInv | core/src/sim_day.cpp:153-166 | relief keeps every rule but the booking one, and that one iff none of it lands in promised space |
| Effects.ExecuteEffect | core/src/sim_effects.cpp:223-334 | an effect is done iff its target is there and a swap has its crew; grants store what fits, takings take what is there, conditions are only raised, modifiers need their facility |
| Landfall.EffectsActSo | core/src/sim_effects.cpp:223-334 | a grant stores min(quantity, room), a taking takes min(quantity, unreserved), a swap is due back after its days or two, a restoration raises a condition to its floor |
| Effects.EffectKeepsInv | core/src/sim_effects.cpp:223-334 | an effect keeps every rule but the booking one, and that one too unless it is a grant into promised space |
| Effects.RunEffects | core/src/sim_effects.cpp:223-334 | a list of effects in order, or up to the first that raises an error, exactly |
| Effects.EffectsKeepInv | core/src/sim_effects.cpp:223-334 | any list keeps every rule but the booking one |
| Commands.ApplyCommand | core/src/sim_commands.cpp:46-128 | a command is accepted iff its condition on the state before it holds; then it is its whole transition, else nothing, and the invariant holds either way |
| Commands.CommandResolvesExactly | core/src/sim_commands.cpp:46-128 | a command has a transition iff that condition holds |
| Commands.CommandIsDetermined | core/src/sim_commands.cpp:46-128 | and then one only, up to the writing of ledger entries |
| Commands.CommandKeepsInv | core/src/sim_commands.cpp:99-117 | every accepted command keeps the invariant, so the check after it has nothing to undo |
| Commands.ChooseEvent | core/src/sim_commands.cpp:572-661 | accepted iff the cost and the workers asked for are there, no effect raises an error and no store ends overbooked; then cost and effects, else everything is put back |
| Commands.FloorsInForce | core/src/sim_commands.cpp:447-475 | after an edit a waived resource keeps nothing back, an authored floor is in force whatever its sign unless waived before, and every other floor is as it was |
| Orders.EditsTakeHold | core/src/sim_commands.cpp:447-475 | each kind of edit sets its own fields of the plan as given and no other; switching on an overdue route moves its departure to tomorrow |
| Resolver.StepDay | core/src/sim_day.cpp:13-63 | a day resolves iff nothing stops it, and is then exactly the phases in order, its closing check passed, and ends in a state satisfying the invariant; each other ending iff its own condition is the one met |
| Overbooking.OnlyGrantsOverbook | core/src/sim_day.cpp:13-63 | a day fails its check over a store only where, with every promise kept until then, the k-th effect of its own morning or evening is a grant, or a world's relief of that morning a delivery, that takes promised space |
| Staffing.CrowdedDay | core/src/sim_day.cpp:127-149 | a day on which more land at a finished facility than it employs cannot resolve; no other day is stopped over its staff, at work or at the check |
| Staffing.DayStaff | core/src/sim_day.cpp:13-63 | after the landings nothing on a day changes whether staff is within bounds |
| Day.StaffedUnlessAwaited | core/src/sim_day.cpp:360-439 | at any time of the day staff is within what recipes employ unless some facility was finished with more workers than that on their way |
| Totality.DayResolvesExactly | core/src/sim_day.cpp:13-63 | a day has a transition iff nothing stops it |
| Determined.DayIsDetermined | core/src/sim_day.cpp:13-63 | then one only, up to the writing of ledger entries, and no condition that stops a day is met |
| Determined.OneEnding | core/src/sim_day.cpp:13-63 | a day that stops stops in one way |
| Day.DueKeepsInv | core/src/sim_day.cpp:71-212 | due work carries yesterday's invariants to today |
| Day.WorkdayKeepsInv | core/src/sim_production.cpp:130-533 | power to construction keep every invariant and end with every world's power balanced |
| Day.DayKeepsInv | core/src/sim_day.cpp:13-63 | a committed state is still one after any day that resolves, effects of the morning and of the evening included |
| Events.EveryRunIsRegular | core/src/sim_consequences.cpp:216-386 | over all runs: one decision a day, openings a cooldown apart, one running window per chain and world, deadlines and queued effects strictly ahead |
| Events.NextDayKeeps | core/src/sim_consequences.cpp:216-386 | a day keeps all of that |
| Events.OpenedKeeps | core/src/sim_effects.cpp:81-122 | opening a request the scheduler let through keeps it |
| Events.SweepSettles | core/src/sim_consequences.cpp:220-256 | after the sweep no running deadline is due or past |
| Events.ExecuteMoves | core/src/sim_effects.cpp:196-288 | effects only ease windows, ask for events and queue later effects |
| Events.ChosenKeeps | core/src/sim_commands.cpp:572-661 | a response between days keeps all of that, what it calls off included |
| Events.ResponseCallsOff | core/src/sim_commands.cpp:618-641 | a response leaves queued nothing of the choices it calls off other than its own, and calls off nothing else |
| Events.TakenStays | core/src/sim_commands.cpp:583-586 | a response once applied stays applied over any run, so none is applied twice to a window |
| Events.StreakIsHeld | core/src/sim_consequences.cpp:272-277 | over any run a site's streak is the unbroken run of days its condition has held |
| Events.FoundHasHeld | core/src/sim_consequences.cpp:277-286 | a candidate has held, today included, for as many days as its event asks, where it is off cooldown and its chain is shut |
| Events.RankedIs | core/src/sim_consequences.cpp:306-314 | candidates are asked for each once, by class, then longest streak, then identifiers |
| Windows.CandidatesInOrder | core/src/sim_consequences.cpp:309-320 | on the fields: lower class (99 when unknown), longer streak, lower event, world and facility first; each asked for once |
| Windows.EveryQueueIsInLine | core/src/sim_effects.cpp:10-17 | over any run queued effects stand by due day, then priority |
| Windows.PartIs | core/src/sim_day.cpp:103-116 | the effects run on a day are exactly those due, in the order they stood |
| Windows.ClosesSo | core/src/sim_effects.cpp:124-143 | closing shuts exactly the open windows of the event, or of its chain, on that world |
| Windows.SweptSo | core/src/sim_consequences.cpp:220-256 | a window is closed when its condition has resolved, expired or left open without its deadline when that is reached, and untouched otherwise |
| Windows.ChosenSo | core/src/sim_commands.cpp:572-661 | a response taken resolves its window or ends its deadline, is noted, and otherwise only closes windows |
| EventDesk.Desk.Watch | core/src/sim_consequences.cpp:262-303 | the day's sightings extend or break the streaks, and those ripe are collected |
| EventDesk.Desk.RequestEvent | core/src/sim_effects.cpp:53-68 | a request is made once |
| EventDesk.Desk.CloseEvents | core/src/sim_effects.cpp:124-143 | closes an event's or its chain's open instances on a world, and lifts the pause when no window is left |
| EventDesk.Desk.ExecuteEffect | core/src/sim_effects.cpp:196-288 | schedule, request and close, exactly |
| EventDesk.Desk.Sweep | core/src/sim_consequences.cpp:220-261 | resolves or expires open instances in order |
| EventDesk.Desk.OpenEvent | core/src/sim_effects.cpp:81-122 | a new instance, its cooldown, its effects and the day's decision count |
| EventDesk.Desk.DrainRequests | core/src/sim_consequences.cpp:322-386 | each request in scheduler order is dropped, put off or opened as the board then stands; requests raised meanwhile are overwritten |
| Docket.TakenInTurn | core/src/sim_consequences.cpp:322-333 | the requests taken are the requests asked, of lower class first (99 when unknown), then of the earlier day, then the one asked earlier |
| Docket.DrainTakesTurns | core/src/sim_consequences.cpp:335-386 | every request is opened, kept for tomorrow, or dropped, the last only if unknown, cooling, or unique and open already; an opened one has its own deadline, cooldown and decision count |
| Docket.LowerClassOpens | core/src/sim_consequences.cpp:355-370 | of two decisions the one of the lower class opens if it may at its turn, and the other then does not |
| EventDesk.Desk.StepDay | core/src/sim_consequences.cpp:216-386 | a scheduler day, from due effects to the last opening |
| EventDesk.Desk.Choose | core/src/sim_commands.cpp:572-661 | a response, taken iff its window is open and it was not taken before; then the window, what it calls off and its effects, exactly |
| Archive.ArchivesAgree | core/src/sim_day.cpp:286-355 | each retained weekly bucket has exactly the span and minima of its compacted samples, and first-retained + retained = days stepped |
| Archive.WeeksAreComplete | core/src/sim_day.cpp:304-333 | unpruned compaction is exact and misses nothing |
| Archive.PrunedMerge | core/src/sim_day.cpp:304-343 | compacting into a pruned record is pruning the compacted whole |
| Archive.FoundLate | core/src/sim_day.cpp:304-333 | a sample's bucket is among the last ones, one per world, so evicted weeks are over |
| Archive.History.MergeSample | core/src/sim_day.cpp:304-333 | one sample joins its week's bucket or opens it |
| Archive.SameWeekIs | core/src/sim_day.cpp:304-312 | a bucket is seven days from a multiple of seven, of one world |
| Archive.History.PruneWeekly | core/src/sim_day.cpp:337-343 | the oldest weeks leave, each digested as it goes |
| Archive.Log.Append | core/src/sim_support.cpp:29-46 | an entry is digested and kept, the log stays the newest up to its cap and the digest covers every entry there was |
| Archive.DigestTells | core/src/sim_support.cpp:29-46 | where the mixing and the coding tell their arguments apart, equal digests of logs of one length mean equal logs |
| Archive.History.AddHash | core/src/sim_day.cpp:345-355 | a hash is digested and kept up to the cap, counting what is dropped |
| Archive.History.CommitDay | core/src/sim_day.cpp:283-355 | after any day every archive is the recent part of everything recorded and every digest covers all of it |
| Replay.Live.ApplyCommand | core/src/sim_commands.cpp:46-128 | duplicates, stale revisions, finished sessions, rejections and acceptances, exactly |
| Replay.CommandsAreAnswered | core/src/sim_commands.cpp:46-128 | a repeated id gets its recorded answer, a stale revision or an ended session is refused without a trace, any other command is its handler's, and an accepted one advances revision and sequence by one |
| Replay.RepeatIsIdle | core/src/sim_commands.cpp:47-59 | issuing an id again, at any later time, returns its recorded result and changes nothing |
| Replay.Record | persistence/src/replay.cpp:138-168 | the journal holds exactly the accepted, non-repeated commands and the days that passed |
| Replay.ReplayJournal | persistence/src/replay.cpp:185-225 | drives a fresh session through a journal and counts refusals |
| Replay.ReplayFollows | persistence/src/replay.cpp:185-225 | at every point replay has the recorded core state, revision and sequence, and remembers exactly the accepted commands |
| Replay.ReplayAcceptsAll | persistence/src/replay.cpp:185-225 | no journaled command is refused by its replay |
| Replay.ReplayIsExact | persistence/src/replay.cpp:138-225 | replay reaches the recorded state exactly, hashes and digest included, iff no command with an id was rejected by its handler |
| Replay.ARejectionIsNotReplayed | persistence/src/replay.cpp:138-225 | a recorded rejection under an id that replay does not reproduce |
| SessionReplay.TheSessionServes | core/src/sim_commands.cpp:46-128 | a kernel of the replayed kind exists whose handlers, and whose days that can resolve, are the modelled transitions |
| SessionReplay.PlayedOutIs | persistence/src/replay.cpp:154-168 | play ends at the first day that does not resolve, and nowhere else |
| SessionReplay.RecordedIsARun | persistence/src/replay.cpp:138-225 | however a session is played up to then, its world is one a run leads to and satisfies every invariant, and replaying what was journaled leads to the same state |
| Hashes.Trim | core/src/sim_day.cpp:345-355 | the latest hashes up to the cap, the first retained day moving on by what is dropped |
| Json.EscapeInto | core/src/json.cpp:417-441 | appends the quoted, escaped string |
| Json.WriteCanonical | core/src/json.cpp:443-474 | appends exactly the canonical text |
| Json.InsertAscends | core/src/json.cpp:252-275 | inserting a new key keeps members in strict bytewise order |
| Json.LessIsBytewise | core/include/expansion/json.hpp:28-39 | the key order is that of the first differing byte, a proper prefix coming first |
| JsonGrammar.CanonicalSpelling | core/src/json.cpp:417-441 | the canonical escape is the shortest spelling of its character, with lower-case digits |
| JsonText.StringReadsBack | core/src/json.cpp:351-413 | every string of whole UTF-8 characters, escaped and closed, reads back as itself |
| JsonRoundTrip.NumberReadsBack | core/src/json.cpp:296-311 | every 64-bit integer reads back |
| JsonRoundTrip.ValueReadsBack | core/src/json.cpp:229-311 | the text of any value within the limits, wherever it stands, is read as that value and no further |
| JsonRoundTrip.CanonicalRoundTrip | core/src/json.cpp:478-485 | parsing the canonical text of any value within the limits gives that value back |
| JsonRoundTrip.CharsAreWhole | core/src/json.cpp:351-413 | whatever string is read is whole UTF-8 and its escape is no longer than what was read |
| JsonRoundTrip.ValueIsPrintable | core/src/json.cpp:229-311 | everything read is within the limits and its canonical text is no longer than its source text |
| JsonRoundTrip.ReserialisingSettles | core/src/json.cpp:478-485 | re-serialising parsed text is idempotent |
| JsonReader.Parser.SkipWs | core/src/json.cpp:216-227 | skips white space and refuses comments |
| JsonReader.Parser.ReadString | core/src/json.cpp:351-413 | reads a string, or fails, exactly as specified |
| JsonReader.Parser.ReadNumber | core/src/json.cpp:296-311 | reads an integer, or fails, exactly as specified |
| JsonReader.Parser.ReadValue | core/src/json.cpp:229-244 | reads a value, or fails, exactly as specified |
| JsonReader.Parser.ReadArray | core/src/json.cpp:277-294 | reads an array within its limit |
| JsonReader.Parser.ReadObject | core/src/json.cpp:252-275 | reads an object with distinct keys within its limit |
| JsonReader.Parser.Run | core/src/json.cpp:175-183 | a whole document and nothing after it |
| JsonGrammar.SpellingReads | core/src/json.cpp:351-413 | however the characters of a string are spelt, raw, by letter, by code or by surrogate pair, it is read as that string |
| JsonGrammar.ReadIsSpelt | core/src/json.cpp:351-413 | and whatever string is read was spelt so |
| JsonLayout.DocumentsAreLaid | core/src/json.cpp:175-294 | a text is accepted as a value iff it is a layout of that value's tokens (members in any order, characters in any spelling) with blanks anywhere between them, within the limits, after a byte-order mark or none |
| JsonLayout.SpacesDoNotMatter | core/src/json.cpp:216-227 | canonical text with any spaces, tabs, newlines and carriage returns put between its tokens is read as the same value |
| Decimal.ParseDecimal | core/src/units.cpp:45-71 | accepts and returns exactly what the 64-bit loop with its wrap test does |
| Decimal.ParseDecimalUnsigned | core/src/units.cpp:73-84 | likewise, unsigned |
| Decimal.DigitsDenote | core/src/units.cpp:42-43 | the digits written denote the number, without a leading zero |
| Decimal.DecimalRoundTrip | core/src/units.cpp:42-71 | every int64 reads back as itself |
| Decimal.UnsignedRoundTrip | core/src/units.cpp:43-84 | every uint64 reads back as itself |
| Decimal.ShortStringsAreTrue | core/src/units.cpp:45-71 | a string of at most 19 digits is accepted iff canonical and in range, and denotes its true value |
| Decimal.FalselyAccepted | core/src/units.cpp:55-64 | a signed string is accepted as something else iff its twenty digits wrap and land above a tenth of themselves within range |
| Decimal.FalselyAcceptedUnsigned | core/src/units.cpp:73-84 | an unsigned one iff its twenty digits wrap and land above a tenth of themselves |
| Decimal.ATwentyDigitString | core/src/units.cpp:55-64 | "22000000000000000000" is one of them |
| MilliText.FormatMilli | core/src/units.cpp:86-99 | a quantity as whole, point and trimmed thousandths |
| MilliText.ParseNumber | cli/commands.cpp:25-64 | reads a signed decimal quantity, keeping three fraction digits |
| MilliText.ParseInteger | cli/commands.cpp:66-72 | a whole number of units, or an error |
| MilliText.MilliRoundTrip | core/src/units.cpp:86-99 | every quantity written and read back is itself, except the int64 minimum, which overflows |
| Units.MulDivFloorExact | core/src/units.cpp:23-29 | floor(a b / c), or an error exactly when c is not positive or the result leaves 64 bits |
| Units.MulDivCeilExact | core/src/units.cpp:31-37 | ceil(a b / c), likewise |
| Units.FloorAtLeast | core/src/units.cpp:23-29 | k <= floor(a b / c) iff k c <= a b |
| Units.CeilAtMost | core/src/units.cpp:31-37 | ceil(a b / c) <= k iff a b <= k c |
| Units.FulfilmentFull | core/include/expansion/units.hpp:91-95 | a fulfilment is full iff the requirement is met |
| Units.VolumeFits | core/src/sim_freight.cpp:14-22 | volume(q) <= V iff q <= quantity-for-volume(V) |

## Left out

- 64-bit overflow outside `Units`, `Decimal` and `MilliText`: quantities are unbounded integers, so the errors the checked arithmetic raises on overflow do not arise.
- Facts, news and their pruning, reason texts, explanations and milestones: presentation. Identifiers that ledger entries, facts, news and shipments take are not allocated, so the numbers of later identifiers differ; order and uniqueness do not.
- Account strings: accounts are classes with a world or facility, and all expeditions share one account, because the label an expedition is recorded under is built from an identifier that each entry then consumes.
- Health, fatigue, stability, policies, modifiers, adherence, housing and clinics: a day takes the resulting factors, food ration, desired throughputs, declared emergencies and authored effects as inputs (`State.DayInputs`), and the theorems hold for all of them.
- Scenario completion, failure and surrender, and the missed-manifest counter: no stock, worker or voyage depends on them. `Replay` models a finished session through a predicate.
- The cancelled facility lifecycle: it is never assigned; cancelling erases the facility.
- Catalogue loading: its guarantees are `Catalog.ValidCatalog`. Beyond what loading checks, the model assumes that origin and destination differ, legs, transit and worker moves take at least a day, the negotiated requirement is within the original, food and water, and fuel and machinery, are distinct, and the condition bounds include 100%.
- A scenario is also assumed to start with a settled home world and, while the expedition's target is unsettled, one slot there to spare for its hub.
- Resolver.StepDay: what state a day leaves that did not resolve is not stated; the kernel restores nothing after its error. The closing check is the part of it whose subjects are modelled, and desired throughputs are inputs; the error raised where a running facility is overstaffed is found before the work of the day, where the kernel meets it at that facility's turn, with the same ending.
- Commands.ApplyCommand: does not cover selecting a policy or surrendering, which move no stock, worker or voyage.
- Commands.ChooseEvent: covers the cost, the workers asked for and the stock effects; that the window is open, the response not taken and what it calls off are `Events.Chosen`.
- EventDesk.Desk.Choose: covers those; cost and workers are `Commands.ChooseEvent`.
- Workforce.ReplaceCrews: does not push the downtime modifier on the site.
- Effects.ExecuteEffect: covers grants, takings, crew swaps, condition floors and the facility a modifier needs; transfers to owned accounts, which the kernel does not credit, are excluded, and the modifiers themselves, flags and stability are not modelled.
- Departures and arrivals assume one freighter, as the kernel does; its crew never changes after the start.
- Schedules nested in schedules: the kernel does not resolve them.
- Construction jobs are advanced by walking the facilities in order rather than a collected and sorted list of ids; facilities are kept in id order, so the sequence is the same.
- Recipe inputs, launch costs and similar maps are drawn one resource after another in ascending order, with the mirror updated once afterwards.
- EventDesk.Desk.StepDay: whether a condition holds at a site today is an input, the metrics it reads being outside this model; identifiers are numbered in the order of their text. The stock effects of events are `Effects`, not repeated here.
- Archive: samples carry the four values the weekly summary keeps; the digests of facts and news are not modelled.
- Hashes and digests are functions the model only applies; nothing is assumed of them but in `Archive.DigestTells`, which says what it assumes.
- Replay: the journal's own JSON encoding is not modelled, and its days always pass; `SessionReplay` stops play at the first day that does not resolve, where the kernel throws and journals nothing, and leaves what that day did to the state unsaid. There the rest of the state, outside this model, decides each day's inputs.
- MilliText.ParseNumber: signed overflow, undefined in the kernel, is reported as such.
- The state codec, save files, read models, display text and the command line: input, output and presentation.
