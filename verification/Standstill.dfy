/** A sector brought to a standstill by accepted commands: a workshop is finished while two workers are still on
    their way to its one place, and the day they land cannot resolve. */
module Standstill {
  import opened Units
  import opened Sums
  import opened Catalog
  import opened State
  import opened Chains
  import opened Outside
  import opened Workforce
  import opened Construction
  import opened Upkeep
  import opened Effects
  import opened Maintenance
  import opened Power
  import opened Production
  import opened Needs
  import opened Building
  import opened RoutePhase
  import opened Day
  import opened Staffing
  import opened Totality
  import opened Commands
  import opened Runs
  import opened Rest
  import opened Witnesses

  /** The home port after two of its three workers have left it. */
  const LEFT := HOME_PORT.(staff := 1)
  const FROM_RESERVE := Transfer(5, 0, 0, 4, 1, 1)
  const FROM_PORT := Transfer(6, 0, 1, 4, 2, 2)

  function Finishing(condition: int): Facility {
    Workshop(0).(job := None, life := Commissioning, activates := 2, awaited := 2, condition := condition)
  }

  // ----- three commands on the first day -----

  lemma HomeStaff(port: Facility)
    requires port == HOME_PORT || port == LEFT
    ensures Sum([port, AWAY_PORT, Workshop(0)], StaffOn(0)) == port.staff
  {
    assert [port, AWAY_PORT, Workshop(0)] == [port, AWAY_PORT] + [Workshop(0)];
    SumTwo(port, AWAY_PORT, StaffOn(0));
    SumAppend([port, AWAY_PORT], Workshop(0), StaffOn(0));
  }

  lemma MayAssignOne(w: World)
    requires w.facilities == [HOME_PORT, AWAY_PORT, Workshop(0)] && w.transfers == [] && |w.planets| == 3
    requires w.planets[0].workers == 5 && w.planets[0].crew == 1
    ensures AssignAllowed(SMALL, w.planets, w.facilities, w.transfers, 0, 0, 4, 1)
  {
    HomeStaff(HOME_PORT);
    SumEmpty(MovingOn(0));
    LookupFinds(w.facilities, 2);
  }

  lemma MayMoveTwo(w: World)
    requires w.facilities == [HOME_PORT, AWAY_PORT, Workshop(0)] && w.transfers == [FROM_RESERVE] && |w.planets| == 3
    ensures AssignAllowed(SMALL, w.planets, w.facilities, w.transfers, 0, 1, 4, 2)
    ensures ShiftAt(w.facilities, 1, -2) == [LEFT, AWAY_PORT, Workshop(0)]
  {
    LookupFinds(w.facilities, 0);
    LookupFinds(w.facilities, 2);
  }

  lemma BuildRested(cat: Catalog, w: World, w': World, p: nat, kind: nat, recipe: Option<nat>)
    requires AtRest(w) && BuildStep(cat, w, w', p, kind, recipe)
    ensures AtRest(w')
  {
    hide Posted, LedgerOk, BuildAllowed, NewJob;
    StockRests(w.planets, w'.planets);
  }

  /** A workshop begun, one worker from Reserve due tomorrow and two from the port the day after. */
  lemma ThreeCommands() returns (w: World)
    ensures Reachable(SMALL, SECTOR, w) && Inv(SMALL, w) && w.day == 0 && |w.planets| == 3 && AtRest(w)
    ensures w.facilities == [LEFT, AWAY_PORT, Workshop(0)] && w.transfers == [FROM_RESERVE, FROM_PORT] && w.nextId == 7
    ensures w.ship.phase.Docked? && !w.colony.launched
  {
    hide InvAt, BuildAllowed, AssignAllowed, FirstState, Run, BuildStep, AtRest, StaffedOk, ValidScenario;
    StartIsSound();
    StartPeople();
    FirstRests(SMALL, SECTOR);
    var begun := WorkshopBegun();
    BuildRested(SMALL, START, begun, 0, 1, Some(0));
    MayAssignOne(begun);
    var one := begun.(nextId := 6, transfers := [FROM_RESERVE]);
    MayMoveTwo(one);
    w := one.(nextId := 7, transfers := [FROM_RESERVE, FROM_PORT], facilities := [LEFT, AWAY_PORT, Workshop(0)]);
    var build, order1, order2 := Order(Build(0, 1, Some(0))), Order(AssignCrew(0, 0, 4, 1)),
        Order(AssignCrew(0, 1, 4, 2));
    assert AssignStep(SMALL, begun, one, 0, 0, 4, 1);
    assert AssignStep(SMALL, one, w, 0, 1, 4, 2);
    assert [] + [build] == [build] && [build] + [order1] == [build, order1]
           && [build, order1] + [order2] == [build, order1, order2];
    NoOps(SMALL, START);
    OneMore(SMALL, START, START, begun, [], build);
    OneMore(SMALL, START, begun, one, [build], order1);
    OneMore(SMALL, START, one, w, [build, order1], order2);
    SectorIsValid();
    RunIsSound(SMALL, START, w, [build, order1, order2]);
    RestAgain(begun, w);
  }

  lemma RestAgain(w: World, w': World)
    requires AtRest(w) && w' == w.(nextId := w'.nextId, transfers := w'.transfers, facilities := w'.facilities)
    ensures AtRest(w')
  {
  }

  // ----- the day they land on, and the day after -----

  lemma NothingElseReceived(cat: Catalog, w: World, w': World)
    requires NoRelief(w.planets) && Received(cat, w, w', [])
    ensures exists o :: OpenStep(cat, w, o) && TransfersStep(o, w')
  {
    hide OpenStep, TransfersStep, ReceiveStep;
    var o, b, c :| OpenStep(cat, w, o) && EffectsStep(cat, o, b, []) && TransfersStep(b, c) && ReliefPhase(cat, c, w');
    var inv := (z: World) => z == c;
    SameStoresLand(cat, w, o, c);
    forall x, y, p: nat | p < |c.planets| && inv(x) && ReliefNext(cat)(x, y, p) ensures inv(y) {
    }
    ThroughKeeps(c, w', |c.planets|, ReliefNext(cat), inv);
  }

  lemma SameStoresLand(cat: Catalog, w: World, o: World, c: World)
    requires OpenStep(cat, w, o) && TransfersStep(o, c)
    ensures c.planets == w.planets
  {
  }

  lemma NobodyArrives(cat: Catalog, w: World, w': World)
    requires Arrivals(cat, w, w') && w.ship.phase.Docked? && !w.colony.launched
    ensures w' == w
  {
  }

  /** The first worker lands and the two others are still on their way. */
  lemma FirstLanding(w: World, o: World, c: World)
    requires w.facilities == [LEFT, AWAY_PORT, Workshop(0)] && w.transfers == [FROM_RESERVE, FROM_PORT] && w.day == 1
    requires OpenStep(SMALL, w, o) && TransfersStep(o, c)
    ensures c.facilities == [LEFT, AWAY_PORT, Workshop(1)] && c.transfers == [FROM_PORT]
  {
    assert o.facilities == w.facilities;
    var ts := w.transfers;
    SumTwo(ts[0], ts[1], LandingAt(1, 1));
    SumTwo(ts[0], ts[1], LandingAt(2, 1));
    SumTwo(ts[0], ts[1], LandingAt(4, 1));
    assert ts == [ts[0], ts[1]];
    WaitingNext(ts, 0, 1);
    WaitingNext(ts, 1, 1);
    assert ts[..2] == ts && ts[..0] == [];
    assert Landed(w.facilities, ts, 1) == [LEFT, AWAY_PORT, Workshop(1)];
  }

  lemma FirstMorning(w: World, a: World)
    requires AtRest(w) && w.facilities == [LEFT, AWAY_PORT, Workshop(0)] && w.transfers == [FROM_RESERVE, FROM_PORT]
             && w.day == 0
    requires w.ship.phase.Docked? && !w.colony.launched && Morning(SMALL, w, a, [])
    ensures OnlyWorn([LEFT, AWAY_PORT, Workshop(1)], a.facilities) && a.transfers == [FROM_PORT] && a.day == 1
  {
    hide Received, Arrivals, MaintenanceStep, BookedOk, AtRest, OpenStep, TransfersStep, OnlyWorn;
    var today := w.(day := 1);
    var m, b :| DueStep(SMALL, today, m, []) && MaintenanceStep(SMALL, m, b) && SnapshotStep(b, a);
    var r :| Received(SMALL, today, r, []) && Arrivals(SMALL, Noted(r), m);
    assert NoRelief(today.planets) by {
      RestTomorrow(w);
    }
    NothingElseReceived(SMALL, today, r);
    var o :| OpenStep(SMALL, today, o) && TransfersStep(o, r);
    FirstLanding(today, o, r);
    LandedStands(SMALL, today, o, r);
    NobodyArrives(SMALL, Noted(r), m);
    MaintenanceWears(SMALL, m, b);
  }

  lemma RestTomorrow(w: World)
    requires AtRest(w)
    ensures NoRelief(w.planets)
  {
  }

  lemma LandedStands(cat: Catalog, w: World, o: World, c: World)
    requires OpenStep(cat, w, o) && TransfersStep(o, c)
    ensures c.ship == w.ship && c.colony == w.colony && c.day == w.day
  {
  }

  /** The workshop is finished with the two still on their way. */
  lemma FirstWork(c: World, b: World, health: int, fatigue: int)
    requires OnlyWorn([LEFT, AWAY_PORT, Workshop(1)], c.facilities) && c.transfers == [FROM_PORT] && c.day == 1
    requires AdvanceStep(SMALL, c, b, 2, health, fatigue) && 0 <= health && 0 <= fatigue
    ensures |b.facilities| == 3 && b.facilities[2] == Finishing(c.facilities[2].condition)
    ensures b.transfers == [FROM_PORT] + CrewHome(Workshop(1), c.nextId, 1)
  {
    hide Posted, LedgerOk, SpentBy, Construction.Worked, PowerGrant, FloorOf, FulfilmentBp;
    SumSingleton(FROM_PORT, IncomingTo(4));
    var f := c.facilities[2];
    assert f == Workshop(1).(condition := f.condition);
    WorkTodayIsNat(SMALL, f.job.value, health, fatigue, c.scratch[0].pool);
  }

  lemma FirstDay(w: World, w': World)
    requires Inv(SMALL, w) && AtRest(w) && w.facilities == [LEFT, AWAY_PORT, Workshop(0)]
             && w.transfers == [FROM_RESERVE, FROM_PORT] && w.day == 0
    requires w.ship.phase.Docked? && !w.colony.launched && |w.planets| == 3 && DayStep(SMALL, w, w', PlainDay(3))
    ensures exists z: int, id: nat ::
              |w'.facilities| == 3 && w'.facilities[2] == Finishing(z)
              && w'.transfers == [FROM_PORT] + CrewHome(Workshop(1), id, 1)
  {
    hide InvAt, AtRest, Morning, PowerStep, ProductionStep, CommitPhase, BuildPhase, AdvanceStep, Reckoned, BenchesOk,
         PowerUpto, Overworked, BookedOk, StaffedOk, OnlyWorn;
    var x := PlainDay(3);
    var a, v :| Morning(SMALL, w, a, x.due) && Workday(SMALL, a, v, x) && Evening(SMALL, v, w', x);
    var e :| Reckoned(SMALL, v, e, x) && Passes(SMALL, e) && w' == Noted(e);
    FirstMorning(w, a);
    MorningKeepsInv(SMALL, w, a, []);
    var c := BeforeBuilding(SMALL, a, v, x);
    JobAlone(c.facilities);
    assert BuildPhase(SMALL, c, v, x);
    BuiltAlone(SMALL, c, v, x);
    FirstWork(c, v, BP_ONE, BP_ONE);
    PlainEvening(SMALL, v, e, x);
    var z, id := c.facilities[2].condition, c.nextId;
  }

  lemma BeforeBuilding(cat: Catalog, w: World, w': World, x: DayInputs) returns (c: World)
    requires InvAt(cat, w, w.day, w.day) && BenchesOk(cat, w) && PowerUpto(cat, w, 0) && Workday(cat, w, w', x)
    ensures SameCrews(w, c) && |c.planets| == |w.planets| && BuildPhase(cat, c, w', x)
  {
    hide InvAt, PowerStep, ProductionStep, CommitPhase, BuildPhase, BenchesOk, PowerUpto, Overworked;
    var a, b;
    a, b, c :| PowerStep(cat, w, a, x) && ProductionStep(cat, a, b, x) && CommitPhase(cat, b, c, x.foodRatio)
        && BuildPhase(cat, c, w', x);
    PowerKeepsInv(cat, w, a, x, w.day, w.day);
    WorkingWidth(cat, w, a);
    ProductionKeepsInv(cat, a, b, x, w.day, w.day);
    WorkingWidth(cat, a, b);
    CommitLeaves(cat, b, c, x.foodRatio);
  }

  lemma JobAlone(fs: seq<Facility>)
    requires OnlyWorn([LEFT, AWAY_PORT, Workshop(1)], fs)
    ensures |fs| == 3 && fs[2].planet == 0 && forall k | 0 <= k < 3 :: fs[k].life.UnderConstruction? <==> k == 2
  {
    var was := [LEFT, AWAY_PORT, Workshop(1)];
    forall k | 0 <= k < 3 ensures fs[k] == was[k].(condition := fs[k].condition) {
    }
  }

  lemma BuiltAlone(cat: Catalog, w: World, w': World, x: DayInputs)
    requires BuildPhase(cat, w, w', x) && |w.planets| == 3 && x == PlainDay(3)
    requires |w.facilities| == 3 && w.facilities[2].planet == 0 && forall k | 0 <= k < 3 ::
             w.facilities[k].life.UnderConstruction? <==> k == 2
    ensures AdvanceStep(cat, w, w', 2, BP_ONE, BP_ONE)
  {
    hide AdvanceStep;
    OneJobBuilt(cat, w, w', 2, 3, x);
  }

  lemma PlainEvening(cat: Catalog, w: World, w': World, x: DayInputs)
    requires Reckoned(cat, w, w', x) && x.evening == []
    ensures SameCrews(w, w')
  {
    hide FreightStep, ConsequencesStep;
    var a, b :| FreightStep(cat, w, a, x.foodRatio) && ConsequencesStep(cat, a, b, x.emergency)
        && EffectsStep(cat, b, w', x.evening);
    FreightLeaves(cat, w, a, x.foodRatio);
    ConsequencesLeave(cat, a, b, x.emergency);
  }

  /** Two are due tomorrow at a workshop that employs one. */
  lemma TomorrowCrowds(w: World, z: int, id: nat)
    requires w.day == 1 && |w.facilities| == 3 && w.facilities[2] == Finishing(z)
             && w.transfers == [FROM_PORT] + CrewHome(Workshop(1), id, 1)
    ensures Crowds(SMALL, w) && Sum(w.transfers, LandingAt(4, 2)) == 2
  {
    SumTwo(w.transfers[0], w.transfers[1], LandingAt(4, 2));
    assert w.transfers == [w.transfers[0], w.transfers[1]];
    assert Overfills(SMALL, w.facilities[2], w.transfers, 2);
  }

  lemma NobodyCrowdsYet(w: World)
    requires w.facilities == [LEFT, AWAY_PORT, Workshop(0)] && w.transfers == [FROM_RESERVE, FROM_PORT] && w.day == 0
    ensures !Crowds(SMALL, w)
  {
    SumTwo(FROM_RESERVE, FROM_PORT, LandingAt(1, 1));
    SumTwo(FROM_RESERVE, FROM_PORT, LandingAt(2, 1));
    forall i | 0 <= i < 3 ensures !Overfills(SMALL, w.facilities[i], w.transfers, 1) {
    }
  }

  /** On the second morning the workshop opens with both of them. */
  lemma SecondLanding(w: World, o: World, c: World, z: int, id: nat)
    requires |w.facilities| == 3 && w.facilities[2] == Finishing(z)
             && w.transfers == [FROM_PORT] + CrewHome(Workshop(1), id, 1) && w.day == 2
    requires OpenStep(SMALL, w, o) && TransfersStep(o, c)
    ensures |c.facilities| == 3 && c.facilities[2] == Finishing(z).(life := Active, staff := 2)
  {
    SumTwo(w.transfers[0], w.transfers[1], LandingAt(4, 2));
    assert w.transfers == [w.transfers[0], w.transfers[1]];
    assert o.facilities[2] == Finishing(z).(life := Active);
  }

  lemma SecondMorning(w: World, a: World, z: int, id: nat)
    requires AtRest(w) && |w.facilities| == 3 && w.facilities[2] == Finishing(z)
             && w.transfers == [FROM_PORT] + CrewHome(Workshop(1), id, 1)
    requires w.day == 1 && Inv(SMALL, w) && Morning(SMALL, w, a, [])
    ensures Overworked(SMALL, a)
  {
    hide InvAt, Received, Arrivals, MaintenanceStep, BookedOk, AtRest, OpenStep, TransfersStep, Lasting, StaffedOk,
         CrewHome;
    var today := w.(day := 2);
    MorningKeepsInv(SMALL, w, a, []);
    var m, b :| DueStep(SMALL, today, m, []) && MaintenanceStep(SMALL, m, b) && SnapshotStep(b, a);
    var r :| Received(SMALL, today, r, []) && Arrivals(SMALL, Noted(r), m);
    assert NoRelief(today.planets) by {
      RestTomorrow(w);
    }
    NothingElseReceived(SMALL, today, r);
    var o :| OpenStep(SMALL, today, o) && TransfersStep(o, r);
    SecondLanding(today, o, r, z, id);
    ArrivalsLast(SMALL, Noted(r), m);
    MaintenanceWears(SMALL, m, b);
    WornLasts(m.facilities, b.facilities);
    LastingThen(r.facilities, m.facilities, a.facilities);
    SecondIsOvermanned(r.facilities, a.facilities, z);
  }

  lemma SecondIsOvermanned(fs: seq<Facility>, fs': seq<Facility>, z: int)
    requires |fs| == 3 && fs[2] == Finishing(z).(life := Active, staff := 2) && Lasting(fs, fs')
    ensures 2 < |fs'| && Overmanned(SMALL, fs'[2], 2)
  {
    assert Lasts(fs[2], fs'[2]);
  }

  /** Three accepted commands and a day that resolves; from there the next day cannot, whatever comes of the other
      parts of the kernel. With nothing else going on, the day raises its error where the workshop's throughput is
      worked out. */
  lemma AnOverstaffedOpening() returns (w: World, w': World)
    ensures Reachable(SMALL, SECTOR, w) && DayStep(SMALL, w, w', PlainDay(3)) && Reachable(SMALL, SECTOR, w')
    ensures |w'.facilities| == 3 && w'.facilities[2].recipe == 0 && w'.facilities[2].kind == 1
    ensures SMALL.facilities[1].recipes[0].staff < w'.facilities[2].awaited
    ensures forall x, w'' | ValidInputs(SMALL, x, 3) :: !DayStep(SMALL, w', w'', x)
    ensures DayStops(SMALL, w', PlainDay(3), Raised)
  {
    hide InvAt, DayStep, Run, AtRest, Crowds, StaffedOk, FirstState, ValidScenario, Morning, Overworked;
    var x := PlainDay(3);
    w := ThreeCommands();
    NobodyCrowdsYet(w);
    RestResolvesExactly(SMALL, w, x);
    w' :| DayStep(SMALL, w, w', x);
    FirstDay(w, w');
    var z: int, id: nat :| w'.facilities[2] == Finishing(z) && w'.transfers == [FROM_PORT] + CrewHome(Workshop(1), id,
        1);
    var ops :| Run(SMALL, START, w, ops);
    OneMore(SMALL, START, w, w', ops, Today(x));
    DayKeepsInv(SMALL, w, w', x);
    SameWidths(SMALL, w, w');
    TomorrowCrowds(w', z, id);
    forall y, w'' | ValidInputs(SMALL, y, 3) ensures !DayStep(SMALL, w', w'', y) {
      CrowdedDay(SMALL, w', y);
    }
    DayRests(SMALL, w, w', x);
    MorningIsClear(SMALL, w');
    var a := MorningOnce(SMALL, w', []);
    SecondMorning(w', a, z, id);
  }
}
