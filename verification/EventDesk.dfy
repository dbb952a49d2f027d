/** The scheduler as it runs: fields updated step by step, each method proved to be its function. */
module EventDesk {
  import opened Units
  import opened Catalog
  import opened Events

  class Desk {
    const defs: seq<EventDef>
    var day: int
    var events: seq<Instance>
    var cooldowns: map<(nat, nat), int>
    var requests: seq<Request>
    var queue: seq<Queued>
    var decisions: nat
    var paused: bool
    var taken: set<(nat, nat)>
    var streaks: map<Site, nat>

    constructor (defs: seq<EventDef>, day: int)
      ensures this.defs == defs && Now() == Empty(day)
    {
      this.defs := defs;
      this.day := day;
      events, cooldowns, requests, queue, decisions, paused, taken, streaks := [], map[], [], [], 0, false, {}, map[];
    }

    ghost function Now(): Board
      reads this
    {
      Board(day, events, cooldowns, requests, queue, decisions, paused, taken, streaks)
    }

    /** Asks for an event unless it has been asked for already. */
    method RequestEvent(event: nat, planet: nat, facility: nat)
      modifies this`requests
      ensures Now() == WithRequest(old(Now()), event, planet, facility)
    {
      for i := 0 to |requests|
        invariant requests == old(requests)
        invariant forall k | 0 <= k < i ::
                  !(requests[k].event == event && requests[k].planet == planet && requests[k].facility == facility)
      {
        if requests[i].event == event && requests[i].planet == planet && requests[i].facility == facility {
          return;
        }
      }
      requests := requests + [Request(event, planet, facility, day)];
    }

    method AnyOpenWindow() returns (any: bool)
      ensures any == AnyWindow(events)
    {
      any := false;
      for i := 0 to |events|
        invariant any <==> exists k | 0 <= k < i :: Live(events[k])
      {
        if Live(events[i]) {
          any := true;
        }
      }
    }

    /** Closes one event's open instances on a world, or its whole chain's. */
    method CloseEvents(event: nat, planet: nat, wholeChain: bool)
      modifies this`events, this`paused
      ensures events == CloseAll(defs, old(events), event, planet, wholeChain)
      ensures paused == (old(paused) && AnyWindow(events))
    {
      ghost var before := events;
      for i := 0 to |events|
        invariant |events| == |before| && paused == old(paused)
        invariant forall k | 0 <= k < |before| ::
                  events[k] == if k < i then ClosedIf(defs, before[k], event, planet, wholeChain) else before[k]
      {
        events := events[i := ClosedIf(defs, events[i], event, planet, wholeChain)];
      }
      var any := AnyOpenWindow();
      if !any {
        paused := false;
      }
    }

    method QueueNested(due: int, nested: seq<Effect>, o: Origin)
      modifies this`queue
      ensures queue == QueueUpto(old(queue), due, nested, |nested|, o)
    {
      for n := 0 to |nested|
        invariant queue == QueueUpto(old(queue), due, nested, n, o)
      {
        queue := InsertQueued(queue, Queued(due, n, nested[n], o));
      }
    }

    method ExecuteEffect(e: Effect, o: Origin)
      modifies this`events, this`requests, this`queue, this`paused
      ensures Now() == Execute(defs, old(Now()), e, o)
    {
      match e {
        case Schedule(delay, nested) => QueueNested(day + delay, nested, o);
        case Raise(key) => RequestEvent(key, o.planet, o.facility);
        case Close(only) => CloseEvents(if only.Some? then only.value else o.event, o.planet, only.None?);
        case Other =>
      }
    }

    method ExecuteEffects(es: seq<Effect>, o: Origin)
      modifies this`events, this`requests, this`queue, this`paused
      ensures Now() == ExecuteAll(defs, old(Now()), es, o)
    {
      hide Execute;
      for i := 0 to |es|
        invariant Now() == ExecuteAll(defs, old(Now()), es[..i], o)
      {
        assert es[..i + 1][..i] == es[..i];
        ExecuteEffect(es[i], o);
      }
      assert es[..|es|] == es;
    }

    method SweepOne(i: nat, resolved: bool)
      requires i < |events|
      modifies this`events, this`requests, this`queue, this`paused
      ensures Now() == Swept(defs, old(Now()), i, resolved)
    {
      hide ExecuteAll;
      var inst := events[i];
      if !inst.status.Open? || !Known(defs, inst.event) {
        return;
      }
      if resolved {
        events := events[i := inst.(status := Closed)];
        ExecuteEffects(defs[inst.event].onResolve, Own(inst, i));
      } else if 0 <= inst.deadline <= day {
        ExecuteEffects(defs[inst.event].onExpire, Own(inst, i));
        if i < |events| {
          events := events[i := if defs[inst.event].keepsOpen then events[i].(deadline := -1)
              else events[i].(status := Expired)];
        }
      }
    }

    /** Resolves or expires the open instances, oldest first. */
    method Sweep(resolved: set<nat>)
      modifies this`events, this`requests, this`queue, this`paused
      ensures Now() == SweptUpto(defs, old(Now()), |old(events)|, resolved)
    {
      hide Swept;
      for i := 0 to |events|
        invariant Now() == SweptUpto(defs, old(Now()), i, resolved)
      {
        if i < |events| {
          SweepOne(i, i in resolved);
        }
      }
    }

    method OpenEvent(r: Request)
      requires Known(defs, r.event)
      modifies this
      ensures Now() == Opened(defs, old(Now()), r)
    {
      hide ExecuteAll;
      var d := defs[r.event];
      var here := Origin(r.event, r.planet, r.facility, |events|, None);
      events := events + [Instance(r.event, r.planet, r.facility, day, if d.deadlineDays > 0 then day + d.deadlineDays
          else -1,
                                   if !d.decision && d.deadlineDays <= 0 then Closed else Open)];
      if d.cooldown > 0 {
        cooldowns := cooldowns[(r.event, r.planet) := day + d.cooldown];
      }
      ExecuteEffects(d.onOpen, here);
      if d.decision {
        decisions := decisions + 1;
        if d.pauses {
          paused := true;
        }
      }
    }

    /** Takes the requests in scheduler order: each is dropped, put off or opened as the board then stands. */
    method DrainRequests(forecast: bool, emergency: bool)
      modifies this
      ensures var d := Drained(defs, old(Now()), InOrder(defs, old(requests)), forecast, emergency);
              Now() == d.board.(requests := d.deferred)
    {
      hide Judge, Opened, InOrder;
      ghost var start := Now();
      var rs := InOrder(defs, requests);
      var deferred: seq<Request> := [];
      for i := 0 to |rs|
        invariant Drain(Now(), deferred) == Drained(defs, start, rs[..i], forecast, emergency)
      {
        assert rs[..i + 1][..i] == rs[..i];
        var r := rs[i];
        match Verdict(r, forecast, emergency) {
          case Drop =>
          case Defer => deferred := deferred + [r];
          case Go =>
            JudgedKnown(defs, Now(), r, forecast, emergency);
            OpenEvent(r);
        }
      }
      assert rs[..|rs|] == rs;
      requests := deferred;
    }

    function Verdict(r: Request, forecast: bool, emergency: bool): (v: Events.Verdict)
      reads this
      ensures v == Judge(defs, Now(), r, forecast, emergency)
    {
      if !Known(defs, r.event) then Drop
      else if forecast && IsDecision(defs, r.event) then Defer
      else if (r.event, r.planet) in cooldowns && day < cooldowns[(r.event, r.planet)] then Drop
      else if defs[r.event].sectorUnique && OpenSomewhere(events, r.event) then Drop
      else if IsDecision(defs, r.event)
              && ((emergency && defs[r.event].queueClass != SURVIVAL) || decisions >= 1
                  || WindowOpen(defs, events, r)) then Defer
      else Go
    }

    /** Watches every site, and collects those whose trigger has held long enough. */
    method Watch(sightings: seq<Sighting>) returns (found: seq<Candidate>)
      modifies this`streaks
      ensures streaks == Tracked(old(streaks), sightings) && found == Found(defs, old(Now()), sightings)
    {
      hide Triggered;
      ghost var before := Now();
      found := [];
      for i := 0 to |sightings|
        invariant streaks == Tracked(before.streaks, sightings[..i]) && found == Found(defs, before, sightings[..i])
        invariant Now() == before.(streaks := streaks)
      {
        assert sightings[..i + 1][..i] == sightings[..i];
        var s := sightings[i];
        var streak := if s.holds then Streak(streaks, s.site) + 1 else 0;
        streaks := streaks[s.site := streak];
        var ok := Ripe(s, streak);
        assert ok == Triggered(defs, before, s, streak);
        if ok {
          found := found + [Candidate(s.site, streak)];
        }
      }
      assert sightings[..|sightings|] == sightings;
    }

    function Ripe(s: Sighting, streak: nat): (ok: bool)
      reads this
      ensures forall b: Board ::
                b.day == day && b.events == events && b.cooldowns == cooldowns ==> ok == Triggered(defs, b, s, streak)
    {
      && s.holds && Known(defs, s.site.event)
      && !((s.site.event, s.site.planet) in cooldowns && day < cooldowns[(s.site.event, s.site.planet)])
      && !ChainOpen(defs, events, s.site.event, s.site.planet)
      && (defs[s.site.event].sectorUnique ==> !OpenSomewhere(events, s.site.event))
      && Max(defs[s.site.event].consecutiveDays, 1) <= streak
    }

    method AskFor(found: seq<Candidate>)
      modifies this`requests
      ensures Now() == Asked(old(Now()), found)
    {
      ghost var before := Now();
      for i := 0 to |found|
        invariant Now() == Asked(before, found[..i])
      {
        assert found[..i + 1][..i] == found[..i];
        RequestEvent(found[i].site.event, found[i].site.planet, found[i].site.facility);
      }
      assert found[..|found|] == found;
    }

    method RunDueEffects()
      modifies this`events, this`requests, this`queue, this`paused
      ensures Now() == RunDue(defs, old(Now()).(queue := DuePart(old(queue), day, false)),
              DuePart(old(queue), day, true))
    {
      hide Execute, DuePart;
      var due := DuePart(queue, day, true);
      queue := DuePart(queue, day, false);
      ghost var start := Now();
      for i := 0 to |due|
        invariant Now() == RunDue(defs, start, due[..i])
      {
        assert due[..i + 1][..i] == due[..i];
        ExecuteEffect(due[i].effect, due[i].from);
      }
      assert due[..|due|] == due;
    }

    /** A day of the scheduler, from its due effects to its last opening. */
    method StepDay(t: Today)
      modifies this
      ensures Now() == NextDay(defs, old(Now()), t)
    {
      hide RunDue, SweptUpto, Asked, Drained, InOrder, Tracked, Found, Ranked;
      day, decisions := day + 1, 0;
      RunDueEffects();
      Sweep(t.resolved);
      var any := AnyOpenWindow();
      if !any {
        paused := false;
      }
      var found := Watch(t.sightings);
      AskFor(Ranked(defs, found));
      DrainRequests(t.forecast, t.emergency);
    }

    /** Calls off what the listed choices of one instance queued, and what its chain has asked for. */
    method Cancel(i: nat, cancels: set<nat>)
      requires i < |events|
      modifies this`queue, this`requests
      ensures Now() == Cancelled(defs, old(Now()), i, cancels)
    {
      hide Withdrawn, CalledOff;
      if cancels == {} {
        return;
      }
      var queued: seq<Queued> := [];
      for n := 0 to |queue|
        invariant queued == Uncancelled(queue[..n], i, cancels)
      {
        assert queue[..n + 1][..n] == queue[..n];
        if !CalledOff(queue[n], i, cancels) {
          queued := queued + [queue[n]];
        }
      }
      assert queue[..|queue|] == queue;
      var asked: seq<Request> := [];
      for n := 0 to |requests|
        invariant asked == Unwithdrawn(defs, requests[..n], events[i].event)
      {
        assert requests[..n + 1][..n] == requests[..n];
        if !Withdrawn(defs, requests[n], events[i].event) {
          asked := asked + [requests[n]];
        }
      }
      assert requests[..|requests|] == requests;
      queue, requests := queued, asked;
    }

    /** Takes a response in an open window. */
    method Choose(i: nat, r: Response) returns (accepted: bool)
      requires i < |events|
      modifies this
      ensures accepted == MayTake(defs, old(Now()), i, r)
      ensures Now() == Chosen(defs, old(Now()), i, r)
    {
      hide ExecuteAll, Uncancelled, Unwithdrawn;
      var inst := events[i];
      if !inst.status.Open? || !Known(defs, inst.event) || (i, r.id) in taken {
        return false;
      }
      Cancel(i, r.cancels);
      events := events[i := if r.resolves then inst.(status := Resolved) else inst.(deadline := -1)];
      taken := taken + {(i, r.id)};
      ExecuteEffects(r.effects, Own(inst, i).(choice := Some(r.id)));
      var any := AnyOpenWindow();
      if !any {
        paused := false;
      }
      return true;
    }
  }
}
