/** What the scheduler does to single windows and candidates, and the order of its queue, on the fields themselves. */
module Windows {
  import opened Catalog
  import opened Events

  // ----- candidates -----

  /** Of two candidates the one asked for first has the lower queue class, one of no known event being 99, then the
      longer streak, then the lower event, world and facility. */
  ghost predicate RanksBefore(defs: seq<EventDef>, a: Candidate, b: Candidate) {
    var ca := if a.site.event < |defs| then defs[a.site.event].queueClass else 99;
    var cb := if b.site.event < |defs| then defs[b.site.event].queueClass else 99;
    || ca < cb
    || (ca == cb && (|| a.streak > b.streak
                     || (a.streak == b.streak && (|| a.site.event < b.site.event
                                                  || (a.site.event == b.site.event && PlaceBefore(a.site, b.site))))))
  }

  predicate PlaceBefore(a: Site, b: Site) {
    a.planet < b.planet || (a.planet == b.planet && a.facility <= b.facility)
  }

  /** Candidates are asked for in that order, each as often as it was found. */
  lemma CandidatesInOrder(defs: seq<EventDef>, cs: seq<Candidate>)
    ensures multiset(Ranked(defs, cs)) == multiset(cs)
    ensures forall i, j | 0 <= i < j < |Ranked(defs, cs)| :: RanksBefore(defs, Ranked(defs, cs)[i], Ranked(defs, cs)[j])
  {
    RankedIs(defs, cs);
    forall i, j | 0 <= i < j < |Ranked(defs, cs)|
      ensures RanksBefore(defs, Ranked(defs, cs)[i], Ranked(defs, cs)[j])
    {
      assert NotLater(defs, Ranked(defs, cs)[i], Ranked(defs, cs)[j]);
    }
  }

  // ----- the queue -----

  /** Earlier days first, and on one day lower priorities first. */
  predicate DueBefore(a: Queued, b: Queued) {
    a.due < b.due || (a.due == b.due && a.priority <= b.priority)
  }

  ghost predicate InLine(queue: seq<Queued>) {
    forall i, j | 0 <= i < j < |queue| :: DueBefore(queue[i], queue[j])
  }

  /** A queued effect stands after every one that is due earlier or as early with a priority no greater, and before the
      others; those keep their order. */
  lemma {:induction false} QueuedAt(queue: seq<Queued>, q: Queued) returns (at: nat)
    requires InLine(queue)
    ensures at <= |queue| && InsertQueued(queue, q) == queue[..at] + [q] + queue[at..]
    ensures forall i | 0 <= i < at :: DueBefore(queue[i], q)
    ensures forall i | at <= i < |queue| :: !DueBefore(queue[i], q)
  {
    hide DueBefore, InsertQueued;
    LastOrBefore(queue, q);
    var n := |queue| - 1;
    if queue == [] || DueBefore(queue[n], q) {
      at := |queue|;
      forall i | 0 <= i < at ensures DueBefore(queue[i], q) {
        if i < n {
          BeforeThen(queue[i], queue[n], q);
        }
      }
      assert queue[..at] + [q] + queue[at..] == queue + [q];
    } else {
      at := QueuedAt(queue[..n], q);
      assert queue[..n][..at] + [q] + queue[..n][at..] + [queue[n]] == queue[..at] + [q] + queue[at..];
    }
  }

  lemma LastOrBefore(queue: seq<Queued>, q: Queued)
    ensures InsertQueued(queue, q) == if queue == [] || DueBefore(queue[|queue| - 1], q) then queue + [q]
                                      else InsertQueued(queue[..|queue| - 1], q) + [queue[|queue| - 1]]
  {
    if queue == [] {
      assert queue + [q] == [q];
    }
  }

  lemma BeforeThen(a: Queued, b: Queued, c: Queued)
    requires DueBefore(a, b) && DueBefore(b, c)
    ensures DueBefore(a, c)
  {
  }

  lemma QueuedInLine(queue: seq<Queued>, q: Queued)
    requires InLine(queue)
    ensures InLine(InsertQueued(queue, q))
  {
    hide InsertQueued;
    var at := QueuedAt(queue, q);
    var after := queue[..at] + [q] + queue[at..];
    forall i, j | 0 <= i < j < |after| ensures DueBefore(after[i], after[j]) {
      assert after[i] == if i < at then queue[i] else if i == at then q else queue[i - 1];
      assert after[j] == if j < at then queue[j] else if j == at then q else queue[j - 1];
    }
  }

  lemma {:induction false} QueueStaysInLine(queue: seq<Queued>, due: int, nested: seq<Effect>, n: nat, o: Origin)
    requires InLine(queue) && n <= |nested|
    ensures InLine(QueueUpto(queue, due, nested, n, o))
  {
    hide InLine, InsertQueued;
    if n > 0 {
      QueueStaysInLine(queue, due, nested, n - 1, o);
      QueuedInLine(QueueUpto(queue, due, nested, n - 1, o), Queued(due, n - 1, nested[n - 1], o));
    }
  }

  lemma {:induction false} EffectsStayInLine(defs: seq<EventDef>, b: Board, es: seq<Effect>, o: Origin)
    requires InLine(b.queue)
    ensures InLine(ExecuteAll(defs, b, es, o).queue)
  {
    hide InLine, QueueUpto;
    if es != [] {
      EffectsStayInLine(defs, b, es[..|es| - 1], o);
      EffectStaysInLine(defs, ExecuteAll(defs, b, es[..|es| - 1], o), es[|es| - 1], o);
    }
  }

  lemma EffectStaysInLine(defs: seq<EventDef>, b: Board, e: Effect, o: Origin)
    requires InLine(b.queue)
    ensures InLine(Execute(defs, b, e, o).queue)
  {
    hide InLine, QueueUpto;
    if e.Schedule? {
      QueueStaysInLine(b.queue, b.day + e.delay, e.nested, |e.nested|, o);
    }
  }

  /** The places of a queue whose effects are due by a day, or are not. */
  ghost predicate PlacesOf(queue: seq<Queued>, day: int, due: bool, places: seq<nat>) {
    && (forall k | 0 <= k < |places| :: places[k] < |queue|)
    && (forall j, k | 0 <= j < k < |places| :: places[j] < places[k])
    && forall i: nat :: i in places <==> i < |queue| && (queue[i].due <= day <==> due)
  }

  /** The due part is made of exactly the effects whose day has come, in the order they had. */
  lemma {:induction false} PartIs(queue: seq<Queued>, day: int, due: bool) returns (places: seq<nat>)
    ensures PlacesOf(queue, day, due, places)
    ensures DuePart(queue, day, due) == seq(|places|, k requires 0 <= k < |places| => queue[places[k]])
  {
    if queue == [] {
      places := [];
    } else {
      var n := |queue| - 1;
      var before := PartIs(queue[..n], day, due);
      places := before + (if queue[n].due <= day <==> due then [n] else []);
      forall k | 0 <= k < |before| ensures before[k] < n {
        assert before[k] in before;
      }
    }
  }

  lemma PartInLine(queue: seq<Queued>, day: int, due: bool)
    requires InLine(queue)
    ensures InLine(DuePart(queue, day, due))
  {
    var places := PartIs(queue, day, due);
  }

  lemma {:induction false} SweepInLine(defs: seq<EventDef>, b: Board, n: nat, resolved: set<nat>)
    requires InLine(b.queue)
    ensures InLine(SweptUpto(defs, b, n, resolved).queue)
  {
    hide InLine, ExecuteAll;
    if n > 0 {
      SweepInLine(defs, b, n - 1, resolved);
      var before := SweptUpto(defs, b, n - 1, resolved);
      if n - 1 < |before.events| {
        SweptInLine(defs, before, n - 1, n - 1 in resolved);
      }
    }
  }

  lemma SweptInLine(defs: seq<EventDef>, b: Board, i: nat, resolved: bool)
    requires InLine(b.queue) && i < |b.events|
    ensures InLine(Swept(defs, b, i, resolved).queue)
  {
    hide InLine, ExecuteAll;
    var inst := b.events[i];
    if Known(defs, inst.event) {
      EffectsStayInLine(defs, b.(events := b.events[i := inst.(status := Closed)]), defs[inst.event].onResolve,
                        Own(inst, i));
      EffectsStayInLine(defs, b, defs[inst.event].onExpire, Own(inst, i));
    }
  }

  lemma OpenedInLine(defs: seq<EventDef>, b: Board, r: Request)
    requires InLine(b.queue) && Known(defs, r.event)
    ensures InLine(Opened(defs, b, r).queue)
  {
    hide InLine, ExecuteAll;
    var d := defs[r.event];
    var listed := b.(events := b.events + [Fresh(defs, b, r)],
                     cooldowns := if d.cooldown > 0 then b.cooldowns[(r.event, r.planet) := b.day + d.cooldown]
                         else b.cooldowns);
    EffectsStayInLine(defs, listed, d.onOpen, Own(Fresh(defs, b, r), |b.events|));
  }

  lemma {:induction false} DrainInLine(defs: seq<EventDef>, b: Board, rs: seq<Request>, forecast: bool, emergency: bool)
    requires InLine(b.queue)
    ensures InLine(Drained(defs, b, rs, forecast, emergency).board.queue)
  {
    hide InLine, Opened, Judge;
    if rs != [] {
      var n := |rs| - 1;
      DrainInLine(defs, b, rs[..n], forecast, emergency);
      var before := Drained(defs, b, rs[..n], forecast, emergency).board;
      if Judge(defs, before, rs[n], forecast, emergency).Go? {
        JudgedKnown(defs, before, rs[n], forecast, emergency);
        OpenedInLine(defs, before, rs[n]);
      }
    }
  }

  lemma {:induction false} DueInLine(defs: seq<EventDef>, b: Board, due: seq<Queued>)
    requires InLine(b.queue)
    ensures InLine(RunDue(defs, b, due).queue)
  {
    hide InLine, Execute;
    if due != [] {
      var n := |due| - 1;
      DueInLine(defs, b, due[..n]);
      EffectStaysInLine(defs, RunDue(defs, b, due[..n]), due[n].effect, due[n].from);
    }
  }

  lemma {:induction false} AskedInLine(b: Board, cs: seq<Candidate>)
    ensures Asked(b, cs).queue == b.queue
  {
    if cs != [] {
      AskedInLine(b, cs[..|cs| - 1]);
    }
  }

  lemma DayInLine(defs: seq<EventDef>, b: Board, t: Today)
    requires InLine(b.queue)
    ensures InLine(NextDay(defs, b, t).queue)
  {
    hide InLine, RunDue, SweptUpto, Drained, Asked, Ranked, Found, Tracked, InOrder, DuePart;
    var now := b.(day := b.day + 1, decisions := 0);
    PartInLine(now.queue, now.day, false);
    DueInLine(defs, now.(queue := DuePart(now.queue, now.day, false)), DuePart(now.queue, now.day, true));
    var m := Morning(defs, b);
    SweepInLine(defs, m, |m.events|, t.resolved);
    var swept := SweptUpto(defs, m, |m.events|, t.resolved);
    var calm := swept.(paused := swept.paused && AnyWindow(swept.events));
    var followed := calm.(streaks := Tracked(calm.streaks, t.sightings));
    var ranked := Ranked(defs, Found(defs, calm, t.sightings));
    AskedInLine(followed, ranked);
    var asked := Asked(followed, ranked);
    DrainInLine(defs, asked, InOrder(defs, asked.requests), t.forecast, t.emergency);
  }

  lemma {:induction false} CancelledInLine(queue: seq<Queued>, i: nat, cancels: set<nat>)
    requires InLine(queue)
    ensures InLine(Uncancelled(queue, i, cancels)) && forall q :: q in Uncancelled(queue, i, cancels) ==> q in queue
  {
    hide CalledOff, DueBefore;
    if queue != [] {
      var n := |queue| - 1;
      CancelledInLine(queue[..n], i, cancels);
      forall q | q in queue[..n] ensures DueBefore(q, queue[n]) {
      }
      var kept := Uncancelled(queue[..n], i, cancels);
      forall k | 0 <= k < |kept| ensures DueBefore(kept[k], queue[n]) {
        assert kept[k] in queue[..n];
      }
    }
  }

  lemma ChoiceInLine(defs: seq<EventDef>, b: Board, i: nat, r: Response)
    requires InLine(b.queue) && i < |b.events|
    ensures InLine(Chosen(defs, b, i, r).queue)
  {
    hide InLine, ExecuteAll, Uncancelled, Unwithdrawn;
    if MayTake(defs, b, i, r) {
      CancelledInLine(b.queue, i, r.cancels);
      var now := Marked(Cancelled(defs, b, i, r.cancels), i, r);
      EffectsStayInLine(defs, now, r.effects, Own(b.events[i], i).(choice := Some(r.id)));
    }
  }

  /** Over any run the queue is in line, so effects always run in order of their day and, on one day, of priority. */
  lemma {:induction false} EveryQueueIsInLine(defs: seq<EventDef>, day: int, acts: seq<Act>)
    ensures InLine(Played(defs, Empty(day), acts).queue)
  {
    hide NextDay, Chosen;
    if acts != [] {
      var before := acts[..|acts| - 1];
      EveryQueueIsInLine(defs, day, before);
      var now := Played(defs, Empty(day), before);
      match acts[|acts| - 1] {
        case Pass(t) => DayInLine(defs, now, t);
        case Choice(i, r) =>
          if i < |now.events| {
            ChoiceInLine(defs, now, i, r);
          }
      }
    }
  }

  // ----- single windows -----

  /** Two windows differ in their status at most, and only by having been closed. */
  predicate SameOrClosed(a: Instance, b: Instance) {
    b == a || (a.status == Open && b == a.(status := Closed))
  }

  /** Closing an event shuts its open windows on the world, or those of its whole chain, and no others. */
  lemma ClosesSo(defs: seq<EventDef>, b: Board, only: Option<nat>, o: Origin)
    ensures var b' := Execute(defs, b, Close(only), o);
            && |b'.events| == |b.events|
            && (forall i | 0 <= i < |b.events| ::
                  var x := b.events[i];
                  var hit := x.status == Open && x.planet == o.planet &&
                    match only
                    case Some(event) => x.event == event
                    case None => x.event == o.event || (x.event < |defs| && o.event < |defs|
                                                        && defs[x.event].chain == defs[o.event].chain);
                  b'.events[i] == if hit then x.(status := Closed) else x)
            && b' == b.(events := b'.events, paused := b'.paused)
            && (b'.paused <==> b.paused && exists i ::
                  0 <= i < |b'.events| && b'.events[i].status == Open && b'.events[i].deadline >= 0)
  {
  }

  lemma {:induction false} OthersKeep(defs: seq<EventDef>, b: Board, es: seq<Effect>, o: Origin)
    ensures var b' := ExecuteAll(defs, b, es, o);
            |b'.events| == |b.events| && forall i | 0 <= i < |b.events| :: SameOrClosed(b.events[i], b'.events[i])
  {
    hide QueueUpto, AnyWindow, WithRequest;
    if es != [] {
      OthersKeep(defs, b, es[..|es| - 1], o);
      OneKeeps(defs, ExecuteAll(defs, b, es[..|es| - 1], o), es[|es| - 1], o);
    }
  }

  lemma OneKeeps(defs: seq<EventDef>, b: Board, e: Effect, o: Origin)
    ensures var b' := Execute(defs, b, e, o);
            |b'.events| == |b.events| && forall i | 0 <= i < |b.events| :: SameOrClosed(b.events[i], b'.events[i])
  {
    hide QueueUpto, AnyWindow;
  }

  /** A window's daily check: shut where its condition has resolved; at its deadline expired, or left open without one;
      else untouched. Other windows may only be closed by its effects. */
  lemma SweptSo(defs: seq<EventDef>, b: Board, i: nat, resolved: bool)
    requires i < |b.events|
    ensures var x, b' := b.events[i], Swept(defs, b, i, resolved);
            && |b'.events| == |b.events|
            && (forall j | 0 <= j < |b.events| && j != i :: SameOrClosed(b.events[j], b'.events[j]))
            && var x' := b'.events[i];
            if x.status != Open || |defs| <= x.event || (!resolved && (x.deadline < 0 || b.day < x.deadline)) then
               b' == b
            else if resolved then x' == x.(status := Closed)
            else if defs[x.event].keepsOpen then SameOrClosed(x.(deadline := -1), x')
            else x' == x.(status := Expired)
  {
    hide ExecuteAll;
    var x := b.events[i];
    if Known(defs, x.event) {
      OthersKeep(defs, b.(events := b.events[i := x.(status := Closed)]), defs[x.event].onResolve, Own(x, i));
      OthersKeep(defs, b, defs[x.event].onExpire, Own(x, i));
    }
  }

  /** A response taken settles its window or takes its deadline away, is noted, and its effects may only close windows;
      one that may not be taken changes nothing. */
  lemma ChosenSo(defs: seq<EventDef>, b: Board, i: nat, r: Response)
    requires i < |b.events|
    ensures var x, b' := b.events[i], Chosen(defs, b, i, r);
            if x.status != Open || |defs| <= x.event || (i, r.id) in b.taken then b' == b
            else
              && |b'.events| == |b.events| && b'.taken == b.taken + {(i, r.id)} && b'.day == b.day
              && (forall j | 0 <= j < |b.events| && j != i :: SameOrClosed(b.events[j], b'.events[j]))
              && if r.resolves then b'.events[i] == x.(status := Resolved)
                 else SameOrClosed(x.(deadline := -1), b'.events[i])
  {
    hide ExecuteAll, Uncancelled, Unwithdrawn;
    if MayTake(defs, b, i, r) {
      var now := Marked(Cancelled(defs, b, i, r.cancels), i, r);
      OthersKeep(defs, now, r.effects, Own(b.events[i], i).(choice := Some(r.id)));
      TakenKept(defs, now, r.effects, Own(b.events[i], i).(choice := Some(r.id)));
    }
  }

  lemma {:induction false} TakenKept(defs: seq<EventDef>, b: Board, es: seq<Effect>, o: Origin)
    ensures ExecuteAll(defs, b, es, o).taken == b.taken && ExecuteAll(defs, b, es, o).day == b.day
  {
    hide QueueUpto, AnyWindow, CloseAll;
    if es != [] {
      TakenKept(defs, b, es[..|es| - 1], o);
    }
  }
}
