/** The order in which the day's requests are taken, and what becomes of each of them. */
module Docket {
  import opened Events

  /** Which of two requests comes first: the lower queue class, one of no known event being 99, then the earlier day,
      then the one asked earlier. */
  ghost predicate Precedes(defs: seq<EventDef>, rs: seq<Request>, i: nat, j: nat)
    requires i < |rs| && j < |rs|
  {
    var ci := if rs[i].event < |defs| then defs[rs[i].event].queueClass else 99;
    var cj := if rs[j].event < |defs| then defs[rs[j].event].queueClass else 99;
    ci < cj || (ci == cj && (rs[i].day < rs[j].day || (rs[i].day == rs[j].day && i < j)))
  }

  /** Places among the requests asked, each once, each before those it precedes. */
  ghost predicate InTurn(defs: seq<EventDef>, rs: seq<Request>, places: seq<nat>) {
    && |places| == |rs| && (forall k | 0 <= k < |places| :: places[k] < |rs|)
    && forall j, k | 0 <= j < k < |places| :: places[j] != places[k] && Precedes(defs, rs, places[j], places[k])
  }

  function Drawn(rs: seq<Request>, places: seq<nat>): seq<Request>
    requires forall k | 0 <= k < |places| :: places[k] < |rs|
  {
    seq(|places|, k requires 0 <= k < |places| => rs[places[k]])
  }

  function Put<T>(s: seq<T>, at: nat, x: T): seq<T>
    requires at <= |s|
  {
    seq(|s| + 1, k requires 0 <= k < |s| + 1 => if k < at then s[k] else if k == at then x else s[k - 1])
  }

  lemma PutSame<T>(s: seq<T>, at: nat, x: T)
    requires at <= |s|
    ensures multiset(Put(s, at, x)) == multiset(s) + multiset{x}
  {
    assert Put(s, at, x) == s[..at] + [x] + s[at..];
    assert s == s[..at] + s[at..];
  }

  /** Where an insertion puts a request: after all it does not precede, and before the rest. */
  lemma {:induction false} InsertedAt(defs: seq<EventDef>, rs: seq<Request>, r: Request) returns (at: nat)
    requires forall j, k | 0 <= j < k < |rs| :: NotAfter(defs, rs[j], rs[k])
    ensures at <= |rs| && InsertRequest(defs, rs, r) == Put(rs, at, r)
    ensures forall k | 0 <= k < at :: NotAfter(defs, rs[k], r)
    ensures forall k | at <= k < |rs| :: !NotAfter(defs, rs[k], r)
  {
    hide NotAfter;
    if rs == [] || NotAfter(defs, rs[|rs| - 1], r) {
      at := |rs|;
      forall k | 0 <= k < at ensures NotAfter(defs, rs[k], r) {
        if k < at - 1 {
          NotAfterThen(defs, rs[k], rs[at - 1], r);
        }
      }
    } else {
      var n := |rs| - 1;
      at := InsertedAt(defs, rs[..n], r);
      assert Put(rs[..n], at, r) + [rs[n]] == Put(rs, at, r);
    }
  }

  lemma NotAfterThen(defs: seq<EventDef>, a: Request, b: Request, c: Request)
    requires NotAfter(defs, a, b) && NotAfter(defs, b, c)
    ensures NotAfter(defs, a, c)
  {
  }

  lemma TurnsAreSorted(defs: seq<EventDef>, rs: seq<Request>, places: seq<nat>)
    requires InTurn(defs, rs, places)
    ensures var taken := Drawn(rs, places);
            forall j, k | 0 <= j < k < |taken| :: NotAfter(defs, taken[j], taken[k])
  {
    forall j, k | 0 <= j < k < |places| ensures NotAfter(defs, rs[places[j]], rs[places[k]]) {
      assert Precedes(defs, rs, places[j], places[k]);
    }
  }

  /** The requests taken are the requests asked, in turn: a lower class first, then an earlier day, then the one asked
      earlier. */
  lemma {:induction false} TakenInTurn(defs: seq<EventDef>, rs: seq<Request>) returns (places: seq<nat>)
    ensures InTurn(defs, rs, places) && InOrder(defs, rs) == Drawn(rs, places)
    ensures multiset(InOrder(defs, rs)) == multiset(rs)
  {
    hide NotAfter, Precedes, Put, InsertRequest;
    if rs == [] {
      places := [];
    } else {
      var n: nat := |rs| - 1;
      var r := rs[n];
      var before := TakenInTurn(defs, rs[..n]);
      var sorted := InOrder(defs, rs[..n]);
      TurnsAreSorted(defs, rs[..n], before);
      var at := InsertedAt(defs, sorted, r);
      places := Put<nat>(before, at, n);
      InsertedInTurn(defs, rs, before, at);
      PutSame(sorted, at, r);
      assert rs == rs[..n] + [r];
    }
  }

  /** A new last request put where an insertion puts it leaves every two in turn. */
  lemma InsertedInTurn(defs: seq<EventDef>, rs: seq<Request>, before: seq<nat>, at: nat)
    requires |rs| > 0 && InTurn(defs, rs[..|rs| - 1], before) && at <= |before|
    requires var sorted := Drawn(rs[..|rs| - 1], before);
             && (forall k | 0 <= k < at :: NotAfter(defs, sorted[k], rs[|rs| - 1]))
             && (forall k | at <= k < |sorted| :: !NotAfter(defs, sorted[k], rs[|rs| - 1]))
    ensures InTurn(defs, rs, Put<nat>(before, at, |rs| - 1))
    ensures Drawn(rs, Put<nat>(before, at, |rs| - 1)) == Put(Drawn(rs[..|rs| - 1], before), at, rs[|rs| - 1])
  {
    hide NotAfter, Precedes;
    var n := |rs| - 1;
    var places, sorted := Put<nat>(before, at, n), Drawn(rs[..n], before);
    assert forall k | 0 <= k < |before| :: sorted[k] == rs[before[k]];
    forall j: nat, k: nat | j < k < |places|
      ensures places[j] != places[k] && Precedes(defs, rs, places[j], places[k])
    {
      if k == at {
        BeforeTheLast(defs, rs, before[j]);
      } else if j == at {
        AfterTheLast(defs, rs, before[k - 1]);
      } else {
        var j', k' := if j < at then j else j - 1, if k < at then k else k - 1;
        assert before[j'] != before[k'] && Precedes(defs, rs[..n], before[j'], before[k']);
        StillPrecedes(defs, rs, before[j'], before[k']);
      }
    }
  }

  lemma BeforeTheLast(defs: seq<EventDef>, rs: seq<Request>, i: nat)
    requires i < |rs| - 1 && NotAfter(defs, rs[i], rs[|rs| - 1])
    ensures Precedes(defs, rs, i, |rs| - 1)
  {
  }

  lemma AfterTheLast(defs: seq<EventDef>, rs: seq<Request>, i: nat)
    requires i < |rs| - 1 && !NotAfter(defs, rs[i], rs[|rs| - 1])
    ensures Precedes(defs, rs, |rs| - 1, i)
  {
  }

  lemma StillPrecedes(defs: seq<EventDef>, rs: seq<Request>, i: nat, j: nat)
    requires i < |rs| - 1 && j < |rs| - 1 && Precedes(defs, rs[..|rs| - 1], i, j)
    ensures Precedes(defs, rs, i, j)
  {
  }

  // ----- what becomes of a request -----

  /** A request is dropped outright only where its event is unknown, cooling there, or unique and open already. */
  ghost predicate Lost(defs: seq<EventDef>, b: Board, r: Request) {
    || r.event >= |defs|
    || ((r.event, r.planet) in b.cooldowns && b.day < b.cooldowns[(r.event, r.planet)])
    || (defs[r.event].sectorUnique && exists i | 0 <= i < |b.events| ::
            b.events[i].event == r.event && b.events[i].status == Open)
  }

  /** A decision waits out a survival emergency it does not belong to, the day's one decision, and the window its
      chain has open on that world. */
  ghost predicate Waits(defs: seq<EventDef>, b: Board, r: Request, emergency: bool)
    requires r.event < |defs|
  {
    && defs[r.event].decision
    && (|| (emergency && defs[r.event].queueClass != 0)
        || b.decisions > 0
        || exists i | 0 <= i < |b.events| ::
             && b.events[i].status == Open && b.events[i].deadline >= 0 && b.events[i].planet == r.planet
             && b.events[i].event < |defs| && defs[b.events[i].event].chain == defs[r.event].chain)
  }

  /** What a request's turn comes to on the board it finds: an announced forecast holds every known decision back. */
  ghost predicate Settles(defs: seq<EventDef>, b: Board, r: Request, forecast: bool, emergency: bool, v: Verdict) {
    var held := forecast && r.event < |defs| && defs[r.event].decision;
    match v
    case Drop => !held && Lost(defs, b, r)
    case Defer => held || (!Lost(defs, b, r) && Waits(defs, b, r, emergency))
    case Go => !held && !Lost(defs, b, r) && !Waits(defs, b, r, emergency)
  }

  lemma JudgedSo(defs: seq<EventDef>, b: Board, r: Request, forecast: bool, emergency: bool)
    ensures Settles(defs, b, r, forecast, emergency, Judge(defs, b, r, forecast, emergency))
  {
  }

  /** The board after an opening has one instance more, with the event's own deadline; what its effects do to the rest
      is to close some. */
  ghost predicate Opens(defs: seq<EventDef>, b: Board, r: Request, b': Board)
    requires r.event < |defs|
  {
    var def := defs[r.event];
    && |b'.events| == |b.events| + 1 && b'.day == b.day
    && (forall i | 0 <= i < |b.events| ::
          b'.events[i] == b.events[i] || b'.events[i] == b.events[i].(status := Closed))
    && var inst := b'.events[|b.events|];
    && inst.event == r.event && inst.planet == r.planet && inst.facility == r.facility && inst.since == b.day
    && inst.deadline == (if def.deadlineDays > 0 then b.day + def.deadlineDays else -1)
    && (inst.status == Open || inst.status == Closed)
    && (!def.decision && def.deadlineDays <= 0 ==> inst.status == Closed)
    && b'.decisions == b.decisions + (if def.decision then 1 else 0)
    && b'.cooldowns == (if def.cooldown > 0 then b.cooldowns[(r.event, r.planet) := b.day + def.cooldown]
                        else b.cooldowns)
  }

  ghost predicate OnlyCloses(a: Board, b: Board) {
    && b == a.(events := b.events, paused := b.paused, queue := b.queue, requests := b.requests)
    && |b.events| == |a.events|
    && forall i | 0 <= i < |a.events| :: b.events[i] == a.events[i] || b.events[i] == a.events[i].(status := Closed)
  }

  lemma {:induction false} EffectsOnlyClose(defs: seq<EventDef>, b: Board, es: seq<Effect>, o: Origin)
    ensures OnlyCloses(b, ExecuteAll(defs, b, es, o))
  {
    hide QueueUpto, WithRequest, AnyWindow;
    if es != [] {
      EffectsOnlyClose(defs, b, es[..|es| - 1], o);
      EffectOnlyCloses(defs, ExecuteAll(defs, b, es[..|es| - 1], o), es[|es| - 1], o);
    }
  }

  lemma EffectOnlyCloses(defs: seq<EventDef>, b: Board, e: Effect, o: Origin)
    ensures OnlyCloses(b, Execute(defs, b, e, o))
  {
    hide QueueUpto, AnyWindow;
  }

  lemma OpenedSo(defs: seq<EventDef>, b: Board, r: Request)
    requires r.event < |defs|
    ensures Opens(defs, b, r, Opened(defs, b, r))
  {
    hide ExecuteAll;
    var d := defs[r.event];
    var listed := b.(events := b.events + [Fresh(defs, b, r)],
                     cooldowns := if d.cooldown > 0 then b.cooldowns[(r.event, r.planet) := b.day + d.cooldown]
                         else b.cooldowns);
    EffectsOnlyClose(defs, listed, d.onOpen, Own(Fresh(defs, b, r), |b.events|));
  }

  /** The requests whose turn put them off, as they came. */
  ghost function PutOff(rs: seq<Request>, fates: seq<Verdict>): seq<Request>
    requires |fates| == |rs|
  {
    if rs == [] then []
    else
      var n := |rs| - 1;
      PutOff(rs[..n], fates[..n]) + (if fates[n].Defer? then [rs[n]] else [])
  }

  /** One request's turn: what becomes of it on the board it finds, and the board it leaves. */
  ghost predicate Turn(defs: seq<EventDef>, b: Board, r: Request, b': Board, v: Verdict, forecast: bool,
                       emergency: bool) {
    Settles(defs, b, r, forecast, emergency, v)
    && if v.Go? then r.event < |defs| && Opens(defs, b, r, b') else b' == b
  }

  /** A whole drain, turn by turn: the board each request finds, and what becomes of it there. */
  ghost predicate Turns(defs: seq<EventDef>, rs: seq<Request>, boards: seq<Board>, fates: seq<Verdict>, forecast: bool,
                        emergency: bool) {
    && |fates| == |rs| && |boards| == |rs| + 1
    && forall k | 0 <= k < |rs| :: Turn(defs, boards[k], rs[k], boards[k + 1], fates[k], forecast, emergency)
  }

  /** Every request has its turn: it is opened, or kept for the next day, or dropped for one of the three reasons. */
  lemma {:induction false} EveryRequestIsSettled(defs: seq<EventDef>, b: Board, rs: seq<Request>, forecast: bool,
                                                 emergency: bool) returns (boards: seq<Board>, fates: seq<Verdict>)
    ensures Turns(defs, rs, boards, fates, forecast, emergency) && boards[0] == b
    ensures Drained(defs, b, rs, forecast, emergency) == Drain(boards[|rs|], PutOff(rs, fates))
  {
    hide Judge, Settles, Opens, Opened, PutOff;
    if rs == [] {
      boards, fates := [b], [];
      NoTurns(defs, b, forecast, emergency);
    } else {
      var n := |rs| - 1;
      var bs, fs := EveryRequestIsSettled(defs, b, rs[..n], forecast, emergency);
      var v := Judge(defs, bs[n], rs[n], forecast, emergency);
      JudgedSo(defs, bs[n], rs[n], forecast, emergency);
      if v.Go? {
        GoesKnown(defs, bs[n], rs[n], forecast, emergency);
        OpenedSo(defs, bs[n], rs[n]);
      }
      var next := if v.Go? then Opened(defs, bs[n], rs[n]) else bs[n];
      boards, fates := bs + [next], fs + [v];
      TurnAdded(defs, rs, bs, fs, next, v, forecast, emergency);
    }
  }

  lemma NoTurns(defs: seq<EventDef>, b: Board, forecast: bool, emergency: bool)
    ensures Turns(defs, [], [b], [], forecast, emergency) && PutOff([], []) == []
  {
  }

  lemma TurnAdded(defs: seq<EventDef>, rs: seq<Request>, bs: seq<Board>, fs: seq<Verdict>, next: Board, v: Verdict,
                  forecast: bool, emergency: bool)
    requires rs != [] && Turns(defs, rs[..|rs| - 1], bs, fs, forecast, emergency)
    requires Turn(defs, bs[|rs| - 1], rs[|rs| - 1], next, v, forecast, emergency)
    ensures Turns(defs, rs, bs + [next], fs + [v], forecast, emergency)
    ensures PutOff(rs, fs + [v]) == PutOff(rs[..|rs| - 1], fs) + (if v.Defer? then [rs[|rs| - 1]] else [])
  {
    hide Turn;
    var n := |rs| - 1;
    assert (fs + [v])[..n] == fs;
    forall k | 0 <= k < n ensures Turn(defs, bs[k], rs[k], bs[k + 1], fs[k], forecast, emergency) {
      assert rs[..n][k] == rs[k];
    }
  }

  lemma GoesKnown(defs: seq<EventDef>, b: Board, r: Request, forecast: bool, emergency: bool)
    requires Judge(defs, b, r, forecast, emergency).Go?
    ensures r.event < |defs|
  {
  }

  /** A turn has one outcome. */
  lemma SettlesOnce(defs: seq<EventDef>, b: Board, r: Request, forecast: bool, emergency: bool, u: Verdict, v: Verdict)
    requires Settles(defs, b, r, forecast, emergency, u) && Settles(defs, b, r, forecast, emergency, v)
    ensures u == v
  {
  }

  lemma {:induction false} DecisionsCount(defs: seq<EventDef>, rs: seq<Request>, boards: seq<Board>,
                                          fates: seq<Verdict>, forecast: bool, emergency: bool, j: nat, k: nat)
    requires Turns(defs, rs, boards, fates, forecast, emergency) && j <= k <= |rs|
    ensures boards[j].decisions <= boards[k].decisions
    decreases k - j
  {
    hide Settles;
    if j < k {
      DecisionsCount(defs, rs, boards, fates, forecast, emergency, j, k - 1);
      assert Turn(defs, boards[k - 1], rs[k - 1], boards[k], fates[k - 1], forecast, emergency);
    }
  }

  /** Of two decisions, the one of the lower class has its turn first; if it may open then, it does, and the other has
      to wait for another day. */
  lemma LowerClassOpens(defs: seq<EventDef>, rs: seq<Request>, places: seq<nat>, boards: seq<Board>,
                        fates: seq<Verdict>,
                        forecast: bool, emergency: bool, j: nat, k: nat)
    requires InTurn(defs, rs, places) && Turns(defs, Drawn(rs, places), boards, fates, forecast, emergency)
    requires j < |places| && k < |places|
    requires var a, c := rs[places[j]].event, rs[places[k]].event;
             && a < |defs| && c < |defs| && defs[a].decision && defs[c].decision
             && defs[a].queueClass < defs[c].queueClass
    ensures j < k
    ensures Settles(defs, boards[j], rs[places[j]], forecast, emergency, Go) ==> fates[j].Go? && !fates[k].Go?
  {
    var taken := Drawn(rs, places);
    if Settles(defs, boards[j], taken[j], forecast, emergency, Go) {
      assert Turn(defs, boards[j], taken[j], boards[j + 1], fates[j], forecast, emergency);
      SettlesOnce(defs, boards[j], taken[j], forecast, emergency, fates[j], Go);
      if boards[j].decisions >= 0 {
        DecisionsCount(defs, taken, boards, fates, forecast, emergency, j + 1, k);
        assert Turn(defs, boards[k], taken[k], boards[k + 1], fates[k], forecast, emergency);
      }
    }
  }

  /** The drain of a day: the requests asked, in turn, each opened, kept for tomorrow or dropped for its reason. */
  lemma DrainTakesTurns(defs: seq<EventDef>, b: Board, forecast: bool, emergency: bool)
    ensures exists places, boards, fates ::
              && InTurn(defs, b.requests, places)
              && Turns(defs, Drawn(b.requests, places), boards, fates, forecast, emergency) && boards[0] == b
              && Drained(defs, b, InOrder(defs, b.requests), forecast, emergency)
                 == Drain(boards[|places|], PutOff(Drawn(b.requests, places), fates))
  {
    hide Precedes, Turns, InOrder;
    var places := TakenInTurn(defs, b.requests);
    var boards, fates := EveryRequestIsSettled(defs, b, Drawn(b.requests, places), forecast, emergency);
  }
}
