/** The event scheduler: cooldowns, decision windows, chains, and effects queued for later days. */
module Events {
  import opened Units
  import opened Catalog

  datatype Effect =
    | Schedule(delay: int, nested: seq<Effect>)
    | Raise(event: nat)
    | Close(only: Option<nat>)
    | Other

  datatype EventDef = EventDef(
    chain: nat,
    queueClass: nat,
    consecutiveDays: nat,
    cooldown: int,
    deadlineDays: int,
    decision: bool,
    pauses: bool,
    keepsOpen: bool,
    sectorUnique: bool,
    onOpen: seq<Effect>,
    onResolve: seq<Effect>,
    onExpire: seq<Effect>)

  const SURVIVAL := 0
  const UNKNOWN_CLASS := 99

  datatype Status = Open | Resolved | Expired | Closed

  datatype Instance = Instance(event: nat, planet: nat, facility: nat, since: int, deadline: int, status: Status)
  datatype Request = Request(event: nat, planet: nat, facility: nat, day: int)

  /** What an effect acts for: an event on a world, perhaps at a facility; the instance it comes from (its place
      among all openings) and the choice, if any. */
  datatype Origin = Origin(event: nat, planet: nat, facility: nat, instance: nat, choice: Option<nat>)
  datatype Queued = Queued(due: int, priority: nat, effect: Effect, from: Origin)

  /** A response a player may take: it settles the window or leaves it open without its deadline, may call off
      what earlier choices queued, and runs its effects. */
  datatype Response = Response(id: nat, resolves: bool, cancels: set<nat>, effects: seq<Effect>)

  /** Where an event's condition is watched: on a world, or at a facility of it. */
  datatype Site = Site(event: nat, planet: nat, facility: nat)

  /** Whether the condition held there today. */
  datatype Sighting = Sighting(site: Site, holds: bool)

  /** Instances are never removed, so they are also the history of every opening. `taken` holds the responses
      already applied, by instance and response, and `streaks` for how many days running each condition has held. */
  datatype Board = Board(
    day: int,
    events: seq<Instance>,
    cooldowns: map<(nat, nat), int>,
    requests: seq<Request>,
    queue: seq<Queued>,
    decisions: nat,
    paused: bool,
    taken: set<(nat, nat)>,
    streaks: map<Site, nat>)

  ghost predicate ValidEffect(e: Effect) {
    e.Schedule? ==> 1 <= e.delay && forall i | 0 <= i < |e.nested| :: !e.nested[i].Schedule?
  }

  ghost predicate ValidEffects(es: seq<Effect>) {
    forall i | 0 <= i < |es| :: ValidEffect(es[i])
  }

  ghost predicate ValidDefs(defs: seq<EventDef>) {
    forall i | 0 <= i < |defs| ::
        ValidEffects(defs[i].onOpen) && ValidEffects(defs[i].onResolve) && ValidEffects(defs[i].onExpire)
  }

  predicate Known(defs: seq<EventDef>, e: nat) {
    e < |defs|
  }

  predicate IsDecision(defs: seq<EventDef>, e: nat) {
    e < |defs| && defs[e].decision
  }

  function Cooldown(defs: seq<EventDef>, e: nat): int {
    if e < |defs| then defs[e].cooldown else 0
  }

  predicate SameChain(defs: seq<EventDef>, a: nat, b: nat) {
    a < |defs| && b < |defs| && defs[a].chain == defs[b].chain
  }

  /** An open decision window still running. */
  predicate Live(i: Instance) {
    i.status.Open? && 0 <= i.deadline
  }

  predicate AnyWindow(events: seq<Instance>) {
    exists i | 0 <= i < |events| :: Live(events[i])
  }

  // ----- effects -----

  function InsertQueued(queue: seq<Queued>, q: Queued): seq<Queued> {
    if queue == [] then [q]
    else
      var last := queue[|queue| - 1];
      if last.due < q.due || (last.due == q.due && last.priority <= q.priority) then queue + [q]
      else InsertQueued(queue[..|queue| - 1], q) + [last]
  }

  /** Nested effects queued in order, each under its own priority. */
  function QueueUpto(queue: seq<Queued>, due: int, nested: seq<Effect>, n: nat, o: Origin): seq<Queued>
    requires n <= |nested|
  {
    if n == 0 then queue
    else InsertQueued(QueueUpto(queue, due, nested, n - 1, o), Queued(due, n - 1, nested[n - 1], o))
  }

  predicate Requested(requests: seq<Request>, event: nat, planet: nat, facility: nat) {
    exists i | 0 <= i < |requests| ::
        requests[i].event == event && requests[i].planet == planet && requests[i].facility == facility
  }

  /** A request is made once; asking again changes nothing. */
  function WithRequest(b: Board, event: nat, planet: nat, facility: nat): Board {
    if Requested(b.requests, event, planet, facility) then b
    else b.(requests := b.requests + [Request(event, planet, facility, b.day)])
  }

  function ClosedIf(defs: seq<EventDef>, i: Instance, event: nat, planet: nat, wholeChain: bool): Instance {
    if i.status.Open? && i.planet == planet
       && (i.event == event || (wholeChain && SameChain(defs, i.event, event))) then i.(status := Closed) else i
  }

  function CloseAll(defs: seq<EventDef>, events: seq<Instance>, event: nat, planet: nat,
                    wholeChain: bool): seq<Instance> {
    seq(|events|, i requires 0 <= i < |events| => ClosedIf(defs, events[i], event, planet, wholeChain))
  }

  function Execute(defs: seq<EventDef>, b: Board, e: Effect, o: Origin): Board {
    match e
    case Schedule(delay, nested) => b.(queue := QueueUpto(b.queue, b.day + delay, nested, |nested|, o))
    case Raise(key) => WithRequest(b, key, o.planet, o.facility)
    case Close(only) =>
      var closed := CloseAll(defs, b.events, if only.Some? then only.value else o.event, o.planet, only.None?);
      b.(events := closed, paused := b.paused && AnyWindow(closed))
    case Other => b
  }

  function ExecuteAll(defs: seq<EventDef>, b: Board, es: seq<Effect>, o: Origin): Board {
    if es == [] then b
    else Execute(defs, ExecuteAll(defs, b, es[..|es| - 1], o), es[|es| - 1], o)
  }

  // ----- resolving and expiring -----

  /** The origin of an instance's own effects. */
  function Own(inst: Instance, i: nat): Origin {
    Origin(inst.event, inst.planet, inst.facility, i, None)
  }

  /** One instance's daily check: prevented when its condition has resolved, expired at its deadline. */
  function Swept(defs: seq<EventDef>, b: Board, i: nat, resolved: bool): Board
    requires i < |b.events|
  {
    var inst := b.events[i];
    if !inst.status.Open? || !Known(defs, inst.event) then b
    else if resolved then
      ExecuteAll(defs, b.(events := b.events[i := inst.(status := Closed)]), defs[inst.event].onResolve, Own(inst, i))
    else if 0 <= inst.deadline <= b.day then
      var after := ExecuteAll(defs, b, defs[inst.event].onExpire, Own(inst, i));
      if i >= |after.events| then after
      else
        var now := after.events[i];
        after.(events := after.events[i := if defs[inst.event].keepsOpen then now.(deadline := -1)
            else now.(status := Expired)])
    else b
  }

  function SweptUpto(defs: seq<EventDef>, b: Board, n: nat, resolved: set<nat>): Board {
    if n == 0 then b
    else
      var before := SweptUpto(defs, b, n - 1, resolved);
      if n - 1 < |before.events| then Swept(defs, before, n - 1, n - 1 in resolved) else before
  }

  // ----- the request queue -----

  function ClassOf(defs: seq<EventDef>, r: Request): nat {
    if r.event < |defs| then defs[r.event].queueClass else UNKNOWN_CLASS
  }

  predicate NotAfter(defs: seq<EventDef>, a: Request, b: Request) {
    ClassOf(defs, a) < ClassOf(defs, b) || (ClassOf(defs, a) == ClassOf(defs, b) && a.day <= b.day)
  }

  function InsertRequest(defs: seq<EventDef>, rs: seq<Request>, r: Request): seq<Request> {
    if rs == [] || NotAfter(defs, rs[|rs| - 1], r) then rs + [r]
    else InsertRequest(defs, rs[..|rs| - 1], r) + [rs[|rs| - 1]]
  }

  /** Scheduler order: queue class, then day asked, then order asked. */
  function InOrder(defs: seq<EventDef>, rs: seq<Request>): seq<Request> {
    if rs == [] then [] else InsertRequest(defs, InOrder(defs, rs[..|rs| - 1]), rs[|rs| - 1])
  }

  datatype Verdict = Drop | Defer | Go

  predicate Cooling(b: Board, event: nat, planet: nat) {
    (event, planet) in b.cooldowns && b.day < b.cooldowns[(event, planet)]
  }

  predicate OpenSomewhere(events: seq<Instance>, event: nat) {
    exists i | 0 <= i < |events| :: events[i].event == event && events[i].status.Open?
  }

  predicate WindowOpen(defs: seq<EventDef>, events: seq<Instance>, r: Request) {
    exists i | 0 <= i < |events| ::
        Live(events[i]) && events[i].planet == r.planet && SameChain(defs, events[i].event, r.event)
  }

  function Judge(defs: seq<EventDef>, b: Board, r: Request, forecast: bool, emergency: bool): Verdict {
    if !Known(defs, r.event) then Drop
    else if forecast && IsDecision(defs, r.event) then Defer
    else if Cooling(b, r.event, r.planet) then Drop
    else if defs[r.event].sectorUnique && OpenSomewhere(b.events, r.event) then Drop
    else if IsDecision(defs, r.event)
            && ((emergency && defs[r.event].queueClass != SURVIVAL) || 1 <= b.decisions
                || WindowOpen(defs, b.events, r)) then Defer
    else Go
  }

  function Fresh(defs: seq<EventDef>, b: Board, r: Request): Instance
    requires Known(defs, r.event)
  {
    var d := defs[r.event];
    Instance(r.event, r.planet, r.facility, b.day, if d.deadlineDays > 0 then b.day + d.deadlineDays else -1,
             if !d.decision && d.deadlineDays <= 0 then Closed else Open)
  }

  function Opened(defs: seq<EventDef>, b: Board, r: Request): Board
    requires Known(defs, r.event)
  {
    var d := defs[r.event];
    var listed := b.(events := b.events + [Fresh(defs, b, r)],
                     cooldowns := if d.cooldown > 0 then b.cooldowns[(r.event, r.planet) := b.day + d.cooldown]
                         else b.cooldowns);
    var after := ExecuteAll(defs, listed, d.onOpen, Own(Fresh(defs, b, r), |b.events|));
    if d.decision then after.(decisions := after.decisions + 1, paused := after.paused || d.pauses) else after
  }

  datatype Drain = Drain(board: Board, deferred: seq<Request>)

  function Drained(defs: seq<EventDef>, b: Board, rs: seq<Request>, forecast: bool, emergency: bool): Drain {
    if rs == [] then Drain(b, [])
    else
      var before, r := Drained(defs, b, rs[..|rs| - 1], forecast, emergency), rs[|rs| - 1];
      match Judge(defs, before.board, r, forecast, emergency)
      case Drop => before
      case Defer => before.(deferred := before.deferred + [r])
      case Go => before.(board := Opened(defs, before.board, r))
  }

  // ----- a site whose trigger has held long enough -----

  predicate ChainOpen(defs: seq<EventDef>, events: seq<Instance>, event: nat, planet: nat) {
    exists i | 0 <= i < |events| ::
        events[i].status.Open? && events[i].planet == planet && SameChain(defs, events[i].event, event)
  }

  predicate Eligible(defs: seq<EventDef>, b: Board, r: Request) {
    && Known(defs, r.event) && !Cooling(b, r.event, r.planet) && !ChainOpen(defs, b.events, r.event, r.planet)
    && (defs[r.event].sectorUnique ==> !OpenSomewhere(b.events, r.event))
  }

  function Streak(streaks: map<Site, nat>, s: Site): nat {
    if s in streaks then streaks[s] else 0
  }

  /** The streaks after the day's sightings: one longer where the condition held, none where it did not. */
  function Tracked(streaks: map<Site, nat>, ss: seq<Sighting>): map<Site, nat> {
    if ss == [] then streaks
    else
      var before, s := Tracked(streaks, ss[..|ss| - 1]), ss[|ss| - 1];
      before[s.site := if s.holds then Streak(before, s.site) + 1 else 0]
  }

  datatype Candidate = Candidate(site: Site, streak: nat)

  /** A trigger that has held long enough where its event may be asked for. */
  predicate Triggered(defs: seq<EventDef>, b: Board, s: Sighting, streak: nat) {
    && s.holds && Eligible(defs, b, Request(s.site.event, s.site.planet, s.site.facility, b.day))
    && Max(defs[s.site.event].consecutiveDays, 1) <= streak
  }

  function Found(defs: seq<EventDef>, b: Board, ss: seq<Sighting>): seq<Candidate> {
    if ss == [] then []
    else
      var s, streak := ss[|ss| - 1], Streak(Tracked(b.streaks, ss), ss[|ss| - 1].site);
      Found(defs, b, ss[..|ss| - 1]) + (if Triggered(defs, b, s, streak) then [Candidate(s.site, streak)] else [])
  }

  function ClassAt(defs: seq<EventDef>, s: Site): nat {
    if s.event < |defs| then defs[s.event].queueClass else UNKNOWN_CLASS
  }

  /** Queue class first, then the longest streak, then the lowest event, world and facility. */
  predicate NotLater(defs: seq<EventDef>, a: Candidate, b: Candidate) {
    var ca, cb := ClassAt(defs, a.site), ClassAt(defs, b.site);
    if ca != cb then ca < cb
    else if a.streak != b.streak then a.streak > b.streak
    else if a.site.event != b.site.event then a.site.event < b.site.event
    else if a.site.planet != b.site.planet then a.site.planet < b.site.planet
    else a.site.facility <= b.site.facility
  }

  function InsertCandidate(defs: seq<EventDef>, cs: seq<Candidate>, c: Candidate): seq<Candidate> {
    if cs == [] || NotLater(defs, cs[|cs| - 1], c) then cs + [c]
    else InsertCandidate(defs, cs[..|cs| - 1], c) + [cs[|cs| - 1]]
  }

  function Ranked(defs: seq<EventDef>, cs: seq<Candidate>): seq<Candidate> {
    if cs == [] then [] else InsertCandidate(defs, Ranked(defs, cs[..|cs| - 1]), cs[|cs| - 1])
  }

  function Asked(b: Board, cs: seq<Candidate>): Board {
    if cs == [] then b
    else
      var s := cs[|cs| - 1].site;
      WithRequest(Asked(b, cs[..|cs| - 1]), s.event, s.planet, s.facility)
  }

  // ----- a day -----

  /** Which instances' conditions have resolved, where triggers were watched and whether they held, and the two
      modes. */
  datatype Today = Today(resolved: set<nat>, sightings: seq<Sighting>, forecast: bool, emergency: bool)

  function DuePart(queue: seq<Queued>, day: int, due: bool): seq<Queued> {
    if queue == [] then []
    else
      var q := queue[|queue| - 1];
      DuePart(queue[..|queue| - 1], day, due) + (if (q.due <= day) == due then [q] else [])
  }

  function RunDue(defs: seq<EventDef>, b: Board, due: seq<Queued>): Board {
    if due == [] then b
    else
      var q := due[|due| - 1];
      Execute(defs, RunDue(defs, b, due[..|due| - 1]), q.effect, q.from)
  }

  function Morning(defs: seq<EventDef>, b: Board): Board {
    var now := b.(day := b.day + 1, decisions := 0);
    RunDue(defs, now.(queue := DuePart(now.queue, now.day, false)), DuePart(now.queue, now.day, true))
  }

  function Evening(defs: seq<EventDef>, b: Board, t: Today): Board {
    var swept := SweptUpto(defs, b, |b.events|, t.resolved);
    var calm := swept.(paused := swept.paused && AnyWindow(swept.events));
    var asked := Asked(calm.(streaks := Tracked(calm.streaks, t.sightings)),
        Ranked(defs, Found(defs, calm, t.sightings)));
    var drain := Drained(defs, asked, InOrder(defs, asked.requests), t.forecast, t.emergency);
    drain.board.(requests := drain.deferred)
  }

  function NextDay(defs: seq<EventDef>, b: Board, t: Today): Board {
    Evening(defs, Morning(defs, b), t)
  }

  // ----- a player's response -----

  predicate CalledOff(q: Queued, i: nat, cancels: set<nat>) {
    q.from.instance == i && q.from.choice.Some? && q.from.choice.value in cancels
  }

  /** The queue without what the called-off choices of instance `i` put there. */
  function Uncancelled(queue: seq<Queued>, i: nat, cancels: set<nat>): seq<Queued> {
    if queue == [] then []
    else
      var q := queue[|queue| - 1];
      Uncancelled(queue[..|queue| - 1], i, cancels) + (if CalledOff(q, i, cancels) then [] else [q])
  }

  /** A request of the event's chain, but for another event. */
  predicate Withdrawn(defs: seq<EventDef>, r: Request, event: nat) {
    SameChain(defs, r.event, event) && r.event != event
  }

  function Unwithdrawn(defs: seq<EventDef>, rs: seq<Request>, event: nat): seq<Request> {
    if rs == [] then []
    else
      var r := rs[|rs| - 1];
      Unwithdrawn(defs, rs[..|rs| - 1], event) + (if Withdrawn(defs, r, event) then [] else [r])
  }

  /** A response that calls off earlier choices also withdraws what the chain has asked for but not opened. */
  function Cancelled(defs: seq<EventDef>, b: Board, i: nat, cancels: set<nat>): Board
    requires i < |b.events|
  {
    if cancels == {} then b
    else b.(queue := Uncancelled(b.queue, i, cancels), requests := Unwithdrawn(defs, b.requests, b.events[i].event))
  }

  predicate MayTake(defs: seq<EventDef>, b: Board, i: nat, r: Response)
    requires i < |b.events|
  {
    b.events[i].status.Open? && Known(defs, b.events[i].event) && (i, r.id) !in b.taken
  }

  function Marked(b: Board, i: nat, r: Response): Board
    requires i < |b.events|
  {
    var inst := b.events[i];
    b.(events := b.events[i := if r.resolves then inst.(status := Resolved) else inst.(deadline := -1)],
        taken := b.taken + {(i, r.id)})
  }

  /** A player's response: refused when the window is shut or the response was taken before. */
  function Chosen(defs: seq<EventDef>, b: Board, i: nat, r: Response): Board
    requires i < |b.events|
  {
    if !MayTake(defs, b, i, r) then b
    else
      var now := Marked(Cancelled(defs, b, i, r.cancels), i, r);
      var after := ExecuteAll(defs, now, r.effects, Own(b.events[i], i).(choice := Some(r.id)));
      after.(paused := after.paused && AnyWindow(after.events))
  }

  // ----- what every state satisfies -----

  /** Two openings of one event on one world are at least its cooldown apart. */
  ghost predicate Spaced(defs: seq<EventDef>, events: seq<Instance>) {
    forall i, j | 0 <= i < j < |events| && events[i].event == events[j].event && events[i].planet == events[j].planet
        && 0 < Cooldown(defs, events[i].event) ::
      events[j].since - events[i].since >= Cooldown(defs, events[i].event)
  }

  /** No two decisions open on one day. */
  ghost predicate OneADay(defs: seq<EventDef>, events: seq<Instance>) {
    forall i, j | 0 <= i < j < |events| && IsDecision(defs, events[i].event) && IsDecision(defs, events[j].event) ::
        events[i].since < events[j].since
  }

  /** No chain has two decisions with running deadlines on one world. */
  ghost predicate OneWindow(defs: seq<EventDef>, events: seq<Instance>) {
    forall i, j | 0 <= i < j < |events| && IsDecision(defs, events[i].event) && IsDecision(defs, events[j].event)
                  && events[i].planet == events[j].planet && SameChain(defs, events[i].event, events[j].event) ::
      !(Live(events[i]) && Live(events[j]))
  }

  /** The cooldown table covers every opening, and the day's decision count covers today's. */
  ghost predicate Tallied(defs: seq<EventDef>, b: Board) {
    forall i | 0 <= i < |b.events| ::
      var e := b.events[i];
      && e.since <= b.day
      && (IsDecision(defs, e.event) && e.since == b.day ==> 1 <= b.decisions)
      && (0 < Cooldown(defs, e.event) ==>
          (e.event, e.planet) in b.cooldowns && b.cooldowns[(e.event, e.planet)] >= e.since + Cooldown(defs, e.event))
  }

  ghost predicate Regular(defs: seq<EventDef>, b: Board) {
    Spaced(defs, b.events) && OneADay(defs, b.events) && OneWindow(defs, b.events) && Tallied(defs, b)
  }

  ghost predicate Ahead(queue: seq<Queued>, day: int) {
    forall i | 0 <= i < |queue| :: day < queue[i].due && !queue[i].effect.Schedule?
  }

  ghost predicate QueueAhead(b: Board) {
    Ahead(b.queue, b.day)
  }

  ghost predicate WindowsAhead(b: Board, n: nat) {
    forall i | 0 <= i < n && i < |b.events| && Live(b.events[i]) :: b.day < b.events[i].deadline
  }

  /** Between days every running deadline and every queued effect lies strictly in the future. */
  ghost predicate Settled(b: Board) {
    QueueAhead(b) && WindowsAhead(b, |b.events|)
  }

  // ----- effects only ease windows -----

  /** Later versions of the same openings; a window running afterwards was running before, to the same day. */
  ghost predicate Eased(a: seq<Instance>, b: seq<Instance>) {
    |a| == |b| && forall i | 0 <= i < |a| ::
      && b[i].event == a[i].event && b[i].planet == a[i].planet && b[i].since == a[i].since
      && (Live(b[i]) ==> Live(a[i]) && b[i].deadline == a[i].deadline)
  }

  /** The board moved only by easing windows, asking for events and queueing later effects. */
  ghost predicate Moved(a: Board, b: Board) {
    && b == a.(events := b.events, requests := b.requests, queue := b.queue, paused := b.paused)
    && Eased(a.events, b.events) && (QueueAhead(a) ==> QueueAhead(b))
  }

  lemma MovedThen(a: Board, b: Board, c: Board)
    requires Moved(a, b) && Moved(b, c)
    ensures Moved(a, c)
  {
  }

  lemma MovedKeeps(defs: seq<EventDef>, a: Board, b: Board, n: nat)
    requires Moved(a, b)
    ensures Regular(defs, a) ==> Regular(defs, b)
    ensures WindowsAhead(a, n) ==> WindowsAhead(b, n)
    ensures |b.events| == |a.events|
  {
  }

  lemma {:induction false} InsertedAhead(queue: seq<Queued>, q: Queued, day: int)
    requires Ahead(queue, day) && day < q.due && !q.effect.Schedule?
    ensures Ahead(InsertQueued(queue, q), day)
  {
    if queue != [] {
      InsertedAhead(queue[..|queue| - 1], q, day);
    }
  }

  lemma {:induction false} QueuedAhead(queue: seq<Queued>, due: int, nested: seq<Effect>, n: nat, o: Origin, day: int)
    requires n <= |nested| && day < due && forall i | 0 <= i < |nested| :: !nested[i].Schedule?
    requires Ahead(queue, day)
    ensures Ahead(QueueUpto(queue, due, nested, n, o), day)
  {
    hide Ahead;
    if n > 0 {
      QueuedAhead(queue, due, nested, n - 1, o, day);
      InsertedAhead(QueueUpto(queue, due, nested, n - 1, o), Queued(due, n - 1, nested[n - 1], o), day);
    }
  }

  lemma ExecuteMoves(defs: seq<EventDef>, b: Board, e: Effect, o: Origin)
    requires ValidEffect(e)
    ensures Moved(b, Execute(defs, b, e, o))
  {
    if e.Schedule? && QueueAhead(b) {
      QueuedAhead(b.queue, b.day + e.delay, e.nested, |e.nested|, o, b.day);
    }
  }

  lemma {:induction false} ExecuteAllMoves(defs: seq<EventDef>, b: Board, es: seq<Effect>, o: Origin)
    requires ValidEffects(es)
    ensures Moved(b, ExecuteAll(defs, b, es, o))
  {
    hide Execute, ValidEffect;
    if es != [] {
      var before := ExecuteAll(defs, b, es[..|es| - 1], o);
      ExecuteAllMoves(defs, b, es[..|es| - 1], o);
      ExecuteMoves(defs, before, es[|es| - 1], o);
      MovedThen(b, before, Execute(defs, before, es[|es| - 1], o));
    }
  }

  // ----- the sweep -----

  lemma SweptMoves(defs: seq<EventDef>, b: Board, i: nat, resolved: bool)
    requires i < |b.events| && ValidDefs(defs)
    ensures Moved(b, Swept(defs, b, i, resolved))
    ensures var now := Swept(defs, b, i, resolved);
            i < |now.events| && (Live(now.events[i]) && Known(defs, now.events[i].event) ==>
                b.day < now.events[i].deadline)
  {
    hide ExecuteAll, ValidEffects;
    var inst := b.events[i];
    if inst.status.Open? && Known(defs, inst.event) {
      var d := defs[inst.event];
      var closed := b.(events := b.events[i := inst.(status := Closed)]);
      ExecuteAllMoves(defs, closed, d.onResolve, Own(inst, i));
      ExecuteAllMoves(defs, b, d.onExpire, Own(inst, i));
      assert Moved(b, closed);
      MovedThen(b, closed, ExecuteAll(defs, closed, d.onResolve, Own(inst, i)));
    }
  }

  /** Every instance names a defined event. */
  ghost predicate AllKnown(defs: seq<EventDef>, events: seq<Instance>) {
    forall i | 0 <= i < |events| :: Known(defs, events[i].event)
  }

  lemma {:induction false} SweepSettles(defs: seq<EventDef>, b: Board, n: nat, resolved: set<nat>)
    requires ValidDefs(defs) && n <= |b.events| && AllKnown(defs, b.events)
    ensures Moved(b, SweptUpto(defs, b, n, resolved)) && WindowsAhead(SweptUpto(defs, b, n, resolved), n)
  {
    hide Swept, ValidDefs;
    if n > 0 {
      var before := SweptUpto(defs, b, n - 1, resolved);
      SweepSettles(defs, b, n - 1, resolved);
      var now := Swept(defs, before, n - 1, n - 1 in resolved);
      SweptMoves(defs, before, n - 1, n - 1 in resolved);
      MovedKeeps(defs, before, now, n - 1);
      MovedThen(b, before, now);
    }
  }

  // ----- the drain -----

  lemma ListedSpaced(defs: seq<EventDef>, b: Board, r: Request)
    requires Spaced(defs, b.events) && Tallied(defs, b) && Known(defs, r.event) && !Cooling(b, r.event, r.planet)
    ensures Spaced(defs, b.events + [Fresh(defs, b, r)])
  {
    var after := b.events + [Fresh(defs, b, r)];
    forall i, j | 0 <= i < j < |after| && after[i].event == after[j].event && after[i].planet == after[j].planet
        && 0 < Cooldown(defs, after[i].event)
      ensures after[j].since - after[i].since >= Cooldown(defs, after[i].event)
    {
      assert after[i] == b.events[i];
      if j < |b.events| {
        assert after[j] == b.events[j];
      }
    }
  }

  lemma ListedOneADay(defs: seq<EventDef>, b: Board, r: Request)
    requires OneADay(defs, b.events) && Tallied(defs, b) && Known(defs, r.event)
    requires IsDecision(defs, r.event) ==> b.decisions == 0
    ensures OneADay(defs, b.events + [Fresh(defs, b, r)])
  {
  }

  lemma ListedOneWindow(defs: seq<EventDef>, b: Board, r: Request)
    requires OneWindow(defs, b.events) && Known(defs, r.event)
    requires IsDecision(defs, r.event) ==> !WindowOpen(defs, b.events, r)
    ensures OneWindow(defs, b.events + [Fresh(defs, b, r)])
  {
    var after := b.events + [Fresh(defs, b, r)];
    forall i | 0 <= i < |b.events| ensures after[i] == b.events[i] {
    }
  }

  lemma ListedTallied(defs: seq<EventDef>, b: Board, r: Request, listed: Board)
    requires Tallied(defs, b) && Known(defs, r.event) && !Cooling(b, r.event, r.planet) && listed.day == b.day
    requires listed.events == b.events + [Fresh(defs, b, r)]
    requires listed.cooldowns == if defs[r.event].cooldown > 0 then
             b.cooldowns[(r.event, r.planet) := b.day + defs[r.event].cooldown] else b.cooldowns
    requires listed.decisions == b.decisions + (if IsDecision(defs, r.event) then 1 else 0)
    ensures Tallied(defs, listed)
  {
    forall i | 0 <= i < |b.events| ensures listed.events[i] == b.events[i] {
    }
  }

  lemma ListedKeeps(defs: seq<EventDef>, b: Board, r: Request, listed: Board)
    requires Regular(defs, b) && Known(defs, r.event) && !Cooling(b, r.event, r.planet)
    requires IsDecision(defs, r.event) ==> b.decisions == 0 && !WindowOpen(defs, b.events, r)
    requires listed == b.(events := b.events + [Fresh(defs, b, r)],
                          decisions := listed.decisions, paused := listed.paused,
                          cooldowns := if defs[r.event].cooldown > 0 then
                              b.cooldowns[(r.event, r.planet) := b.day + defs[r.event].cooldown] else b.cooldowns)
    requires listed.decisions == b.decisions + (if IsDecision(defs, r.event) then 1 else 0)
    ensures Regular(defs, listed)
    ensures WindowsAhead(b, |b.events|) ==> WindowsAhead(listed, |listed.events|)
    ensures AllKnown(defs, b.events) ==> AllKnown(defs, listed.events)
  {
    hide Spaced, OneADay, OneWindow, Tallied, Cooling, WindowOpen;
    ListedSpaced(defs, b, r);
    ListedOneADay(defs, b, r);
    ListedOneWindow(defs, b, r);
    ListedTallied(defs, b, r, listed);
  }

  /** Opening an event the scheduler let through keeps every rule. */
  lemma OpenedKeeps(defs: seq<EventDef>, b: Board, r: Request, forecast: bool, emergency: bool)
    requires Regular(defs, b) && Settled(b) && AllKnown(defs, b.events) && ValidDefs(defs)
    requires Judge(defs, b, r, forecast, emergency).Go?
    ensures Regular(defs, Opened(defs, b, r)) && Settled(Opened(defs, b, r))
            && AllKnown(defs, Opened(defs, b, r).events)
    ensures Opened(defs, b, r).day == b.day && Opened(defs, b, r).taken == b.taken
            && Opened(defs, b, r).streaks == b.streaks
  {
    hide ExecuteAll, ValidEffects, Regular, Spaced, OneADay, OneWindow, Tallied, Cooling, WindowOpen;
    var d := defs[r.event];
    var listed := b.(events := b.events + [Fresh(defs, b, r)],
                     cooldowns := if d.cooldown > 0 then b.cooldowns[(r.event, r.planet) := b.day + d.cooldown]
                         else b.cooldowns);
    var counted := if d.decision then listed.(decisions := listed.decisions + 1, paused := listed.paused || d.pauses)
        else listed;
    ListedKeeps(defs, b, r, counted);
    ExecuteAllMoves(defs, listed, d.onOpen, Own(Fresh(defs, b, r), |b.events|));
    var after := Opened(defs, b, r);
    CountAside(listed, ExecuteAll(defs, listed, d.onOpen, Own(Fresh(defs, b, r), |b.events|)), counted, after);
    MovedKeeps(defs, counted, after, |counted.events|);
  }

  /** Counting a decision before or after its effects run comes to the same. */
  lemma CountAside(a: Board, b: Board, a': Board, b': Board)
    requires Moved(a, b) && a' == a.(decisions := a'.decisions, paused := a'.paused)
             && b' == b.(decisions := b'.decisions, paused := b'.paused)
    requires a'.decisions == b'.decisions
    ensures Moved(a', b')
  {
  }

  lemma {:induction false} DrainKeeps(defs: seq<EventDef>, b: Board, rs: seq<Request>, forecast: bool, emergency: bool)
    requires Regular(defs, b) && Settled(b) && AllKnown(defs, b.events) && ValidDefs(defs)
    ensures var d := Drained(defs, b, rs, forecast, emergency);
            Regular(defs, d.board) && Settled(d.board) && AllKnown(defs, d.board.events) && d.board.day == b.day
                && d.board.taken == b.taken
            && d.board.streaks == b.streaks
  {
    hide Regular, Settled, Judge, Opened, ValidDefs, AllKnown;
    if rs != [] {
      var before, r := Drained(defs, b, rs[..|rs| - 1], forecast, emergency), rs[|rs| - 1];
      DrainKeeps(defs, b, rs[..|rs| - 1], forecast, emergency);
      if Judge(defs, before.board, r, forecast, emergency).Go? {
        JudgedKnown(defs, before.board, r, forecast, emergency);
        OpenedKeeps(defs, before.board, r, forecast, emergency);
      }
    }
  }

  lemma JudgedKnown(defs: seq<EventDef>, b: Board, r: Request, forecast: bool, emergency: bool)
    requires Judge(defs, b, r, forecast, emergency).Go?
    ensures Known(defs, r.event)
  {
  }

  // ----- a day keeps every rule -----

  lemma {:induction false} AskedMoves(b: Board, cs: seq<Candidate>)
    ensures Moved(b, Asked(b, cs))
  {
    if cs != [] {
      AskedMoves(b, cs[..|cs| - 1]);
    }
  }

  lemma {:induction false} DueIsPart(queue: seq<Queued>, day: int, due: bool)
    ensures forall i | 0 <= i < |DuePart(queue, day, due)| ::
            DuePart(queue, day, due)[i] in queue && (DuePart(queue, day, due)[i].due <= day) == due
  {
    if queue != [] {
      DueIsPart(queue[..|queue| - 1], day, due);
    }
  }

  lemma {:induction false} RunDueMoves(defs: seq<EventDef>, b: Board, due: seq<Queued>)
    requires forall i | 0 <= i < |due| :: !due[i].effect.Schedule?
    ensures Moved(b, RunDue(defs, b, due))
  {
    hide Execute;
    if due != [] {
      var q := due[|due| - 1];
      var before := RunDue(defs, b, due[..|due| - 1]);
      RunDueMoves(defs, b, due[..|due| - 1]);
      ExecuteMoves(defs, before, q.effect, q.from);
      MovedThen(b, before, Execute(defs, before, q.effect, q.from));
    }
  }

  lemma MorningKeeps(defs: seq<EventDef>, b: Board)
    requires Regular(defs, b) && Settled(b) && AllKnown(defs, b.events)
    ensures Regular(defs, Morning(defs, b)) && QueueAhead(Morning(defs, b)) && AllKnown(defs, Morning(defs, b).events)
    ensures Morning(defs, b).day == b.day + 1 && Morning(defs, b).taken == b.taken
            && Morning(defs, b).streaks == b.streaks
  {
    hide RunDue, DuePart;
    var now := b.(day := b.day + 1, decisions := 0);
    var rest := now.(queue := DuePart(now.queue, now.day, false));
    var due := DuePart(now.queue, now.day, true);
    DueIsPart(now.queue, now.day, false);
    DueIsPart(now.queue, now.day, true);
    forall i | 0 <= i < |due| ensures !due[i].effect.Schedule? {
      var k :| 0 <= k < |b.queue| && b.queue[k] == due[i];
    }
    forall i | 0 <= i < |rest.queue| ensures rest.day < rest.queue[i].due && !rest.queue[i].effect.Schedule? {
      var k :| 0 <= k < |b.queue| && b.queue[k] == rest.queue[i];
    }
    RunDueMoves(defs, rest, due);
    MovedKeeps(defs, rest, Morning(defs, b), 0);
  }

  lemma EveningKeeps(defs: seq<EventDef>, b: Board, t: Today)
    requires Regular(defs, b) && QueueAhead(b) && AllKnown(defs, b.events) && ValidDefs(defs)
    ensures Regular(defs, Evening(defs, b, t)) && Settled(Evening(defs, b, t))
            && AllKnown(defs, Evening(defs, b, t).events)
    ensures Evening(defs, b, t).day == b.day && Evening(defs, b, t).taken == b.taken
    ensures Evening(defs, b, t).streaks == Tracked(b.streaks, t.sightings)
  {
    hide SweptUpto, Asked, Drained, InOrder, ValidDefs, Spaced, OneADay, OneWindow, Tracked, Ranked, Found;
    var swept := SweptUpto(defs, b, |b.events|, t.resolved);
    var calm := swept.(paused := swept.paused && AnyWindow(swept.events));
    var watched := calm.(streaks := Tracked(calm.streaks, t.sightings));
    var asked := Asked(watched, Ranked(defs, Found(defs, calm, t.sightings)));
    SweepSettles(defs, b, |b.events|, t.resolved);
    MovedKeeps(defs, b, swept, 0);
    AskedMoves(watched, Ranked(defs, Found(defs, calm, t.sightings)));
    MovedKeeps(defs, watched, asked, |asked.events|);
    DrainKeeps(defs, asked, InOrder(defs, asked.requests), t.forecast, t.emergency);
  }

  /** After any day: openings spaced by their cooldowns, one decision a day, one running window per chain
      and world, and every deadline and queued effect strictly ahead. */
  lemma NextDayKeeps(defs: seq<EventDef>, b: Board, t: Today)
    requires Regular(defs, b) && Settled(b) && AllKnown(defs, b.events) && ValidDefs(defs)
    ensures Regular(defs, NextDay(defs, b, t)) && Settled(NextDay(defs, b, t))
            && AllKnown(defs, NextDay(defs, b, t).events)
    ensures NextDay(defs, b, t).day == b.day + 1 && NextDay(defs, b, t).taken == b.taken
    ensures NextDay(defs, b, t).streaks == Tracked(b.streaks, t.sightings)
  {
    hide Regular, Settled, Morning, Evening, AllKnown, ValidDefs, QueueAhead, Tracked;
    MorningKeeps(defs, b);
    EveningKeeps(defs, Morning(defs, b), t);
  }

  lemma {:induction false} UncancelledIsPart(queue: seq<Queued>, i: nat, cancels: set<nat>)
    ensures forall q :: q in Uncancelled(queue, i, cancels) <==> q in queue && !CalledOff(q, i, cancels)
  {
    hide CalledOff;
    if queue != [] {
      var m := |queue| - 1;
      UncancelledIsPart(queue[..m], i, cancels);
      assert queue == queue[..m] + [queue[m]];
    }
  }

  lemma CancelledKeeps(defs: seq<EventDef>, b: Board, i: nat, cancels: set<nat>)
    requires i < |b.events|
    ensures Moved(b, Cancelled(defs, b, i, cancels))
  {
    if QueueAhead(b) {
      var after := Uncancelled(b.queue, i, cancels);
      UncancelledIsPart(b.queue, i, cancels);
      forall k | 0 <= k < |after| ensures b.day < after[k].due && !after[k].effect.Schedule? {
        assert after[k] in after;
        var j :| 0 <= j < |b.queue| && b.queue[j] == after[k];
      }
    }
  }

  /** A response between days keeps every rule. */
  lemma ChosenKeeps(defs: seq<EventDef>, b: Board, i: nat, r: Response)
    requires Regular(defs, b) && Settled(b) && AllKnown(defs, b.events) && ValidEffects(r.effects) && i < |b.events|
    ensures var now := Chosen(defs, b, i, r);
            Regular(defs, now) && Settled(now) && AllKnown(defs, now.events) && now.day == b.day
    ensures Chosen(defs, b, i, r).streaks == b.streaks
    ensures Chosen(defs, b, i, r).taken == if MayTake(defs, b, i, r) then b.taken + {(i, r.id)} else b.taken
  {
    hide ExecuteAll, ValidEffects, Regular, Uncancelled, Unwithdrawn;
    if MayTake(defs, b, i, r) {
      var o := Own(b.events[i], i).(choice := Some(r.id));
      var cut := Cancelled(defs, b, i, r.cancels);
      CancelledKeeps(defs, b, i, r.cancels);
      var now := Marked(cut, i, r);
      ExecuteAllMoves(defs, now, r.effects, o);
      var after := Chosen(defs, b, i, r);
      var seen := b.(taken := now.taken);
      assert Moved(seen, now);
      MovedThen(seen, now, after);
      RegularBut(defs, b, seen);
      MovedKeeps(defs, seen, after, |b.events|);
    }
  }

  /** The rules do not read which responses were taken. */
  lemma RegularBut(defs: seq<EventDef>, a: Board, b: Board)
    requires b == a.(taken := b.taken)
    ensures Regular(defs, a) == Regular(defs, b)
  {
  }

  // ----- what a response leaves in the queue -----

  /** The queue lost nothing and gained only entries of one origin. */
  ghost predicate Grown(a: seq<Queued>, b: seq<Queued>, o: Origin) {
    && (forall q | q in a :: q in b)
    && (forall q | q in b :: q in a || q.from == o)
  }

  lemma {:induction false} InsertQueuedIs(queue: seq<Queued>, q: Queued)
    ensures forall p :: p in InsertQueued(queue, q) <==> p in queue || p == q
  {
    if queue != [] {
      var m := |queue| - 1;
      assert queue == queue[..m] + [queue[m]];
      InsertQueuedIs(queue[..m], q);
    }
  }

  lemma {:induction false} QueueGrows(queue: seq<Queued>, due: int, nested: seq<Effect>, n: nat, o: Origin)
    requires n <= |nested|
    ensures Grown(queue, QueueUpto(queue, due, nested, n, o), o)
  {
    hide InsertQueued;
    if n > 0 {
      QueueGrows(queue, due, nested, n - 1, o);
      InsertQueuedIs(QueueUpto(queue, due, nested, n - 1, o), Queued(due, n - 1, nested[n - 1], o));
    }
  }

  lemma {:induction false} EffectsGrow(defs: seq<EventDef>, b: Board, es: seq<Effect>, o: Origin)
    ensures Grown(b.queue, ExecuteAll(defs, b, es, o).queue, o)
  {
    if es != [] {
      var before, e := ExecuteAll(defs, b, es[..|es| - 1], o), es[|es| - 1];
      EffectsGrow(defs, b, es[..|es| - 1], o);
      if e.Schedule? {
        QueueGrows(before.queue, before.day + e.delay, e.nested, |e.nested|, o);
      }
    }
  }

  /** A response taken leaves queued nothing of the choices it calls off, other than what it queues itself, and
      calls off nothing else. */
  lemma ResponseCallsOff(defs: seq<EventDef>, b: Board, i: nat, r: Response, q: Queued)
    requires i < |b.events| && MayTake(defs, b, i, r)
    ensures q in Chosen(defs, b, i, r).queue && CalledOff(q, i, r.cancels) ==> q.from.choice == Some(r.id)
    ensures q in b.queue && !CalledOff(q, i, r.cancels) ==> q in Chosen(defs, b, i, r).queue
    ensures q in Chosen(defs, b, i, r).queue ==> q in b.queue || (q.from.instance == i && q.from.choice == Some(r.id))
  {
    hide ExecuteAll, Uncancelled;
    UncancelledIsPart(b.queue, i, r.cancels);
    var now := Marked(Cancelled(defs, b, i, r.cancels), i, r);
    EffectsGrow(defs, now, r.effects, Own(b.events[i], i).(choice := Some(r.id)));
  }

  // ----- whole runs -----

  datatype Act = Pass(t: Today) | Choice(i: nat, response: Response)

  function Played(defs: seq<EventDef>, b: Board, acts: seq<Act>): Board {
    if acts == [] then b
    else
      var now := Played(defs, b, acts[..|acts| - 1]);
      match acts[|acts| - 1]
      case Pass(t) => NextDay(defs, now, t)
      case Choice(i, r) => if i < |now.events| then Chosen(defs, now, i, r) else now
  }

  ghost predicate ActsOk(acts: seq<Act>) {
    forall k | 0 <= k < |acts| && acts[k].Choice? :: ValidEffects(acts[k].response.effects)
  }

  function Empty(day: int): Board {
    Board(day, [], map[], [], [], 0, false, {}, map[])
  }

  /** However a run goes, from an empty board: at most one decision opens on any day, two openings of one
      event on one world are at least its cooldown apart, no chain has two decisions with running deadlines on
      one world, and every running deadline and queued effect lies strictly in the future. */
  lemma {:induction false} EveryRunIsRegular(defs: seq<EventDef>, day: int, acts: seq<Act>)
    requires ValidDefs(defs) && ActsOk(acts)
    ensures var b := Played(defs, Empty(day), acts); Regular(defs, b) && Settled(b) && AllKnown(defs, b.events)
  {
    hide NextDay, Chosen, ValidDefs, ValidEffects, Spaced, OneADay, OneWindow, Tallied;
    if acts == [] {
      EmptyIsRegular(defs, day);
    } else {
      var before := acts[..|acts| - 1];
      var now := Played(defs, Empty(day), before);
      EveryRunIsRegular(defs, day, before);
      match acts[|acts| - 1] {
        case Pass(t) => NextDayKeeps(defs, now, t);
        case Choice(i, r) =>
          if i < |now.events| {
            ChosenKeeps(defs, now, i, r);
          }
      }
    }
  }

  lemma EmptyIsRegular(defs: seq<EventDef>, day: int)
    ensures Regular(defs, Empty(day)) && Settled(Empty(day)) && AllKnown(defs, Empty(day).events)
  {
  }

  /** A response once applied stays applied, so over any run no response is applied twice to one window. */
  lemma {:induction false} TakenStays(defs: seq<EventDef>, day: int, acts: seq<Act>, n: nat)
    requires ValidDefs(defs) && ActsOk(acts) && n <= |acts|
    ensures Played(defs, Empty(day), acts[..n]).taken <= Played(defs, Empty(day), acts).taken
  {
    hide NextDay, Chosen, ValidDefs, ValidEffects, Regular, Settled, AllKnown;
    if n < |acts| {
      var before := acts[..|acts| - 1];
      var now := Played(defs, Empty(day), before);
      TakenStays(defs, day, before, n);
      EveryRunIsRegular(defs, day, before);
      assert before[..n] == acts[..n];
      match acts[|acts| - 1] {
        case Pass(t) => NextDayKeeps(defs, now, t);
        case Choice(i, r) =>
          if i < |now.events| {
            ChosenKeeps(defs, now, i, r);
          }
      }
    } else {
      assert acts[..n] == acts;
    }
  }

  // ----- what a streak is -----

  /** A streak followed through a day's sightings of its site. */
  function Followed(n: nat, ss: seq<Sighting>, site: Site): nat {
    if ss == [] then n
    else
      var before, s := Followed(n, ss[..|ss| - 1], site), ss[|ss| - 1];
      if s.site != site then before else if s.holds then before + 1 else 0
  }

  /** For how many of the latest sightings of a site its condition has held without a break. */
  function Held(acts: seq<Act>, site: Site): nat {
    if acts == [] then 0
    else
      var before, a := Held(acts[..|acts| - 1], site), acts[|acts| - 1];
      if a.Pass? then Followed(before, a.t.sightings, site) else before
  }

  lemma {:induction false} TrackedIsFollowed(streaks: map<Site, nat>, ss: seq<Sighting>, site: Site)
    ensures Streak(Tracked(streaks, ss), site) == Followed(Streak(streaks, site), ss, site)
  {
    if ss != [] {
      TrackedIsFollowed(streaks, ss[..|ss| - 1], site);
    }
  }

  /** Over any run, choices and openings included, a site's streak is the unbroken run of days its condition has
      held. */
  lemma {:induction false} StreakIsHeld(defs: seq<EventDef>, day: int, acts: seq<Act>, site: Site)
    requires ValidDefs(defs) && ActsOk(acts)
    ensures Streak(Played(defs, Empty(day), acts).streaks, site) == Held(acts, site)
  {
    hide NextDay, Chosen, ValidDefs, ValidEffects, Regular, Settled, AllKnown, Tracked, Followed;
    if acts != [] {
      var before := acts[..|acts| - 1];
      var now := Played(defs, Empty(day), before);
      StreakIsHeld(defs, day, before, site);
      EveryRunIsRegular(defs, day, before);
      match acts[|acts| - 1] {
        case Pass(t) =>
          NextDayKeeps(defs, now, t);
          TrackedIsFollowed(now.streaks, t.sightings, site);
        case Choice(i, r) =>
          if i < |now.events| {
            ChosenKeeps(defs, now, i, r);
          }
      }
    }
  }

  /** What is found has held for as many days running as its event asks, today included, and may be asked for. */
  lemma {:induction false} FoundHasHeld(defs: seq<EventDef>, b: Board, ss: seq<Sighting>, c: Candidate)
    requires c in Found(defs, b, ss)
    ensures exists i: nat :: i < |ss| && ss[i].site == c.site && Triggered(defs, b, ss[i], c.streak)
                             && c.streak == Followed(Streak(b.streaks, c.site), ss[..i + 1], c.site)
  {
    hide Triggered, Tracked, Followed;
    var n := |ss| - 1;
    var s, streak := ss[n], Streak(Tracked(b.streaks, ss), ss[n].site);
    if c in Found(defs, b, ss[..n]) {
      FoundHasHeld(defs, b, ss[..n], c);
      var i: nat :| i < n && ss[..n][i].site == c.site && Triggered(defs, b, ss[..n][i], c.streak)
                    && c.streak == Followed(Streak(b.streaks, c.site), ss[..n][..i + 1], c.site);
      assert ss[..n][..i + 1] == ss[..i + 1] && ss[..n][i] == ss[i];
    } else {
      TrackedIsFollowed(b.streaks, ss, s.site);
      assert ss[..n + 1] == ss;
    }
  }

  // ----- the order candidates are asked for in -----

  ghost predicate RankedOk(defs: seq<EventDef>, cs: seq<Candidate>) {
    forall i, j | 0 <= i < j < |cs| :: NotLater(defs, cs[i], cs[j])
  }

  lemma NotLaterThen(defs: seq<EventDef>, a: Candidate, b: Candidate, c: Candidate)
    requires NotLater(defs, a, b) && NotLater(defs, b, c)
    ensures NotLater(defs, a, c)
  {
  }

  lemma NotLaterEither(defs: seq<EventDef>, a: Candidate, b: Candidate)
    ensures NotLater(defs, a, b) || NotLater(defs, b, a)
  {
  }

  lemma {:induction false} InsertedSame(defs: seq<EventDef>, cs: seq<Candidate>, c: Candidate)
    ensures multiset(InsertCandidate(defs, cs, c)) == multiset(cs) + multiset{c}
  {
    hide NotLater;
    if cs != [] {
      var n := |cs| - 1;
      assert cs == cs[..n] + [cs[n]];
      InsertedSame(defs, cs[..n], c);
    }
  }

  /** What is in no place later than x, and c is not either, stays so with c inserted. */
  lemma {:induction false} InsertedBefore(defs: seq<EventDef>, cs: seq<Candidate>, c: Candidate, x: Candidate)
    requires NotLater(defs, c, x) && forall i | 0 <= i < |cs| :: NotLater(defs, cs[i], x)
    ensures forall i | 0 <= i < |InsertCandidate(defs, cs, c)| :: NotLater(defs, InsertCandidate(defs, cs, c)[i], x)
  {
    hide NotLater;
    if cs != [] {
      InsertedBefore(defs, cs[..|cs| - 1], c, x);
    }
  }

  lemma {:induction false} InsertedRanks(defs: seq<EventDef>, cs: seq<Candidate>, c: Candidate)
    requires RankedOk(defs, cs)
    ensures RankedOk(defs, InsertCandidate(defs, cs, c))
  {
    hide NotLater;
    if cs != [] {
      var n := |cs| - 1;
      if NotLater(defs, cs[n], c) {
        forall i | 0 <= i < n ensures NotLater(defs, cs[i], c) {
          NotLaterThen(defs, cs[i], cs[n], c);
        }
      } else {
        NotLaterEither(defs, cs[n], c);
        InsertedRanks(defs, cs[..n], c);
        InsertedBefore(defs, cs[..n], c, cs[n]);
      }
    }
  }

  /** Candidates are asked for each once, by class, then longest streak, then identifiers. */
  lemma {:induction false} RankedIs(defs: seq<EventDef>, cs: seq<Candidate>)
    ensures RankedOk(defs, Ranked(defs, cs)) && multiset(Ranked(defs, cs)) == multiset(cs)
  {
    hide InsertCandidate, RankedOk;
    if cs != [] {
      var n := |cs| - 1;
      RankedIs(defs, cs[..n]);
      InsertedRanks(defs, Ranked(defs, cs[..n]), cs[n]);
      InsertedSame(defs, Ranked(defs, cs[..n]), cs[n]);
      assert cs == cs[..n] + [cs[n]];
    } else {
      assert RankedOk(defs, []) by {
        NothingRanks(defs);
      }
    }
  }

  lemma NothingRanks(defs: seq<EventDef>)
    ensures RankedOk(defs, [])
  {
  }
}
