/** Command application with duplicate detection, the journal of accepted commands, and its replay. */
module Replay {
  import opened Catalog
  import opened Hashes

  datatype Outcome<+Core> = Accepted(core: Core, note: string) | Rejected(note: string)

  /** The result kept for a command id. */
  datatype Recorded = Recorded(accepted: bool, revision: nat, note: string)

  /** Everything the canonical hash covers: what handlers and days act on, and the kernel's own records. */
  datatype Kept<+Core> = Kept(
    core: Core,
    revision: nat,
    sequence: nat,
    applied: map<string, Recorded>,
    hashes: seq<int>,
    firstRetained: nat,
    digest: int)

  /** The handlers, the day and the hash, which this part of the kernel only calls. */
  datatype Kernel<!Core, !Cmd> = Kernel(
    handle: (Core, Cmd) -> Outcome<Core>,
    day: Core -> Core,
    running: Core -> bool,
    surrenders: Cmd -> bool,
    id: Cmd -> string,
    hash: Kept<Core> -> int,
    fold: (int, int) -> int)

  datatype Reply = Reply(accepted: bool, replayed: bool, revision: nat)

  predicate Refused<Core, Cmd>(k: Kernel<Core, Cmd>, st: Kept<Core>, c: Cmd, expected: Option<nat>) {
    || (expected.Some? && expected.value != st.revision)
    || (!k.running(st.core) && !k.surrenders(c))
  }

  predicate Duplicate<Core, Cmd>(k: Kernel<Core, Cmd>, st: Kept<Core>, c: Cmd) {
    k.id(c) != "" && k.id(c) in st.applied
  }

  function Noted<Core, Cmd>(k: Kernel<Core, Cmd>, st: Kept<Core>, c: Cmd, r: Recorded): map<string, Recorded> {
    if k.id(c) == "" then st.applied else st.applied[k.id(c) := r]
  }

  /** The state after a command, whatever becomes of it. */
  function After<Core, Cmd>(k: Kernel<Core, Cmd>, st: Kept<Core>, c: Cmd, expected: Option<nat>): Kept<Core> {
    if Duplicate(k, st, c) || Refused(k, st, c, expected) then st
    else match k.handle(st.core, c)
      case Rejected(note) => st.(applied := Noted(k, st, c, Recorded(false, st.revision, note)))
      case Accepted(core, note) =>
        st.(core := core, revision := st.revision + 1, sequence := st.sequence + 1,
            applied := Noted(k, st, c, Recorded(true, st.revision + 1, note)))
  }

  function ReplyTo<Core, Cmd>(k: Kernel<Core, Cmd>, st: Kept<Core>, c: Cmd, expected: Option<nat>): Reply {
    if Duplicate(k, st, c) then Reply(st.applied[k.id(c)].accepted, true, st.applied[k.id(c)].revision)
    else if Refused(k, st, c, expected) then Reply(false, false, st.revision)
    else match k.handle(st.core, c)
      case Rejected(_) => Reply(false, false, st.revision)
      case Accepted(_, _) => Reply(true, false, st.revision + 1)
  }

  /** What becomes of a command: one applied before gets its recorded answer again; one meant for another revision, or
      for a session that has ended unless it surrenders, is refused without a trace; any other is up to its handler, and
      an accepted one is the next in revision and sequence. */
  lemma CommandsAreAnswered<Core, Cmd>(k: Kernel<Core, Cmd>, st: Kept<Core>, c: Cmd, expected: Option<nat>)
    ensures var r, now := ReplyTo(k, st, c, expected), After(k, st, c, expected);
            if k.id(c) != "" && k.id(c) in st.applied then
              now == st && r.replayed && r.accepted == st.applied[k.id(c)].accepted
              && r.revision == st.applied[k.id(c)].revision
            else if (expected.Some? && expected.value != st.revision) || (!k.running(st.core) && !k.surrenders(c)) then
              now == st && !r.accepted && !r.replayed && r.revision == st.revision
            else
              && !r.replayed && r.accepted == k.handle(st.core, c).Accepted?
              && now.core == (if r.accepted then k.handle(st.core, c).core else st.core)
              && now.revision == r.revision == st.revision + (if r.accepted then 1 else 0)
              && now.sequence == st.sequence + (if r.accepted then 1 else 0)
              && (k.id(c) == "" ==> now.applied == st.applied)
              && (k.id(c) != "" ==> now.applied == st.applied[k.id(c) := now.applied[k.id(c)]]
                                    && now.applied[k.id(c)].accepted == r.accepted
                                    && now.applied[k.id(c)].revision == r.revision)
              && now.hashes == st.hashes && now.firstRetained == st.firstRetained && now.digest == st.digest
  {
  }

  /** A day of a running session, hashed before its own hash joins the records. */
  function NextDay<Core, Cmd>(k: Kernel<Core, Cmd>, st: Kept<Core>): Kept<Core> {
    if !k.running(st.core) then st
    else
      var now := st.(core := k.day(st.core));
      var h := k.hash(now);
      var all := now.hashes + [h];
      now.(hashes := Capped(all), digest := k.fold(now.digest, h),
          firstRetained := now.firstRetained + |all| - |Capped(all)|)
  }

  // ----- what a player does, and what is journaled of it -----

  datatype Act<+Cmd> = Issue(c: Cmd, expected: Option<nat>) | Step
  datatype Entry<+Cmd> = Command(c: Cmd, sequence: nat) | Day(sequence: nat)

  /** Whether the act leaves an entry: an accepted command that is no repeat, or a day that passed. */
  predicate Journaled<Core, Cmd>(k: Kernel<Core, Cmd>, st: Kept<Core>, a: Act<Cmd>) {
    match a
    case Issue(c, expected) => var r := ReplyTo(k, st, c, expected); r.accepted && !r.replayed
    case Step => k.running(st.core)
  }

  function Played<Core, Cmd>(k: Kernel<Core, Cmd>, st: Kept<Core>, a: Act<Cmd>): Kept<Core> {
    match a
    case Issue(c, expected) => After(k, st, c, expected)
    case Step => NextDay(k, st)
  }

  function EntryFor<Core, Cmd>(k: Kernel<Core, Cmd>, st: Kept<Core>, a: Act<Cmd>): Entry<Cmd> {
    match a
    case Issue(c, expected) => Command(c, After(k, st, c, expected).sequence)
    case Step => Day(st.sequence)
  }

  function Playing<Core, Cmd>(k: Kernel<Core, Cmd>, st: Kept<Core>, acts: seq<Act<Cmd>>): Kept<Core> {
    if acts == [] then st else Played(k, Playing(k, st, acts[..|acts| - 1]), acts[|acts| - 1])
  }

  function JournalOf<Core, Cmd>(k: Kernel<Core, Cmd>, st: Kept<Core>, acts: seq<Act<Cmd>>): seq<Entry<Cmd>> {
    if acts == [] then []
    else
      var before := acts[..|acts| - 1];
      var now, a := Playing(k, st, before), acts[|acts| - 1];
      JournalOf(k, st, before) + (if Journaled(k, now, a) then [EntryFor(k, now, a)] else [])
  }

  /** One journal entry played again, with no revision expected. */
  function Redone<Core, Cmd>(k: Kernel<Core, Cmd>, st: Kept<Core>, e: Entry<Cmd>): Kept<Core> {
    if e.Command? then After(k, st, e.c, None) else NextDay(k, st)
  }

  function Replayed<Core, Cmd>(k: Kernel<Core, Cmd>, st: Kept<Core>, entries: seq<Entry<Cmd>>): Kept<Core> {
    if entries == [] then st else Redone(k, Replayed(k, st, entries[..|entries| - 1]), entries[|entries| - 1])
  }

  /** A handler turned down a command that carries an id: remembered in the state, but not journaled. */
  predicate Snubbed<Core, Cmd>(k: Kernel<Core, Cmd>, st: Kept<Core>, a: Act<Cmd>) {
    a.Issue? && k.id(a.c) != "" && !Duplicate(k, st, a.c) && !Refused(k, st, a.c, a.expected)
        && k.handle(st.core, a.c).Rejected?
  }

  predicate AnySnub<Core, Cmd>(k: Kernel<Core, Cmd>, st: Kept<Core>, acts: seq<Act<Cmd>>) {
    acts != [] && (AnySnub(k, st, acts[..|acts| - 1])
        || Snubbed(k, Playing(k, st, acts[..|acts| - 1]), acts[|acts| - 1]))
  }

  // ----- the simulation -----

  /** The replayed state agrees with the recorded one on everything play depends on, and remembers the
      accepted commands only. */
  ghost predicate Follows<Core(!new), Cmd(!new)>(played: Kept<Core>, replayed: Kept<Core>) {
    && replayed.core == played.core && replayed.revision == played.revision && replayed.sequence == played.sequence
    && |replayed.hashes| == |played.hashes| && replayed.firstRetained == played.firstRetained
    && (forall id | id in played.applied && played.applied[id].accepted :: id in replayed.applied)
    && (forall id | id in replayed.applied ::
        id in played.applied && replayed.applied[id] == played.applied[id] && replayed.applied[id].accepted)
  }

  lemma PlayedFollows<Core(!new), Cmd(!new)>(k: Kernel<Core, Cmd>, played: Kept<Core>, replayed: Kept<Core>,
                           a: Act<Cmd>)
    requires Follows<Core, Cmd>(played, replayed)
    ensures !Journaled(k, played, a) ==> Follows<Core, Cmd>(Played(k, played, a), replayed)
    ensures Journaled(k, played, a) ==>
              Follows<Core, Cmd>(Played(k, played, a), if a.Issue? then After(k, replayed, a.c, None)
                  else NextDay(k, replayed))
    ensures Journaled(k, played, a) && a.Issue? ==>
            ReplyTo(k, replayed, a.c, None) == ReplyTo(k, played, a.c, a.expected)
  {
  }

  lemma ReplayedThen<Core, Cmd>(k: Kernel<Core, Cmd>, st: Kept<Core>, entries: seq<Entry<Cmd>>, e: Entry<Cmd>)
    ensures Replayed(k, st, entries + [e]) == Redone(k, Replayed(k, st, entries), e)
  {
    assert (entries + [e])[..|entries|] == entries;
  }

  /** A session nothing has been asked of yet. */
  predicate Unused<Core>(st: Kept<Core>) {
    st.applied == map[]
  }

  /** Replaying the accepted journal of any play from a fresh session follows that play: at every point
      the handlers' state, revision, sequence and calendar of hashes are the recorded ones. */
  lemma {:induction false} ReplayFollows<Core(!new),
      Cmd(!new)>(k: Kernel<Core, Cmd>, st: Kept<Core>, acts: seq<Act<Cmd>>)
    requires Unused(st)
    ensures Follows<Core, Cmd>(Playing(k, st, acts), Replayed(k, st, JournalOf(k, st, acts)))
  {
    if acts != [] {
      var before, a := acts[..|acts| - 1], acts[|acts| - 1];
      var now := Playing(k, st, before);
      var entries := JournalOf(k, st, before);
      ReplayFollows(k, st, before);
      PlayedFollows(k, now, Replayed(k, st, entries), a);
      if Journaled(k, now, a) {
        ReplayedThen(k, st, entries, EntryFor(k, now, a));
      } else {
        assert entries + [] == entries;
      }
    }
  }

  lemma SnubIsRemembered<Core(!new), Cmd(!new)>(k: Kernel<Core, Cmd>, st: Kept<Core>, a: Act<Cmd>)
    ensures Snubbed(k, st, a) ==> k.id(a.c) in Played(k, st, a).applied && !Played(k, st, a).applied[k.id(a.c)].accepted
    ensures forall id | id in st.applied ::
            id in Played(k, st, a).applied && Played(k, st, a).applied[id] == st.applied[id]
  {
  }

  /** A remembered rejection is never forgotten, so some id stays rejected. */
  lemma {:induction false} SnubsStay<Core(!new), Cmd(!new)>(k: Kernel<Core, Cmd>, st: Kept<Core>, acts: seq<Act<Cmd>>)
    requires AnySnub(k, st, acts)
    ensures exists id :: id in Playing(k, st, acts).applied && !Playing(k, st, acts).applied[id].accepted
  {
    var before, a := acts[..|acts| - 1], acts[|acts| - 1];
    var now := Playing(k, st, before);
    SnubIsRemembered(k, now, a);
    if Snubbed(k, now, a) {
      assert k.id(a.c) in Playing(k, st, acts).applied;
    } else {
      SnubsStay(k, st, before);
      var id :| id in now.applied && !now.applied[id].accepted;
      assert id in Playing(k, st, acts).applied;
    }
  }

  lemma SameUnlessSnubbed<Core(!new), Cmd(!new)>(k: Kernel<Core, Cmd>, st: Kept<Core>, a: Act<Cmd>)
    requires !Snubbed(k, st, a)
    ensures !Journaled(k, st, a) ==> Played(k, st, a) == st
    ensures Journaled(k, st, a) && a.Issue? ==> Played(k, st, a) == After(k, st, a.c, None)
  {
  }

  /** Replay reaches the recorded state exactly, hashes and digest included, when and only when no
      command with an id was turned down by its handler. */
  lemma {:induction false} ReplayIsExact<Core(!new),
      Cmd(!new)>(k: Kernel<Core, Cmd>, st: Kept<Core>, acts: seq<Act<Cmd>>)
    requires Unused(st)
    ensures Replayed(k, st, JournalOf(k, st, acts)) == Playing(k, st, acts) <==> !AnySnub(k, st, acts)
  {
    if AnySnub(k, st, acts) {
      SnubsStay(k, st, acts);
      ReplayFollows(k, st, acts);
    } else if acts != [] {
      var before, a := acts[..|acts| - 1], acts[|acts| - 1];
      var now := Playing(k, st, before);
      var entries := JournalOf(k, st, before);
      ReplayIsExact(k, st, before);
      SameUnlessSnubbed(k, now, a);
      if Journaled(k, now, a) {
        ReplayedThen(k, st, entries, EntryFor(k, now, a));
      } else {
        assert entries + [] == entries;
      }
    }
  }

  function RefuseAll(): Kernel<int, int> {
    Kernel((s: int, c: int) => Rejected("no"), (s: int) => s, (s: int) => true, (c: int) => false, (c: int) => "a",
        (st: Kept<int>) => 0, (d: int, h: int) => d)
  }

  /** A kernel that turns everything down, asked once under an id: the record remembers the rejection, the
      journal is empty, and replaying it remembers nothing. */
  lemma ARejectionIsNotReplayed()
    ensures var k := RefuseAll();
            var st, acts := Kept(0, 0, 0, map[], [], 0, 0), [Issue(7, None)];
            && Unused(st) && AnySnub(k, st, acts) && JournalOf(k, st, acts) == []
                && Playing(k, st, acts).applied.Keys == {"a"}
            && Replayed(k, st, JournalOf(k, st, acts)) != Playing(k, st, acts)
  {
    var k := RefuseAll();
    var st, acts := Kept(0, 0, 0, map[], [], 0, 0), [Issue(7, None)];
    assert acts[..|acts| - 1] == [];
    assert Playing(k, st, []) == st;
  }

  // ----- a repeat changes nothing -----

  /** Issuing a command with an id again, any time later, returns its recorded result and changes nothing. */
  lemma RepeatIsIdle<Core(!new), Cmd(!new)>(k: Kernel<Core, Cmd>, st: Kept<Core>, c: Cmd, expected: Option<nat>,
                          acts: seq<Act<Cmd>>, again: Option<nat>)
    requires k.id(c) != "" && !Duplicate(k, st, c) && !Refused(k, st, c, expected)
    ensures var later := Playing(k, After(k, st, c, expected), acts);
            After(k, later, c, again) == later
            && ReplyTo(k, later, c, again) == Reply(ReplyTo(k, st, c, expected).accepted, true,
                ReplyTo(k, st, c, expected).revision)
  {
    RecordsStay(k, After(k, st, c, expected), acts, k.id(c));
  }

  lemma {:induction false} RecordsStay<Core(!new), Cmd(!new)>(k: Kernel<Core, Cmd>, st: Kept<Core>, acts: seq<Act<Cmd>>,
      id: string)
    requires id in st.applied
    ensures id in Playing(k, st, acts).applied && Playing(k, st, acts).applied[id] == st.applied[id]
  {
    if acts != [] {
      RecordsStay(k, st, acts[..|acts| - 1], id);
      SnubIsRemembered(k, Playing(k, st, acts[..|acts| - 1]), acts[|acts| - 1]);
    }
  }

  // ----- the machines -----

  class Live<!Core(!new), !Cmd(!new)> {
    const k: Kernel<Core, Cmd>
    var st: Kept<Core>

    constructor (k: Kernel<Core, Cmd>, st: Kept<Core>)
      ensures this.k == k && this.st == st
    {
      this.k := k;
      this.st := st;
    }

    /** Applies a command to a copy of the state and keeps it only when the handler accepts. */
    method ApplyCommand(c: Cmd, expected: Option<nat>) returns (r: Reply)
      modifies this
      ensures st == After(k, old(st), c, expected) && r == ReplyTo(k, old(st), c, expected)
    {
      if k.id(c) != "" && k.id(c) in st.applied {
        var before := st.applied[k.id(c)];
        return Reply(before.accepted, true, before.revision);
      }
      if expected.Some? && expected.value != st.revision {
        return Reply(false, false, st.revision);
      }
      if !k.running(st.core) && !k.surrenders(c) {
        return Reply(false, false, st.revision);
      }
      var rec;
      match k.handle(st.core, c) {
        case Rejected(note) =>
          rec := Recorded(false, st.revision, note);
        case Accepted(core, note) =>
          st := st.(core := core, revision := st.revision + 1, sequence := st.sequence + 1);
          rec := Recorded(true, st.revision, note);
      }
      if k.id(c) != "" {
        st := st.(applied := st.applied[k.id(c) := rec]);
      }
      r := Reply(rec.accepted, false, rec.revision);
    }

    method StepDay() returns (advanced: bool)
      modifies this
      ensures st == NextDay(k, old(st)) && advanced == k.running(old(st).core)
    {
      if !k.running(st.core) {
        return false;
      }
      st := st.(core := k.day(st.core));
      var h := k.hash(st);
      var kept, first := Trim(st.hashes + [h], st.firstRetained);
      st := st.(digest := k.fold(st.digest, h), hashes := kept, firstRetained := first);
      advanced := true;
    }
  }

  /** Plays acts on a live session and journals what was accepted. */
  method Record<Core(!new), Cmd(!new)>(s: Live<Core, Cmd>, acts: seq<Act<Cmd>>) returns (journal: seq<Entry<Cmd>>)
    modifies s
    ensures s.st == Playing(s.k, old(s.st), acts) && journal == JournalOf(s.k, old(s.st), acts)
  {
    journal := [];
    ghost var start := s.st;
    for i := 0 to |acts|
      invariant s.st == Playing(s.k, start, acts[..i]) && journal == JournalOf(s.k, start, acts[..i])
    {
      assert acts[..i + 1][..i] == acts[..i];
      match acts[i] {
        case Issue(c, expected) =>
          var r := s.ApplyCommand(c, expected);
          if r.accepted && !r.replayed {
            journal := journal + [Command(c, s.st.sequence)];
          }
        case Step =>
          var advanced := s.StepDay();
          if advanced {
            journal := journal + [Day(s.st.sequence)];
          }
      }
    }
    assert acts[..|acts|] == acts;
  }

  /** Drives a fresh session through a journal. */
  method ReplayJournal<Core(!new), Cmd(!new)>(k: Kernel<Core, Cmd>, st: Kept<Core>, entries: seq<Entry<Cmd>>)
                            returns (s: Live<Core, Cmd>, refused: nat)
    ensures s.st == Replayed(k, st, entries) && s.k == k
    ensures refused == Refusals(k, st, entries)
  {
    s := new Live(k, st);
    refused := 0;
    for i := 0 to |entries|
      invariant s.k == k && s.st == Replayed(k, st, entries[..i]) && refused == Refusals(k, st, entries[..i])
    {
      assert entries[..i + 1][..i] == entries[..i];
      match entries[i] {
        case Command(c, _) =>
          var r := s.ApplyCommand(c, None);
          if !r.accepted {
            refused := refused + 1;
          }
        case Day(_) =>
          var advanced := s.StepDay();
      }
    }
    assert entries[..|entries|] == entries;
  }

  /** How many journaled commands a replay turns down. */
  function Refusals<Core, Cmd>(k: Kernel<Core, Cmd>, st: Kept<Core>, entries: seq<Entry<Cmd>>): nat {
    if entries == [] then 0
    else
      var before, e := entries[..|entries| - 1], entries[|entries| - 1];
      Refusals(k, st, before) + (if e.Command? && !ReplyTo(k, Replayed(k, st, before), e.c, None).accepted then 1
          else 0)
  }

  lemma RefusalsThen<Core, Cmd>(k: Kernel<Core, Cmd>, st: Kept<Core>, entries: seq<Entry<Cmd>>, e: Entry<Cmd>)
    ensures Refusals(k, st, entries + [e]) ==
              Refusals(k, st, entries) + (if e.Command?
                  && !ReplyTo(k, Replayed(k, st, entries), e.c, None).accepted then 1 else 0)
  {
    assert (entries + [e])[..|entries|] == entries;
  }

  /** No journaled command is ever turned down by its replay. */
  lemma {:induction false} ReplayAcceptsAll<Core(!new),
      Cmd(!new)>(k: Kernel<Core, Cmd>, st: Kept<Core>, acts: seq<Act<Cmd>>)
    requires Unused(st)
    ensures Refusals(k, st, JournalOf(k, st, acts)) == 0
  {
    if acts != [] {
      var before, a := acts[..|acts| - 1], acts[|acts| - 1];
      var now := Playing(k, st, before);
      var entries := JournalOf(k, st, before);
      ReplayAcceptsAll(k, st, before);
      ReplayFollows(k, st, before);
      PlayedFollows(k, now, Replayed(k, st, entries), a);
      if Journaled(k, now, a) {
        RefusalsThen(k, st, entries, EntryFor(k, now, a));
      } else {
        assert entries + [] == entries;
      }
    }
  }
}
