/** The journal and its replay over the session itself: what a recorded run and its replay have to do with the
    runs of `Runs`. */
module SessionReplay {
  import opened Catalog
  import opened State
  import opened Day
  import opened Commands
  import opened Runs
  import opened Replay

  /** The world, and what this model takes as given from the rest of the state: it decides each day's inputs. */
  datatype Whole<+Rest> = Whole(world: World, rest: Rest)

  /** The handlers accept exactly what is allowed and then take that transition, and a day that can resolve takes
      the day's. Of a day that cannot, where the kernel throws part-way, nothing is asked. */
  ghost predicate Serves<Rest(!new)>(k: Kernel<Whole<Rest>, Command>, cat: Catalog, inputs: Whole<Rest> -> DayInputs,
                              planets: nat) {
    && (forall s: Whole<Rest>, c | CommandOk(cat, c, planets) && Inv(cat, s.world) && |s.world.planets| == planets ::
          if CommandAllowed(cat, s.world, c)
          then k.handle(s, c).Accepted? && CommandStep(cat, s.world, k.handle(s, c).core.world, c)
          else k.handle(s, c).Rejected?)
    && (forall s: Whole<Rest> | Inv(cat, s.world) && |s.world.planets| == planets ::
          && ValidInputs(cat, inputs(s), planets)
          && (Resolvable(cat, s.world, inputs(s)) ==> DayStep(cat, s.world, k.day(s).world, inputs(s))))
  }

  ghost predicate Resolvable(cat: Catalog, w: World, x: DayInputs) {
    exists w' :: DayStep(cat, w, w', x)
  }

  /** The session as such a kernel: the transitions the model's methods take, the rest of the state set aside. What
      it does on a day that cannot resolve is arbitrary. */
  ghost function KernelOf<Rest(!new)>(cat: Catalog, inputs: Whole<Rest> -> DayInputs): Kernel<Whole<Rest>, Command> {
    Kernel((s, c) => Handled(cat, s, c), s => Passed(cat, s, inputs(s)), s => true, c => false, c => "", kept => 0,
        (a, b) => 0)
  }

  ghost function Handled<Rest>(cat: Catalog, s: Whole<Rest>, c: Command): Outcome<Whole<Rest>> {
    if CommandAllowed(cat, s.world, c) && exists w' :: CommandStep(cat, s.world, w', c) then
      var w' :| CommandStep(cat, s.world, w', c);
      Accepted(s.(world := w'), "")
    else Rejected("")
  }

  ghost function Passed<Rest>(cat: Catalog, s: Whole<Rest>, x: DayInputs): Whole<Rest> {
    if exists w' :: DayStep(cat, s.world, w', x) then
      var w' :| DayStep(cat, s.world, w', x);
      s.(world := w')
    else s
  }

  lemma TheSessionServes<Rest(!new)>(cat: Catalog, inputs: Whole<Rest> -> DayInputs, planets: nat)
    requires forall s :: ValidInputs(cat, inputs(s), planets)
    ensures Serves(KernelOf(cat, inputs), cat, inputs, planets)
  {
    hide Inv, DayStep, CommandStep, CommandAllowed, ValidInputs, CommandOk;
    var k := KernelOf(cat, inputs);
    forall s: Whole<Rest>, c | CommandOk(cat, c, planets) && Inv(cat, s.world) && |s.world.planets| == planets
      ensures if CommandAllowed(cat, s.world, c)
              then k.handle(s, c).Accepted? && CommandStep(cat, s.world, k.handle(s, c).core.world, c)
              else k.handle(s, c).Rejected?
    {
      CommandResolvesExactly(cat, s.world, c);
    }
  }

  ghost predicate Sensible(cat: Catalog, a: Act<Command>, planets: nat) {
    a.Issue? ==> CommandOk(cat, a.c, planets)
  }

  /** The act is no day, or a day that resolves: play goes on after it. */
  ghost predicate Survives<Rest(!new)>(k: Kernel<Whole<Rest>, Command>, cat: Catalog, inputs: Whole<Rest> -> DayInputs,
                                s: Whole<Rest>, a: Act<Command>) {
    a.Step? && k.running(s) ==> Resolvable(cat, s.world, inputs(s))
  }

  /** What a session plays: its acts up to the first day that does not resolve, where the error ends it. */
  ghost function PlayedOut<Rest(!new)>(
    k: Kernel<Whole<Rest>, Command>, cat: Catalog, inputs: Whole<Rest> -> DayInputs, st: Kept<Whole<Rest>>,
        acts: seq<Act<Command>>): seq<Act<Command>>
  {
    if acts == [] then []
    else
      var before, a := acts[..|acts| - 1], acts[|acts| - 1];
      var done := PlayedOut(k, cat, inputs, st, before);
      if done == before && Survives(k, cat, inputs, Playing(k, st, before).core, a) then acts else done
  }

  /** What one act did to the session: at most one operation of a run. */
  ghost predicate Moves(cat: Catalog, w: World, w': World) {
    w' == w || exists op :: OpStep(cat, w, w', op)
  }

  lemma PlayedMoves<Rest(!new)>(k: Kernel<Whole<Rest>, Command>, cat: Catalog, inputs: Whole<Rest> -> DayInputs,
                         st: Kept<Whole<Rest>>, a: Act<Command>)
    requires Serves(k, cat, inputs, |st.core.world.planets|) && Sensible(cat, a, |st.core.world.planets|)
    requires Inv(cat, st.core.world) && Survives(k, cat, inputs, st.core, a)
    ensures Moves(cat, st.core.world, Played(k, st, a).core.world)
  {
    hide Inv, DayStep, CommandStep, CommandAllowed, ValidInputs, CommandOk;
    var w, w' := st.core.world, Played(k, st, a).core.world;
    if w' != w {
      match a {
        case Issue(c, _) => assert OpStep(cat, w, w', Order(c));
        case Step => assert OpStep(cat, w, w', Today(inputs(st.core)));
      }
    }
  }

  /** However a session is played, duplicates, stale revisions and rejections included, up to the first day that
      does not resolve: its world is one a run leads to and satisfies every invariant, and replaying what was
      journaled until then leads to that same state. A day that throws leaves no entry. */
  lemma {:induction false} RecordedIsARun<Rest(!new)>(
    k: Kernel<Whole<Rest>, Command>, cat: Catalog, inputs: Whole<Rest> -> DayInputs, st: Kept<Whole<Rest>>,
        acts: seq<Act<Command>>)
    requires Serves(k, cat, inputs, |st.core.world.planets|) && Inv(cat, st.core.world) && 0 <= st.core.world.day
    requires st.applied == map[] && forall i | 0 <= i < |acts| :: Sensible(cat, acts[i], |st.core.world.planets|)
    ensures var done := PlayedOut(k, cat, inputs, st, acts);
            var end := Playing(k, st, done).core;
            && Replayed(k, st, JournalOf(k, st, done)).core == end
            && Inv(cat, end.world) && exists ops :: Run(cat, st.core.world, end.world, ops)
  {
    hide Inv, Serves, Sensible, Played, Run, PlayedOut;
    ReplayFollows(k, st, PlayedOut(k, cat, inputs, st, acts));
    var _ := RunPlayed(k, cat, inputs, st, acts);
  }

  /** Play stops at the first day that does not resolve, and nowhere else. */
  lemma {:induction false} PlayedOutIs<Rest(!new)>(
    k: Kernel<Whole<Rest>, Command>, cat: Catalog, inputs: Whole<Rest> -> DayInputs, st: Kept<Whole<Rest>>,
        acts: seq<Act<Command>>)
    ensures var n := |PlayedOut(k, cat, inputs, st, acts)|;
            && n <= |acts| && PlayedOut(k, cat, inputs, st, acts) == acts[..n]
            && (forall i | 0 <= i < n :: Survives(k, cat, inputs, Playing(k, st, acts[..i]).core, acts[i]))
            && (n < |acts| ==> !Survives(k, cat, inputs, Playing(k, st, acts[..n]).core, acts[n]))
  {
    hide Survives, Playing;
    if acts != [] {
      var before := acts[..|acts| - 1];
      PlayedOutIs(k, cat, inputs, st, before);
      forall i | 0 <= i <= |before| ensures before[..i] == acts[..i] {
      }
    }
  }

  lemma {:induction false} RunPlayed<Rest(!new)>(
    k: Kernel<Whole<Rest>, Command>, cat: Catalog, inputs: Whole<Rest> -> DayInputs, st: Kept<Whole<Rest>>,
        acts: seq<Act<Command>>)
    returns (ops: seq<Op>)
    requires Serves(k, cat, inputs, |st.core.world.planets|) && Inv(cat, st.core.world) && 0 <= st.core.world.day
    requires forall i | 0 <= i < |acts| :: Sensible(cat, acts[i], |st.core.world.planets|)
    ensures var w := Playing(k, st, PlayedOut(k, cat, inputs, st, acts)).core.world;
            Run(cat, st.core.world, w, ops) && Inv(cat, w) && |w.planets| == |st.core.world.planets|
  {
    hide Inv, Serves, Sensible, Played, OpStep, Survives;
    var start := st.core.world;
    ops := [];
    if acts != [] {
      var before, a := acts[..|acts| - 1], acts[|acts| - 1];
      ops := RunPlayed(k, cat, inputs, st, before);
      PlayedOutIs(k, cat, inputs, st, before);
      var now := Playing(k, st, before);
      if PlayedOut(k, cat, inputs, st, acts) != acts {
        return;
      }
      PlayedMoves(k, cat, inputs, now, a);
      var w' := Played(k, now, a).core.world;
      if w' != now.core.world {
        var op :| OpStep(cat, now.core.world, w', op);
        var longer := ops + [op];
        assert longer[..|longer| - 1] == ops;
        assert RunThen(cat, start, w', ops, op);
        assert Run(cat, start, w', longer);
        RunIsSound(cat, start, w', longer);
        SameWidths(cat, start, w');
        ops := longer;
      }
    }
  }
}
