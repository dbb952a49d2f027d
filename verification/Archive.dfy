/** The bounded history: daily samples compacted into weekly minima, day hashes, and their digests. */
module Archive {
  import opened Units
  import opened Hashes

  datatype Sample = Sample(day: int, planet: nat, health: int, stability: int, food: int, water: int)
  datatype Week = Week(planet: nat, first: int, last: int, health: int, stability: int, food: int, water: int)

  const WEEKS_KEPT := 520

  /** The fixed week a day belongs to; Euclidean division floors here as the kernel's does. */
  function WeekOf(day: int): int {
    day / 7
  }

  predicate SameWeek(w: Week, s: Sample) {
    w.planet == s.planet && WeekOf(w.first) == WeekOf(s.day)
  }

  /** A bucket spans seven days from a multiple of seven, of one world. */
  lemma SameWeekIs(w: Week, s: Sample)
    ensures SameWeek(w, s)
            <==> w.planet == s.planet && exists k: int :: 7 * k <= w.first < 7 * k + 7 && 7 * k <= s.day < 7 * k + 7
  {
    if SameWeek(w, s) {
      var k := w.first / 7;
      assert 7 * k <= w.first < 7 * k + 7 && 7 * k <= s.day < 7 * k + 7;
    }
  }

  function Opened(s: Sample): Week {
    Week(s.planet, s.day, s.day, s.health, s.stability, s.food, s.water)
  }

  function Extended(w: Week, s: Sample): Week {
    w.(last := Max(w.last, s.day), health := Min(w.health, s.health), stability := Min(w.stability, s.stability),
       food := Min(w.food, s.food), water := Min(w.water, s.water))
  }

  /** Where a sample's week is kept, or the length when it has none yet. */
  function Find(weeks: seq<Week>, s: Sample): nat {
    if weeks == [] || SameWeek(weeks[0], s) then 0 else 1 + Find(weeks[1..], s)
  }

  lemma {:induction false} FindIsFirst(weeks: seq<Week>, s: Sample)
    ensures Find(weeks, s) <= |weeks| && (Find(weeks, s) < |weeks| ==> SameWeek(weeks[Find(weeks, s)], s))
    ensures forall i | 0 <= i < Find(weeks, s) :: !SameWeek(weeks[i], s)
  {
    if weeks != [] && !SameWeek(weeks[0], s) {
      FindIsFirst(weeks[1..], s);
      assert forall i | 1 <= i < |weeks| :: weeks[i] == weeks[1..][i - 1];
    }
  }

  /** A sample joins its week's bucket, or opens one. */
  function Merged(weeks: seq<Week>, s: Sample): seq<Week> {
    FindIsFirst(weeks, s);
    var i := Find(weeks, s);
    if i < |weeks| then weeks[i := Extended(weeks[i], s)] else weeks + [Opened(s)]
  }

  /** The weekly record of every sample ever compacted, were none of it ever pruned. */
  function Weeks(dropped: seq<Sample>): seq<Week> {
    if dropped == [] then [] else Merged(Weeks(dropped[..|dropped| - 1]), dropped[|dropped| - 1])
  }

  predicate DaysAscend(samples: seq<Sample>) {
    forall i, j | 0 <= i < j < |samples| :: samples[i].day <= samples[j].day
  }

  ghost predicate PlanetsBelow(samples: seq<Sample>, planets: nat) {
    forall i | 0 <= i < |samples| :: samples[i].planet < planets
  }

  /** The bucket has exactly the span and the minima of the compacted samples of its world and week. */
  ghost predicate Exact(w: Week, dropped: seq<Sample>) {
    && (forall i | 0 <= i < |dropped| && SameWeek(w, dropped[i]) ::
          && w.first <= dropped[i].day <= w.last
          && w.health <= dropped[i].health && w.stability <= dropped[i].stability && w.food <= dropped[i].food
              && w.water <= dropped[i].water)
    && (exists i :: 0 <= i < |dropped| && SameWeek(w, dropped[i]) && dropped[i].day == w.first)
    && (exists i :: 0 <= i < |dropped| && SameWeek(w, dropped[i]) && dropped[i].day == w.last)
    && (exists i :: 0 <= i < |dropped| && SameWeek(w, dropped[i]) && dropped[i].health == w.health)
    && (exists i :: 0 <= i < |dropped| && SameWeek(w, dropped[i]) && dropped[i].stability == w.stability)
    && (exists i :: 0 <= i < |dropped| && SameWeek(w, dropped[i]) && dropped[i].food == w.food)
    && (exists i :: 0 <= i < |dropped| && SameWeek(w, dropped[i]) && dropped[i].water == w.water)
  }

  /** Buckets are in week order, one for each world and week, each exact; none is missing. */
  ghost predicate Complete(weeks: seq<Week>, dropped: seq<Sample>) {
    && (forall i | 0 <= i < |weeks| :: Exact(weeks[i], dropped))
    && (forall i, j | 0 <= i < j < |weeks| ::
          WeekOf(weeks[i].first) <= WeekOf(weeks[j].first)
              && !(weeks[i].planet == weeks[j].planet && WeekOf(weeks[i].first) == WeekOf(weeks[j].first)))
    && (forall k | 0 <= k < |dropped| :: Find(weeks, dropped[k]) < |weeks|)
  }

  lemma ExtendedIsExact(w: Week, dropped: seq<Sample>, s: Sample)
    requires Exact(w, dropped) && SameWeek(w, s) && forall i | 0 <= i < |dropped| :: dropped[i].day <= s.day
    ensures Exact(Extended(w, s), dropped + [s]) && Extended(w, s).first == w.first && Extended(w, s).planet == w.planet
  {
    var w', all := Extended(w, s), dropped + [s];
    assert all[|dropped|] == s && SameWeek(w', all[|dropped|]);
    var a :| 0 <= a < |dropped| && SameWeek(w, dropped[a]) && dropped[a].day == w.first;
    var b :| 0 <= b < |dropped| && SameWeek(w, dropped[b]) && dropped[b].day == w.last;
    var c :| 0 <= c < |dropped| && SameWeek(w, dropped[c]) && dropped[c].health == w.health;
    var d :| 0 <= d < |dropped| && SameWeek(w, dropped[d]) && dropped[d].stability == w.stability;
    var e :| 0 <= e < |dropped| && SameWeek(w, dropped[e]) && dropped[e].food == w.food;
    var f :| 0 <= f < |dropped| && SameWeek(w, dropped[f]) && dropped[f].water == w.water;
    assert all[a] == dropped[a] && all[b] == dropped[b] && all[c] == dropped[c] && all[d] == dropped[d]
           && all[e] == dropped[e] && all[f] == dropped[f];
    assert w.first <= dropped[a].day <= s.day;
    forall i | 0 <= i < |all| && SameWeek(w', all[i])
      ensures w'.first <= all[i].day <= w'.last && w'.health <= all[i].health && w'.stability <= all[i].stability
      ensures w'.food <= all[i].food && w'.water <= all[i].water
    {
      if i < |dropped| {
        assert all[i] == dropped[i] && SameWeek(w, dropped[i]);
      }
    }
  }

  lemma OtherStaysExact(w: Week, dropped: seq<Sample>, s: Sample)
    requires Exact(w, dropped) && !SameWeek(w, s)
    ensures Exact(w, dropped + [s])
  {
    var all := dropped + [s];
    var a :| 0 <= a < |dropped| && SameWeek(w, dropped[a]) && dropped[a].day == w.first;
    var b :| 0 <= b < |dropped| && SameWeek(w, dropped[b]) && dropped[b].day == w.last;
    var c :| 0 <= c < |dropped| && SameWeek(w, dropped[c]) && dropped[c].health == w.health;
    var d :| 0 <= d < |dropped| && SameWeek(w, dropped[d]) && dropped[d].stability == w.stability;
    var e :| 0 <= e < |dropped| && SameWeek(w, dropped[e]) && dropped[e].food == w.food;
    var f :| 0 <= f < |dropped| && SameWeek(w, dropped[f]) && dropped[f].water == w.water;
    assert all[a] == dropped[a] && all[b] == dropped[b] && all[c] == dropped[c] && all[d] == dropped[d]
           && all[e] == dropped[e] && all[f] == dropped[f];
    forall i | 0 <= i < |all| && SameWeek(w, all[i])
      ensures w.first <= all[i].day <= w.last && w.health <= all[i].health && w.stability <= all[i].stability
      ensures w.food <= all[i].food && w.water <= all[i].water
    {
      assert all[i] == dropped[i];
    }
  }

  lemma OpenedIsExact(dropped: seq<Sample>, s: Sample)
    requires forall i | 0 <= i < |dropped| :: !SameWeek(Opened(s), dropped[i])
    ensures Exact(Opened(s), dropped + [s])
  {
    var all := dropped + [s];
    assert all[|dropped|] == s && SameWeek(Opened(s), all[|dropped|]);
    forall i | 0 <= i < |dropped| ensures !SameWeek(Opened(s), all[i]) {
      assert all[i] == dropped[i];
    }
  }

  lemma MergedStaysComplete(weeks: seq<Week>, dropped: seq<Sample>, s: Sample)
    requires Complete(weeks, dropped) && forall i | 0 <= i < |dropped| :: dropped[i].day <= s.day
    ensures Complete(Merged(weeks, s), dropped + [s])
  {
    hide Exact, Extended, Opened;
    FindIsFirst(weeks, s);
    var at, after, all := Find(weeks, s), Merged(weeks, s), dropped + [s];
    forall i | 0 <= i < |weeks| ensures WeekOf(weeks[i].first) <= WeekOf(s.day) {
      ExactHasFirst(weeks[i], dropped);
      var k :| 0 <= k < |dropped| && dropped[k].day == weeks[i].first;
    }
    forall i | 0 <= i < |weeks| && !SameWeek(weeks[i], s) ensures Exact(weeks[i], all) {
      OtherStaysExact(weeks[i], dropped, s);
    }
    if at < |weeks| {
      ExtendedIsExact(weeks[at], dropped, s);
      forall i | 0 <= i < |after| ensures Exact(after[i], all) && after[i].first == weeks[i].first
          && after[i].planet == weeks[i].planet {
        if i != at {
          assert weeks[i] == after[i] && !SameWeek(weeks[i], s);
        }
      }
    } else {
      forall i | 0 <= i < |dropped| ensures !SameWeek(Opened(s), dropped[i]) {
        FindIsFirst(weeks, dropped[i]);
        assert SameWeek(weeks[Find(weeks, dropped[i])], dropped[i]);
        OpenedAt(s);
      }
      OpenedIsExact(dropped, s);
      OpenedAt(s);
    }
    forall k | 0 <= k < |all| ensures Find(after, all[k]) < |after| {
      FindIsFirst(after, all[k]);
      if k < |dropped| {
        FindIsFirst(weeks, dropped[k]);
        assert SameWeek(after[Find(weeks, dropped[k])], all[k]);
      } else {
        assert SameWeek(after[at], all[k]);
      }
    }
  }

  lemma OpenedAt(s: Sample)
    ensures Opened(s).planet == s.planet && Opened(s).first == s.day
  {
  }

  lemma ExactHasFirst(w: Week, dropped: seq<Sample>)
    requires Exact(w, dropped)
    ensures exists k :: 0 <= k < |dropped| && dropped[k].day == w.first && SameWeek(w, dropped[k])
  {
  }

  lemma LastOfDays(samples: seq<Sample>)
    requires DaysAscend(samples) && samples != []
    ensures var before := samples[..|samples| - 1];
            DaysAscend(before) && forall i | 0 <= i < |before| :: before[i].day <= samples[|samples| - 1].day
  {
  }

  lemma NothingIsComplete()
    ensures Complete([], [])
  {
  }

  /** The unpruned record is complete and exact for any samples in day order. */
  lemma {:induction false} WeeksAreComplete(dropped: seq<Sample>)
    requires DaysAscend(dropped)
    ensures Complete(Weeks(dropped), dropped)
  {
    hide Complete, Merged, DaysAscend;
    if dropped == [] {
      NothingIsComplete();
    } else {
      var before, s := dropped[..|dropped| - 1], dropped[|dropped| - 1];
      LastOfDays(dropped);
      WeeksAreComplete(before);
      MergedStaysComplete(Weeks(before), before, s);
      assert before + [s] == dropped;
    }
  }

  // ----- pruning -----

  /** Distinct worlds below n are at most n. */
  lemma {:induction false} Pigeonhole(weeks: seq<Week>, n: nat)
    requires forall i | 0 <= i < |weeks| :: weeks[i].planet < n
    requires forall i, j | 0 <= i < j < |weeks| :: weeks[i].planet != weeks[j].planet
    ensures |weeks| <= n
  {
    if weeks != [] {
      assert weeks[0].planet < n;
      if exists i :: 0 <= i < |weeks| && weeks[i].planet == n - 1 {
        var i :| 0 <= i < |weeks| && weeks[i].planet == n - 1;
        Pigeonhole(weeks[..i] + weeks[i + 1..], n - 1);
      } else {
        Pigeonhole(weeks, n - 1);
      }
    }
  }

  lemma LateBucket(weeks: seq<Week>, dropped: seq<Sample>, s: Sample, at: nat, j: nat, planets: nat)
    requires Complete(weeks, dropped) && PlanetsBelow(dropped, planets) && at <= j < |weeks| && SameWeek(weeks[at], s)
    requires forall i | 0 <= i < |dropped| :: dropped[i].day <= s.day
    ensures weeks[j].planet < planets && WeekOf(weeks[j].first) == WeekOf(s.day)
  {
    hide Exact;
    assert Exact(weeks[j], dropped);
    ExactHasFirst(weeks[j], dropped);
    var k :| 0 <= k < |dropped| && dropped[k].day == weeks[j].first && SameWeek(weeks[j], dropped[k]);
  }

  /** A sample of the latest week finds its bucket among the last ones, one per world. */
  lemma FoundLate(weeks: seq<Week>, dropped: seq<Sample>, s: Sample, planets: nat)
    requires Complete(weeks, dropped) && PlanetsBelow(dropped, planets)
    requires forall i | 0 <= i < |dropped| :: dropped[i].day <= s.day
    ensures |weeks| - Find(weeks, s) <= planets
  {
    hide Exact, PlanetsBelow, WeekOf;
    FindIsFirst(weeks, s);
    var at := Find(weeks, s);
    if at < |weeks| {
      var late := weeks[at..];
      forall i: nat | i < |late| ensures late[i] == weeks[at + i] && late[i].planet < planets
          && WeekOf(late[i].first) == WeekOf(s.day) {
        LateBucket(weeks, dropped, s, at, at + i, planets);
      }
      Pigeonhole(late, planets);
    }
  }

  lemma {:induction false} FindSkips(weeks: seq<Week>, e: nat, s: Sample)
    requires e <= |weeks| && forall i | 0 <= i < e :: !SameWeek(weeks[i], s)
    ensures Find(weeks, s) == e + Find(weeks[e..], s)
  {
    if e > 0 {
      assert forall i | 0 <= i < e - 1 :: weeks[1..][i] == weeks[i + 1];
      FindSkips(weeks[1..], e - 1, s);
      assert weeks[1..][e - 1..] == weeks[e..];
    } else {
      assert weeks[0..] == weeks;
    }
  }

  /** The kept part of a record whose first e buckets have been evicted. */
  predicate Kept(all: seq<Week>, kept: seq<Week>, e: nat) {
    e <= |all| && kept == all[e..]
  }

  /** Merging into what pruning kept is pruning the merged whole, as long as a bucket for every world is
      kept: the weeks evicted are over. */
  lemma PrunedMerge(weeks: seq<Week>, kept: seq<Week>, e: nat, s: Sample, planets: nat)
    requires Kept(weeks, kept, e) && |weeks| - Find(weeks, s) <= planets && (e > 0 ==> planets <= |kept|)
    ensures Kept(Merged(weeks, s), Merged(kept, s), e)
    ensures e <= |Merged(weeks, s)| && Merged(weeks, s)[..e] == weeks[..e]
  {
    hide SameWeek, Extended, Opened;
    FindIsFirst(weeks, s);
    var at := Find(weeks, s);
    FindSkips(weeks, e, s);
    FindIsFirst(kept, s);
    if at < |weeks| {
      assert kept[at - e] == weeks[at];
    } else {
      assert (weeks + [Opened(s)])[e..] == kept + [Opened(s)];
    }
  }

  // ----- digests -----

  function Fold(mix: (int, int) -> int, start: int, entries: seq<int>): int {
    if entries == [] then start else mix(Fold(mix, start, entries[..|entries| - 1]), entries[|entries| - 1])
  }

  lemma FoldThen(mix: (int, int) -> int, start: int, entries: seq<int>, x: int)
    ensures Fold(mix, start, entries + [x]) == mix(Fold(mix, start, entries), x)
  {
    assert (entries + [x])[..|entries|] == entries;
  }

  function Coded<T>(xs: seq<T>, code: T -> int): seq<int> {
    seq(|xs|, i requires 0 <= i < |xs| => code(xs[i]))
  }

  lemma CodedThen<T>(xs: seq<T>, x: T, code: T -> int)
    ensures Coded(xs + [x], code) == Coded(xs, code) + [code(x)]
  {
  }

  // ----- the archive -----

  class History {
    const planets: nat
    const cap: nat
    const mix: (int, int) -> int
    const ofSample: Sample -> int
    const ofWeek: Week -> int

    var samples: seq<Sample>
    var weekly: seq<Week>
    var hashes: seq<int>
    var firstRetained: nat
    var sampleDigest: int
    var weeklyDigest: int
    var hashDigest: int

    ghost var all: seq<Sample>
    ghost var dropped: nat
    ghost var evicted: nat
    ghost var days: seq<int>

    /** The archives are the recent parts of everything recorded, and every digest covers all of it. */
    ghost predicate Valid()
      reads this
    {
      && dropped <= |all| && samples == all[dropped..] && DaysAscend(all) && PlanetsBelow(all, planets)
      && (cap > 0 ==> |samples| <= cap) && (cap == 0 ==> dropped == 0)
      && evicted <= |Weeks(all[..dropped])| && weekly == Weeks(all[..dropped])[evicted..]
      && |weekly| <= WEEKS_KEPT * planets && (evicted > 0 ==> planets <= |weekly|)
      && firstRetained <= |days| && hashes == days[firstRetained..] && |hashes| <= HASHES_KEPT
      && sampleDigest == Fold(mix, 0, Coded(all, ofSample))
      && weeklyDigest == Fold(mix, 0, Coded(Weeks(all[..dropped])[..evicted], ofWeek))
      && hashDigest == Fold(mix, 0, days)
    }

    constructor (planets: nat, cap: nat, mix: (int, int) -> int, ofSample: Sample -> int, ofWeek: Week -> int)
      ensures Valid() && all == [] && days == [] && this.planets == planets && this.cap == cap
    {
      this.planets, this.cap, this.mix, this.ofSample, this.ofWeek := planets, cap, mix, ofSample, ofWeek;
      samples, weekly, hashes := [], [], [];
      firstRetained, sampleDigest, weeklyDigest, hashDigest := 0, 0, 0, 0;
      all, dropped, evicted, days := [], 0, 0, [];
    }

    /** Adds a day's samples, one per world, to the digest and the archive. */
    method AddSamples(today: seq<Sample>)
      modifies this`samples, this`sampleDigest, this`all
      ensures samples == old(samples) + today && all == old(all) + today
      ensures old(sampleDigest == Fold(mix, 0, Coded(all, ofSample))) ==>
              sampleDigest == Fold(mix, 0, Coded(all, ofSample))
    {
      for i := 0 to |today|
        invariant samples == old(samples) + today[..i] && all == old(all) + today[..i]
        invariant old(sampleDigest == Fold(mix, 0, Coded(all, ofSample))) ==>
                  sampleDigest == Fold(mix, 0, Coded(all, ofSample))
      {
        assert today[..i + 1] == today[..i] + [today[i]];
        CodedThen(all, today[i], ofSample);
        FoldThen(mix, 0, Coded(all, ofSample), ofSample(today[i]));
        sampleDigest := mix(sampleDigest, ofSample(today[i]));
        samples := samples + [today[i]];
        all := all + [today[i]];
      }
      assert today[..|today|] == today;
    }

    /** Merges one sample into its week's bucket. */
    method MergeSample(s: Sample)
      modifies this`weekly
      ensures weekly == Merged(old(weekly), s)
    {
      hide SameWeek, Extended, Opened;
      FindIsFirst(weekly, s);
      for i := 0 to |weekly|
        invariant weekly == old(weekly) && i <= Find(weekly, s)
      {
        if SameWeek(weekly[i], s) {
          weekly := weekly[i := Extended(weekly[i], s)];
          return;
        }
      }
      weekly := weekly + [Opened(s)];
    }

    /** The weekly archive is the kept part of the full record of what has been dropped. */
    ghost predicate Compacted()
      reads this
    {
      && dropped <= |all| && DaysAscend(all) && PlanetsBelow(all, planets)
      && Kept(Weeks(all[..dropped]), weekly, evicted) && (evicted > 0 ==> planets <= |weekly|)
    }

    /** One dropped sample. */
    method DropOne()
      requires Compacted() && samples == all[dropped..] && samples != []
      modifies this`samples, this`weekly, this`dropped
      ensures Compacted() && samples == all[dropped..] && samples == old(samples)[1..] && dropped == old(dropped) + 1
      ensures evicted <= |Weeks(all[..old(dropped)])| <= |Weeks(all[..dropped])|
      ensures Weeks(all[..dropped])[..evicted] == Weeks(all[..old(dropped)])[..evicted]
      ensures |old(weekly)| <= |weekly|
    {
      hide Complete, Merged, DaysAscend, PlanetsBelow, Find, Kept;
      ghost var before := all[..dropped];
      ghost var weeks := Weeks(before);
      var s := samples[0];
      assert s == all[dropped] && all[..dropped + 1] == before + [s];
      DropNext(all, dropped, planets);
      WeeksAreComplete(before);
      FoundLate(weeks, before, s, planets);
      PrunedMerge(weeks, weekly, evicted, s, planets);
      WeeksThen(before, s);
      MergedGrows(weeks, s);
      MergedGrows(weekly, s);
      KeptLength(weeks, weekly, evicted);
      MergeSample(s);
      samples := samples[1..];
      dropped := dropped + 1;
    }

    /** Keeps the newest samples up to the cap; the rest go into the weekly record. */
    method Compact()
      requires Compacted() && samples == all[dropped..]
      requires weeklyDigest == Fold(mix, 0, Coded(Weeks(all[..dropped])[..evicted], ofWeek))
      requires cap == 0 ==> dropped == 0
      modifies this`samples, this`weekly, this`dropped
      ensures Compacted() && samples == all[dropped..] && (cap > 0 ==> |samples| <= cap) && (cap == 0 ==> dropped == 0)
      ensures evicted <= |Weeks(all[..dropped])|
              && weeklyDigest == Fold(mix, 0, Coded(Weeks(all[..dropped])[..evicted], ofWeek))
    {
      hide Fold, Weeks, Coded, DaysAscend, PlanetsBelow;
      if cap == 0 {
        return;
      }
      while |samples| > cap
        invariant Compacted() && samples == all[dropped..]
        invariant evicted <= |Weeks(all[..dropped])|
                  && weeklyDigest == Fold(mix, 0, Coded(Weeks(all[..dropped])[..evicted], ofWeek))
        decreases |samples|
      {
        DropOne();
      }
    }

    /** Lets the oldest weeks go once there are too many, digesting each as it leaves. */
    method PruneWeekly()
      requires Compacted() && weeklyDigest == Fold(mix, 0, Coded(Weeks(all[..dropped])[..evicted], ofWeek))
      modifies this`weekly, this`weeklyDigest, this`evicted
      ensures Compacted() && |weekly| <= WEEKS_KEPT * planets && old(evicted) <= evicted
      ensures weeklyDigest == Fold(mix, 0, Coded(Weeks(all[..dropped])[..evicted], ofWeek))
    {
      hide Fold, Weeks, Coded, DaysAscend, PlanetsBelow;
      ghost var weeks := Weeks(all[..dropped]);
      while |weekly| > WEEKS_KEPT * planets
        invariant Compacted() && old(evicted) <= evicted <= |weeks|
        invariant weeklyDigest == Fold(mix, 0, Coded(weeks[..evicted], ofWeek))
        decreases |weekly|
      {
        assert weekly[0] == weeks[evicted] && weeks[..evicted + 1] == weeks[..evicted] + [weeks[evicted]];
        CodedThen(weeks[..evicted], weekly[0], ofWeek);
        FoldThen(mix, 0, Coded(weeks[..evicted], ofWeek), ofWeek(weekly[0]));
        weeklyDigest := mix(weeklyDigest, ofWeek(weekly[0]));
        weekly := weekly[1..];
        evicted := evicted + 1;
      }
    }

    method AddHash(h: int)
      requires firstRetained <= |days| && hashes == days[firstRetained..] && hashDigest == Fold(mix, 0, days)
               && |hashes| <= HASHES_KEPT
      modifies this`hashes, this`firstRetained, this`hashDigest, this`days
      ensures days == old(days) + [h] && firstRetained <= |days| && hashes == days[firstRetained..]
              && |hashes| <= HASHES_KEPT
      ensures hashDigest == Fold(mix, 0, days)
    {
      hide Fold;
      FoldThen(mix, 0, days, h);
      hashDigest := mix(hashDigest, h);
      ghost var from := firstRetained;
      days := days + [h];
      var grown := hashes + [h];
      assert grown == days[from..];
      hashes, firstRetained := Trim(grown, firstRetained);
      CappedIsEnd(days, from);
    }

    /** The archives after a committed day. */
    method CommitDay(today: seq<Sample>, h: int)
      requires Valid() && DaysAscend(all + today) && PlanetsBelow(today, planets)
      modifies this
      ensures Valid() && all == old(all) + today && days == old(days) + [h]
    {
      hide Fold, Weeks, Coded;
      AddSamples(today);
      assert samples == all[dropped..] && all[..dropped] == old(all)[..dropped];
      Compact();
      PruneWeekly();
      AddHash(h);
    }
  }

  /** The hashes kept are the end of all of them. */
  lemma CappedIsEnd(days: seq<int>, from: nat)
    requires from <= |days| && |days| - from <= HASHES_KEPT + 1
    ensures var kept := Capped(days[from..]);
            |kept| <= HASHES_KEPT && |kept| <= |days| - from && kept == days[|days| - |kept|..]
  {
  }

  // ----- a bounded log, as the ledger is -----

  /** The newest entries up to a cap, with a digest over every entry there ever was. */
  class Log<T(0)> {
    const cap: nat
    const mix: (int, int) -> int
    const code: T -> int
    var entries: seq<T>
    var digest: int
    ghost var all: seq<T>

    ghost predicate Valid()
      reads this
    {
      && |entries| == (if |all| < cap then |all| else cap) && entries == all[|all| - |entries|..]
      && digest == Fold(mix, 0, Coded(all, code))
    }

    constructor (cap: nat, mix: (int, int) -> int, code: T -> int)
      ensures Valid() && all == [] && this.cap == cap && this.mix == mix && this.code == code
    {
      hide Fold, Coded;
      this.cap, this.mix, this.code := cap, mix, code;
      entries, digest, all := [], 0, [];
      NothingDigested(mix, code);
    }

    /** An entry is digested, kept, and the oldest goes when there are too many. */
    method Append(x: T)
      requires Valid()
      modifies this
      ensures Valid() && all == old(all) + [x]
    {
      hide Fold, Coded;
      CodedThen(all, x, code);
      FoldThen(mix, 0, Coded(all, code), code(x));
      digest := mix(digest, code(x));
      all := all + [x];
      entries := entries + [x];
      if |entries| > cap {
        entries := entries[|entries| - cap..];
      }
    }
  }

  lemma NothingDigested<T>(mix: (int, int) -> int, code: T -> int)
    ensures Fold(mix, 0, Coded([], code)) == 0
  {
  }

  /** A digest tells apart any two histories of one length whose entries differ, if the mixing and the coding do. */
  lemma {:induction false} DigestTells<T>(mix: (int, int) -> int, code: T -> int, a: seq<T>, b: seq<T>)
    requires forall x, y, u, v :: mix(x, y) == mix(u, v) ==> x == u && y == v
    requires forall x, y :: code(x) == code(y) ==> x == y
    requires |a| == |b| && Fold(mix, 0, Coded(a, code)) == Fold(mix, 0, Coded(b, code))
    ensures a == b
  {
    if a != [] {
      var n := |a| - 1;
      CodedThen(a[..n], a[n], code);
      CodedThen(b[..n], b[n], code);
      assert a[..n] + [a[n]] == a && b[..n] + [b[n]] == b;
      FoldThen(mix, 0, Coded(a[..n], code), code(a[n]));
      FoldThen(mix, 0, Coded(b[..n], code), code(b[n]));
      DigestTells(mix, code, a[..n], b[..n]);
    }
  }

  lemma DropNext(all: seq<Sample>, dropped: nat, planets: nat)
    requires dropped < |all| && DaysAscend(all) && PlanetsBelow(all, planets)
    ensures DaysAscend(all[..dropped]) && PlanetsBelow(all[..dropped], planets) && all[dropped].planet < planets
    ensures forall i | 0 <= i < dropped :: all[..dropped][i].day <= all[dropped].day
  {
  }

  lemma WeeksThen(before: seq<Sample>, s: Sample)
    ensures Weeks(before + [s]) == Merged(Weeks(before), s)
  {
    assert (before + [s])[..|before|] == before;
  }

  lemma MergedGrows(weeks: seq<Week>, s: Sample)
    ensures |weeks| <= |Merged(weeks, s)|
  {
  }

  lemma KeptLength(all: seq<Week>, kept: seq<Week>, e: nat)
    requires Kept(all, kept, e)
    ensures e <= |all| && |kept| == |all| - e
  {
  }

  lemma KeptIsExact(weeks: seq<Week>, kept: seq<Week>, e: nat, dropped: seq<Sample>)
    requires Complete(weeks, dropped) && e <= |weeks| && kept == weeks[e..]
    ensures forall i | 0 <= i < |kept| :: Exact(kept[i], dropped)
  {
    hide Exact, SameWeek;
    forall i | 0 <= i < |kept| ensures Exact(kept[i], dropped) {
      assert kept[i] == weeks[e + i];
    }
  }

  lemma AscendUpto(samples: seq<Sample>, k: nat)
    requires DaysAscend(samples) && k <= |samples|
    ensures DaysAscend(samples[..k])
  {
  }

  /** Each retained weekly bucket has exactly the span and minima of the compacted samples of its world and
      week; the retained samples and hashes are the latest of everything recorded; and first-retained plus
      retained hashes are the days stepped. */
  lemma ArchivesAgree(h: History)
    requires h.Valid()
    ensures forall i | 0 <= i < |h.weekly| :: Exact(h.weekly[i], h.all[..h.dropped])
    ensures h.all[..h.dropped] + h.samples == h.all
    ensures h.days[..h.firstRetained] + h.hashes == h.days && h.firstRetained + |h.hashes| == |h.days|
  {
    hide Exact, Weeks, Fold, Coded, DaysAscend, Complete, SameWeek;
    AscendUpto(h.all, h.dropped);
    WeeksAreComplete(h.all[..h.dropped]);
    KeptIsExact(Weeks(h.all[..h.dropped]), h.weekly, h.evicted, h.all[..h.dropped]);
  }
}
