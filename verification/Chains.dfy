/** Loops over steps: a relation repeated for each index in turn, what such a chain keeps, where it stops,
    and that it has one outcome. */
module Chains {
  import opened State

  type Step = (World, World, nat) -> bool

  /** Whether a step can be taken in a state. */
  type Check = (World, nat) -> bool

  /** w' is reached from w by steps 0, 1, ..., n - 1 in that order. */
  ghost predicate Through(w: World, w': World, n: nat, step: Step)
    decreases n, 0
  {
    if n == 0 then w' == w else Last(w, w', n - 1, step)
  }

  ghost predicate Last(w: World, w': World, k: nat, step: Step)
    decreases k, 1
  {
    exists m :: Through(w, m, k, step) && step(m, w', k)
  }

  /** The chain gets to a step that cannot be taken. */
  ghost predicate Stops(w: World, n: nat, step: Step, clear: Check) {
    exists m, k: nat :: k < n && Through(w, m, k, step) && !clear(m, k)
  }

  lemma ThroughNext(w: World, m: World, w': World, n: nat, step: Step)
    requires Through(w, m, n, step) && step(m, w', n)
    ensures Through(w, w', n + 1, step)
  {
    assert Last(w, w', n, step);
  }

  /** What every step keeps, the whole chain keeps. */
  lemma {:induction false} ThroughKeeps(w: World, w': World, n: nat, step: Step, inv: World -> bool)
    requires Through(w, w', n, step) && inv(w)
    requires forall a, b, i: nat | i < n && inv(a) && step(a, b, i) :: inv(b)
    ensures inv(w')
    decreases n
  {
    if n > 0 {
      var m :| Through(w, m, n - 1, step) && step(m, w', n - 1);
      ThroughKeeps(w, m, n - 1, step, inv);
    }
  }

  /** Where a chain starts out well and ends badly, some step is the one that spoils it. */
  lemma {:induction false} Spoiled(w: World, w': World, n: nat, step: Step, inv: World -> bool, good: World -> bool)
    returns (k: nat, m: World, m': World)
    requires Through(w, w', n, step) && inv(w) && good(w) && !good(w')
    requires forall a, b, i: nat | i < n && inv(a) && step(a, b, i) :: inv(b)
    ensures k < n && Through(w, m, k, step) && step(m, m', k) && inv(m) && good(m) && !good(m')
    decreases n
  {
    var before :| Through(w, before, n - 1, step) && step(before, w', n - 1);
    if good(before) {
      ThroughKeeps(w, before, n - 1, step, inv);
      k, m, m' := n - 1, before, w';
    } else {
      k, m, m' := Spoiled(w, before, n - 1, step, inv, good);
    }
  }

  // ----- one outcome -----

  /** The states agree on everything but how the ledger's entries were written down. */
  ghost predicate Same(a: World, b: World) {
    b == a.(ledger := b.ledger, recorded := b.recorded)
  }

  /** From states that agree, each step leads to states that agree. */
  ghost predicate Repeatable(n: nat, step: Step) {
    forall a, a', b, b', i: nat | i < n && Same(a, b) && step(a, a', i) && step(b, b', i) :: Same(a', b')
  }

  lemma {:induction false} ThroughSame(a: World, a': World, b: World, b': World, n: nat, step: Step)
    requires Same(a, b) && Through(a, a', n, step) && Through(b, b', n, step) && Repeatable(n, step)
    ensures Same(a', b')
    decreases n
  {
    hide Same;
    if n > 0 {
      var m :| Through(a, m, n - 1, step) && step(m, a', n - 1);
      var k :| Through(b, k, n - 1, step) && step(k, b', n - 1);
      ThroughSame(a, m, b, k, n - 1, step);
    }
  }

  lemma {:induction false} ThroughPrefix(w: World, w': World, n: nat, k: nat, step: Step) returns (m: World, m': World)
    requires Through(w, w', n, step) && k < n
    ensures Through(w, m, k, step) && step(m, m', k)
    decreases n
  {
    var last :| Through(w, last, n - 1, step) && step(last, w', n - 1);
    if k == n - 1 {
      m, m' := last, w';
    } else {
      m, m' := ThroughPrefix(w, last, n - 1, k, step);
    }
  }

  /** Where a step is taken, its check passes, and in every state that agrees too. */
  ghost predicate Guards(n: nat, step: Step, clear: Check) {
    forall a, b, c, i: nat | i < n && step(a, b, i) && Same(a, c) :: clear(c, i)
  }

  /** A chain that gets through does not stop. */
  lemma ThroughNeverStops(w: World, w': World, v: World, n: nat, step: Step, clear: Check)
    requires Same(w, v) && Through(w, w', n, step) && Repeatable(n, step) && Guards(n, step, clear)
    ensures !Stops(v, n, step, clear)
  {
    hide Same;
    if Stops(v, n, step, clear) {
      var m, k: nat :| k < n && Through(v, m, k, step) && !clear(m, k);
      var a, b := ThroughPrefix(w, w', n, k, step);
      ThroughSame(w, a, v, m, k, step);
    }
  }

  ghost predicate Possible(a: World, i: nat, step: Step) {
    exists b :: step(a, b, i)
  }

  /** A chain whose every clear step can be taken stops or gets through. */
  lemma {:induction false} ThroughUnlessStopped(w: World, n: nat, step: Step, clear: Check, inv: World -> bool)
      returns (w': World)
    requires inv(w) && !Stops(w, n, step, clear)
    requires forall a, i: nat | i < n && inv(a) && clear(a, i) :: Possible(a, i, step)
    requires forall a, b, i: nat | i < n && inv(a) && step(a, b, i) :: inv(b)
    ensures Through(w, w', n, step) && inv(w')
    decreases n
  {
    if n == 0 {
      w' := w;
    } else {
      var m := ThroughUnlessStopped(w, n - 1, step, clear, inv);
      assert clear(m, n - 1) && Possible(m, n - 1, step);
      w' :| step(m, w', n - 1);
      ThroughNext(w, m, w', n - 1, step);
    }
  }

  /** With nothing to stop it, a chain gets through. */
  lemma ThroughAlways(w: World, n: nat, step: Step, inv: World -> bool) returns (w': World)
    requires inv(w)
    requires forall a, i: nat | i < n && inv(a) :: Possible(a, i, step)
    requires forall a, b, i: nat | i < n && inv(a) && step(a, b, i) :: inv(b)
    ensures Through(w, w', n, step) && inv(w')
  {
    var always := (a: World, i: nat) => true;
    w' := ThroughUnlessStopped(w, n, step, always, inv);
  }
}
