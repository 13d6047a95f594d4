/** Runs of a step relation. */
module Runs {

  /** `ss` is a run of `next` taking the given steps. */
  ghost predicate Chain<S(!new), T(!new)>(next: (S, T, S) -> bool, ss: seq<S>, steps: seq<T>) {
    && |ss| == |steps| + 1
    && forall i :: 0 <= i < |steps| ==> next(ss[i], steps[i], ss[i + 1])
  }

  lemma ChainAppend<S(!new), T(!new)>(next: (S, T, S) -> bool, ss: seq<S>, steps: seq<T>, step: T, s: S)
    requires Chain(next, ss, steps) && next(ss[|ss| - 1], step, s)
    ensures Chain(next, ss + [s], steps + [step])
  {
    var tt, more := ss + [s], steps + [step];
    forall i | 0 <= i < |more| ensures next(tt[i], more[i], tt[i + 1]) {
      if i < |steps| { assert next(ss[i], steps[i], ss[i + 1]); }
    }
  }

  lemma ChainStep<S(!new), T(!new)>(next: (S, T, S) -> bool, ss: seq<S>, steps: seq<T>, i: nat)
    requires Chain(next, ss, steps) && i < |steps|
    ensures next(ss[i], steps[i], ss[i + 1])
  {
  }

  ghost predicate Run<S(!new), T(!new)>(init: S -> bool, next: (S, T, S) -> bool, ss: seq<S>, steps: seq<T>) {
    Chain(next, ss, steps) && init(ss[0])
  }

  /** The states some run is in. */
  ghost predicate Reached<S(!new), T(!new)>(init: S -> bool, next: (S, T, S) -> bool, s: S) {
    exists ss: seq<S>, steps: seq<T> :: Run(init, next, ss, steps) && ss[|ss| - 1] == s
  }

  lemma ReachedNext<S(!new), T(!new)>(init: S -> bool, next: (S, T, S) -> bool, s: S, step: T, s': S)
    requires Reached(init, next, s) && next(s, step, s')
    ensures Reached(init, next, s')
  {
    var ss: seq<S>, steps: seq<T> :| Run(init, next, ss, steps) && ss[|ss| - 1] == s;
    ChainAppend(next, ss, steps, step, s');
    assert Run(init, next, ss + [s'], steps + [step]);
  }

  lemma ReachedStart<S(!new), T(!new)>(init: S -> bool, next: (S, T, S) -> bool, s: S)
    requires init(s)
    ensures Reached(init, next, s)
  {
    var ss: seq<S>, steps: seq<T> := [s], [];
    assert Run(init, next, ss, steps);
  }

  /** An invariant holds throughout every run. */
  lemma {:induction false} Throughout<S(!new), T(!new)>(
      init: S -> bool, next: (S, T, S) -> bool, inv: S -> bool, ss: seq<S>, steps: seq<T>, i: nat)
    requires Run(init, next, ss, steps) && i < |ss|
    requires forall s :: init(s) ==> inv(s)
    requires forall s, t, s' :: inv(s) && next(s, t, s') ==> inv(s')
    ensures inv(ss[i])
  {
    if i > 0 {
      Throughout(init, next, inv, ss, steps, i - 1);
      assert next(ss[i - 1], steps[i - 1], ss[i]) by { ChainStep(next, ss, steps, i - 1); }
    }
  }

  /** The same for runs whose steps all meet a condition. */
  lemma {:induction false} ThroughoutWhere<S(!new), T(!new)>(
      init: S -> bool, next: (S, T, S) -> bool, ok: (S, T) -> bool, inv: S -> bool, ss: seq<S>, steps: seq<T>, i: nat)
    requires Run(init, next, ss, steps) && i < |ss|
    requires forall j :: 0 <= j < |steps| ==> ok(ss[j], steps[j])
    requires forall s :: init(s) ==> inv(s)
    requires forall s, t, s' :: inv(s) && ok(s, t) && next(s, t, s') ==> inv(s')
    ensures inv(ss[i])
  {
    if i > 0 {
      ThroughoutWhere(init, next, ok, inv, ss, steps, i - 1);
      assert next(ss[i - 1], steps[i - 1], ss[i]) by { ChainStep(next, ss, steps, i - 1); }
      assert ok(ss[i - 1], steps[i - 1]);
    }
  }

  /** An invariant holds in every reachable state. */
  lemma Always<S(!new), T(!new)>(init: S -> bool, next: (S, T, S) -> bool, inv: S -> bool, s: S)
    requires Reached(init, next, s)
    requires forall s :: init(s) ==> inv(s)
    requires forall s, t, s' :: inv(s) && next(s, t, s') ==> inv(s')
    ensures inv(s)
  {
    var ss: seq<S>, steps: seq<T> :| Run(init, next, ss, steps) && ss[|ss| - 1] == s;
    Throughout(init, next, inv, ss, steps, |ss| - 1);
  }

  /** Every state of a run is reachable. */
  lemma {:induction false} OnRun<S(!new), T(!new)>(init: S -> bool, next: (S, T, S) -> bool, ss: seq<S>, steps: seq<T>, i: nat)
    requires Run(init, next, ss, steps) && i < |ss|
    ensures Reached(init, next, ss[i])
  {
    if i == 0 {
      ReachedStart(init, next, ss[0]);
    } else {
      OnRun(init, next, ss, steps, i - 1);
      ChainStep(next, ss, steps, i - 1);
      ReachedNext(init, next, ss[i - 1], steps[i - 1], ss[i]);
    }
  }

  // ------------------------------------------------------------------- paths

  /** The steps lead from `s` to `s'`. */
  ghost predicate Leads<S(!new), T(!new)>(next: (S, T, S) -> bool, s: S, steps: seq<T>, s': S) {
    if steps == [] then s == s'
    else
      var front, last := steps[..|steps| - 1], steps[|steps| - 1];
      exists t :: Leads(next, s, front, t) && next(t, last, s')
  }

  lemma LeadsOn<S(!new), T(!new)>(next: (S, T, S) -> bool, s: S, steps: seq<T>, t: S, step: T, s': S)
    requires Leads(next, s, steps, t) && next(t, step, s')
    ensures Leads(next, s, steps + [step], s')
  {
    assert (steps + [step])[..|steps|] == steps;
  }

  lemma {:induction false} LeadsVia<S(!new), T(!new)>(next: (S, T, S) -> bool, s: S, a: seq<T>, t: S, b: seq<T>, s': S)
    requires Leads(next, s, a, t) && Leads(next, t, b, s')
    ensures Leads(next, s, a + b, s')
    decreases |b|
  {
    if b == [] {
      assert a + b == a;
    } else {
      var n := |b| - 1;
      var u :| Leads(next, t, b[..n], u) && next(u, b[n], s');
      LeadsVia(next, s, a, t, b[..n], u);
      LeadsOn(next, s, a + b[..n], u, b[n], s');
      assert (a + b[..n]) + [b[n]] == a + b;
    }
  }

  lemma {:induction false} LeadsReach<S(!new), T(!new)>(init: S -> bool, next: (S, T, S) -> bool, s: S, steps: seq<T>, s': S)
    requires Reached(init, next, s) && Leads(next, s, steps, s')
    ensures Reached(init, next, s')
    decreases |steps|
  {
    if steps != [] {
      var n := |steps| - 1;
      var t :| Leads(next, s, steps[..n], t) && next(t, steps[n], s');
      LeadsReach(init, next, s, steps[..n], t);
      ReachedNext(init, next, t, steps[n], s');
    }
  }

  /** Along a path an invariant of pairs of path and state holds. */
  lemma {:induction false} Along<S(!new), T(!new)>(
      next: (S, T, S) -> bool, inv: (seq<T>, S) -> bool, s: S, steps: seq<T>, s': S)
    requires Leads(next, s, steps, s') && inv([], s)
    requires forall p, t, step, t' :: inv(p, t) && next(t, step, t') ==> inv(p + [step], t')
    ensures inv(steps, s')
    decreases |steps|
  {
    if steps != [] {
      var n := |steps| - 1;
      var t :| Leads(next, s, steps[..n], t) && next(t, steps[n], s');
      Along(next, inv, s, steps[..n], t);
      assert steps[..n] + [steps[n]] == steps;
    }
  }

  /** A path under way from `start`: the steps taken and the state reached. */
  datatype Trace<S, T> = Trace(start: S, taken: seq<T>, now: S)

  ghost predicate Traced<S(!new), T(!new)>(init: S -> bool, next: (S, T, S) -> bool, tr: Trace<S, T>) {
    Reached(init, next, tr.now) && Leads(next, tr.start, tr.taken, tr.now)
  }

  function Then<S, T>(tr: Trace<S, T>, step: T, s: S): Trace<S, T> {
    Trace(tr.start, tr.taken + [step], s)
  }

  lemma Onward<S(!new), T(!new)>(init: S -> bool, next: (S, T, S) -> bool, tr: Trace<S, T>, step: T, s: S)
    requires Traced(init, next, tr) && next(tr.now, step, s)
    ensures Traced(init, next, Then(tr, step, s))
  {
    ReachedNext(init, next, tr.now, step, s);
    LeadsOn(next, tr.start, tr.taken, tr.now, step, s);
  }
}
