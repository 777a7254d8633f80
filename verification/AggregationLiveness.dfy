/** Left alone, the controller comes to rest from every reachable state: on an acyclic selector graph every step that
    is not an outside write, a resync or an API failure brings it closer, whichever is taken, and until it is idle
    there is one. */
module AggregationLiveness {
  import opened Base
  import opened Aggregation
  import opened AggregationController
  import opened AggregationConvergence
  import opened AggregationGraph
  import opened AggregationRest
  import opened AggregationStrays

  /** Neither an outside write, nor a resync, nor an API failure. */
  predicate Productive(step: Step) {
    !Outside(step) && !step.Resync? && !step.Fail?
  }

  /* ---- work in progress ---- */

  /** Steps a worker still has to make, at most, while the cache stays as it is. */
  function Remaining(cache: Roles, k: string, t: Worker): nat {
    match t
    case Started => 4 + if Aggregated(cache, k) then |cache[k].selectors.value| else 0
    case Listing(role, next, rules) =>
      2 + if role.selectors.Some? && next <= |role.selectors.value| then |role.selectors.value| - next else 0
    case Finished => 1
  }

  ghost function TotalRemaining(cache: Roles, m: map<string, Worker>): nat
    decreases |m.Keys|
  {
    if m.Keys == {} then 0 else
      var k := Least(m.Keys);
      assert (m - {k}).Keys == m.Keys - {k};
      Remaining(cache, k, m[k]) + TotalRemaining(cache, m - {k})
  }

  lemma Without(m: map<string, Worker>, k: string, l: string)
    ensures (m - {k}).Keys == m.Keys - {k} && m - {l} - {k} == m - {k} - {l}
  {
  }

  lemma {:induction false} TotalAt(cache: Roles, m: map<string, Worker>, k: string)
    requires k in m
    ensures TotalRemaining(cache, m) == Remaining(cache, k, m[k]) + TotalRemaining(cache, m - {k})
    decreases |m.Keys|
  {
    hide Remaining, StrLess, Least;
    var l := Least(m.Keys);
    Without(m, l, k);
    Without(m, k, l);
    if l != k {
      TotalAt(cache, m - {l}, k);
      TotalAt(cache, m - {k}, l);
    }
  }

  lemma TotalChanges(cache: Roles, m: map<string, Worker>, k: string, t: Worker)
    requires k in m && Remaining(cache, k, t) < Remaining(cache, k, m[k])
    ensures TotalRemaining(cache, m[k := t]) < TotalRemaining(cache, m)
  {
    hide Remaining;
    TotalAt(cache, m, k);
    TotalAt(cache, m[k := t], k);
    assert m[k := t] - {k} == m - {k};
  }

  /* ---- the measure ---- */

  /** Compared from left to right. */
  datatype Measure = Measure(potential: nat, watch: nat, notices: nat, adding: nat, delayed: nat, dirty: nat, work: nat)

  ghost function MeasureOf(s: State, order: seq<string>, m: nat): Measure
    requires m <= |s.watch|
  {
    Measure(Potential(s, order, m), |s.watch|, s.notices, |s.adding|, |s.delayed|, |s.dirty|,
            TotalRemaining(s.cache, s.processing))
  }

  predicate Below(a: Measure, b: Measure) {
    || a.potential < b.potential
    || (a.potential == b.potential && (|| a.watch < b.watch
    || (a.watch == b.watch && (|| a.notices < b.notices
    || (a.notices == b.notices && (|| a.adding < b.adding
    || (a.adding == b.adding && (|| a.delayed < b.delayed
    || (a.delayed == b.delayed && (|| a.dirty < b.dirty
    || (a.dirty == b.dirty && a.work < b.work)))))))))))
  }

  lemma WorkShrinks(s: State, step: Step)
    requires Enabled(s, step) && (step.Fetch? || step.ListSelector? || step.Skip? || step.Write? || step.Done?)
    ensures TotalRemaining(s.cache, Next(s, step).processing) < TotalRemaining(s.cache, s.processing)
  {
    hide AddSelector, TotalRemaining;
    var k := step.name;
    if step.Done? {
      TotalAt(s.cache, s.processing, k);
    } else {
      TotalChanges(s.cache, s.processing, k, Next(s, step).processing[k]);
    }
  }

  /** An ineffective write leaves the watch alone; an effective one costs potential. */
  lemma WriteProgress(s: State, k: string, g: Roles, order: seq<string>, m: nat)
    requires Settling(s, g, order, m) && Ranked(order, g) && Enabled(s, Write(k)) && m <= |s.watch|
    ensures m <= |Next(s, Write(k)).watch| && Below(MeasureOf(Next(s, Write(k)), order, m), MeasureOf(s, order, m))
  {
    hide Settling, Ranked, Potential, TotalRemaining, Effective;
    StepPays(s, Write(k), g, order, m);
    WorkShrinks(s, Write(k));
    StoreOrSame(s, k);
  }

  lemma StoreOrSame(s: State, k: string)
    requires Enabled(s, Write(k))
    ensures var s' := Next(s, Write(k));
            Effective(s.store, s'.store) || s' == s.(processing := s'.processing)
  {
  }

  /** Every productive step brings the controller closer to rest. */
  lemma StepProgresses(s: State, step: Step, g: Roles, order: seq<string>, m: nat)
    requires Settling(s, g, order, m) && Ranked(order, g) && Enabled(s, step) && Productive(step)
    ensures m <= |s.watch| && OldLeft(m, step) <= |Next(s, step).watch|
    ensures Below(MeasureOf(Next(s, step), order, OldLeft(m, step)), MeasureOf(s, order, m))
  {
    hide Settling, Ranked, Potential, TotalRemaining, AddSelector, Effective;
    SettlingLength(s, g, order, m);
    StepPays(s, step, g, order, m);
    match step
    case Write(k) => WriteProgress(s, k, g, order, m);
    case Fetch(_) => WorkShrinks(s, step);
    case ListSelector(_) => WorkShrinks(s, step);
    case Skip(_) => WorkShrinks(s, step);
    case Done(_) => WorkShrinks(s, step);
    case _ =>
  }

  /** Until the controller is idle, some productive step can be taken. */
  lemma NotStuck(s: State) returns (step: Step)
    requires Inv(s) && !Idle(s)
    ensures Enabled(s, step) && Productive(step)
  {
    hide Aggregate, AddSelectors;
    if s.watch != [] {
      step := Deliver;
    } else if s.adding != {} {
      var k :| k in s.adding;
      step := Enqueue(k);
    } else if s.notices > 0 {
      step := Notify;
    } else if s.delayed != {} {
      var k :| k in s.delayed;
      step := Retry(k);
    } else if s.processing.Keys != {} {
      var k :| k in s.processing.Keys;
      step := WorkerStep(s, k);
    } else {
      assert s.processing == map[];
      var k :| k in s.dirty;
      step := Get(k);
    }
  }

  lemma WorkerStep(s: State, k: string) returns (step: Step)
    requires k in s.processing && WorkerOk(s, k)
    ensures Enabled(s, step) && Productive(step)
  {
    match s.processing[k]
    case Started => step := Fetch(k);
    case Finished => step := Done(k);
    case Listing(role, next, rules) =>
      step := if next < |role.selectors.value| then ListSelector(k)
              else if rules == role.rules then Skip(k) else Write(k);
  }

  lemma NotOutside(step: Step)
    requires Productive(step)
    ensures !Outside(step)
  {
  }

  /** In `b` every aggregated role of `a` has exactly the rules its selectors lead to in `a`. */
  ghost predicate FullyAggregated(a: Roles, b: Roles) {
    forall k :: Aggregated(a, k) ==> k in b && HasReachable(a, b, k)
  }

  ghost predicate HasReachable(a: Roles, b: Roles, k: string)
    requires k in b
  {
    forall r :: r in b[k].rules <==> Reaches(a, k, r)
  }

  /** The `i`-th step of an endless sequence is a productive step of the machine. */
  ghost predicate Takes(states: nat -> State, steps: nat -> Step, i: nat) {
    Enabled(states(i), steps(i)) && Productive(steps(i)) && states(i + 1) == Next(states(i), steps(i))
  }

  lemma {:induction false} StopsAfter(states: nat -> State, steps: nat -> Step, i: nat, g: Roles, order: seq<string>,
                                      m: nat)
    returns (j: nat)
    requires Settling(states(i), g, order, m) && Ranked(order, g) && m <= |states(i).watch|
    ensures !Takes(states, steps, j)
    decreases Potential(states(i), order, m), |states(i).watch|, states(i).notices, |states(i).adding|,
              |states(i).delayed|,
              |states(i).dirty|, TotalRemaining(states(i).cache, states(i).processing)
  {
    hide Settling, Ranked, Potential, TotalRemaining, Enabled, Next;
    if Takes(states, steps, i) {
      NotOutside(steps(i));
      RankedCovers(order, g);
      SettlingKept(states(i), steps(i), g, order, m);
      StepProgresses(states(i), steps(i), g, order, m);
      j := StopsAfter(states, steps, i + 1, g, order, OldLeft(m, steps(i)));
    } else {
      j := i;
    }
  }

  /** From a reachable state with an acyclic selector graph no sequence of productive steps goes on for ever. */
  lemma NoEndlessRun(s0: State, before: seq<Step>, states: nat -> State, steps: nat -> Step)
    requires Initial(s0) && Run(s0, before, states(0)) && Acyclic(states(0).store)
    ensures exists j :: !Takes(states, steps, j)
  {
    hide Acyclic, Settling, Inv, Ranked, Run, Takes, Known, Initial;
    var g, order := ReachableSettles(s0, before, states(0));
    var j := StopsAfter(states, steps, 0, g, order, |states(0).watch|);
  }

  lemma NoneOutsideProductive(steps: seq<Step>)
    requires forall i :: 0 <= i < |steps| ==> Productive(steps[i])
    ensures NoneOutside(steps)
  {
    forall i | 0 <= i < |steps| ensures !Outside(steps[i]) {
      NotOutside(steps[i]);
    }
  }

  lemma StoppedIsIdle(s: State)
    requires Inv(s) && forall step :: Enabled(s, step) ==> !Productive(step)
    ensures Idle(s)
  {
    hide Inv, Enabled, Idle;
    if !Idle(s) {
      var step := NotStuck(s);
    }
  }

  /** And whichever productive steps are taken, once there are none left the controller is idle, the cache is the
      store, and the roles that were aggregated are, each with exactly the rules its selectors lead to; without
      overstepping, exactly those they led to at the start. */
  lemma StoppedMeansSettled(s0: State, before: seq<Step>, s: State, steps: seq<Step>, s': State)
    requires Initial(s0) && Run(s0, before, s) && Acyclic(s.store)
    requires Run(s, steps, s') && forall i :: 0 <= i < |steps| ==> Productive(steps[i])
    requires forall step :: Enabled(s', step) ==> !Productive(step)
    ensures Idle(s') && s'.cache == s'.store && FullyAggregated(s'.store, s'.store)
    ensures forall k :: Aggregated(s'.store, k) <==> Aggregated(s.store, k)
    ensures !Overstepped(s, steps) ==> FullyAggregated(s.store, s'.store)
  {
    hide Acyclic, Reaches, Inv, Run, Idle, Overstepped, Initial, SameGraph, AtRest, SameKind;
    ReachableInv(s0, before, s);
    RunKeepsInv(s, steps, s');
    StoppedIsIdle(s');
    IdleIsAtRest(s');
    NoneOutsideProductive(steps);
    forall k
      ensures Aggregated(s'.store, k) <==> Aggregated(s.store, k)
      ensures Aggregated(s'.store, k) ==>
                HasReachable(s'.store, s'.store, k) && (!Overstepped(s, steps) ==> HasReachable(s.store, s'.store, k))
    {
      RestIsExact(s0, before, s, steps, s', k, Rule([], [], [], [], []));
      if Aggregated(s'.store, k) {
        forall r ensures r in s'.store[k].rules <==> Reaches(s'.store, k, r) {
          RestIsExact(s0, before, s, steps, s', k, r);
        }
        if !Overstepped(s, steps) {
          forall r ensures r in s'.store[k].rules <==> Reaches(s.store, k, r) {
            RestIsDetermined(s0, before, s, steps, s', k, r);
          }
        }
      }
    }
  }

  lemma IdleStops(s: State)
    requires Idle(s)
    ensures forall step :: Enabled(s, step) ==> !Productive(step)
  {
  }

  /** Taking any productive steps for as long as there are some comes to an end, at rest. */
  lemma {:induction false} ComesToRest(s: State, g: Roles, order: seq<string>, m: nat)
    returns (steps: seq<Step>, s': State)
    requires Inv(s) && Settling(s, g, order, m) && Ranked(order, g) && m <= |s.watch|
    ensures Run(s, steps, s') && Idle(s') && forall i :: 0 <= i < |steps| ==> Productive(steps[i])
    decreases Potential(s, order, m), |s.watch|, s.notices, |s.adding|, |s.delayed|, |s.dirty|,
              TotalRemaining(s.cache, s.processing)
  {
    hide Inv, Settling, Ranked, Potential, TotalRemaining, Enabled, Next, Idle;
    if Idle(s) {
      steps, s' := [], s;
    } else {
      var step := NotStuck(s);
      NotOutside(step);
      RankedCovers(order, g);
      StepKeepsInv(s, step);
      SettlingKept(s, step, g, order, m);
      StepProgresses(s, step, g, order, m);
      var rest;
      rest, s' := ComesToRest(Next(s, step), g, order, OldLeft(m, step));
      steps := [step] + rest;
      assert steps[1..] == rest;
    }
  }

  /** So from every reachable state there is a run that settles. */
  lemma Settles(s0: State, before: seq<Step>, s: State) returns (steps: seq<Step>, s': State)
    requires Initial(s0) && Run(s0, before, s) && Acyclic(s.store)
    ensures Run(s, steps, s') && NoneOutside(steps) && Idle(s') && s'.cache == s'.store
    ensures FullyAggregated(s'.store, s'.store)
    ensures !Overstepped(s, steps) ==> FullyAggregated(s.store, s'.store)
  {
    hide Acyclic, Reaches, Inv, Settling, Ranked, Run, Idle, Enabled, Overstepped, Initial, Known;
    var g, order := ReachableSettles(s0, before, s);
    steps, s' := ComesToRest(s, g, order, |s.watch|);
    IdleStops(s');
    NoneOutsideProductive(steps);
    StoppedMeansSettled(s0, before, s, steps, s');
  }
}
