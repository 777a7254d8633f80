/** Syncs that were in progress when their role was deleted, or stopped being aggregated: the only thing that can
    make the controller rest on anything but what the outside world asked for. */
module AggregationStrays {
  import opened Base
  import opened Aggregation
  import opened AggregationController
  import opened AggregationConvergence
  import opened AggregationGraph
  import opened AggregationRest

  /** A sync is in progress for a role that is not an aggregated one any more. */
  ghost predicate Stray(s: State, k: string) {
    IsListing(s, k) && !Aggregated(s.store, k)
  }

  ghost predicate NoneOutside(steps: seq<Step>) {
    forall i :: 0 <= i < |steps| ==> !Outside(steps[i])
  }

  /* ---- nothing undelivered ---- */

  /** The cache has caught up with the store. */
  lemma CaughtUpCache(s0: State, before: seq<Step>, s: State)
    requires Initial(s0) && Run(s0, before, s) && s.watch == []
    ensures Inv(s) && s.cache == s.store
  {
    InitialInv(s0);
    RunKeepsInv(s0, before, s);
  }

  lemma CaughtUpSettles(s: State, g: Roles, order: seq<string>)
    requires s.watch == [] && s.cache == s.store && Follows(s.store, g) && Covering(order, g)
    requires forall k :: IsListing(s, k) ==> k in order
    ensures Settling(s, g, order, 0)
  {
    assert s.watch[..0] == [];
  }

  lemma FollowsItself(g: Roles)
    ensures Follows(g, g)
  {
  }

  lemma NoOverstepNow(s: State, step: Step, g: Roles, order: seq<string>)
    requires Settling(s, g, order, 0) && (forall k :: k in order ==> Aggregated(g, k)) && Enabled(s, step)
    ensures !Oversteps(s, step)
  {
    hide Replay, Effective, Next;
    if step.Write? {
      assert step.name in order;
    }
  }

  /** Where only roles that stay aggregated are written, no run oversteps. */
  lemma {:induction false} NeverOversteps(s: State, steps: seq<Step>, s': State, g: Roles, order: seq<string>)
    requires Settling(s, g, order, 0) && Covering(order, g) && (forall k :: k in order ==> Aggregated(g, k))
    requires Run(s, steps, s') && NoneOutside(steps)
    ensures !Overstepped(s, steps)
    decreases |steps|
  {
    if steps != [] {
      hide Settling, Covering, Next, Enabled, Oversteps;
      SettlingKept(s, steps[0], g, order, 0);
      NoOverstepNow(s, steps[0], g, order);
      assert NoneOutside(steps[1..]);
      NeverOversteps(Next(s, steps[0]), steps[1..], s', g, order);
    }
  }

  /** Caught up and without strays, on an acyclic graph: at most 4^n - 1 changes of the store for n aggregated roles,
      and only of their rules. */
  lemma CaughtUpWrites(s0: State, before: seq<Step>, s: State, steps: seq<Step>, s': State)
    requires Initial(s0) && Run(s0, before, s) && s.watch == [] && (forall k :: !Stray(s, k)) && Acyclic(s.store)
    requires Run(s, steps, s') && NoneOutside(steps)
    ensures EffectiveWrites(s, steps) <= Pow4(|AggregatedRoles(s.store)|) - 1
    ensures !Overstepped(s, steps) && SameGraph(s'.store, s.store)
  {
    hide Acyclic, Run, EffectiveWrites, Pow4, Overstepped, Settling, Inv, Initial, DependsOn, Follows;
    hide Potential;
    CaughtUpCache(s0, before, s);
    var order := OrderExists(s.store);
    FollowsItself(s.store);
    forall k | IsListing(s, k) ensures k in order {
      assert !Stray(s, k);
    }
    CaughtUpSettles(s, s.store, order);
    var m := WritesPaid(s, steps, s', s.store, order, 0);
    NeverOversteps(s, steps, s', s.store, order);
    RunKeepsGraph(s, steps, s', s.store);
    PotentialBound(s, order);
  }

  /* ---- overstepping shows for ever ---- */

  /** The ordinary role `k`, or one that was not there, has rules it did not have in `g`. */
  ghost predicate Marked(s: State, k: string, g: Roles) {
    && !Aggregated(g, k) && !Aggregated(s.cache, k) && !IsListing(s, k)
    && k in s.store && (k in g ==> s.store[k].rules != g[k].rules)
  }

  lemma MarkKept(s: State, step: Step, k: string, g: Roles, x: Roles, order: seq<string>)
    requires Marked(s, k, g) && Settling(s, x, order, 0) && Covering(order, x) && !Aggregated(x, k)
    requires Enabled(s, step) && !Outside(step)
    ensures Marked(Next(s, step), k, g)
  {
    hide AddSelector, Follows, Replay;
    if step.Deliver? {
      assert NewEvent(s.watch[0], x, order);
    }
  }

  lemma {:induction false} MarkStays(s: State, steps: seq<Step>, s': State, k: string, g: Roles, x: Roles,
                                     order: seq<string>)
    requires Marked(s, k, g) && Settling(s, x, order, 0) && Covering(order, x) && !Aggregated(x, k)
    requires Run(s, steps, s') && NoneOutside(steps)
    ensures !SameGraph(s'.store, g)
    decreases |steps|
  {
    if steps != [] {
      hide Marked, Settling, Covering, Next, Enabled;
      SettlingKept(s, steps[0], x, order, 0);
      MarkKept(s, steps[0], k, g, x, order);
      assert NoneOutside(steps[1..]);
      MarkStays(Next(s, steps[0]), steps[1..], s', k, g, x, order);
    }
  }

  lemma OverstepMarks(s: State, step: Step, g: Roles, x: Roles, order: seq<string>)
    requires SameGraph(s.store, g) && Settling(s, x, order, 0) && AggregatedRoles(x) == AggregatedRoles(g)
    requires Enabled(s, step) && Oversteps(s, step)
    ensures step.Write? && Marked(Next(s, step), step.name, g) && !Aggregated(x, step.name)
  {
    hide Covering;
    var k := step.name;
    assert s.watch[..0] == [];
    assert !Aggregated(g, k) && k !in AggregatedRoles(g) && k !in AggregatedRoles(x);
  }

  lemma {:induction false} OverstepShows(s: State, steps: seq<Step>, s': State, g: Roles, x: Roles, order: seq<string>)
    requires SameGraph(s.store, g) && Settling(s, x, order, 0) && Covering(order, x)
    requires AggregatedRoles(x) == AggregatedRoles(g)
    requires Run(s, steps, s') && NoneOutside(steps) && Overstepped(s, steps)
    ensures !SameGraph(s'.store, g)
    decreases |steps|
  {
    hide SameGraph, Settling, Covering, Next, Enabled, Oversteps, Marked, AggregatedRoles;
    var step, s1 := steps[0], Next(s, steps[0]);
    assert NoneOutside(steps[1..]);
    SettlingKept(s, step, x, order, 0);
    if Oversteps(s, step) {
      OverstepMarks(s, step, g, x, order);
      MarkStays(s1, steps[1..], s', step.name, g, x, order);
    } else {
      StepKeepsGraph(s, step, g);
      OverstepShows(s1, steps[1..], s', g, x, order);
    }
  }

  /** Once the cache has caught up, a run leaves the graph as it was, ordinary roles and all, if and only if none of its
      writes oversteps. */
  lemma GraphKeptIff(s0: State, before: seq<Step>, s: State, steps: seq<Step>, s': State)
    requires Initial(s0) && Run(s0, before, s) && s.watch == [] && Run(s, steps, s') && NoneOutside(steps)
    ensures SameGraph(s'.store, s.store) <==> !Overstepped(s, steps)
  {
    hide Run, Overstepped, Settling, Inv, Initial, Known, Follows;
    CaughtUpCache(s0, before, s);
    ReachableInv(s0, before, s);
    if Overstepped(s, steps) {
      var x := Extended(s.store, Known(s));
      ExtendedFollows(s.store, Known(s));
      var order := EnumerationExists(Known(s));
      KnowsListings(s, order);
      CaughtUpSettles(s, x, order);
      OverstepShows(s, steps, s', s.store, x, order);
    } else {
      RunKeepsGraph(s, steps, s', s.store);
    }
  }

  lemma KnowsListings(s: State, order: seq<string>)
    requires forall k :: k in order <==> k in Known(s)
    ensures forall k :: IsListing(s, k) ==> k in order
  {
    assert forall k :: IsListing(s, k) ==> k in Listings(s);
  }

  /* ---- which states can overstep ---- */

  ghost predicate CanOverstep(s: State) {
    exists steps, s' :: Run(s, steps, s') && NoneOutside(steps) && Overstepped(s, steps)
  }

  /** The sync has been through its first selectors; every selector left is in bounds. */
  ghost predicate UnderWay(s: State, k: string) {
    && IsListing(s, k) && s.processing[k].role.selectors.Some?
    && s.processing[k].next <= |s.processing[k].role.selectors.value|
  }

  ghost function SelectorsLeft(s: State, k: string): seq<Selector>
    requires UnderWay(s, k)
  {
    s.processing[k].role.selectors.value[s.processing[k].next..]
  }

  /** What the sync ends up with if the cache stays as it is. */
  ghost function Outcome(s: State, k: string): seq<Rule>
    requires UnderWay(s, k)
  {
    AddSelectors(s.processing[k].rules, s.cache, k, SelectorsLeft(s, k))
  }

  /** Going on undisturbed it would overstep: its role is gone, or ordinary, and its rules differ from those it
      fetched and from those there are. */
  ghost predicate WouldOverstep(s: State, k: string) {
    && UnderWay(s, k) && Stray(s, k) && Outcome(s, k) != s.processing[k].role.rules
    && (k in s.store ==> Outcome(s, k) != s.store[k].rules)
  }

  /** No aggregated role is left for the sync to read. */
  ghost predicate ReadsOrdinary(s: State, k: string)
    requires UnderWay(s, k)
  {
    forall j :: j != k && Aggregated(s.store, j) ==> !Selects(SelectorsLeft(s, k), s.store[j].labels)
  }

  lemma {:induction false} FirstSelector(acc: seq<Rule>, roles: Roles, self: string, ss: seq<Selector>)
    requires ss != []
    ensures AddSelectors(acc, roles, self, ss) ==
              AddSelectors(AddSelector(acc, roles, self, ss[0]), roles, self, ss[1..])
    decreases |ss|
  {
    hide AddSelector;
    var n := |ss| - 1;
    if n == 0 {
      assert ss[..0] == [] && ss[1..] == [];
      assert AddSelectors(acc, roles, self, []) == acc;
    } else {
      assert ss[..n][1..] == ss[1..][..n - 1] && ss[..n][0] == ss[0];
      FirstSelector(acc, roles, self, ss[..n]);
    }
  }

  lemma OneSelectorOn(s: State, k: string)
    requires UnderWay(s, k) && SelectorsLeft(s, k) != []
    ensures Enabled(s, ListSelector(k)) && UnderWay(Next(s, ListSelector(k)), k)
    ensures SelectorsLeft(Next(s, ListSelector(k)), k) == SelectorsLeft(s, k)[1..]
    ensures Outcome(Next(s, ListSelector(k)), k) == Outcome(s, k)
  {
    hide AddSelector, AddSelectors;
    FirstSelector(s.processing[k].rules, s.cache, k, SelectorsLeft(s, k));
  }

  /** It can. */
  lemma {:induction false} GoingOn(s: State, k: string) returns (steps: seq<Step>, s': State)
    requires WouldOverstep(s, k)
    ensures Run(s, steps, s') && NoneOutside(steps) && Overstepped(s, steps)
    decreases if UnderWay(s, k) then |SelectorsLeft(s, k)| else 0
  {
    hide AddSelectors;
    if SelectorsLeft(s, k) == [] {
      NoSelectors(s.processing[k].rules, s.cache, k);
      steps, s' := [Write(k)], Next(s, Write(k));
      assert steps[1..] == [];
    } else {
      OneSelectorOn(s, k);
      var rest;
      rest, s' := GoingOn(Next(s, ListSelector(k)), k);
      steps := [ListSelector(k)] + rest;
      assert steps[1..] == rest;
    }
  }

  lemma NoSelectors(acc: seq<Rule>, roles: Roles, self: string)
    ensures AddSelectors(acc, roles, self, []) == acc
  {
  }

  /** A stray that reads no aggregated role, and would not overstep. */
  ghost predicate TameStray(s: State, k: string, g: Roles) {
    && UnderWay(s, k)
    && (forall j :: j != k && Aggregated(g, j) ==> !Selects(SelectorsLeft(s, k), g[j].labels))
    && (Outcome(s, k) == s.processing[k].role.rules || (k in g && Outcome(s, k) == g[k].rules))
  }

  /** Only rules of aggregated roles differ from `g` anywhere, and all strays are tame. */
  ghost predicate Tame(s: State, g: Roles) {
    && SameGraph(s.store, g) && SameGraph(s.cache, g)
    && (forall i :: 0 <= i < |s.watch| ==> TameEvent(s.watch[i], g))
    && (forall k :: IsListing(s, k) && !Aggregated(g, k) ==> TameStray(s, k, g))
  }

  ghost predicate TameEvent(e: Event, g: Roles) {
    e.Put? && Aggregated(g, e.name) && SameKind(e.role, g[e.name])
  }

  /** A change of an aggregated role's rules is nothing to a stray that reads none. */
  lemma TameThroughDelivery(s: State, s': State, k: string, e: Event, g: Roles)
    requires SameGraph(s.cache, g) && TameEvent(e, g) && !Aggregated(g, k) && TameStray(s, k, g)
    requires s'.cache == ApplyEvent(s.cache, e) && s'.processing == s.processing
    ensures TameStray(s', k, g)
  {
    hide AddSelectors, Selects;
    AddSelectorsSame(s.processing[k].rules, s.cache, s'.cache, k, SelectorsLeft(s, k));
  }

  lemma TameThroughListing(s: State, k: string, g: Roles)
    requires TameStray(s, k, g) && Enabled(s, ListSelector(k))
    ensures TameStray(Next(s, ListSelector(k)), k, g)
  {
    hide AddSelectors, AddSelector, Selects;
    OneSelectorOn(s, k);
    var s', left := Next(s, ListSelector(k)), SelectorsLeft(s, k);
    forall j | j != k && Aggregated(g, j) ensures !Selects(left[1..], g[j].labels) {
      FewerSelect(left, g[j].labels);
    }
  }

  lemma FewerSelect(ss: seq<Selector>, labels: map<string, string>)
    requires ss != []
    ensures Selects(ss[1..], labels) ==> Selects(ss, labels)
  {
    if i :| 0 <= i < |ss[1..]| && Matches(ss[1..][i], labels) {
      assert ss[i + 1] == ss[1..][i];
    }
  }

  /** Unless it writes, nothing but deliveries and its own steps touch a stray. */
  lemma TameKeeps(s: State, step: Step, g: Roles)
    requires Tame(s, g) && Enabled(s, step) && !Outside(step) && !step.Write? && !step.Deliver? && !step.ListSelector?
    ensures Tame(Next(s, step), g)
  {
    hide AddSelectors, Selects;
    var s' := Next(s, step);
    forall k | IsListing(s', k) && !Aggregated(g, k) ensures TameStray(s', k, g) {
      assert IsListing(s, k) && TameStray(s, k, g) && s'.processing[k] == s.processing[k];
    }
  }

  lemma TameDelivery(s: State, g: Roles)
    requires Tame(s, g) && Enabled(s, Deliver)
    ensures Tame(Next(s, Deliver), g)
  {
    hide TameStray;
    var e, s' := s.watch[0], Next(s, Deliver);
    assert TameEvent(e, g) && forall i :: 0 <= i < |s'.watch| ==> s'.watch[i] == s.watch[i + 1];
    forall k | IsListing(s', k) && !Aggregated(g, k) ensures TameStray(s', k, g) {
      TameThroughDelivery(s, s', k, e, g);
    }
  }

  lemma TameListing(s: State, k: string, g: Roles)
    requires Tame(s, g) && Enabled(s, ListSelector(k))
    ensures Tame(Next(s, ListSelector(k)), g)
  {
    hide AddSelector, AddSelectors, Selects;
    var s' := Next(s, ListSelector(k));
    forall j | IsListing(s', j) && !Aggregated(g, j) ensures TameStray(s', j, g) {
      if j == k {
        TameThroughListing(s, k, g);
      } else {
        assert TameStray(s, j, g) && s'.processing[j] == s.processing[j];
      }
    }
  }

  lemma TameWrite(s: State, k: string, g: Roles)
    requires Tame(s, g) && Enabled(s, Write(k))
    ensures !Oversteps(s, Write(k)) && Tame(Next(s, Write(k)), g)
  {
    hide AddSelectors, Selects;
    var s' := Next(s, Write(k));
    if !Aggregated(g, k) {
      assert TameStray(s, k, g) && SelectorsLeft(s, k) == [];
      NoSelectors(s.processing[k].rules, s.cache, k);
    }
    forall j | IsListing(s', j) && !Aggregated(g, j) ensures TameStray(s', j, g) {
      assert TameStray(s, j, g) && s'.processing[j] == s.processing[j];
    }
  }

  lemma {:induction false} TameNeverOversteps(s: State, steps: seq<Step>, s': State, g: Roles)
    requires Tame(s, g) && Run(s, steps, s') && NoneOutside(steps)
    ensures !Overstepped(s, steps)
    decreases |steps|
  {
    if steps != [] {
      hide Tame, Next, Enabled;
      var step := steps[0];
      if step.Write? {
        TameWrite(s, step.name, g);
      } else if step.Deliver? {
        TameDelivery(s, g);
      } else if step.ListSelector? {
        TameListing(s, step.name, g);
      } else {
        TameKeeps(s, step, g);
      }
      assert NoneOutside(steps[1..]);
      TameNeverOversteps(Next(s, step), steps[1..], s', g);
    }
  }

  lemma ListingUnderWay(s: State, k: string)
    requires Inv(s) && IsListing(s, k)
    ensures UnderWay(s, k)
  {
    assert WorkerOk(s, k);
  }

  lemma StartsTame(s: State)
    requires Inv(s) && s.watch == [] && s.cache == s.store
    requires forall k :: Stray(s, k) && UnderWay(s, k) ==> ReadsOrdinary(s, k) && !WouldOverstep(s, k)
    ensures Tame(s, s.store)
  {
    hide AddSelectors, Selects, Inv;
    forall k | IsListing(s, k) && !Aggregated(s.store, k) ensures TameStray(s, k, s.store) {
      ListingUnderWay(s, k);
      assert Stray(s, k);
    }
  }

  /** Once the cache has caught up and no stray is left an aggregated role to read, some run oversteps if and only if
      some sync, going on undisturbed, would; in particular none does when there are no strays.  A stray that would
      overstep now can do so in any state. */
  lemma OverstepIff(s0: State, before: seq<Step>, s: State)
    requires Initial(s0) && Run(s0, before, s)
    ensures (exists k :: WouldOverstep(s, k)) ==> CanOverstep(s)
    ensures s.watch == [] && (forall k :: Stray(s, k) && UnderWay(s, k) ==> ReadsOrdinary(s, k)) ==>
              (CanOverstep(s) <==> exists k :: WouldOverstep(s, k))
  {
    hide Run, Overstepped, Inv, Initial, WouldOverstep, ReadsOrdinary;
    if k :| WouldOverstep(s, k) {
      var _, _ := GoingOn(s, k);
    } else if s.watch == [] && forall k :: Stray(s, k) && UnderWay(s, k) ==> ReadsOrdinary(s, k) {
      CaughtUpCache(s0, before, s);
      StartsTame(s);
      forall steps, s' | Run(s, steps, s') && NoneOutside(steps) ensures !Overstepped(s, steps) {
        TameNeverOversteps(s, steps, s', s.store);
      }
    }
  }
}
