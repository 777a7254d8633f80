/** From any reachable state on, once the outside world falls silent: however many changes are undelivered and however
    stale the syncs in progress, the store changes only finitely often, and what it rests on is determined. */
module AggregationRest {
  import opened Base
  import opened Aggregation
  import opened AggregationController
  import opened AggregationConvergence
  import opened AggregationGraph

  /* ---- every role that can still be written ---- */

  ghost function Listings(s: State): set<string> {
    set k | k in s.processing && IsListing(s, k)
  }

  /** The roles in the cache, those in undelivered changes, and those a sync is in progress for. */
  ghost function Known(s: State): set<string> {
    s.cache.Keys + (set e | e in s.watch :: e.name) + Listings(s)
  }

  lemma {:induction false} ReplayKeys(roles: Roles, es: seq<Event>, ks: set<string>)
    requires roles.Keys <= ks && forall e :: e in es ==> e.name in ks
    ensures Replay(roles, es).Keys <= ks
    decreases |es|
  {
    if es != [] {
      assert es == [es[0]] + es[1..];
      ReplayKeys(ApplyEvent(roles, es[0]), es[1..], ks);
    }
  }

  /** The store once every known role that is missing has been created blank. */
  ghost function Extended(g: Roles, ks: set<string>): Roles {
    map k | k in ks :: if k in g then g[k] else Role(map[], None, [])
  }

  lemma ExtendedFollows(g: Roles, ks: set<string>)
    requires g.Keys <= ks
    ensures Follows(g, Extended(g, ks)) && AggregatedRoles(Extended(g, ks)) == AggregatedRoles(g)
  {
  }

  lemma ExtendedDepends(g: Roles, ks: set<string>, k: string, j: string)
    requires g.Keys <= ks && DependsOn(Extended(g, ks), k, j)
    ensures Aggregated(g, k) && (j in g ==> DependsOn(g, k, j))
  {
  }

  lemma {:induction false} ExtendedPath(g: Roles, ks: set<string>, p: seq<string>)
    requires g.Keys <= ks && Path(Extended(g, ks), p) && p[|p| - 1] in g
    ensures Path(g, p) && p[0] in g
    decreases |p|
  {
    hide Extended, DependsOn;
    if |p| > 1 {
      ExtendedPath(g, ks, p[1..]);
      ExtendedDepends(g, ks, p[0], p[1]);
    }
  }

  /** New roles without selectors close no cycle. */
  lemma ExtendedAcyclic(g: Roles, ks: set<string>)
    requires g.Keys <= ks && Acyclic(g)
    ensures Acyclic(Extended(g, ks))
  {
    hide Extended, DependsOn;
    var x := Extended(g, ks);
    forall p ensures !Cycle(x, p) {
      assert !Cycle(g, p);
      if |p| > 1 && Path(x, p) && p[0] == p[|p| - 1] {
        ExtendedDepends(g, ks, p[0], p[1]);
        ExtendedPath(g, ks, p);
      }
    }
  }

  /** Ordinary roles may stand before all others. */
  lemma RankedExists(g: Roles) returns (order: seq<string>)
    requires Acyclic(g)
    ensures Ranked(order, g) && |order| == |g.Keys| && forall k :: k in order <==> k in g
  {
    hide Acyclic;
    var aggregated := OrderExists(g);
    var others := EnumerationExists(g.Keys - AggregatedRoles(g));
    order := others + aggregated;
    forall i, j | 0 <= i <= j < |order| ensures !DependsOn(g, order[i], order[j]) {
      if i < |others| {
        assert order[i] == others[i] && others[i] !in AggregatedRoles(g);
      } else {
        assert order[i] == aggregated[i - |others|] && order[j] == aggregated[j - |others|];
      }
    }
    forall i, j | 0 <= i < j < |order| ensures order[i] != order[j] {
      if i < |others| <= j {
        assert others[i] !in AggregatedRoles(g) && aggregated[j - |others|] in aggregated;
      }
    }
    assert forall k :: Aggregated(g, k) ==> k in aggregated;
    DistinctLength(order, g.Keys);
  }

  /* ---- finitely many writes ---- */

  lemma ReachableInv(s0: State, before: seq<Step>, s: State)
    requires Initial(s0) && Run(s0, before, s)
    ensures Inv(s) && Replay(s.cache, s.watch) == s.store && s.store.Keys <= Known(s)
  {
    InitialInv(s0);
    RunKeepsInv(s0, before, s);
    ReplayKeys(s.cache, s.watch, Known(s));
  }

  lemma SilentIsSettling(s: State, order: seq<string>)
    requires Replay(s.cache, s.watch) == s.store && s.store.Keys <= Known(s)
    requires forall k :: k in order <==> k in Known(s)
    ensures Settling(s, Extended(s.store, Known(s)), order, |s.watch|)
  {
    ExtendedFollows(s.store, Known(s));
    assert s.watch[..|s.watch|] == s.watch;
    assert forall i :: 0 <= i < |s.watch| ==> s.watch[i] in s.watch;
    forall k | IsListing(s, k) ensures k in order {
      assert k in Listings(s);
    }
  }

  /** Every reachable state is on its way to rest, as far as the roles it knows of go. */
  lemma ReachableSettles(s0: State, before: seq<Step>, s: State) returns (g: Roles, order: seq<string>)
    requires Initial(s0) && Run(s0, before, s) && Acyclic(s.store)
    ensures Inv(s) && g == Extended(s.store, Known(s)) && Acyclic(g) && Ranked(order, g) && |order| == |Known(s)|
    ensures Settling(s, g, order, |s.watch|)
  {
    hide Acyclic, Inv, Known, Ranked, Settling, Initial;
    ReachableInv(s0, before, s);
    g := Extended(s.store, Known(s));
    assert g.Keys == Known(s);
    ExtendedAcyclic(s.store, Known(s));
    order := RankedExists(g);
    SilentIsSettling(s, order);
  }

  /** The aggregation converges.  From any reachable state with an acyclic selector graph, whatever changes are
      undelivered, whatever syncs are in progress and whatever the controller's components do in whatever order, they
      change the store at most (w + 1)(4^n - 1) times, for w undelivered changes and n known roles. */
  lemma FinitelyManyWrites(s0: State, before: seq<Step>, s: State, steps: seq<Step>, s': State)
    requires Initial(s0) && Run(s0, before, s) && Acyclic(s.store)
    requires Run(s, steps, s') && forall i :: 0 <= i < |steps| ==> !Outside(steps[i])
    ensures EffectiveWrites(s, steps) <= (|s.watch| + 1) * (Pow4(|Known(s)|) - 1)
  {
    hide Acyclic, Run, Potential, EffectiveWrites, Pow4, Known, Ranked, Settling, Inv, Initial, Extended;
    var g, order := ReachableSettles(s0, before, s);
    var m := WritesPaid(s, steps, s', g, order, |s.watch|);
    PotentialBound(s, order);
  }

  lemma PotentialBound(s: State, order: seq<string>)
    ensures Potential(s, order, |s.watch|) <= (|s.watch| + 1) * (Pow4(|order|) - 1)
  {
    hide Credit, Pow4;
    CreditBound(s, order);
    assert s.watch[|s.watch|..] == [];
    var p := Pow4(|order|) - 1;
    assert (|s.watch| + 1) * p == |s.watch| * p + p;
  }

  /* ---- what a run without overstepping leaves as it is ---- */

  /** The write goes to a role that is not an aggregated one any more: it brings a deleted role back, or replaces the
      rules of an ordinary one. */
  ghost predicate Oversteps(s: State, step: Step)
    requires Enabled(s, step)
  {
    step.Write? && !Aggregated(s.store, step.name) && Effective(s.store, Next(s, step).store)
  }

  ghost predicate Overstepped(s: State, steps: seq<Step>)
    decreases |steps|
  {
    && steps != [] && Enabled(s, steps[0])
    && (Oversteps(s, steps[0]) || Overstepped(Next(s, steps[0]), steps[1..]))
  }

  lemma StepKeepsGraph(s: State, step: Step, g: Roles)
    requires SameGraph(s.store, g) && Enabled(s, step) && !Outside(step) && !Oversteps(s, step)
    ensures SameGraph(Next(s, step).store, g)
  {
    hide AddSelector;
  }

  lemma {:induction false} RunKeepsGraph(s: State, steps: seq<Step>, s': State, g: Roles)
    requires SameGraph(s.store, g) && Run(s, steps, s') && (forall i :: 0 <= i < |steps| ==> !Outside(steps[i]))
    requires !Overstepped(s, steps)
    ensures SameGraph(s'.store, g)
    decreases |steps|
  {
    if steps != [] {
      hide SameGraph, Next, Oversteps;
      StepKeepsGraph(s, steps[0], g);
      RunKeepsGraph(Next(s, steps[0]), steps[1..], s', g);
    }
  }

  /* ---- at rest ---- */

  lemma IdleIsAtRest(s: State)
    requires Inv(s) && Idle(s)
    ensures s.cache == s.store && AtRest(s.store)
  {
    hide Aggregate;
  }

  /** Whenever it comes to rest, the same roles are aggregated, by the same selectors, and each has exactly the rules
      of the ordinary roles its selectors lead to. */
  lemma RestIsExact(s0: State, before: seq<Step>, s: State, steps: seq<Step>, s': State, k: string, r: Rule)
    requires Initial(s0) && Run(s0, before, s) && Acyclic(s.store)
    requires Run(s, steps, s') && (forall i :: 0 <= i < |steps| ==> !Outside(steps[i])) && Idle(s')
    ensures Aggregated(s'.store, k) <==> Aggregated(s.store, k)
    ensures Aggregated(s.store, k) ==>
              SameKind(s'.store[k], s.store[k]) && (r in s'.store[k].rules <==> Reaches(s'.store, k, r))
  {
    hide Acyclic, Run, Reaches, Ranked, Potential, EffectiveWrites, Initial, Inv, Idle, AtRest, Settling, Known;
    hide Extended;
    var g, order := ReachableSettles(s0, before, s);
    var m := WritesPaid(s, steps, s', g, order, |s.watch|);
    ReachableInv(s0, before, s);
    RunKeepsInv(s, steps, s');
    IdleIsAtRest(s');
    SettlingFollows(s', g, order, m);
    ExtendedFollows(s.store, Known(s));
    SameAggregated(s'.store, s.store, g, k);
    FollowsAcyclic(s'.store, g);
    if Aggregated(s'.store, k) {
      RestMeansReachable(s'.store, k, r);
    }
  }

  lemma SettlingFollows(s: State, g: Roles, order: seq<string>, m: nat)
    requires Settling(s, g, order, m)
    ensures Follows(s.store, g)
  {
  }

  lemma SameAggregated(a: Roles, b: Roles, g: Roles, k: string)
    requires Follows(a, g) && Follows(b, g)
    ensures Aggregated(a, k) <==> Aggregated(b, k)
    ensures Aggregated(b, k) ==> SameKind(a[k], b[k])
  {
  }

  /** Where no write oversteps, that is what its selectors led to at the start, whatever happened in between. */
  lemma RestIsDetermined(s0: State, before: seq<Step>, s: State, steps: seq<Step>, s': State, k: string, r: Rule)
    requires Initial(s0) && Run(s0, before, s) && Acyclic(s.store) && Aggregated(s.store, k)
    requires Run(s, steps, s') && (forall i :: 0 <= i < |steps| ==> !Outside(steps[i])) && Idle(s')
    requires !Overstepped(s, steps)
    ensures SameGraph(s'.store, s.store) && k in s'.store && (r in s'.store[k].rules <==> Reaches(s.store, k, r))
  {
    hide Acyclic, Run, LeadsTo, Idle, Overstepped, Initial;
    RestIsExact(s0, before, s, steps, s', k, r);
    RunKeepsGraph(s, steps, s', s.store);
    forall p ensures LeadsTo(s'.store, k, p, r) <==> LeadsTo(s.store, k, p, r) {
      SameLeads(s'.store, s.store, k, p, r);
    }
  }
}
