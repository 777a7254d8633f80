/** Why the selector graph must be acyclic: at rest a role is sure to have exactly the rules its selectors lead to if
    and only if no path through the selectors takes it into a cycle. */
module AggregationCycles {
  import opened Base
  import opened Aggregation
  import opened AggregationController
  import opened AggregationGraph

  ghost predicate Repeats(p: seq<string>) {
    exists i, j :: 0 <= i < j < |p| && p[i] == p[j]
  }

  ghost predicate LoopFrom(g: Roles, k: string, p: seq<string>) {
    Path(g, p) && p[0] == k && Repeats(p)
  }

  /** Some path through the selectors leads from `k` into a cycle. */
  ghost predicate Loops(g: Roles, k: string) {
    exists p :: LoopFrom(g, k, p)
  }

  /** Whatever the roles' rules: at rest, `k` has exactly the rules its selectors lead to. */
  ghost predicate AlwaysExact(g: Roles, k: string) {
    forall a: Roles, r: Rule :: SameSelectors(a, g) && AtRest(a) && Aggregated(a, k) ==>
      (r in a[k].rules <==> Reaches(a, k, r))
  }

  /* ---- without a cycle ahead, rules have an origin ---- */

  lemma {:induction false} PathSnoc(g: Roles, p: seq<string>, m: string)
    requires Path(g, p) && DependsOn(g, p[|p| - 1], m)
    ensures Path(g, p + [m])
    decreases |p|
  {
    hide DependsOn;
    if |p| > 1 {
      PathSnoc(g, p[1..], m);
      assert (p + [m])[1..] == p[1..] + [m];
    } else {
      assert (p + [m])[1..] == [m];
    }
  }

  lemma {:induction false} PathWithin(g: Roles, p: seq<string>)
    requires Path(g, p) && p[0] in g
    ensures AggregationGraph.Within(p, g.Keys)
  {
    if |p| > 1 {
      PathWithin(g, p[1..]);
      assert p == [p[0]] + p[1..];
    }
  }

  /** Follows a rule from role to role until it comes to an ordinary one. */
  lemma {:induction false} FollowRule(a: Roles, p: seq<string>, r: Rule) returns (q: seq<string>)
    requires AtRest(a) && p != [] && Path(a, p) && p[0] in a && !Loops(a, p[0])
    requires Aggregated(a, p[|p| - 1]) && r in a[p[|p| - 1]].rules
    ensures LeadsTo(a, p[0], q, r)
    decreases |a| + 1 - |p|
  {
    hide Path, Loops, Selects;
    var k := p[|p| - 1];
    PathWithin(a, p);
    if |p| > |a.Keys| {
      var i, j := Pigeonhole(p, a.Keys);
      assert Repeats(p);
      assert LoopFrom(a, p[0], p);
      LoopsBy(a, p[0], p);
      assert false;
    }
    AggregateMeans(a, k);
    assert UpToDate(a, k);
    var m :| DependsOn(a, k, m) && r in a[m].rules;
    PathSnoc(a, p, m);
    if Aggregated(a, m) {
      q := FollowRule(a, p + [m], r);
    } else {
      q := p + [m];
    }
  }

  lemma LoopsBy(g: Roles, k: string, p: seq<string>)
    requires LoopFrom(g, k, p)
    ensures Loops(g, k)
  {
  }

  lemma SameLoops(a: Roles, g: Roles, k: string)
    requires SameSelectors(a, g)
    ensures Loops(a, k) <==> Loops(g, k)
  {
    hide SameSelectors, Path, Repeats;
    forall p ensures LoopFrom(a, k, p) <==> LoopFrom(g, k, p) {
      SamePaths(a, g, p);
    }
  }

  /* ---- with one, a rule can keep itself alive ---- */

  /** A role leads into a cycle exactly when some role it takes rules from does. */
  lemma LoopsOn(g: Roles, k: string)
    ensures Loops(g, k) <==> exists m :: DependsOn(g, k, m) && Loops(g, m)
  {
    hide DependsOn, Loops;
    if Loops(g, k) {
      var m := LoopNext(g, k);
    }
    if m :| DependsOn(g, k, m) && Loops(g, m) {
      LoopBefore(g, k, m);
    }
  }

  lemma LoopBefore(g: Roles, k: string, m: string)
    requires DependsOn(g, k, m) && Loops(g, m)
    ensures Loops(g, k)
  {
    hide DependsOn;
    var p :| LoopFrom(g, m, p);
    var i, j :| 0 <= i < j < |p| && p[i] == p[j];
    var q := [k] + p;
    assert q[1..] == p && q[i + 1] == q[j + 1];
    assert LoopFrom(g, k, q);
  }

  lemma LoopNext(g: Roles, k: string) returns (m: string)
    requires Loops(g, k)
    ensures DependsOn(g, k, m) && Loops(g, m)
  {
    hide DependsOn;
    var p :| LoopFrom(g, k, p);
    var i, j :| 0 <= i < j < |p| && p[i] == p[j];
    m := p[1];
    if i > 0 {
      assert p[1..][i - 1] == p[1..][j - 1];
      assert LoopFrom(g, m, p[1..]);
    } else {
      PathSlice(g, p, 1, j + 1);
      PathSnoc(g, p[1..j + 1], m);
      var q := p[1..j + 1] + [m];
      assert q[0] == q[j];
      assert LoopFrom(g, m, q);
    }
  }

  const LONER := Rule(["get"], [""], ["pods"], [], [])

  /** One rule, held by the roles that lead into a cycle and by no other. */
  ghost function Haunted(g: Roles): Roles {
    map k | k in g :: g[k].(rules := if Loops(g, k) then [LONER] else [])
  }

  lemma FirstTwo(q: seq<Rule>)
    requires |q| > 1
    ensures q[0] in q && q[1] in q
  {
  }

  lemma OnlyRule(q: seq<Rule>, r: Rule)
    requires NoDuplicates(q) && forall x :: x in q <==> x == r
    ensures q == [r]
  {
    assert r in q;
    if |q| > 1 {
      FirstTwo(q);
      assert false;
    }
  }

  lemma First(q: seq<Rule>)
    requires q != []
    ensures q[0] in q
  {
  }

  lemma HauntedUpToDate(g: Roles, k: string)
    requires Aggregated(g, k)
    ensures UpToDate(Haunted(g), k)
  {
    hide DependsOn, Aggregate, NoDuplicates, Loops;
    var a := Haunted(g);
    assert SameSelectors(a, g);
    AggregateMeans(a, k);
    LoopsOn(g, k);
    forall m ensures DependsOn(a, k, m) <==> DependsOn(g, k, m) {
      SameDepends(a, g, k, m);
    }
    forall m | DependsOn(g, k, m) ensures m in g {
      DependsKnown(g, k, m);
    }
    if Loops(g, k) {
      OnlyRule(Aggregate(a, k), LONER);
    } else if Aggregate(a, k) != [] {
      First(Aggregate(a, k));
      assert false;
    }
  }

  lemma DependsKnown(g: Roles, k: string, m: string)
    requires DependsOn(g, k, m)
    ensures m in g && Aggregated(g, k)
  {
  }

  /** No ordinary role has the rule. */
  lemma NoOrigin(g: Roles, k: string)
    ensures !Reaches(Haunted(g), k, LONER)
  {
    hide DependsOn, Loops, Path;
    var a := Haunted(g);
    if p :| LeadsTo(a, k, p, LONER) {
      var m := p[|p| - 1];
      var n := LoopNext(g, m);
      DependsKnown(g, m, n);
      assert false;
    }
  }

  /** The exact condition, role by role. */
  lemma ExactIff(g: Roles, k: string)
    requires Aggregated(g, k)
    ensures AlwaysExact(g, k) <==> !Loops(g, k)
  {
    hide Loops, AtRest, Reaches;
    if !Loops(g, k) {
      forall a: Roles, r: Rule | SameSelectors(a, g) && AtRest(a) && Aggregated(a, k)
        ensures r in a[k].rules <==> Reaches(a, k, r)
      {
        SameLoops(a, g, k);
        ExactAt(a, k, r);
      }
    } else {
      var a := Haunted(g);
      HauntedRests(g);
      NoOrigin(g, k);
      assert SameSelectors(a, g) && LONER in a[k].rules;
    }
  }

  lemma HauntedRests(g: Roles)
    ensures AtRest(Haunted(g))
  {
    hide UpToDate, Loops;
    forall k | k in Haunted(g) ensures UpToDate(Haunted(g), k) {
      if Aggregated(g, k) {
        HauntedUpToDate(g, k);
      } else {
        OrdinaryUpToDate(Haunted(g), k);
      }
    }
  }

  lemma OrdinaryUpToDate(a: Roles, k: string)
    requires !Aggregated(a, k)
    ensures UpToDate(a, k)
  {
  }

  lemma ExactAt(a: Roles, k: string, r: Rule)
    requires AtRest(a) && Aggregated(a, k) && !Loops(a, k)
    ensures r in a[k].rules <==> Reaches(a, k, r)
  {
    hide AtRest, LeadsTo, Loops;
    if r in a[k].rules {
      var p := FollowRule(a, [k], r);
    }
    if p :| LeadsTo(a, k, p, r) {
      Arrived(a, k, p, r);
    }
  }

  /* ---- the whole graph ---- */

  lemma CycleLoops(g: Roles, p: seq<string>)
    requires Cycle(g, p)
    ensures Aggregated(g, p[0]) && Loops(g, p[0])
  {
    assert Repeats(p);
    assert LoopFrom(g, p[0], p);
  }

  lemma LoopsCycle(g: Roles, k: string)
    requires Loops(g, k)
    ensures !Acyclic(g)
  {
    hide DependsOn, Path;
    var p :| LoopFrom(g, k, p);
    var i, j :| 0 <= i < j < |p| && p[i] == p[j];
    PathSlice(g, p, i, j + 1);
    assert Cycle(g, p[i..j + 1]);
  }

  /** A selector graph is acyclic if and only if, whatever the rules, at rest every aggregated role has exactly the
      rules of the ordinary roles its selectors lead to. */
  lemma AcyclicIff(g: Roles)
    ensures Acyclic(g) <==> forall k :: Aggregated(g, k) ==> AlwaysExact(g, k)
  {
    hide AlwaysExact, Loops, Cycle;
    forall k | Aggregated(g, k) ensures AlwaysExact(g, k) <==> !Loops(g, k) {
      ExactIff(g, k);
    }
    forall k | Loops(g, k) ensures !Acyclic(g) {
      LoopsCycle(g, k);
    }
    if p :| Cycle(g, p) {
      CycleLoops(g, p);
    }
  }

  /* ---- an instance ---- */

  /** Two roles that take rules from each other. */
  const TWINS: Roles := map[
    "a" := Role(map["id" := "a"], Some([Selector(map["id" := "b"], [])]), [LONER]),
    "b" := Role(map["id" := "b"], Some([Selector(map["id" := "a"], [])]), [LONER])]

  lemma TwinTakes(k: string, j: string)
    requires k in TWINS && j in TWINS && k != j
    ensures DependsOn(TWINS, k, j)
  {
    assert Matches(TWINS[k].selectors.value[0], TWINS[j].labels);
  }

  /** The twins are at rest, and no ordinary role has the rule they hold. */
  lemma TwinsKeepRule()
    ensures AtRest(TWINS) && LONER in TWINS["a"].rules && !Reaches(TWINS, "a", LONER)
  {
    hide DependsOn, Loops, AtRest, Reaches;
    forall k | k in TWINS ensures Loops(TWINS, k) {
      var j := if k == "a" then "b" else "a";
      TwinTakes(k, j);
      TwinTakes(j, k);
      var c := [k, j, k];
      assert c[1..] == [j, k] && c[1..][1..] == [k];
      assert Path(TWINS, c[1..]) && c[0] == c[2];
      assert LoopFrom(TWINS, k, c);
      LoopsBy(TWINS, k, c);
    }
    assert Haunted(TWINS) == TWINS;
    HauntedRests(TWINS);
    NoOrigin(TWINS, "a");
  }
}
