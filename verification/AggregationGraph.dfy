/** The selector graph: an acyclic one can be put in order, and at rest an aggregated role has exactly the rules of the
    ordinary roles its selectors lead to. */
module AggregationGraph {
  import opened Aggregation
  import opened AggregationController
  import opened AggregationConvergence

  /** Each role on the path takes rules from the next. */
  ghost predicate Path(g: Roles, p: seq<string>) {
    p != [] && (|p| > 1 ==> DependsOn(g, p[0], p[1]) && Path(g, p[1..]))
  }

  ghost predicate Cycle(g: Roles, p: seq<string>) {
    |p| > 1 && Path(g, p) && p[0] == p[|p| - 1]
  }

  ghost predicate Acyclic(g: Roles) {
    forall p :: !Cycle(g, p)
  }

  /* ---- an acyclic graph has an order ---- */

  ghost predicate Within(p: seq<string>, s: set<string>) {
    forall i :: 0 <= i < |p| ==> p[i] in s
  }

  /** Inside `s` one can always go on. */
  ghost predicate Endless(g: Roles, s: set<string>) {
    forall k :: k in s ==> GoesOn(g, s, k)
  }

  ghost predicate GoesOn(g: Roles, s: set<string>, k: string) {
    exists m :: m in s && DependsOn(g, k, m)
  }

  lemma NextOn(g: Roles, s: set<string>, k: string) returns (m: string)
    requires GoesOn(g, s, k)
    ensures m in s && DependsOn(g, k, m)
  {
    m :| m in s && DependsOn(g, k, m);
  }

  lemma {:induction false} LongPath(g: Roles, s: set<string>, k: string, n: nat) returns (p: seq<string>)
    requires k in s && Endless(g, s)
    ensures |p| == n + 1 && p[0] == k && Path(g, p) && Within(p, s)
    decreases n
  {
    hide DependsOn, GoesOn;
    if n == 0 {
      p := [k];
    } else {
      var m := NextOn(g, s, k);
      var q := LongPath(g, s, m, n - 1);
      p := [k] + q;
      assert p[1..] == q;
    }
  }

  lemma {:induction false} PathSlice(g: Roles, p: seq<string>, i: nat, j: nat)
    requires Path(g, p) && i < j <= |p|
    ensures Path(g, p[i..j])
  {
    hide DependsOn;
    if i > 0 {
      assert p[1..][i - 1..j - 1] == p[i..j];
      PathSlice(g, p[1..], i - 1, j - 1);
    } else if j > 1 {
      assert p[..j][1..] == p[1..][0..j - 1];
      PathSlice(g, p[1..], 0, j - 1);
    }
  }

  lemma {:induction false} Pigeonhole(p: seq<string>, s: set<string>) returns (i: nat, j: nat)
    requires Within(p, s) && |p| > |s|
    ensures i < j < |p| && p[i] == p[j]
    decreases |p|
  {
    var n := |p| - 1;
    var x := p[n];
    if k :| 0 <= k < n && p[k] == x {
      i, j := k, n;
    } else {
      assert Within(p[..n], s - {x});
      i, j := Pigeonhole(p[..n], s - {x});
    }
  }

  lemma EndlessCycles(g: Roles, s: set<string>)
    requires s != {} && Endless(g, s)
    ensures !Acyclic(g)
  {
    hide DependsOn, Path, GoesOn;
    var k :| k in s;
    var p := LongPath(g, s, k, |s|);
    var i, j := Pigeonhole(p, s);
    PathSlice(g, p, i, j + 1);
    assert Cycle(g, p[i..j + 1]);
  }

  /** Everything an aggregated role on the list takes rules from is ordinary or comes before it. */
  ghost predicate Closed(g: Roles, order: seq<string>) {
    && (forall i, j :: 0 <= i < j < |order| ==> order[i] != order[j])
    && (forall i, m :: 0 <= i < |order| && Aggregated(g, m) && DependsOn(g, order[i], m) ==> m in order[..i])
    && (forall k :: k in order ==> Aggregated(g, k))
  }

  ghost function AggregatedRoles(g: Roles): set<string> {
    set k | k in g && Aggregated(g, k)
  }

  /** An unfinished list can be continued. */
  lemma NextInOrder(g: Roles, order: seq<string>) returns (k: string)
    requires Acyclic(g) && Closed(g, order) && !(forall k :: Aggregated(g, k) ==> k in order)
    ensures Aggregated(g, k) && k !in order && Closed(g, order + [k])
  {
    hide DependsOn;
    var rest := set k | k in g && Aggregated(g, k) && k !in order;
    var k0 :| Aggregated(g, k0) && k0 !in order;
    assert k0 in rest;
    if Endless(g, rest) {
      EndlessCycles(g, rest);
      k := k0;
    } else {
      k :| k in rest && !GoesOn(g, rest, k);
      ClosedSnoc(g, order, k);
    }
  }

  lemma ClosedSnoc(g: Roles, order: seq<string>, k: string)
    requires Closed(g, order) && Aggregated(g, k) && k !in order
    requires forall m :: Aggregated(g, m) && m !in order ==> !DependsOn(g, k, m)
    ensures Closed(g, order + [k])
  {
    hide DependsOn;
    var o := order + [k];
    forall i, m | 0 <= i < |o| && Aggregated(g, m) && DependsOn(g, o[i], m) ensures m in o[..i] {
      if i < |order| {
        assert o[i] == order[i] && o[..i] == order[..i];
      } else {
        assert o[..i] == order;
      }
    }
  }

  lemma {:induction false} CompleteOrder(g: Roles, order: seq<string>) returns (full: seq<string>)
    requires Acyclic(g) && Closed(g, order)
    ensures Closed(g, full) && forall k :: Aggregated(g, k) ==> k in full
    decreases AggregatedRoles(g) - (set k | k in order)
  {
    hide DependsOn, Acyclic;
    if forall k :: Aggregated(g, k) ==> k in order {
      full := order;
    } else {
      var k := NextInOrder(g, order);
      assert k in AggregatedRoles(g) - (set j | j in order);
      assert k in order + [k];
      assert (set j | j in order + [k]) == (set j | j in order) + {k};
      full := CompleteOrder(g, order + [k]);
    }
  }

  /** Every acyclic selector graph can be ordered. */
  lemma OrderExists(g: Roles) returns (order: seq<string>)
    requires Acyclic(g)
    ensures Ordered(order, g) && |order| == |AggregatedRoles(g)|
  {
    order := CompleteOrder(g, []);
    forall i, j | 0 <= i <= j < |order| ensures !DependsOn(g, order[i], order[j]) {
      hide DependsOn;
      assert Aggregated(g, order[j]);
      assert order[j] !in order[..i];
    }
    DistinctLength(order, AggregatedRoles(g));
  }

  lemma {:induction false} DistinctLength(q: seq<string>, s: set<string>)
    requires (forall i, j :: 0 <= i < j < |q| ==> q[i] != q[j]) && forall x :: x in q <==> x in s
    ensures |q| == |s|
    decreases |q|
  {
    if q == [] {
      assert s == {};
    } else {
      assert q == [q[0]] + q[1..];
      DistinctLength(q[1..], s - {q[0]});
    }
  }

  /* ---- at rest ---- */

  ghost predicate AtRest(roles: Roles) {
    forall k :: k in roles ==> UpToDate(roles, k)
  }

  /** The path leads from `k` to an ordinary role that has the rule. */
  ghost predicate LeadsTo(roles: Roles, k: string, p: seq<string>, r: Rule) {
    && Path(roles, p) && p[0] == k && |p| > 1
    && p[|p| - 1] in roles && !Aggregated(roles, p[|p| - 1]) && r in roles[p[|p| - 1]].rules
  }

  /** Some path through the selectors leads from `k` to an ordinary role that has the rule. */
  ghost predicate Reaches(roles: Roles, k: string, r: Rule) {
    exists p :: LeadsTo(roles, k, p, r)
  }

  /** Whatever a path leads to has arrived. */
  lemma {:induction false} Arrived(roles: Roles, k: string, p: seq<string>, r: Rule)
    requires AtRest(roles) && LeadsTo(roles, k, p, r)
    ensures Aggregated(roles, k) && r in roles[k].rules
    decreases |p|
  {
    AggregateMeans(roles, k);
    assert UpToDate(roles, k);
    if |p| > 2 {
      Arrived(roles, p[1], p[1..], r);
    }
    assert DependsOn(roles, k, p[1]) && r in roles[p[1]].rules;
  }

  /** A rule of an aggregated role comes from some role it takes rules from. */
  lemma Source(roles: Roles, k: string, r: Rule) returns (j: string)
    requires AtRest(roles) && Aggregated(roles, k) && r in roles[k].rules
    ensures DependsOn(roles, k, j) && r in roles[j].rules
  {
    hide Selects, Aggregate;
    assert UpToDate(roles, k);
    AggregateMeans(roles, k);
    j :| DependsOn(roles, k, j) && r in roles[j].rules;
  }

  lemma LeadsFirst(roles: Roles, k: string, j: string, r: Rule) returns (p: seq<string>)
    requires DependsOn(roles, k, j) && !Aggregated(roles, j) && r in roles[j].rules
    ensures LeadsTo(roles, k, p, r)
  {
    hide Selects;
    p := [k, j];
    assert p[1..] == [j] && Path(roles, [j]);
  }

  lemma LeadsOn(roles: Roles, k: string, j: string, q: seq<string>, r: Rule) returns (p: seq<string>)
    requires DependsOn(roles, k, j) && LeadsTo(roles, j, q, r)
    ensures LeadsTo(roles, k, p, r)
  {
    hide DependsOn;
    p := [k] + q;
    assert p[1..] == q && p[|p| - 1] == q[|q| - 1] && p[1] == j;
  }

  /** Nothing else has. */
  lemma {:induction false} CameFrom(roles: Roles, order: seq<string>, n: nat, r: Rule) returns (p: seq<string>)
    requires AtRest(roles) && Ordered(order, roles) && n < |order| && order[n] in roles && r in roles[order[n]].rules
    ensures LeadsTo(roles, order[n], p, r)
    decreases n
  {
    hide DependsOn, AtRest, LeadsTo;
    assert order[n] in order;
    var j := Source(roles, order[n], r);
    if Aggregated(roles, j) {
      var m :| 0 <= m < |order| && order[m] == j;
      assert m < n;
      var q := CameFrom(roles, order, m, r);
      p := LeadsOn(roles, order[n], j, q, r);
    } else {
      p := LeadsFirst(roles, order[n], j, r);
    }
  }

  /** On an acyclic graph at rest, the rules of an aggregated role are exactly those of the ordinary roles reachable
      through its selectors. */
  lemma RestMeansReachable(roles: Roles, k: string, r: Rule)
    requires Acyclic(roles) && AtRest(roles) && Aggregated(roles, k)
    ensures r in roles[k].rules <==> Reaches(roles, k, r)
  {
    hide Acyclic, LeadsTo, AtRest;
    if r in roles[k].rules {
      var order := OrderExists(roles);
      var n :| 0 <= n < |order| && order[n] == k;
      var p := CameFrom(roles, order, n, r);
    }
    if p :| LeadsTo(roles, k, p, r) {
      Arrived(roles, k, p, r);
    }
  }

  /* ---- graphs that differ in rules, or in roles that take none ---- */

  /** The same roles, up to their rules. */
  ghost predicate SameSelectors(a: Roles, g: Roles) {
    a.Keys == g.Keys && forall k :: k in g ==> SameKind(a[k], g[k])
  }

  lemma SameDepends(a: Roles, g: Roles, k: string, j: string)
    requires SameSelectors(a, g)
    ensures DependsOn(a, k, j) <==> DependsOn(g, k, j)
    ensures Aggregated(a, k) <==> Aggregated(g, k)
  {
  }

  lemma {:induction false} SamePaths(a: Roles, g: Roles, p: seq<string>)
    requires SameSelectors(a, g)
    ensures Path(a, p) <==> Path(g, p)
  {
    hide SameSelectors, DependsOn;
    if |p| > 1 {
      SameDepends(a, g, p[0], p[1]);
      SamePaths(a, g, p[1..]);
    }
  }

  /** Whatever follows an acyclic graph is acyclic. */
  lemma FollowsAcyclic(a: Roles, g: Roles)
    requires Follows(a, g) && Acyclic(g)
    ensures Acyclic(a)
  {
    forall p ensures !Cycle(a, p) {
      if Path(a, p) {
        FollowsPath(a, g, p);
      }
      assert !Cycle(g, p);
    }
  }

  lemma FollowsDepends(a: Roles, g: Roles, k: string, j: string)
    requires Follows(a, g) && DependsOn(a, k, j)
    ensures DependsOn(g, k, j)
  {
  }

  lemma {:induction false} FollowsPath(a: Roles, g: Roles, p: seq<string>)
    requires Follows(a, g) && Path(a, p)
    ensures Path(g, p)
  {
    hide Follows, DependsOn;
    if |p| > 1 {
      FollowsDepends(a, g, p[0], p[1]);
      FollowsPath(a, g, p[1..]);
    }
  }

  lemma SameLeads(a: Roles, g: Roles, k: string, p: seq<string>, r: Rule)
    requires SameGraph(a, g)
    ensures LeadsTo(a, k, p, r) <==> LeadsTo(g, k, p, r)
  {
    hide Path;
    SamePaths(a, g, p);
  }
}
