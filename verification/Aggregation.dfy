/** Cluster roles, label selectors and the rules an aggregated role is given. */
module Aggregation {
  import opened Base

  /** rbacv1.PolicyRule; semantic equality does not tell a nil slice from an empty one. */
  datatype Rule = Rule(verbs: seq<string>, apiGroups: seq<string>, resources: seq<string>, resourceNames: seq<string>,
                       nonResourceURLs: seq<string>)

  datatype Operator = In | NotIn | Exists | DoesNotExist

  datatype Requirement = Requirement(key: string, operator: Operator, values: seq<string>)

  /** metav1.LabelSelector. */
  datatype Selector = Selector(matchLabels: map<string, string>, matchExpressions: seq<Requirement>)

  /** A cluster role without its name; `selectors` is the aggregation rule, if there is one. */
  datatype Role = Role(labels: map<string, string>, selectors: Option<seq<Selector>>, rules: seq<Rule>)

  type Roles = map<string, Role>

  predicate Satisfies(labels: map<string, string>, r: Requirement) {
    match r.operator
    case In => r.key in labels && labels[r.key] in r.values
    case NotIn => r.key !in labels || labels[r.key] !in r.values
    case Exists => r.key in labels
    case DoesNotExist => r.key !in labels
  }

  predicate Matches(s: Selector, labels: map<string, string>) {
    && (forall k :: k in s.matchLabels ==> k in labels && labels[k] == s.matchLabels[k])
    && (forall i :: 0 <= i < |s.matchExpressions| ==> Satisfies(labels, s.matchExpressions[i]))
  }

  function Listed(roles: Roles, s: Selector): set<string> {
    set k | k in roles && Matches(s, roles[k].labels)
  }

  /* ---- the aggregation, in the order the controller computes it ---- */

  /** Rules not yet present are appended. */
  function AddRules(acc: seq<Rule>, rules: seq<Rule>): seq<Rule>
    decreases |rules|
  {
    if rules == [] then acc
    else AddRules(if rules[0] in acc then acc else acc + [rules[0]], rules[1..])
  }

  function AddRoles(acc: seq<Rule>, roles: Roles, self: string, names: seq<string>): seq<Rule>
    requires forall k :: k in names ==> k in roles
    decreases |names|
  {
    if names == [] then acc
    else AddRoles(if names[0] == self then acc else AddRules(acc, roles[names[0]].rules), roles, self, names[1..])
  }

  /** One round of the selector loop: the matching roles in name order, the role itself left out. */
  ghost function AddSelector(acc: seq<Rule>, roles: Roles, self: string, s: Selector): seq<Rule> {
    AddRoles(acc, roles, self, Sorted(Listed(roles, s)))
  }

  ghost function AddSelectors(acc: seq<Rule>, roles: Roles, self: string, ss: seq<Selector>): seq<Rule>
    decreases |ss|
  {
    if ss == [] then acc
    else AddSelector(AddSelectors(acc, roles, self, ss[..|ss| - 1]), roles, self, ss[|ss| - 1])
  }

  predicate Aggregated(roles: Roles, k: string) {
    k in roles && roles[k].selectors.Some?
  }

  /** The rules the controller computes for an aggregated role. */
  ghost function Aggregate(roles: Roles, k: string): seq<Rule>
    requires Aggregated(roles, k)
  {
    AddSelectors([], roles, k, roles[k].selectors.value)
  }

  /* ---- what it means ---- */

  ghost predicate NoDuplicates(rules: seq<Rule>) {
    forall i, j :: 0 <= i < j < |rules| ==> rules[i] != rules[j]
  }

  /** Some selector of `ss` selects the role `j`. */
  predicate Selects(ss: seq<Selector>, labels: map<string, string>) {
    exists i :: 0 <= i < |ss| && Matches(ss[i], labels)
  }

  /** The aggregated role `k` takes rules from `j`. */
  predicate DependsOn(roles: Roles, k: string, j: string) {
    Aggregated(roles, k) && j in roles && j != k && Selects(roles[k].selectors.value, roles[j].labels)
  }

  lemma {:induction false} AddRulesMeans(acc: seq<Rule>, rules: seq<Rule>, r: Rule)
    ensures r in AddRules(acc, rules) <==> r in acc || r in rules
    ensures NoDuplicates(acc) ==> NoDuplicates(AddRules(acc, rules))
    decreases |rules|
  {
    if rules != [] {
      AddRulesMeans(if rules[0] in acc then acc else acc + [rules[0]], rules[1..], r);
    }
  }

  lemma {:induction false} AddRolesMeans(acc: seq<Rule>, roles: Roles, self: string, names: seq<string>, r: Rule)
    requires forall k :: k in names ==> k in roles
    ensures r in AddRoles(acc, roles, self, names) <==>
              r in acc || exists k :: k in names && k != self && r in roles[k].rules
    ensures NoDuplicates(acc) ==> NoDuplicates(AddRoles(acc, roles, self, names))
    decreases |names|
  {
    if names != [] {
      hide NoDuplicates, AddRules;
      assert names == [names[0]] + names[1..];
      AddRulesMeans(acc, roles[names[0]].rules, r);
      AddRolesMeans(if names[0] == self then acc else AddRules(acc, roles[names[0]].rules), roles, self, names[1..], r);
    }
  }

  lemma {:induction false} AddSelectorsMeans(roles: Roles, self: string, ss: seq<Selector>, r: Rule)
    ensures r in AddSelectors([], roles, self, ss) <==>
            exists k :: k in roles && k != self && Selects(ss, roles[k].labels) && r in roles[k].rules
    ensures NoDuplicates(AddSelectors([], roles, self, ss))
    decreases |ss|
  {
    if ss != [] {
      hide NoDuplicates, AddRoles, Sorted;
      var n := |ss| - 1;
      AddSelectorsMeans(roles, self, ss[..n], r);
      AddRolesMeans(AddSelectors([], roles, self, ss[..n]), roles, self, Sorted(Listed(roles, ss[n])), r);
      forall k | k in roles
        ensures Selects(ss, roles[k].labels) <==> Selects(ss[..n], roles[k].labels) || Matches(ss[n], roles[k].labels)
      {
        SelectsSnoc(ss, roles[k].labels);
      }
    }
  }

  lemma SelectsSnoc(ss: seq<Selector>, labels: map<string, string>)
    requires ss != []
    ensures Selects(ss, labels) <==> Selects(ss[..|ss| - 1], labels) || Matches(ss[|ss| - 1], labels)
  {
  }

  /** Aggregated rules are canonical: no rule twice, and exactly the rules of the other roles some selector matches. */
  lemma AggregateMeans(roles: Roles, k: string)
    requires Aggregated(roles, k)
    ensures NoDuplicates(Aggregate(roles, k))
    ensures forall r :: r in Aggregate(roles, k) <==> exists j :: DependsOn(roles, k, j) && r in roles[j].rules
  {
    hide NoDuplicates, Selects;
    forall r ensures r in Aggregate(roles, k) <==> exists j :: DependsOn(roles, k, j) && r in roles[j].rules {
      AddSelectorsMeans(roles, k, roles[k].selectors.value, r);
    }
    AddSelectorsMeans(roles, k, roles[k].selectors.value, Rule([], [], [], [], []));
  }

  /* ---- which roles a selector picks ---- */

  /** The requirement, read off the labels' items. */
  ghost predicate Meets(labels: map<string, string>, r: Requirement) {
    match r.operator
    case In => exists v :: v in r.values && (r.key, v) in labels.Items
    case NotIn => forall v :: v in r.values ==> (r.key, v) !in labels.Items
    case Exists => exists v :: (r.key, v) in labels.Items
    case DoesNotExist => forall v :: (r.key, v) !in labels.Items
  }

  /** Every item of matchLabels is one of the labels', and every expression is met. */
  ghost predicate Picks(s: Selector, labels: map<string, string>) {
    s.matchLabels.Items <= labels.Items && forall e :: e in s.matchExpressions ==> Meets(labels, e)
  }

  lemma ItemIff(m: map<string, string>, k: string, v: string)
    ensures (k, v) in m.Items <==> k in m && m[k] == v
  {
  }

  lemma SatisfiesMeets(labels: map<string, string>, r: Requirement)
    ensures Satisfies(labels, r) <==> Meets(labels, r)
  {
    forall v ensures (r.key, v) in labels.Items <==> r.key in labels && labels[r.key] == v {
      ItemIff(labels, r.key, v);
    }
    if r.key in labels {
      assert (r.key, labels[r.key]) in labels.Items;
    }
  }

  lemma ItemsIncluded(a: map<string, string>, b: map<string, string>)
    ensures a.Items <= b.Items <==> forall k :: k in a ==> k in b && b[k] == a[k]
  {
    if a.Items <= b.Items {
      forall k | k in a ensures k in b && b[k] == a[k] {
        assert (k, a[k]) in a.Items;
      }
    }
  }

  lemma MatchesPicks(s: Selector, labels: map<string, string>)
    ensures Matches(s, labels) <==> Picks(s, labels)
  {
    hide Satisfies, Meets;
    ItemsIncluded(s.matchLabels, labels);
    forall e ensures Satisfies(labels, e) <==> Meets(labels, e) {
      SatisfiesMeets(labels, e);
    }
    if forall i :: 0 <= i < |s.matchExpressions| ==> Satisfies(labels, s.matchExpressions[i]) {
      forall e | e in s.matchExpressions ensures Meets(labels, e) {
        var i :| 0 <= i < |s.matchExpressions| && s.matchExpressions[i] == e;
      }
    }
  }

  /** The rules of a sync are those of the other roles that one of its selectors picks, item by item. */
  lemma AggregatePicks(roles: Roles, k: string, r: Rule)
    requires Aggregated(roles, k)
    ensures r in Aggregate(roles, k) <==>
              exists j, s :: j in roles && j != k && s in roles[k].selectors.value && Picks(s, roles[j].labels) &&
                             r in roles[j].rules
  {
    hide Aggregate, Matches, Picks;
    AggregateMeans(roles, k);
    var ss := roles[k].selectors.value;
    if j :| DependsOn(roles, k, j) && r in roles[j].rules {
      var i :| 0 <= i < |ss| && Matches(ss[i], roles[j].labels);
      MatchesPicks(ss[i], roles[j].labels);
      assert ss[i] in ss;
    }
    if j, s :| j in roles && j != k && s in ss && Picks(s, roles[j].labels) && r in roles[j].rules {
      var i :| 0 <= i < |ss| && ss[i] == s;
      MatchesPicks(s, roles[j].labels);
      assert DependsOn(roles, k, j);
    }
  }

  /** In particular, with one selector by labels alone: exactly the rules of the other roles that carry all its
      items. */
  lemma LabelsAggregate(roles: Roles, k: string, labels: map<string, string>, r: Rule)
    requires k in roles && roles[k].selectors == Some([Selector(labels, [])])
    ensures r in Aggregate(roles, k) <==>
              exists j :: j in roles && j != k && labels.Items <= roles[j].labels.Items && r in roles[j].rules
  {
    hide Aggregate;
    AggregatePicks(roles, k, r);
    var s := Selector(labels, []);
    forall j | j in roles ensures Picks(s, roles[j].labels) <==> labels.Items <= roles[j].labels.Items {
    }
    assert s in roles[k].selectors.value;
  }

  ghost function ByExpression(key: string, operator: Operator, values: seq<string>): Selector {
    Selector(map[], [Requirement(key, operator, values)])
  }

  /** What the operators mean: In one value is a label of that value, In several is In one of them, NotIn its
      complement, Exists is In some value, DoesNotExist its complement. */
  lemma OperatorLaws(labels: map<string, string>, key: string, v: string, values: seq<string>)
    ensures Matches(ByExpression(key, In, [v]), labels) <==> Matches(Selector(map[key := v], []), labels)
    ensures Matches(Selector(map[key := v], []), labels) <==> (key, v) in labels.Items
    ensures Matches(ByExpression(key, In, values), labels) <==>
              exists u :: u in values && Matches(ByExpression(key, In, [u]), labels)
    ensures Matches(ByExpression(key, NotIn, values), labels) <==> !Matches(ByExpression(key, In, values), labels)
    ensures Matches(ByExpression(key, Exists, values), labels) <==>
              exists u :: Matches(ByExpression(key, In, [u]), labels)
    ensures Matches(ByExpression(key, DoesNotExist, values), labels) <==>
              !Matches(ByExpression(key, Exists, values), labels)
  {
    OneExpression(labels, key, values);
    forall u ensures Matches(ByExpression(key, In, [u]), labels) <==> (key, u) in labels.Items {
      OneExpression(labels, key, [u]);
      assert u in [u];
    }
    ItemsIncluded(map[key := v], labels);
    ItemIff(labels, key, v);
  }

  lemma OneExpression(labels: map<string, string>, key: string, values: seq<string>)
    ensures forall o :: Matches(ByExpression(key, o, values), labels) <==> Meets(labels, Requirement(key, o, values))
  {
    forall o ensures Matches(ByExpression(key, o, values), labels) <==> Meets(labels, Requirement(key, o, values)) {
      SatisfiesMeets(labels, Requirement(key, o, values));
      assert ByExpression(key, o, values).matchExpressions[0] == Requirement(key, o, values);
    }
  }

  /* ---- what the aggregation depends on ---- */

  /** The same labels and rules wherever `ss` selects: a role that is selected in one is the same in the other. */
  ghost predicate SameFor(a: Roles, b: Roles, self: string, ss: seq<Selector>) {
    && (self in a <==> self in b) && (self in a ==> a[self].labels == b[self].labels)
    && (forall k :: k in a && k != self && Selects(ss, a[k].labels) ==> SameEntry(a, b, k))
    && (forall k :: k in b && k != self && Selects(ss, b[k].labels) ==> SameEntry(a, b, k))
  }

  ghost predicate SameEntry(a: Roles, b: Roles, k: string) {
    k in a && k in b && a[k].labels == b[k].labels && a[k].rules == b[k].rules
  }

  lemma {:induction false} AddRolesSame(acc: seq<Rule>, a: Roles, b: Roles, self: string, names: seq<string>)
    requires forall k :: k in names ==> k in a && k in b && (k != self ==> a[k].rules == b[k].rules)
    ensures AddRoles(acc, a, self, names) == AddRoles(acc, b, self, names)
    decreases |names|
  {
    if names != [] {
      hide AddRules;
      AddRolesSame(if names[0] == self then acc else AddRules(acc, a[names[0]].rules), a, b, self, names[1..]);
    }
  }

  lemma SelectedListed(ss: seq<Selector>, i: nat, labels: map<string, string>)
    requires i < |ss| && Matches(ss[i], labels)
    ensures Selects(ss, labels)
  {
  }

  /** One selector lists the same roles in both, with the same rules. */
  lemma AddSelectorSame(acc: seq<Rule>, a: Roles, b: Roles, self: string, ss: seq<Selector>, i: nat)
    requires SameFor(a, b, self, ss) && i < |ss|
    ensures AddSelector(acc, a, self, ss[i]) == AddSelector(acc, b, self, ss[i])
  {
    hide AddRoles, Sorted, Matches, Selects;
    forall k ensures k in Listed(a, ss[i]) <==> k in Listed(b, ss[i]) {
      if k in a && Matches(ss[i], a[k].labels) {
        SelectedListed(ss, i, a[k].labels);
        assert k != self ==> SameEntry(a, b, k);
      }
      if k in b && Matches(ss[i], b[k].labels) {
        SelectedListed(ss, i, b[k].labels);
        assert k != self ==> SameEntry(a, b, k);
      }
    }
    assert Listed(a, ss[i]) == Listed(b, ss[i]);
    forall k | k in Sorted(Listed(a, ss[i])) ensures k in a && k in b && (k != self ==> a[k].rules == b[k].rules) {
      assert Matches(ss[i], a[k].labels);
      SelectedListed(ss, i, a[k].labels);
    }
    AddRolesSame(acc, a, b, self, Sorted(Listed(a, ss[i])));
  }

  lemma SameForFewer(a: Roles, b: Roles, self: string, ss: seq<Selector>, few: seq<Selector>)
    requires SameFor(a, b, self, ss) && forall s :: s in few ==> s in ss
    ensures SameFor(a, b, self, few)
  {
    hide Matches, SameEntry;
    forall labels: map<string, string> | Selects(few, labels) ensures Selects(ss, labels) {
      var i :| 0 <= i < |few| && Matches(few[i], labels);
      assert few[i] in few;
      var j :| 0 <= j < |ss| && ss[j] == few[i];
    }
  }

  lemma {:induction false} AddSelectorsSame(acc: seq<Rule>, a: Roles, b: Roles, self: string, ss: seq<Selector>)
    requires SameFor(a, b, self, ss)
    ensures AddSelectors(acc, a, self, ss) == AddSelectors(acc, b, self, ss)
    decreases |ss|
  {
    if ss != [] {
      hide AddSelector, SameFor;
      var n := |ss| - 1;
      SameForFewer(a, b, self, ss, ss[..n]);
      AddSelectorsSame(acc, a, b, self, ss[..n]);
      AddSelectorSame(AddSelectors(acc, a, self, ss[..n]), a, b, self, ss, n);
    }
  }

  /** A role's own rules play no part in its aggregation, so a second sync right after a write finds nothing to do. */
  lemma SecondSyncIdle(roles: Roles, k: string)
    requires Aggregated(roles, k)
    ensures var after := roles[k := roles[k].(rules := Aggregate(roles, k))];
            Aggregated(after, k) && Aggregate(after, k) == after[k].rules
  {
    var after := roles[k := roles[k].(rules := Aggregate(roles, k))];
    AddSelectorsSame([], roles, after, k, roles[k].selectors.value);
  }

  /* ---- the sync handler ---- */

  /** ruleExists. */
  method RuleExists(haystack: seq<Rule>, needle: Rule) returns (found: bool)
    ensures found <==> needle in haystack
  {
    for i := 0 to |haystack|
      invariant needle !in haystack[..i]
    {
      if haystack[i] == needle {
        return true;
      }
    }
    found := false;
  }

  ghost predicate Increasing(q: seq<string>) {
    forall i, j :: 0 <= i < j < |q| ==> StrLess(q[i], q[j])
  }

  lemma {:induction false} IncreasingIsSorted(q: seq<string>, s: set<string>)
    requires Increasing(q) && forall x :: x in q <==> x in s
    ensures q == Sorted(s)
    decreases |q|
  {
    if q == [] {
      assert s == {};
    } else {
      var m := q[0];
      assert q == [m] + q[1..] && m in s;
      LeastUnique(m, s);
      forall x ensures x in q[1..] <==> x in s - {m} {
        StrLessIrreflexive(m);
      }
      IncreasingIsSorted(q[1..], s - {m});
    }
  }

  /** Puts a name into its place among sorted names. */
  method InsertByName(q: seq<string>, x: string) returns (r: seq<string>)
    requires Increasing(q) && x !in q
    ensures Increasing(r) && forall y :: y in r <==> y in q || y == x
  {
    hide StrLess;
    var i := |q|;
    while i > 0 && StrLess(x, q[i - 1])
      invariant 0 <= i <= |q| && forall j :: i <= j < |q| ==> StrLess(x, q[j])
    {
      i := i - 1;
    }
    r := q[..i] + [x] + q[i..];
    if i > 0 {
      StrLessTotal(x, q[i - 1]);
      forall j | 0 <= j < i ensures StrLess(q[j], x) {
        if j < i - 1 {
          StrLessTransitive(q[j], q[i - 1], x);
        }
      }
    }
    assert q == q[..i] + q[i..];
  }

  /** sort.Sort(byName(...)): whatever order the lister chose, the result is the same. */
  method SortByName(names: seq<string>, ghost s: set<string>) returns (q: seq<string>)
    requires Enumerates(names, s)
    ensures q == Sorted(s)
  {
    q := [];
    for i := 0 to |names|
      invariant Increasing(q) && forall x :: x in q <==> x in names[..i]
    {
      assert names[i] !in names[..i];
      q := InsertByName(q, names[i]);
    }
    assert names[..|names|] == names;
    IncreasingIsSorted(q, s);
  }

  /** The two inner loops, over the listed roles and over the rules of each. */
  method CollectRules(acc: seq<Rule>, roles: Roles, self: string, names: seq<string>) returns (rules: seq<Rule>)
    requires forall k :: k in names ==> k in roles
    ensures rules == AddRoles(acc, roles, self, names)
  {
    rules := acc;
    for i := 0 to |names|
      invariant AddRoles(acc, roles, self, names) == AddRoles(rules, roles, self, names[i..])
    {
      assert names[i..][0] == names[i] && names[i..][1..] == names[i + 1..];
      if names[i] == self {
        continue;
      }
      var before, more := rules, roles[names[i]].rules;
      for j := 0 to |more|
        invariant AddRules(before, more) == AddRules(rules, more[j..])
      {
        assert more[j..][0] == more[j] && more[j..][1..] == more[j + 1..];
        var found := RuleExists(rules, more[j]);
        if !found {
          rules := rules + [more[j]];
        }
      }
    }
  }

  /** syncClusterRole up to the write: the rules to write, if any.  The result does not depend on the lister's order. */
  method SyncClusterRole(roles: Roles, name: string) returns (write: Option<seq<Rule>>)
    ensures write == if Aggregated(roles, name) && Aggregate(roles, name) != roles[name].rules
                     then Some(Aggregate(roles, name)) else None
  {
    hide AddRoles, Sorted, Matches;
    if name !in roles || roles[name].selectors == None {
      return None;
    }
    var selectors := roles[name].selectors.value;
    var newPolicyRules := [];
    for i := 0 to |selectors|
      invariant newPolicyRules == AddSelectors([], roles, name, selectors[..i])
    {
      // The lister returns the matching roles in no particular order.
      var listed := Enumerate(Listed(roles, selectors[i]));
      var names := SortByName(listed, Listed(roles, selectors[i]));
      assert selectors[..i + 1][..i] == selectors[..i];
      newPolicyRules := CollectRules(newPolicyRules, roles, name, names);
    }
    assert selectors[..|selectors|] == selectors;
    write := if newPolicyRules == roles[name].rules then None else Some(newPolicyRules);
  }
}
