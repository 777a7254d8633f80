/** Without outside writes, on an acyclic selector graph, the controller makes only finitely many effective writes:
    whatever the interleaving of its workers, however far its cache lags behind, and whatever syncs had begun before. */
module AggregationConvergence {
  import opened Base
  import opened Aggregation
  import opened AggregationController

  /* ---- the graph ---- */

  predicate SameKind(a: Role, b: Role) {
    a.labels == b.labels && a.selectors == b.selectors
  }

  /** The same roles, up to the rules of aggregated ones. */
  ghost predicate SameGraph(a: Roles, g: Roles) {
    a.Keys == g.Keys && forall k :: k in g ==> SameKind(a[k], g[k]) && (g[k].selectors == None ==> a[k] == g[k])
  }

  /** What applying rules to a role that is gone makes of it. */
  predicate Blank(r: Role) {
    r.labels == map[] && r.selectors == None
  }

  /** Labels and selectors are those of `g`; what is missing the controller would create as `g` has it. */
  ghost predicate Follows(a: Roles, g: Roles) {
    && (forall k :: k in a ==> k in g && SameKind(a[k], g[k]))
    && (forall k :: k in g && k !in a ==> Blank(g[k]))
  }

  /** No role twice, and each after every role it takes rules from. */
  ghost predicate Topological(order: seq<string>, g: Roles) {
    && (forall i, j :: 0 <= i < j < |order| ==> order[i] != order[j])
    && (forall i, j :: 0 <= i <= j < |order| ==> !DependsOn(g, order[i], order[j]))
  }

  /** All the aggregated roles, in such an order. */
  ghost predicate Ordered(order: seq<string>, g: Roles) {
    Topological(order, g) && forall k :: k in order <==> Aggregated(g, k)
  }

  /** All the aggregated roles, and perhaps others. */
  ghost predicate Covering(order: seq<string>, g: Roles) {
    (forall k :: k in order ==> k in g) && (forall k :: Aggregated(g, k) ==> k in order)
  }

  /** In such an order. */
  ghost predicate Ranked(order: seq<string>, g: Roles) {
    Topological(order, g) && Covering(order, g)
  }

  predicate Outside(step: Step) {
    step.OutsidePut? || step.OutsideDelete?
  }

  /* ---- the outside world has fallen silent ---- */

  /** A change that was under way then can make of its role anything but an aggregated one outside `order`. */
  ghost predicate OldEvent(e: Event, order: seq<string>) {
    e.Put? && e.role.selectors.Some? ==> e.name in order
  }

  /** A change the controller has made since. */
  ghost predicate NewEvent(e: Event, g: Roles, order: seq<string>) {
    e.Put? && e.name in order && e.name in g && SameKind(e.role, g[e.name])
  }

  /** All but the first `m` undelivered changes are the controller's own since the outside world fell silent; `order`
      has every role it may still write. */
  ghost predicate Settling(s: State, g: Roles, order: seq<string>, m: nat) {
    && m <= |s.watch| && Follows(s.store, g) && Follows(Replay(s.cache, s.watch[..m]), g)
    && (forall i :: 0 <= i < m ==> OldEvent(s.watch[i], order))
    && (forall i :: m <= i < |s.watch| ==> NewEvent(s.watch[i], g, order))
    && (forall k :: Aggregated(s.cache, k) ==> k in order)
    && (forall k :: IsListing(s, k) ==> k in order)
  }

  /** How many of the old changes are left after a step. */
  function OldLeft(m: nat, step: Step): nat {
    if step.Deliver? && m > 0 then m - 1 else m
  }

  lemma DeliveredOld(s: State, m: nat)
    requires 0 < m <= |s.watch|
    ensures var s' := Next(s, Deliver);
              m - 1 <= |s'.watch| && Replay(s'.cache, s'.watch[..m - 1]) == Replay(s.cache, s.watch[..m])
  {
    assert s.watch[..m][0] == s.watch[0] && s.watch[..m][1..] == s.watch[1..][..m - 1];
  }

  lemma SettlingOldDelivery(s: State, g: Roles, order: seq<string>, m: nat)
    requires Settling(s, g, order, m) && Enabled(s, Deliver) && m > 0
    ensures Settling(Next(s, Deliver), g, order, m - 1)
  {
    hide Replay, Follows, NewEvent;
    DeliveredOld(s, m);
    assert OldEvent(s.watch[0], order);
    var s' := Next(s, Deliver);
    assert forall i :: 0 <= i < |s'.watch| ==> s'.watch[i] == s.watch[i + 1];
  }

  lemma FollowsPut(a: Roles, g: Roles, k: string, r: Role)
    requires Follows(a, g) && k in g && SameKind(r, g[k])
    ensures Follows(a[k := r], g)
  {
  }

  lemma FollowsAggregated(a: Roles, g: Roles, order: seq<string>)
    requires Follows(a, g) && Covering(order, g)
    ensures forall k :: Aggregated(a, k) ==> k in order
  {
  }

  lemma SettlingNewDelivery(s: State, g: Roles, order: seq<string>)
    requires Settling(s, g, order, 0) && Covering(order, g) && Enabled(s, Deliver)
    ensures Settling(Next(s, Deliver), g, order, 0)
  {
    hide Follows, Covering, Aggregated;
    var e, s' := s.watch[0], Next(s, Deliver);
    assert s.watch[..0] == [] && s'.watch[..0] == [];
    assert NewEvent(e, g, order);
    FollowsPut(s.cache, g, e.name, e.role);
    FollowsAggregated(s'.cache, g, order);
    assert forall i :: 0 <= i < |s'.watch| ==> s'.watch[i] == s.watch[i + 1];
  }

  lemma SettlingWrite(s: State, k: string, g: Roles, order: seq<string>, m: nat)
    requires Settling(s, g, order, m) && Covering(order, g) && Enabled(s, Write(k))
    ensures Settling(Next(s, Write(k)), g, order, m)
  {
    hide Replay;
    var r, s' := WithRules(s.store, k, s.processing[k].rules), Next(s, Write(k));
    assert k in order && SameKind(r, g[k]);
    if s'.watch != s.watch {
      assert s'.watch == s.watch + [Put(k, r)] && s'.watch[..m] == s.watch[..m];
    }
  }

  /** Nothing else touches store, cache or watch, and what is fetched is in the cache. */
  lemma SettlingQueue(s: State, step: Step, g: Roles, order: seq<string>, m: nat)
    requires Settling(s, g, order, m) && Enabled(s, step) && !Outside(step) && !step.Deliver? && !step.Write?
    ensures Settling(Next(s, step), g, order, m)
  {
    hide Follows, Replay, AddSelector, NewEvent, OldEvent;
    var s' := Next(s, step);
    forall k | IsListing(s', k) ensures k in order {
      assert IsListing(s, k) || Aggregated(s.cache, k);
    }
  }

  lemma SettlingKept(s: State, step: Step, g: Roles, order: seq<string>, m: nat)
    requires Settling(s, g, order, m) && Covering(order, g) && Enabled(s, step) && !Outside(step)
    ensures Settling(Next(s, step), g, order, OldLeft(m, step))
  {
    hide Settling, Covering, Enabled;
    if step.Deliver? {
      if m > 0 {
        SettlingOldDelivery(s, g, order, m);
      } else {
        SettlingNewDelivery(s, g, order);
      }
    } else if step.Write? {
      SettlingWrite(s, step.name, g, order, m);
    } else {
      SettlingQueue(s, step, g, order, m);
    }
  }

  /* ---- the potential ---- */

  /** What the worker has collected is what the cache would give it now. */
  ghost predicate Current(s: State, k: string)
    requires IsListing(s, k)
  {
    var t := s.processing[k];
    && Aggregated(s.cache, k) && t.role.selectors == s.cache[k].selectors && t.next <= |t.role.selectors.value|
    && t.rules == AddSelectors([], s.cache, k, t.role.selectors.value[..t.next])
  }

  ghost predicate Stale(s: State, k: string) {
    IsListing(s, k) && !Current(s, k)
  }

  /** The store lacks what the cache's aggregation gives. */
  ghost predicate Behind(s: State, k: string) {
    Aggregated(s.cache, k) && (k !in s.store || s.store[k].rules != Aggregate(s.cache, k))
  }

  ghost function Weight(s: State, k: string): (n: nat)
    ensures n <= 3
  {
    (if Behind(s, k) then 1 else 0) + (if Stale(s, k) then 2 else 0)
  }

  function Pow4(n: nat): (p: nat)
    ensures p > 0
  {
    if n == 0 then 1 else 4 * Pow4(n - 1)
  }

  /** Writes still possible without further changes: early roles in the order count for more than all later ones. */
  ghost function Credit(s: State, order: seq<string>): nat {
    if order == [] then 0 else Weight(s, order[0]) * Pow4(|order| - 1) + Credit(s, order[1..])
  }

  /** What an undelivered change of a role may set off. */
  function EventWeight(order: seq<string>, k: string): nat {
    if order == [] then 0 else if order[0] == k then Pow4(|order| - 1) - 1 else EventWeight(order[1..], k)
  }

  function WatchWeight(order: seq<string>, es: seq<Event>): nat {
    if es == [] then 0 else EventWeight(order, es[0].name) + WatchWeight(order, es[1..])
  }

  ghost function Potential(s: State, order: seq<string>, m: nat): nat
    requires m <= |s.watch|
  {
    Credit(s, order) + m * (Pow4(|order|) - 1) + WatchWeight(order, s.watch[m..])
  }

  lemma {:induction false} CreditBound(s: State, order: seq<string>)
    ensures Credit(s, order) <= Pow4(|order|) - 1
  {
    if order != [] {
      hide Behind, Stale;
      CreditBound(s, order[1..]);
      Scale(Weight(s, order[0]), 3, Pow4(|order| - 1));
    }
  }

  lemma {:induction false} CreditFalls(s: State, s': State, order: seq<string>)
    requires forall k :: k in order ==> Weight(s', k) <= Weight(s, k)
    ensures Credit(s', order) <= Credit(s, order)
  {
    if order != [] {
      hide Weight;
      CreditFalls(s, s', order[1..]);
      var p := Pow4(|order| - 1);
      Scale(Weight(s', order[0]), Weight(s, order[0]), p);
    }
  }

  lemma Scale(a: nat, b: nat, p: nat)
    requires a <= b
    ensures a * p <= b * p
  {
  }

  /** One role becoming lighter pays for the event its write emits, and one more. */
  lemma {:induction false} WritePays(s: State, s': State, order: seq<string>, k: string)
    requires k in order && Weight(s', k) < Weight(s, k)
    requires forall j :: j in order && j != k ==> Weight(s', j) <= Weight(s, j)
    ensures Credit(s', order) + EventWeight(order, k) + 1 <= Credit(s, order)
  {
    hide Weight;
    var p := Pow4(|order| - 1);
    if order[0] == k {
      assert forall j :: j in order[1..] ==> Weight(s', j) <= Weight(s, j);
      CreditFalls(s, s', order[1..]);
      Scale(Weight(s', k) + 1, Weight(s, k), p);
      assert (Weight(s', k) + 1) * p == Weight(s', k) * p + p;
    } else {
      WritePays(s, s', order[1..], k);
      Scale(Weight(s', order[0]), Weight(s, order[0]), p);
    }
  }

  /** A delivered change makes only later roles heavier, which its weight pays for. */
  lemma {:induction false} DeliveryPays(s: State, s': State, order: seq<string>, k: string, g: Roles)
    requires k in order && Topological(order, g)
    requires forall j :: j in order && !DependsOn(g, j, k) ==> Weight(s', j) == Weight(s, j)
    ensures Credit(s', order) <= Credit(s, order) + EventWeight(order, k)
  {
    hide Weight, DependsOn;
    assert !DependsOn(g, order[0], order[0]);
    if order[0] == k {
      CreditBound(s', order[1..]);
    } else {
      var i :| 0 <= i < |order| && order[i] == k;
      assert !DependsOn(g, order[0], order[i]);
      assert order[1..][i - 1] == k;
      DeliveryPays(s, s', order[1..], k, g);
    }
  }

  lemma {:induction false} WatchSnoc(order: seq<string>, es: seq<Event>, e: Event)
    ensures WatchWeight(order, es + [e]) == WatchWeight(order, es) + EventWeight(order, e.name)
  {
    if es == [] {
      assert ([] + [e])[1..] == [];
    } else {
      assert (es + [e])[1..] == es[1..] + [e];
      WatchSnoc(order, es[1..], e);
    }
  }

  /* ---- every step ---- */

  predicate Effective(before: Roles, after: Roles) {
    before != after
  }

  /** A change of one role reaches no role that does not take rules from it. */
  lemma OutOfReach(s: State, k: string, r: Role, j: string, g: Roles)
    requires Follows(s.cache, g) && k in g && SameKind(r, g[k]) && !DependsOn(g, j, k)
    ensures Weight(s.(cache := s.cache[k := r]), j) == Weight(s, j)
  {
    hide AddSelectors, Selects;
    var a, b := s.cache, s.cache[k := r];
    if Aggregated(g, j) {
      var ss := g[j].selectors.value;
      assert SameFor(a, b, j, ss);
      AddSelectorsSame([], a, b, j, ss);
      if IsListing(s, j) && s.processing[j].next <= |ss| {
        var few := ss[..s.processing[j].next];
        SameForFewer(a, b, j, ss, few);
        AddSelectorsSame([], a, b, j, few);
      }
    }
  }

  lemma SameWeight(s: State, t: State, j: string)
    requires s.store == t.store && s.cache == t.cache && s.processing == t.processing
    ensures Weight(s, j) == Weight(t, j)
  {
  }

  /** An old change may turn everything around, and its share of the potential is all there is. */
  lemma OldDeliverPays(s: State, order: seq<string>, m: nat)
    requires 0 < m <= |s.watch|
    ensures m - 1 <= |Next(s, Deliver).watch| && Potential(Next(s, Deliver), order, m - 1) <= Potential(s, order, m)
  {
    hide Credit;
    var s' := Next(s, Deliver);
    CreditBound(s', order);
    assert s'.watch[m - 1..] == s.watch[m..];
    var p := Pow4(|order|) - 1;
    assert m * p == (m - 1) * p + p;
  }

  lemma NewDeliverPays(s: State, g: Roles, order: seq<string>)
    requires Settling(s, g, order, 0) && Ranked(order, g) && Enabled(s, Deliver)
    ensures Potential(Next(s, Deliver), order, 0) <= Potential(s, order, 0)
  {
    hide Weight, DependsOn, Credit, Follows;
    var e, s' := s.watch[0], Next(s, Deliver);
    assert NewEvent(e, g, order) && s.watch[..0] == [];
    forall j | j in order && !DependsOn(g, j, e.name) ensures Weight(s', j) == Weight(s, j) {
      OutOfReach(s, e.name, e.role, j, g);
      SameWeight(s', s.(cache := s.cache[e.name := e.role]), j);
    }
    DeliveryPays(s, s', order, e.name, g);
    assert s.watch[0..] == s.watch && s'.watch[0..] == s'.watch;
  }

  /** An effective write makes its role lighter: either its worker was stale, or the store was behind. */
  lemma WriteLightens(s: State, k: string)
    requires Enabled(s, Write(k)) && Effective(s.store, Next(s, Write(k)).store)
    ensures Weight(Next(s, Write(k)), k) < Weight(s, k)
  {
    hide AddSelectors;
    var t := s.processing[k];
    var ss := t.role.selectors.value;
    assert ss[..|ss|] == ss;
  }

  lemma OthersAsHeavy(s: State, k: string, j: string)
    requires Enabled(s, Write(k)) && j != k
    ensures Weight(Next(s, Write(k)), j) == Weight(s, j)
  {
  }

  lemma WritePaid(s: State, k: string, order: seq<string>, m: nat)
    requires Enabled(s, Write(k)) && k in order && m <= |s.watch|
    ensures var s' := Next(s, Write(k));
            && m <= |s'.watch|
            && Potential(s', order, m) + (if Effective(s.store, s'.store) then 1 else 0) <= Potential(s, order, m)
  {
    hide Weight, Credit, Pow4;
    var r, s' := WithRules(s.store, k, s.processing[k].rules), Next(s, Write(k));
    forall j | j in order && j != k ensures Weight(s', j) == Weight(s, j) {
      OthersAsHeavy(s, k, j);
    }
    if Effective(s.store, s'.store) {
      WriteLightens(s, k);
      WritePays(s, s', order, k);
      WatchSnoc(order, s.watch[m..], Put(k, r));
      assert s'.watch[m..] == s.watch[m..] + [Put(k, r)];
    } else {
      assert s'.watch == s.watch && s'.store == s.store;
      NoHeavier(s, Write(k), k);
      CreditFalls(s, s', order);
    }
  }

  /** Where store and cache stay, nothing gets heavier. */
  lemma NoHeavier(s: State, step: Step, j: string)
    requires Enabled(s, step) && Next(s, step).store == s.store && Next(s, step).cache == s.cache
    ensures Weight(Next(s, step), j) <= Weight(s, j)
  {
    hide AddSelector;
    if step.ListSelector? && step.name == j {
      var ss, i := s.processing[j].role.selectors.value, s.processing[j].next;
      assert ss[..i + 1][..i] == ss[..i];
    }
  }

  lemma OtherStepFalls(s: State, step: Step, order: seq<string>, m: nat)
    requires Enabled(s, step) && !Outside(step) && !step.Deliver? && !step.Write? && m <= |s.watch|
    ensures Next(s, step).watch == s.watch && Next(s, step).store == s.store
    ensures Potential(Next(s, step), order, m) <= Potential(s, order, m)
  {
    hide AddSelector, Credit, Weight;
    var s' := Next(s, step);
    forall j | j in order ensures Weight(s', j) <= Weight(s, j) {
      NoHeavier(s, step, j);
    }
    CreditFalls(s, s', order);
  }

  lemma RankedCovers(order: seq<string>, g: Roles)
    requires Ranked(order, g)
    ensures Covering(order, g)
  {
  }

  lemma StepPays(s: State, step: Step, g: Roles, order: seq<string>, m: nat)
    requires Settling(s, g, order, m) && Ranked(order, g) && Enabled(s, step) && !Outside(step)
    ensures var s', m' := Next(s, step), OldLeft(m, step);
            && m' <= |s'.watch|
            && Potential(s', order, m') + (if Effective(s.store, s'.store) then 1 else 0) <= Potential(s, order, m)
  {
    hide Ranked, Potential;
    match step
    case Deliver => if m > 0 { OldDeliverPays(s, order, m); } else { NewDeliverPays(s, g, order); }
    case Write(k) => WritePaid(s, k, order, m);
    case _ => OtherStepFalls(s, step, order, m);
  }

  /* ---- whole runs ---- */

  /** How often the steps change the store. */
  ghost function EffectiveWrites(s: State, steps: seq<Step>): nat
    decreases |steps|
  {
    if steps == [] || !Enabled(s, steps[0]) then 0 else
      (if Effective(s.store, Next(s, steps[0]).store) then 1 else 0) + EffectiveWrites(Next(s, steps[0]), steps[1..])
  }

  lemma {:induction false} WritesPaid(s: State, steps: seq<Step>, s': State, g: Roles, order: seq<string>, m: nat)
    returns (m': nat)
    requires Settling(s, g, order, m) && Ranked(order, g) && Run(s, steps, s')
    requires forall i :: 0 <= i < |steps| ==> !Outside(steps[i])
    ensures m' <= m && Settling(s', g, order, m') && m' <= |s'.watch| && m <= |s.watch|
    ensures EffectiveWrites(s, steps) + Potential(s', order, m') <= Potential(s, order, m)
    decreases |steps|
  {
    SettlingLength(s, g, order, m);
    if steps != [] {
      hide Settling, Ranked, Potential, Effective, Next;
      RankedCovers(order, g);
      var s1 := Next(s, steps[0]);
      SettlingKept(s, steps[0], g, order, m);
      StepPays(s, steps[0], g, order, m);
      m' := WritesPaid(s1, steps[1..], s', g, order, OldLeft(m, steps[0]));
    } else {
      m' := m;
    }
  }

  lemma SettlingLength(s: State, g: Roles, order: seq<string>, m: nat)
    requires Settling(s, g, order, m)
    ensures m <= |s.watch|
  {
  }
}
