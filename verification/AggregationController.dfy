/** The ClusterRole aggregation controller as a state machine: API store, informer cache, undelivered changes, work
    queue and workers, with every interleaving of their steps. */
module AggregationController {
  import opened Base
  import opened Aggregation

  datatype Event = Put(name: string, role: Role) | Delete(name: string)

  function ApplyEvent(roles: Roles, e: Event): Roles {
    match e
    case Put(k, r) => roles[k := r]
    case Delete(k) => roles - {k}
  }

  function Replay(roles: Roles, es: seq<Event>): Roles
    decreases |es|
  {
    if es == [] then roles else Replay(ApplyEvent(roles, es[0]), es[1..])
  }

  /** How far syncClusterRole has come for one key: `Listing` holds the role it fetched, the index of the next selector
      and the rules collected so far. */
  datatype Worker = Started | Listing(role: Role, next: nat, rules: seq<Rule>) | Finished

  datatype State = State(
    store: Roles,
    cache: Roles,
    watch: seq<Event>,               // changes of the store the cache has not seen
    notices: nat,                    // changes of the cache whose event handler has not run
    adding: set<string>,             // keys the running event handler has listed and not yet added
    dirty: set<string>,              // the work queue's dirty set
    processing: map<string, Worker>, // the work queue's processing set
    delayed: set<string>)            // keys waiting out their back-off

  datatype Step =
    | OutsidePut(name: string, role: Role)
    | OutsideDelete(name: string)
    | Deliver
    | Resync
    | Notify
    | Enqueue(name: string)
    | Retry(name: string)
    | Get(name: string)
    | Fetch(name: string)
    | ListSelector(name: string)
    | Skip(name: string)
    | Write(name: string)
    | Fail(name: string)
    | Done(name: string)

  ghost predicate Initial(s: State) {
    && s.cache == map[] && Replay(s.cache, s.watch) == s.store
    && s.notices == 0 && s.adding == {} && s.dirty == {} && s.processing == map[] && s.delayed == {}
  }

  predicate IsListing(s: State, k: string) {
    k in s.processing && s.processing[k].Listing?
  }

  predicate ListedAll(s: State, k: string) {
    && IsListing(s, k) && s.processing[k].role.selectors.Some?
    && s.processing[k].next == |s.processing[k].role.selectors.value|
  }

  predicate Enabled(s: State, step: Step) {
    match step
    case OutsidePut(k, r) => true
    case OutsideDelete(k) => k in s.store
    case Deliver => s.watch != []
    case Resync => true
    case Notify => s.notices > 0 && s.adding == {}
    case Enqueue(k) => k in s.adding
    case Retry(k) => k in s.delayed
    case Get(k) => k in s.dirty && k !in s.processing
    case Fetch(k) => k in s.processing && s.processing[k] == Started
    case ListSelector(k) =>
      && IsListing(s, k) && s.processing[k].role.selectors.Some?
      && s.processing[k].next < |s.processing[k].role.selectors.value|
    case Skip(k) => ListedAll(s, k) && s.processing[k].rules == s.processing[k].role.rules
    case Write(k) => ListedAll(s, k) && s.processing[k].rules != s.processing[k].role.rules
    case Fail(k) => k in s.processing
    case Done(k) => k in s.processing && s.processing[k] == Finished
  }

  /** The API server emits an event only for a change. */
  function Store(s: State, k: string, r: Role): State {
    if k in s.store && s.store[k] == r then s else s.(store := s.store[k := r], watch := s.watch + [Put(k, r)])
  }

  /** Server-side apply sets the rules, and creates a role that is gone. */
  function WithRules(store: Roles, k: string, rules: seq<Rule>): Role {
    if k in store then store[k].(rules := rules) else Role(map[], None, rules)
  }

  ghost function Next(s: State, step: Step): State
    requires Enabled(s, step)
  {
    match step
    case OutsidePut(k, r) => Store(s, k, r)
    case OutsideDelete(k) => s.(store := s.store - {k}, watch := s.watch + [Delete(k)])
    case Deliver => s.(cache := ApplyEvent(s.cache, s.watch[0]), watch := s.watch[1..], notices := s.notices + 1)
    case Resync => s.(notices := s.notices + 1)
    case Notify => s.(notices := s.notices - 1, adding := set k | k in s.cache && s.cache[k].selectors.Some?)
    case Enqueue(k) => s.(adding := s.adding - {k}, dirty := s.dirty + {k})
    case Retry(k) => s.(delayed := s.delayed - {k}, dirty := s.dirty + {k})
    case Get(k) => s.(dirty := s.dirty - {k}, processing := s.processing[k := Started])
    case Fetch(k) =>
      s.(processing := s.processing[k := if Aggregated(s.cache, k) then Listing(s.cache[k], 0, []) else Finished])
    case ListSelector(k) =>
      var t := s.processing[k];
      s.(processing := s.processing[k := Listing(t.role, t.next + 1,
                                                 AddSelector(t.rules, s.cache, k, t.role.selectors.value[t.next]))])
    case Skip(k) => s.(processing := s.processing[k := Finished])
    case Write(k) =>
      Store(s.(processing := s.processing[k := Finished]), k, WithRules(s.store, k, s.processing[k].rules))
    case Fail(k) => s.(processing := s.processing - {k}, delayed := s.delayed + {k})
    case Done(k) => s.(processing := s.processing - {k})
  }

  /* ---- the invariant ---- */

  /** Something will still make the controller look at `k`, or a change is undelivered. */
  ghost predicate Pending(s: State, k: string) {
    || k in s.dirty || k in s.delayed || k in s.processing || k in s.adding
    || s.watch != [] || s.notices > 0
  }

  ghost predicate UpToDate(roles: Roles, k: string) {
    Aggregated(roles, k) ==> roles[k].rules == Aggregate(roles, k)
  }

  /** The key will be fetched again after the sync in progress. */
  ghost predicate Requeued(s: State, k: string) {
    s.notices > 0 || k in s.adding || k in s.dirty
  }

  /** What the worker holds is what the cache would give it now, unless the key comes up again. */
  ghost predicate WorkerOk(s: State, k: string)
    requires k in s.processing
  {
    match s.processing[k]
    case Started => true
    case Listing(role, next, rules) =>
      && role.selectors.Some? && next <= |role.selectors.value|
      && (Aggregated(s.cache, k) && !Requeued(s, k) ==>
            s.cache[k] == role && rules == AddSelectors([], s.cache, k, role.selectors.value[..next]))
    case Finished => !Requeued(s, k) && s.watch == [] ==> UpToDate(s.cache, k)
  }

  ghost predicate Inv(s: State) {
    && Replay(s.cache, s.watch) == s.store
    && (forall k :: k in s.processing ==> WorkerOk(s, k))
    && (forall k :: k in s.cache && !Pending(s, k) ==> UpToDate(s.cache, k))
  }

  lemma {:induction false} ReplaySnoc(roles: Roles, es: seq<Event>, e: Event)
    ensures Replay(roles, es + [e]) == ApplyEvent(Replay(roles, es), e)
    decreases |es|
  {
    if es == [] {
      assert ([] + [e])[1..] == [];
    } else {
      assert (es + [e])[1..] == es[1..] + [e];
      ReplaySnoc(ApplyEvent(roles, es[0]), es[1..], e);
    }
  }

  lemma InitialInv(s: State)
    requires Initial(s)
    ensures Inv(s)
  {
  }

  /** Changes of the store alone leave everything pending. */
  lemma StoreKeepsInv(s: State, s': State, e: Event)
    requires Inv(s) && s' == s.(store := ApplyEvent(s.store, e), watch := s.watch + [e])
    ensures Inv(s')
  {
    hide Aggregate;
    ReplaySnoc(s.cache, s.watch, e);
    forall k | k in s'.processing ensures WorkerOk(s', k) {
      assert WorkerOk(s, k);
    }
  }

  lemma CacheKeepsInv(s: State)
    requires Inv(s) && Enabled(s, Deliver)
    ensures Inv(Next(s, Deliver))
  {
  }

  lemma QueueKeepsInv(s: State, step: Step)
    requires Inv(s) && Enabled(s, step)
    requires (step.Resync? || step.Notify? || step.Enqueue? || step.Retry? || step.Get? || step.Fail?)
    ensures Inv(Next(s, step))
  {
    hide Aggregate, AddSelectors;
    var s' := Next(s, step);
    forall k | k in s'.processing ensures WorkerOk(s', k) {
      if k in s.processing {
        assert WorkerOk(s, k);
      }
    }
  }

  lemma ReadKeepsInv(s: State, step: Step)
    requires Inv(s) && Enabled(s, step) && (step.Fetch? || step.ListSelector? || step.Skip? || step.Done?)
    ensures Inv(Next(s, step))
  {
    hide AddSelector;
    var s', k := Next(s, step), step.name;
    assert WorkerOk(s, k);
    if step.ListSelector? {
      var ss, i := s.processing[k].role.selectors.value, s.processing[k].next;
      assert ss[..i + 1][..i] == ss[..i];
    } else if step.Skip? {
      var ss := s.processing[k].role.selectors.value;
      assert ss[..|ss|] == ss;
    }
    forall j | j in s'.processing ensures WorkerOk(s', j) {
      assert WorkerOk(s, j);
    }
  }

  /** A sync that computed its rules from the current cache and finds them different changes the store. */
  lemma WriteKeepsInv(s: State, k: string)
    requires Inv(s) && Enabled(s, Write(k))
    ensures Inv(Next(s, Write(k)))
  {
    hide AddSelectors;
    var t, r := s.processing[k], WithRules(s.store, k, s.processing[k].rules);
    var s1 := s.(processing := s.processing[k := Finished]);
    if s.watch == [] {
      assert s.store == s.cache;
    }
    if k in s.store && s.store[k] == r {
      assert WorkerOk(s, k);
      var ss := t.role.selectors.value;
      assert ss[..|ss|] == ss;
      forall j | j in s1.processing ensures WorkerOk(s1, j) {
        assert WorkerOk(s, j);
      }
    } else {
      WriteEmits(s, k, r);
    }
  }

  lemma WriteEmits(s: State, k: string, r: Role)
    requires Inv(s) && k in s.processing
    ensures Inv(s.(processing := s.processing[k := Finished], store := s.store[k := r], watch := s.watch + [Put(k, r)]))
  {
    hide Aggregate;
    var s' := s.(processing := s.processing[k := Finished], store := s.store[k := r], watch := s.watch + [Put(k, r)]);
    ReplaySnoc(s.cache, s.watch, Put(k, r));
    forall j | j in s'.processing ensures WorkerOk(s', j) {
      assert WorkerOk(s, j);
    }
  }

  /** Every step keeps the invariant. */
  lemma StepKeepsInv(s: State, step: Step)
    requires Inv(s) && Enabled(s, step)
    ensures Inv(Next(s, step))
  {
    hide Inv;
    match step
    case OutsidePut(k, r) =>
      if !(k in s.store && s.store[k] == r) {
        StoreKeepsInv(s, Next(s, step), Put(k, r));
      }
    case OutsideDelete(k) => StoreKeepsInv(s, Next(s, step), Delete(k));
    case Deliver => CacheKeepsInv(s);
    case Write(k) => WriteKeepsInv(s, k);
    case Fetch(_) => ReadKeepsInv(s, step);
    case ListSelector(_) => ReadKeepsInv(s, step);
    case Skip(_) => ReadKeepsInv(s, step);
    case Done(_) => ReadKeepsInv(s, step);
    case _ => QueueKeepsInv(s, step);
  }

  /* ---- runs ---- */

  ghost predicate Run(s: State, steps: seq<Step>, s': State)
    decreases |steps|
  {
    if steps == [] then s' == s else Enabled(s, steps[0]) && Run(Next(s, steps[0]), steps[1..], s')
  }

  lemma {:induction false} RunConcat(s: State, a: seq<Step>, t: State, b: seq<Step>, u: State)
    requires Run(s, a, t) && Run(t, b, u)
    ensures Run(s, a + b, u)
    decreases |a|
  {
    if a == [] {
      assert [] + b == b;
    } else {
      assert (a + b)[0] == a[0] && (a + b)[1..] == a[1..] + b;
      RunConcat(Next(s, a[0]), a[1..], t, b, u);
    }
  }

  lemma RunSnoc(s: State, a: seq<Step>, t: State, step: Step)
    requires Run(s, a, t) && Enabled(t, step)
    ensures Run(s, a + [step], Next(t, step))
  {
    assert [step][1..] == [];
    RunConcat(s, a, t, [step], Next(t, step));
  }

  lemma {:induction false} RunKeepsInv(s: State, steps: seq<Step>, s': State)
    requires Inv(s) && Run(s, steps, s')
    ensures Inv(s')
    decreases |steps|
  {
    if steps != [] {
      StepKeepsInv(s, steps[0]);
      RunKeepsInv(Next(s, steps[0]), steps[1..], s');
    }
  }

  /** Nothing queued, nothing in progress, nothing undelivered. */
  ghost predicate Idle(s: State) {
    s.watch == [] && s.notices == 0 && s.adding == {} && s.dirty == {} && s.processing == map[] && s.delayed == {}
  }

  /** In every reachable state each aggregated role in the cache is pending or its rules are what aggregation gives. */
  lemma PendingOrUpToDate(s0: State, steps: seq<Step>, s: State, k: string)
    requires Initial(s0) && Run(s0, steps, s) && Aggregated(s.cache, k)
    ensures Pending(s, k) || s.cache[k].rules == Aggregate(s.cache, k)
  {
    InitialInv(s0);
    RunKeepsInv(s0, steps, s);
  }

  /** An idle controller has aggregated everything: in the store, not only in its cache. */
  lemma IdleIsAggregated(s0: State, steps: seq<Step>, s: State)
    requires Initial(s0) && Run(s0, steps, s) && Idle(s)
    ensures s.cache == s.store
    ensures forall k :: Aggregated(s.store, k) ==> s.store[k].rules == Aggregate(s.store, k)
  {
    InitialInv(s0);
    RunKeepsInv(s0, steps, s);
  }
}
