/** The controller's own methods, executed without interruption, are runs of the state machine. */
module AggregationObject {
  import opened Base
  import opened Aggregation
  import opened AggregationController

  /** The sync of `k` has been through its first `n` selectors. */
  ghost function AtSelector(s: State, k: string, n: nat): State
    requires Aggregated(s.cache, k) && n <= |s.cache[k].selectors.value|
  {
    s.(processing := s.processing[k := Listing(s.cache[k], n,
                                               AddSelectors([], s.cache, k, s.cache[k].selectors.value[..n]))])
  }

  lemma SelectorStep(s: State, k: string, n: nat)
    requires Aggregated(s.cache, k) && n < |s.cache[k].selectors.value|
    ensures Enabled(AtSelector(s, k, n), ListSelector(k))
    ensures Next(AtSelector(s, k, n), ListSelector(k)) == AtSelector(s, k, n + 1)
  {
    hide AddSelector;
    var ss, t := s.cache[k].selectors.value, AtSelector(s, k, n);
    assert ss[..n + 1][..n] == ss[..n] && ss[..n + 1][n] == ss[n];
    var u := Next(t, ListSelector(k));
    assert u.processing == s.processing[k := u.processing[k]];
  }

  lemma FetchRun(s: State, k: string)
    requires k in s.processing && s.processing[k] == Started && Aggregated(s.cache, k)
    ensures Run(s, [Fetch(k)], AtSelector(s, k, 0))
  {
  }

  /** The selector loop of syncClusterRole, undisturbed from the first selector on. */
  lemma {:induction false} ListingRun(s: State, k: string, n: nat) returns (steps: seq<Step>)
    requires k in s.processing && s.processing[k] == Started && Aggregated(s.cache, k)
    requires n <= |s.cache[k].selectors.value|
    ensures Run(s, steps, AtSelector(s, k, n))
    decreases n
  {
    hide AtSelector, Run, Next, Enabled;
    if n == 0 {
      steps := [Fetch(k)];
      FetchRun(s, k);
    } else {
      var before := ListingRun(s, k, n - 1);
      SelectorStep(s, k, n - 1);
      RunSnoc(s, before, AtSelector(s, k, n - 1), ListSelector(k));
      steps := before + [ListSelector(k)];
    }
  }

  /** The rules a sync on this state writes, if any. */
  ghost function ToWrite(roles: Roles, k: string): Option<seq<Rule>> {
    if Aggregated(roles, k) && Aggregate(roles, k) != roles[k].rules then Some(Aggregate(roles, k)) else None
  }

  /** A whole sync without API error, from picking the key up to letting it go. */
  ghost function Synced(s: State, k: string): State {
    var s1 := s.(dirty := s.dirty - {k});
    match ToWrite(s.cache, k)
    case None => s1
    case Some(rules) => Store(s1, k, WithRules(s.store, k, rules))
  }

  lemma PickedUp(s: State, k: string)
    requires k in s.dirty && k !in s.processing
    ensures Run(s, [Get(k)], s.(dirty := s.dirty - {k}, processing := s.processing[k := Started]))
  {
  }

  lemma NothingToAggregate(s: State, k: string)
    requires k !in s.processing && !Aggregated(s.cache, k)
    ensures Run(s.(processing := s.processing[k := Started]), [Fetch(k), Done(k)], s)
  {
    var s1 := s.(processing := s.processing[k := Started]);
    assert [Fetch(k), Done(k)][1..] == [Done(k)] && [Done(k)][1..] == [];
    assert Run(Next(s1, Fetch(k)), [Done(k)], s) by {
      assert Next(Next(s1, Fetch(k)), Done(k)).processing == s.processing;
    }
  }

  lemma Concluded(s: State, k: string)
    requires k !in s.processing && Aggregated(s.cache, k)
    ensures var n := |s.cache[k].selectors.value|;
            var last := if ToWrite(s.cache, k).Some? then Write(k) else Skip(k);
            var end := match ToWrite(s.cache, k) case None => s case Some(rules) =>
                Store(s, k, WithRules(s.store, k, rules));
            Run(AtSelector(s, k, n), [last, Done(k)], end)
  {
    hide AddSelectors;
    var ss := s.cache[k].selectors.value;
    assert ss[..|ss|] == ss;
    var last := if ToWrite(s.cache, k).Some? then Write(k) else Skip(k);
    assert [last, Done(k)][1..] == [Done(k)] && [Done(k)][1..] == [];
    var t := AtSelector(s, k, |ss|);
    assert t.processing[k].rules == Aggregate(s.cache, k);
    assert Enabled(t, last);
    var u := Next(t, last);
    assert Next(u, Done(k)).processing == s.processing;
    assert Run(u, [Done(k)], Next(u, Done(k)));
  }

  /** Run without interruption, a sync leaves exactly the state its aggregation describes. */
  lemma SyncRun(s: State, k: string) returns (steps: seq<Step>)
    requires k in s.dirty && k !in s.processing
    ensures Run(s, steps, Synced(s, k))
  {
    hide Run, Next, Enabled, AtSelector, Aggregate;
    PickedUp(s, k);
    var s1 := s.(dirty := s.dirty - {k});
    var s2 := s1.(processing := s.processing[k := Started]);
    if Aggregated(s.cache, k) {
      var n := |s.cache[k].selectors.value|;
      var listing := ListingRun(s2, k, n);
      assert AtSelector(s2, k, n) == AtSelector(s1, k, n) by { SameProcessing(s1, k, n); }
      Concluded(s1, k);
      var last := if ToWrite(s.cache, k).Some? then Write(k) else Skip(k);
      RunConcat(s2, listing, AtSelector(s1, k, n), [last, Done(k)], Synced(s, k));
      RunConcat(s, [Get(k)], s2, listing + [last, Done(k)], Synced(s, k));
      steps := [Get(k)] + (listing + [last, Done(k)]);
    } else {
      NothingToAggregate(s1, k);
      RunConcat(s, [Get(k)], s2, [Fetch(k), Done(k)], s1);
      steps := [Get(k)] + [Fetch(k), Done(k)];
    }
  }

  lemma SameProcessing(s: State, k: string, n: nat)
    requires Aggregated(s.cache, k) && n <= |s.cache[k].selectors.value|
    ensures AtSelector(s.(processing := s.processing[k := Started]), k, n) == AtSelector(s, k, n)
  {
  }

  /** A sync whose write is refused goes into back-off and changes nothing else. */
  lemma FailedRun(s: State, k: string)
    requires k in s.dirty && k !in s.processing
    ensures Run(s, [Get(k), Fail(k)], s.(dirty := s.dirty - {k}, delayed := s.delayed + {k}))
  {
    assert [Get(k), Fail(k)][1..] == [Fail(k)] && [Fail(k)][1..] == [];
    var u := Next(s, Get(k));
    assert Next(u, Fail(k)).processing == s.processing;
  }

  class Controller {
    var store: Roles
    var cache: Roles
    var watch: seq<Event>
    var notices: nat
    var adding: set<string>
    var dirty: set<string>
    var processing: map<string, Worker>
    var delayed: set<string>

    ghost function Abstract(): State
      reads this
    {
      State(store, cache, watch, notices, adding, dirty, processing, delayed)
    }

    /** processNextWorkItem for the key the queue hands out; `refused` is whether the API server refuses the write. */
    method ProcessNextWorkItem(key: string, refused: bool) returns (ghost steps: seq<Step>)
      requires key in dirty && key !in processing
      modifies this
      ensures Run(old(Abstract()), steps, Abstract())
      ensures Abstract() == if refused && ToWrite(old(cache), key).Some?
                            then old(Abstract()).(dirty := old(dirty) - {key}, delayed := old(delayed) + {key})
                            else Synced(old(Abstract()), key)
    {
      hide Run, Next, Enabled, Aggregate;
      ghost var s := Abstract();
      dirty := dirty - {key};
      var write := SyncClusterRole(cache, key);
      if write.Some? && refused {
        delayed := delayed + {key};
        steps := [Get(key), Fail(key)];
        FailedRun(s, key);
        return;
      }
      if write.Some? {
        var r := if key in store then store[key].(rules := write.value) else Role(map[], None, write.value);
        if key !in store || store[key] != r {
          store, watch := store[key := r], watch + [Put(key, r)];
        }
      }
      steps := SyncRun(s, key);
    }

    /** The event handler: every aggregated role in the cache is queued. */
    method EnqueueAll() returns (ghost steps: seq<Step>)
      requires notices > 0 && adding == {}
      modifies this
      ensures Run(old(Abstract()), steps, Abstract())
      ensures Abstract() == old(Abstract()).(notices := old(notices) - 1, dirty := dirty)
      ensures forall k :: k in dirty <==> k in old(dirty) || Aggregated(cache, k)
    {
      hide Run, Next, Enabled, Handling;
      ghost var s := Abstract();
      steps := [Notify];
      NotifyRun(s);
      notices := notices - 1;
      var todo := cache.Keys;
      while todo != {}
        invariant todo <= cache.Keys && Run(s, steps, Handling(s, dirty, todo))
        invariant Abstract() == s.(notices := s.notices - 1, dirty := dirty)
        invariant forall k :: k in dirty <==> k in s.dirty || (k !in todo && Aggregated(cache, k))
        decreases |todo|
      {
        var k :| k in todo;
        HandleOne(s, steps, dirty, todo, k);
        todo := todo - {k};
        if cache[k].selectors == None {
          continue;
        }
        dirty := dirty + {k};
        steps := steps + [Enqueue(k)];
      }
      HandledAll(s, dirty);
    }
  }

  /** The event handler has the roles of `todo` still to look at. */
  ghost function Handling(s: State, dirty: set<string>, todo: set<string>): State
    requires s.notices > 0
  {
    s.(notices := s.notices - 1, dirty := dirty, adding := set k | k in todo && Aggregated(s.cache, k))
  }

  lemma NotifyRun(s: State)
    requires s.notices > 0 && s.adding == {}
    ensures Run(s, [Notify], Handling(s, s.dirty, s.cache.Keys))
  {
    hide Run;
    OneStep(s, Notify);
    assert (set k | k in s.cache.Keys && Aggregated(s.cache, k)) == set k | k in s.cache && s.cache[k].selectors.Some?;
  }

  lemma HandleOne(s: State, steps: seq<Step>, dirty: set<string>, todo: set<string>, k: string)
    requires s.notices > 0 && k in todo && Run(s, steps, Handling(s, dirty, todo))
    ensures Aggregated(s.cache, k) ==> Run(s, steps + [Enqueue(k)], Handling(s, dirty + {k}, todo - {k}))
    ensures !Aggregated(s.cache, k) ==> Run(s, steps, Handling(s, dirty, todo - {k}))
  {
    hide Run;
    var t := Handling(s, dirty, todo);
    if Aggregated(s.cache, k) {
      RunSnoc(s, steps, t, Enqueue(k));
      assert t.adding - {k} == Handling(s, dirty + {k}, todo - {k}).adding;
    } else {
      assert t.adding == Handling(s, dirty, todo - {k}).adding;
    }
  }

  lemma HandledAll(s: State, dirty: set<string>)
    requires s.notices > 0 && s.adding == {}
    ensures Handling(s, dirty, {}) == s.(notices := s.notices - 1, dirty := dirty)
  {
  }

  lemma OneStep(s: State, step: Step)
    requires Enabled(s, step)
    ensures Run(s, [step], Next(s, step))
  {
  }
}
