/** An input on which the controller brings a deleted role back, and another role rests on a rule that nobody asked
    for. */
module AggregationRevival {
  import opened Base
  import opened Aggregation
  import opened AggregationController
  import opened AggregationGraph
  import opened AggregationRest
  import opened AggregationStrays
  import opened AggregationLiveness

  const RULE := Rule(["get"], [""], ["pods"], [], [])
  const BY_ID := Selector(map["id" := "src"], [])
  const WITHOUT_ID := Selector(map[], [Requirement("id", DoesNotExist, [])])
  const SOURCE := Role(map["id" := "src"], None, [RULE])
  const TAKER := Role(map[], Some([BY_ID]), [])
  const OTHER := Role(map[], Some([WITHOUT_ID]), [])
  const ALL: Roles := map["src" := SOURCE, "k" := TAKER, "j" := OTHER]
  const LEFT: Roles := map["j" := OTHER]

  const BEGIN := State(ALL, map[], [Put("src", SOURCE), Put("k", TAKER), Put("j", OTHER)], 0, {}, {}, map[], {})

  lemma BeginIsInitial()
    ensures Initial(BEGIN)
  {
    assert Replay(map[], BEGIN.watch) == ALL by {
      assert Replay(map["src" := SOURCE], BEGIN.watch[1..]) == ALL by {
        assert Replay(map["src" := SOURCE, "k" := TAKER], BEGIN.watch[1..][1..]) == ALL;
      }
    }
  }

  const FILL := [Deliver, Deliver, Deliver]
  const FILLED := State(ALL, ALL, [], 3, {}, {}, map[], {})

  lemma Filling()
    ensures Run(BEGIN, FILL, FILLED)
  {
  }

  const START := [Notify, Enqueue("k"), Get("k"), Fetch("k")]
  const STARTED := State(ALL, ALL, [], 2, {"j"}, {}, map["k" := Listing(TAKER, 0, [])], {})

  lemma Starting()
    ensures Run(FILLED, START, STARTED)
  {
    var s1 := Next(FILLED, Notify);
    assert s1.adding == {"k", "j"};
    var s2 := Next(s1, Enqueue("k"));
    assert s2.adding == {"j"} && s2.dirty == {"k"};
    var s3 := Next(s2, Get("k"));
    assert s3.dirty == {} && s3.processing == map["k" := Started];
    assert Next(s3, Fetch("k")) == STARTED;
    assert START[1..] == [Enqueue("k"), Get("k"), Fetch("k")] && START[1..][1..] == [Get("k"), Fetch("k")];
    assert START[1..][1..][1..] == [Fetch("k")] && [Fetch("k")][1..] == [];
    assert Run(s3, [Fetch("k")], STARTED);
    assert Run(s2, [Get("k"), Fetch("k")], STARTED);
    assert Run(s1, START[1..], STARTED);
  }

  const READ := STARTED.(processing := map["k" := Listing(TAKER, 1, [RULE])])

  /** The selector lists "src" alone. */
  lemma Reading()
    ensures Run(STARTED, [ListSelector("k")], READ)
  {
    assert Matches(BY_ID, SOURCE.labels) && !Matches(BY_ID, map[]) by {
      assert "id" in BY_ID.matchLabels;
    }
    forall k ensures k in Listed(ALL, BY_ID) <==> k == "src" {
      assert k in ALL <==> k == "src" || k == "k" || k == "j";
    }
    assert Listed(ALL, BY_ID) == {"src"};
    OneName("src");
    assert AddRules([], [RULE]) == [RULE];
    assert AddRoles([], ALL, "k", ["src"]) == [RULE] by {
      assert ["src"][1..] == [];
    }
    assert AddSelector([], ALL, "k", BY_ID) == [RULE];
    assert [ListSelector("k")][1..] == [];
  }

  lemma OneName(x: string)
    ensures Sorted({x}) == [x]
  {
    var q := Sorted({x});
    assert q[0] in {x};
  }

  const DELETE := [OutsideDelete("src"), OutsideDelete("k"), Deliver, Deliver]
  const SILENT := State(LEFT, LEFT, [], 4, {"j"}, {}, map["k" := Listing(TAKER, 1, [RULE])], {})

  lemma Deleting()
    ensures Run(READ, DELETE, SILENT)
  {
    var s1 := Next(READ, OutsideDelete("src"));
    var s2 := Next(s1, OutsideDelete("k"));
    assert s2.store == LEFT && s2.watch == [Delete("src"), Delete("k")];
    var s3 := Next(s2, Deliver);
    assert s3.watch == [Delete("k")];
    assert Next(s3, Deliver) == SILENT;
    assert DELETE[1..] == [OutsideDelete("k"), Deliver, Deliver] && DELETE[1..][1..] == [Deliver, Deliver];
    assert DELETE[1..][1..][1..] == [Deliver] && [Deliver][1..] == [];
    assert Run(s3, [Deliver], SILENT);
    assert Run(s2, [Deliver, Deliver], SILENT);
    assert Run(s1, DELETE[1..], SILENT);
  }

  /** Everybody has heard of the deletions, but the sync of "k" is still going. */
  lemma SilentIsReached() returns (before: seq<Step>)
    ensures Initial(BEGIN) && Run(BEGIN, before, SILENT)
  {
    hide Run, Initial;
    BeginIsInitial();
    Filling();
    Starting();
    Reading();
    Deleting();
    RunConcat(BEGIN, FILL, FILLED, START, STARTED);
    RunConcat(BEGIN, FILL + START, STARTED, [ListSelector("k")], READ);
    RunConcat(BEGIN, FILL + START + [ListSelector("k")], READ, DELETE, SILENT);
    before := FILL + START + [ListSelector("k")] + DELETE;
  }

  const BACK := Role(map[], None, [RULE])
  const REVIVED: Roles := map["j" := OTHER, "k" := BACK]
  const CAUGHT_UP := State(REVIVED, REVIVED, [], 5, {"j"}, {}, map["k" := Finished], {})

  lemma Reviving()
    ensures Run(SILENT, [Write("k"), Deliver], CAUGHT_UP) && Overstepped(SILENT, [Write("k"), Deliver])
  {
    var s1 := Next(SILENT, Write("k"));
    assert s1.store == REVIVED && s1.watch == [Put("k", BACK)];
    assert Next(s1, Deliver) == CAUGHT_UP;
    assert [Write("k"), Deliver][1..] == [Deliver] && [Deliver][1..] == [];
    assert Run(s1, [Deliver], CAUGHT_UP);
  }

  lemma TwoSteps(g: Roles, p: seq<string>)
    requires Path(g, p) && |p| > 2
    ensures DependsOn(g, p[0], p[1]) && DependsOn(g, p[1], p[2])
  {
    assert p[1..][0] == p[1] && p[1..][1] == p[2];
  }

  /** Where only ordinary roles are selected no path goes on. */
  lemma FlatPath(g: Roles, p: seq<string>)
    requires Path(g, p) && forall k, j :: DependsOn(g, k, j) ==> !Aggregated(g, j)
    ensures |p| <= 2
  {
    if |p| > 2 {
      TwoSteps(g, p);
    }
  }

  lemma FlatAcyclic(g: Roles)
    requires forall k, j :: DependsOn(g, k, j) ==> !Aggregated(g, j)
    ensures Acyclic(g)
  {
    forall p ensures !Cycle(g, p) {
      if Path(g, p) {
        FlatPath(g, p);
      }
    }
  }

  lemma LeftGraph()
    ensures Acyclic(LEFT) && !Reaches(LEFT, "j", RULE)
  {
    assert forall k, j :: !DependsOn(LEFT, k, j);
    FlatAcyclic(LEFT);
  }

  lemma RevivedGraph()
    ensures Acyclic(REVIVED) && Reaches(REVIVED, "j", RULE)
  {
    assert forall k, j :: DependsOn(REVIVED, k, j) ==> k == "j" && j == "k";
    FlatAcyclic(REVIVED);
    var p := ["j", "k"];
    assert p[1..] == ["k"];
    assert Matches(WITHOUT_ID, BACK.labels) && Selects([WITHOUT_ID], BACK.labels) by {
      assert [WITHOUT_ID][0] == WITHOUT_ID;
    }
    assert REVIVED["k"] == BACK && p[|p| - 1] == "k" && !Aggregated(REVIVED, "k");
    assert LeadsTo(REVIVED, "j", p, RULE);
  }

  /** From a reachable state in which the cache equals the store, without any further outside write, the controller
      comes to rest with the deleted role in the store, and with a rule in "j" that its selectors led to nowhere. */
  lemma DeletedRoleReturns() returns (before: seq<Step>, s: State, steps: seq<Step>, s': State)
    ensures Initial(BEGIN) && Run(BEGIN, before, s) && s.watch == [] && s.cache == s.store && Acyclic(s.store)
    ensures Run(s, steps, s') && NoneOutside(steps) && Idle(s')
    ensures "k" !in s.store && "k" in s'.store
    ensures Aggregated(s.store, "j") && "j" in s'.store && RULE in s'.store["j"].rules && !Reaches(s.store, "j", RULE)
  {
    hide Run, Initial, Acyclic, Reaches, Idle, Overstepped;
    before := SilentIsReached();
    s := SILENT;
    Reviving();
    LeftGraph();
    RevivedGraph();
    RunConcat(BEGIN, before, SILENT, [Write("k"), Deliver], CAUGHT_UP);
    var on := before + [Write("k"), Deliver];
    var rest;
    rest, s' := Settles(BEGIN, on, CAUGHT_UP);
    CaughtUpWrites(BEGIN, on, CAUGHT_UP, rest, s');
    assert Aggregated(REVIVED, "j") && HasReachable(REVIVED, s'.store, "j");
    RunConcat(SILENT, [Write("k"), Deliver], CAUGHT_UP, rest, s');
    steps := [Write("k"), Deliver] + rest;
  }
}
