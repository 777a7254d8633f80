/** CertificateChains: several root signers over one disk, and whole runs of Regenerate calls. */
module Chains {
  import opened Base
  import opened Pki
  import opened Tree
  import opened Layout
  import opened Completion
  import opened Renewal
  import opened Regeneration

  type Chains = map<string, Node>

  datatype ChainsOut = COk(cs: Chains, w: World) | CErr(error: Error)

  ghost predicate ChainsPossible(cs: Chains, path: Path, ch: Choices) {
    path != [] && (path[0] in cs ==> Possible(cs[path[0]], path[1..], ch))
  }

  /** CertificateChains.Regenerate. */
  ghost function RegenerateChains(cs: Chains, path: Path, ch: Choices, w: World): ChainsOut
    requires ChainsPossible(cs, path, ch)
  {
    if path[0] !in cs then CErr(NoSuchSigner(path[0])) else
      match Regenerate(cs[path[0]], path[1..], ch, w)
      case Err(e) => CErr(e)
      case Ok(n, w') => COk(cs[path[0] := n], w')
  }

  function ChainCertAt(cs: Chains, q: Path): Option<Cert> {
    if q != [] && q[0] in cs then CertAt(cs[q[0]], q[1..]) else None
  }

  ghost function ChainDaysAt(cs: Chains, q: Path): int
    requires q != [] && q[0] in cs
  {
    if |q| == 1 then CADays(cs[q[0]].days) else DaysAt(NodeShape(cs[q[0]]), q[1..])
  }

  /** The trees do not overlap on disk and no bundle of one lies inside the other. */
  ghost predicate Separate(s: Shape, t: Shape) {
    && Apart(s, t)
    && (forall p :: p in Bundles(s) ==> !Within(t, p))
    && (forall p :: p in Bundles(t) ==> !Within(s, p))
  }

  ghost predicate RootHealthy(cs: Chains, k: string, w: World)
    requires k in cs
  {
    cs[k].name == k && Healthy(cs[k], w) && RootOnDisk(cs[k], w.files, w.next)
  }

  ghost predicate AllSeparate(cs: Chains) {
    forall k, l :: k in cs && l in cs && k != l ==> Separate(NodeShape(cs[k]), NodeShape(cs[l]))
  }

  /** The invariant of the engine: every certificate in every tree chains to its parent's current CA and is what the
      disk holds, every root is a self-signed certificate in its own directory, and the layout is kept. */
  ghost predicate Intact(cs: Chains, w: World) {
    (forall k :: k in cs ==> RootHealthy(cs, k, w)) && AllSeparate(cs)
  }

  ghost predicate SameShapes(cs: Chains, cs': Chains) {
    cs'.Keys == cs.Keys && forall k :: k in cs ==> NodeShape(cs'[k]) == NodeShape(cs[k])
  }

  ghost predicate ChainsExact(cs: Chains, cs': Chains, path: Path, w: World) {
    && (forall q :: !(path <= q) ==> ChainCertAt(cs', q) == ChainCertAt(cs, q))
    && (forall q :: path <= q && q != [] && q[0] in cs && ChainCertAt(cs', q).Some? ==>
          Renewed(ChainCertAt(cs', q).value, w.next, w.now, ChainDaysAt(cs, q)))
  }

  /** What a successful call guarantees. */
  ghost predicate ChainsRegenerated(cs: Chains, path: Path, w: World, cs': Chains, w': World)
    requires path != [] && path[0] in cs
  {
    && Intact(cs', w') && SameShapes(cs, cs') && Later(w, w')
    && OnlyTarget(w.files, w'.files, NodeShape(cs[path[0]]), path[1..])
    && ChainsExact(cs, cs', path, w)
  }

  /* ---- trees do not disturb one another ---- */

  lemma OtherTreeHealthy(s: Shape, m: Node, w: World, w': World)
    requires Healthy(m, w) && RootOnDisk(m, w.files, w.next) && Later(w, w')
    requires Separate(s, NodeShape(m)) && Untouched(w.files, w'.files, s) && AllReadable(w'.files, Bundles(s))
    ensures Healthy(m, w') && RootOnDisk(m, w'.files, w'.next)
  {
    hide LaidOut, Bundles, Nested, Sound, NodeShape;
    var t := NodeShape(m);
    forall p | Within(t, p) ensures SameAt(w.files, w'.files, p) {
      assert !Within(s, p);
    }
    SoundFrame(m, w.files, w'.files, w.next, w'.next);
    forall p | p in Bundles(t) ensures Readable(w'.files, p) {
      assert p !in Bundles(s) ==> SameAt(w.files, w'.files, p);
    }
    DirOf(m);
    forall p | CaFile(m.dir, p) ensures SameAt(w.files, w'.files, p) {
      CaFilesWithin(t, p);
    }
    RootOnDiskFrame(m, w.files, w'.files, w.next, w'.next);
  }

  lemma IntactAfter(cs: Chains, k: string, n: Node, w: World, w': World)
    requires Intact(cs, w) && k in cs && NodeShape(n) == NodeShape(cs[k]) && Healthy(n, w')
    requires RootOnDisk(n, w'.files, w'.next)
    requires Later(w, w') && Untouched(w.files, w'.files, NodeShape(cs[k]))
    requires AllReadable(w'.files, Bundles(NodeShape(cs[k])))
    ensures Intact(cs[k := n], w') && SameShapes(cs, cs[k := n])
  {
    hide Healthy, RootOnDisk, Separate, Untouched, AllReadable, NodeShape;
    var cs' := cs[k := n];
    forall l | l in cs' ensures RootHealthy(cs', l, w') {
      assert RootHealthy(cs, l, w);
      if l != k {
        OtherTreeHealthy(NodeShape(cs[k]), cs[l], w, w');
      } else {
        DirOf(n);
        DirOf(cs[k]);
      }
    }
  }

  /* ---- one call ---- */

  lemma ChainsExactUp(cs: Chains, path: Path, n: Node, w: World)
    requires |path| >= 2 && path[0] in cs && Exact(cs[path[0]], n, path[1..], w)
    ensures ChainsExact(cs, cs[path[0] := n], path, w)
  {
  }

  lemma ChainsExactRoot(cs: Chains, k: string, n: Node, w: World)
    requires k in cs && NodeShape(n) == NodeShape(cs[k]) && RootFresh(n, w.next, w.now)
    ensures ChainsExact(cs, cs[k := n], [k], w)
  {
    hide Renewed, FreshBelow;
    var cs' := cs[k := n];
    DirOf(n);
    forall q | [k] <= q && ChainCertAt(cs', q).Some?
      ensures Renewed(ChainCertAt(cs', q).value, w.next, w.now, ChainDaysAt(cs, q))
    {
      if |q| > 1 {
        FreshBelowAt(n, q[1..], w.next, w.now);
      } else {
        assert q[1..] == [];
        assert n.days == NodeShape(n).days;
      }
    }
    forall q | !([k] <= q) ensures ChainCertAt(cs', q) == ChainCertAt(cs, q) {
      if q != [] {
        PrefixHead([k], q);
      }
    }
  }

  lemma RegenerateRoot(cs: Chains, k: string, ch: Choices, w: World) returns (cs': Chains, w': World)
    requires Intact(cs, w) && k in cs && ChainsPossible(cs, [k], ch)
    ensures RegenerateChains(cs, [k], ch, w) == COk(cs', w')
    ensures ChainsRegenerated(cs, [k], w, cs', w')
  {
    hide LaidOut, Bundles, Nested, Sound, NodeShape, Untouched, AllReadable, RootFresh, ChainsExact, AllSeparate;
    hide RenewAll;
    assert RootHealthy(cs, k, w);
    assert [k][1..] == [];
    var n: Node;
    n, w' := RenewAllSound(cs[k], ch, w);
    cs' := cs[k := n];
    NestedSubs(cs[k], n);
    IntactAfter(cs, k, n, w, w');
    ChainsExactRoot(cs, k, n, w);
    WholeTarget(w.files, w'.files, NodeShape(cs[k]));
  }

  lemma WholeTarget(f: map<Path, File>, g: map<Path, File>, sh: Shape)
    ensures OnlyTarget(f, g, sh, []) <==> Untouched(f, g, sh)
  {
  }

  lemma RegenerateInside(cs: Chains, path: Path, ch: Choices, w: World) returns (cs': Chains, w': World)
    requires Intact(cs, w) && |path| >= 2 && path[0] in cs && ChainsPossible(cs, path, ch)
    requires ChainCertAt(cs, path).Some?
    ensures RegenerateChains(cs, path, ch, w) == COk(cs', w')
    ensures ChainsRegenerated(cs, path, w, cs', w')
  {
    hide LaidOut, Bundles, Nested, Sound, NodeShape, Untouched, AllReadable, Exact, ChainsExact, AllSeparate, InTarget;
    var k := path[0];
    assert RootHealthy(cs, k, w);
    var n: Node;
    n, w' := RegenerateSound(cs[k], path[1..], ch, w);
    cs' := cs[k := n];
    InsideRoot(cs[k], n, path[1..], w, w');
    IntactAfter(cs, k, n, w, w');
    ChainsExactUp(cs, path, n, w);
  }

  lemma InsideRoot(n: Node, n': Node, path: Path, w: World, w': World)
    requires Healthy(n, w) && RootOnDisk(n, w.files, w.next) && path != [] && Regenerated(n, n', path, w, w')
    ensures RootOnDisk(n', w'.files, w'.next) && Untouched(w.files, w'.files, NodeShape(n))
  {
    hide Bundles, Sound, Exact, Nested;
    var sh := NodeShape(n);
    DirOf(n');
    forall p | CaFile(n.dir, p) ensures SameAt(w.files, w'.files, p) {
      TargetNotCa(sh, path, p);
    }
    RootOnDiskFrame(n, w.files, w'.files, w.next, w'.next);
    forall p | !Within(sh, p) && p !in Bundles(sh) ensures SameAt(w.files, w'.files, p) {
      if InTarget(sh, path, p) {
        TargetWithin(sh, path, p);
      }
    }
  }

  /** Regenerate is exact.  On an intact state a call succeeds exactly when its path leads to a certificate; then it
      renews every certificate at or below the path, leaves every other certificate and every file outside the target
      as it was, keeps every shape, and leaves the state intact. */
  lemma RegenerateExact(cs: Chains, path: Path, ch: Choices, w: World)
    requires Intact(cs, w) && ChainsPossible(cs, path, ch)
    ensures RegenerateChains(cs, path, ch, w).COk? <==> ChainCertAt(cs, path).Some?
    ensures RegenerateChains(cs, path, ch, w).COk? ==>
              && path[0] in cs
              && ChainsRegenerated(cs, path, w, RegenerateChains(cs, path, ch, w).cs,
                                   RegenerateChains(cs, path, ch, w).w)
  {
    hide Intact, ChainsRegenerated, Possible, Regenerate;
    if ChainCertAt(cs, path).Some? {
      if |path| == 1 {
        assert path == [path[0]];
        var _, _ := RegenerateRoot(cs, path[0], ch, w);
      } else {
        var _, _ := RegenerateInside(cs, path, ch, w);
      }
    } else if path[0] in cs {
      RegenerateFails(cs[path[0]], path[1..], ch, w);
    }
  }

  /* ---- whole runs ---- */

  /** One Regenerate call: its path, the iteration orders it happened to use, and the time it was made. */
  datatype Call = Call(path: Path, choices: Choices, now: int)

  /** `calls`, all successful, lead from one state to the other. */
  ghost predicate Run(cs: Chains, w: World, calls: seq<Call>, cs': Chains, w': World)
    decreases |calls|
  {
    if calls == [] then cs' == cs && w' == w else
      && ChainsPossible(cs, calls[0].path, calls[0].choices)
      && var o := RegenerateChains(cs, calls[0].path, calls[0].choices, w.(now := calls[0].now));
         o.COk? && Run(o.cs, o.w, calls[1..], cs', w')
  }

  lemma RunStep(cs: Chains, w: World, calls: seq<Call>, cs': Chains, w': World) returns (cs1: Chains, w1: World)
    requires Run(cs, w, calls, cs', w') && calls != []
    ensures ChainsPossible(cs, calls[0].path, calls[0].choices)
    ensures RegenerateChains(cs, calls[0].path, calls[0].choices, w.(now := calls[0].now)) == COk(cs1, w1)
    ensures Run(cs1, w1, calls[1..], cs', w')
  {
    var o := RegenerateChains(cs, calls[0].path, calls[0].choices, w.(now := calls[0].now));
    cs1, w1 := o.cs, o.w;
  }

  lemma RunNothing(cs: Chains, w: World)
    ensures Run(cs, w, [], cs, w)
  {
  }

  /** A run grows at its end. */
  lemma {:induction false} RunOneMore(cs: Chains, w: World, calls: seq<Call>, cs1: Chains, w1: World, c: Call,
                                      cs': Chains, w': World)
    requires Run(cs, w, calls, cs1, w1) && ChainsPossible(cs1, c.path, c.choices)
    requires RegenerateChains(cs1, c.path, c.choices, w1.(now := c.now)) == COk(cs', w')
    ensures Run(cs, w, calls + [c], cs', w')
    decreases |calls|
  {
    hide ChainsPossible, RegenerateChains;
    if calls == [] {
      assert ([] + [c])[1..] == [];
    } else {
      var cs2, w2 := RunStep(cs, w, calls, cs1, w1);
      assert (calls + [c])[1..] == calls[1..] + [c];
      RunOneMore(cs2, w2, calls[1..], cs1, w1, c, cs', w');
    }
  }

  lemma IntactAnyTime(cs: Chains, w: World, now: int)
    requires Intact(cs, w)
    ensures Intact(cs, w.(now := now))
  {
  }

  /** Chain integrity over whole runs: no sequence of successful renewals, whatever their paths, times and iteration
      orders, breaks the chain or its agreement with the disk, or changes what the trees are made of. */
  lemma {:induction false} RunKeepsIntact(cs: Chains, w: World, calls: seq<Call>, cs': Chains, w': World)
    requires Intact(cs, w) && Run(cs, w, calls, cs', w')
    ensures Intact(cs', w') && SameShapes(cs, cs')
    decreases |calls|
  {
    if calls != [] {
      hide Intact, RegenerateChains, ChainsPossible;
      var cs1, w1 := RunStep(cs, w, calls, cs', w');
      IntactAnyTime(cs, w, calls[0].now);
      RegenerateExact(cs, calls[0].path, calls[0].choices, w.(now := calls[0].now));
      RunKeepsIntact(cs1, w1, calls[1..], cs', w');
    }
  }
}
