/** Why a nested sub-CA must live under its parent's directory: renewing a sub-CA keeps the chain below it intact
    if and only if every descendant's directory lies under the directory that is removed. */
module Nesting {
  import opened Base
  import opened Pki
  import opened Tree
  import opened Rebuilding
  import opened Layout
  import opened Writes
  import opened Completion
  import opened Renewal

  /** Every certificate recorded below `n` was issued by the CA recorded above it. */
  ghost predicate Chained(n: Node) {
    && (forall k :: k in n.leaves ==> IssuedBy(n.leaves[k].tls.cert, n.ca))
    && (forall k :: k in n.subs ==> IssuedBy(n.subs[k].ca.cert, n.ca) && Chained(n.subs[k]))
  }

  lemma {:induction false} SoundChained(n: Node, files: map<Path, File>, next: nat)
    requires Sound(n, files, next)
    ensures Chained(n)
  {
    forall k | k in n.leaves ensures IssuedBy(n.leaves[k].tls.cert, n.ca) {
      assert SoundCert(n, k, files, next);
    }
    forall k | k in n.subs ensures IssuedBy(n.subs[k].ca.cert, n.ca) && Chained(n.subs[k]) {
      assert SoundSub(n, k, files, next);
      SoundChained(n.subs[k], files, next);
    }
  }

  /* ---- what signing a sub-CA touches, on any disk ---- */

  lemma SubCAUntouched(n: Node, b: Builder, w: World)
    requires WellNamed(b) && SignSubCA(n, b, w).Ok?
    ensures Untouched(w.files, SignSubCA(n, b, w).w.files, BuilderShape(b))
  {
    hide SignSubCA, BuilderShape, Within, Bundles, Written, SameAt;
    var sh := BuilderShape(b);
    forall p | !Within(sh, p) && p !in Bundles(sh) ensures SameAt(w.files, SignSubCA(n, b, w).w.files, p) {
      WrittenWithin(sh, p);
      SubCAWrites(n, b, w, p);
    }
  }

  lemma EnsuredBelow(parent: Tls, sh: Shape, w: World)
    ensures var w' := EnsureSubCA(parent, sh.name, sh.dir, sh.days, w).1;
              SameBelow(w.files, w'.files, sh) && w.next <= w'.next
  {
    forall p | Within(sh, p) && !CaFile(sh.dir, p)
      ensures SameAt(w.files, EnsureSubCA(parent, sh.name, sh.dir, sh.days, w).1.files, p)
    {
      EnsureWrites(parent, sh.name, sh.dir, sh.days, w, p);
    }
  }

  /* ---- a descendant outside the removed directory ---- */

  /** The old subtree `m` was sound on the disk `f0`, whose directory `d` has since been removed. */
  ghost predicate OldTree(m: Node, f0: map<Path, File>, d: Path, lo: nat) {
    LaidOut(NodeShape(m)) && Sound(m, f0, lo) && m.ca.cert.id < lo && d <= m.dir
  }

  lemma KeptSubCA(m: Node, k: string, f0: map<Path, File>, d: Path, lo: nat)
    requires OldTree(m, f0, d, lo) && k in m.subs && !(d <= m.subs[k].dir)
    ensures GetSubCA(RemoveAll(f0, d), m.subs[k].dir) == Some(m.subs[k].ca)
    ensures IssuedBy(m.subs[k].ca.cert, m.ca)
  {
    assert SoundSub(m, k, f0, lo);
    KeptFile(m, k, "ca-bundle.crt", d);
    KeptFile(m, k, "ca.key", d);
    KeptFile(m, k, "serial.txt", d);
  }

  lemma KeptFile(m: Node, k: string, f: string, d: Path)
    requires LaidOut(NodeShape(m)) && d <= m.dir && k in m.subs && !(d <= m.subs[k].dir)
    ensures !(d <= m.subs[k].dir + [f])
  {
    var c, o := m.subs[k], CACertPath(m.dir);
    NodeSubShape(m, k);
    assert OwnPath(NodeShape(m), o) && OwnApart(NodeShape(m), NodeShape(m).subs[k]);
    assert c.dir <= c.dir + [f] && m.dir <= o;
    if d <= c.dir + [f] {
      PrefixOfLonger(d, c.dir, f);
    }
  }

  lemma PrefixOfLonger(d: Path, e: Path, f: string)
    requires d <= e + [f] && !(d <= e)
    ensures d == e + [f]
  {
  }

  lemma RemovedSubCA(files: map<Path, File>, d: Path, dir: Path)
    requires d <= dir
    ensures GetSubCA(RemoveAll(files, d), dir) == None
  {
  }

  ghost predicate BadSub(m: Node, k: string, d: Path) {
    k in m.subs && !(d <= m.subs[k].dir && Under(NodeShape(m.subs[k]), d))
  }

  lemma {:induction false} BreaksBelow(b: Builder, ca: Tls, m: Node, w: World, f0: map<Path, File>, d: Path, lo: nat)
    requires Rebuilds(b, m) && OldTree(m, f0, d, lo) && !Under(NodeShape(m), d)
    requires lo <= ca.cert.id && lo <= w.next && SameBelow(RemoveAll(f0, d), w.files, NodeShape(m))
    requires Complete(b, ca, w).Ok?
    ensures !Chained(Complete(b, ca, w).node)
    decreases b, 1
  {
    var sh := NodeShape(m);
    var k :| k in sh.subs && !(d <= sh.subs[k].dir && Under(sh.subs[k], d));
    NodeSubShape(m, k);
    SameBelowSubs(RemoveAll(f0, d), w.files, sh, k);
    BreaksInLoop(Empty(b, ca), b.subs, m, w, f0, d, lo, k);
    var Ok(n1, w1) := SignSubCAs(Empty(b, ca), b.subs, w);
    CertificatesKeepName(n1, b.csrs, w1);
    BundlesKeepName(SignCertificates(n1, b.csrs, w1).0, b.bundlePaths, SignCertificates(n1, b.csrs, w1).1);
  }

  lemma {:induction false} BreaksInLoop(n: Node, bs: seq<Builder>, m: Node, w: World, f0: map<Path, File>, d: Path,
                                        lo: nat, k: string)
    requires AllWellNamed(bs) && OldTree(m, f0, d, lo) && BadSub(m, k, d) && k in BuilderShapes(bs)
    requires forall j :: j in BuilderShapes(bs) ==> j in m.subs && BuilderShapes(bs)[j] == NodeShape(m).subs[j]
    requires lo <= n.ca.cert.id && lo <= w.next && SameOn(RemoveAll(f0, d), w.files, NodeShape(m).subs[k])
    requires SignSubCAs(n, bs, w).Ok?
    ensures var n' := SignSubCAs(n, bs, w).node;
            n'.ca == n.ca && k in n'.subs && !(IssuedBy(n'.subs[k].ca.cert, n'.ca) && Chained(n'.subs[k]))
    decreases bs, 0
  {
    hide LaidOut, Sound, Chained, Under, BuilderShape, WellNamed, SignSubCA, RemoveAll, SameOn;
    var j := bs[0].name;
    assert j in BuilderShapes(bs);
    SubCAKeepsName(n, bs[0], w);
    SubCAUntouched(n, bs[0], w);
    var Ok(n1, w1) := SignSubCA(n, bs[0], w);
    if j == k {
      BreaksHere(n, bs[0], m, w, f0, d, lo);
      SubCAsKeepName(n1, bs[1..], w1);
    } else {
      NodeSubShape(m, k);
      SiblingSame(NodeShape(m), j, k, w.files, w1.files);
      assert SameOn(RemoveAll(f0, d), w1.files, NodeShape(m).subs[k]) by {
        SameOnTwice(RemoveAll(f0, d), w.files, w1.files, NodeShape(m).subs[k]);
      }
      BreaksInLoop(n1, bs[1..], m, w1, f0, d, lo, k);
    }
  }

  /** The misplaced sub-CA itself: either its old CA is found and reused under a new parent, or the break lies
      deeper. */
  lemma {:induction false} BreaksHere(n: Node, b: Builder, m: Node, w: World, f0: map<Path, File>, d: Path, lo: nat)
    requires WellNamed(b) && OldTree(m, f0, d, lo) && BadSub(m, b.name, d)
    requires BuilderShape(b) == NodeShape(m).subs[b.name]
    requires lo <= n.ca.cert.id && lo <= w.next && SameOn(RemoveAll(f0, d), w.files, NodeShape(m).subs[b.name])
    requires SignSubCA(n, b, w).Ok?
    ensures var n' := SignSubCA(n, b, w).node;
            b.name in n'.subs && !(IssuedBy(n'.subs[b.name].ca.cert, n.ca) && Chained(n'.subs[b.name]))
    decreases b, 2
  {
    hide Under, Chained, Complete, LaidOut;
    var c := m.subs[b.name];
    SubLaidOut(NodeShape(m), b.name);
    NodeSubShape(m, b.name);
    SameCA(RemoveAll(f0, d), w.files, NodeShape(c));
    var (ca, w1) := EnsureSubCA(n.ca, b.name, b.dir, b.days, w);
    EnsuredBelow(n.ca, BuilderShape(b), w);
    CompleteKeepsName(b, ca, w1);
    if !(d <= c.dir) {
      KeptSubCA(m, b.name, f0, d, lo);
    } else {
      RemovedSubCA(f0, d, c.dir);
      assert SoundSub(m, b.name, f0, lo);
      assert OldTree(c, f0, d, lo);
      assert SameBelow(RemoveAll(f0, d), w1.files, NodeShape(c));
      BreaksBelow(b, ca, c, w1, f0, d, lo);
    }
  }

  /** Renewing a sub-CA of a sound signer leaves the renewed subtree chained exactly when all of its descendants'
      directories lie under its own directory. */
  lemma RenewalKeepsChainIff(n: Node, k: string, b: Builder, w: World)
    requires LaidOut(NodeShape(n)) && Sound(n, w.files, w.next) && n.ca.cert.id < w.next
    requires AllReadable(w.files, Bundles(NodeShape(n)))
    requires k in n.subs && Rebuilds(b, n.subs[k]) && RenewSubCA(n, k, b, w).Ok?
    ensures k in RenewSubCA(n, k, b, w).node.subs
    ensures Chained(RenewSubCA(n, k, b, w).node.subs[k]) <==> Under(NodeShape(n.subs[k]), n.subs[k].dir)
  {
    if Under(NodeShape(n.subs[k]), n.subs[k].dir) {
      ChainKept(n, k, b, w);
    } else {
      ChainBroken(n, k, b, w);
    }
  }

  lemma ChainKept(n: Node, k: string, b: Builder, w: World)
    requires LaidOut(NodeShape(n)) && Sound(n, w.files, w.next) && AllReadable(w.files, Bundles(NodeShape(n)))
    requires k in n.subs && Rebuilds(b, n.subs[k]) && Under(NodeShape(n.subs[k]), n.subs[k].dir)
    ensures RenewSubCA(n, k, b, w).Ok? && k in RenewSubCA(n, k, b, w).node.subs
    ensures Chained(RenewSubCA(n, k, b, w).node.subs[k])
  {
    hide LaidOut, Bundles, WellNamed, Chained, Under, Fresh, Untouched, Rebuilds, RenewSubCA;
    var ks, ls := n.subs.Keys - {k}, n.leaves.Keys;
    assert PartlySound(n, w.files, w.next, ks, ls);
    var n', w' := RenewSubCASound(n, k, b, w, ks, ls);
    assert SoundSub(n', k, w'.files, w'.next);
    SoundChained(n'.subs[k], w'.files, w'.next);
  }

  lemma ChainBroken(n: Node, k: string, b: Builder, w: World)
    requires LaidOut(NodeShape(n)) && Sound(n, w.files, w.next) && n.ca.cert.id < w.next
    requires k in n.subs && Rebuilds(b, n.subs[k]) && !Under(NodeShape(n.subs[k]), n.subs[k].dir)
    requires RenewSubCA(n, k, b, w).Ok?
    ensures k in RenewSubCA(n, k, b, w).node.subs
    ensures !Chained(RenewSubCA(n, k, b, w).node.subs[k])
  {
    hide LaidOut, Bundles, WellNamed, Chained, Under, Sound;
    var c := n.subs[k];
    NodeSubShape(n, k);
    SubLaidOut(NodeShape(n), k);
    var w0 := w.(files := RemoveAll(w.files, c.dir));
    var (ca, w1) := EnsureSubCA(n.ca, b.name, b.dir, b.days, w0);
    EnsuredBelow(n.ca, BuilderShape(b), w0);
    CompleteKeepsName(b, ca, w1);
    RemovedSubCA(w.files, c.dir, c.dir);
    assert OldTree(c, w.files, c.dir, w.next) by {
      SoundSubTree(n, k, w);
    }
    assert SameBelow(RemoveAll(w.files, c.dir), w1.files, NodeShape(c));
    BreaksBelow(b, ca, c, w1, w.files, c.dir, w.next);
  }

  lemma SoundSubTree(n: Node, k: string, w: World)
    requires Sound(n, w.files, w.next) && k in n.subs
    ensures Sound(n.subs[k], w.files, w.next) && n.subs[k].ca.cert.id < w.next
  {
  }

  /* ---- a tree that breaks ---- */

  const INNER := Builder("inner", ["y"], 365, None, [], [], [])
  const OUTER := Builder("outer", ["x"], 365, None, [INNER], [], [])
  const TOP := Builder("top", ["top"], 365, None, [OUTER], [], [])

  lemma InnerShape()
    ensures var s := BuilderShape(INNER);
              LaidOut(s) && s == Shape("inner", ["y"], 365, map[], map[], {}) && WellNamed(INNER)
    ensures forall p :: Within(BuilderShape(INNER), p) <==> ["y"] <= p
    ensures forall f :: Recorded(BuilderShape(INNER), f) == BuilderShape(INNER)
  {
    assert (set p | p in INNER.bundlePaths) == {};
  }

  lemma OneSub(outer: Builder, inner: Builder)
    requires outer.subs == [inner] && outer.csrs == [] && outer.bundlePaths == [] && WellNamed(inner)
    ensures BuilderShape(outer) ==
              Shape(outer.name, outer.dir, outer.days, map[inner.name := BuilderShape(inner)], map[], {})
    ensures WellNamed(outer)
  {
    hide BuilderShape, WellNamed;
    assert [inner][1..] == [];
    assert BuilderShapes([]) == map[] && BuilderShapes([inner]) == map[inner.name := BuilderShape(inner)];
    BuilderParts(outer);
    assert (set p | p in outer.bundlePaths) == {};
  }

  lemma BuilderParts(b: Builder)
    ensures BuilderShape(b) == Shape(b.name, b.dir, b.days, BuilderShapes(b.subs), CsrsByName(b.csrs),
                                     set p | p in b.bundlePaths)
    ensures WellNamed(b) <==> AllWellNamed(b.subs) && DistinctCsrs(b.csrs)
  {
  }

  /** A signer over one sub-CA in a directory of its own. */
  lemma OneSubLaidOut(s: Shape, c: Shape, d: string)
    requires s.subs == map[c.name := c] && s.csrs == map[] && s.bundles == {} && Bundles(c) == {} && LaidOut(c)
    requires s.dir == [d] && forall p :: Within(c, p) ==> p != [] && p[0] != d
    ensures LaidOut(s) && Bundles(s) == {}
    ensures forall p :: Within(s, p) <==> [d] <= p || Within(c, p)
  {
    assert forall p :: OwnPath(s, p) ==> [d] <= p;
    forall p ensures Within(s, p) <==> [d] <= p || Within(c, p) {
      if Within(c, p) {
        assert Within(s.subs[c.name], p);
      }
    }
  }

  lemma TopShape()
    ensures var s := BuilderShape(TOP);
            && WellNamed(TOP) && WellNamed(OUTER) && LaidOut(s) && Bundles(s) == {}
            && s.subs == map["outer" := BuilderShape(OUTER)]
            && !Under(BuilderShape(OUTER), ["x"]) && NothingFound(s, map[]) && forall f :: Recorded(s, f) == s
  {
    hide LaidOut, WellNamed;
    InnerShape();
    OneSub(OUTER, INNER);
    OneSub(TOP, OUTER);
    var inner, outer, s := BuilderShape(INNER), BuilderShape(OUTER), BuilderShape(TOP);
    OneSubLaidOut(outer, inner, "x");
    OneSubLaidOut(s, outer, "top");
    assert ["x"][0] != inner.dir[0];
    assert outer.subs["inner"] == inner && !(["x"] <= inner.dir);
    forall f ensures Recorded(s, f) == s {
      OneSubRecorded(outer, inner, f);
      OneSubRecorded(s, outer, f);
    }
    OneSubNotFound(outer, inner);
    OneSubNotFound(s, outer);
  }

  lemma OneSubRecorded(s: Shape, c: Shape, f: map<Path, File>)
    requires s.subs == map[c.name := c] && s.csrs == map[] && Recorded(c, f) == c
    ensures Recorded(s, f) == s
  {
    assert Recorded(s, f).subs == s.subs && Recorded(s, f).csrs == s.csrs;
  }

  lemma OneSubNotFound(s: Shape, c: Shape)
    requires s.subs == map[c.name := c] && s.csrs == map[] && NothingFound(c, map[])
    ensures NothingFound(s, map[])
  {
  }

  lemma OneSubCompletes(b: Builder, ca: Tls, w: World)
    requires b == OUTER
    ensures Complete(b, ca, w).Ok?
  {
    var (inner, w1) := EnsureSubCA(ca, INNER.name, INNER.dir, INNER.days, w);
    assert Complete(INNER, inner, w1).Ok?;
    var o := SignSubCA(Empty(b, ca), INNER, w);
    assert [INNER][1..] == [] && SignSubCAs(o.node, [], o.w) == o;
    assert SignSubCAs(Empty(b, ca), [INNER], w) == o;
  }

  /** The premises of RenewalKeepsChainIff hold of a signer just completed on an empty disk whose sub-CA keeps a sub-
      CA of its own in a directory elsewhere; renewing the sub-CA leaves the inner one signed by the key that is
      gone. */
  lemma ChainCanBreak() returns (n: Node, b: Builder, w: World)
    ensures LaidOut(NodeShape(n)) && Sound(n, w.files, w.next) && n.ca.cert.id < w.next
    ensures AllReadable(w.files, Bundles(NodeShape(n)))
    ensures "outer" in n.subs && Rebuilds(b, n.subs["outer"]) && RenewSubCA(n, "outer", b, w).Ok?
    ensures "outer" in RenewSubCA(n, "outer", b, w).node.subs
    ensures !Chained(RenewSubCA(n, "outer", b, w).node.subs["outer"])
  {
    hide LaidOut, WellNamed, BuilderShape, Recorded, Sound, Under, Chained;
    TopShape();
    var ca, w0 := Tls(Cert(0, 0, CN("top"), CN("top"), {}, 0, 0), []), World(map[], 1, 0);
    NothingIsConsistent(BuilderShape(TOP), ca, w0.files, w0.next);
    n, w := CompleteSound(TOP, ca, w0);
    b := OUTER;
    TopSubs(n);
    NodeSubShape(n, "outer");
    var w1 := w.(files := RemoveAll(w.files, n.subs["outer"].dir));
    var (sub, w2) := EnsureSubCA(n.ca, b.name, b.dir, b.days, w1);
    OneSubCompletes(b, sub, w2);
    DirOf(n.subs["outer"]);
    OuterDir();
    RenewalKeepsChainIff(n, "outer", b, w);
  }

  lemma TopSubs(n: Node)
    ensures NodeShape(n).subs.Keys == n.subs.Keys
  {
  }

  lemma OuterDir()
    ensures BuilderShape(OUTER).dir == ["x"]
  {
  }
}
