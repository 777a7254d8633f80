/** Renewal of one sub-CA, one certificate, or a whole signer: what is replaced, what is kept, what still chains. */
module Renewal {
  import opened Base
  import opened Pki
  import opened Tree
  import opened Layout
  import opened Completion

  /* ---- removing a directory ---- */

  lemma {:induction false} RemovedNothing(sh: Shape, files: map<Path, File>, d: Path)
    requires d <= sh.dir && Under(sh, d)
    ensures GetSubCA(RemoveAll(files, d), sh.dir) == None
    ensures NothingFound(sh, RemoveAll(files, d))
  {
    assert sh.dir <= CASerialsPath(sh.dir);
    forall k | k in sh.csrs ensures GetLeaf(RemoveAll(files, d), sh.dir, sh.csrs[k]) == None {
      LeafPathsInDir(sh.dir, sh.csrs[k]);
      assert d <= LeafCertPath(sh.dir, sh.csrs[k]);
    }
    forall k | k in sh.subs
      ensures GetSubCA(RemoveAll(files, d), sh.subs[k].dir) == None && NothingFound(sh.subs[k], RemoveAll(files, d))
    {
      RemovedNothing(sh.subs[k], files, d);
    }
  }

  /** A tree whose every level is nested lies under its own directory. */
  lemma {:induction false} NestedUnder(sh: Shape, d: Path)
    requires Nested(sh) && d <= sh.dir
    ensures Under(sh, d)
  {
    forall k | k in sh.subs ensures d <= sh.subs[k].dir && Under(sh.subs[k], d) {
      NestedUnder(sh.subs[k], d);
    }
  }

  lemma RemovedUntouched(files: map<Path, File>, sh: Shape)
    ensures Untouched(files, RemoveAll(files, sh.dir), sh)
  {
  }

  lemma UntouchedTwice(f: map<Path, File>, g: map<Path, File>, h: map<Path, File>, sh: Shape)
    requires Untouched(f, g, sh) && Untouched(g, h, sh)
    ensures Untouched(f, h, sh)
  {
  }

  /* ---- one sub-CA ---- */

  lemma SelfFits(n: Node, ks: set<string>, ls: set<string>)
    requires ks <= n.subs.Keys && ls <= n.leaves.Keys
    ensures Fits(n, NodeShape(n), ks, ls)
  {
  }

  /** Replacing a sub-CA by one of the same shape keeps the shape. */
  lemma ShapeKeptBySub(n: Node, k: string, c: Node)
    requires k in n.subs && NodeShape(c) == NodeShape(n.subs[k])
    ensures NodeShape(n.(subs := n.subs[k := c])) == NodeShape(n)
  {
  }

  lemma ShapeKeptByCert(n: Node, k: string, l: Leaf)
    requires k in n.leaves && l.csr == n.leaves[k].csr
    ensures NodeShape(n.(leaves := n.leaves[k := l])) == NodeShape(n)
  {
  }

  ghost predicate SubRenewed(n: Node, n': Node, k: string, w: World, w': World, ks: set<string>, ls: set<string>)
    requires k in n.subs
  {
    && k in n'.subs && n' == n.(subs := n.subs[k := n'.subs[k]])
    && NodeShape(n') == NodeShape(n)
    && NodeShape(n'.subs[k]) == NodeShape(n.subs[k])
    && PartlySound(n', w'.files, w'.next, ks + {k}, ls)
    && Untouched(w.files, w'.files, NodeShape(n.subs[k]))
    && AllReadable(w'.files, Bundles(NodeShape(n)))
    && Later(w, w')
    && Fresh(n'.subs[k], w.next, w.now)
  }

  /** regenerateSubCA: the subtree comes back with the same shape, entirely fresh, chained to the signer, nothing
      else touched. */
  lemma RenewSubCASound(n: Node, k: string, b: Builder, w: World, ks: set<string>, ls: set<string>)
    returns (n': Node, w': World)
    requires LaidOut(NodeShape(n)) && AllReadable(w.files, Bundles(NodeShape(n)))
    requires k in n.subs && k !in ks && Rebuilds(b, n.subs[k]) && Under(NodeShape(n.subs[k]), n.subs[k].dir)
    requires PartlySound(n, w.files, w.next, ks, ls)
    ensures RenewSubCA(n, k, b, w) == Ok(n', w')
    ensures SubRenewed(n, n', k, w, w', ks, ls)
  {
    hide LaidOut, Bundles, Untouched, NothingFound, WellNamed, Fresh;
    var sh := NodeShape(n);
    var c := NodeShape(n.subs[k]);
    assert sh.subs[k] == c;
    var w1 := w.(files := RemoveAll(w.files, c.dir));
    RemovedNothing(c, w.files, c.dir);
    RemovedUntouched(w.files, c);
    SubLaidOut(sh, k);
    SelfFits(n, ks, ls);
    PartlySoundFrame(n, sh, k, w.files, w1.files, w.next, w1.next, ks, ls);
    RemovedReadable(w.files, c.dir, Bundles(sh));
    SubWithin(sh, k);
    n', w' := SignSubCASound(n, b, sh, w1, ks, ls);
    RecordedNothing(c, w1.files);
    ShapeKeptBySub(n, k, n'.subs[k]);
    UntouchedTwice(w.files, w1.files, w'.files, c);
    ReadableAfterSub(sh, k, w1.files, w'.files);
  }

  lemma RemovedReadable(files: map<Path, File>, d: Path, ps: set<Path>)
    requires AllReadable(files, ps)
    ensures AllReadable(RemoveAll(files, d), ps)
  {
  }

  /* ---- one certificate ---- */

  ghost predicate CertRenewed(n: Node, n': Node, k: string, w: World, w': World, ks: set<string>, ls: set<string>)
    requires k in n.leaves
  {
    && k in n'.leaves && n' == n.(leaves := n.leaves[k := n'.leaves[k]])
    && NodeShape(n') == NodeShape(n)
    && PartlySound(n', w'.files, w'.next, ks, ls + {k})
    && OnlyLeaf(w.files, w'.files, n.dir, k)
    && AllReadable(w'.files, Bundles(NodeShape(n)))
    && Later(w, w')
    && n'.leaves[k].csr == n.leaves[k].csr
    && FreshCert(n'.leaves[k], w.next, w.now)
  }

  lemma RenewCertificateSound(n: Node, k: string, w: World, ks: set<string>, ls: set<string>)
    returns (n': Node, w': World)
    requires LaidOut(NodeShape(n)) && AllReadable(w.files, Bundles(NodeShape(n)))
    requires k in n.leaves && k !in ls && PartlySound(n, w.files, w.next, ks, ls)
    ensures RenewCertificate(n, k, w) == Ok(n', w')
    ensures CertRenewed(n, n', k, w, w', ks, ls)
  {
    var sh := NodeShape(n);
    var csr := n.leaves[k].csr;
    assert sh.csrs[k] == csr;
    var w1 := w.(files := RemoveAll(w.files, LeafDir(n.dir, k)));
    assert OnlyLeaf(w.files, w1.files, n.dir, k);
    SelfFits(n, ks, ls);
    PartlySoundLeafFrame(n, sh, k, w.files, w1.files, w.next, w1.next, ks, ls);
    LeafPathsInDir(n.dir, csr);
    assert GetLeaf(w1.files, n.dir, csr) == None;
    SignCertificateSound(n, csr, sh, w1, ks, ls);
    n', w' := SignCertificate(n, csr, w1).0, SignCertificate(n, csr, w1).1;
    ShapeKeptByCert(n, k, n'.leaves[k]);
    OnlyLeafTwice(w.files, w1.files, w'.files, n.dir, k);
    LeafReadable(sh, k, w.files, w'.files);
  }

  lemma OnlyLeafTwice(f: map<Path, File>, g: map<Path, File>, h: map<Path, File>, dir: Path, k: string)
    requires OnlyLeaf(f, g, dir, k) && OnlyLeaf(g, h, dir, k)
    ensures OnlyLeaf(f, h, dir, k)
  {
    forall p | !(LeafDir(dir, k) <= p) ensures SameAt(f, h, p) {
      assert SameAt(f, g, p) && SameAt(g, h, p);
    }
  }

  lemma LeafReadable(sh: Shape, k: string, f: map<Path, File>, g: map<Path, File>)
    requires LaidOut(sh) && k in sh.csrs && OnlyLeaf(f, g, sh.dir, k) && AllReadable(f, Bundles(sh))
    ensures AllReadable(g, Bundles(sh))
  {
    forall p | p in Bundles(sh) ensures Readable(g, p) {
      assert sh.dir <= LeafDir(sh.dir, k);
      assert !Within(sh, p);
      assert SameAt(f, g, p);
    }
  }

  /* ---- the signer itself ---- */

  /** A root: a single self-signed certificate, on disk in the signer's own directory. */
  ghost predicate RootOnDisk(n: Node, files: map<Path, File>, next: nat) {
    && n.ca.chain == [] && IssuedBy(n.ca.cert, n.ca) && n.ca.cert.id < next
    && GetCA(files, CACertPath(n.dir), CAKeyPath(n.dir), CASerialsPath(n.dir)) == Some(n.ca)
  }

  lemma RootOnDiskFrame(n: Node, f: map<Path, File>, g: map<Path, File>, next: nat, next': nat)
    requires RootOnDisk(n, f, next) && next <= next' && forall p :: CaFile(n.dir, p) ==> SameAt(f, g, p)
    ensures RootOnDisk(n, g, next')
  {
    assert SameAt(f, g, CACertPath(n.dir)) && SameAt(f, g, CAKeyPath(n.dir)) && SameAt(f, g, CASerialsPath(n.dir));
  }

  lemma RenewSelfSound(n: Node, order: seq<Path>, w: World) returns (n1: Node, w1: World)
    requires LaidOut(NodeShape(n)) && AllReadable(w.files, Bundles(NodeShape(n))) && Enumerates(order, n.bundles)
    ensures RenewSelf(n, order, w) == Ok(n1, w1)
    ensures n1 == n.(ca := n1.ca) && NodeShape(n1) == NodeShape(n)
    ensures RootOnDisk(n1, w1.files, w1.next)
    ensures Renewed(n1.ca.cert, w.next, w.now, CADays(n.days)) && n1.ca.cert.subject == CN(n.name)
    ensures Untouched(w.files, w1.files, NodeShape(n)) && AllReadable(w1.files, Bundles(NodeShape(n))) && Later(w, w1)
  {
    var sh := NodeShape(n);
    var w0 := w.(files := RemoveAll(w.files, n.dir));
    var (ca, w') := EnsureCA(OwnCAInfo(n), w0);
    assert n.dir <= CASerialsPath(n.dir);
    assert GetCA(w0.files, CACertPath(n.dir), CAKeyPath(n.dir), CASerialsPath(n.dir)) == None;
    CaPathsDiffer(n.dir);
    assert GetCA(w'.files, CACertPath(n.dir), CAKeyPath(n.dir), CASerialsPath(n.dir)) == Some(ca);
    assert forall p :: !CaFile(n.dir, p) ==> SameAt(w0.files, w'.files, p);
    OwnBundlesReadable(sh, w.files, w0.files, w'.files);
    n1, w1 := AddToBundlesSound(n.(ca := ca), order, w');
    assert n1 == n.(ca := ca) by {
      assert (set p | p in order) == n.bundles;
    }
    SelfRenewedFrame(n, ca, order, w, w0, w', w1);
    RootOnDiskFrame(n1, w'.files, w1.files, w'.next, w1.next);
  }

  lemma OwnBundlesReadable(sh: Shape, f: map<Path, File>, g: map<Path, File>, h: map<Path, File>)
    requires LaidOut(sh) && AllReadable(f, Bundles(sh)) && g == RemoveAll(f, sh.dir)
    requires forall p :: !CaFile(sh.dir, p) ==> SameAt(g, h, p)
    ensures AllReadable(h, Bundles(sh))
  {
    forall p | p in Bundles(sh) ensures Readable(h, p) {
      assert !Within(sh, p);
      if CaFile(sh.dir, p) {
        CaFilesWithin(sh, p);
      }
      assert SameAt(g, h, p);
    }
  }

  lemma SelfRenewedFrame(n: Node, ca: Tls, order: seq<Path>, w: World, w0: World, w': World, w1: World)
    requires LaidOut(NodeShape(n)) && Enumerates(order, n.bundles) && w0.files == RemoveAll(w.files, n.dir)
    requires AllReadable(w'.files, Bundles(NodeShape(n)))
    requires forall p :: !CaFile(n.dir, p) ==> SameAt(w0.files, w'.files, p)
    requires forall p :: p !in order ==> SameAt(w'.files, w1.files, p)
    requires forall p :: p in order ==> Readable(w1.files, p)
    ensures Untouched(w.files, w1.files, NodeShape(n)) && AllReadable(w1.files, Bundles(NodeShape(n)))
    ensures forall p :: CaFile(n.dir, p) ==> SameAt(w'.files, w1.files, p)
    ensures NodeShape(n.(ca := ca)) == NodeShape(n)
  {
    var sh := NodeShape(n);
    forall p | !Within(sh, p) && p !in Bundles(sh) ensures SameAt(w.files, w1.files, p) {
      if CaFile(n.dir, p) {
        CaFilesWithin(sh, p);
      }
      assert SameAt(w0.files, w'.files, p) && SameAt(w'.files, w1.files, p);
    }
    forall p | p in Bundles(sh) ensures Readable(w1.files, p) {
      assert p !in order ==> SameAt(w'.files, w1.files, p);
    }
    forall p | CaFile(n.dir, p) ensures SameAt(w'.files, w1.files, p) {
      CaFilesWithin(sh, p);
    }
    assert NodeShape(n.(ca := ca)).subs == sh.subs && NodeShape(n.(ca := ca)).csrs == sh.csrs;
  }

  /* ---- all sub-CAs, all certificates ---- */

  /** `bs[i]` rebuilds the sub-CA `ks[i]`, whose descendants all live under its directory. */
  ghost predicate Rebuilders(n: Node, ks: seq<string>, bs: seq<Builder>) {
    && |ks| == |bs| && Distinct(ks)
    && (forall i :: 0 <= i < |ks| ==> Rebuilder(n, ks[i], bs[i]))
  }

  ghost predicate Rebuilder(n: Node, k: string, b: Builder) {
    k in n.subs && Rebuilds(b, n.subs[k]) && Under(NodeShape(n.subs[k]), n.subs[k].dir)
  }

  ghost predicate SubsRenewed(n: Node, n': Node, ks: set<string>, w: World, w': World) {
    && n' == n.(subs := n'.subs) && n'.subs.Keys == n.subs.Keys && NodeShape(n') == NodeShape(n)
    && OnlySubs(w.files, w'.files, NodeShape(n)) && AllReadable(w'.files, Bundles(NodeShape(n))) && Later(w, w')
    && (forall k :: k in ks ==> k in n.subs && Fresh(n'.subs[k], w.next, w.now))
    && (forall k :: k in n.subs && k !in ks ==> n'.subs[k] == n.subs[k])
  }

  ghost function Elements(ks: seq<string>): set<string> { set k | k in ks }

  lemma ElementsStep(ks: seq<string>)
    requires ks != [] && Distinct(ks)
    ensures Elements(ks) == {ks[0]} + Elements(ks[1..]) && ks[0] !in Elements(ks[1..]) && Distinct(ks[1..])
  {
  }

  lemma {:induction false} RenewSubCAsSound(n: Node, ks: seq<string>, bs: seq<Builder>, w: World, done: set<string>)
    returns (n': Node, w': World)
    requires LaidOut(NodeShape(n)) && AllReadable(w.files, Bundles(NodeShape(n))) && Rebuilders(n, ks, bs)
    requires done !! Elements(ks) && PartlySound(n, w.files, w.next, done, {})
    ensures RenewSubCAs(n, ks, bs, w) == Ok(n', w')
    ensures SubsRenewed(n, n', Elements(ks), w, w') && PartlySound(n', w'.files, w'.next, done + Elements(ks), {})
    decreases |ks|
  {
    if ks == [] {
      n', w' := n, w;
      assert Elements(ks) == {};
    } else {
      hide LaidOut, Bundles, Untouched, Fresh, Rebuilds, Under, OnlySubs, PartlySound, NodeShape;
      ElementsStep(ks);
      assert Rebuilder(n, ks[0], bs[0]);
      var n1, w1 := RenewSubCASound(n, ks[0], bs[0], w, done, {});
      RebuildersStep(n, n1, ks, bs);
      n', w' := RenewSubCAsSound(n1, ks[1..], bs[1..], w1, done + {ks[0]});
      SubsRenewedStep(n, n1, n', ks[0], Elements(ks[1..]), w, w1, w', done);
      assert done + {ks[0]} + Elements(ks[1..]) == done + Elements(ks);
    }
  }

  lemma RebuildersStep(n: Node, n1: Node, ks: seq<string>, bs: seq<Builder>)
    requires ks != [] && Rebuilders(n, ks, bs) && ks[0] in n1.subs && n1 == n.(subs := n.subs[ks[0] := n1.subs[ks[0]]])
    ensures Rebuilders(n1, ks[1..], bs[1..])
  {
  }

  lemma SubsRenewedStep(n: Node, n1: Node, n2: Node, k: string, ks: set<string>, w: World, w1: World, w2: World,
                        done: set<string>)
    requires k in n.subs && k !in ks && SubRenewed(n, n1, k, w, w1, done, {}) && SubsRenewed(n1, n2, ks, w1, w2)
    ensures SubsRenewed(n, n2, {k} + ks, w, w2)
  {
    hide LaidOut, Bundles, Within, PartlySound, NodeShape, FreshBelow;
    assert OnlySubs(w.files, w2.files, NodeShape(n)) by {
      NodeSubShape(n, k);
      OnlySubsStep(NodeShape(n), k, w.files, w1.files, w2.files);
    }
    forall j | j in {k} + ks ensures j in n.subs && Fresh(n2.subs[j], w.next, w.now) {
      if j != k {
        FreshFrom(n2.subs[j], w1.next, w.next, w.now);
      }
    }
  }

  lemma NodeSubShape(n: Node, k: string)
    requires k in n.subs
    ensures k in NodeShape(n).subs && NodeShape(n).subs[k] == NodeShape(n.subs[k])
  {
  }

  ghost predicate CertsRenewed(n: Node, n': Node, ks: set<string>, w: World, w': World) {
    && n' == n.(leaves := n'.leaves) && n'.leaves.Keys == n.leaves.Keys && NodeShape(n') == NodeShape(n)
    && OnlyCerts(w.files, w'.files, NodeShape(n)) && AllReadable(w'.files, Bundles(NodeShape(n))) && Later(w, w')
    && (forall k :: k in ks ==>
          k in n.leaves && n'.leaves[k].csr == n.leaves[k].csr && FreshCert(n'.leaves[k], w.next, w.now))
    && (forall k :: k in n.leaves && k !in ks ==> n'.leaves[k] == n.leaves[k])
  }

  lemma {:induction false} RenewCertificatesSound(n: Node, ks: seq<string>, w: World, subs: set<string>,
                                                  done: set<string>)
    returns (n': Node, w': World)
    requires LaidOut(NodeShape(n)) && AllReadable(w.files, Bundles(NodeShape(n)))
    requires Distinct(ks) && Elements(ks) <= n.leaves.Keys
    requires done !! Elements(ks) && PartlySound(n, w.files, w.next, subs, done)
    ensures RenewCertificates(n, ks, w) == Ok(n', w')
    ensures CertsRenewed(n, n', Elements(ks), w, w') && PartlySound(n', w'.files, w'.next, subs, done + Elements(ks))
    decreases |ks|
  {
    if ks == [] {
      n', w' := n, w;
      assert Elements(ks) == {};
    } else {
      hide LaidOut, Bundles, Untouched, OnlyCerts, PartlySound, NodeShape;
      ElementsStep(ks);
      var n1, w1 := RenewCertificateSound(n, ks[0], w, subs, done);
      n', w' := RenewCertificatesSound(n1, ks[1..], w1, subs, done + {ks[0]});
      CertsRenewedStep(n, n1, n', ks[0], Elements(ks[1..]), w, w1, w', subs, done);
      assert done + {ks[0]} + Elements(ks[1..]) == done + Elements(ks);
    }
  }

  lemma CertsRenewedStep(n: Node, n1: Node, n2: Node, k: string, ks: set<string>, w: World, w1: World, w2: World,
                         subs: set<string>, done: set<string>)
    requires k in n.leaves && k !in ks && CertRenewed(n, n1, k, w, w1, subs, done) && CertsRenewed(n1, n2, ks, w1, w2)
    ensures CertsRenewed(n, n2, {k} + ks, w, w2)
  {
    hide PartlySound, Bundles;
    assert k in NodeShape(n).csrs;
    forall p | forall j :: j in NodeShape(n).csrs ==> !(LeafDir(n.dir, j) <= p) ensures SameAt(w.files, w2.files, p) {
      assert SameAt(w.files, w1.files, p) && SameAt(w1.files, w2.files, p);
    }
  }

  /* ---- a whole root ---- */

  /** The root renewed together with everything recorded below it. */
  ghost predicate RootFresh(n: Node, lo: nat, now: int) {
    Renewed(n.ca.cert, lo, now, CADays(n.days)) && FreshBelow(n, lo, now)
  }

  /** What a signer and its part of the disk satisfy between calls. */
  ghost predicate Healthy(n: Node, w: World) {
    && LaidOut(NodeShape(n)) && (forall k :: k in n.subs ==> Nested(NodeShape(n.subs[k])))
    && Sound(n, w.files, w.next) && AllReadable(w.files, Bundles(NodeShape(n)))
  }

  ghost predicate AllRenewed(n: Node, n': Node, w: World, w': World) {
    && NodeShape(n') == NodeShape(n) && Sound(n', w'.files, w'.next) && RootOnDisk(n', w'.files, w'.next)
    && RootFresh(n', w.next, w.now)
    && Untouched(w.files, w'.files, NodeShape(n)) && AllReadable(w'.files, Bundles(NodeShape(n))) && Later(w, w')
    && n'.ca.cert.subject == CN(n.name)
  }

  /** The three phases of a whole renewal: the signer itself, its sub-CAs, its certificates. */
  ghost predicate SelfPhase(n: Node, ch: Choices, w: World, n1: Node, w1: World) {
    && RenewSelf(n, ch.bundleOrder, w) == Ok(n1, w1)
    && n1 == n.(ca := n1.ca) && NodeShape(n1) == NodeShape(n) && RootOnDisk(n1, w1.files, w1.next)
    && Renewed(n1.ca.cert, w.next, w.now, CADays(n.days)) && n1.ca.cert.subject == CN(n.name)
    && Untouched(w.files, w1.files, NodeShape(n)) && AllReadable(w1.files, Bundles(NodeShape(n))) && Later(w, w1)
    && PartlySound(n1, w1.files, w1.next, {}, {})
    && Rebuilders(n1, Sorted(n.subs.Keys), ch.builders) && Elements(Sorted(n.subs.Keys)) == n.subs.Keys
  }

  ghost predicate SubsPhase(n: Node, ch: Choices, n1: Node, w1: World, n2: Node, w2: World)
    requires |ch.builders| == |n.subs.Keys|
  {
    RenewSubCAs(n1, Sorted(n.subs.Keys), ch.builders, w1) == Ok(n2, w2) && SubsRenewed(n1, n2, n1.subs.Keys, w1, w2)
  }

  ghost predicate CertsPhase(n2: Node, w2: World, n': Node, w': World) {
    && RenewCertificates(n2, Sorted(n2.leaves.Keys), w2) == Ok(n', w')
    && CertsRenewed(n2, n', n2.leaves.Keys, w2, w') && PartlySound(n', w'.files, w'.next, n2.subs.Keys, n2.leaves.Keys)
  }

  lemma StartSelfPhase(n: Node, ch: Choices, w: World) returns (n1: Node, w1: World)
    requires LaidOut(NodeShape(n)) && AllReadable(w.files, Bundles(NodeShape(n)))
    requires forall k :: k in n.subs ==> Nested(NodeShape(n.subs[k]))
    requires Possible(n, [], ch)
    ensures SelfPhase(n, ch, w, n1, w1)
  {
    hide LaidOut, Bundles, Untouched, NodeShape, Rebuilders, Distinct, Elements, RenewSelf, PartlySound, RootOnDisk;
    hide Renewed, AllReadable;
    n1, w1 := RenewSelfSound(n, ch.bundleOrder, w);
    ChoicesRebuild(n, n1, ch);
    NothingPartlySound(n1, w1);
    SortedNames(n.subs.Keys);
  }

  lemma RenewAllPhases(n: Node, ch: Choices, w: World)
    returns (n1: Node, w1: World, n2: Node, w2: World, n': Node, w': World)
    requires LaidOut(NodeShape(n)) && AllReadable(w.files, Bundles(NodeShape(n)))
    requires forall k :: k in n.subs ==> Nested(NodeShape(n.subs[k]))
    requires n.ca.chain == [] && Possible(n, [], ch)
    ensures RenewAll(n, ch, w) == Ok(n', w')
    ensures SelfPhase(n, ch, w, n1, w1) && SubsPhase(n, ch, n1, w1, n2, w2) && CertsPhase(n2, w2, n', w')
  {
    hide LaidOut, Bundles, NodeShape, SubsRenewed, CertsRenewed, PartlySound, RootOnDisk, Renewed, AllReadable;
    hide Rebuilders;
    hide RenewSelf, RenewSubCAs, RenewCertificates, Nested;
    n1, w1 := StartSelfPhase(n, ch, w);
    n2, w2 := DoSubsPhase(n, ch, w, n1, w1);
    SubsPhaseKept(n1, n2, w1, w2);
    n', w' := DoCertsPhase(n2, w2);
  }

  lemma SubsPhaseKept(n1: Node, n2: Node, w1: World, w2: World)
    requires SubsRenewed(n1, n2, n1.subs.Keys, w1, w2)
    ensures NodeShape(n2) == NodeShape(n1) && AllReadable(w2.files, Bundles(NodeShape(n2)))
  {
  }

  lemma DoSubsPhase(n: Node, ch: Choices, w: World, n1: Node, w1: World) returns (n2: Node, w2: World)
    requires LaidOut(NodeShape(n)) && |ch.builders| == |n.subs.Keys| && SelfPhase(n, ch, w, n1, w1)
    ensures SubsPhase(n, ch, n1, w1, n2, w2) && PartlySound(n2, w2.files, w2.next, n2.subs.Keys, {})
  {
    hide LaidOut, Bundles, Untouched, NodeShape, OnlySubs, Rebuilders, Elements;
    hide RenewSelf, RenewSubCAs, PartlySound, RootOnDisk, Renewed, AllReadable, Fresh;
    n2, w2 := RenewSubCAsSound(n1, Sorted(n.subs.Keys), ch.builders, w1, {});
  }

  lemma DoCertsPhase(n2: Node, w2: World) returns (n': Node, w': World)
    requires LaidOut(NodeShape(n2)) && AllReadable(w2.files, Bundles(NodeShape(n2)))
    requires PartlySound(n2, w2.files, w2.next, n2.subs.Keys, {})
    ensures CertsPhase(n2, w2, n', w')
  {
    hide LaidOut, Bundles, NodeShape, OnlyCerts, Elements, RenewCertificates, PartlySound, AllReadable, FreshCert;
    SortedNames(n2.leaves.Keys);
    n', w' := RenewCertificatesSound(n2, Sorted(n2.leaves.Keys), w2, n2.subs.Keys, {});
  }

  lemma RenewAllSound(n: Node, ch: Choices, w: World) returns (n': Node, w': World)
    requires LaidOut(NodeShape(n)) && AllReadable(w.files, Bundles(NodeShape(n)))
    requires forall k :: k in n.subs ==> Nested(NodeShape(n.subs[k]))
    requires n.ca.chain == [] && Possible(n, [], ch)
    ensures RenewAll(n, ch, w) == Ok(n', w')
    ensures AllRenewed(n, n', w, w')
  {
    hide LaidOut, Bundles, NodeShape, SubsRenewed, CertsRenewed, AllRenewed, RenewAll, PartlySound, RootOnDisk;
    var n1, w1, n2, w2;
    n1, w1, n2, w2, n', w' := RenewAllPhases(n, ch, w);
    RootPhases(n, n1, n2, n', w, w1, w2, w');
  }

  lemma NothingPartlySound(n: Node, w: World)
    ensures PartlySound(n, w.files, w.next, {}, {})
  {
  }

  lemma ChoicesRebuild(n: Node, n1: Node, ch: Choices)
    requires Possible(n, [], ch) && n1 == n.(ca := n1.ca)
    requires forall k :: k in n.subs ==> Nested(NodeShape(n.subs[k]))
    ensures Rebuilders(n1, Sorted(n.subs.Keys), ch.builders)
  {
    hide Nested, Under, Rebuilds, NodeShape;
    var ks := Sorted(n.subs.Keys);
    SortedDistinct(n.subs.Keys);
    forall i | 0 <= i < |ks| ensures Rebuilder(n1, ks[i], ch.builders[i]) {
      assert Rebuilds(ch.builders[i], n.subs[ks[i]]);
      NestedNode(n.subs[ks[i]]);
    }
  }

  lemma SortedNames(s: set<string>)
    ensures Elements(Sorted(s)) == s && Distinct(Sorted(s))
  {
  }

  lemma NestedNode(c: Node)
    requires Nested(NodeShape(c))
    ensures Under(NodeShape(c), c.dir)
  {
    NestedUnder(NodeShape(c), c.dir);
  }

  lemma RootPhases(n: Node, n1: Node, n2: Node, n': Node, w: World, w1: World, w2: World, w': World)
    requires LaidOut(NodeShape(n)) && n1 == n.(ca := n1.ca) && NodeShape(n1) == NodeShape(n)
    requires RootOnDisk(n1, w1.files, w1.next) && Renewed(n1.ca.cert, w.next, w.now, CADays(n.days))
    requires Untouched(w.files, w1.files, NodeShape(n)) && Later(w, w1) && n1.ca.cert.subject == CN(n.name)
    requires SubsRenewed(n1, n2, n1.subs.Keys, w1, w2)
    requires CertsRenewed(n2, n', n2.leaves.Keys, w2, w')
    requires PartlySound(n', w'.files, w'.next, n2.subs.Keys, n2.leaves.Keys)
    ensures AllRenewed(n, n', w, w')
  {
    hide LaidOut, Bundles, NodeShape, OnlySubs, OnlyCerts, SoundSub, SoundCert, Within;
    PhasesUntouched(NodeShape(n), w1.files, w2.files, w'.files, w'.files);
    assert NodeShape(n).dir == n.dir by { DirOf(n); }
    UntouchedTwice(w.files, w1.files, w'.files, NodeShape(n));
    RootOnDiskFrame(n1, w1.files, w'.files, w1.next, w'.next);
    assert FreshBelow(n', w.next, w.now) by {
      forall k | k in n'.subs ensures Fresh(n'.subs[k], w.next, w.now) {
        FreshFrom(n'.subs[k], w1.next, w.next, w.now);
      }
    }
  }

  lemma DirOf(n: Node)
    ensures NodeShape(n).dir == n.dir && NodeShape(n).name == n.name && NodeShape(n).bundles == n.bundles
  {
  }
}
