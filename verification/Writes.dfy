/** Which files the engine writes at all: everything else in its directories is only ever removed. */
module Writes {
  import opened Base
  import opened Pki
  import opened Tree
  import opened Layout
  import opened Rebuilding

  /** `p` belongs to the signer or to one of its descendants. */
  ghost predicate Written(sh: Shape, p: Path) {
    OwnPath(sh, p) || exists k :: k in sh.subs && Written(sh.subs[k], p)
  }

  /** No signer of the subtree ever writes `p`. */
  ghost predicate Foreign(sh: Shape, p: Path) {
    !Written(sh, p) && p !in Bundles(sh)
  }

  /** The file is as it was, or gone. */
  ghost predicate NotAdded(f: map<Path, File>, g: map<Path, File>, p: Path) {
    p in g ==> p in f && g[p] == f[p]
  }

  lemma ForeignSub(sh: Shape, k: string, p: Path)
    requires Foreign(sh, p) && k in sh.subs
    ensures Foreign(sh.subs[k], p)
  {
  }

  /** Outside the region of a subtree there is nothing it writes. */
  lemma {:induction false} WrittenWithin(r: Shape, p: Path)
    ensures Written(r, p) ==> Within(r, p)
  {
    if OwnPath(r, p) {
      if CaFile(r.dir, p) {
        CaFilesWithin(r, p);
      } else {
        var k :| k in r.csrs && LeafDir(r.dir, k) <= p;
        assert r.dir <= LeafDir(r.dir, k);
      }
    } else if Written(r, p) {
      var k :| k in r.subs && Written(r.subs[k], p);
      WrittenWithin(r.subs[k], p);
    }
  }

  /* ---- completing a builder ---- */

  lemma {:induction false} BundlesWrite(n: Node, ps: seq<Path>, w: World, p: Path)
    requires p !in ps && AddToBundles(n, ps, w).Ok?
    ensures SameAt(w.files, AddToBundles(n, ps, w).w.files, p)
    decreases |ps|
  {
    if ps != [] {
      BundlesWrite(n.(bundles := n.bundles + {ps[0]}), ps[1..],
                   w.(files := w.files[ps[0] := CertFile(Upsert(BundleAt(w.files, ps[0]), n.ca.cert))]), p);
    }
  }

  lemma CertificateWrites(n: Node, csr: Csr, w: World, p: Path)
    requires !(LeafDir(n.dir, csr.name) <= p)
    ensures SameAt(w.files, SignCertificate(n, csr, w).1.files, p) && SignCertificate(n, csr, w).0.dir == n.dir
  {
  }

  lemma {:induction false} CertificatesWrite(n: Node, csrs: seq<Csr>, w: World, p: Path)
    requires forall k :: k in CsrsByName(csrs) ==> !(LeafDir(n.dir, k) <= p)
    ensures SameAt(w.files, SignCertificates(n, csrs, w).1.files, p)
    decreases |csrs|
  {
    if csrs != [] {
      hide SignCertificate;
      CertificateWrites(n, csrs[0], w, p);
      var (n1, w1) := SignCertificate(n, csrs[0], w);
      CertificatesWrite(n1, csrs[1..], w1, p);
    }
  }

  lemma EnsureWrites(parent: Tls, name: string, dir: Path, days: int, w: World, p: Path)
    requires !CaFile(dir, p)
    ensures SameAt(w.files, EnsureSubCA(parent, name, dir, days, w).1.files, p)
  {
  }

  lemma {:induction false} SubCAWrites(n: Node, b: Builder, w: World, p: Path)
    requires WellNamed(b) && Foreign(BuilderShape(b), p) && SignSubCA(n, b, w).Ok?
    ensures SameAt(w.files, SignSubCA(n, b, w).w.files, p) && SignSubCA(n, b, w).node.dir == n.dir
    decreases b, 2
  {
    hide EnsureSubCA, Complete, Foreign;
    ForeignOwn(b, p);
    EnsureWrites(n.ca, b.name, b.dir, b.days, w, p);
    var (ca, w1) := EnsureSubCA(n.ca, b.name, b.dir, b.days, w);
    CompleteWrites(b, ca, w1, p);
  }

  lemma ForeignOwn(b: Builder, p: Path)
    requires Foreign(BuilderShape(b), p)
    ensures !CaFile(b.dir, p) && p !in b.bundlePaths
    ensures forall k :: k in CsrsByName(b.csrs) ==> !(LeafDir(b.dir, k) <= p)
    ensures forall k :: k in BuilderShapes(b.subs) ==> Foreign(BuilderShapes(b.subs)[k], p)
  {
  }

  lemma {:induction false} SubCAsWrite(n: Node, bs: seq<Builder>, w: World, p: Path)
    requires AllWellNamed(bs) && SignSubCAs(n, bs, w).Ok?
    requires forall k :: k in BuilderShapes(bs) ==> Foreign(BuilderShapes(bs)[k], p)
    ensures SameAt(w.files, SignSubCAs(n, bs, w).w.files, p) && SignSubCAs(n, bs, w).node.dir == n.dir
    decreases bs, 0
  {
    if bs != [] {
      hide SignSubCA, Foreign, WellNamed, BuilderShape;
      assert BuilderShapes(bs)[bs[0].name] == BuilderShape(bs[0]);
      SubCAWrites(n, bs[0], w, p);
      var o := SignSubCA(n, bs[0], w);
      forall k | k in BuilderShapes(bs[1..]) ensures Foreign(BuilderShapes(bs[1..])[k], p) {
        assert BuilderShapes(bs)[k] == BuilderShapes(bs[1..])[k];
      }
      SubCAsWrite(o.node, bs[1..], o.w, p);
    }
  }

  lemma {:induction false} CompleteWrites(b: Builder, ca: Tls, w: World, p: Path)
    requires WellNamed(b) && Foreign(BuilderShape(b), p) && Complete(b, ca, w).Ok?
    ensures SameAt(w.files, Complete(b, ca, w).w.files, p)
    decreases b, 1
  {
    hide SignSubCAs, SignCertificates, AddToBundles, Foreign, BuilderShape, BuilderShapes, AllWellNamed, CsrsByName;
    hide DistinctCsrs;
    ForeignOwn(b, p);
    SubCAsWrite(Empty(b, ca), b.subs, w, p);
    var o := SignSubCAs(Empty(b, ca), b.subs, w);
    CertificatesWrite(o.node, b.csrs, o.w, p);
    var (n2, w2) := SignCertificates(o.node, b.csrs, o.w);
    BundlesWrite(n2, b.bundlePaths, w2, p);
  }

  /* ---- renewal ---- */

  lemma RenewSubCAWrites(n: Node, k: string, b: Builder, w: World, p: Path)
    requires k in n.subs && Rebuilds(b, n.subs[k]) && Foreign(NodeShape(n.subs[k]), p) && RenewSubCA(n, k, b, w).Ok?
    ensures NotAdded(w.files, RenewSubCA(n, k, b, w).w.files, p)
    ensures n.subs[k].dir <= p ==> p !in RenewSubCA(n, k, b, w).w.files
  {
    hide SignSubCA, Foreign, WellNamed;
    SubCAWrites(n, b, w.(files := RemoveAll(w.files, n.subs[k].dir)), p);
  }

  /** What the loop over the sub-CAs is given. */
  ghost predicate Renewable(n: Node, ks: seq<string>, bs: seq<Builder>, p: Path) {
    |ks| == |bs| &&
    (ks != [] ==>
      && ks[0] in n.subs && n.subs[ks[0]].name == ks[0] && Rebuilds(bs[0], n.subs[ks[0]])
      && Foreign(NodeShape(n.subs[ks[0]]), p)
      && ks[0] !in ks[1..] && Renewable(n, ks[1..], bs[1..], p))
  }

  lemma {:induction false} StillRenewable(n: Node, n': Node, k: string, ks: seq<string>, bs: seq<Builder>, p: Path)
    requires Renewable(n, ks, bs, p) && k !in ks && k in n'.subs && n'.subs == n.subs[k := n'.subs[k]]
    ensures Renewable(n', ks, bs, p)
    decreases |ks|
  {
    hide Rebuilds, Foreign, NodeShape;
    if ks != [] {
      StillRenewable(n, n', k, ks[1..], bs[1..], p);
    }
  }

  lemma {:induction false} AllRenewable(n: Node, ks: seq<string>, bs: seq<Builder>, p: Path)
    requires RebuildsEach(bs, n, ks) && forall i, j :: 0 <= i < j < |ks| ==> ks[i] != ks[j]
    requires forall i :: 0 <= i < |ks| ==> n.subs[ks[i]].name == ks[i] && Foreign(NodeShape(n.subs[ks[i]]), p)
    ensures Renewable(n, ks, bs, p)
    decreases |ks|
  {
    hide Rebuilds, Foreign, NodeShape;
    if ks != [] {
      AllRenewable(n, ks[1..], bs[1..], p);
    }
  }

  lemma {:induction false} RenewSubCAsWrite(n: Node, ks: seq<string>, bs: seq<Builder>, w: World, p: Path, k: string)
    requires Renewable(n, ks, bs, p) && RenewSubCAs(n, ks, bs, w).Ok?
    ensures NotAdded(w.files, RenewSubCAs(n, ks, bs, w).w.files, p)
    ensures k in ks && k in n.subs && n.subs[k].dir <= p ==> p !in RenewSubCAs(n, ks, bs, w).w.files
    decreases |ks|
  {
    if ks != [] {
      hide RenewSubCA, Rebuilds, Foreign, NodeShape;
      RenewSubCAWrites(n, ks[0], bs[0], w, p);
      RenewSubCAKeeps(n, ks[0], bs[0], w);
      var o := RenewSubCA(n, ks[0], bs[0], w);
      StillRenewable(n, o.node, ks[0], ks[1..], bs[1..], p);
      RenewSubCAsWrite(o.node, ks[1..], bs[1..], o.w, p, k);
      assert ks == [ks[0]] + ks[1..];
    }
  }

  lemma {:induction false} RenewCertificatesWrite(n: Node, ks: seq<string>, w: World, p: Path)
    requires (forall k :: k in ks ==> k in n.leaves && n.leaves[k].csr.name == k && !(LeafDir(n.dir, k) <= p))
    requires forall i, j :: 0 <= i < j < |ks| ==> ks[i] != ks[j]
    requires RenewCertificates(n, ks, w).Ok?
    ensures SameAt(w.files, RenewCertificates(n, ks, w).w.files, p)
    decreases |ks|
  {
    if ks != [] {
      RenewCertificateWrites(n, ks[0], w, p);
      var o := RenewCertificate(n, ks[0], w);
      hide RenewCertificate;
      RenewCertificatesWrite(o.node, ks[1..], o.w, p);
    }
  }

  lemma RenewCertificateWrites(n: Node, k: string, w: World, p: Path)
    requires k in n.leaves && n.leaves[k].csr.name == k && !(LeafDir(n.dir, k) <= p)
    ensures RenewCertificate(n, k, w).Ok? && SameAt(w.files, RenewCertificate(n, k, w).w.files, p)
    ensures var n' := RenewCertificate(n, k, w).node;
              n'.dir == n.dir && forall j :: j in n.leaves && j != k ==> j in n'.leaves && n'.leaves[j] == n.leaves[j]
  {
    CertificateWrites(n, n.leaves[k].csr, w.(files := RemoveAll(w.files, LeafDir(n.dir, k))), p);
  }

  lemma RenewSelfWrites(n: Node, order: seq<Path>, w: World, p: Path)
    requires !CaFile(n.dir, p) && p !in order && RenewSelf(n, order, w).Ok?
    ensures NotAdded(w.files, RenewSelf(n, order, w).w.files, p)
    ensures n.dir <= p ==> p !in RenewSelf(n, order, w).w.files
  {
    var (ca, w1) := EnsureCA(OwnCAInfo(n), w.(files := RemoveAll(w.files, n.dir)));
    BundlesWrite(n.(ca := ca), order, w1, p);
  }

  lemma {:induction false} RenewSubCAsKeep(n: Node, ks: seq<string>, bs: seq<Builder>, w: World)
    requires |ks| == |bs| && RenewSubCAs(n, ks, bs, w).Ok?
    ensures RenewSubCAs(n, ks, bs, w).node == n.(subs := RenewSubCAs(n, ks, bs, w).node.subs)
    decreases |ks|
  {
    if ks != [] {
      var o := RenewSubCA(n, ks[0], bs[0], w);
      assert o.node == n.(subs := o.node.subs);
      hide RenewSubCA;
      RenewSubCAsKeep(o.node, ks[1..], bs[1..], o.w);
    }
  }

  /** The directories a call with `path` removes. */
  ghost predicate Wiped(n: Node, path: Path, p: Path)
    decreases |path|
  {
    if path == [] then (n.ca.chain == [] && n.dir <= p) || exists k :: k in n.subs && n.subs[k].dir <= p
    else if |path| == 1 then path[0] in n.subs && n.subs[path[0]].dir <= p
    else path[0] in n.subs && Wiped(n.subs[path[0]], path[1..], p)
  }

  lemma SelfWrites(n: Node, ch: Choices, w: World, p: Path) returns (n1: Node, w1: World)
    requires Possible(n, [], ch) && Foreign(NodeShape(n), p) && RenewAll(n, ch, w).Ok?
    ensures (if n.ca.chain == [] then RenewSelf(n, ch.bundleOrder, w) else Ok(n, w)) == Ok(n1, w1)
    ensures n1 == n.(ca := n1.ca, bundles := n1.bundles) && NotAdded(w.files, w1.files, p)
    ensures n.ca.chain == [] && n.dir <= p ==> p !in w1.files
  {
    hide RenewSubCAs, RenewCertificates, RenewSelf, Rebuilds, Written, Bundles, Sorted;
    if n.ca.chain == [] {
      assert !CaFile(n.dir, p) && p !in n.bundles by { ForeignNode(n, p); }
      RenewSelfWrites(n, ch.bundleOrder, w, p);
      RenewSelfKeeps(n, ch.bundleOrder, w);
      var o := RenewSelf(n, ch.bundleOrder, w);
      n1, w1 := o.node, o.w;
    } else {
      n1, w1 := n, w;
    }
  }

  lemma ForeignNode(n: Node, p: Path)
    requires Foreign(NodeShape(n), p)
    ensures !CaFile(n.dir, p) && p !in n.bundles
    ensures forall k :: k in n.leaves ==> !(LeafDir(n.dir, k) <= p)
    ensures forall k :: k in n.subs ==> Foreign(NodeShape(n.subs[k]), p)
  {
    var sh := NodeShape(n);
    assert !OwnPath(sh, p);
    assert p !in sh.bundles;
    assert forall k :: k in n.leaves ==> k in sh.csrs;
    forall k | k in n.subs ensures Foreign(NodeShape(n.subs[k]), p) {
      ForeignSub(sh, k, p);
    }
  }

  lemma RenewAllWrites(n: Node, ch: Choices, w: World, p: Path)
    requires Keyed(n) && Possible(n, [], ch) && Foreign(NodeShape(n), p) && RenewAll(n, ch, w).Ok?
    ensures NotAdded(w.files, RenewAll(n, ch, w).w.files, p)
    ensures Wiped(n, [], p) ==> p !in RenewAll(n, ch, w).w.files
  {
    hide RenewSubCAs, RenewCertificates, RenewSelf, Rebuilds, Foreign, NodeShape, Sorted, Renewable;
    ForeignNode(n, p);
    var n1, w1 := SelfWrites(n, ch, w, p);
    var ks := Sorted(n.subs.Keys);
    SortedDistinct(n.subs.Keys);
    KeyedTop(n);
    AllRenewable(n1, ks, ch.builders, p);
    var o := RenewSubCAs(n1, ks, ch.builders, w1);
    RenewSubCAsKeep(n1, ks, ch.builders, w1);
    SortedDistinct(o.node.leaves.Keys);
    RenewCertificatesWrite(o.node, Sorted(o.node.leaves.Keys), o.w, p);
    RenewSubCAsWrite(n1, ks, ch.builders, w1, p, "");
    if k :| k in n.subs && n.subs[k].dir <= p {
      RenewSubCAsWrite(n1, ks, ch.builders, w1, p, k);
    }
  }

  lemma KeyedTop(n: Node)
    requires Keyed(n)
    ensures forall k :: k in n.subs ==> n.subs[k].name == k && Keyed(n.subs[k])
    ensures forall k :: k in n.leaves ==> n.leaves[k].csr.name == k
  {
  }

  /** A call never brings a foreign file into being, and removes those in the directories it renews. */
  lemma {:induction false} RegenerateWrites(n: Node, path: Path, ch: Choices, w: World, p: Path)
    requires Keyed(n) && Possible(n, path, ch) && Foreign(NodeShape(n), p) && Regenerate(n, path, ch, w).Ok?
    ensures NotAdded(w.files, Regenerate(n, path, ch, w).w.files, p)
    ensures Wiped(n, path, p) ==> p !in Regenerate(n, path, ch, w).w.files
    decreases |path|
  {
    hide RenewAll, RenewSubCA, RenewCertificate, Rebuilds, Foreign, NodeShape, Sorted, Keyed;
    KeyedTop(n);
    ForeignNode(n, p);
    if path == [] {
      RenewAllWrites(n, ch, w, p);
    } else if |path| == 1 {
      if path[0] in n.subs {
        RenewSubCAWrites(n, path[0], ch.builders[0], w, p);
      } else {
        RenewedLeafWrites(n, path[0], w, p);
      }
    } else {
      RegenerateWrites(n.subs[path[0]], path[1..], ch, w, p);
    }
  }

  lemma RenewedLeafWrites(n: Node, k: string, w: World, p: Path)
    requires (forall j :: j in n.leaves ==> n.leaves[j].csr.name == j && !(LeafDir(n.dir, j) <= p))
    requires RenewCertificate(n, k, w).Ok?
    ensures NotAdded(w.files, RenewCertificate(n, k, w).w.files, p)
  {
  }
}
