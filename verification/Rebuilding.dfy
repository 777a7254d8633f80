/** Turning a live signer back into a builder, and renewing its sub-CAs one after the other. */
module Rebuilding {
  import opened Base
  import opened Pki
  import opened Tree

  lemma {:induction false} AppendBuilder(bs: seq<Builder>, b: Builder)
    requires AllWellNamed(bs) && WellNamed(b) && b.name !in BuilderShapes(bs)
    ensures AllWellNamed(bs + [b]) && BuilderShapes(bs + [b]) == BuilderShapes(bs)[b.name := BuilderShape(b)]
    decreases |bs|
  {
    if bs == [] {
      assert [b][1..] == [];
    } else {
      assert (bs + [b])[1..] == bs[1..] + [b];
      AppendBuilder(bs[1..], b);
    }
  }

  lemma {:induction false} AppendCsr(csrs: seq<Csr>, c: Csr)
    requires DistinctCsrs(csrs) && c.name !in CsrsByName(csrs)
    ensures DistinctCsrs(csrs + [c]) && CsrsByName(csrs + [c]) == CsrsByName(csrs)[c.name := c]
    decreases |csrs|
  {
    if csrs == [] {
      assert [c][1..] == [];
    } else {
      assert (csrs + [c])[1..] == csrs[1..] + [c];
      AppendCsr(csrs[1..], c);
    }
  }

  /** `bs` are builders for the sub-CAs of `n` named in `done`, one for each. */
  ghost predicate Rebuilt(bs: seq<Builder>, n: Node, done: set<string>) {
    && AllWellNamed(bs) && BuilderShapes(bs).Keys == done && done <= n.subs.Keys
    && forall k :: k in done ==> BuilderShapes(bs)[k] == NodeShape(n.subs[k])
  }

  lemma NoneRebuilt(n: Node)
    ensures Rebuilt([], n, {})
  {
  }

  lemma OneMoreRebuilt(bs: seq<Builder>, n: Node, done: set<string>, b: Builder, k: string)
    requires Rebuilt(bs, n, done) && k !in done && k in n.subs && Rebuilds(b, n.subs[k]) && n.subs[k].name == k
    ensures Rebuilt(bs + [b], n, done + {k})
  {
    hide AllWellNamed, WellNamed, BuilderShapes;
    assert b.name == BuilderShape(b).name == NodeShape(n.subs[k]).name == k;
    AppendBuilder(bs, b);
  }

  /* ---- every signer can be rebuilt ---- */

  /** Both maps of every signer are keyed by name. */
  ghost predicate Keyed(n: Node) {
    && (forall k :: k in n.subs ==> n.subs[k].name == k && Keyed(n.subs[k]))
    && (forall k :: k in n.leaves ==> n.leaves[k].csr.name == k)
  }

  ghost predicate Requested(csrs: seq<Csr>, n: Node, done: set<string>) {
    && DistinctCsrs(csrs) && CsrsByName(csrs).Keys == done && done <= n.leaves.Keys
    && forall k :: k in done ==> CsrsByName(csrs)[k] == n.leaves[k].csr
  }

  lemma {:induction false} RequestsExist(n: Node, names: set<string>) returns (csrs: seq<Csr>)
    requires Keyed(n) && names <= n.leaves.Keys
    ensures Requested(csrs, n, names)
    decreases |names|
  {
    if names == {} {
      csrs := [];
    } else {
      var k :| k in names;
      csrs := RequestsExist(n, names - {k});
      AppendCsr(csrs, n.leaves[k].csr);
      csrs := csrs + [n.leaves[k].csr];
    }
  }

  lemma {:induction false} BuildersExist(n: Node, names: set<string>) returns (bs: seq<Builder>)
    requires Keyed(n) && names <= n.subs.Keys
    ensures Rebuilt(bs, n, names)
    decreases n, 0, |names|
  {
    if names == {} {
      bs := [];
    } else {
      hide Rebuilt, Rebuilds;
      var k :| k in names;
      bs := BuildersExist(n, names - {k});
      var b := BuilderExists(n.subs[k]);
      OneMoreRebuilt(bs, n, names - {k}, b, k);
      assert names - {k} + {k} == names;
      bs := bs + [b];
    }
  }

  /** Every signer has a builder that asks for exactly what it has. */
  lemma {:induction false} BuilderExists(n: Node) returns (b: Builder)
    requires Keyed(n)
    ensures Rebuilds(b, n)
    decreases n, 1
  {
    var bs := BuildersExist(n, n.subs.Keys);
    var csrs := RequestsExist(n, n.leaves.Keys);
    var ps := EnumerationExists(n.bundles);
    b := Builder(n.name, n.dir, n.days, None, bs, csrs, ps);
    RebuildsWhole(b, n);
  }

  lemma RebuildsWhole(b: Builder, n: Node)
    requires b.name == n.name && b.dir == n.dir && b.days == n.days
    requires Rebuilt(b.subs, n, n.subs.Keys) && Requested(b.csrs, n, n.leaves.Keys)
    requires Enumerates(b.bundlePaths, n.bundles)
    ensures Rebuilds(b, n)
  {
    hide BuilderShapes, CsrsByName, AllWellNamed, DistinctCsrs;
    var s := NodeShape(n);
    assert s.subs == BuilderShapes(b.subs);
    assert s.csrs == CsrsByName(b.csrs);
    assert (set p | p in b.bundlePaths) == n.bundles;
  }

  /* ---- a renewal touches one entry ---- */

  lemma {:induction false} BundlesKeepName(n: Node, ps: seq<Path>, w: World)
    ensures AddToBundles(n, ps, w).Ok? ==>
              var o := AddToBundles(n, ps, w); o.node == n.(bundles := o.node.bundles) && o.w.next == w.next
    decreases |ps|
  {
    if ps != [] && Readable(w.files, ps[0]) {
      BundlesKeepName(n.(bundles := n.bundles + {ps[0]}), ps[1..],
                      w.(files := w.files[ps[0] := CertFile(Upsert(BundleAt(w.files, ps[0]), n.ca.cert))]));
    }
  }

  lemma {:induction false} CertificatesKeepName(n: Node, csrs: seq<Csr>, w: World)
    ensures var (n', w') := SignCertificates(n, csrs, w); n' == n.(leaves := n'.leaves) && w.next <= w'.next
    decreases |csrs|
  {
    if csrs != [] {
      var (n1, w1) := SignCertificate(n, csrs[0], w);
      CertificatesKeepName(n1, csrs[1..], w1);
    }
  }

  lemma {:induction false} SubCAKeepsName(n: Node, b: Builder, w: World)
    ensures SignSubCA(n, b, w).Ok? ==>
              var o := SignSubCA(n, b, w);
              && b.name in o.node.subs && o.node == n.(subs := n.subs[b.name := o.node.subs[b.name]])
              && w.next <= o.w.next
    decreases b, 2
  {
    hide Complete;
    var (ca, w1) := EnsureSubCA(n.ca, b.name, b.dir, b.days, w);
    CompleteKeepsName(b, ca, w1);
  }

  /** Sub-CAs that are not named keep their entries. */
  lemma {:induction false} SubCAsKeepName(n: Node, bs: seq<Builder>, w: World)
    ensures SignSubCAs(n, bs, w).Ok? ==>
              var o := SignSubCAs(n, bs, w);
              && o.node == n.(subs := o.node.subs) && w.next <= o.w.next
              && (forall k :: k in n.subs && k !in BuilderShapes(bs) ==>
                    k in o.node.subs && o.node.subs[k] == n.subs[k])
    decreases bs, 0
  {
    if bs != [] && SignSubCA(n, bs[0], w).Ok? {
      hide SignSubCA, BuilderShape;
      var o := SignSubCA(n, bs[0], w);
      SubCAKeepsName(n, bs[0], w);
      SubCAsKeepName(o.node, bs[1..], o.w);
    }
  }

  lemma {:induction false} CompleteKeepsName(b: Builder, ca: Tls, w: World)
    ensures Complete(b, ca, w).Ok? ==>
              var o := Complete(b, ca, w); o.node.name == b.name && o.node.ca == ca && w.next <= o.w.next
    decreases b, 1
  {
    hide SignSubCAs, SignCertificates, AddToBundles;
    SubCAsKeepName(Empty(b, ca), b.subs, w);
    var o := SignSubCAs(Empty(b, ca), b.subs, w);
    if o.Ok? {
      CertificatesKeepName(o.node, b.csrs, o.w);
      var (n2, w2) := SignCertificates(o.node, b.csrs, o.w);
      BundlesKeepName(n2, b.bundlePaths, w2);
    }
  }

  /** Renewing one sub-CA leaves the others as they were. */
  lemma RenewSubCAKeeps(n: Node, k: string, b: Builder, w: World)
    requires k in n.subs && Rebuilds(b, n.subs[k]) && n.subs[k].name == k
    ensures RenewSubCA(n, k, b, w).Ok? ==>
              var n' := RenewSubCA(n, k, b, w).node;
              n' == n.(subs := n'.subs) && k in n'.subs && n'.subs == n.subs[k := n'.subs[k]]
  {
    hide Complete, EnsureSubCA, WellNamed;
    assert b.name == BuilderShape(b).name == NodeShape(n.subs[k]).name == k;
    var w1 := w.(files := RemoveAll(w.files, n.subs[k].dir));
    var (ca, w2) := EnsureSubCA(n.ca, b.name, b.dir, b.days, w1);
    CompleteKeepsName(b, ca, w2);
  }

  /* ---- renewing the sub-CAs in order ---- */

  /** A builder for each name, in order. */
  ghost predicate RebuildsEach(bs: seq<Builder>, n: Node, ks: seq<string>) {
    |bs| == |ks| && forall i :: 0 <= i < |ks| ==> ks[i] in n.subs && Rebuilds(bs[i], n.subs[ks[i]])
  }

  lemma {:induction false} RenewSnoc(n: Node, ks: seq<string>, bs: seq<Builder>, w: World, k: string, b: Builder)
    requires |ks| == |bs|
    ensures RenewSubCAs(n, ks + [k], bs + [b], w) ==
            match RenewSubCAs(n, ks, bs, w)
            case Err(e) => Err(e)
            case Ok(n1, w1) => RenewSubCA(n1, k, b, w1)
    decreases |ks|
  {
    hide RenewSubCA;
    if ks == [] {
      assert ([] + [k])[1..] == [] && ([] + [b])[1..] == [];
      assert RenewSubCAs(n, [], [], w) == Ok(n, w);
    } else {
      assert (ks + [k])[1..] == ks[1..] + [k] && (bs + [b])[1..] == bs[1..] + [b];
      var o := RenewSubCA(n, ks[0], bs[0], w);
      if o.Ok? {
        RenewSnoc(o.node, ks[1..], bs[1..], o.w, k, b);
      }
    }
  }

  /** The first `i` names have been renewed, leading to `m` and `w1`; the others are as they were. */
  ghost predicate RenewedUpTo(n: Node, ks: seq<string>, i: nat, bs: seq<Builder>, w: World, m: Node, w1: World) {
    && i <= |ks| && RebuildsEach(bs, n, ks[..i])
    && RenewSubCAs(n, ks[..i], bs, w) == Ok(m, w1)
    && forall j :: i <= j < |ks| ==> ks[j] in n.subs && ks[j] in m.subs && m.subs[ks[j]] == n.subs[ks[j]]
  }

  lemma NoneRenewed(n: Node, ks: seq<string>, w: World)
    requires forall k :: k in ks ==> k in n.subs
    ensures RenewedUpTo(n, ks, 0, [], w, n, w)
  {
  }

  lemma NextToRenew(n: Node, ks: seq<string>, i: nat, bs: seq<Builder>, w: World, m: Node, w1: World)
    requires RenewedUpTo(n, ks, i, bs, w, m, w1) && i < |ks|
    ensures ks[i] in m.subs
  {
  }

  lemma RenewedAll(n: Node, ks: seq<string>, bs: seq<Builder>, w: World, m: Node, w1: World)
    requires RenewedUpTo(n, ks, |ks|, bs, w, m, w1)
    ensures RebuildsEach(bs, n, ks) && RenewSubCAs(n, ks, bs, w) == Ok(m, w1)
  {
    assert ks[..|ks|] == ks;
  }

  lemma OneMoreRenewed(n: Node, ks: seq<string>, i: nat, bs: seq<Builder>, w: World, m: Node, w1: World, b: Builder)
    requires RenewedUpTo(n, ks, i, bs, w, m, w1) && i < |ks| && Keyed(n) && Rebuilds(b, m.subs[ks[i]])
    requires forall j, l :: 0 <= j < l < |ks| ==> ks[j] != ks[l]
    ensures var o := RenewSubCA(m, ks[i], b, w1);
            && RebuildsEach(bs + [b], n, ks[..i + 1])
            && RenewSubCAs(n, ks[..i + 1], bs + [b], w) == o
            && (o.Ok? ==> RenewedUpTo(n, ks, i + 1, bs + [b], w, o.node, o.w))
  {
    hide Rebuilds, RenewSubCA, RenewSubCAs;
    assert ks[..i + 1] == ks[..i] + [ks[i]];
    RenewSnoc(n, ks[..i], bs, w, ks[i], b);
    RenewSubCAKeeps(m, ks[i], b, w1);
  }

  /** A loop that stopped early stopped as the whole list would have, whatever the remaining builders. */
  lemma {:induction false} StoppedEarly(n: Node, ks: seq<string>, i: nat, bs: seq<Builder>, w: World)
    returns (all: seq<Builder>)
    requires i <= |ks| && RebuildsEach(bs, n, ks[..i]) && RenewSubCAs(n, ks[..i], bs, w).Err?
    requires Keyed(n) && forall k :: k in ks ==> k in n.subs
    ensures RebuildsEach(all, n, ks) && RenewSubCAs(n, ks, all, w) == RenewSubCAs(n, ks[..i], bs, w)
    decreases |ks| - i
  {
    hide Rebuilds, RenewSubCAs;
    if i == |ks| {
      assert ks[..i] == ks;
      all := bs;
    } else {
      var b := BuilderExists(n.subs[ks[i]]);
      assert ks[..i + 1] == ks[..i] + [ks[i]];
      RenewSnoc(n, ks[..i], bs, w, ks[i], b);
      all := StoppedEarly(n, ks, i + 1, bs + [b], w);
    }
  }

  lemma {:induction false} EachRebuilds(n: Node, ks: seq<string>) returns (bs: seq<Builder>)
    requires Keyed(n) && forall k :: k in ks ==> k in n.subs
    ensures RebuildsEach(bs, n, ks)
    decreases |ks|
  {
    hide Rebuilds;
    if ks == [] {
      bs := [];
    } else {
      var b := BuilderExists(n.subs[ks[0]]);
      var rest := EachRebuilds(n, ks[1..]);
      bs := [b] + rest;
    }
  }

  /** A signer's own renewal leaves its sub-CAs and certificates alone. */
  lemma RenewSelfKeeps(n: Node, order: seq<Path>, w: World)
    ensures RenewSelf(n, order, w).Ok? ==>
              var n' := RenewSelf(n, order, w).node; n' == n.(ca := n'.ca, bundles := n'.bundles)
  {
    hide EnsureCA, AddToBundles;
    var (ca, w1) := EnsureCA(OwnCAInfo(n), w.(files := RemoveAll(w.files, n.dir)));
    BundlesKeepName(n.(ca := ca), order, w1);
  }

  lemma RenewCertificatesStep(n: Node, ks: seq<string>, w: World)
    ensures RenewCertificates(n, ks, w) ==
            if ks == [] then Ok(n, w) else
              match RenewCertificate(n, ks[0], w)
              case Err(e) => Err(e)
              case Ok(n1, w1) => RenewCertificates(n1, ks[1..], w1)
  {
  }

  lemma PossibleAll(n: Node, n1: Node, bs: seq<Builder>, order: seq<Path>)
    requires n1.subs == n.subs && RebuildsEach(bs, n1, Sorted(n1.subs.Keys)) && Enumerates(order, n.bundles)
    ensures Possible(n, [], Choices(bs, order))
  {
  }

  /* ---- only an unreadable bundle stops the completion of a builder ---- */

  lemma {:induction false} BundlesFailOnBundles(n: Node, ps: seq<Path>, w: World)
    ensures AddToBundles(n, ps, w).Err? ==> AddToBundles(n, ps, w).error.BadBundle?
    decreases |ps|
  {
    if ps != [] && Readable(w.files, ps[0]) {
      BundlesFailOnBundles(n.(bundles := n.bundles + {ps[0]}), ps[1..],
                           w.(files := w.files[ps[0] := CertFile(Upsert(BundleAt(w.files, ps[0]), n.ca.cert))]));
    }
  }

  lemma {:induction false} CompleteFailsOnBundles(b: Builder, ca: Tls, w: World)
    ensures Complete(b, ca, w).Err? ==> Complete(b, ca, w).error.BadBundle?
    decreases b, 1
  {
    hide SignSubCAs, SignCertificates, AddToBundles;
    SubCAsFailOnBundles(Empty(b, ca), b.subs, w);
    var o := SignSubCAs(Empty(b, ca), b.subs, w);
    if o.Ok? {
      var (n2, w2) := SignCertificates(o.node, b.csrs, o.w);
      BundlesFailOnBundles(n2, b.bundlePaths, w2);
    }
  }

  lemma {:induction false} SubCAFailsOnBundles(n: Node, b: Builder, w: World)
    ensures SignSubCA(n, b, w).Err? ==> SignSubCA(n, b, w).error.BadBundle?
    decreases b, 2
  {
    hide Complete, EnsureSubCA;
    var (ca, w1) := EnsureSubCA(n.ca, b.name, b.dir, b.days, w);
    CompleteFailsOnBundles(b, ca, w1);
  }

  lemma {:induction false} SubCAsFailOnBundles(n: Node, bs: seq<Builder>, w: World)
    ensures SignSubCAs(n, bs, w).Err? ==> SignSubCAs(n, bs, w).error.BadBundle?
    decreases bs, 0
  {
    if bs != [] {
      hide SignSubCA;
      SubCAFailsOnBundles(n, bs[0], w);
      var o := SignSubCA(n, bs[0], w);
      if o.Ok? {
        SubCAsFailOnBundles(o.node, bs[1..], o.w);
      }
    }
  }

  /** The not-found answer that makes Regenerate try a certificate means there is no such sub-CA. */
  lemma NotFoundIff(n: Node, k: string, b: Builder, w: World)
    ensures RenewSubCA(n, k, b, w).Err? && RenewSubCA(n, k, b, w).error.SignerNotFound? <==> k !in n.subs
  {
    hide SignSubCA;
    if k in n.subs {
      SubCAFailsOnBundles(n, b, w.(files := RemoveAll(w.files, n.subs[k].dir)));
    }
  }

  /** A longer path is the sub-CA's business. */
  lemma ForwardedBelow(n: Node, path: Path, ch: Choices, w: World)
    requires |path| >= 2 && path[0] in n.subs && Possible(n.subs[path[0]], path[1..], ch)
    ensures Possible(n, path, ch)
    ensures Regenerate(n, path, ch, w) ==
            match Regenerate(n.subs[path[0]], path[1..], ch, w)
            case Err(e) => Err(e)
            case Ok(c, w1) => Ok(n.(subs := n.subs[path[0] := c]), w1)
  {
  }
}
