/** Requested lifetimes: what the builders ask for is what the completed trees are renewed for. */
module Validity {
  import opened Pki
  import opened Tree
  import opened Rebuilding
  import opened Regeneration
  import opened Chains
  import opened ChainSetup
  import opened Rotation

  ghost predicate LongCsrs(csrs: seq<Csr>) {
    csrs != [] ==> CsrDays(csrs[0]) >= SAFE_DAYS && LongCsrs(csrs[1..])
  }

  /** Everything below the builder asks for at least 210 days. */
  ghost predicate LongBuilder(b: Builder)
    decreases b, 1
  {
    LongCsrs(b.csrs) && LongBuilders(b.subs)
  }

  ghost predicate LongBuilders(bs: seq<Builder>)
    decreases bs, 0
  {
    bs != [] ==> bs[0].days >= SAFE_DAYS && LongBuilder(bs[0]) && LongBuilders(bs[1..])
  }

  /** Everything below the signer was requested for at least 210 days. */
  ghost predicate LongNode(n: Node) {
    && (forall k :: k in n.leaves ==> CsrDays(n.leaves[k].csr) >= SAFE_DAYS)
    && (forall k :: k in n.subs ==> n.subs[k].days >= SAFE_DAYS && LongNode(n.subs[k]))
  }

  lemma {:induction false} LongCertificates(n: Node, csrs: seq<Csr>, w: World)
    requires LongNode(n) && LongCsrs(csrs)
    ensures LongNode(SignCertificates(n, csrs, w).0) && SignCertificates(n, csrs, w).0.days == n.days
    decreases |csrs|
  {
    if csrs != [] {
      var (n1, w1) := SignCertificate(n, csrs[0], w);
      LongCertificates(n1, csrs[1..], w1);
    }
  }

  lemma {:induction false} LongSubCAs(n: Node, bs: seq<Builder>, w: World)
    requires LongNode(n) && LongBuilders(bs) && SignSubCAs(n, bs, w).Ok?
    ensures LongNode(SignSubCAs(n, bs, w).node) && SignSubCAs(n, bs, w).node.days == n.days
    decreases bs, 0
  {
    if bs != [] {
      hide Complete, EnsureSubCA;
      var (ca, w1) := EnsureSubCA(n.ca, bs[0].name, bs[0].dir, bs[0].days, w);
      LongComplete(bs[0], ca, w1);
      var o := SignSubCA(n, bs[0], w);
      LongSubCAs(o.node, bs[1..], o.w);
    }
  }

  lemma {:induction false} LongComplete(b: Builder, ca: Tls, w: World)
    requires LongBuilder(b) && Complete(b, ca, w).Ok?
    ensures LongNode(Complete(b, ca, w).node) && Complete(b, ca, w).node.days == b.days
    decreases b, 1
  {
    hide SignSubCAs, SignCertificates, AddToBundles, LongCsrs, LongBuilders;
    LongSubCAs(Empty(b, ca), b.subs, w);
    var o := SignSubCAs(Empty(b, ca), b.subs, w);
    LongCertificates(o.node, b.csrs, o.w);
    var (n2, w2) := SignCertificates(o.node, b.csrs, o.w);
    BundlesKeepName(n2, b.bundlePaths, w2);
  }

  lemma {:induction false} LongRegister(n: Node, signer: Path, p: Path, w: World)
    requires LongNode(n) && Register(n, signer, p, w).Ok?
    ensures LongNode(Register(n, signer, p, w).node) && Register(n, signer, p, w).node.days == n.days
    decreases |signer|
  {
    hide AddToBundles;
    if signer == [] {
      BundlesKeepName(n, [p], w);
    } else {
      LongRegister(n.subs[signer[0]], signer[1..], p, w);
    }
  }

  ghost predicate LongChains(cs: Chains) {
    forall k :: k in cs ==> CADays(cs[k].days) >= SAFE_DAYS && LongNode(cs[k])
  }

  ghost predicate LongTops(bs: seq<Builder>) {
    forall i :: 0 <= i < |bs| ==> CADays(bs[i].days) >= SAFE_DAYS && LongBuilder(bs[i])
  }

  lemma {:induction false} LongSigners(cs: Chains, bs: seq<Builder>, w: World)
    requires (forall b :: b in bs ==> b.caInfo.Some?) && LongChains(cs) && LongTops(bs)
    requires CompleteSigners(cs, bs, w).COk?
    ensures LongChains(CompleteSigners(cs, bs, w).cs)
    decreases |bs|
  {
    if bs != [] {
      hide Complete, EnsureCA, LongNode, LongBuilder;
      var (ca, w1) := EnsureCA(bs[0].caInfo.value, w);
      LongComplete(bs[0], ca, w1);
      var o := CompleteRoot(bs[0], w);
      LongSigners(cs[o.node.name := o.node], bs[1..], o.w);
    }
  }

  lemma {:induction false} LongRegistrations(cs: Chains, regs: seq<Registration>, w: World)
    requires LongChains(cs) && RegisterAll(cs, regs, w).COk?
    ensures LongChains(RegisterAll(cs, regs, w).cs)
    decreases |regs|
  {
    if regs != [] {
      hide Register, LongNode;
      var r := regs[0];
      LongRegister(cs[r.signer[0]], r.signer[1..], r.bundle, w);
      var o := RegisterOne(cs, r, w);
      LongRegistrations(o.cs, regs[1..], o.w);
    }
  }

  lemma {:induction false} LongBelow(n: Node, q: Path)
    requires LongNode(n) && q != [] && CertAt(n, q).Some?
    ensures DaysAt(NodeShape(n), q) >= SAFE_DAYS
    decreases |q|
  {
    if |q| > 1 && q[0] in n.subs {
      LongBelow(n.subs[q[0]], q[1..]);
    }
  }

  /** Completed from builders that ask for at least 210 days, no certificate falls due as soon as it is renewed. */
  lemma CompletedValidityOk(bs: seq<Builder>, regs: seq<Registration>, w: World)
    requires (forall b :: b in bs ==> b.caInfo.Some?) && LongTops(bs) && CompleteChains(bs, regs, w).COk?
    ensures ValidityOk(CompleteChains(bs, regs, w).cs)
  {
    hide CompleteSigners, RegisterAll, LongBuilder, LongNode, CertAt, DaysAt, NodeShape;
    LongSigners(map[], bs, w);
    var o := CompleteSigners(map[], bs, w);
    LongRegistrations(o.cs, regs, o.w);
    var cs := CompleteChains(bs, regs, w).cs;
    forall q | q != [] && q[0] in cs && ChainCertAt(cs, q).Some? ensures ChainDaysAt(cs, q) >= SAFE_DAYS {
      if |q| > 1 {
        LongBelow(cs[q[0]], q[1..]);
      }
    }
  }
}
