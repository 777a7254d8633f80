/** Completing a builder leaves a disk that is consistent again, peer certificates it did not record included. */
module Reusable {
  import opened Base
  import opened Pki
  import opened Tree
  import opened Layout
  import opened Completion
  import opened Renewal
  import opened Chains
  import opened ChainSetup
  import opened Requests
  import opened Leftovers

  ghost predicate SubsConsistent(n: Node, sh: Shape, w: World) {
    forall k :: k in n.subs ==> k in sh.subs && SubConsistent(sh.subs[k], n.ca, w.files, w.next)
  }

  ghost predicate CertsConsistent(sh: Shape, ca: Tls, w: World) {
    forall k :: k in sh.csrs ==> LeafConsistent(sh.csrs[k], sh.dir, ca, w.files, w.next)
  }

  lemma {:induction false} SignSubCAConsistent(n: Node, b: Builder, sh: Shape, w: World)
    requires WellNamed(b) && LaidOut(sh) && b.name in sh.subs && BuilderShape(b) == sh.subs[b.name]
    requires SubConsistent(sh.subs[b.name], n.ca, w.files, w.next) && AllReadable(w.files, Bundles(sh.subs[b.name]))
    ensures SignSubCA(n, b, w).Ok?
    ensures SubConsistent(sh.subs[b.name], n.ca, SignSubCA(n, b, w).w.files, SignSubCA(n, b, w).w.next)
    decreases b, 2
  {
    hide LaidOut, Bundles, WellNamed, Consistent, NothingFound, AllReadable;
    var c := sh.subs[b.name];
    SubLaidOut(sh, b.name);
    EnsureSubCASound(n.ca, c, w);
    var (ca, w1) := EnsureSubCA(n.ca, b.name, b.dir, b.days, w);
    EnsuredReadable(n.ca, c, w, ca, w1);
    CompleteConsistent(b, ca, w1);
    var m, w2 := CompleteSound(b, ca, w1);
    SameCAFiles(c, w1.files, w2.files);
  }

  lemma SameCAFiles(c: Shape, f: map<Path, File>, g: map<Path, File>)
    requires forall p :: CaFile(c.dir, p) ==> SameAt(f, g, p)
    ensures GetSubCA(f, c.dir) == GetSubCA(g, c.dir)
  {
    assert SameAt(f, g, CABundlePath(c.dir)) && SameAt(f, g, CAKeyPath(c.dir)) && SameAt(f, g, CASerialsPath(c.dir));
  }

  lemma {:induction false} SignSubCAsConsistent(n: Node, bs: seq<Builder>, sh: Shape, w: World, f0: map<Path, File>,
                                                lo: nat)
    returns (n': Node, w': World)
    requires LaidOut(sh) && SubLoop(n, bs, sh, w, f0, lo) && SubsConsistent(n, sh, w)
    ensures SignSubCAs(n, bs, w) == Ok(n', w') && SubsConsistent(n', sh, w')
    decreases bs, 0
  {
    hide LaidOut, SubConsistent, Untouched;
    if bs == [] {
      n', w' := n, w;
    } else {
      var n1, w1 := FirstSub(n, bs, sh, w, f0, lo);
      FirstConsistent(n, bs, sh, w, f0, lo);
      forall j | j in n.subs ensures SubConsistent(sh.subs[j], n.ca, w1.files, w1.next) {
        SiblingSame(sh, bs[0].name, j, w.files, w1.files);
        SubLaidOut(sh, j);
        SubConsistentFrame(sh.subs[j], n.ca, w.files, w1.files, w.next, w1.next);
      }
      hide SubLoop;
      n', w' := SignSubCAsConsistent(n1, bs[1..], sh, w1, f0, lo);
    }
  }

  lemma {:induction false} FirstConsistent(n: Node, bs: seq<Builder>, sh: Shape, w: World, f0: map<Path, File>, lo: nat)
    requires LaidOut(sh) && SubLoop(n, bs, sh, w, f0, lo) && bs != []
    ensures SignSubCA(n, bs[0], w).Ok? && bs[0].name in sh.subs
    ensures SubConsistent(sh.subs[bs[0].name], n.ca, SignSubCA(n, bs[0], w).w.files, SignSubCA(n, bs[0], w).w.next)
    decreases bs[0], 3
  {
    hide LaidOut, Bundles, SubConsistent;
    SubWithin(sh, bs[0].name);
    SignSubCAConsistent(n, bs[0], sh, w);
  }

  lemma OneCertConsistent(n: Node, csr: Csr, sh: Shape, w: World)
    requires LaidOut(sh) && csr.name in sh.csrs && sh.csrs[csr.name] == csr && n.dir == sh.dir
    requires CertsConsistent(sh, n.ca, w)
    ensures CertsConsistent(sh, n.ca, SignCertificate(n, csr, w).1)
  {
    var (n1, w1) := SignCertificate(n, csr, w);
    LeafPathsInDir(n.dir, csr);
    assert OnlyLeaf(w.files, w1.files, sh.dir, csr.name);
    forall k | k in sh.csrs ensures LeafConsistent(sh.csrs[k], sh.dir, n.ca, w1.files, w1.next) {
      CsrName(sh, k);
      assert LeafConsistent(sh.csrs[k], sh.dir, n.ca, w.files, w.next);
      if k != csr.name {
        OtherLeafSame(sh.dir, csr.name, sh.csrs[k], w.files, w1.files);
      } else if GetLeaf(w.files, n.dir, csr) == None {
        GetAfterPut(w.files, LeafCertPath(n.dir, csr), LeafKeyPath(n.dir, csr), IssueLeaf(n.ca, csr, w));
      }
    }
  }

  lemma {:induction false} SignCertificatesConsistent(n: Node, csrs: seq<Csr>, sh: Shape, w: World, f0: map<Path, File>,
                                                      lo: nat)
    requires LaidOut(sh) && CertLoop(n, csrs, sh, w, f0, lo) && CertsConsistent(sh, n.ca, w)
    ensures CertsConsistent(sh, n.ca, SignCertificates(n, csrs, w).1)
    decreases |csrs|
  {
    if csrs != [] {
      hide LaidOut, CertsConsistent, SignCertificate, PartlySound, CertsOnDisk, CertsSoFar, OnlyLeaf;
      var n1, w1 := FirstCert(n, csrs, sh, w, f0, lo);
      OneCertConsistent(n, csrs[0], sh, w);
      SignCertificatesConsistent(n1, csrs[1..], sh, w1, f0, lo);
    }
  }

  lemma CertsSurviveSubs(sh: Shape, ca: Tls, w: World, w1: World)
    requires LaidOut(sh) && Consistent(sh, ca, w.files, w.next) && OnlySubs(w.files, w1.files, sh) && Later(w, w1)
    ensures CertsConsistent(sh, ca, w1)
  {
    hide LaidOut, OnlySubs, SubConsistent;
    forall k | k in sh.csrs ensures LeafConsistent(sh.csrs[k], sh.dir, ca, w1.files, w1.next) {
      LeavesSurviveSubs(sh, k, w.files, w1.files);
    }
  }

  /** From the phases of a completion to the whole. */
  lemma PhasesConsistent(n1: Node, sh: Shape, ca: Tls, w1: World, w2: World, w': World)
    requires LaidOut(sh) && SubsConsistent(n1, sh, w1) && n1.ca == ca && n1.subs.Keys == sh.subs.Keys
    requires OnlyCerts(w1.files, w2.files, sh) && Later(w1, w2) && CertsConsistent(sh, ca, w2)
    requires w'.next == w2.next && forall p :: p !in sh.bundles ==> SameAt(w2.files, w'.files, p)
    ensures Consistent(sh, ca, w'.files, w'.next)
  {
    hide LaidOut, SubConsistent, Within, GetLeaf;
    BundlesElsewhere(sh, w2.files, w'.files);
    forall k | k in sh.csrs ensures LeafConsistent(sh.csrs[k], sh.dir, ca, w'.files, w'.next) {
      SameLeaf(w2.files, w'.files, sh, sh.csrs[k]);
    }
    forall k | k in sh.subs ensures SubConsistent(sh.subs[k], ca, w'.files, w'.next) {
      SubLaidOut(sh, k);
      SubSameAfterCerts(sh, k, w1.files, w2.files, w'.files);
      SubConsistentFrame(sh.subs[k], ca, w1.files, w'.files, w1.next, w'.next);
    }
  }

  lemma SubSameAfterCerts(sh: Shape, k: string, f: map<Path, File>, g: map<Path, File>, h: map<Path, File>)
    requires LaidOut(sh) && k in sh.subs && OnlyCerts(f, g, sh) && SameOn(g, h, sh)
    ensures SameOn(f, h, sh.subs[k])
  {
    var c := sh.subs[k];
    forall p | Within(c, p) ensures SameAt(f, h, p) {
      assert OwnApart(sh, c) && !OwnPath(sh, p) && Within(sh, p);
      assert SameAt(f, g, p) && SameAt(g, h, p);
    }
  }

  /** Completing keeps a consistent disk consistent. */
  lemma {:induction false} CompleteConsistent(b: Builder, ca: Tls, w: World)
    requires WellNamed(b) && LaidOut(BuilderShape(b)) && Consistent(BuilderShape(b), ca, w.files, w.next)
    requires AllReadable(w.files, Bundles(BuilderShape(b)))
    ensures Complete(b, ca, w).Ok?
    ensures Consistent(BuilderShape(b), ca, Complete(b, ca, w).w.files, Complete(b, ca, w).w.next)
    decreases b, 1
  {
    hide LaidOut, Bundles, Consistent, Recorded, CertsConsistent, SubsConsistent, SubLoop, CertLoop, OnlySubs;
    hide OnlyCerts, AllReadable, WellNamed;
    var sh := BuilderShape(b);
    StartSubs(b, ca, w);
    assert SubsConsistent(Empty(b, ca), sh, w) by { NoSubsConsistent(b, ca, sh, w); }
    var _, _ := SignSubCAsConsistent(Empty(b, ca), b.subs, sh, w, w.files, w.next);
    var n1, w1 := SignSubCAsSound(Empty(b, ca), b.subs, sh, w, w.files, w.next);
    StartCerts(b, ca, w, n1, w1);
    CertsSurviveSubs(sh, ca, w, w1);
    SignCertificatesConsistent(n1, b.csrs, sh, w1, w.files, w.next);
    var n2, w2 := SignCertificatesSound(n1, b.csrs, sh, w1, w.files, w.next);
    LoopReadable(n1, sh, w1, w.files, w.next);
    BundlesSurviveCerts(sh, w1.files, w2.files);
    assert forall p :: p in b.bundlePaths ==> p in sh.bundles;
    assert forall p :: p in b.bundlePaths ==> Readable(w2.files, p) by { OwnReadable(sh, w2.files); }
    var n, w' := AddToBundlesSound(n2, b.bundlePaths, w2);
    PhasesConsistent(n1, sh, ca, w1, w2, w');
  }

  lemma LoopReadable(n: Node, sh: Shape, w: World, f0: map<Path, File>, lo: nat)
    requires SubLoop(n, [], sh, w, f0, lo)
    ensures AllReadable(w.files, Bundles(sh))
  {
  }

  lemma NoSubsConsistent(b: Builder, ca: Tls, sh: Shape, w: World)
    ensures SubsConsistent(Empty(b, ca), sh, w)
  {
  }

  lemma OwnReadable(sh: Shape, files: map<Path, File>)
    requires AllReadable(files, Bundles(sh))
    ensures forall p :: p in sh.bundles ==> Readable(files, p)
  {
  }

  /* ---- the chains builder ---- */

  lemma CompleteRootConsistent(b: Builder, w: World, n: Node, w': World)
    requires RootBuilder(b) && Ready(BuilderShape(b), w) && CompleteRoot(b, w) == Ok(n, w')
    ensures Consistent(BuilderShape(b), n.ca, w'.files, w'.next)
  {
    hide LaidOut, Bundles, NodeShape, Recorded, WellNamed, BuilderShape, Consistent, NothingFound, Nested, Sound;
    var sh := BuilderShape(b);
    EnsureCASound(b, w);
    var (ca, w1) := EnsureCA(b.caInfo.value, w);
    BuilderDir(b);
    CaReadable(sh, w.files, w1.files);
    var m, w2 := CompleteSound(b, ca, w1);
    CompleteConsistent(b, ca, w1);
  }

  /** A live tree in order on a consistent disk has only consistent leftovers. */
  lemma {:induction false} ConsistentLeftovers(s: Shape, n: Node, files: map<Path, File>, next: nat, q: Path, u: string)
    requires Covers(s, NodeShape(n)) && Sound(n, files, next) && Consistent(s, n.ca, files, next)
    requires Leftover(s, NodeShape(n), q, u)
    ensures LeftoverOk(s, n, q, u, files, next)
    decreases |q|
  {
    if q != [] {
      var k := q[0];
      NodeKeys(n);
      NodeSubShape(n, k);
      DirOf(n.subs[k]);
      assert SoundSub(n, k, files, next) && SubConsistent(s.subs[k], n.ca, files, next);
      ConsistentLeftovers(s.subs[k], n.subs[k], files, next, q[1..], u);
    }
  }

  lemma {:induction false} BundleListed(sh: Shape, at: Path, q: Path, r: Registration, regs: set<Registration>)
    requires SignerIn(sh, q) && r in regs && r.signer == at + q
    ensures r.bundle in Bundles(WithBundles(sh, at, regs))
    decreases |q|
  {
    var s := WithBundles(sh, at, regs);
    if q != [] {
      assert at + [q[0]] + q[1..] == at + q;
      BundleListed(sh.subs[q[0]], at + [q[0]], q[1..], r, regs);
      assert s.subs[q[0]] == WithBundles(sh.subs[q[0]], at + [q[0]], regs);
    } else {
      assert at + q == at;
      assert r.bundle in s.bundles;
    }
  }

  lemma RegistrationListed(b: Builder, regs: seq<Registration>, j: nat, cs: Chains, f: map<Path, File>)
    requires j < |regs| && RegistrationFor([b], regs[j], f) && TreesCompleted(cs, [b], Listing(regs), f)
    ensures b.name in cs && regs[j].bundle in Bundles(NodeShape(cs[b.name]))
  {
    hide NodeShape, Recorded, WithBundles, BuilderShape, Bundles, Within;
    var r := regs[j];
    assert TreeCompleted(cs, [b][0], Listing(regs), f) && r in Listing(regs);
    RecordedSigners(BuilderShape(b), f, r.signer[1..]);
    assert r.signer == [b.name] + r.signer[1..];
    BundleListed(Recorded(BuilderShape(b), f), [b.name], r.signer[1..], r, Listing(regs));
  }

  /** After Complete, whatever the disk holds for the tree is consistent with the live one. */
  lemma CompleteTracked(b: Builder, regs: seq<Registration>, w: World, cs: Chains, w': World)
    requires TopsReady([b], w) && TopsApart([b]) && RegistrationsFor([b], regs, w.files)
    requires b.caInfo.Some? && CompleteChains([b], regs, w) == COk(cs, w')
    ensures Tracked(BuilderShape(b), cs, b.name, w')
    ensures forall r :: r in regs ==> r.bundle in Bundles(NodeShape(cs[b.name]))
  {
    hide Intact, RegistrationFor, CompleteRoot, CompleteChains, Ready, BuilderShape, NodeShape, Recorded, RootBuilder;
    hide TreesCompleted;
    hide Consistent, Bundles, LaidOut, Covers, Healthy, LeftoversOk, Within, WithBundles;
    var s := BuilderShape(b);
    var n, w1, _, _ := CompleteSingle(b, regs, w);
    SingleTop(b, w);
    CompleteRootConsistent(b, w, n, w1);
    assert SameBelow(w1.files, w'.files, s) by {
      forall p | Within(s, p) ensures SameAt(w1.files, w'.files, p) {
        assert forall r :: r in Listing(regs) ==> r.bundle != p;
      }
    }
    ConsistentFrame(s, n.ca, w1.files, w'.files, w1.next, w'.next);
    TreeCovers(b, Listing(regs), cs, w.files);
    TrackedIntro(s, cs, b.name, w');
    forall r | r in regs ensures r.bundle in Bundles(NodeShape(cs[b.name])) {
      var j :| 0 <= j < |regs| && regs[j] == r;
      RegistrationAt([b], regs, j, w.files);
      RegistrationListed(b, regs, j, cs, w.files);
    }
  }

  lemma TreeCovers(b: Builder, regs: set<Registration>, cs: Chains, f: map<Path, File>)
    requires TreesCompleted(cs, [b], regs, f)
    ensures b.name in cs && NodeShape(cs[b.name]) == WithBundles(Recorded(BuilderShape(b), f), [b.name], regs)
    ensures Covers(BuilderShape(b), NodeShape(cs[b.name]))
  {
    hide NodeShape, Recorded, WithBundles, BuilderShape, Covers;
    assert TreeCompleted(cs, [b][0], regs, f);
    CompletedCovers(BuilderShape(b), f, [b.name], regs);
  }

  lemma TrackedIntro(s: Shape, cs: Chains, root: string, w: World)
    requires cs.Keys == {root} && Covers(s, NodeShape(cs[root])) && Consistent(s, cs[root].ca, w.files, w.next)
    requires Intact(cs, w)
    ensures Tracked(s, cs, root, w)
  {
    hide NodeShape, Covers, LeftoverOk, Consistent, RootOnDisk;
    assert RootHealthy(cs, root, w);
    HealthySound(cs[root], w);
    forall q, u | Leftover(s, NodeShape(cs[root]), q, u) ensures LeftoverOk(s, cs[root], q, u, w.files, w.next) {
      ConsistentLeftovers(s, cs[root], w.files, w.next, q, u);
    }
  }

  /** And then the next start finds what it needs. */
  lemma TrackedReady(s: Shape, cs: Chains, root: string, w: World)
    requires Intact(cs, w) && Tracked(s, cs, root, w)
    ensures RootConsistent(s, w.files, w.next) && AllReadable(w.files, Bundles(NodeShape(cs[root])))
  {
    hide NodeShape, Covers, LeftoversOk, Consistent, Sound, LaidOut;
    assert RootHealthy(cs, root, w);
    DirOf(cs[root]);
    assert s.dir == cs[root].dir by { CoversDir(s, NodeShape(cs[root])); }
    LeftoversConsistent(s, cs[root], w.files, w.next);
  }

  lemma CoversDir(s: Shape, r: Shape)
    requires Covers(s, r)
    ensures s.dir == r.dir
  {
  }
}
