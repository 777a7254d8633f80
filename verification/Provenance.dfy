/** What becomes of each certificate asked for when builders are completed: one the disk holds is kept, any other is
    issued now for the validity asked for. */
module Provenance {
  import opened Base
  import opened Pki
  import opened Tree
  import opened Layout
  import opened Completion
  import opened Chains
  import opened ChainSetup
  import opened Regeneration
  import opened Requests
  import opened Reusable

  /** The pair on disk stayed, or a missing one was issued at `now`. */
  ghost predicate Kept(before: Option<Tls>, after: Option<Tls>, lo: nat, now: int, days: int) {
    match before
    case Some(t) => after == Some(t)
    case None => after.Some? && Renewed(after.value.cert, lo, now, days)
  }

  ghost predicate LeafKept(csr: Csr, dir: Path, f: map<Path, File>, g: map<Path, File>, lo: nat, now: int) {
    Kept(GetLeaf(f, dir, csr), GetLeaf(g, dir, csr), lo, now, CsrDays(csr))
  }

  ghost predicate SubKept(sh: Shape, f: map<Path, File>, g: map<Path, File>, lo: nat, now: int)
    decreases sh, 1
  {
    Kept(GetSubCA(f, sh.dir), GetSubCA(g, sh.dir), lo, now, sh.days) && AllKept(sh, f, g, lo, now)
  }

  /** Every certificate asked for below the signer. */
  ghost predicate AllKept(sh: Shape, f: map<Path, File>, g: map<Path, File>, lo: nat, now: int)
    decreases sh, 0
  {
    && (forall k :: k in sh.csrs ==> LeafKept(sh.csrs[k], sh.dir, f, g, lo, now))
    && (forall k :: k in sh.subs ==> SubKept(sh.subs[k], f, g, lo, now))
  }

  /* ---- frames ---- */

  lemma {:induction false} AllKeptFrame(sh: Shape, f: map<Path, File>, f': map<Path, File>, g: map<Path, File>,
                                        g': map<Path, File>, hi: nat, lo: nat, now: int)
    requires LaidOut(sh) && SameBelow(f, f', sh) && SameBelow(g, g', sh) && lo <= hi && AllKept(sh, f, g, hi, now)
    ensures AllKept(sh, f', g', lo, now)
    decreases sh, 0
  {
    hide LaidOut, SameBelow, GetLeaf;
    forall k | k in sh.csrs ensures LeafKept(sh.csrs[k], sh.dir, f', g', lo, now) {
      SameLeaf(f, f', sh, sh.csrs[k]);
      SameLeaf(g, g', sh, sh.csrs[k]);
      assert LeafKept(sh.csrs[k], sh.dir, f, g, hi, now);
    }
    forall k | k in sh.subs ensures SubKept(sh.subs[k], f', g', lo, now) {
      SameBelowSubs(f, f', sh, k);
      SameBelowSubs(g, g', sh, k);
      SubLaidOut(sh, k);
      SubKeptFrame(sh.subs[k], f, f', g, g', hi, lo, now);
    }
  }

  lemma {:induction false} SubKeptFrame(sh: Shape, f: map<Path, File>, f': map<Path, File>, g: map<Path, File>,
                                        g': map<Path, File>, hi: nat, lo: nat, now: int)
    requires LaidOut(sh) && SameOn(f, f', sh) && SameOn(g, g', sh) && lo <= hi && SubKept(sh, f, g, hi, now)
    ensures SubKept(sh, f', g', lo, now)
    decreases sh, 1
  {
    hide LaidOut, GetSubCA;
    SameCA(f, f', sh);
    SameCA(g, g', sh);
    SameOnBelow(f, f', sh);
    SameOnBelow(g, g', sh);
    AllKeptFrame(sh, f, f', g, g', hi, lo, now);
  }

  /* ---- sub-CAs ---- */

  ghost predicate SubsKept(n: Node, sh: Shape, f0: map<Path, File>, w: World, lo: nat) {
    forall k :: k in n.subs ==> k in sh.subs && SubKept(sh.subs[k], f0, w.files, lo, w.now)
  }

  lemma {:induction false} SignSubCAKept(n: Node, b: Builder, sh: Shape, w: World)
    requires WellNamed(b) && LaidOut(sh) && b.name in sh.subs && BuilderShape(b) == sh.subs[b.name]
    requires SubConsistent(sh.subs[b.name], n.ca, w.files, w.next) && AllReadable(w.files, Bundles(sh.subs[b.name]))
    ensures SignSubCA(n, b, w).Ok? && SubKept(sh.subs[b.name], w.files, SignSubCA(n, b, w).w.files, w.next, w.now)
    decreases b, 2
  {
    hide LaidOut, Bundles, WellNamed, Consistent, NothingFound, AllReadable, AllKept, Within, CaFile, GetSubCA;
    var c := sh.subs[b.name];
    SubLaidOut(sh, b.name);
    EnsureSubCASound(n.ca, c, w);
    var (ca, w1) := EnsureSubCA(n.ca, b.name, b.dir, b.days, w);
    EnsuredReadable(n.ca, c, w, ca, w1);
    CompleteKept(b, ca, w1);
    var m, w2 := CompleteSound(b, ca, w1);
    SameCAFiles(c, w1.files, w2.files);
    assert SameBelow(w1.files, w.files, c);
    assert SameBelow(w2.files, w2.files, c);
    AllKeptFrame(c, w1.files, w.files, w2.files, w2.files, w1.next, w.next, w.now);
    EnsuredKept(n.ca, c, w);
  }

  lemma EnsuredKept(parent: Tls, c: Shape, w: World)
    requires LaidOut(c) && SubConsistent(c, parent, w.files, w.next)
    ensures Kept(GetSubCA(w.files, c.dir), GetSubCA(EnsureSubCA(parent, c.name, c.dir, c.days, w).1.files, c.dir),
                 w.next, w.now, c.days)
  {
    hide LaidOut, Consistent, NothingFound, GetTls;
    EnsureSubCASound(parent, c, w);
  }

  lemma {:induction false} SignSubCAsKept(n: Node, bs: seq<Builder>, sh: Shape, w: World, f0: map<Path, File>, lo: nat)
    returns (n': Node, w': World)
    requires LaidOut(sh) && SubLoop(n, bs, sh, w, f0, lo) && SubsKept(n, sh, f0, w, lo)
    ensures SignSubCAs(n, bs, w) == Ok(n', w') && SubsKept(n', sh, f0, w', lo)
    decreases bs, 0
  {
    hide LaidOut, SubKept, Untouched, SubLoop, SignSubCA;
    if bs == [] {
      n', w' := n, w;
    } else {
      var n1, w1 := FirstSub(n, bs, sh, w, f0, lo);
      FirstKept(n, bs, sh, w, f0, lo);
      NotYetSigned(n, bs, sh, w, f0, lo);
      forall j | j in n.subs ensures SubKept(sh.subs[j], f0, w1.files, lo, w1.now) {
        SiblingKept(sh, bs[0].name, j, w, w1, f0, lo);
      }
      n', w' := SignSubCAsKept(n1, bs[1..], sh, w1, f0, lo);
    }
  }

  lemma NotYetSigned(n: Node, bs: seq<Builder>, sh: Shape, w: World, f0: map<Path, File>, lo: nat)
    requires SubLoop(n, bs, sh, w, f0, lo) && bs != []
    ensures bs[0].name !in n.subs
  {
    assert bs[0].name in BuilderShapes(bs);
  }

  lemma SiblingKept(sh: Shape, k: string, j: string, w: World, w1: World, f0: map<Path, File>, lo: nat)
    requires LaidOut(sh) && k in sh.subs && j in sh.subs && j != k && Untouched(w.files, w1.files, sh.subs[k])
    requires SubKept(sh.subs[j], f0, w.files, lo, w.now)
    ensures SubKept(sh.subs[j], f0, w1.files, lo, w.now)
  {
    hide LaidOut, SubKept, Untouched;
    SiblingSame(sh, k, j, w.files, w1.files);
    SubLaidOut(sh, j);
    SameOnSelf(f0, sh.subs[j]);
    SubKeptFrame(sh.subs[j], f0, f0, w.files, w1.files, lo, lo, w.now);
  }

  lemma SameOnSelf(f: map<Path, File>, sh: Shape)
    ensures SameOn(f, f, sh)
  {
  }

  lemma {:induction false} FirstKept(n: Node, bs: seq<Builder>, sh: Shape, w: World, f0: map<Path, File>, lo: nat)
    requires LaidOut(sh) && SubLoop(n, bs, sh, w, f0, lo) && bs != []
    ensures SignSubCA(n, bs[0], w).Ok? && bs[0].name in sh.subs
    ensures SubKept(sh.subs[bs[0].name], f0, SignSubCA(n, bs[0], w).w.files, lo, w.now)
    decreases bs[0], 3
  {
    hide LaidOut, Bundles, SubConsistent, SubKept, Within;
    var c := sh.subs[bs[0].name];
    SubWithin(sh, bs[0].name);
    SignSubCAKept(n, bs[0], sh, w);
    var o := SignSubCA(n, bs[0], w);
    SubLaidOut(sh, bs[0].name);
    assert SameOn(w.files, f0, c);
    SameOnSelf(o.w.files, c);
    SubKeptFrame(c, w.files, f0, o.w.files, o.w.files, w.next, lo, w.now);
  }

  /* ---- certificates ---- */

  ghost predicate LeavesKept(sh: Shape, todo: set<string>, f0: map<Path, File>, w: World, lo: nat) {
    forall k :: k in sh.csrs && k !in todo ==> LeafKept(sh.csrs[k], sh.dir, f0, w.files, lo, w.now)
  }

  lemma SignedKept(n: Node, csr: Csr, w: World)
    ensures var w1 := SignCertificate(n, csr, w).1;
            && OnlyLeaf(w.files, w1.files, n.dir, csr.name) && w1.now == w.now
            && Kept(GetLeaf(w.files, n.dir, csr), GetLeaf(w1.files, n.dir, csr), w.next, w.now, CsrDays(csr))
  {
    hide GetLeaf, LeafCertPath, LeafKeyPath;
    LeafPathsInDir(n.dir, csr);
    LeafReadBack(w.files, n.dir, csr, n.ca, w);
  }

  lemma KeptSince(before: Option<Tls>, after: Option<Tls>, hi: nat, lo: nat, now: int, days: int)
    requires Kept(before, after, hi, now, days) && lo <= hi
    ensures Kept(before, after, lo, now, days)
  {
  }

  lemma OneCertKept(n: Node, csrs: seq<Csr>, sh: Shape, w: World, f0: map<Path, File>, lo: nat)
    requires LaidOut(sh) && CertLoop(n, csrs, sh, w, f0, lo) && csrs != []
    requires LeavesKept(sh, CsrsByName(csrs).Keys, f0, w, lo)
    ensures LeavesKept(sh, CsrsByName(csrs[1..]).Keys, f0, SignCertificate(n, csrs[0], w).1, lo)
  {
    hide LaidOut, CertLoop, SignCertificate, GetLeaf, Kept, OnlyLeaf, CsrsByName;
    var csr := csrs[0];
    var (n1, w1) := SignCertificate(n, csr, w);
    NextCsr(n, csrs, sh, w, f0, lo);
    SignedKept(n, csr, w);
    KeptSince(GetLeaf(f0, sh.dir, csr), GetLeaf(w1.files, sh.dir, csr), w.next, lo, w.now, CsrDays(csr));
    forall k | k in sh.csrs && k !in CsrsByName(csrs[1..])
      ensures LeafKept(sh.csrs[k], sh.dir, f0, w1.files, lo, w1.now)
    {
      if k != csr.name {
        CsrName(sh, k);
        OtherLeafSame(sh.dir, csr.name, sh.csrs[k], w.files, w1.files);
        assert LeafKept(sh.csrs[k], sh.dir, f0, w.files, lo, w.now);
      }
    }
  }

  lemma {:induction false} SignCertificatesKept(n: Node, csrs: seq<Csr>, sh: Shape, w: World, f0: map<Path, File>,
                                                lo: nat)
    requires LaidOut(sh) && CertLoop(n, csrs, sh, w, f0, lo) && LeavesKept(sh, CsrsByName(csrs).Keys, f0, w, lo)
    ensures LeavesKept(sh, {}, f0, SignCertificates(n, csrs, w).1, lo)
    decreases |csrs|
  {
    if csrs != [] {
      hide LaidOut, LeavesKept, SignCertificate, PartlySound, CertsOnDisk, CertsSoFar, OnlyLeaf, CertLoop;
      var n1, w1 := FirstCert(n, csrs, sh, w, f0, lo);
      OneCertKept(n, csrs, sh, w, f0, lo);
      SignCertificatesKept(n1, csrs[1..], sh, w1, f0, lo);
    } else {
      assert CsrsByName(csrs).Keys == {};
    }
  }

  lemma NoLeavesYet(b: Builder, f0: map<Path, File>, w: World, lo: nat)
    ensures LeavesKept(BuilderShape(b), CsrsByName(b.csrs).Keys, f0, w, lo)
  {
  }

  /* ---- the whole builder ---- */

  /** From the phases of a completion to the whole. */
  lemma PhasesKept(n1: Node, sh: Shape, f0: map<Path, File>, w1: World, w2: World, w': World, lo: nat)
    requires LaidOut(sh) && SubsKept(n1, sh, f0, w1, lo) && n1.subs.Keys == sh.subs.Keys
    requires OnlyCerts(w1.files, w2.files, sh) && w1.now == w2.now == w'.now && LeavesKept(sh, {}, f0, w2, lo)
    requires forall p :: p !in sh.bundles ==> SameAt(w2.files, w'.files, p)
    ensures AllKept(sh, f0, w'.files, lo, w'.now)
  {
    hide LaidOut, SubKept, Within, GetLeaf, OnlyCerts;
    BundlesElsewhere(sh, w2.files, w'.files);
    SameOnBelow(w2.files, w'.files, sh);
    forall k | k in sh.csrs ensures LeafKept(sh.csrs[k], sh.dir, f0, w'.files, lo, w'.now) {
      SameLeaf(w2.files, w'.files, sh, sh.csrs[k]);
      assert LeafKept(sh.csrs[k], sh.dir, f0, w2.files, lo, w2.now);
    }
    forall k | k in sh.subs ensures SubKept(sh.subs[k], f0, w'.files, lo, w'.now) {
      SubLaidOut(sh, k);
      SubSameAfterCerts(sh, k, w1.files, w2.files, w'.files);
      SameOnSelf(f0, sh.subs[k]);
      SubKeptFrame(sh.subs[k], f0, f0, w1.files, w'.files, lo, lo, w1.now);
    }
  }

  /** Completing a builder keeps every certificate the disk holds for it and issues every other one now. */
  lemma {:induction false} CompleteKept(b: Builder, ca: Tls, w: World)
    requires WellNamed(b) && LaidOut(BuilderShape(b)) && Consistent(BuilderShape(b), ca, w.files, w.next)
    requires AllReadable(w.files, Bundles(BuilderShape(b)))
    ensures Complete(b, ca, w).Ok? && AllKept(BuilderShape(b), w.files, Complete(b, ca, w).w.files, w.next, w.now)
    decreases b, 1
  {
    hide LaidOut, Bundles, Consistent, Recorded, LeavesKept, SubsKept, SubLoop, CertLoop, OnlySubs, OnlyCerts;
    hide AllReadable, WellNamed, AllKept;
    var sh := BuilderShape(b);
    StartSubs(b, ca, w);
    assert SubsKept(Empty(b, ca), sh, w.files, w, w.next) by { NoSubsKept(b, ca, sh, w); }
    var _, _ := SignSubCAsKept(Empty(b, ca), b.subs, sh, w, w.files, w.next);
    var n1, w1 := SignSubCAsSound(Empty(b, ca), b.subs, sh, w, w.files, w.next);
    StartCerts(b, ca, w, n1, w1);
    NoLeavesYet(b, w.files, w1, w.next);
    SignCertificatesKept(n1, b.csrs, sh, w1, w.files, w.next);
    var n2, w2 := SignCertificatesSound(n1, b.csrs, sh, w1, w.files, w.next);
    LoopReadable(n1, sh, w1, w.files, w.next);
    BundlesSurviveCerts(sh, w1.files, w2.files);
    assert forall p :: p in b.bundlePaths ==> p in sh.bundles;
    assert forall p :: p in b.bundlePaths ==> Readable(w2.files, p) by { OwnReadable(sh, w2.files); }
    var n, w' := AddToBundlesSound(n2, b.bundlePaths, w2);
    PhasesKept(n1, sh, w.files, w1, w2, w', w.next);
  }

  lemma NoSubsKept(b: Builder, ca: Tls, sh: Shape, w: World)
    ensures SubsKept(Empty(b, ca), sh, w.files, w, w.next)
  {
  }

  /* ---- the chains builder ---- */

  /** A root that was not there is made in the name of its CAInfo. */
  ghost predicate RootNamed(b: Builder, f: map<Path, File>, g: map<Path, File>)
    requires b.caInfo.Some?
  {
    GetRoot(f, b.dir) == None ==>
      GetRoot(g, b.dir).Some? && GetRoot(g, b.dir).value.cert.subject == Name(b.caInfo.value.name, "", [])
  }

  /** The root included. */
  ghost predicate TreeKept(b: Builder, f: map<Path, File>, g: map<Path, File>, lo: nat, now: int)
    requires b.caInfo.Some?
  {
    && Kept(GetRoot(f, b.dir), GetRoot(g, b.dir), lo, now, CADays(b.caInfo.value.days))
    && RootNamed(b, f, g) && AllKept(BuilderShape(b), f, g, lo, now)
  }

  lemma RootKept(b: Builder, w: World)
    requires RootBuilder(b) && Ready(BuilderShape(b), w)
    ensures var (ca, w1) := EnsureCA(b.caInfo.value, w);
            && Kept(GetRoot(w.files, b.dir), GetRoot(w1.files, b.dir), w.next, w.now, CADays(b.caInfo.value.days))
            && RootNamed(b, w.files, w1.files)
  {
    hide LaidOut, Consistent, NothingFound, WellNamed, GetTls, BuilderShape;
    EnsureCASound(b, w);
  }

  lemma CompleteRootKept(b: Builder, w: World, n: Node, w': World)
    requires RootBuilder(b) && Ready(BuilderShape(b), w) && CompleteRoot(b, w) == Ok(n, w')
    ensures TreeKept(b, w.files, w'.files, w.next, w.now)
  {
    hide LaidOut, Bundles, NodeShape, Recorded, WellNamed, BuilderShape, Consistent, NothingFound, Nested, Sound;
    hide AllKept, Within;
    var sh := BuilderShape(b);
    EnsureCASound(b, w);
    RootKept(b, w);
    var (ca, w1) := EnsureCA(b.caInfo.value, w);
    BuilderDir(b);
    CaReadable(sh, w.files, w1.files);
    var m, w2 := CompleteSound(b, ca, w1);
    CompleteKept(b, ca, w1);
    SameRoot(sh.dir, w1.files, w2.files);
    assert SameBelow(w1.files, w.files, sh) && SameBelow(w2.files, w2.files, sh);
    AllKeptFrame(sh, w1.files, w.files, w2.files, w2.files, w1.next, w.next, w.now);
  }

  lemma SameRoot(dir: Path, f: map<Path, File>, g: map<Path, File>)
    requires forall p :: CaFile(dir, p) ==> SameAt(f, g, p)
    ensures GetRoot(f, dir) == GetRoot(g, dir)
  {
    assert SameAt(f, g, CACertPath(dir)) && SameAt(f, g, CAKeyPath(dir)) && SameAt(f, g, CASerialsPath(dir));
  }

  /** Completing a chains builder with one root keeps every certificate the disk holds for it and issues every other one
      now; the registrations change no certificate. */
  lemma CompleteChainsKept(b: Builder, regs: seq<Registration>, w: World, cs: Chains, w': World)
    requires TopsReady([b], w) && TopsApart([b]) && RegistrationsFor([b], regs, w.files)
    requires b.caInfo.Some? && CompleteChains([b], regs, w) == COk(cs, w')
    ensures TreeKept(b, w.files, w'.files, w.next, w.now)
  {
    hide RegistrationFor, CompleteRoot, CompleteChains, Ready, BuilderShape, NodeShape, RootBuilder, TreesCompleted;
    hide AllKept, LaidOut;
    hide Bundles, Recorded, Within, GetRoot;
    var sh := BuilderShape(b);
    var n, w1, _, _ := CompleteSingle(b, regs, w);
    SingleTop(b, w);
    CompleteRootKept(b, w, n, w1);
    assert SameOn(w1.files, w'.files, sh) by {
      forall p | Within(sh, p) ensures SameAt(w1.files, w'.files, p) {
        assert forall r :: r in Listing(regs) ==> r.bundle != p;
      }
    }
    BuilderDir(b);
    forall p | CaFile(sh.dir, p) ensures SameAt(w1.files, w'.files, p) {
      CaFilesWithin(sh, p);
    }
    SameRoot(sh.dir, w1.files, w'.files);
    SameOnBelow(w1.files, w'.files, sh);
    assert SameBelow(w.files, w.files, sh);
    AllKeptFrame(sh, w.files, w.files, w1.files, w'.files, w.next, w.next, w.now);
  }

  /** Request by request. */
  lemma {:induction false} KeptAt(sh: Shape, q: Path, f: map<Path, File>, g: map<Path, File>, lo: nat, now: int)
    requires AllKept(sh, f, g, lo, now) && q != [] && Resolves(sh, q)
    ensures Kept(HeldBelow(sh, q, f), HeldBelow(sh, q, g), lo, now, DaysAt(sh, q))
    decreases |q|
  {
    if q[0] in sh.subs {
      assert SubKept(sh.subs[q[0]], f, g, lo, now);
      if |q| > 1 {
        KeptAt(sh.subs[q[0]], q[1..], f, g, lo, now);
      } else {
        SubKeptAt(sh, q[0], f, g, lo, now);
        assert q == [q[0]];
      }
    } else {
      LeafKeptAt(sh, q[0], f, g, lo, now);
      assert q == [q[0]];
    }
  }

  lemma HeldSub(sh: Shape, k: string, f: map<Path, File>)
    requires k in sh.subs
    ensures HeldBelow(sh, [k], f) == GetSubCA(f, sh.subs[k].dir)
  {
    assert [k][1..] == [];
  }

  lemma SubKeptAt(sh: Shape, k: string, f: map<Path, File>, g: map<Path, File>, lo: nat, now: int)
    requires AllKept(sh, f, g, lo, now) && k in sh.subs
    ensures Kept(HeldBelow(sh, [k], f), HeldBelow(sh, [k], g), lo, now, DaysAt(sh, [k]))
  {
    hide GetSubCA, Renewed, AllKept;
    SubAllKept(sh, k, f, g, lo, now);
    assert [k][1..] == [] && DaysAt(sh.subs[k], []) == sh.subs[k].days;
    assert DaysAt(sh, [k]) == sh.subs[k].days;
    HeldSub(sh, k, f);
    HeldSub(sh, k, g);
  }

  lemma SubAllKept(sh: Shape, k: string, f: map<Path, File>, g: map<Path, File>, lo: nat, now: int)
    requires AllKept(sh, f, g, lo, now) && k in sh.subs
    ensures SubKept(sh.subs[k], f, g, lo, now)
  {
  }

  lemma LeafKeptAt(sh: Shape, k: string, f: map<Path, File>, g: map<Path, File>, lo: nat, now: int)
    requires AllKept(sh, f, g, lo, now) && k in sh.csrs && k !in sh.subs
    ensures Kept(HeldBelow(sh, [k], f), HeldBelow(sh, [k], g), lo, now, DaysAt(sh, [k]))
  {
    hide GetLeaf, Renewed;
    assert LeafKept(sh.csrs[k], sh.dir, f, g, lo, now);
    assert DaysAt(sh, [k]) == CsrDays(sh.csrs[k]);
  }
}
