/** Bundle freshness: after Complete and after every successful Regenerate each registered bundle holds the registering
    signer's current certificate, also when several signers share a bundle. */
module BundleFreshness {
  import opened Base
  import opened Pki
  import opened Tree
  import opened Layout
  import opened Completion
  import opened Renewal
  import opened Regeneration
  import opened BundleFiles

  /* ---- recorded shapes claim what the requested shape claims ---- */

  lemma {:induction false} RecordedClaims(sh: Shape, files: map<Path, File>, subject: Name, issuer: Name)
    ensures ClaimsAs(Recorded(sh, files), subject, issuer) == ClaimsAs(sh, subject, issuer)
    decreases sh
  {
    var r := Recorded(sh, files);
    forall k | k in sh.subs ensures Claims(r.subs[k], subject) == Claims(sh.subs[k], subject) {
      RecordedClaims(sh.subs[k], files, CN(sh.subs[k].name), subject);
    }
    assert SubClaims(r, subject) == SubClaims(sh, subject);
    assert OwnClaims(r, subject, issuer) == OwnClaims(sh, subject, issuer);
  }

  /** All that completing a builder does to bundles. */
  ghost predicate BundlesDone(n: Node, sh: Shape, ca: Tls, w: World, w': World) {
    BundlesFresh(n, w'.files) && KeepsOthers(w.files, w'.files, sh, ClaimsAs(sh, ca.cert.subject, ca.cert.issuerName))
  }

  ghost predicate SubsBundlesFresh(n: Node, f: map<Path, File>) {
    forall k :: k in n.subs ==> BundlesFresh(n.subs[k], f)
  }

  /** A sub-CA's bundles, and those of its siblings, once the sub-CA has been signed. */
  lemma {:induction false} SignSubCABundles(n: Node, b: Builder, sh: Shape, w: World)
    requires WellNamed(b) && LaidOut(sh) && b.name in sh.subs && BuilderShape(b) == sh.subs[b.name]
    requires SubConsistent(sh.subs[b.name], n.ca, w.files, w.next)
    requires AllReadable(w.files, Bundles(sh.subs[b.name])) && SubsNoClash(sh, n.ca.cert.subject)
    ensures SignSubCA(n, b, w).Ok? && b.name in SignSubCA(n, b, w).node.subs
    ensures BundlesFresh(SignSubCA(n, b, w).node.subs[b.name], SignSubCA(n, b, w).w.files)
    ensures KeepsOthers(w.files, SignSubCA(n, b, w).w.files, sh.subs[b.name],
                        Claims(sh.subs[b.name], n.ca.cert.subject))
    decreases b, 2
  {
    hide LaidOut, Bundles, WellNamed, BundlesFresh, ClaimsAs, SubClaims, NoClashAs, Recorded;
    var c := sh.subs[b.name];
    SubLaidOut(sh, b.name);
    EnsureSubCASound(n.ca, c, w);
    var (ca, w1) := EnsureSubCA(n.ca, b.name, b.dir, b.days, w);
    EnsuredReadable(n.ca, c, w, ca, w1);
    CompleteBundles(b, ca, w1);
    CaWritesKeep(c, w.files, w1.files);
    KeepsTwice(w.files, w1.files, Complete(b, ca, w1).w.files, c, {}, Claims(c, n.ca.cert.subject));
    assert {} + Claims(c, n.ca.cert.subject) == Claims(c, n.ca.cert.subject);
    CompletedName(b, ca, w1);
  }

  lemma CompletedName(b: Builder, ca: Tls, w: World)
    requires WellNamed(b) && LaidOut(BuilderShape(b)) && Consistent(BuilderShape(b), ca, w.files, w.next)
    requires AllReadable(w.files, Bundles(BuilderShape(b)))
    ensures Complete(b, ca, w).Ok? && Complete(b, ca, w).node.name == b.name
  {
    var n, _ := CompleteSound(b, ca, w);
    assert NodeShape(n).name == b.name;
  }

  lemma CaWritesKeep(c: Shape, f: map<Path, File>, g: map<Path, File>)
    requires forall p :: !CaFile(c.dir, p) ==> SameAt(f, g, p)
    ensures KeepsOthers(f, g, c, {})
  {
    forall p | !Within(c, p) ensures SameAt(f, g, p) {
      if CaFile(c.dir, p) {
        CaFilesWithin(c, p);
      }
    }
    KeepsSame(f, g, c);
  }

  /** Sibling sub-CAs keep their bundles fresh. */
  lemma SiblingsFresh(n: Node, sh: Shape, k: string, w: World, w': World, f0: map<Path, File>, lo: nat)
    requires LaidOut(sh) && SubsSoFar(n, sh, f0, lo, w.now) && k in sh.subs && k !in n.subs
    requires SubsNoClash(sh, n.ca.cert.subject) && PartlySound(n, w.files, w.next, n.subs.Keys, {})
    requires SubsBundlesFresh(n, w.files)
    requires KeepsOthers(w.files, w'.files, sh.subs[k], Claims(sh.subs[k], n.ca.cert.subject))
    ensures SubsBundlesFresh(n, w'.files)
  {
    hide BundlesFresh, ClaimsAs, SubClaims, NoClashAs, Recorded, Sound, KeepsOthers, Fresh;
    forall j | j in n.subs ensures BundlesFresh(n.subs[j], w'.files) {
      var c := n.subs[j];
      assert SubRecorded(c, sh.subs[j], f0, lo, w.now) && SoundSub(n, j, w.files, w.next);
      SoundNamed(c, w.files, w.next);
      RecordedClaims(sh.subs[j], f0, CN(sh.subs[j].name), n.ca.cert.subject);
      SiblingClaims(c, sh, j, f0, n.ca.cert.subject);
      SiblingBundles(c, sh, j, k, f0);
      FreshKept(c, w.files, w'.files, sh.subs[k], Claims(sh.subs[k], n.ca.cert.subject));
    }
  }

  lemma SiblingClaims(c: Node, sh: Shape, j: string, f0: map<Path, File>, subject: Name)
    requires j in sh.subs && NodeShape(c) == Recorded(sh.subs[j], f0)
    requires c.ca.cert.subject == CN(c.name) && c.ca.cert.issuerName == subject
    ensures NodeClaims(c) == Claims(sh.subs[j], subject)
  {
    hide ClaimsAs;
    DirOf(c);
    RecordedName(sh.subs[j], f0);
    RecordedClaims(sh.subs[j], f0, CN(sh.subs[j].name), subject);
  }

  lemma SiblingBundles(c: Node, sh: Shape, j: string, k: string, f0: map<Path, File>)
    requires LaidOut(sh) && j in sh.subs && k in sh.subs && NodeShape(c) == Recorded(sh.subs[j], f0)
    ensures forall p :: p in Bundles(NodeShape(c)) ==> !Within(sh.subs[k], p)
  {
    hide Recorded;
    RecordedBundles(sh.subs[j], f0);
    SubWithin(sh, j);
    SubWithin(sh, k);
  }

  lemma {:induction false} SignSubCAsBundles(n: Node, bs: seq<Builder>, sh: Shape, w: World, f0: map<Path, File>,
                                             lo: nat)
    returns (n': Node, w': World)
    requires LaidOut(sh) && SubLoop(n, bs, sh, w, f0, lo) && SubsNoClash(sh, n.ca.cert.subject)
    requires SubsBundlesFresh(n, w.files)
    ensures SignSubCAs(n, bs, w) == Ok(n', w')
    ensures SubsBundlesFresh(n', w'.files) && KeepsOthers(w.files, w'.files, sh, SubClaims(sh, n.ca.cert.subject))
    decreases bs, 0
  {
    if bs == [] {
      n', w' := n, w;
      KeepsSame(w.files, w.files, sh);
    } else {
      hide LaidOut, SubLoop, SubsBundlesFresh, SubClaims, Claims, SubsNoClash, KeepsOthers, Untouched, SignSubCA;
      hide BuilderShapes;
      var k, subject := bs[0].name, n.ca.cert.subject;
      FirstSubBundles(n, bs, sh, w, f0, lo);
      var n1, w1 := FirstSub(n, bs, sh, w, f0, lo);
      n', w' := SignSubCAsBundles(n1, bs[1..], sh, w1, f0, lo);
      KeepsStep(w.files, w1.files, w'.files, sh, k, subject);
    }
  }

  lemma KeepsStep(f: map<Path, File>, g: map<Path, File>, h: map<Path, File>, sh: Shape, k: string, subject: Name)
    requires k in sh.subs && KeepsOthers(f, g, sh.subs[k], Claims(sh.subs[k], subject))
    requires KeepsOthers(g, h, sh, SubClaims(sh, subject))
    ensures KeepsOthers(f, h, sh, SubClaims(sh, subject))
  {
  }

  lemma {:induction false} FirstSubBundles(n: Node, bs: seq<Builder>, sh: Shape, w: World, f0: map<Path, File>, lo: nat)
    requires LaidOut(sh) && SubLoop(n, bs, sh, w, f0, lo) && SubsNoClash(sh, n.ca.cert.subject)
    requires SubsBundlesFresh(n, w.files)
    requires bs != []
    ensures SignSubCA(n, bs[0], w).Ok? && bs[0].name in sh.subs
    ensures SubsBundlesFresh(SignSubCA(n, bs[0], w).node, SignSubCA(n, bs[0], w).w.files)
    ensures KeepsOthers(w.files, SignSubCA(n, bs[0], w).w.files, sh.subs[bs[0].name],
                        Claims(sh.subs[bs[0].name], n.ca.cert.subject))
    decreases bs[0], 3
  {
    hide LaidOut, Bundles, BundlesFresh, ClaimsAs, SubsNoClash, KeepsOthers, Untouched, SignSubCA, SubsSoFar;
    hide PartlySound;
    var k := bs[0].name;
    SubWithin(sh, k);
    SignSubCABundles(n, bs[0], sh, w);
    var n1, w1 := FirstSub(n, bs, sh, w, f0, lo);
    SiblingsFresh(n, sh, k, w, w1, f0, lo);
  }

  lemma {:induction false} CompleteBundles(b: Builder, ca: Tls, w: World)
    requires WellNamed(b) && LaidOut(BuilderShape(b)) && Consistent(BuilderShape(b), ca, w.files, w.next)
    requires AllReadable(w.files, Bundles(BuilderShape(b)))
    requires NoClashAs(BuilderShape(b), ca.cert.subject, ca.cert.issuerName)
    ensures Complete(b, ca, w).Ok?
    ensures BundlesDone(Complete(b, ca, w).node, BuilderShape(b), ca, w, Complete(b, ca, w).w)
    decreases b, 1
  {
    hide LaidOut, Bundles, BundlesFresh, SubClaims, Recorded, SubsNoClash, KeepsOthers, Consistent;
    var sh, subject, issuer := BuilderShape(b), ca.cert.subject, ca.cert.issuerName;
    StartSubs(b, ca, w);
    var _, _ := SignSubCAsBundles(Empty(b, ca), b.subs, sh, w, w.files, w.next);
    var n1, w1 := SignSubCAsSound(Empty(b, ca), b.subs, sh, w, w.files, w.next);
    StartCerts(b, ca, w, n1, w1);
    var n2, w2 := SignCertificatesSound(n1, b.csrs, sh, w1, w.files, w.next);
    BundlesSurviveCerts(sh, w1.files, w2.files);
    CertWritesKeep(sh, w1.files, w2.files);
    OwnBundles(b, ca, w1, n1, n2, w2, w.files, w.next);
    KeepsTwice(w.files, w1.files, w2.files, sh, SubClaims(sh, subject), {});
    KeepsTwice(w.files, w2.files, Complete(b, ca, w).w.files, sh, SubClaims(sh, subject) + {},
               OwnClaims(sh, subject, issuer));
    assert SubClaims(sh, subject) + {} + OwnClaims(sh, subject, issuer) == ClaimsAs(sh, subject, issuer);
  }

  lemma CertWritesKeep(sh: Shape, f: map<Path, File>, g: map<Path, File>)
    requires OnlyCerts(f, g, sh)
    ensures KeepsOthers(f, g, sh, {})
  {
    forall p | !Within(sh, p) ensures SameAt(f, g, p) {
      forall k | k in sh.csrs ensures !(LeafDir(sh.dir, k) <= p) {
        assert sh.dir <= LeafDir(sh.dir, k);
      }
    }
    KeepsSame(f, g, sh);
  }

  /** The last phase: the signer registers itself, its sub-CAs' bundles staying fresh. */
  lemma OwnBundles(b: Builder, ca: Tls, w1: World, n1: Node, n2: Node, w2: World, f0: map<Path, File>, lo: nat)
    requires LaidOut(BuilderShape(b)) && NoClashAs(BuilderShape(b), ca.cert.subject, ca.cert.issuerName)
    requires SubLoop(n1, [], BuilderShape(b), w1, f0, lo) && SubsBundlesFresh(n1, w1.files) && n1.ca == ca
    requires n1.bundles == {}
    requires n2 == n1.(leaves := n2.leaves) && KeepsOthers(w1.files, w2.files, BuilderShape(b), {})
    requires AllReadable(w2.files, Bundles(BuilderShape(b)))
    ensures AddToBundles(n2, b.bundlePaths, w2).Ok?
    ensures BundlesFresh(AddToBundles(n2, b.bundlePaths, w2).node, AddToBundles(n2, b.bundlePaths, w2).w.files)
    ensures KeepsOthers(w2.files, AddToBundles(n2, b.bundlePaths, w2).w.files, BuilderShape(b),
                        OwnClaims(BuilderShape(b), ca.cert.subject, ca.cert.issuerName))
  {
    hide LaidOut, SubLoop, NoClashAs, AddToBundles;
    var sh := BuilderShape(b);
    var own := OwnClaims(sh, ca.cert.subject, ca.cert.issuerName);
    assert forall p :: p in b.bundlePaths ==> p in sh.bundles;
    var n', w' := AddToBundlesSound(n2, b.bundlePaths, w2);
    AddToBundlesHolds(n2, b.bundlePaths, w2);
    RegistrationKeeps(n2, sh, w2, w', b.bundlePaths, own);
    KeepsTwice(w1.files, w2.files, w'.files, sh, {}, own);
    assert {} + own == own;
    forall j | j in n1.subs ensures BundlesFresh(n1.subs[j], w'.files) {
      SubStaysFresh(n1, j, sh, w1, w', f0, lo, ca.cert.issuerName);
    }
  }

  lemma RegistrationKeeps(n: Node, sh: Shape, w: World, w': World, ps: seq<Path>, own: set<Claim>)
    requires forall p :: p in ps ==> p in sh.bundles
    requires own == OwnClaims(sh, n.ca.cert.subject, n.ca.cert.issuerName)
    requires forall p, c :: Holds(w.files, p, c) && (p !in ps || KeyOf(c) != KeyOf(n.ca.cert) || c == n.ca.cert) ==>
                 Holds(w'.files, p, c)
    ensures KeepsOthers(w.files, w'.files, sh, own)
  {
  }

  lemma SubStaysFresh(n: Node, j: string, sh: Shape, w: World, w': World, f0: map<Path, File>, lo: nat, issuer: Name)
    requires LaidOut(sh) && NoClashAs(sh, n.ca.cert.subject, issuer) && j in n.subs
    requires SubLoop(n, [], sh, w, f0, lo) && BundlesFresh(n.subs[j], w.files)
    requires KeepsOthers(w.files, w'.files, sh, OwnClaims(sh, n.ca.cert.subject, issuer))
    ensures BundlesFresh(n.subs[j], w'.files)
  {
    hide BundlesFresh, ClaimsAs, SubClaims, Recorded, Sound, KeepsOthers, Fresh, Bundles, OwnClaims;
    var c := n.subs[j];
    assert SubRecorded(c, sh.subs[j], f0, lo, w.now) && SoundSub(n, j, w.files, w.next);
    SoundNamed(c, w.files, w.next);
    SiblingClaims(c, sh, j, f0, n.ca.cert.subject);
    SubClaimsOf(sh, j, n.ca.cert.subject);
    RecordedBundles(sh.subs[j], f0);
    SubWithin(sh, j);
    FreshKept(c, w.files, w'.files, sh, OwnClaims(sh, n.ca.cert.subject, issuer));
  }

  /* ---- renewal ---- */

  /** The signer's own bundles and those of the sub-CAs in `ks` are fresh. */
  ghost predicate PartlyFresh(n: Node, f: map<Path, File>, ks: set<string>) {
    && ks <= n.subs.Keys
    && (forall p :: p in n.bundles ==> Holds(f, p, n.ca.cert))
    && (forall k :: k in ks ==> BundlesFresh(n.subs[k], f))
  }

  /** One sub-CA rewrote the entries it claims: everyone else's are still there. */
  lemma OthersStayFresh(n: Node, k: string, w: World, w': World, ks: set<string>)
    requires LaidOut(NodeShape(n)) && NoClashAs(NodeShape(n), n.ca.cert.subject, n.ca.cert.issuerName)
    requires k in n.subs && k !in ks && PartlyFresh(n, w.files, ks) && PartlySound(n, w.files, w.next, ks, {})
    requires KeepsOthers(w.files, w'.files, NodeShape(n).subs[k], Claims(NodeShape(n).subs[k], n.ca.cert.subject))
    ensures PartlyFresh(n, w'.files, ks)
  {
    hide BundlesFresh, ClaimsAs, SubClaims, Sound;
    var sh, subject := NodeShape(n), n.ca.cert.subject;
    SubWithin(sh, k);
    SubClaimsOf(sh, k, subject);
    forall p | p in n.bundles ensures Holds(w'.files, p, n.ca.cert) {
      assert p in Bundles(sh);
      assert Claim(p, KeyOf(n.ca.cert)) in OwnClaims(sh, subject, n.ca.cert.issuerName);
    }
    forall j | j in ks ensures BundlesFresh(n.subs[j], w'.files) {
      OtherStaysFresh(n, j, k, w, w');
    }
  }

  lemma OtherStaysFresh(n: Node, j: string, k: string, w: World, w': World)
    requires LaidOut(NodeShape(n)) && NoClashAs(NodeShape(n), n.ca.cert.subject, n.ca.cert.issuerName)
    requires k in n.subs && j in n.subs && j != k && BundlesFresh(n.subs[j], w.files) && SoundSub(n, j, w.files, w.next)
    requires KeepsOthers(w.files, w'.files, NodeShape(n).subs[k], Claims(NodeShape(n).subs[k], n.ca.cert.subject))
    ensures BundlesFresh(n.subs[j], w'.files)
  {
    hide BundlesFresh, ClaimsAs, SubClaims, Sound, KeepsOthers, Bundles;
    var sh := NodeShape(n);
    NodeSubShape(n, j);
    SubWithin(sh, j);
    SubWithin(sh, k);
    SoundNamed(n.subs[j], w.files, w.next);
    DirOf(n.subs[j]);
    FreshKept(n.subs[j], w.files, w'.files, sh.subs[k], Claims(sh.subs[k], n.ca.cert.subject));
  }

  lemma RemovalKeeps(f: map<Path, File>, sh: Shape)
    ensures KeepsOthers(f, RemoveAll(f, sh.dir), sh, {})
  {
  }

  lemma RenewSubCABundles(n: Node, k: string, b: Builder, w: World, ks: set<string>)
    requires LaidOut(NodeShape(n)) && AllReadable(w.files, Bundles(NodeShape(n)))
    requires NoClashAs(NodeShape(n), n.ca.cert.subject, n.ca.cert.issuerName)
    requires k in n.subs && k !in ks && Rebuilds(b, n.subs[k]) && Under(NodeShape(n.subs[k]), n.subs[k].dir)
    requires PartlySound(n, w.files, w.next, ks, {}) && PartlyFresh(n, w.files, ks)
    ensures RenewSubCA(n, k, b, w).Ok?
    ensures PartlyFresh(RenewSubCA(n, k, b, w).node, RenewSubCA(n, k, b, w).w.files, ks + {k})
    ensures KeepsOthers(w.files, RenewSubCA(n, k, b, w).w.files, NodeShape(n).subs[k],
                        Claims(NodeShape(n).subs[k], n.ca.cert.subject))
  {
    hide LaidOut, Bundles, WellNamed, BundlesFresh, Claims, SubClaims, NothingFound, PartlySound, Fresh, KeepsOthers;
    var sh, subject := NodeShape(n), n.ca.cert.subject;
    var c := sh.subs[k];
    NodeSubShape(n, k);
    SubLaidOut(sh, k);
    SubWithin(sh, k);
    var w1 := w.(files := RemoveAll(w.files, c.dir));
    RemovedNothing(c, w.files, c.dir);
    RemovedReadable(w.files, c.dir, Bundles(sh));
    SignSubCABundles(n, b, sh, w1);
    var n', w' := RenewSubCASound(n, k, b, w, ks, {});
    RemovalKeeps(w.files, c);
    KeepsTwice(w.files, w1.files, w'.files, c, {}, Claims(c, subject));
    assert {} + Claims(c, subject) == Claims(c, subject);
    OthersStayFresh(n, k, w, w', ks);
  }

  ghost predicate BundlesRenewed(n: Node, n': Node, w: World, w': World) {
    BundlesFresh(n', w'.files) && KeepsOthers(w.files, w'.files, NodeShape(n), NodeClaims(n'))
  }

  lemma {:induction false} RenewSubCAsBundles(n: Node, names: seq<string>, bs: seq<Builder>, w: World,
                                              done: set<string>)
    returns (n': Node, w': World)
    requires LaidOut(NodeShape(n)) && AllReadable(w.files, Bundles(NodeShape(n))) && Rebuilders(n, names, bs)
    requires NoClashAs(NodeShape(n), n.ca.cert.subject, n.ca.cert.issuerName)
    requires done !! Elements(names) && PartlySound(n, w.files, w.next, done, {}) && PartlyFresh(n, w.files, done)
    ensures RenewSubCAs(n, names, bs, w) == Ok(n', w')
    ensures PartlyFresh(n', w'.files, done + Elements(names))
    ensures KeepsOthers(w.files, w'.files, NodeShape(n), SubClaims(NodeShape(n), n.ca.cert.subject))
    decreases |names|
  {
    var sh, subject := NodeShape(n), n.ca.cert.subject;
    if names == [] {
      n', w' := n, w;
      assert done + Elements(names) == done;
      KeepsSame(w.files, w.files, sh);
    } else {
      hide LaidOut, Bundles, Claims, SubClaims, NoClashAs, PartlySound, PartlyFresh, KeepsOthers, NodeShape, Rebuilds;
      hide Under, Untouched, Fresh, RenewSubCA;
      ElementsStep(names);
      assert Rebuilder(n, names[0], bs[0]);
      RenewSubCABundles(n, names[0], bs[0], w, done);
      var n1, w1 := RenewSubCASound(n, names[0], bs[0], w, done, {});
      RebuildersStep(n, n1, names, bs);
      n', w' := RenewSubCAsBundles(n1, names[1..], bs[1..], w1, done + {names[0]});
      assert done + {names[0]} + Elements(names[1..]) == done + Elements(names);
      NodeSubShape(n, names[0]);
      KeepsStep(w.files, w1.files, w'.files, sh, names[0], subject);
    }
  }

  /** regenerateSelf followed by the renewal of everything below: all bundles hold the new certificates. */
  lemma RenewAllBundles(n: Node, ch: Choices, w: World) returns (n': Node, w': World)
    requires LaidOut(NodeShape(n)) && AllReadable(w.files, Bundles(NodeShape(n)))
    requires forall k :: k in n.subs ==> Nested(NodeShape(n.subs[k]))
    requires n.ca.chain == [] && Possible(n, [], ch)
    requires NoClashAs(NodeShape(n), CN(n.name), CN(n.name))
    ensures RenewAll(n, ch, w) == Ok(n', w')
    ensures BundlesRenewed(n, n', w, w') && n'.ca.cert.subject == CN(n.name) && n'.ca.cert.issuerName == CN(n.name)
  {
    hide LaidOut, Bundles, NodeShape, RenewAll, PartlySound, PartlyFresh, BundlesRenewed, NoClashAs, KeepsOthers;
    hide OwnClaims, SubClaims;
    hide RenewSelf, RenewSubCAs, RenewCertificates, Untouched, Rebuilders, Elements, OnlySubs, OnlyCerts, RootOnDisk;
    hide Rebuilds, Nested, Sorted;
    var n1, w1, n2, w2;
    n1, w1, n2, w2, n', w' := RenewAllPhases(n, ch, w);
    SelfBundles(n, ch.bundleOrder, w, n1, w1);
    var _, _ := RenewSubCAsBundles(n1, Sorted(n.subs.Keys), ch.builders, w1, {});
    RootBundles(n, n1, n2, n', w, w1, w2, w');
  }

  lemma SelfBundles(n: Node, order: seq<Path>, w: World, n1: Node, w1: World)
    requires LaidOut(NodeShape(n)) && Enumerates(order, n.bundles) && RenewSelf(n, order, w) == Ok(n1, w1)
    requires n1 == n.(ca := n1.ca) && RootOnDisk(n1, w1.files, w1.next) && n1.ca.cert.subject == CN(n.name)
    ensures PartlyFresh(n1, w1.files, {}) && n1.ca.cert.issuerName == CN(n.name)
    ensures KeepsOthers(w.files, w1.files, NodeShape(n), OwnClaims(NodeShape(n), CN(n.name), CN(n.name)))
  {
    hide LaidOut, NodeShape;
    var sh := NodeShape(n);
    DirOf(n);
    var w0 := w.(files := RemoveAll(w.files, n.dir));
    var (ca, w') := EnsureCA(OwnCAInfo(n), w0);
    assert forall p :: !CaFile(n.dir, p) ==> SameAt(w0.files, w'.files, p);
    RemovalKeeps(w.files, sh);
    CaWritesKeep(sh, w0.files, w'.files);
    AddToBundlesHolds(n.(ca := ca), order, w');
    assert n1.ca == ca by { AddToBundlesKeepsCA(n.(ca := ca), order, w'); }
    RegistrationKeeps(n1, sh, w', w1, order, OwnClaims(sh, CN(n.name), CN(n.name)));
    KeepsTwice(w.files, w0.files, w'.files, sh, {}, {});
    KeepsTwice(w.files, w'.files, w1.files, sh, {} + {}, OwnClaims(sh, CN(n.name), CN(n.name)));
    assert {} + {} + OwnClaims(sh, CN(n.name), CN(n.name)) == OwnClaims(sh, CN(n.name), CN(n.name));
  }

  lemma {:induction false} AddToBundlesKeepsCA(n: Node, ps: seq<Path>, w: World)
    ensures AddToBundles(n, ps, w).Ok? ==> AddToBundles(n, ps, w).node.ca == n.ca
    decreases |ps|
  {
    if ps != [] && Readable(w.files, ps[0]) {
      AddToBundlesKeepsCA(n.(bundles := n.bundles + {ps[0]}), ps[1..],
                          w.(files := w.files[ps[0] := CertFile(Upsert(BundleAt(w.files, ps[0]), n.ca.cert))]));
    }
  }

  lemma RootBundles(n: Node, n1: Node, n2: Node, n': Node, w: World, w1: World, w2: World, w': World)
    requires LaidOut(NodeShape(n)) && n1 == n.(ca := n1.ca) && NodeShape(n1) == NodeShape(n)
    requires n1.ca.cert.subject == CN(n.name) && n1.ca.cert.issuerName == CN(n.name)
    requires KeepsOthers(w.files, w1.files, NodeShape(n), OwnClaims(NodeShape(n), CN(n.name), CN(n.name)))
    requires SubsRenewed(n1, n2, n1.subs.Keys, w1, w2) && PartlyFresh(n2, w2.files, n1.subs.Keys)
    requires KeepsOthers(w1.files, w2.files, NodeShape(n1), SubClaims(NodeShape(n1), CN(n.name)))
    requires CertsRenewed(n2, n', n2.leaves.Keys, w2, w')
    requires PartlySound(n', w'.files, w'.next, n2.subs.Keys, n2.leaves.Keys)
    ensures BundlesRenewed(n, n', w, w')
  {
    hide LaidOut, Bundles, NodeShape, OnlySubs, OnlyCerts, SoundSub, SoundCert, Within, KeepsOthers, SubClaims;
    hide OwnClaims, Fresh;
    var sh, s := NodeShape(n), CN(n.name);
    CertWritesKeep(sh, w2.files, w'.files);
    KeepsTwice(w.files, w1.files, w2.files, sh, OwnClaims(sh, s, s), SubClaims(sh, s));
    KeepsTwice(w.files, w2.files, w'.files, sh, OwnClaims(sh, s, s) + SubClaims(sh, s), {});
    assert OwnClaims(sh, s, s) + SubClaims(sh, s) + {} == ClaimsAs(sh, s, s);
    assert BundlesFresh(n', w'.files) by {
      assert BundlesFresh(n2, w2.files);
      FreshUnderCerts(n2, n', w2, w');
    }
  }

  /** Renewing certificates touches no bundle. */
  lemma FreshUnderCerts(n2: Node, n': Node, w2: World, w': World)
    requires LaidOut(NodeShape(n')) && BundlesFresh(n2, w2.files) && n' == n2.(leaves := n'.leaves)
    requires KeepsOthers(w2.files, w'.files, NodeShape(n'), {})
    requires PartlySound(n', w'.files, w'.next, n'.subs.Keys, n'.leaves.Keys)
    ensures BundlesFresh(n', w'.files)
  {
    hide SoundSub, SoundCert;
    assert Sound(n', w'.files, w'.next);
    SoundNamed(n', w'.files, w'.next);
    assert BundlesFresh(n', w2.files);
    FreshKept(n', w2.files, w'.files, NodeShape(n'), {});
  }

  /* ---- Regenerate by path ---- */

  ghost predicate ClashFree(n: Node) {
    NoClashAs(NodeShape(n), n.ca.cert.subject, n.ca.cert.issuerName)
  }

  ghost predicate FreshAndKept(n: Node, n': Node, w: World, w': World) {
    BundlesFresh(n', w'.files) && KeepsOthers(w.files, w'.files, NodeShape(n), NodeClaims(n))
  }

  lemma PartlyFreshSub(n: Node, k: string, c: Node, f: map<Path, File>)
    requires k in n.subs && PartlyFresh(n, f, n.subs.Keys - {k}) && BundlesFresh(c, f)
    ensures BundlesFresh(n.(subs := n.subs[k := c]), f)
  {
  }

  lemma WiderClaims(n: Node, k: string, f: map<Path, File>, g: map<Path, File>)
    requires k in n.subs && KeepsOthers(f, g, NodeShape(n).subs[k], Claims(NodeShape(n).subs[k], n.ca.cert.subject))
    ensures KeepsOthers(f, g, NodeShape(n), NodeClaims(n))
  {
    hide Claims, ClaimsAs, KeepsOthers;
    NodeSubShape(n, k);
    ClaimsContain(NodeShape(n), k, n.ca.cert.subject, n.ca.cert.issuerName);
    KeepsWider(f, g, NodeShape(n), k, Claims(NodeShape(n).subs[k], n.ca.cert.subject), NodeClaims(n));
  }

  lemma RegenerateSubBundles(n: Node, k: string, ch: Choices, w: World) returns (n': Node, w': World)
    requires Healthy(n, w) && k in n.subs && Possible(n, [k], ch) && ClashFree(n) && BundlesFresh(n, w.files)
    ensures Regenerate(n, [k], ch, w) == Ok(n', w')
    ensures FreshAndKept(n, n', w, w')
  {
    hide LaidOut, Bundles, NodeShape, Sound, Rebuilds, Under, Nested, NoClashAs, KeepsOthers, Claims, RenewSubCA;
    hide SubRenewed;
    NestedNode(n.subs[k]);
    var ks := n.subs.Keys - {k};
    SoundIsPartly(n, w.files, w.next, ks, {});
    n', w' := RenewSubCASound(n, k, ch.builders[0], w, ks, {});
    RenewSubCABundles(n, k, ch.builders[0], w, ks);
    assert ks + {k} == n.subs.Keys;
    RenewedSubKeys(n, n', k, w, w', ks);
    WiderClaims(n, k, w.files, w'.files);
  }

  lemma RenewedSubKeys(n: Node, n': Node, k: string, w: World, w': World, ks: set<string>)
    requires k in n.subs && SubRenewed(n, n', k, w, w', ks, {})
    ensures n'.subs.Keys == n.subs.Keys
  {
  }

  lemma RegenerateCertBundles(n: Node, k: string, ch: Choices, w: World) returns (n': Node, w': World)
    requires Healthy(n, w) && k in n.leaves && k !in n.subs && BundlesFresh(n, w.files)
    ensures Possible(n, [k], ch) && Regenerate(n, [k], ch, w) == Ok(n', w')
    ensures FreshAndKept(n, n', w, w')
  {
    hide Bundles, Sound, Nested, KeepsOthers, ClaimsAs;
    n', w' := RegenerateCert(n, k, ch, w);
    assert n' == n.(leaves := n'.leaves) by {
      var m, _ := RenewCertificateOnly(n, k, w);
    }
    assert KeepsOthers(w.files, w'.files, NodeShape(n), {}) by {
      LeafTargetKeeps(NodeShape(n), k, w.files, w'.files);
    }
    assert BundlesFresh(n', w.files);
    SoundNamed(n', w'.files, w'.next);
    FreshKept(n', w.files, w'.files, NodeShape(n'), {});
    KeepsMore(w.files, w'.files, NodeShape(n), NodeClaims(n));
  }

  lemma RenewCertificateOnly(n: Node, k: string, w: World) returns (n': Node, w': World)
    requires k in n.leaves
    ensures RenewCertificate(n, k, w) == Ok(n', w') && n' == n.(leaves := n'.leaves)
  {
    n', w' := RenewCertificate(n, k, w).node, RenewCertificate(n, k, w).w;
  }

  lemma LeafTargetKeeps(sh: Shape, k: string, f: map<Path, File>, g: map<Path, File>)
    requires k in sh.csrs && k !in sh.subs && OnlyTarget(f, g, sh, [k])
    ensures KeepsOthers(f, g, sh, {})
  {
    forall p | !Within(sh, p) ensures SameAt(f, g, p) {
      assert sh.dir <= LeafDir(sh.dir, k);
      assert !InTarget(sh, [k], p);
    }
    KeepsSame(f, g, sh);
  }

  lemma KeepsMore(f: map<Path, File>, g: map<Path, File>, sh: Shape, claims: set<Claim>)
    requires KeepsOthers(f, g, sh, {})
    ensures KeepsOthers(f, g, sh, claims)
  {
  }

  lemma {:induction false} RegenerateBundles(n: Node, path: Path, ch: Choices, w: World) returns (n': Node, w': World)
    requires Healthy(n, w) && path != [] && Possible(n, path, ch) && CertAt(n, path).Some? && ClashFree(n)
    requires BundlesFresh(n, w.files)
    ensures Regenerate(n, path, ch, w) == Ok(n', w')
    ensures FreshAndKept(n, n', w, w')
    decreases |path|
  {
    if |path| == 1 {
      assert path == [path[0]];
      if path[0] in n.subs {
        n', w' := RegenerateSubBundles(n, path[0], ch, w);
      } else {
        n', w' := RegenerateCertBundles(n, path[0], ch, w);
      }
    } else {
      hide Healthy, NodeShape, KeepsOthers, NodeClaims, Claims, NoClashAs;
      var k := path[0];
      HealthySub(n, k, w);
      SubClashFree(n, k, w);
      var c: Node;
      c, w' := RegenerateBundles(n.subs[k], path[1..], ch, w);
      n' := n.(subs := n.subs[k := c]);
      SubRegenerated(n, k, c, w, w');
    }
  }

  lemma SubClashFree(n: Node, k: string, w: World)
    requires Healthy(n, w) && ClashFree(n) && k in n.subs
    ensures ClashFree(n.subs[k]) && NodeClaims(n.subs[k]) == Claims(NodeShape(n).subs[k], n.ca.cert.subject)
  {
    hide ClaimsAs, LaidOut, Sound;
    SoundNamed(n, w.files, w.next);
    SubNodeClaims(n, k);
    NodeSubShape(n, k);
    NamedAt(n, k);
    DirOf(n.subs[k]);
    assert NoClashAs(NodeShape(n).subs[k], CN(NodeShape(n).subs[k].name), n.ca.cert.subject) by {
      assert SubsNoClash(NodeShape(n), n.ca.cert.subject);
    }
    assert n.subs[k].ca.cert.subject == CN(n.subs[k].name);
  }

  lemma SubRegenerated(n: Node, k: string, c: Node, w: World, w': World)
    requires Healthy(n, w) && ClashFree(n) && BundlesFresh(n, w.files) && k in n.subs
    requires FreshAndKept(n.subs[k], c, w, w')
    ensures FreshAndKept(n, n.(subs := n.subs[k := c]), w, w')
  {
    hide ClaimsAs, LaidOut, Sound, KeepsOthers, NoClashAs, NodeClaims, Claims;
    SubClashFree(n, k, w);
    NodeSubShape(n, k);
    var ks := n.subs.Keys - {k};
    SoundIsPartly(n, w.files, w.next, ks, {});
    OthersStayFresh(n, k, w, w', ks);
    PartlyFreshSub(n, k, c, w'.files);
    WiderClaims(n, k, w.files, w'.files);
  }
}
