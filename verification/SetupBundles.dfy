/** Bundle freshness after completing a chains builder: every registered bundle holds its signers' certificates. */
module SetupBundles {
  import opened Pki
  import opened Tree
  import opened Layout
  import opened Completion
  import opened Renewal
  import opened Rebuilding
  import opened Regeneration
  import opened Chains
  import opened BundleFiles
  import opened BundleFreshness
  import opened ChainBundles
  import opened ChainSetup
  import opened BundleHomes

  /* ---- entries that survive ---- */

  ghost predicate KeepsEntries(f: map<Path, File>, g: map<Path, File>, claims: set<Claim>) {
    forall p, c :: Holds(f, p, c) && Claim(p, KeyOf(c)) !in claims ==> Holds(g, p, c)
  }

  lemma {:induction false} FreshThrough(n: Node, f: map<Path, File>, g: map<Path, File>, claims: set<Claim>)
    requires BundlesFresh(n, f) && Named(n) && KeepsEntries(f, g, claims) && claims !! NodeClaims(n)
    ensures BundlesFresh(n, g)
  {
    hide Holds;
    forall p | p in n.bundles ensures Holds(g, p, n.ca.cert) {
      assert Claim(p, KeyOf(n.ca.cert)) in NodeClaims(n);
    }
    forall k | k in n.subs ensures BundlesFresh(n.subs[k], g) {
      SubNodeClaims(n, k);
      FreshThrough(n.subs[k], f, g, claims);
    }
  }

  /* ---- registering one bundle ---- */

  /** The registration wrote one entry, which is its signer's, and everything registered so far is fresh. */
  ghost predicate FreshlyRegistered(n: Node, n': Node, p: Path, f: map<Path, File>, g: map<Path, File>, x: Claim) {
    && BundlesFresh(n', g) && Named(n') && n' == n.(subs := n'.subs, bundles := n'.bundles)
    && x in NodeClaims(n') && KeepsEntries(f, g, {x})
  }

  lemma OneBundle(n: Node, p: Path, w: World)
    requires AddToBundles(n, [p], w).Ok?
    ensures AddToBundles(n, [p], w).node == n.(bundles := n.bundles + {p})
  {
  }

  lemma OwnRegistration(n: Node, p: Path, w: World) returns (x: Claim)
    requires Named(n) && BundlesFresh(n, w.files) && AddToBundles(n, [p], w).Ok?
    requires NoClashAs(NodeShape(n.(bundles := n.bundles + {p})), n.ca.cert.subject, n.ca.cert.issuerName)
    ensures FreshlyRegistered(n, AddToBundles(n, [p], w).node, p, w.files, AddToBundles(n, [p], w).w.files, x)
  {
    hide Holds, SubsNoClash, NodeShape, SubClaims;
    var n', w' := AddToBundles(n, [p], w).node, AddToBundles(n, [p], w).w;
    x := Claim(p, KeyOf(n.ca.cert));
    OneBundle(n, p, w);
    AddToBundlesHolds(n, [p], w);
    DirOf(n');
    assert x in OwnClaims(NodeShape(n'), n.ca.cert.subject, n.ca.cert.issuerName);
    forall k | k in n'.subs ensures BundlesFresh(n'.subs[k], w'.files) {
      SubNodeClaims(n', k);
      NodeSubShape(n', k);
      SubClaimsOf(NodeShape(n'), k, n'.ca.cert.subject);
      FreshThrough(n.subs[k], w.files, w'.files, {x});
    }
  }

  lemma {:induction false} RegisterFresh(n: Node, signer: Path, p: Path, w: World) returns (x: Claim)
    requires Named(n) && BundlesFresh(n, w.files) && Register(n, signer, p, w).Ok?
    requires NoClashAs(NodeShape(Register(n, signer, p, w).node), n.ca.cert.subject, n.ca.cert.issuerName)
    ensures FreshlyRegistered(n, Register(n, signer, p, w).node, p, w.files, Register(n, signer, p, w).w.files, x)
    decreases |signer|
  {
    var n', w' := Register(n, signer, p, w).node, Register(n, signer, p, w).w;
    if signer == [] {
      OneBundle(n, p, w);
      x := OwnRegistration(n, p, w);
    } else {
      hide FreshlyRegistered, Holds, NodeShape;
      var k := signer[0];
      NamedAt(n, k);
      RegisterKeepsName(n.subs[k], signer[1..], p, w);
      SubClash(n, n', k);
      x := RegisterFresh(n.subs[k], signer[1..], p, w);
      RegisteredBelow(n, k, n'.subs[k], p, w.files, w'.files, x);
    }
  }

  lemma {:induction false} RegisterKeepsName(n: Node, signer: Path, p: Path, w: World)
    requires Register(n, signer, p, w).Ok?
    ensures Register(n, signer, p, w).node.name == n.name && Register(n, signer, p, w).node.ca == n.ca
    decreases |signer|
  {
    if signer == [] {
      BundlesKeepName(n, [p], w);
    }
  }

  lemma SubClash(n: Node, n': Node, k: string)
    requires Named(n) && k in n.subs && k in n'.subs && n'.subs[k].name == n.subs[k].name
    requires n'.subs[k].ca == n.subs[k].ca
    requires NoClashAs(NodeShape(n'), n.ca.cert.subject, n.ca.cert.issuerName)
    ensures NoClashAs(NodeShape(n'.subs[k]), n.subs[k].ca.cert.subject, n.subs[k].ca.cert.issuerName)
  {
    NamedAt(n, k);
    NodeSubShape(n', k);
    DirOf(n'.subs[k]);
  }

  lemma RegisteredBelow(n: Node, k: string, c: Node, p: Path, f: map<Path, File>, g: map<Path, File>, x: Claim)
    requires Named(n) && BundlesFresh(n, f) && k in n.subs && FreshlyRegistered(n.subs[k], c, p, f, g, x)
    requires NoClashAs(NodeShape(n.(subs := n.subs[k := c])), n.ca.cert.subject, n.ca.cert.issuerName)
    ensures FreshlyRegistered(n, n.(subs := n.subs[k := c]), p, f, g, x)
  {
    hide Holds, NodeShape, ClaimsAs, Claims;
    var n', subject := n.(subs := n.subs[k := c]), n.ca.cert.subject;
    NamedAt(n, k);
    NodeSubShape(n', k);
    SubNodeClaims(n', k);
    assert x in Claims(NodeShape(n').subs[k], subject);
    SubClaimsOf(NodeShape(n'), k, subject);
    DirOf(n');
    forall q | q in n.bundles ensures Holds(g, q, n.ca.cert) {
      assert Claim(q, KeyOf(n.ca.cert)) in OwnClaims(NodeShape(n'), subject, n.ca.cert.issuerName);
    }
    forall j | j in n'.subs ensures BundlesFresh(n'.subs[j], g) {
      if j != k {
        SubNodeClaims(n', j);
        NodeSubShape(n', j);
        FreshThrough(n.subs[j], f, g, {x});
      }
    }
  }

  /* ---- fewer registrations, fewer clashes ---- */

  /** The same signers, with no more bundles registered. */
  ghost predicate Fewer(s: Shape, t: Shape) {
    && s.name == t.name && s.bundles <= t.bundles && s.subs.Keys == t.subs.Keys
    && forall k :: k in s.subs ==> Fewer(s.subs[k], t.subs[k])
  }

  lemma {:induction false} FewerSelf(s: Shape)
    ensures Fewer(s, s)
  {
    forall k | k in s.subs ensures Fewer(s.subs[k], s.subs[k]) {
      FewerSelf(s.subs[k]);
    }
  }

  lemma {:induction false} FewerTwice(s: Shape, t: Shape, u: Shape)
    requires Fewer(s, t) && Fewer(t, u)
    ensures Fewer(s, u)
  {
    forall k | k in s.subs ensures Fewer(s.subs[k], u.subs[k]) {
      FewerTwice(s.subs[k], t.subs[k], u.subs[k]);
    }
  }

  lemma {:induction false} AddBundleFewer(sh: Shape, signer: Path, p: Path)
    requires SignerIn(sh, signer)
    ensures Fewer(sh, AddBundle(sh, signer, p))
    decreases |signer|
  {
    var s := AddBundle(sh, signer, p);
    forall k | k in sh.subs ensures Fewer(sh.subs[k], s.subs[k]) {
      if signer != [] && k == signer[0] {
        AddBundleFewer(sh.subs[k], signer[1..], p);
      } else {
        FewerSelf(sh.subs[k]);
      }
    }
  }

  lemma {:induction false} FewerClaims(s: Shape, t: Shape, subject: Name, issuer: Name)
    requires Fewer(s, t)
    ensures ClaimsAs(s, subject, issuer) <= ClaimsAs(t, subject, issuer)
    ensures SubClaims(s, subject) <= SubClaims(t, subject)
  {
    forall x | x in SubClaims(s, subject) ensures x in SubClaims(t, subject) {
      var k :| k in s.subs && x in Claims(s.subs[k], subject);
      FewerClaims(s.subs[k], t.subs[k], CN(s.subs[k].name), subject);
      assert x in Claims(t.subs[k], subject);
    }
  }

  lemma {:induction false} FewerNoClash(s: Shape, t: Shape, subject: Name, issuer: Name)
    requires Fewer(s, t) && NoClashAs(t, subject, issuer)
    ensures NoClashAs(s, subject, issuer)
  {
    hide ClaimsAs;
    FewerClaims(s, t, subject, issuer);
    assert OwnClaims(s, subject, issuer) <= OwnClaims(t, subject, issuer);
    forall k | k in s.subs
      ensures NoClashAs(s.subs[k], CN(s.subs[k].name), subject)
      ensures Claims(s.subs[k], subject) <= Claims(t.subs[k], subject)
    {
      FewerNoClash(s.subs[k], t.subs[k], CN(s.subs[k].name), subject);
      FewerClaims(s.subs[k], t.subs[k], CN(s.subs[k].name), subject);
    }
  }

  /* ---- all registrations ---- */

  /** `a` is `b` before some of its bundles were registered. */
  ghost predicate Before(a: Chains, b: Chains) {
    && a.Keys == b.Keys
    && forall k :: k in a ==> a[k].ca == b[k].ca && a[k].name == b[k].name && Fewer(NodeShape(a[k]), NodeShape(b[k]))
  }

  lemma BeforeNoClashes(a: Chains, b: Chains)
    requires Before(a, b) && NoClashes(b)
    ensures NoClashes(a)
  {
    hide NodeShape, ClaimsAs, NoClashAs, Fewer;
    forall k | k in a ensures TreeClashFree(a[k]) && AllClaims(a[k]) <= AllClaims(b[k]) {
      assert TreeClashFree(b[k]);
      var s, t, c := NodeShape(a[k]), NodeShape(b[k]), a[k].ca.cert;
      FewerClaims(s, t, c.subject, c.issuerName);
      FewerClaims(s, t, CN(a[k].name), CN(a[k].name));
      FewerNoClash(s, t, c.subject, c.issuerName);
      FewerNoClash(s, t, CN(a[k].name), CN(a[k].name));
    }
  }

  lemma BeforeTwice(a: Chains, b: Chains, c: Chains)
    requires Before(a, b) && Before(b, c)
    ensures Before(a, c)
  {
    hide Fewer, NodeShape;
    forall k | k in a ensures Fewer(NodeShape(a[k]), NodeShape(c[k])) {
      FewerTwice(NodeShape(a[k]), NodeShape(b[k]), NodeShape(c[k]));
    }
  }

  lemma BeforeSelf(a: Chains)
    ensures Before(a, a)
  {
    forall k | k in a ensures Fewer(NodeShape(a[k]), NodeShape(a[k])) {
      FewerSelf(NodeShape(a[k]));
    }
  }

  lemma BeforeOne(cs: Chains, r: Registration, n: Node, w: World, w': World)
    requires RegistrationOk(cs, r) && Registered(cs[r.signer[0]], n, r.signer[1..], r.bundle, w, w')
    ensures Before(cs, cs[r.signer[0] := n])
  {
    hide NodeShape, SignerIn, AddBundle, Within, Fewer, Sound;
    var k := r.signer[0];
    AddBundleFewer(NodeShape(cs[k]), r.signer[1..], r.bundle);
    AddBundleRegions(NodeShape(cs[k]), r.signer[1..], r.bundle);
    DirOf(n);
    DirOf(cs[k]);
    forall l | l in cs ensures Fewer(NodeShape(cs[l]), NodeShape(cs[k := n][l])) {
      if l != k {
        FewerSelf(NodeShape(cs[l]));
      }
    }
  }

  lemma OneRegistrationFresh(cs: Chains, r: Registration, n: Node, w: World, w': World)
    requires Intact(cs, w) && AllBundlesFresh(cs, w.files) && RegistrationOk(cs, r)
    requires Register(cs[r.signer[0]], r.signer[1..], r.bundle, w) == Ok(n, w')
    requires n.ca == cs[r.signer[0]].ca && NoClashes(cs[r.signer[0] := n])
    ensures AllBundlesFresh(cs[r.signer[0] := n], w'.files)
  {
    hide NodeShape, ClaimsAs, NoClashAs, RegistrationOk, Healthy, RootOnDisk, Register, BundlesFresh, KeepsEntries;
    RegistrationKnown(cs, r);
    var k := r.signer[0];
    var cs' := cs[k := n];
    assert RootHealthy(cs, k, w) && TreeClashFree(cs'[k]);
    HealthySound(cs[k], w);
    SoundNamed(cs[k], w.files, w.next);
    var x := RegisterFresh(cs[k], r.signer[1..], r.bundle, w);
    assert x in AllClaims(n);
    forall l | l in cs' && l != k ensures BundlesFresh(cs'[l], w'.files) {
      assert RootHealthy(cs, l, w) && AllClaims(cs'[k]) !! AllClaims(cs'[l]);
      HealthySound(cs[l], w);
      SoundNamed(cs[l], w.files, w.next);
      FreshThrough(cs[l], w.files, w'.files, {x});
    }
  }

  lemma {:induction false} RegisteredBefore(cs: Chains, regs: seq<Registration>, w: World, cs': Chains, w': World)
    requires Intact(cs, w) && RegistrationsOk(cs, regs)
    requires forall i :: 0 <= i < |regs| ==> Readable(w.files, regs[i].bundle)
    requires RegisterAll(cs, regs, w) == COk(cs', w')
    ensures Before(cs, cs')
    decreases |regs|
  {
    hide Intact, Before, RegistrationOk, Register, Registered;
    if regs == [] {
      BeforeSelf(cs);
    } else {
      var r, k := regs[0], regs[0].signer[0];
      assert RegistrationOk(cs, r);
      RegistrationKnown(cs, r);
      var n, w1 := RegisterIntact(cs, r, w);
      StillRegistrableAll(cs, regs, n, w, w1);
      BeforeOne(cs, r, n, w, w1);
      RegisteredBefore(cs[k := n], regs[1..], w1, cs', w');
      BeforeTwice(cs, cs[k := n], cs');
    }
  }

  /** Where no two signers end up maintaining the same entry, registering keeps every registration fresh. */
  lemma {:induction false} RegisterAllFresh(cs: Chains, regs: seq<Registration>, w: World, cs': Chains, w': World)
    requires Intact(cs, w) && RegistrationsOk(cs, regs)
    requires forall i :: 0 <= i < |regs| ==> Readable(w.files, regs[i].bundle)
    requires RegisterAll(cs, regs, w) == COk(cs', w') && AllBundlesFresh(cs, w.files) && NoClashes(cs')
    ensures AllBundlesFresh(cs', w'.files)
    decreases |regs|
  {
    hide Intact, AllBundlesFresh, NoClashes, RegistrationOk, Register, Registered, Fewer, NodeShape;
    if regs != [] {
      var r, k := regs[0], regs[0].signer[0];
      assert RegistrationOk(cs, r);
      RegistrationKnown(cs, r);
      var n, w1 := RegisterIntact(cs, r, w);
      StillRegistrableAll(cs, regs, n, w, w1);
      BeforeOne(cs, r, n, w, w1);
      RegisteredBefore(cs[k := n], regs[1..], w1, cs', w');
      BeforeNoClashes(cs[k := n], cs');
      OneRegistrationFresh(cs, r, n, w, w1);
      RegisterAllFresh(cs[k := n], regs[1..], w1, cs', w');
    }
  }

  /* ---- completing the signers ---- */

  lemma {:induction false} RecordedFewer(sh: Shape, f: map<Path, File>)
    ensures Fewer(sh, Recorded(sh, f))
  {
    forall k | k in sh.subs ensures Fewer(sh.subs[k], Recorded(sh, f).subs[k]) {
      RecordedFewer(sh.subs[k], f);
    }
  }

  /** Completing a root leaves its bundles fresh and no one else's entries changed. */
  lemma CompleteRootBundles(b: Builder, w: World, n: Node, w': World)
    requires RootBuilder(b) && Ready(BuilderShape(b), w) && CompleteRoot(b, w) == Ok(n, w') && ClashFree(n)
    requires NodeShape(n) == Recorded(BuilderShape(b), w.files)
    ensures BundlesFresh(n, w'.files) && KeepsOthers(w.files, w'.files, BuilderShape(b), NodeClaims(n))
  {
    hide LaidOut, Bundles, NodeShape, Recorded, WellNamed, BuilderShape, Consistent, NothingFound, NoClashAs, ClaimsAs;
    hide Nested;
    hide BundlesFresh, KeepsOthers, Sound;
    var sh := BuilderShape(b);
    EnsureCASound(b, w);
    var (ca, w1) := EnsureCA(b.caInfo.value, w);
    BuilderDir(b);
    CaReadable(sh, w.files, w1.files);
    var m, w2 := CompleteSound(b, ca, w1);
    assert m == n && w2 == w' && n.ca == ca;
    RecordedFewer(sh, w.files);
    FewerNoClash(sh, NodeShape(n), ca.cert.subject, ca.cert.issuerName);
    CompleteBundles(b, ca, w1);
    CaWritesKeep(sh, w.files, w1.files);
    RecordedClaims(sh, w.files, ca.cert.subject, ca.cert.issuerName);
    KeepsTwice(w.files, w1.files, w'.files, sh, {}, NodeClaims(n));
    assert {} + NodeClaims(n) == NodeClaims(n);
  }

  lemma OthersFresh(cs: Chains, b: Builder, n: Node, w: World, w': World)
    requires Intact(cs, w) && AllBundlesFresh(cs, w.files) && n.name !in cs && NoClashes(cs[n.name := n])
    requires forall k :: k in cs ==> Separate(NodeShape(cs[k]), BuilderShape(b))
    requires BundlesFresh(n, w'.files) && KeepsOthers(w.files, w'.files, BuilderShape(b), NodeClaims(n))
    ensures AllBundlesFresh(cs[n.name := n], w'.files)
  {
    hide NodeShape, BuilderShape, ClaimsAs, NoClashAs, Healthy, RootOnDisk, BundlesFresh, KeepsOthers, Bundles, Within;
    var cs' := cs[n.name := n];
    forall l | l in cs ensures BundlesFresh(cs[l], w'.files) {
      assert RootHealthy(cs, l, w) && Separate(NodeShape(cs[l]), BuilderShape(b));
      assert AllClaims(cs'[n.name]) !! AllClaims(cs'[l]);
      HealthySound(cs[l], w);
      SoundNamed(cs[l], w.files, w.next);
      FreshKept(cs[l], w.files, w'.files, BuilderShape(b), NodeClaims(n));
    }
  }

  lemma ClashesRestricted(a: Chains, b: Chains)
    requires NoClashes(b) && forall k :: k in a ==> k in b && a[k] == b[k]
    ensures NoClashes(a)
  {
  }

  lemma {:induction false} SignersFresh(cs: Chains, bs: seq<Builder>, w: World, cs': Chains, w': World)
    requires Intact(cs, w) && TopsReady(bs, w) && TopsApart(bs) && ApartFrom(cs, bs) && AllBundlesFresh(cs, w.files)
    requires (forall b :: b in bs ==> b.caInfo.Some?) && CompleteSigners(cs, bs, w) == COk(cs', w') && NoClashes(cs')
    ensures AllBundlesFresh(cs', w'.files)
    decreases |bs|
  {
    if bs != [] {
      hide Intact, Ready, LaidOut, BuilderShape, Separate, WellNamed, CompleteRoot, Untouched, Recorded, NodeShape;
      hide AllReadable;
      hide NoClashes, AllBundlesFresh, Healthy, RootOnDisk;
      var b := bs[0];
      assert RootBuilder(b);
      var n, w1 := CompleteRootSound(b, w);
      var cs1 := cs[n.name := n];
      IntactWithRoot(cs, b, w, n, w1);
      TopsStillReady(bs, w, w1);
      StillApart(cs, bs, w.files, n);
      var _, _ := CompleteSignersSound(cs1, bs[1..], w1);
      ClashesRestricted(cs1, cs');
      assert ClashFree(n) by { RootClashFree(cs1, n); }
      CompleteRootBundles(b, w, n, w1);
      OthersFresh(cs, b, n, w, w1);
      SignersFresh(cs1, bs[1..], w1, cs', w');
    }
  }

  lemma RootClashFree(cs: Chains, n: Node)
    requires NoClashes(cs) && n.name in cs && cs[n.name] == n
    ensures ClashFree(n)
  {
  }

  /* ---- registration by registration ---- */

  /** The registered bundle holds the current certificate of the signer it was registered for. */
  ghost predicate RegistrationFresh(cs: Chains, r: Registration, files: map<Path, File>) {
    ChainCertAt(cs, r.signer).Some? && Holds(files, r.bundle, ChainCertAt(cs, r.signer).value)
  }

  ghost predicate RegistrationsFresh(cs: Chains, regs: set<Registration>, files: map<Path, File>) {
    forall r :: r in regs ==> RegistrationFresh(cs, r, files)
  }

  lemma {:induction false} FreshAtSigner(n: Node, q: Path, p: Path, f: map<Path, File>)
    requires BundlesFresh(n, f) && SignerIn(NodeShape(n), q) && p in BundlesAt(NodeShape(n), q)
    ensures CertAt(n, q).Some? && Holds(f, p, CertAt(n, q).value)
    decreases |q|
  {
    hide Holds;
    if q != [] {
      NodeKeys(n);
      NodeSubShape(n, q[0]);
      FreshAtSigner(n.subs[q[0]], q[1..], p, f);
    }
  }

  /** The path leads to a signer that has the bundle registered. */
  ghost predicate RegisteredIn(cs: Chains, q: Path, p: Path) {
    && q != [] && q[0] in cs && SignerIn(NodeShape(cs[q[0]]), q[1..]) && p in BundlesAt(NodeShape(cs[q[0]]), q[1..])
  }

  lemma FreshWhere(cs: Chains, q: Path, p: Path, f: map<Path, File>)
    requires AllBundlesFresh(cs, f) && RegisteredIn(cs, q, p)
    ensures ChainCertAt(cs, q).Some? && Holds(f, p, ChainCertAt(cs, q).value)
  {
    hide Holds, BundlesFresh;
    FreshAtSigner(cs[q[0]], q[1..], p, f);
  }

  /** Two signers that maintain the same entry of a bundle with different certificates cannot both find it fresh,
      whatever the disk holds. */
  lemma SharedEntryNotFresh(cs: Chains, q: Path, r: Path, p: Path, f: map<Path, File>)
    requires RegisteredIn(cs, q, p) && RegisteredIn(cs, r, p) && ChainCertAt(cs, q).Some? && ChainCertAt(cs, r).Some?
    requires KeyOf(ChainCertAt(cs, q).value) == KeyOf(ChainCertAt(cs, r).value)
    requires ChainCertAt(cs, q) != ChainCertAt(cs, r)
    ensures !AllBundlesFresh(cs, f)
  {
    hide RegisteredIn, AllBundlesFresh;
    if AllBundlesFresh(cs, f) {
      FreshWhere(cs, q, p, f);
      FreshWhere(cs, r, p, f);
      OneEntry(f[p].certs, ChainCertAt(cs, q).value, ChainCertAt(cs, r).value);
    }
  }

  lemma {:induction false} BundleEnrolled(sh: Shape, at: Path, q: Path, r: Registration, regs: set<Registration>)
    requires SignerIn(sh, q) && r in regs && r.signer == at + q
    ensures SignerIn(WithBundles(sh, at, regs), q) && r.bundle in BundlesAt(WithBundles(sh, at, regs), q)
    decreases |q|
  {
    if q != [] {
      assert at + [q[0]] + q[1..] == at + q;
      BundleEnrolled(sh.subs[q[0]], at + [q[0]], q[1..], r, regs);
    } else {
      assert at + q == at;
    }
  }

  /** Where every bundle of the trees is fresh, every bundle asked for holds its signer's certificate. */
  lemma RegistrationIsFresh(cs: Chains, bs: seq<Builder>, r: Registration, regs: set<Registration>, f: map<Path, File>,
                            g: map<Path, File>)
    requires TreesCompleted(cs, bs, regs, f) && AllBundlesFresh(cs, g) && r in regs && RegistrationFor(bs, r, f)
    ensures RegistrationFresh(cs, r, g)
  {
    hide NodeShape, BundlesFresh, Recorded, WithBundles, BuilderShape, Within, Holds;
    var i :| 0 <= i < |bs| && bs[i].name == r.signer[0] && SignerIn(BuilderShape(bs[i]), r.signer[1..]);
    var k, q := r.signer[0], r.signer[1..];
    assert TreeCompleted(cs, bs[i], regs, f);
    RecordedSigners(BuilderShape(bs[i]), f, q);
    assert r.signer == [k] + q;
    BundleEnrolled(Recorded(BuilderShape(bs[i]), f), [k], q, r, regs);
    FreshAtSigner(cs[k], q, r.bundle, g);
  }

  /** Bundle freshness after Complete: where no two signers maintain the same entry of the same bundle, every bundle
      in the trees, and every bundle asked for, holds its signer's current certificate. */
  lemma CompleteChainsFresh(bs: seq<Builder>, regs: seq<Registration>, w: World, cs: Chains, w': World)
    requires TopsReady(bs, w) && TopsApart(bs) && RegistrationsFor(bs, regs, w.files)
    requires (forall b :: b in bs ==> b.caInfo.Some?) && CompleteChains(bs, regs, w) == COk(cs, w') && NoClashes(cs)
    ensures AllBundlesFresh(cs, w'.files) && RegistrationsFresh(cs, Listing(regs), w'.files)
  {
    hide Intact, TopsReady, TreesRecorded, RegistrationFor, RegistrationOk, SignerIn, CompleteSigners, RegisterAll;
    hide NoClashes, AllBundlesFresh, Before, TreesCompleted, RegistrationFresh;
    assert Intact(map[], w) by { EmptyIntact(w); }
    var cs1, w1 := CompleteSignersSound(map[], bs, w);
    BundlesStayReadable(bs, regs, w, cs1, w1);
    forall j | 0 <= j < |regs| ensures RegistrationOk(cs1, regs[j]) {
      RegistrationHolds(cs1, bs, regs[j], w.files);
    }
    RegisteredBefore(cs1, regs, w1, cs, w');
    BeforeNoClashes(cs1, cs);
    assert AllBundlesFresh(map[], w.files) by { NothingFresh(w.files); }
    SignersFresh(map[], bs, w, cs1, w1);
    RegisterAllFresh(cs1, regs, w1, cs, w');
    var _, _ := CompleteChainsSound(bs, regs, w);
    forall r | r in Listing(regs) ensures RegistrationFresh(cs, r, w'.files) {
      RegistrationIsFresh(cs, bs, r, Listing(regs), w.files, w'.files);
    }
  }

  lemma NothingFresh(f: map<Path, File>)
    ensures AllBundlesFresh(map[], f)
  {
  }
}
