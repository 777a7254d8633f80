/** Restart stability: completing the same builders again on the disk left by a run issues nothing, writes nothing, and
    records the same entries, except that peer certificates found on disk are not recorded. */
module Restart {
  import opened Base
  import opened Pki
  import opened Tree
  import opened Layout
  import opened Completion
  import opened Renewal
  import opened Regeneration
  import opened Chains
  import opened ChainSetup
  import opened BundleFiles
  import opened BundleFreshness
  import opened ChainBundles
  import opened SetupBundles

  /** `n'` has the signers and the client and serving entries of `n`, and none of its peer entries. */
  ghost predicate Restarted(n': Node, n: Node) {
    && n'.name == n.name && n'.ca == n.ca && n'.dir == n.dir && n'.days == n.days
    && n'.subs.Keys == n.subs.Keys && (forall k :: k in n.subs ==> Restarted(n'.subs[k], n.subs[k]))
    && n'.leaves == NonPeers(n)
  }

  ghost function NonPeers(n: Node): map<string, Leaf> {
    map k | k in n.leaves && !n.leaves[k].csr.Peer? :: n.leaves[k]
  }

  /** The live tree `n` has every signer and every client and serving entry the shape asks for. */
  ghost predicate FitsShape(sh: Shape, n: Node) {
    && n.name == sh.name && n.dir == sh.dir && n.days == sh.days && sh.bundles <= n.bundles
    && n.subs.Keys == sh.subs.Keys && (forall k :: k in sh.subs ==> FitsShape(sh.subs[k], n.subs[k]))
    && (forall k :: k in n.leaves ==> k in sh.csrs && n.leaves[k].csr == sh.csrs[k])
    && (forall k :: k in sh.csrs && !sh.csrs[k].Peer? ==> k in n.leaves)
  }

  /** Tree and disk have settled: all that is asked for is on disk and every registered bundle is up to date. */
  ghost predicate Settled(sh: Shape, n: Node, w: World) {
    && LaidOut(sh) && FitsShape(sh, n) && Sound(n, w.files, w.next)
    && AllOnDisk(sh, w.files) && BundlesFresh(n, w.files)
  }

  lemma SettledSub(sh: Shape, n: Node, w: World, k: string)
    requires Settled(sh, n, w) && k in sh.subs
    ensures k in n.subs && Settled(sh.subs[k], n.subs[k], w) && sh.subs[k].name == k
    ensures EnsureSubCA(n.ca, k, sh.subs[k].dir, sh.subs[k].days, w) == (n.subs[k].ca, w)
  {
    assert SoundSub(n, k, w.files, w.next) && FitsShape(sh.subs[k], n.subs[k]);
    SameUpdate(w.files, CACertPath(sh.subs[k].dir), CertFile([n.subs[k].ca.cert]));
  }

  ghost function NonPeerNames(csrs: seq<Csr>): set<string> {
    if csrs == [] then {} else (if csrs[0].Peer? then {} else {csrs[0].name}) + NonPeerNames(csrs[1..])
  }

  /** The entries recorded so far are those of the live tree. */
  ghost predicate FromLive(m: Node, n: Node) {
    forall k :: k in m.leaves ==> k in n.leaves && m.leaves[k] == n.leaves[k]
  }

  lemma {:induction false} CertsAgain(m: Node, csrs: seq<Csr>, sh: Shape, n: Node, w: World) returns (m': Node)
    requires Settled(sh, n, w) && m.dir == n.dir && FromLive(m, n)
    requires forall c :: c in csrs ==> c.name in sh.csrs && sh.csrs[c.name] == c
    ensures SignCertificates(m, csrs, w) == (m', w) && m' == m.(leaves := m'.leaves)
    ensures FromLive(m', n) && m'.leaves.Keys == m.leaves.Keys + NonPeerNames(csrs)
    decreases |csrs|
  {
    hide Settled, GetLeaf, SignCertificate;
    if csrs == [] {
      m' := m;
    } else {
      var m1 := CertAgain(m, csrs[0], sh, n, w);
      m' := CertsAgain(m1, csrs[1..], sh, n, w);
    }
  }

  lemma SettledCert(sh: Shape, n: Node, w: World, k: string)
    requires Settled(sh, n, w) && k in sh.csrs
    ensures GetLeaf(w.files, n.dir, sh.csrs[k]).Some?
    ensures !sh.csrs[k].Peer? ==>
              && k in n.leaves && n.leaves[k].csr == sh.csrs[k]
              && GetLeaf(w.files, n.dir, sh.csrs[k]) == Some(n.leaves[k].tls)
  {
    hide LaidOut, BundlesFresh, SoundSub, GetLeaf;
    if !sh.csrs[k].Peer? {
      assert SoundCert(n, k, w.files, w.next);
    }
  }

  lemma CertAgain(m: Node, c: Csr, sh: Shape, n: Node, w: World) returns (m': Node)
    requires Settled(sh, n, w) && m.dir == n.dir && FromLive(m, n) && c.name in sh.csrs && sh.csrs[c.name] == c
    ensures SignCertificate(m, c, w) == (m', w) && m' == m.(leaves := m'.leaves)
    ensures FromLive(m', n) && m'.leaves.Keys == m.leaves.Keys + (if c.Peer? then {} else {c.name})
  {
    hide Settled, GetLeaf;
    SettledCert(sh, n, w, c.name);
    m' := SignCertificate(m, c, w).0;
    if c.Peer? {
      assert m.leaves.Keys + {} == m.leaves.Keys;
    }
  }

  ghost predicate SubsFromLive(m: Node, n: Node) {
    forall k :: k in m.subs ==> k in n.subs && Restarted(m.subs[k], n.subs[k])
  }

  /** The builders of the sub-CAs `sh` asks for. */
  ghost predicate Asked(bs: seq<Builder>, sh: Shape) {
    bs != [] ==>
      && WellNamed(bs[0]) && bs[0].name in sh.subs && sh.subs[bs[0].name] == BuilderShape(bs[0])
      && Asked(bs[1..], sh)
  }

  lemma {:induction false} AllAsked(bs: seq<Builder>, sh: Shape)
    requires AllWellNamed(bs)
    requires forall k :: k in BuilderShapes(bs) ==> k in sh.subs && sh.subs[k] == BuilderShapes(bs)[k]
    ensures Asked(bs, sh)
  {
    if bs != [] {
      assert bs[0].name in BuilderShapes(bs);
      AllAsked(bs[1..], sh);
    }
  }

  lemma {:induction false} SubCAsAgain(m: Node, bs: seq<Builder>, sh: Shape, n: Node, w: World) returns (m': Node)
    requires Settled(sh, n, w) && m.ca == n.ca && Asked(bs, sh) && SubsFromLive(m, n)
    ensures SignSubCAs(m, bs, w) == Ok(m', w) && m' == m.(subs := m'.subs)
    ensures SubsFromLive(m', n) && m'.subs.Keys == m.subs.Keys + BuilderShapes(bs).Keys
    decreases bs, 0
  {
    hide Settled, SubsFromLive, SignSubCA, WellNamed, BuilderShape;
    if bs == [] {
      m' := m;
    } else {
      var m1 := SubCAAgain(m, bs[0], sh, n, w);
      m' := SubCAsAgain(m1, bs[1..], sh, n, w);
      assert BuilderShapes(bs).Keys == {bs[0].name} + BuilderShapes(bs[1..]).Keys;
    }
  }

  lemma {:induction false} SubCAAgain(m: Node, b: Builder, sh: Shape, n: Node, w: World) returns (m': Node)
    requires Settled(sh, n, w) && m.ca == n.ca && WellNamed(b) && SubsFromLive(m, n)
    requires b.name in sh.subs && sh.subs[b.name] == BuilderShape(b)
    ensures SignSubCA(m, b, w) == Ok(m', w) && m' == m.(subs := m'.subs)
    ensures SubsFromLive(m', n) && m'.subs.Keys == m.subs.Keys + {b.name}
    decreases b, 2
  {
    hide Settled, Restarted, Complete, EnsureSubCA;
    SettledSub(sh, n, w, b.name);
    var c := CompleteAgain(b, n.subs[b.name], w);
    RestartedName(c, n.subs[b.name], sh.subs[b.name], w);
    m' := m.(subs := m.subs[b.name := c]);
  }

  lemma RestartedName(c: Node, n: Node, sh: Shape, w: World)
    requires Restarted(c, n) && Settled(sh, n, w)
    ensures c.name == sh.name
  {
  }

  lemma {:induction false} CsrsListed(csrs: seq<Csr>)
    requires DistinctCsrs(csrs)
    ensures forall c :: c in csrs ==> c.name in CsrsByName(csrs) && CsrsByName(csrs)[c.name] == c
    ensures forall k :: k in CsrsByName(csrs) && !CsrsByName(csrs)[k].Peer? <==> k in NonPeerNames(csrs)
  {
    if csrs != [] {
      CsrsListed(csrs[1..]);
      assert csrs == [csrs[0]] + csrs[1..];
      assert forall k :: k in NonPeerNames(csrs[1..]) ==> k in CsrsByName(csrs[1..]);
    }
  }

  /** Completing a builder whose tree has settled on the disk: nothing is issued, nothing is written. */
  lemma {:induction false} CompleteAgain(b: Builder, n: Node, w: World) returns (n': Node)
    requires WellNamed(b) && Settled(BuilderShape(b), n, w)
    ensures Complete(b, n.ca, w) == Ok(n', w)
    ensures Restarted(n', n) && n'.bundles == BuilderShape(b).bundles
    decreases b, 1
  {
    hide Settled, FromLive, SignSubCAs, SignCertificates, AddToBundles, Restarted, BuilderShapes, CsrsByName;
    var sh := BuilderShape(b);
    AllAsked(b.subs, sh);
    NothingFromLive(b, n);
    var m1 := SubCAsAgain(Empty(b, n.ca), b.subs, sh, n, w);
    CsrsListed(b.csrs);
    SettledBasics(sh, n, w);
    var m2 := CertsAgain(m1, b.csrs, sh, n, w);
    assert forall p :: p in b.bundlePaths ==> p in sh.bundles;
    BundlesAgain(m2, b.bundlePaths, w);
    n' := m2.(bundles := m2.bundles + set p | p in b.bundlePaths);
    assert n'.bundles == sh.bundles;
    RestartedFrom(n', m2, sh, n, b.csrs, w);
  }

  lemma NothingFromLive(b: Builder, n: Node)
    ensures SubsFromLive(Empty(b, n.ca), n) && FromLive(Empty(b, n.ca), n)
    ensures forall m: Node :: m == Empty(b, n.ca).(subs := m.subs) ==> FromLive(m, n)
  {
  }

  lemma SettledBasics(sh: Shape, n: Node, w: World)
    requires Settled(sh, n, w)
    ensures n.name == sh.name && n.dir == sh.dir && n.days == sh.days
    ensures forall p :: p in sh.bundles ==> Holds(w.files, p, n.ca.cert)
  {
  }

  lemma RestartedFrom(n': Node, m2: Node, sh: Shape, n: Node, csrs: seq<Csr>, w: World)
    requires Settled(sh, n, w) && n' == m2.(bundles := n'.bundles) && sh.csrs == CsrsByName(csrs)
    requires m2.name == sh.name && m2.ca == n.ca && m2.dir == sh.dir && m2.days == sh.days
    requires SubsFromLive(m2, n) && m2.subs.Keys == sh.subs.Keys && FromLive(m2, n)
    requires m2.leaves.Keys == NonPeerNames(csrs)
    requires forall k :: k in CsrsByName(csrs) && !CsrsByName(csrs)[k].Peer? <==> k in NonPeerNames(csrs)
    ensures Restarted(n', n)
  {
    hide LaidOut, AllOnDisk, SoundSub, SoundCert, BundlesFresh;
    SameNonPeers(n', sh, n, csrs);
  }

  lemma SameNonPeers(m: Node, sh: Shape, n: Node, csrs: seq<Csr>)
    requires FitsShape(sh, n) && sh.csrs == CsrsByName(csrs) && FromLive(m, n) && m.leaves.Keys == NonPeerNames(csrs)
    requires forall k :: k in CsrsByName(csrs) && !CsrsByName(csrs)[k].Peer? <==> k in NonPeerNames(csrs)
    ensures m.leaves == NonPeers(n)
  {
  }

  /* ---- a first completion settles ---- */

  lemma CompletedParts(sh: Shape, f: map<Path, File>, at: Path, regs: set<Registration>)
    ensures var r := WithBundles(Recorded(sh, f), at, regs);
            && r.name == sh.name && r.dir == sh.dir && r.days == sh.days && sh.bundles <= r.bundles
            && r.subs.Keys == sh.subs.Keys
            && (forall k :: k in sh.subs ==> r.subs[k] == WithBundles(Recorded(sh.subs[k], f), at + [k], regs))
            && (forall k :: k in r.csrs ==> k in sh.csrs && r.csrs[k] == sh.csrs[k])
            && (forall k :: k in sh.csrs && !sh.csrs[k].Peer? ==> k in r.csrs)
  {
  }

  lemma {:induction false} RecordedFits(sh: Shape, n: Node, f: map<Path, File>, at: Path, regs: set<Registration>)
    requires NodeShape(n) == WithBundles(Recorded(sh, f), at, regs)
    ensures FitsShape(sh, n)
  {
    hide WithBundles, Recorded, NodeShape;
    CompletedParts(sh, f, at, regs);
    NodeParts(n);
    forall k | k in sh.subs ensures FitsShape(sh.subs[k], n.subs[k]) {
      NodeSubShape(n, k);
      RecordedFits(sh.subs[k], n.subs[k], f, at + [k], regs);
    }
  }

  lemma NodeParts(n: Node)
    ensures var s := NodeShape(n);
            && s.name == n.name && s.dir == n.dir && s.days == n.days && s.bundles == n.bundles
            && s.subs.Keys == n.subs.Keys
            && s.csrs.Keys == n.leaves.Keys && forall k :: k in n.leaves ==> s.csrs[k] == n.leaves[k].csr
  {
  }

  lemma CompleteSettles(b: Builder, ca: Tls, w: World) returns (n: Node, w': World)
    requires WellNamed(b) && LaidOut(BuilderShape(b)) && Consistent(BuilderShape(b), ca, w.files, w.next)
    requires AllReadable(w.files, Bundles(BuilderShape(b)))
    requires NoClashAs(BuilderShape(b), ca.cert.subject, ca.cert.issuerName)
    ensures Complete(b, ca, w) == Ok(n, w') && n.ca == ca
    ensures Settled(BuilderShape(b), n, w')
  {
    hide LaidOut, Bundles, NodeShape, Recorded, SoundSub, SoundCert, AllOnDisk, BuilderShape, WellNamed, FitsShape;
    hide BundlesFresh, Complete;
    n, w' := CompleteSound(b, ca, w);
    CompleteBundles(b, ca, w);
    WithNoBundles(Recorded(BuilderShape(b), w.files), [b.name]);
    RecordedFits(BuilderShape(b), n, w.files, [b.name], {});
  }

  /** Completing a root builder on a consistent disk, and then once more on the disk it left: the second completion
      leaves the world as it is and yields the same signers and the same client and serving entries. */
  lemma RestartStable(b: Builder, w: World) returns (n: Node, w': World, n': Node)
    requires RootBuilder(b) && Ready(BuilderShape(b), w)
    requires var ca := EnsureCA(b.caInfo.value, w).0; NoClashAs(BuilderShape(b), ca.cert.subject, ca.cert.issuerName)
    ensures CompleteRoot(b, w) == Ok(n, w')
    ensures CompleteRoot(b, w') == Ok(n', w') && Restarted(n', n)
  {
    hide LaidOut, Bundles, Consistent, NothingFound, WellNamed, BuilderShape, NoClashAs, Settled, Complete, Restarted;
    hide Nested, Sound;
    EnsureCASound(b, w);
    var (ca, w1) := EnsureCA(b.caInfo.value, w);
    BuilderDir(b);
    CaReadable(BuilderShape(b), w.files, w1.files);
    n, w' := CompleteSettles(b, ca, w1);
    var _, _ := CompleteRootSound(b, w);
    n' := CompleteAgain(b, n, w');
    DirOfCompleted(b, w, n, w');
  }

  lemma DirOfCompleted(b: Builder, w: World, n: Node, w': World)
    requires RootCompleted(b, w, n, w')
    ensures n.dir == b.dir
  {
  }

  /* ---- the chains builder ---- */

  /** A root and its tree have settled. */
  ghost predicate SettledRoot(b: Builder, cs: Chains, w: World) {
    && RootBuilder(b) && b.name in cs && Settled(BuilderShape(b), cs[b.name], w)
    && RootOnDisk(cs[b.name], w.files, w.next)
  }

  ghost predicate SettledRoots(bs: seq<Builder>, cs: Chains, w: World) {
    && (forall i :: 0 <= i < |bs| ==> SettledRoot(bs[i], cs, w))
    && forall i, j :: 0 <= i < j < |bs| ==> bs[i].name != bs[j].name
  }

  lemma RootAgain(b: Builder, cs: Chains, w: World) returns (n: Node)
    requires SettledRoot(b, cs, w)
    ensures b.caInfo.Some? && CompleteRoot(b, w) == Ok(n, w) && b.name in cs && Restarted(n, cs[b.name])
    ensures n.name == b.name
  {
    hide LaidOut, AllOnDisk, FitsShape, BundlesFresh, Sound, Complete, WellNamed, BuilderShape, Restarted, Settled;
    BuilderDir(b);
    SettledBasics(BuilderShape(b), cs[b.name], w);
    n := CompleteAgain(b, cs[b.name], w);
    RestartedName(n, cs[b.name], BuilderShape(b), w);
  }

  /** `again` has the signers and the client and serving entries of `cs`. */
  ghost predicate RestartedAll(again: Chains, cs: Chains) {
    forall k :: k in again ==> k in cs && Restarted(again[k], cs[k])
  }

  lemma {:induction false} SignersAgain(again: Chains, bs: seq<Builder>, cs: Chains, w: World) returns (again': Chains)
    requires SettledRoots(bs, cs, w) && RestartedAll(again, cs) && forall i :: 0 <= i < |bs| ==> bs[i].name !in again
    ensures (forall b :: b in bs ==> b.caInfo.Some?) && CompleteSigners(again, bs, w) == COk(again', w)
    ensures RestartedAll(again', cs) && again'.Keys == again.Keys + Names(bs)
    decreases |bs|
  {
    hide SettledRoot, CompleteRoot, Restarted;
    if bs == [] {
      again' := again;
    } else {
      assert forall i :: 0 <= i < |bs[1..]| ==> bs[1..][i] == bs[i + 1];
      assert SettledRoot(bs[0], cs, w);
      var n := RootAgain(bs[0], cs, w);
      again' := SignersAgain(again[n.name := n], bs[1..], cs, w);
    }
  }

  lemma RestartedWithout(m: Node, n: Node, bundles: set<Path>)
    requires Restarted(m, n)
    ensures m.ca == n.ca && Restarted(m.(bundles := bundles), n)
  {
  }

  lemma RestartedSub(m: Node, n: Node, k: string)
    requires Restarted(m, n) && k in n.subs
    ensures k in m.subs && Restarted(m.subs[k], n.subs[k])
  {
  }

  lemma RestartedWith(m: Node, n: Node, k: string, c: Node)
    requires Restarted(m, n) && k in n.subs && Restarted(c, n.subs[k])
    ensures Restarted(m.(subs := m.subs[k := c]), n)
  {
    hide NonPeers;
  }

  /** Registering a bundle that has its signer's certificate writes nothing. */
  lemma {:induction false} RegisterAgain(m: Node, n: Node, signer: Path, p: Path, w: World) returns (m': Node)
    requires Restarted(m, n) && SignerIn(NodeShape(n), signer) && CertAt(n, signer).Some?
    requires Holds(w.files, p, CertAt(n, signer).value)
    ensures Register(m, signer, p, w) == Ok(m', w) && Restarted(m', n)
    decreases |signer|
  {
    hide Holds, NodeShape, Restarted, AddToBundles;
    if signer == [] {
      RestartedWithout(m, n, m.bundles + set q | q in [p]);
      BundlesAgain(m, [p], w);
      m' := m.(bundles := m.bundles + set q | q in [p]);
    } else {
      var k := signer[0];
      NodeKeys(n);
      NodeSubShape(n, k);
      RestartedSub(m, n, k);
      var c := RegisterAgain(m.subs[k], n.subs[k], signer[1..], p, w);
      RestartedWith(m, n, k, c);
      m' := m.(subs := m.subs[k := c]);
    }
  }

  ghost predicate RegisteredAt(cs: Chains, r: Registration, files: map<Path, File>) {
    && r.signer != [] && r.signer[0] in cs && SignerIn(NodeShape(cs[r.signer[0]]), r.signer[1..])
    && RegistrationFresh(cs, r, files)
  }

  lemma {:induction false} RegistrationsAgain(again: Chains, regs: seq<Registration>, cs: Chains, w: World)
    returns (again': Chains)
    requires RestartedAll(again, cs) && again.Keys == cs.Keys
    requires forall i :: 0 <= i < |regs| ==> RegisteredAt(cs, regs[i], w.files)
    ensures RegisterAll(again, regs, w) == COk(again', w) && RestartedAll(again', cs) && again'.Keys == again.Keys
    decreases |regs|
  {
    hide Restarted, Register, NodeShape, SignerIn, Holds;
    if regs == [] {
      again' := again;
    } else {
      assert RegisteredAt(cs, regs[0], w.files);
      var k := regs[0].signer[0];
      var m := RegisterAgain(again[k], cs[k], regs[0].signer[1..], regs[0].bundle, w);
      assert forall i :: 0 <= i < |regs[1..]| ==> regs[1..][i] == regs[i + 1];
      again' := RegistrationsAgain(again[k := m], regs[1..], cs, w);
    }
  }

  /* ---- everything asked for is on disk ---- */

  lemma CompleteRootOnDisk(b: Builder, w: World)
    requires RootBuilder(b) && Ready(BuilderShape(b), w) && CompleteRoot(b, w).Ok?
    ensures AllOnDisk(BuilderShape(b), CompleteRoot(b, w).w.files)
  {
    hide LaidOut, Bundles, NodeShape, Recorded, Nested, WellNamed, BuilderShape, Consistent, NothingFound, SoundSub;
    hide SoundCert, AllOnDisk;
    EnsureCASound(b, w);
    var (ca, w1) := EnsureCA(b.caInfo.value, w);
    BuilderDir(b);
    CaReadable(BuilderShape(b), w.files, w1.files);
    var _, _ := CompleteSound(b, ca, w1);
  }

  lemma SeparateSame(t: Shape, sh: Shape, f: map<Path, File>, g: map<Path, File>)
    requires Separate(sh, t) && Untouched(f, g, t)
    ensures SameOn(f, g, sh)
  {
    hide Within, Bundles, SameAt;
  }

  /** Completing other roots leaves a tree's files alone. */
  lemma {:induction false} OthersLeave(cs: Chains, bs: seq<Builder>, w: World, sh: Shape)
    requires TopsReady(bs, w) && TopsApart(bs) && (forall b :: b in bs ==> b.caInfo.Some?)
    requires CompleteSigners(cs, bs, w).COk?
    requires forall i :: 0 <= i < |bs| ==> Separate(sh, BuilderShape(bs[i]))
    ensures SameOn(w.files, CompleteSigners(cs, bs, w).w.files, sh)
    decreases |bs|
  {
    if bs == [] {
      assert CompleteSigners(cs, bs, w).w == w;
    } else {
      hide Ready, BuilderShape, CompleteRoot, Separate, SameOn, RootCompleted, RootBuilder, CompleteSigners, TopsApart;
      assert RootBuilder(bs[0]) && Ready(BuilderShape(bs[0]), w) && Separate(sh, BuilderShape(bs[0]));
      var n, w1 := FirstRoot(cs, bs, w);
      SeparateSame(BuilderShape(bs[0]), sh, w.files, w1.files);
      assert forall i :: 0 <= i < |bs[1..]| ==> bs[1..][i] == bs[i + 1];
      OthersLeave(cs[n.name := n], bs[1..], w1, sh);
      SameOnTwice(w.files, w1.files, CompleteSigners(cs, bs, w).w.files, sh);
    }
  }

  /** The first root is completed, and the others can be. */
  lemma FirstRoot(cs: Chains, bs: seq<Builder>, w: World) returns (n: Node, w1: World)
    requires bs != [] && TopsReady(bs, w) && TopsApart(bs) && (forall b :: b in bs ==> b.caInfo.Some?)
    requires CompleteSigners(cs, bs, w).COk?
    ensures CompleteRoot(bs[0], w) == Ok(n, w1)
    ensures CompleteSigners(cs, bs, w) == CompleteSigners(cs[n.name := n], bs[1..], w1)
    ensures TopsReady(bs[1..], w1) && TopsApart(bs[1..]) && Untouched(w.files, w1.files, BuilderShape(bs[0]))
    ensures Later(w, w1)
  {
    hide Ready, LaidOut, BuilderShape, WellNamed, CompleteRoot, Recorded, NodeShape, Healthy, Untouched, AllReadable;
    assert RootBuilder(bs[0]);
    n, w1 := CompleteRootSound(bs[0], w);
    TopsStillReady(bs, w, w1);
    CompleteSignersStep(cs, bs, w, n, w1);
  }

  ghost predicate AllTopsOnDisk(bs: seq<Builder>, files: map<Path, File>) {
    forall i :: 0 <= i < |bs| ==> AllOnDisk(BuilderShape(bs[i]), files)
  }

  lemma {:induction false} SignersOnDisk(cs: Chains, bs: seq<Builder>, w: World)
    requires TopsReady(bs, w) && TopsApart(bs) && (forall b :: b in bs ==> b.caInfo.Some?)
    requires CompleteSigners(cs, bs, w).COk?
    ensures AllTopsOnDisk(bs, CompleteSigners(cs, bs, w).w.files)
    decreases |bs|
  {
    if bs != [] {
      hide Ready, BuilderShape, WellNamed, CompleteRoot, AllOnDisk, Separate, LaidOut, Untouched, SameOn, AllTopsOnDisk;
      hide CompleteSigners;
      assert RootBuilder(bs[0]) && Ready(BuilderShape(bs[0]), w);
      var n, w1 := FirstRoot(cs, bs, w);
      CompleteRootOnDisk(bs[0], w);
      var w' := CompleteSigners(cs, bs, w).w;
      SignersOnDisk(cs[n.name := n], bs[1..], w1);
      assert forall i :: 0 <= i < |bs[1..]| ==> bs[1..][i] == bs[i + 1];
      OthersLeave(cs[n.name := n], bs[1..], w1, BuilderShape(bs[0]));
      SameOnBelow(w1.files, w'.files, BuilderShape(bs[0]));
      AllOnDiskFrame(BuilderShape(bs[0]), w1.files, w'.files);
      FirstAndRest(bs, w'.files);
    }
  }

  lemma FirstAndRest(bs: seq<Builder>, files: map<Path, File>)
    requires bs != [] && AllOnDisk(BuilderShape(bs[0]), files) && AllTopsOnDisk(bs[1..], files)
    ensures AllTopsOnDisk(bs, files)
  {
    hide AllOnDisk, BuilderShape;
    forall i | 0 < i < |bs| ensures AllOnDisk(BuilderShape(bs[i]), files) {
      assert bs[1..][i - 1] == bs[i];
    }
  }

  lemma ChainsOnDisk(bs: seq<Builder>, regs: seq<Registration>, w: World)
    requires TopsReady(bs, w) && TopsApart(bs) && RegistrationsFor(bs, regs, w.files)
    ensures (forall b :: b in bs ==> b.caInfo.Some?) && CompleteChains(bs, regs, w).COk?
    ensures AllTopsOnDisk(bs, CompleteChains(bs, regs, w).w.files)
  {
    hide Intact, Ready, BuilderShape, RootBuilder, Separate, NodeShape, Recorded, RegistrationOk, LaidOut, Within;
    hide AllOnDisk, TreesRecorded;
    hide CompleteSigners, RegisterAll, TreesCompleted, Enrolled, SameOn;
    assert Intact(map[], w) by { EmptyIntact(w); }
    var cs1, w1 := CompleteSignersSound(map[], bs, w);
    BundlesStayReadable(bs, regs, w, cs1, w1);
    forall j | 0 <= j < |regs| ensures RegistrationOk(cs1, regs[j]) {
      RegistrationHolds(cs1, bs, regs[j], w.files);
    }
    var _, w' := RegisterAllSound(cs1, regs, w1);
    SignersOnDisk(map[], bs, w);
    forall i | 0 <= i < |bs| ensures AllOnDisk(BuilderShape(bs[i]), w'.files) {
      assert RootBuilder(bs[i]);
      RegistrationsOutside(bs, regs, i, w.files, w1.files, w'.files);
      RootLaidOut(bs[i]);
      AllOnDiskFrame(BuilderShape(bs[i]), w1.files, w'.files);
    }
  }

  lemma RootLaidOut(b: Builder)
    requires RootBuilder(b)
    ensures LaidOut(BuilderShape(b))
  {
  }

  lemma RegistrationsOutside(bs: seq<Builder>, regs: seq<Registration>, i: nat, f: map<Path, File>, g: map<Path, File>,
                             h: map<Path, File>)
    requires RegistrationsFor(bs, regs, f) && i < |bs| && OnlyRegistered(g, h, Listing(regs))
    ensures SameBelow(g, h, BuilderShape(bs[i]))
  {
    hide BuilderShape, Within, SameAt;
    forall p | Within(BuilderShape(bs[i]), p) ensures SameAt(g, h, p) {
      forall r | r in Listing(regs) ensures r.bundle != p {
        var j :| 0 <= j < |regs| && regs[j] == r;
        assert RegistrationFor(bs, regs[j], f);
      }
    }
  }

  /* ---- completing twice ---- */

  lemma CompletedSettled(b: Builder, regs: set<Registration>, cs: Chains, f: map<Path, File>, w: World)
    requires RootBuilder(b) && Intact(cs, w) && TreeCompleted(cs, b, regs, f) && AllOnDisk(BuilderShape(b), w.files)
    requires AllBundlesFresh(cs, w.files)
    ensures SettledRoot(b, cs, w)
  {
    hide LaidOut, FitsShape, NodeShape, Recorded, WithBundles, BuilderShape, Sound, WellNamed, AllOnDisk, BundlesFresh;
    RecordedFits(BuilderShape(b), cs[b.name], f, [b.name], regs);
    assert RootHealthy(cs, b.name, w);
    HealthySound(cs[b.name], w);
  }

  lemma CompletedRegistration(bs: seq<Builder>, r: Registration, regs: set<Registration>, cs: Chains, f: map<Path,
                              File>, g: map<Path, File>)
    requires TreesCompleted(cs, bs, regs, f) && RegistrationFor(bs, r, f) && r in regs && RegistrationFresh(cs, r, g)
    ensures RegisteredAt(cs, r, g)
  {
    hide NodeShape, Recorded, WithBundles, BuilderShape, Within, RegistrationFresh;
    var i :| 0 <= i < |bs| && bs[i].name == r.signer[0] && SignerIn(BuilderShape(bs[i]), r.signer[1..]);
    assert TreeCompleted(cs, bs[i], regs, f);
    RecordedSigners(BuilderShape(bs[i]), f, r.signer[1..]);
    assert r.signer == [r.signer[0]] + r.signer[1..];
    BundleEnrolled(Recorded(BuilderShape(bs[i]), f), [r.signer[0]], r.signer[1..], r, regs);
  }

  /** Completing a chains builder twice, with the registrations visited in any two orders: the second completion issues
      nothing, leaves the disk as it is, and yields the same signers and the same client and serving entries. */
  lemma ChainsRestartStable(bs: seq<Builder>, regs: seq<Registration>, regs2: seq<Registration>, w: World, cs: Chains,
                            w': World)
    returns (again: Chains)
    requires TopsReady(bs, w) && TopsApart(bs) && RegistrationsFor(bs, regs, w.files) && Listing(regs2) == Listing(regs)
    requires (forall b :: b in bs ==> b.caInfo.Some?) && CompleteChains(bs, regs, w) == COk(cs, w') && NoClashes(cs)
    ensures CompleteChains(bs, regs2, w') == COk(again, w')
    ensures again.Keys == cs.Keys && forall k :: k in cs ==> Restarted(again[k], cs[k])
  {
    hide Intact, Ready, BuilderShape, RootBuilder, Separate, NodeShape, Recorded, RegistrationFor, LaidOut, AllOnDisk;
    hide SettledRoot;
    hide CompleteSigners, RegisterAll, NoClashes, AllBundlesFresh, RegistrationFresh, Restarted, TreeCompleted;
    hide RegisteredAt;
    var all := Listing(regs);
    var _, _ := CompleteChainsSound(bs, regs, w);
    CompleteChainsFresh(bs, regs, w, cs, w');
    ChainsOnDisk(bs, regs, w);
    forall i | 0 <= i < |bs| ensures SettledRoot(bs[i], cs, w') {
      assert RootBuilder(bs[i]);
      CompletedSettled(bs[i], all, cs, w.files, w');
    }
    var cs1 := SignersAgain(map[], bs, cs, w');
    forall j | 0 <= j < |regs2| ensures RegisteredAt(cs, regs2[j], w'.files) {
      assert regs2[j] in Listing(regs2);
      var i :| 0 <= i < |regs| && regs[i] == regs2[j];
      RegistrationAt(bs, regs, i, w.files);
      CompletedRegistration(bs, regs2[j], all, cs, w.files, w'.files);
    }
    again := RegistrationsAgain(cs1, regs2, cs, w');
  }
}
