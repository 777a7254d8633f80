/** The tree certSetup builds, and what every start with it leads to. */
module CertSetup {
  import opened Base
  import opened Pki
  import opened Tree
  import opened Layout
  import opened Renewal
  import opened Regeneration
  import opened Chains
  import opened ChainBundles
  import opened ChainSetup
  import opened SetupBundles
  import opened BundleHomes
  import opened Walk
  import opened Slices
  import opened Rotation
  import opened Validity
  import opened Leftovers
  import opened Reusable
  import opened StartUp

  /** What certSetup reads from the configuration when no root CA is provided. */
  datatype Config = Config(dataDirectory: Path, externalHostname: string, namespace: string, embedEtcd: bool)

  const ROOT := "root-ca"
  const LONG_LIVED := 365 * 5
  const SHORT_LIVED := 365

  function CertsDirectory(cfg: Config): Path { cfg.dataDirectory + ["cert"] }

  function SubCASigner(certs: Path, name: string, csrs: seq<Csr>): Builder {
    Builder(name, certs + [name], SHORT_LIVED, None, [], csrs, [])
  }

  function ServerSigner(cfg: Config, certs: Path): Builder {
    SubCASigner(certs, "server-ca", [
      Serving("kube-apiserver", SHORT_LIVED,
              [cfg.externalHostname, "kubernetes.default", "kubernetes.default.svc",
               "multicluster-controlplane." + cfg.namespace,
               "multicluster-controlplane." + cfg.namespace + ".svc", "localhost", "127.0.0.1", "10.0.0.1"]),
      Serving("kube-aggregator", SHORT_LIVED, ["api.kube-public.svc", "localhost", "127.0.0.1"])])
  }

  function RequestHeaderSigner(certs: Path): Builder {
    SubCASigner(certs, "request-header-ca", [Client("auth-proxy", SHORT_LIVED, UserInfo("system:auth-proxy", "", []))])
  }

  function ClientSigner(certs: Path): Builder {
    SubCASigner(certs, "client-ca", [
      Client("admin", SHORT_LIVED, UserInfo("system:admin", "", ["system:masters"])),
      Client("kube-apiserver", SHORT_LIVED, UserInfo("kube-apiserver", "", [])),
      Client("kube-aggregator", SHORT_LIVED, UserInfo("system:admin", "", ["system:masters"]))])
  }

  function EtcdSigner(certs: Path): Builder {
    SubCASigner(certs, "etcd-ca", [
      Client("client", SHORT_LIVED, UserInfo("etcd", "", ["etcd"])),
      Peer("peer", SHORT_LIVED, UserInfo("system:etcd-peer:client", "", ["system:etcd-peers"]), ["localhost"])])
  }

  /** The root builder; its CAInfo has neither a name nor a validity. */
  function RootSigner(cfg: Config): Builder {
    var certs := CertsDirectory(cfg);
    var dir := certs + [ROOT];
    Builder(ROOT, dir, LONG_LIVED, Some(CAInfo("", 0, CACertPath(dir), CAKeyPath(dir), CASerialsPath(dir))),
            [ServerSigner(cfg, certs), RequestHeaderSigner(certs), ClientSigner(certs)]
            + (if cfg.embedEtcd then [EtcdSigner(certs)] else []),
            [], [])
  }

  function BundlePath(certs: Path, file: string): Path { certs + ["ca-bundle", file] }

  /** The WithCABundle calls, in whatever order the map of file bundles is visited. */
  function Registrations(cfg: Config): set<Registration> {
    var certs := CertsDirectory(cfg);
    {Registration(BundlePath(certs, "root-ca-bundle.crt"), [ROOT]),
     Registration(BundlePath(certs, "server-ca-bundle.crt"), [ROOT, "server-ca"]),
     Registration(BundlePath(certs, "request-header-ca-bundle.crt"), [ROOT, "request-header-ca"]),
     Registration(BundlePath(certs, "client-ca-bundle.crt"), [ROOT, "client-ca"])}
    + (if cfg.embedEtcd then {Registration(BundlePath(certs, "etcd-ca-bundle.crt"), [ROOT, "etcd-ca"])} else {})
  }

  /* ---- flat trees: every directory beside the others ---- */

  ghost predicate GoodCsrs(csrs: seq<Csr>) {
    && (forall i :: 0 <= i < |csrs| ==> csrs[i].name !in CA_FILES && CsrDays(csrs[i]) >= SAFE_DAYS)
    && (forall i, j :: 0 <= i < j < |csrs| ==> csrs[i].name != csrs[j].name)
  }

  /** A sub-CA builder without sub-CAs or bundles, in its own directory under `base`. */
  ghost predicate FlatSub(b: Builder, base: Path) {
    && b.subs == [] && b.bundlePaths == [] && b.dir == base + [b.name] && b.days >= SAFE_DAYS && GoodCsrs(b.csrs)
    && b.name != ROOT && b.name != "ca-bundle"
  }

  ghost predicate FlatSubs(bs: seq<Builder>, base: Path) {
    && (forall i :: 0 <= i < |bs| ==> FlatSub(bs[i], base))
    && (forall i, j :: 0 <= i < j < |bs| ==> bs[i].name != bs[j].name)
  }

  lemma {:induction false} GoodCsrsMean(csrs: seq<Csr>)
    requires GoodCsrs(csrs)
    ensures DistinctCsrs(csrs) && LongCsrs(csrs)
    ensures forall k :: k in CsrsByName(csrs) ==>
                CsrsByName(csrs)[k].name == k && k !in CA_FILES && exists i :: 0 <= i < |csrs| && csrs[i].name == k
    decreases |csrs|
  {
    if csrs != [] {
      var rest := csrs[1..];
      assert forall i :: 0 <= i < |rest| ==> rest[i] == csrs[i + 1];
      GoodCsrsMean(rest);
      forall k | k in CsrsByName(rest) ensures k != csrs[0].name && exists i :: 0 <= i < |csrs| && csrs[i].name == k {
        var i :| 0 <= i < |rest| && rest[i].name == k;
        assert csrs[i + 1].name == k;
      }
      assert csrs[0].name in CsrsByName(csrs);
    }
  }

  /** The shape of a sub-CA in a flat tree. */
  ghost predicate FlatShape(s: Shape, k: string, base: Path) {
    && s.name == k && s.dir == base + [k] && s.subs == map[] && s.bundles == {} && k != ROOT && k != "ca-bundle"
    && forall j :: j in s.csrs ==> s.csrs[j].name == j && j !in CA_FILES
  }

  lemma FlatSubShape(b: Builder, base: Path)
    requires FlatSub(b, base)
    ensures WellNamed(b) && FlatShape(BuilderShape(b), b.name, base) && LongBuilder(b)
  {
    GoodCsrsMean(b.csrs);
  }

  lemma {:induction false} FlatSubsShapes(bs: seq<Builder>, base: Path)
    requires FlatSubs(bs, base)
    ensures AllWellNamed(bs) && LongBuilders(bs)
    ensures forall k :: k in BuilderShapes(bs) ==> FlatShape(BuilderShapes(bs)[k], k, base)
    ensures forall k :: k in BuilderShapes(bs) <==> exists i :: 0 <= i < |bs| && bs[i].name == k
    decreases |bs|
  {
    hide FlatSub, FlatShape, WellNamed, BuilderShape, LongBuilder;
    if bs != [] {
      var rest := bs[1..];
      assert forall i :: 0 <= i < |rest| ==> rest[i] == bs[i + 1];
      FlatSubsShapes(rest, base);
      FlatSubShape(bs[0], base);
      assert bs[0].days >= SAFE_DAYS by { FlatSubDays(bs[0], base); }
      forall k ensures k in BuilderShapes(bs) <==> exists i :: 0 <= i < |bs| && bs[i].name == k {
        if k in BuilderShapes(rest) {
          var i :| 0 <= i < |rest| && rest[i].name == k;
          assert bs[i + 1].name == k;
        }
        if i :| 0 < i < |bs| && bs[i].name == k {
          assert rest[i - 1].name == k;
        }
      }
    }
  }

  lemma FlatSubDays(b: Builder, base: Path)
    requires FlatSub(b, base)
    ensures b.days >= SAFE_DAYS
  {
  }

  ghost predicate FlatRoot(sh: Shape, base: Path) {
    && sh.name == ROOT && sh.dir == base + [ROOT] && sh.csrs == map[] && sh.bundles == {}
    && forall k :: k in sh.subs ==> FlatShape(sh.subs[k], k, base)
  }

  /** A path lies in the tree exactly when its first fragment below the base is the root's or a sub-CA's name. */
  lemma FlatWithin(sh: Shape, base: Path, p: Path)
    requires FlatRoot(sh, base)
    ensures Within(sh, p) <==> base <= p && |p| > |base| && (p[|base|] == ROOT || p[|base|] in sh.subs)
    ensures forall k :: k in sh.subs ==> (Within(sh.subs[k], p) <==> base <= p && |p| > |base| && p[|base|] == k)
  {
    SnocPrefix(base, ROOT, p);
    forall k | k in sh.subs ensures Within(sh.subs[k], p) <==> base <= p && |p| > |base| && p[|base|] == k {
      SnocPrefix(base, k, p);
      assert FlatShape(sh.subs[k], k, base);
    }
  }

  lemma FlatBundles(sh: Shape, base: Path)
    requires FlatRoot(sh, base)
    ensures Bundles(sh) == {}
  {
  }

  lemma FlatSubLaidOut(s: Shape, k: string, base: Path)
    requires FlatShape(s, k, base)
    ensures LaidOut(s) && Nested(s)
  {
  }

  lemma FlatOwnApart(sh: Shape, base: Path, k: string)
    requires FlatRoot(sh, base) && k in sh.subs
    ensures OwnApart(sh, sh.subs[k])
  {
    hide Within;
    assert FlatShape(sh.subs[k], k, base);
    forall p | OwnPath(sh, p) ensures !Within(sh.subs[k], p) {
      FlatWithin(sh, base, p);
      SnocPrefix(base, ROOT, p);
    }
  }

  lemma FlatLaidOut(sh: Shape, base: Path)
    requires FlatRoot(sh, base)
    ensures LaidOut(sh) && SubsNested(sh)
  {
    hide LaidOut, Within, OwnApart, Nested, Bundles;
    forall k | k in sh.subs
      ensures sh.subs[k].name == k && LaidOut(sh.subs[k]) && OwnApart(sh, sh.subs[k]) && Nested(sh.subs[k])
    {
      assert FlatShape(sh.subs[k], k, base);
      FlatSubLaidOut(sh.subs[k], k, base);
      FlatOwnApart(sh, base, k);
    }
    forall j, k | j in sh.subs && k in sh.subs && j != k ensures Apart(sh.subs[j], sh.subs[k]) {
      forall p | Within(sh.subs[j], p) ensures !Within(sh.subs[k], p) {
        FlatWithin(sh, base, p);
      }
    }
    FlatBundles(sh, base);
    LaidOutIntro(sh);
  }

  lemma {:induction false} ShapeOfSub(bs: seq<Builder>, i: nat)
    requires i < |bs| && forall j, l :: 0 <= j < l < |bs| ==> bs[j].name != bs[l].name
    ensures bs[i].name in BuilderShapes(bs) && BuilderShapes(bs)[bs[i].name] == BuilderShape(bs[i])
    decreases |bs|
  {
    hide BuilderShape;
    if i > 0 {
      ShapeOfSub(bs[1..], i - 1);
    }
  }

  lemma {:induction false} RequestNamed(csrs: seq<Csr>, i: nat)
    requires i < |csrs| && forall j, l :: 0 <= j < l < |csrs| ==> csrs[j].name != csrs[l].name
    ensures csrs[i].name in CsrsByName(csrs) && CsrsByName(csrs)[csrs[i].name] == csrs[i]
    decreases |csrs|
  {
    if i > 0 {
      RequestNamed(csrs[1..], i - 1);
    }
  }

  /* ---- the configured tree ---- */

  lemma SubsAreFlat(cfg: Config)
    ensures FlatSubs(RootSigner(cfg).subs, CertsDirectory(cfg))
  {
    hide FlatSub;
    var certs := CertsDirectory(cfg);
    ServerIsFlat(cfg, certs);
    ClientsAreFlat(certs);
    EtcdIsFlat(certs);
  }

  lemma ServerIsFlat(cfg: Config, certs: Path)
    ensures FlatSub(ServerSigner(cfg, certs), certs)
  {
  }

  lemma ClientsAreFlat(certs: Path)
    ensures FlatSub(RequestHeaderSigner(certs), certs) && FlatSub(ClientSigner(certs), certs)
  {
  }

  lemma EtcdIsFlat(certs: Path)
    ensures FlatSub(EtcdSigner(certs), certs)
  {
  }

  lemma RootIsFlat(cfg: Config)
    ensures RootBuilder(RootSigner(cfg)) && FlatRoot(BuilderShape(RootSigner(cfg)), CertsDirectory(cfg))
    ensures LongTops([RootSigner(cfg)])
    ensures forall i :: 0 <= i < |RootSigner(cfg).subs| ==>
                RootSigner(cfg).subs[i].name in BuilderShape(RootSigner(cfg)).subs
  {
    hide FlatSubs, LaidOut, BuilderShapes, AllWellNamed, LongBuilders, FlatShape;
    var b, certs := RootSigner(cfg), CertsDirectory(cfg);
    SubsAreFlat(cfg);
    FlatSubsShapes(b.subs, certs);
    assert BuilderShape(b).csrs == map[] && BuilderShape(b).bundles == {};
    FlatLaidOut(BuilderShape(b), certs);
  }

  /** The disk InitCerts starts from: whatever it holds for the tree chains, and bundle files that exist can be read. */
  ghost predicate ReadyToInit(cfg: Config, w: World) {
    && RootConsistent(BuilderShape(RootSigner(cfg)), w.files, w.next)
    && forall r :: r in Registrations(cfg) ==> Readable(w.files, r.bundle)
  }

  /** An empty disk is ready. */
  lemma EmptyDiskIsReady(cfg: Config, w: World)
    requires w.files == map[]
    ensures ReadyToInit(cfg, w)
  {
    NothingOnEmptyDisk(BuilderShape(RootSigner(cfg)), w.files);
  }

  lemma {:induction false} NothingOnEmptyDisk(sh: Shape, files: map<Path, File>)
    requires files == map[]
    ensures NothingFound(sh, files)
  {
    forall k | k in sh.subs ensures NothingFound(sh.subs[k], files) {
      NothingOnEmptyDisk(sh.subs[k], files);
    }
  }

  lemma RegistrationSigners(cfg: Config, r: Registration)
    requires r in Registrations(cfg)
    ensures r.signer != [] && r.signer[0] == ROOT
    ensures var subs := RootSigner(cfg).subs;
            |r.signer| == 1 || (|r.signer| == 2 && exists i :: 0 <= i < |subs| && subs[i].name == r.signer[1])
    ensures exists f :: r.bundle == BundlePath(CertsDirectory(cfg), f)
  {
    var certs := CertsDirectory(cfg);
    var bs := RootSigner(cfg).subs;
    assert bs[0].name == "server-ca" && bs[1].name == "request-header-ca" && bs[2].name == "client-ca";
    assert cfg.embedEtcd ==> bs[3].name == "etcd-ca";
  }

  lemma RegistrationFits(cfg: Config, r: Registration, files: map<Path, File>)
    requires r in Registrations(cfg) && Readable(files, r.bundle)
    ensures RegistrationFor([RootSigner(cfg)], r, files)
  {
    hide RootBuilder, LongTops, Within, Registrations, RootSigner, BuilderShape;
    var bs, certs := [RootSigner(cfg)], CertsDirectory(cfg);
    var sh := BuilderShape(bs[0]);
    RegistrationSigners(cfg, r);
    RootIsFlat(cfg);
    assert bs[0].name == ROOT by { RootName(cfg); }
    assert SignerIn(sh, r.signer[1..]) by {
      if |r.signer| == 2 {
        assert r.signer[1..] == [r.signer[1]] && r.signer[1..][1..] == [];
      }
    }
    var f :| r.bundle == BundlePath(certs, f);
    FlatWithin(sh, certs, r.bundle);
    assert r.bundle[|certs|] == "ca-bundle";
    NoBundleDir(sh, certs);
  }

  lemma NoBundleDir(sh: Shape, base: Path)
    requires FlatRoot(sh, base)
    ensures "ca-bundle" !in sh.subs
  {
  }

  lemma RootName(cfg: Config)
    ensures RootSigner(cfg).name == ROOT
  {
  }

  lemma SetupReady(cfg: Config, regs: seq<Registration>, w: World)
    requires ReadyToInit(cfg, w) && Enumerates(regs, Registrations(cfg))
    ensures TopsReady([RootSigner(cfg)], w) && TopsApart([RootSigner(cfg)])
    ensures RegistrationsFor([RootSigner(cfg)], regs, w.files)
  {
    hide RootBuilder, RootConsistent, Within, LongTops, FlatShape, Registrations, RootSigner, BuilderShape;
    RootIsFlat(cfg);
    FlatBundles(BuilderShape(RootSigner(cfg)), CertsDirectory(cfg));
    forall j | 0 <= j < |regs| ensures RegistrationFor([RootSigner(cfg)], regs[j], w.files) {
      assert regs[j] in Registrations(cfg);
      RegistrationFits(cfg, regs[j], w.files);
    }
  }

  lemma SetupSingleSigners(cfg: Config)
    ensures SingleSigners(Registrations(cfg))
  {
    var certs := CertsDirectory(cfg);
    forall r, s | r in Registrations(cfg) && s in Registrations(cfg) && r.bundle == s.bundle
      ensures r.signer == s.signer
    {
      var f := r.bundle[|certs| + 1];
      assert f == s.bundle[|certs| + 1];
    }
  }

  lemma {:induction false} NoBundlesAt(sh: Shape, q: Path)
    requires Bundles(sh) == {}
    ensures BundlesAt(sh, q) == {}
    decreases |q|
  {
    assert sh.bundles <= Bundles(sh);
    if q != [] && q[0] in sh.subs {
      assert forall p :: p in Bundles(sh.subs[q[0]]) ==> p in Bundles(sh);
      NoBundlesAt(sh.subs[q[0]], q[1..]);
    }
  }

  /** The configured tree cannot clash: each bundle belongs to one signer. */
  lemma SetupNoClashes(cfg: Config, regs: seq<Registration>, w: World, cs: Chains, w': World)
    requires ReadyToInit(cfg, w) && Enumerates(regs, Registrations(cfg)) && RootSigner(cfg).caInfo.Some?
    requires CompleteChains([RootSigner(cfg)], regs, w) == COk(cs, w')
    ensures NoClashes(cs)
  {
    hide Intact, TopsReady, RegistrationFor, RegistrationOk, CompleteSigners, RegisterAll, NoClashes, FromRegistrations;
    hide NodeShape;
    hide Registrations, RootSigner, ReadyToInit, RegistrationsFor, BuilderShape, RootBuilder, FlatShape, LongTops;
    var bs, all := [RootSigner(cfg)], Registrations(cfg);
    SetupReady(cfg, regs, w);
    assert Intact(map[], w) by { EmptyIntact(w); }
    var cs1, w1 := CompleteSignersSound(map[], bs, w);
    BundlesStayReadable(bs, regs, w, cs1, w1);
    forall j | 0 <= j < |regs| ensures RegistrationOk(cs1, regs[j]) {
      RegistrationAt(bs, regs, j, w.files);
      RegistrationHolds(cs1, bs, regs[j], w.files);
    }
    RootName(cfg);
    assert bs[1..] == [] && Names(bs) == {ROOT};
    assert cs1.Keys == {ROOT};
    StartsEmpty(cfg, cs1, w, all);
    RegisteredFrom(cs1, regs, w1, cs, w', all);
    SetupSingleSigners(cfg);
    SingleTreeNoClashes(cs, all, ROOT);
  }

  lemma StartsEmpty(cfg: Config, cs: Chains, w: World, all: set<Registration>)
    requires cs.Keys == {ROOT} && TreesRecorded(cs, [RootSigner(cfg)], w.files)
    ensures FromRegistrations(cs, all)
  {
    hide Recorded, NodeShape, BuilderShape, BundlesAt, LongTops, FlatShape, RootBuilder, RootSigner;
    var b := RootSigner(cfg);
    RootName(cfg);
    assert TreeRecorded(cs, [b][0], w.files);
    RootIsFlat(cfg);
    FlatBundles(BuilderShape(b), CertsDirectory(cfg));
    RecordedRegions(BuilderShape(b), w.files);
    forall q ensures BundlesAt(NodeShape(cs[ROOT]), q) == {} {
      NoBundlesAt(NodeShape(cs[ROOT]), q);
    }
  }

  /** The disk is ready again once the tree is completed and renewed. */
  lemma ReadyAgain(cfg: Config, regs: seq<Registration>, w: World, cs: Chains, w1: World, calls: seq<Call>, cs': Chains,
                   w': World)
    requires ReadyToInit(cfg, w) && Enumerates(regs, Registrations(cfg)) && RootSigner(cfg).caInfo.Some?
    requires CompleteChains([RootSigner(cfg)], regs, w) == COk(cs, w1) && Intact(cs, w1) && Run(cs, w1, calls, cs', w')
    ensures ReadyToInit(cfg, w')
  {
    hide Intact, Registrations, RootSigner, CompleteChains, TopsReady, RegistrationsFor, RootBuilder, LongTops;
    hide FlatRoot, NodeShape, Tracked, Run;
    hide BuilderShape, RootConsistent, Bundles, LaidOut, FlatShape;
    var b := RootSigner(cfg);
    SetupReady(cfg, regs, w);
    CompleteTracked(b, regs, w, cs, w1);
    RootIsFlat(cfg);
    SingleTop(b, w);
    RunTracked(cs, BuilderShape(b), b.name, w1, calls, cs', w');
    RunKeepsIntact(cs, w1, calls, cs', w');
    TrackedReady(BuilderShape(b), cs', b.name, w');
    TrackedKeys(BuilderShape(b), cs, b.name, w1);
    forall r | r in Registrations(cfg) ensures Readable(w'.files, r.bundle) {
      assert r in regs;
    }
  }

  lemma TrackedKeys(s: Shape, cs: Chains, root: string, w: World)
    requires Tracked(s, cs, root, w)
    ensures cs.Keys == {root}
  {
  }

  /* ---- a start ---- */

  /** A start, certSetup followed by the renewal loop, leads from `w` to `cs` and `w'`. */
  ghost predicate Started(cfg: Config, w: World, cs: Chains, w': World) {
    exists regs, calls :: Enumerates(regs, Registrations(cfg)) && StartsUp(RootSigner(cfg), regs, w, calls, cs, w')
  }

  /** Every certificate asked for has become what it should. */
  ghost predicate AllMet(cfg: Config, w: World, w': World) {
    forall q :: Resolves(BuilderShape(RootSigner(cfg)), q) ==> Outcome(RootSigner(cfg), q, w, w')
  }

  lemma SetupPrepared(cfg: Config, regs: seq<Registration>, w: World)
    requires ReadyToInit(cfg, w) && Enumerates(regs, Registrations(cfg))
    ensures Prepared(RootSigner(cfg), regs, w)
  {
    hide TopsReady, RegistrationsFor, LongTops, ReadyToInit, Registrations, BuilderShape, RootBuilder, FlatRoot;
    SetupReady(cfg, regs, w);
    RootIsFlat(cfg);
  }

  lemma ListingAll(regs: seq<Registration>, all: set<Registration>)
    requires Enumerates(regs, all)
    ensures Listing(regs) == all
  {
  }

  lemma SameTrees(b: Builder, regs: set<Registration>, cs: Chains, cs': Chains, f: map<Path, File>)
    requires TreesCompleted(cs, [b], regs, f) && SameShapes(cs, cs')
    ensures TreesCompleted(cs', [b], regs, f)
  {
    hide NodeShape, WithBundles, Recorded, BuilderShape;
    assert TreeCompleted(cs, [b][0], regs, f);
  }

  lemma StartedParts(cfg: Config, w: World, cs: Chains, w': World)
    returns (regs: seq<Registration>, cs1: Chains, w1: World, calls: seq<Call>)
    requires Started(cfg, w, cs, w')
    ensures Enumerates(regs, Registrations(cfg)) && StartsUp(RootSigner(cfg), regs, w, calls, cs, w')
    ensures RootSigner(cfg).caInfo.Some? && CompleteChains([RootSigner(cfg)], regs, w) == COk(cs1, w1)
    ensures InitCalls(cs1, w.now, calls) && Run(cs1, w1, calls, cs, w')
  {
    hide Registrations, CompleteChains, InitCalls, Run, Enumerates;
    regs, calls :| Enumerates(regs, Registrations(cfg)) && StartsUp(RootSigner(cfg), regs, w, calls, cs, w');
    var o := CompleteChains([RootSigner(cfg)], regs, w);
    cs1, w1 := o.cs, o.w;
  }

  /** What any start from a ready disk leads to, whatever orders maps and sets are visited in: an intact state, trees
      with every signer, request and bundle configured, every bundle with the current certificate of its signer,
      nothing due, and a disk the next start can begin from. */
  lemma StartSound(cfg: Config, w: World, cs: Chains, w': World)
    requires ReadyToInit(cfg, w) && Started(cfg, w, cs, w')
    ensures cs.Keys == {ROOT} && Intact(cs, w') && TreesCompleted(cs, [RootSigner(cfg)], Registrations(cfg), w.files)
    ensures AllBundlesFresh(cs, w'.files) && RegistrationsFresh(cs, Registrations(cfg), w'.files)
    ensures Rotation.CertsToRegenerate(AllVisits(cs), w.now) == []
    ensures ReadyToInit(cfg, w') && AllMet(cfg, w, w')
  {
    hide Intact, AllVisits, Registrations, RootSigner, ReadyToInit, CompleteChains, SameShapes, InitCalls, Run;
    hide TreesCompleted;
    hide ValidityOk, Rotation.CertsToRegenerate, NoClashes, AllBundlesFresh, TopsReady, RegistrationsFor, RootBuilder;
    hide LongTops, Enumerates, FlatRoot;
    hide RegistrationFresh, Outcome, Resolves, BuilderShape, StartsUp, RegistrationFor;
    var b, all := RootSigner(cfg), Registrations(cfg);
    var regs, cs1, w1, calls := StartedParts(cfg, w, cs, w');
    SetupPrepared(cfg, regs, w);
    RootName(cfg);
    var _, _ := CompleteChainsSound([b], regs, w);
    ListingAll(regs, all);
    SetupNoClashes(cfg, regs, w, cs1, w1);
    CompleteChainsFresh([b], regs, w, cs1, w1);
    CompletedValidityOk([b], regs, w);
    InitCertsConverges(cs1, w1, calls, cs, w');
    SameTrees(b, all, cs1, cs, w.files);
    TreesAreNamed(b, all, cs, w.files);
    RunKeepsFresh(cs1, w1, calls, cs, w');
    forall r | r in all ensures RegistrationFresh(cs, r, w'.files) {
      SetupRegistration(cfg, regs, r, w);
      RegistrationIsFresh(cs, [b], r, all, w.files, w'.files);
    }
    ReadyAgain(cfg, regs, w, cs1, w1, calls, cs, w');
    forall q | Resolves(BuilderShape(b), q) ensures Outcome(b, q, w, w') {
      StartUpOutcome(b, regs, w, calls, cs, w', q);
    }
  }

  lemma TreesAreNamed(b: Builder, regs: set<Registration>, cs: Chains, f: map<Path, File>)
    requires TreesCompleted(cs, [b], regs, f)
    ensures cs.Keys == {b.name}
  {
    assert [b][1..] == [] && Names([b]) == {b.name};
  }

  lemma SetupRegistration(cfg: Config, regs: seq<Registration>, r: Registration, w: World)
    requires Enumerates(regs, Registrations(cfg)) && RegistrationsFor([RootSigner(cfg)], regs, w.files)
    requires r in Registrations(cfg)
    ensures RegistrationFor([RootSigner(cfg)], r, w.files)
  {
    hide Registrations, RootSigner, RegistrationFor;
    var j :| 0 <= j < |regs| && regs[j] == r;
    RegistrationAt([RootSigner(cfg)], regs, j, w.files);
  }

  lemma {:induction false} LaidOutNamesApart(n: Node)
    requires LaidOut(NodeShape(n))
    ensures NamesApart(n)
  {
    NodeKeys(n);
    forall k | k in n.subs ensures NamesApart(n.subs[k]) {
      NodeSubShape(n, k);
      SubLaidOut(NodeShape(n), k);
      LaidOutNamesApart(n.subs[k]);
    }
  }

  lemma FlatCompleted(sh: Shape, base: Path, f: map<Path, File>, at: Path, regs: set<Registration>, k: string)
    requires FlatRoot(sh, base) && k in WithBundles(Recorded(sh, f), at, regs).subs
    ensures WithBundles(Recorded(sh, f), at, regs).subs[k].subs == map[]
  {
    assert FlatShape(sh.subs[k], k, base);
  }

  lemma NoSubsBelow(n: Node)
    requires NodeShape(n).subs == map[]
    ensures n.subs == map[]
  {
    NodeKeys(n);
  }

  /** In the configured tree paths have at most three fragments, so those certsToRegenerate keeps stay what they
      were. */
  lemma SetupPathsLast(cfg: Config, w: World, cs: Chains, w': World, vs: seq<Visit>)
    requires ReadyToInit(cfg, w) && Started(cfg, w, cs, w') && Keeps(cs, vs)
    ensures vs == AllVisits(cs)
  {
    hide Registrations, RootSigner, ReadyToInit, Started, Keeps, AllVisits, Recorded, WithBundles, BuilderShape;
    hide FlatRoot, LongTops, RootBuilder;
    hide NamesApart, RegistrationsFresh, AllBundlesFresh, AllMet, Rotation.CertsToRegenerate, NodeShape, Healthy;
    hide RootOnDisk, AllSeparate;
    var b, certs := RootSigner(cfg), CertsDirectory(cfg);
    StartSound(cfg, w, cs, w');
    RootIsFlat(cfg);
    RootName(cfg);
    TreeCovers(b, Registrations(cfg), cs, w.files);
    assert RootHealthy(cs, ROOT, w');
    HealthyLaidOut(cs[ROOT], w');
    LaidOutNamesApart(cs[ROOT]);
    NodeKeys(cs[ROOT]);
    forall j | j in cs[ROOT].subs ensures cs[ROOT].subs[j].subs == map[] {
      NodeSubShape(cs[ROOT], j);
      FlatCompleted(BuilderShape(b), certs, w.files, [b.name], Registrations(cfg), j);
      NoSubsBelow(cs[ROOT].subs[j]);
    }
    ListedRightly(cs, vs);
  }

  /** A ready disk can be started from. */
  lemma StartExists(cfg: Config, w: World) returns (cs: Chains, w': World)
    requires ReadyToInit(cfg, w)
    ensures Started(cfg, w, cs, w')
  {
    hide Registrations, RootSigner, ReadyToInit, StartsUp, Prepared;
    var regs := EnumerationExists(Registrations(cfg));
    SetupPrepared(cfg, regs, w);
    var calls, cs0, w0 := StartUpExists(RootSigner(cfg), regs, w);
    cs, w' := cs0, w0;
  }
}
