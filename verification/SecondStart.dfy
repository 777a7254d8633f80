/** Starting again on the disk a start has left: with nothing due and nothing missing it changes nothing; with etcd
    embedded and more than 155 days gone by it takes the etcd peer certificate away until the start after that. */
module SecondStart {
  import opened Base
  import opened Pki
  import opened Tree
  import opened Completion
  import opened Regeneration
  import opened Chains
  import opened ChainSetup
  import opened ChainBundles
  import opened SetupBundles
  import opened Walk
  import opened Layout
  import opened Restart
  import opened Rotation
  import opened Requests
  import opened Validity
  import opened StartUp
  import opened CertSetup

  const ETCD: Path := ["etcd-ca"]
  const PEER: Path := ["etcd-ca", "peer"]

  function Configured(cfg: Config): Shape { BuilderShape(RootSigner(cfg)) }

  lemma EtcdRequests(cfg: Config)
    requires cfg.embedEtcd
    ensures var s := Configured(cfg);
            && Resolves(s, PEER) && PeerAt(s, PEER) && Resolves(s, ETCD) && !PeerAt(s, ETCD)
            && DaysAt(s, ETCD) == SHORT_LIVED
  {
    hide BuilderShapes, CsrsByName, FlatSub;
    var b, etcd := RootSigner(cfg), EtcdSigner(CertsDirectory(cfg));
    assert b.subs[3] == etcd;
    SubsAreFlat(cfg);
    ShapeOfSub(b.subs, 3);
    RequestNamed(etcd.csrs, 1);
    assert BuilderShapes([]) == map[] by { NoSubs(); }
    assert PEER[1..] == ["peer"] && ETCD[1..] == [];
  }

  lemma NoSubs()
    ensures BuilderShapes([]) == map[]
  {
  }

  lemma {:induction false} NothingHeld(s: Shape, q: Path, f: map<Path, File>)
    requires f == map[]
    ensures Held(s, q, f) == None && HeldBelow(s, q, f) == None
    decreases |q|
  {
    if q != [] && q[0] in s.subs {
      NothingHeld(s.subs[q[0]], q[1..], f);
    }
  }

  /** A start leaves a disk to start from again, and each certificate asked for meets its outcome. */
  lemma StartMeets(cfg: Config, w: World, cs: Chains, w': World, q: Path)
    requires ReadyToInit(cfg, w) && Started(cfg, w, cs, w')
    ensures ReadyToInit(cfg, w') && RootSigner(cfg).caInfo.Some?
    ensures Resolves(Configured(cfg), q) ==> Outcome(RootSigner(cfg), q, w, w')
  {
    hide Started, BuilderShape, Resolves, Outcome, ReadyToInit, Intact, TreesCompleted, RegistrationsFresh;
    hide AllBundlesFresh, CertsToRegenerate;
    hide AllVisits, Registrations;
    StartSound(cfg, w, cs, w');
  }

  /** The first start issues every certificate asked for. */
  lemma FirstStart(cfg: Config, w: World, cs: Chains, w': World, q: Path)
    requires w.files == map[] && Started(cfg, w, cs, w') && Resolves(Configured(cfg), q)
    ensures Held(Configured(cfg), q, w'.files).Some?
    ensures Renewed(Held(Configured(cfg), q, w'.files).value.cert, w.next, w.now, CreationDays(RootSigner(cfg), q))
  {
    hide Started, RootSigner, BuilderShape, Held, Resolves, CreationDays, PeerAt, ReadyToInit;
    var s := Configured(cfg);
    EmptyDiskIsReady(cfg, w);
    StartMeets(cfg, w, cs, w', q);
    forall p ensures !DueOnDisk(s, p, w) {
      NothingHeld(s, p, w.files);
    }
    NothingHeld(s, q, w.files);
  }

  lemma PeerToRenew(s: Shape, w: World)
    requires PeerAt(s, PEER)
    ensures ToRenew(s, PEER, w) <==> DueOnDisk(s, [], w) || DueOnDisk(s, ETCD, w)
  {
    hide Resolves, PeerAt, Held, Due;
    assert [] <= PEER && ETCD <= PEER;
    forall p | p <= PEER && DueOnDisk(s, p, w) ensures p == [] || p == ETCD {
      assert p == PEER[..|p|];
      assert |p| == 2 ==> p == PEER;
      assert |p| == 1 ==> p == ETCD;
    }
  }

  /** Started on an empty disk and again `t` seconds later, the etcd peer certificate is there after the first start,
      and is gone after the second if and only if more than 155 days went by, or the clock was set back by more than
      a second. */
  lemma PeerLostIff(cfg: Config, w: World, cs1: Chains, w1: World, t: int, cs2: Chains, w2: World)
    requires cfg.embedEtcd && w.files == map[]
    requires Started(cfg, w, cs1, w1) && Started(cfg, w1.(now := w.now + t), cs2, w2)
    ensures Held(Configured(cfg), PEER, w1.files).Some?
    ensures Held(Configured(cfg), PEER, w2.files) == None <==> t > 155 * DAY || t < -BACKDATE
  {
    hide Started, RootSigner, BuilderShape, Held, Resolves, PeerAt, DaysAt, ReadyToInit;
    var b, s, again := RootSigner(cfg), Configured(cfg), w1.(now := w.now + t);
    EtcdRequests(cfg);
    RootRequest(cfg);
    FirstStart(cfg, w, cs1, w1, []);
    FirstStart(cfg, w, cs1, w1, ETCD);
    FirstStart(cfg, w, cs1, w1, PEER);
    EmptyDiskIsReady(cfg, w);
    StartMeets(cfg, w, cs1, w1, []);
    ReadyAnyTime(cfg, w1, again.now);
    StartMeets(cfg, again, cs2, w2, PEER);
    PeerToRenew(s, again);
  }

  lemma RootRequest(cfg: Config)
    ensures Resolves(Configured(cfg), []) && !PeerAt(Configured(cfg), [])
    ensures RootSigner(cfg).caInfo.Some? && CreationDays(RootSigner(cfg), []) == LONG_LIVED
  {
  }

  lemma ReadyAnyTime(cfg: Config, w: World, now: int)
    requires ReadyToInit(cfg, w)
    ensures ReadyToInit(cfg, w.(now := now))
  {
  }

  lemma RootToRenew(s: Shape, w: World)
    ensures ToRenew(s, [], w) <==> DueOnDisk(s, [], w)
  {
    hide DueOnDisk;
    var here: Path := [];
    assert here <= here;
  }

  /** The certificate file of a CA that can be read. */
  lemma RootFile(files: map<Path, File>, dir: Path)
    requires GetRoot(files, dir).Some?
    ensures dir + ["ca.crt"] in files && files[dir + ["ca.crt"]] == CertFile(GetRoot(files, dir).value.Pem())
  {
  }

  lemma RootNumber(cfg: Config, w: World)
    requires ReadyToInit(cfg, w) && Held(Configured(cfg), [], w.files).Some?
    ensures Held(Configured(cfg), [], w.files).value.cert.id < w.next
  {
    hide Consistent, GetCA, BuilderShapes, Registrations;
  }

  /** Started on an empty disk and again `t` seconds later, the root CA on disk is replaced if and only if more than
      1285 days went by, or the clock was set back by more than a second. */
  lemma RootReplacedIff(cfg: Config, w: World, cs1: Chains, w1: World, t: int, cs2: Chains, w2: World)
    requires w.files == map[] && Started(cfg, w, cs1, w1) && Started(cfg, w1.(now := w.now + t), cs2, w2)
    ensures var ca := cfg.dataDirectory + ["cert", "root-ca", "ca.crt"];
            && ca in w1.files && ca in w2.files
            && (w1.files[ca] != w2.files[ca] <==> t > 1285 * 86400 || t < -1)
  {
    hide Started, RootSigner, BuilderShape, Held, Resolves, PeerAt, DaysAt, ReadyToInit, GetRoot;
    var b, s, again := RootSigner(cfg), Configured(cfg), w1.(now := w.now + t);
    RootRequest(cfg);
    FirstStart(cfg, w, cs1, w1, []);
    EmptyDiskIsReady(cfg, w);
    StartMeets(cfg, w, cs1, w1, []);
    ReadyAnyTime(cfg, w1, again.now);
    StartMeets(cfg, again, cs2, w2, []);
    RootToRenew(s, again);
    RootNumber(cfg, w1);
    var first, second := Held(s, [], w1.files).value, Held(s, [], w2.files).value;
    DueByAge(first.cert, w.now, 1825, t);
    HeldRoot(cfg, w1.files);
    HeldRoot(cfg, w2.files);
    assert first.Pem()[0] == first.cert && second.Pem()[0] == second.cert;
  }

  lemma HeldRoot(cfg: Config, files: map<Path, File>)
    requires Held(Configured(cfg), [], files).Some?
    ensures var ca := cfg.dataDirectory + ["cert", "root-ca", "ca.crt"];
            ca in files && files[ca] == CertFile(Held(Configured(cfg), [], files).value.Pem())
  {
    hide GetRoot, BuilderShapes;
    var dir := cfg.dataDirectory + ["cert"] + ["root-ca"];
    assert dir + ["ca.crt"] == cfg.dataDirectory + ["cert", "root-ca", "ca.crt"];
    assert Configured(cfg).dir == dir;
    RootFile(files, dir);
  }

  /** The start after that, whenever it comes, issues the certificate again. */
  lemma PeerBack(cfg: Config, w: World, cs: Chains, w': World)
    requires cfg.embedEtcd && ReadyToInit(cfg, w) && Held(Configured(cfg), PEER, w.files) == None
    requires Started(cfg, w, cs, w')
    ensures Held(Configured(cfg), PEER, w'.files).Some?
  {
    hide Started, RootSigner, BuilderShape, Held, Resolves, PeerAt, ReadyToInit;
    EtcdRequests(cfg);
    StartMeets(cfg, w, cs, w', PEER);
  }

  /** Such starts exist: the certificate is lost, and comes back. */
  lemma PeerLost(cfg: Config, w: World, t: int)
    returns (cs1: Chains, w1: World, cs2: Chains, w2: World, cs3: Chains, w3: World)
    requires cfg.embedEtcd && w.files == map[] && t > 155 * DAY
    ensures Started(cfg, w, cs1, w1) && Started(cfg, w1.(now := w.now + t), cs2, w2) && Started(cfg, w2, cs3, w3)
    ensures var s := Configured(cfg);
            Held(s, PEER, w1.files).Some? && Held(s, PEER, w2.files) == None && Held(s, PEER, w3.files).Some?
  {
    hide Started, BuilderShape, Held, ReadyToInit;
    EtcdRequests(cfg);
    RootRequest(cfg);
    EmptyDiskIsReady(cfg, w);
    cs1, w1 := StartExists(cfg, w);
    StartMeets(cfg, w, cs1, w1, PEER);
    ReadyAnyTime(cfg, w1, w.now + t);
    cs2, w2 := StartExists(cfg, w1.(now := w.now + t));
    StartMeets(cfg, w1.(now := w.now + t), cs2, w2, PEER);
    PeerLostIff(cfg, w, cs1, w1, t, cs2, w2);
    cs3, w3 := StartExists(cfg, w2);
    PeerBack(cfg, w2, cs3, w3);
  }

  /* ---- nothing to do ---- */

  lemma {:induction false} HeldOnDisk(s: Shape, f: map<Path, File>)
    requires forall q :: Resolves(s, q) ==> HeldBelow(s, q, f).Some? || q == []
    requires s.subs.Keys !! s.csrs.Keys && LaidOut(s)
    ensures AllOnDisk(s, f)
  {
    hide LaidOut, GetLeaf, GetSubCA;
    forall k | k in s.csrs ensures GetLeaf(f, s.dir, s.csrs[k]).Some? {
      assert Resolves(s, [k]);
    }
    forall k | k in s.subs ensures GetSubCA(f, s.subs[k].dir).Some? && AllOnDisk(s.subs[k], f) {
      HeldAtSub(s, k, f);
      forall q | Resolves(s.subs[k], q) ensures HeldBelow(s.subs[k], q, f).Some? {
        assert ([k] + q)[1..] == q && Resolves(s, [k] + q);
      }
      SubLaidOut(s, k);
      KeysApart(s.subs[k]);
      HeldOnDisk(s.subs[k], f);
    }
  }

  lemma HeldAtSub(s: Shape, k: string, f: map<Path, File>)
    requires k in s.subs
    ensures Resolves(s, [k]) && HeldBelow(s, [k], f) == GetSubCA(f, s.subs[k].dir)
  {
    assert [k][1..] == [];
  }

  lemma KeysApart(s: Shape)
    requires LaidOut(s)
    ensures s.subs.Keys !! s.csrs.Keys
  {
  }

  /** Nothing asked for is missing from the disk, and nothing on it is due. */
  ghost predicate NothingToDo(cfg: Config, w: World) {
    && (forall q :: Resolves(Configured(cfg), q) ==> Held(Configured(cfg), q, w.files).Some?)
    && (forall q :: !DueOnDisk(Configured(cfg), q, w))
  }

  lemma StartSettles(cfg: Config, w: World, cs: Chains, w': World, now: int)
    requires ReadyToInit(cfg, w) && Started(cfg, w, cs, w') && NothingToDo(cfg, w'.(now := now))
    ensures SettledRoot(RootSigner(cfg), cs, w'.(now := now))
    ensures forall r :: r in Registrations(cfg) ==> RegisteredAt(cs, r, w'.files)
  {
    hide Started, BuilderShape, Resolves, Outcome, ReadyToInit, Intact, TreesCompleted, AllBundlesFresh;
    hide CertsToRegenerate;
    hide AllVisits, Registrations, RegistrationFresh, Held, DueOnDisk, AllMet, LaidOut, RootSigner, FlatRoot, LongTops;
    hide AllOnDisk, SettledRoot;
    hide RegisteredAt, RegistrationFor, RegistrationsFor, TopsReady, Enumerates, RootBuilder;
    var b, again := RootSigner(cfg), w'.(now := now);
    StartSound(cfg, w, cs, w');
    RootIsFlat(cfg);
    RootLaidOut(b);
    KeysApart(BuilderShape(b));
    forall q | Resolves(BuilderShape(b), q) && q != [] ensures HeldBelow(BuilderShape(b), q, w'.files).Some? {
      assert Held(Configured(cfg), q, again.files).Some?;
      HeldIsBelow(BuilderShape(b), q, w'.files);
    }
    HeldOnDisk(BuilderShape(b), w'.files);
    IntactAnyTime(cs, w', now);
    TreeOf(b, Registrations(cfg), cs, w.files);
    CompletedSettled(b, Registrations(cfg), cs, w.files, again);
    var regs := EnumerationExists(Registrations(cfg));
    SetupReady(cfg, regs, w);
    forall r | r in Registrations(cfg) ensures RegisteredAt(cs, r, w'.files) {
      SetupRegistration(cfg, regs, r, w);
      CompletedRegistration([b], r, Registrations(cfg), cs, w.files, w'.files);
    }
  }

  lemma TreeOf(b: Builder, regs: set<Registration>, cs: Chains, f: map<Path, File>)
    requires TreesCompleted(cs, [b], regs, f)
    ensures TreeCompleted(cs, b, regs, f)
  {
    assert TreeCompleted(cs, [b][0], regs, f);
  }

  lemma HeldIsBelow(s: Shape, q: Path, f: map<Path, File>)
    requires q != []
    ensures Held(s, q, f) == HeldBelow(s, q, f)
  {
  }

  /** Started again while nothing is due and nothing is missing, it leaves the disk as it is and issues nothing. */
  lemma QuietRestart(cfg: Config, w: World, cs: Chains, w': World, now: int, cs2: Chains, w2: World)
    requires ReadyToInit(cfg, w) && Started(cfg, w, cs, w') && NothingToDo(cfg, w'.(now := now))
    requires Started(cfg, w'.(now := now), cs2, w2)
    ensures w2 == w'.(now := now) && RestartedAll(cs2, cs) && cs2.Keys == cs.Keys
  {
    hide Started, BuilderShape, Resolves, Outcome, ReadyToInit, Intact, TreesCompleted, AllBundlesFresh;
    hide CertsToRegenerate, CompleteSigners;
    hide AllVisits, Registrations, Held, DueOnDisk, AllMet, RootSigner, AllOnDisk, SettledRoot, RegisterAll;
    hide RegistrationsFresh, Restarted;
    hide RegisteredAt, Enumerates, Prepared;
    var b, again := RootSigner(cfg), w'.(now := now);
    StartSound(cfg, w, cs, w');
    ReadyAnyTime(cfg, w', now);
    StartSettles(cfg, w, cs, w', now);
    var regs, cs1, w1, calls := StartedParts(cfg, again, cs2, w2);
    assert RestartedAll(map[], cs);
    var s1 := SignersAgain(map[], [b], cs, again);
    assert [b][1..] == [] && Names([b]) == {b.name};
    RootName(cfg);
    forall j | 0 <= j < |regs| ensures RegisteredAt(cs, regs[j], again.files) {
      EnumeratesMember(regs, Registrations(cfg), j);
    }
    var s2 := RegistrationsAgain(s1, regs, cs, again);
    assert cs1 == s2 && w1 == again;
    SetupPrepared(cfg, regs, again);
    var listed := CertsToRegenerate(AllVisits(cs1), again.now);
    if listed != [] {
      var p := SomethingListed(cs1, b.name, again.now);
      NotDue(cfg, again, p);
      ListedIffDueOnDisk(b, regs, again, cs1, w1, p);
    }
    assert calls == [];
  }

  lemma EnumeratesMember(regs: seq<Registration>, all: set<Registration>, j: nat)
    requires Enumerates(regs, all) && j < |regs|
    ensures regs[j] in all
  {
  }

  lemma NotDue(cfg: Config, w: World, p: Path)
    requires NothingToDo(cfg, w)
    ensures !DueOnDisk(BuilderShape(RootSigner(cfg)), p, w)
  {
    hide DueOnDisk;
    assert !DueOnDisk(Configured(cfg), p, w);
  }

  lemma SomethingListed(cs: Chains, root: string, now: int) returns (p: Path)
    requires cs.Keys == {root} && CertsToRegenerate(AllVisits(cs), now) != []
    ensures [root] + p in CertsToRegenerate(AllVisits(cs), now)
  {
    hide AllVisits, CertsToRegenerate;
    var listed := CertsToRegenerate(AllVisits(cs), now);
    ListedIffDue(cs, now, listed[0]);
    p := listed[0][1..];
    assert listed[0] == [root] + p;
  }
}
