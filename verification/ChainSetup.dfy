/** Completing a chains builder on a consistent disk: the result is intact. */
module ChainSetup {
  import opened Base
  import opened Pki
  import opened Tree
  import opened Layout
  import opened Completion
  import opened Renewal
  import opened Chains

  /* ---- functions ---- */

  /** Builders are completed in order; a second signer of the same name is refused. */
  function CompleteSigners(cs: Chains, bs: seq<Builder>, w: World): ChainsOut
    requires forall b :: b in bs ==> b.caInfo.Some?
    decreases |bs|
  {
    if bs == [] then COk(cs, w)
    else if bs[0].name in cs then CErr(NameClash(bs[0].name))
    else
      match CompleteRoot(bs[0], w)
      case Err(e) => CErr(e)
      case Ok(n, w1) => CompleteSigners(cs[n.name := n], bs[1..], w1)
  }

  /** One entry of a WithCABundle list: a bundle file and the path of a signer to put into it. */
  datatype Registration = Registration(bundle: Path, signer: Path)

  function Register(n: Node, signer: Path, bundle: Path, w: World): Out
    decreases |signer|
  {
    if signer == [] then AddToBundles(n, [bundle], w)
    else if signer[0] !in n.subs then Err(NilDereference)
    else
      match Register(n.subs[signer[0]], signer[1..], bundle, w)
      case Err(e) => Err(e)
      case Ok(c, w1) => Ok(n.(subs := n.subs[signer[0] := c]), w1)
  }

  /** The signer is looked up first; when there is none the error message is built from it all the same. */
  function RegisterOne(cs: Chains, r: Registration, w: World): ChainsOut {
    if r.signer == [] || r.signer[0] !in cs then CErr(NilDereference) else
      match Register(cs[r.signer[0]], r.signer[1..], r.bundle, w)
      case Err(e) => CErr(e)
      case Ok(n, w1) => COk(cs[r.signer[0] := n], w1)
  }

  function RegisterAll(cs: Chains, regs: seq<Registration>, w: World): ChainsOut
    decreases |regs|
  {
    if regs == [] then COk(cs, w) else
      match RegisterOne(cs, regs[0], w)
      case CErr(e) => CErr(e)
      case COk(cs1, w1) => RegisterAll(cs1, regs[1..], w1)
  }

  /** CertificateChainsBuilder.Complete; `regs` lists the bundle registrations in the order they were visited. */
  function CompleteChains(bs: seq<Builder>, regs: seq<Registration>, w: World): ChainsOut
    requires forall b :: b in bs ==> b.caInfo.Some?
  {
    match CompleteSigners(map[], bs, w)
    case CErr(e) => CErr(e)
    case COk(cs, w1) => RegisterAll(cs, regs, w1)
  }

  /* ---- one root ---- */

  ghost predicate SubsNested(sh: Shape) {
    forall k :: k in sh.subs ==> Nested(sh.subs[k])
  }

  /** Whatever the disk holds for a root and below it chains; without a root it holds nothing for the tree. */
  ghost predicate RootConsistent(sh: Shape, files: map<Path, File>, next: nat) {
    match GetCA(files, CACertPath(sh.dir), CAKeyPath(sh.dir), CASerialsPath(sh.dir))
    case None => NothingFound(sh, files)
    case Some(t) => t.chain == [] && IssuedBy(t.cert, t) && t.cert.id < next && Consistent(sh, t, files, next)
  }

  /** A root builder: its CAInfo names the CA files of its own directory. */
  ghost predicate RootBuilder(b: Builder) {
    && WellNamed(b) && LaidOut(BuilderShape(b)) && SubsNested(BuilderShape(b))
    && b.caInfo.Some? && b.caInfo.value.certFile == CACertPath(b.dir)
    && b.caInfo.value.keyFile == CAKeyPath(b.dir) && b.caInfo.value.serialFile == CASerialsPath(b.dir)
  }

  ghost predicate Ready(sh: Shape, w: World) {
    RootConsistent(sh, w.files, w.next) && AllReadable(w.files, Bundles(sh))
  }

  ghost predicate RootCompleted(b: Builder, w: World, n: Node, w': World) {
    && Healthy(n, w') && RootOnDisk(n, w'.files, w'.next) && n.name == b.name
    && NodeShape(n) == Recorded(BuilderShape(b), w.files)
    && Untouched(w.files, w'.files, BuilderShape(b)) && AllReadable(w'.files, Bundles(BuilderShape(b))) && Later(w, w')
  }

  lemma EnsureCASound(b: Builder, w: World)
    requires RootBuilder(b) && Ready(BuilderShape(b), w)
    ensures var (ca, w') := EnsureCA(b.caInfo.value, w);
            && Later(w, w') && ca.chain == [] && IssuedBy(ca.cert, ca) && ca.cert.id < w'.next
            && GetCA(w'.files, CACertPath(b.dir), CAKeyPath(b.dir), CASerialsPath(b.dir)) == Some(ca)
            && (forall p :: !CaFile(b.dir, p) ==> SameAt(w.files, w'.files, p))
            && Consistent(BuilderShape(b), ca, w'.files, w'.next)
  {
    var sh := BuilderShape(b);
    var (ca, w') := EnsureCA(b.caInfo.value, w);
    CaPathsDiffer(b.dir);
    assert forall p :: !CaFile(b.dir, p) ==> SameAt(w.files, w'.files, p);
    assert SameBelow(w.files, w'.files, sh);
    match GetCA(w.files, CACertPath(b.dir), CAKeyPath(b.dir), CASerialsPath(b.dir))
    case Some(t) =>
      ConsistentFrame(sh, ca, w.files, w'.files, w.next, w'.next);
    case None =>
      GetAfterPut(w.files, CACertPath(b.dir), CAKeyPath(b.dir), ca);
      NothingFoundFrame(sh, w.files, w'.files);
      NothingIsConsistent(sh, ca, w'.files, w'.next);
  }

  lemma {:induction false} RecordedLaidOut(sh: Shape, f: map<Path, File>)
    requires LaidOut(sh)
    ensures LaidOut(Recorded(sh, f))
  {
    var r := Recorded(sh, f);
    RecordedRegions(sh, f);
    forall k | k in r.subs ensures r.subs[k].name == k && LaidOut(r.subs[k]) && OwnApart(r, r.subs[k]) {
      RecordedLaidOut(sh.subs[k], f);
      RecordedRegions(sh.subs[k], f);
      assert OwnApart(sh, sh.subs[k]);
      forall p | OwnPath(r, p) ensures !Within(r.subs[k], p) {
        assert OwnPath(sh, p);
      }
    }
    forall k, l | k in r.subs && l in r.subs && k != l ensures Apart(r.subs[k], r.subs[l]) {
      RecordedRegions(sh.subs[k], f);
      RecordedRegions(sh.subs[l], f);
      assert Apart(sh.subs[k], sh.subs[l]);
    }
  }

  lemma RecordedRegions(sh: Shape, f: map<Path, File>)
    ensures forall p :: Within(Recorded(sh, f), p) <==> Within(sh, p)
    ensures Bundles(Recorded(sh, f)) == Bundles(sh)
  {
    forall p ensures Within(Recorded(sh, f), p) <==> Within(sh, p) {
      RecordedWithin(sh, f, p);
    }
    RecordedBundles(sh, f);
  }

  lemma {:induction false} RecordedNested(sh: Shape, f: map<Path, File>)
    requires Nested(sh)
    ensures Nested(Recorded(sh, f))
  {
    var r := Recorded(sh, f);
    forall k | k in r.subs ensures r.dir <= r.subs[k].dir && Nested(r.subs[k]) {
      RecordedNested(sh.subs[k], f);
    }
  }

  /** Complete on a root builder. */
  lemma CompleteRootSound(b: Builder, w: World) returns (n: Node, w': World)
    requires RootBuilder(b) && Ready(BuilderShape(b), w)
    ensures CompleteRoot(b, w) == Ok(n, w')
    ensures RootCompleted(b, w, n, w')
  {
    hide LaidOut, Bundles, NodeShape, Recorded, Nested, WellNamed, BuilderShape, Consistent, NothingFound, SoundSub;
    hide SoundCert;
    var sh := BuilderShape(b);
    EnsureCASound(b, w);
    var (ca, w1) := EnsureCA(b.caInfo.value, w);
    BuilderDir(b);
    CaReadable(sh, w.files, w1.files);
    n, w' := CompleteSound(b, ca, w1);
    FinishRoot(b, w, ca, w1, n, w');
  }

  lemma BuilderDir(b: Builder)
    ensures BuilderShape(b).dir == b.dir && BuilderShape(b).name == b.name
  {
  }

  lemma CaReadable(sh: Shape, f: map<Path, File>, g: map<Path, File>)
    requires LaidOut(sh) && AllReadable(f, Bundles(sh)) && forall p :: !CaFile(sh.dir, p) ==> SameAt(f, g, p)
    ensures AllReadable(g, Bundles(sh))
  {
    forall p | p in Bundles(sh) ensures Readable(g, p) {
      assert !Within(sh, p);
      if CaFile(sh.dir, p) {
        CaFilesWithin(sh, p);
      }
    }
  }

  lemma FinishRoot(b: Builder, w: World, ca: Tls, w1: World, n: Node, w': World)
    requires RootBuilder(b) && Done(BuilderShape(b), ca, w1, n, w') && Later(w, w1)
    requires ca.chain == [] && IssuedBy(ca.cert, ca) && ca.cert.id < w1.next
    requires GetCA(w1.files, CACertPath(b.dir), CAKeyPath(b.dir), CASerialsPath(b.dir)) == Some(ca)
    requires forall p :: !CaFile(b.dir, p) ==> SameAt(w.files, w1.files, p)
    ensures RootCompleted(b, w, n, w')
  {
    hide LaidOut, Bundles, NodeShape, Recorded, Nested, WellNamed, SoundSub, SoundCert;
    var sh := BuilderShape(b);
    RecordedFrame(sh, w.files, w1.files);
    RecordedLaidOut(sh, w.files);
    RecordedRegions(sh, w.files);
    DirOf(n);
    RecordedName(sh, w.files);
    EnsuredUntouched(sh, w.files, w1.files, w'.files);
    RootOnDiskFrame(n, w1.files, w'.files, w1.next, w'.next);
    forall k | k in n.subs ensures Nested(NodeShape(n.subs[k])) {
      NodeSubShape(n, k);
      RecordedSub(sh, k, w.files);
      RecordedNested(sh.subs[k], w.files);
    }
  }

  lemma RecordedSub(sh: Shape, k: string, f: map<Path, File>)
    requires k in Recorded(sh, f).subs
    ensures k in sh.subs && Recorded(sh, f).subs[k] == Recorded(sh.subs[k], f)
  {
  }

  /* ---- all roots ---- */

  ghost predicate TopsReady(bs: seq<Builder>, w: World) {
    forall i :: 0 <= i < |bs| ==> RootBuilder(bs[i]) && Ready(BuilderShape(bs[i]), w)
  }

  /** Root signers have different names and disjoint regions. */
  ghost predicate TopsApart(bs: seq<Builder>) {
    forall i, j :: 0 <= i < j < |bs| ==> bs[i].name != bs[j].name && Separate(BuilderShape(bs[i]), BuilderShape(bs[j]))
  }

  ghost predicate ApartFrom(cs: Chains, bs: seq<Builder>) {
    forall k, i :: k in cs && 0 <= i < |bs| ==> k != bs[i].name && Separate(NodeShape(cs[k]), BuilderShape(bs[i]))
  }

  lemma ReadyFrame(s: Shape, t: Shape, w: World, w': World)
    requires LaidOut(t) && Ready(t, w) && Later(w, w') && Separate(s, t)
    requires Untouched(w.files, w'.files, s) && AllReadable(w'.files, Bundles(s))
    ensures Ready(t, w')
  {
    forall p | Within(t, p) ensures SameAt(w.files, w'.files, p) {
      assert !Within(s, p);
    }
    assert Within(t, CACertPath(t.dir)) && Within(t, CAKeyPath(t.dir)) && Within(t, CASerialsPath(t.dir));
    match GetCA(w.files, CACertPath(t.dir), CAKeyPath(t.dir), CASerialsPath(t.dir))
    case None => NothingFoundFrame(t, w.files, w'.files);
    case Some(ca) => ConsistentFrame(t, ca, w.files, w'.files, w.next, w'.next);
    forall p | p in Bundles(t) ensures Readable(w'.files, p) {
      assert p !in Bundles(s) ==> SameAt(w.files, w'.files, p);
    }
  }

  lemma SeparateRecorded(s: Shape, f: map<Path, File>, t: Shape)
    requires Separate(s, t)
    ensures Separate(Recorded(s, f), t) && Separate(t, Recorded(s, f))
  {
    hide Bundles, Recorded;
    RecordedRegions(s, f);
  }

  lemma IntactWithRoot(cs: Chains, b: Builder, w: World, n: Node, w': World)
    requires Intact(cs, w) && RootCompleted(b, w, n, w') && b.name !in cs
    requires forall k :: k in cs ==> Separate(NodeShape(cs[k]), BuilderShape(b))
    ensures Intact(cs[n.name := n], w')
  {
    hide Healthy, RootOnDisk, Untouched, AllReadable, NodeShape, Recorded, BuilderShape, Bundles, Within;
    var cs', s := cs[n.name := n], BuilderShape(b);
    forall k | k in cs' ensures RootHealthy(cs', k, w') {
      if k != b.name {
        assert RootHealthy(cs, k, w);
        assert Separate(s, NodeShape(cs[k]));
        OtherTreeHealthy(s, cs[k], w, w');
      }
    }
    forall k | k in cs ensures Separate(NodeShape(n), NodeShape(cs[k])) && Separate(NodeShape(cs[k]), NodeShape(n)) {
      SeparateRecorded(s, w.files, NodeShape(cs[k]));
    }
  }

  lemma TopsStillReady(bs: seq<Builder>, w: World, w': World)
    requires bs != [] && TopsReady(bs, w) && TopsApart(bs) && Later(w, w')
    requires Untouched(w.files, w'.files, BuilderShape(bs[0])) && AllReadable(w'.files, Bundles(BuilderShape(bs[0])))
    ensures TopsReady(bs[1..], w') && TopsApart(bs[1..])
  {
    hide LaidOut, BuilderShape, Ready, Separate, Untouched, AllReadable, WellNamed;
    forall i | 0 <= i < |bs[1..]| ensures RootBuilder(bs[1..][i]) && Ready(BuilderShape(bs[1..][i]), w') {
      assert bs[1..][i] == bs[i + 1] && RootBuilder(bs[i + 1]);
      ReadyFrame(BuilderShape(bs[0]), BuilderShape(bs[i + 1]), w, w');
    }
  }

  lemma StillApart(cs: Chains, bs: seq<Builder>, f: map<Path, File>, n: Node)
    requires bs != [] && TopsApart(bs) && ApartFrom(cs, bs) && n.name == bs[0].name
    requires NodeShape(n) == Recorded(BuilderShape(bs[0]), f)
    ensures ApartFrom(cs[n.name := n], bs[1..])
  {
    hide BuilderShape, NodeShape, Recorded, Separate;
    var cs' := cs[n.name := n];
    forall k, i | k in cs' && 0 <= i < |bs[1..]|
      ensures k != bs[1..][i].name && Separate(NodeShape(cs'[k]), BuilderShape(bs[1..][i]))
    {
      assert bs[1..][i] == bs[i + 1];
      if k == n.name {
        SeparateRecorded(BuilderShape(bs[0]), f, BuilderShape(bs[i + 1]));
      }
    }
  }

  /** Each builder's tree records what was asked for, except peer certificates already on disk. */
  ghost predicate TreesRecorded(cs: Chains, bs: seq<Builder>, files: map<Path, File>) {
    forall i :: 0 <= i < |bs| ==> TreeRecorded(cs, bs[i], files)
  }

  ghost predicate TreeRecorded(cs: Chains, b: Builder, files: map<Path, File>) {
    b.name in cs && NodeShape(cs[b.name]) == Recorded(BuilderShape(b), files)
  }

  ghost predicate Extends(cs: Chains, cs': Chains, bs: seq<Builder>) {
    cs'.Keys == cs.Keys + Names(bs) && forall k :: k in cs ==> cs'[k] == cs[k]
  }

  ghost function Names(bs: seq<Builder>): set<string> {
    if bs == [] then {} else {bs[0].name} + Names(bs[1..])
  }

  lemma {:induction false} NameIndex(bs: seq<Builder>, k: string) returns (i: nat)
    requires k in Names(bs)
    ensures i < |bs| && bs[i].name == k
    decreases |bs|
  {
    if bs[0].name == k {
      i := 0;
    } else {
      i := NameIndex(bs[1..], k);
      i := i + 1;
    }
  }

  lemma AllHaveCAInfo(bs: seq<Builder>, w: World)
    requires TopsReady(bs, w)
    ensures forall b :: b in bs ==> b.caInfo.Some?
  {
  }

  lemma {:induction false} CompleteSignersSound(cs: Chains, bs: seq<Builder>, w: World) returns (cs': Chains, w': World)
    requires Intact(cs, w) && TopsReady(bs, w) && TopsApart(bs) && ApartFrom(cs, bs)
    ensures (forall b :: b in bs ==> b.caInfo.Some?) && CompleteSigners(cs, bs, w) == COk(cs', w')
    ensures Intact(cs', w') && Extends(cs, cs', bs) && TreesRecorded(cs', bs, w.files) && Later(w, w')
    decreases |bs|
  {
    hide Intact, Ready, LaidOut, BuilderShape, Separate, WellNamed, CompleteRoot, Untouched, Recorded, NodeShape;
    hide AllReadable, Healthy;
    AllHaveCAInfo(bs, w);
    if bs == [] {
      cs', w' := cs, w;
    } else {
      assert RootBuilder(bs[0]);
      var n, w1 := CompleteRootSound(bs[0], w);
      assert bs[0].name !in cs;
      IntactWithRoot(cs, bs[0], w, n, w1);
      TopsStillReady(bs, w, w1);
      StillApart(cs, bs, w.files, n);
      cs', w' := CompleteSignersSound(cs[n.name := n], bs[1..], w1);
      StillRecorded(cs', bs, n, w, w1);
    }
  }

  lemma StillRecorded(cs: Chains, bs: seq<Builder>, n: Node, w: World, w1: World)
    requires bs != [] && TopsApart(bs) && TopsReady(bs, w) && TreesRecorded(cs, bs[1..], w1.files)
    requires n.name in cs && cs[n.name] == n && RootCompleted(bs[0], w, n, w1)
    ensures TreesRecorded(cs, bs, w.files)
  {
    hide BuilderShape, Separate, Recorded, NodeShape, Untouched, LaidOut, Ready, WellNamed;
    forall i | 0 <= i < |bs| ensures TreeRecorded(cs, bs[i], w.files) {
      if i > 0 {
        assert bs[1..][i - 1] == bs[i] && TreeRecorded(cs, bs[i], w1.files) && RootBuilder(bs[i]);
        RecordedElsewhere(BuilderShape(bs[0]), BuilderShape(bs[i]), w.files, w1.files);
      }
    }
  }

  lemma RecordedElsewhere(s: Shape, t: Shape, f: map<Path, File>, g: map<Path, File>)
    requires LaidOut(t) && Separate(s, t) && Untouched(f, g, s)
    ensures Recorded(t, f) == Recorded(t, g)
  {
    forall p | Within(t, p) ensures SameAt(f, g, p) {
      assert !Within(s, p);
    }
    RecordedFrame(t, f, g);
  }

  lemma CompleteSignersStep(cs: Chains, bs: seq<Builder>, w: World, n: Node, w1: World)
    requires (forall b :: b in bs ==> b.caInfo.Some?) && bs != [] && bs[0].name !in cs
    requires CompleteRoot(bs[0], w) == Ok(n, w1)
    ensures CompleteSigners(cs, bs, w) == CompleteSigners(cs[n.name := n], bs[1..], w1)
  {
    hide CompleteRoot;
  }

  /* ---- bundle registration ---- */

  ghost predicate SignerIn(sh: Shape, signer: Path)
    decreases |signer|
  {
    signer == [] || (signer[0] in sh.subs && SignerIn(sh.subs[signer[0]], signer[1..]))
  }

  ghost function AddBundle(sh: Shape, signer: Path, p: Path): Shape
    requires SignerIn(sh, signer)
    decreases |signer|
  {
    if signer == [] then sh.(bundles := sh.bundles + {p})
    else sh.(subs := sh.subs[signer[0] := AddBundle(sh.subs[signer[0]], signer[1..], p)])
  }

  lemma {:induction false} AddBundleRegions(sh: Shape, signer: Path, p: Path)
    requires SignerIn(sh, signer)
    ensures var s := AddBundle(sh, signer, p);
            && s.dir == sh.dir && s.name == sh.name
            && (forall q :: Within(s, q) <==> Within(sh, q))
            && Bundles(s) == Bundles(sh) + {p}
    decreases |signer|
  {
    if signer != [] {
      var k, s := signer[0], AddBundle(sh, signer, p);
      AddBundleRegions(sh.subs[k], signer[1..], p);
      forall q ensures Within(s, q) <==> Within(sh, q) {
        if j :| j in sh.subs && Within(sh.subs[j], q) {
          assert Within(s.subs[j], q);
        }
        if j :| j in s.subs && Within(s.subs[j], q) {
          assert Within(sh.subs[j], q);
        }
      }
      assert Bundles(s) == Bundles(sh) + {p} by {
        AddBundleInside(sh, k, s.subs[k], p);
      }
    }
  }

  lemma AddBundleInside(sh: Shape, k: string, c: Shape, p: Path)
    requires k in sh.subs && Bundles(c) == Bundles(sh.subs[k]) + {p}
    ensures Bundles(sh.(subs := sh.subs[k := c])) == Bundles(sh) + {p}
  {
    var s := sh.(subs := sh.subs[k := c]);
    forall q | q in Bundles(s) ensures q in Bundles(sh) + {p} {
      if q !in sh.bundles {
        var j :| j in s.subs && q in Bundles(s.subs[j]);
        assert j != k ==> q in Bundles(sh.subs[j]);
      }
    }
    forall q | q in Bundles(sh) + {p} ensures q in Bundles(s) {
      if q == p {
        assert q in Bundles(s.subs[k]);
      } else if q !in sh.bundles {
        var j :| j in sh.subs && q in Bundles(sh.subs[j]);
        assert q in Bundles(s.subs[j]);
      }
    }
  }

  lemma {:induction false} AddBundleLaidOut(sh: Shape, signer: Path, p: Path)
    requires SignerIn(sh, signer) && LaidOut(sh) && !Within(sh, p)
    ensures LaidOut(AddBundle(sh, signer, p))
    decreases |signer|
  {
    var s := AddBundle(sh, signer, p);
    AddBundleRegions(sh, signer, p);
    if signer == [] {
      forall k | k in s.subs ensures OwnApart(s, s.subs[k]) {
        assert OwnApart(sh, sh.subs[k]);
        assert forall q :: OwnPath(s, q) <==> OwnPath(sh, q);
      }
    } else {
      var k := signer[0];
      SubWithin(sh, k);
      AddBundleLaidOut(sh.subs[k], signer[1..], p);
      AddBundleRegions(sh.subs[k], signer[1..], p);
      ReplacedLaidOut(sh, k, s.subs[k], s);
    }
  }

  lemma ReplacedLaidOut(sh: Shape, k: string, c: Shape, s: Shape)
    requires LaidOut(sh) && k in sh.subs && LaidOut(c) && c.name == k
    requires (forall q :: Within(c, q) <==> Within(sh.subs[k], q))
    requires s == sh.(subs := sh.subs[k := c]) && forall q :: q in Bundles(s) ==> !Within(s, q)
    ensures LaidOut(s)
  {
    hide Within, Bundles, OwnApart, Apart, LaidOut;
    forall j | j in s.subs ensures s.subs[j].name == j && LaidOut(s.subs[j]) && OwnApart(s, s.subs[j]) {
      SubLaidOut(sh, j);
      LaidOutApart(sh, j, j);
      OwnApartMoves(sh, sh.subs[j], s, s.subs[j]);
    }
    forall i, j | i in s.subs && j in s.subs && i != j ensures Apart(s.subs[i], s.subs[j]) {
      LaidOutApart(sh, i, j);
      ApartMoves(sh.subs[i], sh.subs[j], s.subs[i], s.subs[j]);
    }
    LaidOutApart(sh, k, k);
    LaidOutIntro(s);
  }

  lemma LaidOutApart(sh: Shape, i: string, j: string)
    requires LaidOut(sh) && i in sh.subs && j in sh.subs
    ensures OwnApart(sh, sh.subs[i]) && (i != j ==> Apart(sh.subs[i], sh.subs[j]))
    ensures sh.subs.Keys !! sh.csrs.Keys && forall k :: k in sh.csrs ==> sh.csrs[k].name == k && k !in CA_FILES
  {
  }

  lemma LaidOutIntro(s: Shape)
    requires s.subs.Keys !! s.csrs.Keys && forall k :: k in s.csrs ==> s.csrs[k].name == k && k !in CA_FILES
    requires forall j :: j in s.subs ==> s.subs[j].name == j && LaidOut(s.subs[j]) && OwnApart(s, s.subs[j])
    requires forall i, j :: i in s.subs && j in s.subs && i != j ==> Apart(s.subs[i], s.subs[j])
    requires forall q :: q in Bundles(s) ==> !Within(s, q)
    ensures LaidOut(s)
  {
  }

  lemma OwnApartMoves(sh: Shape, c: Shape, s: Shape, d: Shape)
    requires s.dir == sh.dir && s.csrs == sh.csrs && OwnApart(sh, c) && forall q :: Within(d, q) <==> Within(c, q)
    ensures OwnApart(s, d)
  {
  }

  lemma ApartMoves(a: Shape, b: Shape, c: Shape, d: Shape)
    requires Apart(a, b) && (forall q :: Within(c, q) <==> Within(a, q)) && (forall q :: Within(d, q) <==> Within(b, q))
    ensures Apart(c, d)
  {
  }

  lemma {:induction false} AddBundleNested(sh: Shape, signer: Path, p: Path)
    requires SignerIn(sh, signer)
    ensures Nested(sh) ==> Nested(AddBundle(sh, signer, p))
    ensures SubsNested(sh) ==> SubsNested(AddBundle(sh, signer, p))
    decreases |signer|
  {
    if signer != [] {
      AddBundleNested(sh.subs[signer[0]], signer[1..], p);
      AddBundleRegions(sh.subs[signer[0]], signer[1..], p);
    }
  }

  ghost predicate Registered(n: Node, n': Node, signer: Path, p: Path, w: World, w': World)
    requires SignerIn(NodeShape(n), signer)
  {
    && NodeShape(n') == AddBundle(NodeShape(n), signer, p) && n'.ca == n.ca
    && Sound(n', w'.files, w'.next)
    && w' == w.(files := w'.files) && (forall q :: q != p ==> SameAt(w.files, w'.files, q)) && Readable(w'.files, p)
  }

  lemma {:induction false} RegisterSound(n: Node, signer: Path, p: Path, w: World) returns (n': Node, w': World)
    requires SignerIn(NodeShape(n), signer) && Sound(n, w.files, w.next) && !Within(NodeShape(n), p)
    requires Readable(w.files, p)
    ensures Register(n, signer, p, w) == Ok(n', w')
    ensures Registered(n, n', signer, p, w, w')
    decreases |signer|
  {
    if signer == [] {
      n', w' := AddToBundlesSound(n, [p], w);
      assert (set q | q in [p]) == {p};
      SoundFrame(n, w.files, w'.files, w.next, w'.next);
      SameButBundles(n, n', w');
      assert NodeShape(n').subs == NodeShape(n).subs && NodeShape(n').csrs == NodeShape(n).csrs;
    } else {
      hide AddBundle, LaidOut;
      var k := signer[0];
      NodeSubShape(n, k);
      SubWithin(NodeShape(n), k);
      assert SoundSub(n, k, w.files, w.next);
      var c: Node;
      c, w' := RegisterSound(n.subs[k], signer[1..], p, w);
      n' := n.(subs := n.subs[k := c]);
      RegisteredUp(n, k, c, signer, p, w, w');
    }
  }

  lemma SameButBundles(n: Node, n': Node, w: World)
    requires n' == n.(bundles := n'.bundles) && Sound(n, w.files, w.next)
    ensures Sound(n', w.files, w.next)
  {
  }

  lemma RegisteredUp(n: Node, k: string, c: Node, signer: Path, p: Path, w: World, w': World)
    requires signer != [] && signer[0] == k && k in n.subs && SignerIn(NodeShape(n), signer)
    requires SignerIn(NodeShape(n.subs[k]), signer[1..])
    requires Sound(n, w.files, w.next) && !Within(NodeShape(n), p) && Registered(n.subs[k], c, signer[1..], p, w, w')
    ensures Registered(n, n.(subs := n.subs[k := c]), signer, p, w, w')
  {
    hide AddBundle, NodeShape, SignerIn;
    NodeSubShape(n, k);
    RegisteredShape(n, k, c, signer, p);
    AddBundleRegions(NodeShape(n.subs[k]), signer[1..], p);
    DirOf(c);
    DirOf(n.subs[k]);
    RegisteredSound(n, k, c, p, w, w');
  }

  lemma RegisteredShape(n: Node, k: string, c: Node, signer: Path, p: Path)
    requires signer != [] && signer[0] == k && k in n.subs && SignerIn(NodeShape(n), signer)
    requires SignerIn(NodeShape(n.subs[k]), signer[1..])
    requires NodeShape(c) == AddBundle(NodeShape(n.subs[k]), signer[1..], p)
    ensures NodeShape(n.(subs := n.subs[k := c])) == AddBundle(NodeShape(n), signer, p)
  {
    hide SignerIn;
    var n' := n.(subs := n.subs[k := c]);
    NodeSubShape(n, k);
    assert NodeShape(n').csrs == NodeShape(n).csrs;
    assert NodeShape(n').subs == NodeShape(n).subs[k := NodeShape(c)];
  }

  lemma RegisteredSound(n: Node, k: string, c: Node, p: Path, w: World, w': World)
    requires k in n.subs && Sound(n, w.files, w.next) && !Within(NodeShape(n), p)
    requires c.ca == n.subs[k].ca && c.dir == n.subs[k].dir && c.name == n.subs[k].name && Sound(c, w'.files, w'.next)
    requires w'.next == w.next && (forall q :: q != p ==> SameAt(w.files, w'.files, q))
    ensures Sound(n.(subs := n.subs[k := c]), w'.files, w'.next)
  {
    hide NodeShape;
    var n' := n.(subs := n.subs[k := c]);
    SoundFrame(n, w.files, w'.files, w.next, w'.next);
    forall j | j in n'.subs ensures SoundSub(n', j, w'.files, w'.next) {
      assert SoundSub(n, j, w'.files, w'.next);
    }
    forall l | l in n'.leaves ensures SoundCert(n', l, w'.files, w'.next) {
      assert SoundCert(n, l, w'.files, w'.next);
    }
  }

  /** Every registration names an existing signer, and a file outside every signer's directory. */
  ghost predicate RegistrationsOk(cs: Chains, regs: seq<Registration>) {
    forall i :: 0 <= i < |regs| ==> RegistrationOk(cs, regs[i])
  }

  ghost predicate RegistrationOk(cs: Chains, r: Registration) {
    && r.signer != [] && r.signer[0] in cs && SignerIn(NodeShape(cs[r.signer[0]]), r.signer[1..])
    && (forall k :: k in cs ==> !Within(NodeShape(cs[k]), r.bundle))
  }

  lemma RegisteredHealthy(n: Node, n': Node, signer: Path, p: Path, w: World, w': World)
    requires Healthy(n, w) && RootOnDisk(n, w.files, w.next) && SignerIn(NodeShape(n), signer)
    requires !Within(NodeShape(n), p)
    requires Registered(n, n', signer, p, w, w')
    ensures Healthy(n', w') && RootOnDisk(n', w'.files, w'.next) && n'.name == n.name
    ensures (forall q :: Within(NodeShape(n'), q) <==> Within(NodeShape(n), q))
    ensures Bundles(NodeShape(n')) == Bundles(NodeShape(n)) + {p}
  {
    hide AddBundle, NodeShape, Sound, Nested, LaidOut, Bundles;
    var sh := NodeShape(n);
    AddBundleRegions(sh, signer, p);
    AddBundleLaidOutHealthy(n, signer, p, w);
    DirOf(n);
    DirOf(n');
    forall q | CaFile(n.dir, q) ensures SameAt(w.files, w'.files, q) {
      CaFilesWithin(sh, q);
    }
    RootOnDiskFrame(n, w.files, w'.files, w.next, w'.next);
    forall k | k in n'.subs ensures Nested(NodeShape(n'.subs[k])) {
      NodeSubShape(n', k);
    }
    forall q | q in Bundles(NodeShape(n')) ensures Readable(w'.files, q) {
      assert q != p ==> SameAt(w.files, w'.files, q);
    }
  }

  lemma AddBundleLaidOutHealthy(n: Node, signer: Path, p: Path, w: World)
    requires Healthy(n, w) && SignerIn(NodeShape(n), signer) && !Within(NodeShape(n), p)
    ensures LaidOut(AddBundle(NodeShape(n), signer, p)) && SubsNested(AddBundle(NodeShape(n), signer, p))
  {
    hide LaidOut, AddBundle, Nested, SignerIn;
    AddBundleLaidOut(NodeShape(n), signer, p);
    forall k | k in NodeShape(n).subs ensures Nested(NodeShape(n).subs[k]) {
      NodeKeys(n);
      NodeSubShape(n, k);
    }
    AddBundleNested(NodeShape(n), signer, p);
  }

  lemma NodeKeys(n: Node)
    ensures NodeShape(n).subs.Keys == n.subs.Keys && NodeShape(n).csrs.Keys == n.leaves.Keys
  {
  }

  lemma OtherUndisturbed(m: Node, p: Path, w: World, w': World)
    requires Healthy(m, w) && RootOnDisk(m, w.files, w.next) && !Within(NodeShape(m), p)
    requires w' == w.(files := w'.files) && (forall q :: q != p ==> SameAt(w.files, w'.files, q))
    requires Readable(w'.files, p)
    ensures Healthy(m, w') && RootOnDisk(m, w'.files, w'.next)
  {
    hide NodeShape, Sound, Nested, LaidOut, Bundles;
    SoundFrame(m, w.files, w'.files, w.next, w'.next);
    DirOf(m);
    forall q | CaFile(m.dir, q) ensures SameAt(w.files, w'.files, q) {
      CaFilesWithin(NodeShape(m), q);
    }
    RootOnDiskFrame(m, w.files, w'.files, w.next, w'.next);
    forall q | q in Bundles(NodeShape(m)) ensures Readable(w'.files, q) {
      assert q != p ==> SameAt(w.files, w'.files, q);
    }
  }

  lemma RegisterIntact(cs: Chains, r: Registration, w: World) returns (n: Node, w': World)
    requires Intact(cs, w) && RegistrationOk(cs, r) && Readable(w.files, r.bundle)
    ensures Register(cs[r.signer[0]], r.signer[1..], r.bundle, w) == Ok(n, w')
    ensures Registered(cs[r.signer[0]], n, r.signer[1..], r.bundle, w, w')
    ensures Intact(cs[r.signer[0] := n], w')
  {
    hide Healthy, RootOnDisk, NodeShape, Within, Bundles, AddBundle, SignerIn, Register;
    var k, p := r.signer[0], r.bundle;
    assert RootHealthy(cs, k, w);
    assert Sound(cs[k], w.files, w.next) by { HealthySound(cs[k], w); }
    n, w' := RegisterSound(cs[k], r.signer[1..], p, w);
    var cs' := cs[k := n];
    RegisteredHealthy(cs[k], n, r.signer[1..], p, w, w');
    forall l | l in cs' ensures RootHealthy(cs', l, w') {
      if l != k {
        assert RootHealthy(cs, l, w);
        OtherUndisturbed(cs[l], p, w, w');
      }
    }
    forall l | l in cs && l != k
      ensures Separate(NodeShape(n), NodeShape(cs[l])) && Separate(NodeShape(cs[l]), NodeShape(n))
    {
      assert Separate(NodeShape(cs[k]), NodeShape(cs[l])) && !Within(NodeShape(cs[l]), p);
    }
  }

  lemma HealthySound(n: Node, w: World)
    requires Healthy(n, w)
    ensures Sound(n, w.files, w.next)
  {
  }

  lemma StillRegistrable(cs: Chains, k: string, n: Node, signer: Path, p: Path, r: Registration)
    requires k in cs && RegistrationOk(cs, r) && SignerIn(NodeShape(cs[k]), signer)
    requires NodeShape(n) == AddBundle(NodeShape(cs[k]), signer, p)
    ensures RegistrationOk(cs[k := n], r)
  {
    hide NodeShape, Within, Bundles;
    AddBundleRegions(NodeShape(cs[k]), signer, p);
    if r.signer[0] == k {
      AddBundleSigners(NodeShape(cs[k]), signer, p, r.signer[1..]);
    }
  }

  lemma {:induction false} AddBundleSigners(sh: Shape, signer: Path, p: Path, q: Path)
    requires SignerIn(sh, signer) && SignerIn(sh, q)
    ensures SignerIn(AddBundle(sh, signer, p), q)
    decreases |q|
  {
    if signer != [] && q != [] && q[0] == signer[0] {
      AddBundleSigners(sh.subs[q[0]], signer[1..], p, q[1..]);
    }
  }

  lemma OneBundleFails(n: Node, p: Path, w: World)
    ensures AddToBundles(n, [p], w) == (if Readable(w.files, p) then AddToBundles(n, [p], w) else Err(BadBundle(p)))
    ensures Readable(w.files, p) ==> AddToBundles(n, [p], w).Ok?
  {
    assert [p][1..] == [];
  }

  lemma {:induction false} RegisterFails(n: Node, signer: Path, p: Path, w: World)
    ensures Register(n, signer, p, w) == Err(NilDereference) <==> !SignerIn(NodeShape(n), signer)
    ensures Register(n, signer, p, w).Ok? <==> SignerIn(NodeShape(n), signer) && Readable(w.files, p)
    decreases |signer|
  {
    hide NodeShape;
    NodeKeys(n);
    if signer == [] {
      OneBundleFails(n, p, w);
    } else if signer[0] in n.subs {
      NodeSubShape(n, signer[0]);
      RegisterFails(n.subs[signer[0]], signer[1..], p, w);
    } else {
      assert !SignerIn(NodeShape(n), signer);
    }
  }

  /** A registration panics exactly when its path leads to no signer, and otherwise fails exactly on an unreadable
      file. */
  lemma RegistrationFails(cs: Chains, r: Registration, w: World)
    ensures var found := r.signer != [] && r.signer[0] in cs && SignerIn(NodeShape(cs[r.signer[0]]), r.signer[1..]);
            && (RegisterOne(cs, r, w) == CErr(NilDereference) <==> !found)
            && (RegisterOne(cs, r, w).COk? <==> found && Readable(w.files, r.bundle))
  {
    if r.signer != [] && r.signer[0] in cs {
      RegisterFails(cs[r.signer[0]], r.signer[1..], r.bundle, w);
    }
  }

  /* ---- what all registrations amount to ---- */

  ghost function Listing(regs: seq<Registration>): set<Registration> {
    set r | r in regs
  }

  /** The shape of the signer at path `at` with every bundle that is registered for it or for a signer below it. */
  ghost function WithBundles(sh: Shape, at: Path, regs: set<Registration>): Shape {
    Shape(sh.name, sh.dir, sh.days, map k | k in sh.subs :: WithBundles(sh.subs[k], at + [k], regs), sh.csrs,
          sh.bundles + set r | r in regs && r.signer == at :: r.bundle)
  }

  lemma {:induction false} WithNoBundles(sh: Shape, at: Path)
    ensures WithBundles(sh, at, {}) == sh
  {
    var s := WithBundles(sh, at, {});
    forall k | k in sh.subs ensures s.subs[k] == sh.subs[k] {
      WithNoBundles(sh.subs[k], at + [k]);
    }
    assert s.subs == sh.subs;
  }

  lemma {:induction false} BundlesOfOthers(sh: Shape, at: Path, regs: set<Registration>, r: Registration)
    requires !(at <= r.signer)
    ensures WithBundles(sh, at, regs + {r}) == WithBundles(sh, at, regs)
  {
    var s, t := WithBundles(sh, at, regs + {r}), WithBundles(sh, at, regs);
    forall k | k in sh.subs ensures s.subs[k] == t.subs[k] {
      BundlesOfOthers(sh.subs[k], at + [k], regs, r);
    }
    assert s.subs == t.subs;
    assert s.bundles == t.bundles;
  }

  /** One registration more. */
  lemma {:induction false} BundleAdded(sh: Shape, at: Path, signer: Path, p: Path, regs: set<Registration>)
    requires SignerIn(sh, signer)
    ensures WithBundles(AddBundle(sh, signer, p), at, regs) ==
              WithBundles(sh, at, regs + {Registration(p, at + signer)})
    decreases |signer|
  {
    var r, a := Registration(p, at + signer), AddBundle(sh, signer, p);
    var s, t := WithBundles(a, at, regs), WithBundles(sh, at, regs + {r});
    forall k | k in sh.subs ensures s.subs[k] == t.subs[k] {
      if signer != [] && k == signer[0] {
        BundleAdded(sh.subs[k], at + [k], signer[1..], p, regs);
        assert at + [k] + signer[1..] == at + signer;
      } else {
        assert |at + [k]| <= |at + signer| ==> (at + signer)[|at|] != k;
        BundlesOfOthers(sh.subs[k], at + [k], regs, r);
      }
    }
    assert s.subs == t.subs;
    assert s.bundles == t.bundles;
  }

  /** Each tree has its bundles, and the CA it had. */
  ghost predicate Enrolled(cs: Chains, cs': Chains, regs: set<Registration>) {
    && cs'.Keys == cs.Keys
    && (forall k :: k in cs ==> cs'[k].ca == cs[k].ca && NodeShape(cs'[k]) == WithBundles(NodeShape(cs[k]), [k], regs))
  }

  /** Only registered files differ. */
  ghost predicate OnlyRegistered(f: map<Path, File>, g: map<Path, File>, regs: set<Registration>) {
    forall p :: (forall r :: r in regs ==> r.bundle != p) ==> SameAt(f, g, p)
  }

  lemma RegisterAllStep(cs: Chains, regs: seq<Registration>, w: World, n: Node, w1: World)
    requires regs != [] && regs[0].signer != [] && regs[0].signer[0] in cs
    requires Register(cs[regs[0].signer[0]], regs[0].signer[1..], regs[0].bundle, w) == Ok(n, w1)
    ensures RegisterAll(cs, regs, w) == RegisterAll(cs[regs[0].signer[0] := n], regs[1..], w1)
  {
    hide Register;
  }

  lemma NoneEnrolled(cs: Chains)
    ensures Enrolled(cs, cs, Listing([]))
  {
    hide NodeShape, WithBundles;
    assert Listing([]) == {};
    forall k | k in cs ensures WithBundles(NodeShape(cs[k]), [k], {}) == NodeShape(cs[k]) {
      WithNoBundles(NodeShape(cs[k]), [k]);
    }
  }

  lemma EnrolledHere(s: Shape, t: Shape, u: Shape, r: Registration, regs: set<Registration>)
    requires r.signer != [] && SignerIn(s, r.signer[1..]) && t == AddBundle(s, r.signer[1..], r.bundle)
    requires u == WithBundles(t, [r.signer[0]], regs)
    ensures u == WithBundles(s, [r.signer[0]], regs + {r})
  {
    hide WithBundles, AddBundle, SignerIn;
    BundleAdded(s, [r.signer[0]], r.signer[1..], r.bundle, regs);
    assert r == Registration(r.bundle, [r.signer[0]] + r.signer[1..]);
  }

  lemma EnrolledStep(cs: Chains, regs: seq<Registration>, n: Node, cs': Chains)
    requires regs != [] && RegistrationOk(cs, regs[0])
    requires NodeShape(n) == AddBundle(NodeShape(cs[regs[0].signer[0]]), regs[0].signer[1..], regs[0].bundle)
    requires n.ca == cs[regs[0].signer[0]].ca
    requires Enrolled(cs[regs[0].signer[0] := n], cs', Listing(regs[1..]))
    ensures Enrolled(cs, cs', Listing(regs))
  {
    hide NodeShape, WithBundles, AddBundle, SignerIn, Within;
    var r, k, rest := regs[0], regs[0].signer[0], Listing(regs[1..]);
    assert Listing(regs) == rest + {r};
    forall l | l in cs
      ensures cs'[l].ca == cs[l].ca && NodeShape(cs'[l]) == WithBundles(NodeShape(cs[l]), [l], Listing(regs))
    {
      if l == k {
        EnrolledHere(NodeShape(cs[k]), NodeShape(n), NodeShape(cs'[k]), r, rest);
      } else {
        BundlesOfOthers(NodeShape(cs[l]), [l], rest, r);
      }
    }
  }

  lemma OnlyRegisteredStep(regs: seq<Registration>, f: map<Path, File>, g: map<Path, File>, h: map<Path, File>)
    requires regs != [] && (forall q :: q != regs[0].bundle ==> SameAt(f, g, q))
    requires OnlyRegistered(g, h, Listing(regs[1..]))
    ensures OnlyRegistered(f, h, Listing(regs))
  {
    assert regs[0] in Listing(regs) && Listing(regs[1..]) <= Listing(regs);
    forall p | forall r :: r in Listing(regs) ==> r.bundle != p ensures SameAt(f, h, p) {
      assert SameAt(f, g, p) && SameAt(g, h, p);
    }
  }

  lemma {:induction false} RegisterAllSound(cs: Chains, regs: seq<Registration>, w: World)
    returns (cs': Chains, w': World)
    requires Intact(cs, w) && RegistrationsOk(cs, regs)
    requires forall i :: 0 <= i < |regs| ==> Readable(w.files, regs[i].bundle)
    ensures RegisterAll(cs, regs, w) == COk(cs', w') && Intact(cs', w') && Later(w, w')
    ensures Enrolled(cs, cs', Listing(regs)) && OnlyRegistered(w.files, w'.files, Listing(regs))
    decreases |regs|
  {
    if regs == [] {
      cs', w' := cs, w;
      NoneEnrolled(cs);
    } else {
      hide Intact, NodeShape, SignerIn, AddBundle, RegistrationOk, Register, Sound, WithBundles, Enrolled;
      hide OnlyRegistered;
      var r, k := regs[0], regs[0].signer[0];
      assert RegistrationOk(cs, r);
      RegistrationKnown(cs, r);
      var n, w1 := RegisterIntact(cs, r, w);
      StillRegistrableAll(cs, regs, n, w, w1);
      cs', w' := RegisterAllSound(cs[k := n], regs[1..], w1);
      EnrolledStep(cs, regs, n, cs');
      OnlyRegisteredStep(regs, w.files, w1.files, w'.files);
    }
  }

  lemma StillRegistrableAll(cs: Chains, regs: seq<Registration>, n: Node, w: World, w1: World)
    requires regs != [] && RegistrationsOk(cs, regs)
    requires forall i :: 0 <= i < |regs| ==> Readable(w.files, regs[i].bundle)
    requires regs[0].signer != [] && regs[0].signer[0] in cs
    requires SignerIn(NodeShape(cs[regs[0].signer[0]]), regs[0].signer[1..])
    requires Registered(cs[regs[0].signer[0]], n, regs[0].signer[1..], regs[0].bundle, w, w1)
    ensures RegistrationsOk(cs[regs[0].signer[0] := n], regs[1..])
    ensures forall i :: 0 <= i < |regs[1..]| ==> Readable(w1.files, regs[1..][i].bundle)
  {
    hide NodeShape, SignerIn, AddBundle, RegistrationOk, Sound;
    var r, k := regs[0], regs[0].signer[0];
    forall i | 0 <= i < |regs[1..]|
      ensures RegistrationOk(cs[k := n], regs[1..][i]) && Readable(w1.files, regs[1..][i].bundle)
    {
      assert regs[1..][i] == regs[i + 1] && RegistrationOk(cs, regs[i + 1]) && Readable(w.files, regs[i + 1].bundle);
      StillRegistrable(cs, k, n, r.signer[1..], r.bundle, regs[i + 1]);
      assert regs[i + 1].bundle != r.bundle ==> SameAt(w.files, w1.files, regs[i + 1].bundle);
    }
  }

  lemma RegistrationKnown(cs: Chains, r: Registration)
    requires RegistrationOk(cs, r)
    ensures r.signer != [] && r.signer[0] in cs && SignerIn(NodeShape(cs[r.signer[0]]), r.signer[1..])
  {
  }

  /* ---- the chains builder ---- */

  /** Every registration names a signer of one of the builders, and a file outside every signer's directory. */
  ghost predicate RegistrationsFor(bs: seq<Builder>, regs: seq<Registration>, files: map<Path, File>) {
    forall j :: 0 <= j < |regs| ==> RegistrationFor(bs, regs[j], files)
  }

  ghost predicate RegistrationFor(bs: seq<Builder>, r: Registration, files: map<Path, File>) {
    && r.signer != [] && Readable(files, r.bundle)
    && (exists i :: 0 <= i < |bs| && bs[i].name == r.signer[0] && SignerIn(BuilderShape(bs[i]), r.signer[1..]))
    && (forall i :: 0 <= i < |bs| ==> !Within(BuilderShape(bs[i]), r.bundle))
  }

  lemma {:induction false} RecordedSigners(sh: Shape, f: map<Path, File>, q: Path)
    requires SignerIn(sh, q)
    ensures SignerIn(Recorded(sh, f), q)
    decreases |q|
  {
    if q != [] {
      RecordedSigners(sh.subs[q[0]], f, q[1..]);
    }
  }

  lemma RegistrationHolds(cs: Chains, bs: seq<Builder>, r: Registration, f: map<Path, File>)
    requires TreesRecorded(cs, bs, f) && cs.Keys == Names(bs) && RegistrationFor(bs, r, f)
    ensures RegistrationOk(cs, r)
  {
    hide NodeShape, Recorded, BuilderShape, Within, Bundles;
    var i :| 0 <= i < |bs| && bs[i].name == r.signer[0] && SignerIn(BuilderShape(bs[i]), r.signer[1..]);
    assert TreeRecorded(cs, bs[i], f);
    RecordedSigners(BuilderShape(bs[i]), f, r.signer[1..]);
    forall k | k in cs ensures !Within(NodeShape(cs[k]), r.bundle) {
      var j := NameIndex(bs, k);
      assert TreeRecorded(cs, bs[j], f);
      RecordedRegions(BuilderShape(bs[j]), f);
    }
  }

  /** The tree of each builder has every signer, every request and every bundle asked for; only requests for peer
      certificates already on disk are not recorded. */
  ghost predicate TreesCompleted(cs: Chains, bs: seq<Builder>, regs: set<Registration>, files: map<Path, File>) {
    cs.Keys == Names(bs) && forall i :: 0 <= i < |bs| ==> TreeCompleted(cs, bs[i], regs, files)
  }

  ghost predicate TreeCompleted(cs: Chains, b: Builder, regs: set<Registration>, files: map<Path, File>) {
    b.name in cs && NodeShape(cs[b.name]) == WithBundles(Recorded(BuilderShape(b), files), [b.name], regs)
  }

  /** Completing a chains builder on a consistent disk succeeds, leaves trees and disk intact, and the trees have all
      that was asked for, whatever order the registrations are visited in. */
  lemma CompleteChainsSound(bs: seq<Builder>, regs: seq<Registration>, w: World) returns (cs: Chains, w': World)
    requires TopsReady(bs, w) && TopsApart(bs) && RegistrationsFor(bs, regs, w.files)
    ensures (forall b :: b in bs ==> b.caInfo.Some?) && CompleteChains(bs, regs, w) == COk(cs, w')
    ensures Intact(cs, w') && TreesCompleted(cs, bs, Listing(regs), w.files) && Later(w, w')
  {
    hide Intact, TopsReady, TreesRecorded, RegistrationFor, RegistrationOk, SignerIn, CompleteSigners, RegisterAll;
    hide Enrolled;
    assert Intact(map[], w) by { EmptyIntact(w); }
    var cs1, w1 := CompleteSignersSound(map[], bs, w);
    BundlesStayReadable(bs, regs, w, cs1, w1);
    forall j | 0 <= j < |regs| ensures RegistrationOk(cs1, regs[j]) {
      RegistrationHolds(cs1, bs, regs[j], w.files);
    }
    cs, w' := RegisterAllSound(cs1, regs, w1);
    EnrolledCompleted(cs1, cs, bs, Listing(regs), w.files);
  }

  lemma EnrolledCompleted(cs1: Chains, cs: Chains, bs: seq<Builder>, regs: set<Registration>, files: map<Path, File>)
    requires TreesRecorded(cs1, bs, files) && cs1.Keys == Names(bs) && Enrolled(cs1, cs, regs)
    ensures TreesCompleted(cs, bs, regs, files)
  {
    hide NodeShape, Recorded, BuilderShape, WithBundles;
    forall i | 0 <= i < |bs| ensures TreeCompleted(cs, bs[i], regs, files) {
      assert TreeRecorded(cs1, bs[i], files);
    }
  }

  lemma EmptyIntact(w: World)
    ensures Intact(map[], w)
  {
  }

  /** Completing the signers leaves every registered file readable: it is outside all their regions, so either
      untouched or itself one of their bundles. */
  lemma BundlesStayReadable(bs: seq<Builder>, regs: seq<Registration>, w: World, cs: Chains, w': World)
    requires (forall b :: b in bs ==> b.caInfo.Some?) && CompleteSigners(map[], bs, w) == COk(cs, w')
    requires TopsReady(bs, w) && TopsApart(bs) && RegistrationsFor(bs, regs, w.files)
    ensures forall j :: 0 <= j < |regs| ==> Readable(w'.files, regs[j].bundle)
  {
    forall j | 0 <= j < |regs| ensures Readable(w'.files, regs[j].bundle) {
      assert RegistrationFor(bs, regs[j], w.files);
      StaysReadable(map[], bs, regs[j].bundle, w);
    }
  }

  lemma {:induction false} StaysReadable(cs: Chains, bs: seq<Builder>, p: Path, w: World)
    requires TopsReady(bs, w) && TopsApart(bs) && Readable(w.files, p) && forall b :: b in bs ==> b.caInfo.Some?
    requires forall i :: 0 <= i < |bs| ==> !Within(BuilderShape(bs[i]), p)
    ensures CompleteSigners(cs, bs, w).COk? ==> Readable(CompleteSigners(cs, bs, w).w.files, p)
    decreases |bs|
  {
    if bs != [] && bs[0].name !in cs {
      hide Ready, LaidOut, BuilderShape, Separate, WellNamed, CompleteRoot, Recorded, NodeShape, Healthy, Within;
      hide Bundles;
      assert RootBuilder(bs[0]);
      var n, w1 := CompleteRootSound(bs[0], w);
      TopsStillReady(bs, w, w1);
      assert Readable(w1.files, p) by {
        assert p !in Bundles(BuilderShape(bs[0])) ==> SameAt(w.files, w1.files, p);
      }
      assert forall i :: 0 <= i < |bs[1..]| ==> bs[1..][i] == bs[i + 1];
      StaysReadable(cs[n.name := n], bs[1..], p, w1);
    }
  }

  /* ---- a single root ---- */

  lemma RegistrationAt(bs: seq<Builder>, regs: seq<Registration>, j: nat, files: map<Path, File>)
    requires RegistrationsFor(bs, regs, files) && j < |regs|
    ensures RegistrationFor(bs, regs[j], files)
  {
  }

  lemma SingleTop(b: Builder, w: World)
    requires TopsReady([b], w)
    ensures RootBuilder(b) && Ready(BuilderShape(b), w) && LaidOut(BuilderShape(b)) && b.caInfo.Some?
  {
    assert [b][0] == b;
  }

  /** Completing a chains builder with one root: first the tree, then only the registered bundle files. */
  lemma CompleteSingle(b: Builder, regs: seq<Registration>, w: World)
    returns (n: Node, w1: World, cs: Chains, w': World)
    requires TopsReady([b], w) && TopsApart([b]) && RegistrationsFor([b], regs, w.files)
    ensures b.caInfo.Some? && CompleteRoot(b, w) == Ok(n, w1) && RootCompleted(b, w, n, w1)
    ensures CompleteChains([b], regs, w) == COk(cs, w') && Intact(cs, w')
    ensures TreesCompleted(cs, [b], Listing(regs), w.files)
    ensures cs.Keys == {b.name} && cs[b.name].ca == n.ca && Later(w, w1) && Later(w1, w')
    ensures OnlyRegistered(w1.files, w'.files, Listing(regs))
    ensures forall r :: r in Listing(regs) ==> !Within(BuilderShape(b), r.bundle)
  {
    hide Intact, RegistrationFor, RegistrationOk, CompleteRoot, RegisterAll, Ready, BuilderShape, NodeShape, Recorded;
    hide RootBuilder;
    hide Separate, Bundles, LaidOut, WellNamed, Healthy, TreesRecorded, TreesCompleted, Within;
    var bs := [b];
    SingleTop(b, w);
    n, w1 := CompleteRootSound(b, w);
    assert Intact(map[], w) by { EmptyIntact(w); }
    var cs1, _ := CompleteSignersSound(map[], bs, w);
    assert bs[1..] == [] && CompleteSigners(map[n.name := n], bs[1..], w1) == COk(map[n.name := n], w1);
    BundlesStayReadable(bs, regs, w, cs1, w1);
    forall j | 0 <= j < |regs| ensures RegistrationOk(cs1, regs[j]) && !Within(BuilderShape(b), regs[j].bundle) {
      RegistrationAt(bs, regs, j, w.files);
      RegistrationHolds(cs1, bs, regs[j], w.files);
      OutsideTree(b, regs[j], w.files);
    }
    cs, w' := CompleteChainsSound(bs, regs, w);
    var _, _ := RegisterAllSound(cs1, regs, w1);
  }

  lemma OutsideTree(b: Builder, r: Registration, files: map<Path, File>)
    requires RegistrationFor([b], r, files)
    ensures !Within(BuilderShape(b), r.bundle)
  {
    assert [b][0] == b;
  }
}
