/** Completing a builder on a consistent disk: the result chains, agrees with the disk, and stays inside its region. */
module Completion {
  import opened Base
  import opened Pki
  import opened Tree
  import opened Layout

  /** Issued at `now`, with an identity of at least `lo`, for `days` days. */
  ghost predicate Renewed(c: Cert, lo: nat, now: int, days: int) {
    c.id >= lo && c.notBefore == now - BACKDATE && c.notAfter == now + days * DAY
  }

  ghost predicate FreshCert(l: Leaf, lo: nat, now: int) {
    Renewed(l.tls.cert, lo, now, CsrDays(l.csr))
  }

  /** Every certificate recorded below `n` was issued at `now`. */
  ghost predicate FreshBelow(n: Node, lo: nat, now: int) {
    && (forall k :: k in n.leaves ==> FreshCert(n.leaves[k], lo, now))
    && (forall k :: k in n.subs ==>
          Renewed(n.subs[k].ca.cert, lo, now, n.subs[k].days) && FreshBelow(n.subs[k], lo, now))
  }

  ghost predicate Fresh(n: Node, lo: nat, now: int) {
    Renewed(n.ca.cert, lo, now, n.days) && FreshBelow(n, lo, now)
  }

  lemma {:induction false} FreshFrom(n: Node, hi: nat, lo: nat, now: int)
    requires FreshBelow(n, hi, now) && lo <= hi
    ensures FreshBelow(n, lo, now)
  {
    forall k | k in n.subs ensures FreshBelow(n.subs[k], lo, now) {
      FreshFrom(n.subs[k], hi, lo, now);
    }
  }

  /** Time stands still, identities are only used up. */
  ghost predicate Later(w: World, w': World) {
    w.next <= w'.next && w'.now == w.now
  }

  /* ---- one sub-CA certificate ---- */

  /** A sub-CA's CA certificate `ca` is in place: properly issued, on disk, nothing but the CA files written. */
  ghost predicate SubEnsured(parent: Tls, sh: Shape, w: World, ca: Tls, w': World) {
    && Later(w, w')
    && SubIssued(ca, sh.name, parent, w'.next)
    && GetSubCA(w'.files, sh.dir) == Some(ca)
    && CACertPath(sh.dir) in w'.files && w'.files[CACertPath(sh.dir)] == CertFile([ca.cert])
    && (forall p :: !CaFile(sh.dir, p) ==> SameAt(w.files, w'.files, p))
    && Consistent(sh, ca, w'.files, w'.next)
    && (GetSubCA(w.files, sh.dir) == None ==> Renewed(ca.cert, w.next, w.now, sh.days) && NothingFound(sh, w'.files))
  }

  lemma EnsureSubCASound(parent: Tls, sh: Shape, w: World)
    requires LaidOut(sh) && SubConsistent(sh, parent, w.files, w.next)
    ensures var (ca, w') := EnsureSubCA(parent, sh.name, sh.dir, sh.days, w); SubEnsured(parent, sh, w, ca, w')
  {
    var (ca, w') := EnsureSubCA(parent, sh.name, sh.dir, sh.days, w);
    CaPathsDiffer(sh.dir);
    assert forall p :: !CaFile(sh.dir, p) ==> SameAt(w.files, w'.files, p);
    assert SameBelow(w.files, w'.files, sh);
    match GetSubCA(w.files, sh.dir)
    case Some(t) =>
      ConsistentFrame(sh, ca, w.files, w'.files, w.next, w'.next);
    case None =>
      GetAfterPut(w.files, CABundlePath(sh.dir), CAKeyPath(sh.dir), ca);
      NothingFoundFrame(sh, w.files, w'.files);
      NothingIsConsistent(sh, ca, w'.files, w'.next);
  }

  lemma CaPathsDiffer(dir: Path)
    ensures CACertPath(dir) != CAKeyPath(dir) && CAKeyPath(dir) != CABundlePath(dir)
    ensures CABundlePath(dir) != CASerialsPath(dir) && CASerialsPath(dir) != CACertPath(dir)
    ensures CACertPath(dir) != CABundlePath(dir) && CAKeyPath(dir) != CASerialsPath(dir)
  {
    InDir(dir, "ca.crt", "ca.key");
    InDir(dir, "ca.key", "ca-bundle.crt");
    InDir(dir, "ca-bundle.crt", "serial.txt");
    InDir(dir, "serial.txt", "ca.crt");
    InDir(dir, "ca.crt", "ca-bundle.crt");
    InDir(dir, "ca.key", "serial.txt");
  }

  /* ---- siblings do not disturb one another ---- */

  /** The recorded sub-CAs `ks` and certificates `ls` of `n` are where the shape `sh` puts them. */
  ghost predicate Fits(n: Node, sh: Shape, ks: set<string>, ls: set<string>) {
    && n.dir == sh.dir && ks <= n.subs.Keys && ks <= sh.subs.Keys && ls <= n.leaves.Keys && ls <= sh.csrs.Keys
    && (forall k, p :: k in ks && Within(NodeShape(n.subs[k]), p) ==> Within(sh.subs[k], p))
    && (forall l :: l in ls ==> n.leaves[l].csr == sh.csrs[l])
  }

  lemma SiblingSame(sh: Shape, k: string, j: string, f: map<Path, File>, g: map<Path, File>)
    requires LaidOut(sh) && k in sh.subs && j in sh.subs && j != k && Untouched(f, g, sh.subs[k])
    ensures SameOn(f, g, sh.subs[j])
  {
    SubWithin(sh, k);
    SubWithin(sh, j);
    assert Apart(sh.subs[j], sh.subs[k]);
  }

  lemma OwnSame(sh: Shape, k: string, p: Path, f: map<Path, File>, g: map<Path, File>)
    requires LaidOut(sh) && k in sh.subs && Untouched(f, g, sh.subs[k]) && OwnPath(sh, p)
    ensures SameAt(f, g, p)
  {
    SubWithin(sh, k);
    assert OwnApart(sh, sh.subs[k]);
    assert Within(sh, p) by {
      if !CaFile(sh.dir, p) {
        var l :| l in sh.csrs && LeafDir(sh.dir, l) <= p;
        assert sh.dir <= LeafDir(sh.dir, l);
      }
    }
  }

  lemma LeafOwn(sh: Shape, l: string)
    requires LaidOut(sh) && l in sh.csrs
    ensures OwnPath(sh, LeafCertPath(sh.dir, sh.csrs[l])) && OwnPath(sh, LeafKeyPath(sh.dir, sh.csrs[l]))
  {
  }

  lemma PartlySoundFrame(n: Node, sh: Shape, k: string, f: map<Path, File>, g: map<Path, File>, next: nat, next': nat,
                         ks: set<string>, ls: set<string>)
    requires LaidOut(sh) && Fits(n, sh, ks, ls) && k in sh.subs && k !in ks
    requires Untouched(f, g, sh.subs[k]) && next <= next' && PartlySound(n, f, next, ks, ls)
    ensures PartlySound(n, g, next', ks, ls)
  {
    forall j | j in ks ensures SoundSub(n, j, g, next') {
      SiblingSame(sh, k, j, f, g);
      SoundSubFrame(n, j, f, g, next, next');
    }
    forall l | l in ls ensures SoundCert(n, l, g, next') {
      LeafOwn(sh, l);
      OwnSame(sh, k, LeafCertPath(n.dir, n.leaves[l].csr), f, g);
      OwnSame(sh, k, LeafKeyPath(n.dir, n.leaves[l].csr), f, g);
      SoundCertFrame(n, l, f, g, next, next');
    }
  }

  /* ---- sub-CAs ---- */

  ghost predicate SubDone(n: Node, n': Node, sh: Shape, k: string, w: World, w': World, ks: set<string>,
                          ls: set<string>)
    requires k in sh.subs
  {
    && k in n'.subs && n' == n.(subs := n.subs[k := n'.subs[k]])
    && NodeShape(n'.subs[k]) == Recorded(sh.subs[k], w.files)
    && PartlySound(n', w'.files, w'.next, ks + {k}, ls)
    && Untouched(w.files, w'.files, sh.subs[k])
    && AllReadable(w'.files, Bundles(sh.subs[k])) && AllOnDisk(sh.subs[k], w'.files)
    && Later(w, w')
    && (GetSubCA(w.files, sh.subs[k].dir) == None ==> Fresh(n'.subs[k], w.next, w.now))
  }

  ghost predicate Done(sh: Shape, ca: Tls, w: World, n: Node, w': World) {
    && n.ca == ca
    && NodeShape(n) == Recorded(sh, w.files)
    && Sound(n, w'.files, w'.next)
    && Untouched(w.files, w'.files, sh)
    && (forall p :: CaFile(sh.dir, p) ==> SameAt(w.files, w'.files, p))
    && AllReadable(w'.files, Bundles(sh)) && AllOnDisk(sh, w'.files)
    && Later(w, w')
    && (NothingFound(sh, w.files) ==> FreshBelow(n, w.next, w.now))
  }

  lemma {:induction false} SignSubCASound(n: Node, b: Builder, sh: Shape, w: World, ks: set<string>, ls: set<string>)
    returns (n': Node, w': World)
    requires WellNamed(b) && LaidOut(sh) && b.name in sh.subs && BuilderShape(b) == sh.subs[b.name]
    requires SubConsistent(sh.subs[b.name], n.ca, w.files, w.next)
    requires AllReadable(w.files, Bundles(sh.subs[b.name]))
    requires Fits(n, sh, ks, ls) && b.name !in ks && PartlySound(n, w.files, w.next, ks, ls)
    ensures SignSubCA(n, b, w) == Ok(n', w')
    ensures SubDone(n, n', sh, b.name, w, w', ks, ls)
    decreases b, 2
  {
    var c := sh.subs[b.name];
    EnsureSubCASound(n.ca, c, w);
    var (ca, w1) := EnsureSubCA(n.ca, b.name, b.dir, b.days, w);
    EnsuredReadable(n.ca, c, w, ca, w1);
    var m, w2 := CompleteSound(b, ca, w1);
    n', w' := n.(subs := n.subs[b.name := m]), w2;
    SubCASigned(n, sh, b.name, w, ca, w1, m, w2, ks, ls);
  }

  lemma EnsuredReadable(parent: Tls, c: Shape, w: World, ca: Tls, w1: World)
    requires LaidOut(c) && SubEnsured(parent, c, w, ca, w1) && AllReadable(w.files, Bundles(c))
    ensures AllReadable(w1.files, Bundles(c))
  {
    forall p | p in Bundles(c) ensures Readable(w1.files, p) {
      assert !Within(c, p);
      assert SameAt(w.files, w1.files, p);
    }
  }

  lemma EnsuredUntouched(c: Shape, f: map<Path, File>, g: map<Path, File>, h: map<Path, File>)
    requires forall p :: !CaFile(c.dir, p) ==> SameAt(f, g, p)
    requires Untouched(g, h, c)
    ensures Untouched(f, h, c)
  {
    forall p | !Within(c, p) && p !in Bundles(c) ensures SameAt(f, h, p) {
      assert SameAt(g, h, p);
      if CaFile(c.dir, p) {
        CaFilesWithin(c, p);
      }
    }
  }

  /** From the sub-CA's own completion to the signer it is recorded in. */
  lemma SubCASigned(n: Node, sh: Shape, k: string, w: World, ca: Tls, w1: World, m: Node, w2: World, ks: set<string>,
                    ls: set<string>)
    requires LaidOut(sh) && k in sh.subs && SubEnsured(n.ca, sh.subs[k], w, ca, w1) && Done(sh.subs[k], ca, w1, m, w2)
    requires Fits(n, sh, ks, ls) && k !in ks && PartlySound(n, w.files, w.next, ks, ls)
    ensures SubDone(n, n.(subs := n.subs[k := m]), sh, k, w, w2, ks, ls)
  {
    var c := sh.subs[k];
    assert NodeShape(m) == Recorded(c, w.files) by {
      RecordedFrame(c, w.files, w1.files);
    }
    if GetSubCA(w.files, c.dir) == None {
      FreshFrom(m, w1.next, w.next, w.now);
    }
    EnsuredUntouched(c, w.files, w1.files, w2.files);
    SubCASignedSound(n, sh, k, w, ca, w1, m, w2, ks, ls);
  }

  lemma SubCASignedSound(n: Node, sh: Shape, k: string, w: World, ca: Tls, w1: World, m: Node, w2: World,
                         ks: set<string>, ls: set<string>)
    requires LaidOut(sh) && k in sh.subs && SubEnsured(n.ca, sh.subs[k], w, ca, w1) && Done(sh.subs[k], ca, w1, m, w2)
    requires Fits(n, sh, ks, ls) && k !in ks && PartlySound(n, w.files, w.next, ks, ls)
    requires Untouched(w.files, w2.files, sh.subs[k])
    ensures PartlySound(n.(subs := n.subs[k := m]), w2.files, w2.next, ks + {k}, ls)
  {
    PartlySoundFrame(n, sh, k, w.files, w2.files, w.next, w2.next, ks, ls);
    SubSound(n.(subs := n.subs[k := m]), k, ca, m, sh.subs[k], w1, w2);
    PartlySoundAdd(n, k, m, w2.files, w2.next, ks, ls);
  }

  lemma PartlySoundAdd(n: Node, k: string, m: Node, files: map<Path, File>, next: nat, ks: set<string>, ls: set<string>)
    requires k !in ks && PartlySound(n, files, next, ks, ls)
    requires SoundSub(n.(subs := n.subs[k := m]), k, files, next)
    ensures PartlySound(n.(subs := n.subs[k := m]), files, next, ks + {k}, ls)
  {
  }

  lemma SubSound(n: Node, k: string, ca: Tls, m: Node, c: Shape, w1: World, w2: World)
    requires k in n.subs && n.subs[k] == m && m.ca == ca && NodeShape(m).dir == c.dir && NodeShape(m).name == c.name
    requires SubIssued(ca, c.name, n.ca, w1.next) && Later(w1, w2) && Sound(m, w2.files, w2.next)
    requires GetSubCA(w1.files, c.dir) == Some(ca)
    requires CACertPath(c.dir) in w1.files && w1.files[CACertPath(c.dir)] == CertFile([ca.cert])
    requires forall p :: CaFile(c.dir, p) ==> SameAt(w1.files, w2.files, p)
    ensures SoundSub(n, k, w2.files, w2.next)
  {
    assert SameAt(w1.files, w2.files, CACertPath(c.dir)) && SameAt(w1.files, w2.files, CAKeyPath(c.dir));
    assert SameAt(w1.files, w2.files, CABundlePath(c.dir)) && SameAt(w1.files, w2.files, CASerialsPath(c.dir));
  }

  /** The sub-CAs signed so far, `f0` being the disk the completion started from. */
  ghost predicate SubsSoFar(n: Node, sh: Shape, f0: map<Path, File>, lo: nat, now: int) {
    && n.dir == sh.dir && n.leaves == map[] && n.subs.Keys <= sh.subs.Keys
    && (forall k :: k in n.subs ==> SubRecorded(n.subs[k], sh.subs[k], f0, lo, now))
  }

  ghost predicate SubRecorded(c: Node, sub: Shape, f0: map<Path, File>, lo: nat, now: int) {
    NodeShape(c) == Recorded(sub, f0) && (GetSubCA(f0, sub.dir) == None ==> Fresh(c, lo, now))
  }

  /** The sub-CAs still to be signed find the disk as it was. */
  ghost predicate SubsToDo(bs: seq<Builder>, sh: Shape, ca: Tls, f0: map<Path, File>, w: World) {
    bs != [] ==>
      && WellNamed(bs[0]) && bs[0].name in sh.subs && sh.subs[bs[0].name] == BuilderShape(bs[0])
      && bs[0].name !in BuilderShapes(bs[1..])
      && SameOn(f0, w.files, sh.subs[bs[0].name]) && SubConsistent(sh.subs[bs[0].name], ca, w.files, w.next)
      && SubsToDo(bs[1..], sh, ca, f0, w)
  }

  /** Only the sub-CAs' files and bundles differ. */
  ghost predicate OnlySubs(f: map<Path, File>, g: map<Path, File>, sh: Shape) {
    forall p :: (forall k :: k in sh.subs ==> !Within(sh.subs[k], p)) && p !in Bundles(sh) ==> SameAt(f, g, p)
  }

  lemma SubsFit(n: Node, sh: Shape, f0: map<Path, File>, lo: nat, now: int)
    requires SubsSoFar(n, sh, f0, lo, now)
    ensures Fits(n, sh, n.subs.Keys, {})
  {
    forall k, p | k in n.subs && Within(NodeShape(n.subs[k]), p) ensures Within(sh.subs[k], p) {
      assert SubRecorded(n.subs[k], sh.subs[k], f0, lo, now);
      RecordedWithin(sh.subs[k], f0, p);
    }
  }

  lemma ReadableAfterSub(sh: Shape, k: string, f: map<Path, File>, g: map<Path, File>)
    requires LaidOut(sh) && k in sh.subs && Untouched(f, g, sh.subs[k])
    requires AllReadable(f, Bundles(sh)) && AllReadable(g, Bundles(sh.subs[k]))
    ensures AllReadable(g, Bundles(sh))
  {
    SubWithin(sh, k);
    forall p | p in Bundles(sh) ensures Readable(g, p) {
      if p !in Bundles(sh.subs[k]) {
        assert !Within(sh, p);
        assert SameAt(f, g, p);
      }
    }
  }

  lemma {:induction false} SubsStillToDo(bs: seq<Builder>, k: string, sh: Shape, ca: Tls, f0: map<Path, File>, w: World,
                                         w1: World)
    requires LaidOut(sh) && SubsToDo(bs, sh, ca, f0, w) && Later(w, w1)
    requires k in sh.subs && k !in BuilderShapes(bs) && Untouched(w.files, w1.files, sh.subs[k])
    ensures SubsToDo(bs, sh, ca, f0, w1)
  {
    if bs != [] {
      var j := bs[0].name;
      SiblingSame(sh, k, j, w.files, w1.files);
      SubConsistentFrame(sh.subs[j], ca, w.files, w1.files, w.next, w1.next);
      SubsStillToDo(bs[1..], k, sh, ca, f0, w, w1);
    }
  }

  /** The state of the loop over the sub-CA builders, `bs` being those that remain. */
  ghost predicate SubLoop(n: Node, bs: seq<Builder>, sh: Shape, w: World, f0: map<Path, File>, lo: nat) {
    && AllReadable(w.files, Bundles(sh)) && lo <= w.next
    && SubsSoFar(n, sh, f0, lo, w.now) && PartlySound(n, w.files, w.next, n.subs.Keys, {})
    && SubsToDo(bs, sh, n.ca, f0, w) && n.subs.Keys !! BuilderShapes(bs).Keys
    && SubsOnDisk(n, sh, w.files)
  }

  ghost predicate SubsOnDisk(n: Node, sh: Shape, files: map<Path, File>) {
    n.subs.Keys <= sh.subs.Keys && forall k :: k in n.subs ==> AllOnDisk(sh.subs[k], files)
  }

  lemma SubsStillOnDisk(n: Node, n1: Node, sh: Shape, k: string, f: map<Path, File>, g: map<Path, File>)
    requires LaidOut(sh) && SubsOnDisk(n, sh, f) && k in sh.subs && k !in n.subs && Untouched(f, g, sh.subs[k])
    requires SubsAdded(n, n1, {k}) && AllOnDisk(sh.subs[k], g)
    ensures SubsOnDisk(n1, sh, g)
  {
    hide LaidOut, AllOnDisk, Untouched;
    forall j | j in n.subs ensures AllOnDisk(sh.subs[j], g) {
      SiblingSame(sh, k, j, f, g);
      SubLaidOut(sh, j);
      AllOnDiskFrame(sh.subs[j], f, g);
    }
  }

  lemma {:induction false} SignSubCAsSound(n: Node, bs: seq<Builder>, sh: Shape, w: World, f0: map<Path, File>, lo: nat)
    returns (n': Node, w': World)
    requires LaidOut(sh) && SubLoop(n, bs, sh, w, f0, lo)
    ensures SignSubCAs(n, bs, w) == Ok(n', w')
    ensures SubLoop(n', [], sh, w', f0, lo)
    ensures SubsSigned(n, n', BuilderShapes(bs).Keys, sh, w, w')
    decreases bs, 0
  {
    hide LaidOut, SubLoop, Untouched;
    if bs == [] {
      n', w' := n, w;
    } else {
      var n1, w1 := FirstSub(n, bs, sh, w, f0, lo);
      n', w' := SignSubCAsSound(n1, bs[1..], sh, w1, f0, lo);
      SubsSignedStep(n, n1, n', bs[0].name, BuilderShapes(bs[1..]).Keys, sh, w, w1, w');
    }
  }

  ghost predicate SubsSigned(n: Node, n': Node, ks: set<string>, sh: Shape, w: World, w': World) {
    SubsAdded(n, n', ks) && OnlySubs(w.files, w'.files, sh) && Later(w, w')
  }

  lemma SubsSignedStep(n: Node, n1: Node, n2: Node, k: string, ks: set<string>, sh: Shape, w: World, w1: World,
                       w2: World)
    requires k in sh.subs && SubsAdded(n, n1, {k}) && Untouched(w.files, w1.files, sh.subs[k]) && Later(w, w1)
    requires SubsSigned(n1, n2, ks, sh, w1, w2)
    ensures SubsSigned(n, n2, {k} + ks, sh, w, w2)
  {
    OnlySubsStep(sh, k, w.files, w1.files, w2.files);
  }

  ghost predicate SubsAdded(n: Node, n': Node, ks: set<string>) {
    && n' == n.(subs := n'.subs) && n'.subs.Keys == n.subs.Keys + ks
    && (forall k :: k in n.subs ==> n'.subs[k] == n.subs[k])
  }

  lemma {:induction false} FirstSub(n: Node, bs: seq<Builder>, sh: Shape, w: World, f0: map<Path, File>, lo: nat)
    returns (n1: Node, w1: World)
    requires LaidOut(sh) && SubLoop(n, bs, sh, w, f0, lo) && bs != []
    ensures SignSubCA(n, bs[0], w) == Ok(n1, w1) && bs[0].name in sh.subs
    ensures SubLoop(n1, bs[1..], sh, w1, f0, lo)
    ensures SubsAdded(n, n1, {bs[0].name})
    ensures Untouched(w.files, w1.files, sh.subs[bs[0].name]) && Later(w, w1)
    decreases bs[0], 3
  {
    hide LaidOut, Bundles, BuilderShape, WellNamed, SubConsistent, SameOn, Within, AllOnDisk, NodeShape, Recorded;
    var k := bs[0].name;
    SubsFit(n, sh, f0, lo, w.now);
    SubWithin(sh, k);
    n1, w1 := SignSubCASound(n, bs[0], sh, w, n.subs.Keys, {});
    SubStep(n, n1, k, sh, w, w1, f0, lo);
    ReadableAfterSub(sh, k, w.files, w1.files);
    SubsStillToDo(bs[1..], k, sh, n.ca, f0, w, w1);
    SubsStillOnDisk(n, n1, sh, k, w.files, w1.files);
  }

  lemma SubStep(n: Node, n1: Node, k: string, sh: Shape, w: World, w1: World, f0: map<Path, File>, lo: nat)
    requires LaidOut(sh) && lo <= w.next && k in sh.subs && k !in n.subs
    requires SubsSoFar(n, sh, f0, lo, w.now) && SameOn(f0, w.files, sh.subs[k])
    requires SubDone(n, n1, sh, k, w, w1, n.subs.Keys, {})
    ensures SubsSoFar(n1, sh, f0, lo, w.now) && SubsAdded(n, n1, {k})
  {
    hide LaidOut, PartlySound, Untouched, NodeShape, Recorded, AllReadable, AllOnDisk, Bundles, FreshBelow;
    assert SubRecorded(n1.subs[k], sh.subs[k], f0, lo, w.now) by {
      SubLaidOut(sh, k);
      RecordedFrame(sh.subs[k], f0, w.files);
      SameCA(f0, w.files, sh.subs[k]);
      if GetSubCA(w.files, sh.subs[k].dir) == None {
        FreshFrom(n1.subs[k], w.next, lo, w.now);
      }
    }
    forall j | j in n1.subs ensures SubRecorded(n1.subs[j], sh.subs[j], f0, lo, w.now) {
      assert j != k ==> n1.subs[j] == n.subs[j] && SubRecorded(n.subs[j], sh.subs[j], f0, lo, w.now);
    }
  }

  lemma OnlySubsStep(sh: Shape, k: string, f: map<Path, File>, g: map<Path, File>, h: map<Path, File>)
    requires k in sh.subs && Untouched(f, g, sh.subs[k]) && OnlySubs(g, h, sh)
    ensures OnlySubs(f, h, sh)
  {
  }

  /* ---- certificates ---- */

  /** Only files of the certificate named `k` differ. */
  ghost predicate OnlyLeaf(f: map<Path, File>, g: map<Path, File>, dir: Path, k: string) {
    forall p :: !(LeafDir(dir, k) <= p) ==> SameAt(f, g, p)
  }

  lemma LeafDirsApart(dir: Path, k: string, l: string, p: Path)
    requires LeafDir(dir, k) <= p && LeafDir(dir, l) <= p
    ensures k == l
  {
    assert p[|dir|] == LeafDir(dir, k)[|dir|] == k;
    assert p[|dir|] == LeafDir(dir, l)[|dir|] == l;
  }

  lemma PartlySoundLeafFrame(n: Node, sh: Shape, k: string, f: map<Path, File>, g: map<Path, File>, next: nat,
                             next': nat,
                             ks: set<string>, ls: set<string>)
    requires LaidOut(sh) && Fits(n, sh, ks, ls) && k in sh.csrs && k !in ls
    requires OnlyLeaf(f, g, sh.dir, k) && next <= next' && PartlySound(n, f, next, ks, ls)
    ensures PartlySound(n, g, next', ks, ls)
  {
    forall j | j in ks ensures SoundSub(n, j, g, next') {
      LeafApartFromSub(sh, k, j, f, g);
      SoundSubFrame(n, j, f, g, next, next');
    }
    forall l | l in ls ensures SoundCert(n, l, g, next') {
      OtherLeafSame(sh.dir, k, n.leaves[l].csr, f, g);
      SoundCertFrame(n, l, f, g, next, next');
    }
  }

  lemma LeafApartFromSub(sh: Shape, k: string, j: string, f: map<Path, File>, g: map<Path, File>)
    requires LaidOut(sh) && k in sh.csrs && j in sh.subs && OnlyLeaf(f, g, sh.dir, k)
    ensures SameOn(f, g, sh.subs[j])
  {
  }

  lemma OtherLeafSame(dir: Path, k: string, csr: Csr, f: map<Path, File>, g: map<Path, File>)
    requires csr.name != k && OnlyLeaf(f, g, dir, k)
    ensures SameAt(f, g, LeafCertPath(dir, csr)) && SameAt(f, g, LeafKeyPath(dir, csr))
    ensures GetLeaf(f, dir, csr) == GetLeaf(g, dir, csr)
  {
    LeafPathsInDir(dir, csr);
    if LeafDir(dir, k) <= LeafCertPath(dir, csr) {
      LeafDirsApart(dir, k, csr.name, LeafCertPath(dir, csr));
    }
    if LeafDir(dir, k) <= LeafKeyPath(dir, csr) {
      LeafDirsApart(dir, k, csr.name, LeafKeyPath(dir, csr));
    }
  }

  /** A peer certificate that is already on disk: SignPeerCertificate returns without recording it. */
  ghost predicate SkippedPeer(csr: Csr, dir: Path, files: map<Path, File>) {
    csr.Peer? && GetLeaf(files, dir, csr).Some?
  }

  ghost predicate LeafConsistent(csr: Csr, dir: Path, ca: Tls, files: map<Path, File>, next: nat) {
    GetLeaf(files, dir, csr).Some? ==> LeafIssued(GetLeaf(files, dir, csr).value, csr, ca, next)
  }

  ghost predicate CertDone(n: Node, n': Node, csr: Csr, w: World, w': World, ks: set<string>, ls: set<string>) {
    && OnlyLeaf(w.files, w'.files, n.dir, csr.name)
    && Later(w, w')
    && (if SkippedPeer(csr, n.dir, w.files) then n' == n && w' == w
        else
          && csr.name in n'.leaves && n'.leaves[csr.name].csr == csr
          && n' == n.(leaves := n.leaves[csr.name := n'.leaves[csr.name]])
          && PartlySound(n', w'.files, w'.next, ks, ls + {csr.name})
          && (GetLeaf(w.files, n.dir, csr) == None ==> FreshCert(n'.leaves[csr.name], w.next, w.now)))
  }

  lemma SignCertificateSound(n: Node, csr: Csr, sh: Shape, w: World, ks: set<string>, ls: set<string>)
    requires LaidOut(sh) && csr.name in sh.csrs && sh.csrs[csr.name] == csr && csr.name !in ls
    requires Fits(n, sh, ks, ls) && PartlySound(n, w.files, w.next, ks, ls)
    requires LeafConsistent(csr, n.dir, n.ca, w.files, w.next)
    ensures CertDone(n, SignCertificate(n, csr, w).0, csr, w, SignCertificate(n, csr, w).1, ks, ls)
  {
    hide LaidOut, PartlySound, SignCertificate, GetLeaf, SoundSub, OnlyLeaf;
    var (n', w') := SignCertificate(n, csr, w);
    var k := csr.name;
    SignedLeaf(n, csr, w);
    if !SkippedPeer(csr, n.dir, w.files) {
      PartlySoundLeafFrame(n, sh, k, w.files, w'.files, w.next, w'.next, ks, ls);
      PartlySoundAddCert(n, k, n'.leaves[k], w'.files, w'.next, ks, ls);
    }
  }

  /** One certificate, whatever else there is. */
  lemma SignedLeaf(n: Node, csr: Csr, w: World)
    requires LeafConsistent(csr, n.dir, n.ca, w.files, w.next)
    ensures var (n', w') := SignCertificate(n, csr, w);
            && OnlyLeaf(w.files, w'.files, n.dir, csr.name) && Later(w, w')
            && (SkippedPeer(csr, n.dir, w.files) ==> n' == n && w' == w)
            && (!SkippedPeer(csr, n.dir, w.files) ==>
                  && csr.name in n'.leaves && n'.leaves[csr.name].csr == csr
                  && n' == n.(leaves := n.leaves[csr.name := n'.leaves[csr.name]])
                  && SoundCert(n', csr.name, w'.files, w'.next)
                  && (GetLeaf(w.files, n.dir, csr) == None ==> FreshCert(n'.leaves[csr.name], w.next, w.now)))
  {
    hide GetLeaf, LeafCertPath, LeafKeyPath, Says;
    LeafPathsInDir(n.dir, csr);
    LeafReadBack(w.files, n.dir, csr, n.ca, w);
    IssuedSays(n.ca, csr, w);
    FoundSays(w.files, n.dir, csr);
  }

  lemma PartlySoundAddCert(n: Node, k: string, l: Leaf, files: map<Path, File>, next: nat, ks: set<string>,
                           ls: set<string>)
    requires k !in ls && PartlySound(n, files, next, ks, ls)
    requires SoundCert(n.(leaves := n.leaves[k := l]), k, files, next)
    ensures PartlySound(n.(leaves := n.leaves[k := l]), files, next, ks, ls + {k})
  {
  }

  /** The certificates recorded so far; those in `todo` come later. */
  ghost predicate CertsSoFar(n: Node, sh: Shape, f0: map<Path, File>, todo: set<string>, lo: nat, now: int) {
    && n.leaves.Keys <= sh.csrs.Keys
    && (forall k :: k in sh.csrs && k !in todo ==> (k in n.leaves <==> !SkippedPeer(sh.csrs[k], sh.dir, f0)))
    && (forall k :: k in n.leaves ==> CertRecorded(n.leaves[k], sh.csrs[k], sh.dir, f0, lo, now))
  }

  ghost predicate CertRecorded(l: Leaf, csr: Csr, dir: Path, f0: map<Path, File>, lo: nat, now: int) {
    l.csr == csr && (GetLeaf(f0, dir, csr) == None ==> FreshCert(l, lo, now))
  }

  ghost predicate CertsToDo(csrs: seq<Csr>, sh: Shape, ca: Tls, f0: map<Path, File>, w: World) {
    csrs != [] ==>
      && csrs[0].name in sh.csrs && sh.csrs[csrs[0].name] == csrs[0]
      && csrs[0].name !in CsrsByName(csrs[1..])
      && GetLeaf(w.files, sh.dir, csrs[0]) == GetLeaf(f0, sh.dir, csrs[0])
      && LeafConsistent(csrs[0], sh.dir, ca, w.files, w.next)
      && CertsToDo(csrs[1..], sh, ca, f0, w)
  }

  lemma {:induction false} CertsStillToDo(csrs: seq<Csr>, k: string, sh: Shape, ca: Tls, f0: map<Path, File>, w: World,
                                          w1: World)
    requires LaidOut(sh) && CertsToDo(csrs, sh, ca, f0, w) && Later(w, w1)
    requires k !in CsrsByName(csrs) && OnlyLeaf(w.files, w1.files, sh.dir, k)
    ensures CertsToDo(csrs, sh, ca, f0, w1)
  {
    if csrs != [] {
      OtherLeafSame(sh.dir, k, csrs[0], w.files, w1.files);
      CertsStillToDo(csrs[1..], k, sh, ca, f0, w, w1);
    }
  }

  /** The state of the loop over the signing requests, `csrs` being those that remain. */
  ghost predicate CertLoop(n: Node, csrs: seq<Csr>, sh: Shape, w: World, f0: map<Path, File>, lo: nat) {
    && lo <= w.next && Fits(n, sh, n.subs.Keys, n.leaves.Keys)
    && CertsSoFar(n, sh, f0, CsrsByName(csrs).Keys, lo, w.now)
    && PartlySound(n, w.files, w.next, n.subs.Keys, n.leaves.Keys)
    && CertsToDo(csrs, sh, n.ca, f0, w) && n.leaves.Keys !! CsrsByName(csrs).Keys
    && CertsOnDisk(sh, CsrsByName(csrs).Keys, w.files)
  }

  ghost predicate CertsOnDisk(sh: Shape, todo: set<string>, files: map<Path, File>) {
    forall k :: k in sh.csrs && k !in todo ==> GetLeaf(files, sh.dir, sh.csrs[k]).Some?
  }

  lemma CertsStillOnDisk(n: Node, n1: Node, csrs: seq<Csr>, sh: Shape, w: World, w1: World)
    requires LaidOut(sh) && csrs != [] && CertsOnDisk(sh, CsrsByName(csrs).Keys, w.files) && n.dir == sh.dir
    requires csrs[0].name in sh.csrs && sh.csrs[csrs[0].name] == csrs[0]
    requires CertDone(n, n1, csrs[0], w, w1, n.subs.Keys, n.leaves.Keys)
    ensures CertsOnDisk(sh, CsrsByName(csrs[1..]).Keys, w1.files)
  {
    hide LaidOut, SoundSub;
    var k := csrs[0].name;
    forall j | j in sh.csrs && j !in CsrsByName(csrs[1..]) ensures GetLeaf(w1.files, sh.dir, sh.csrs[j]).Some? {
      if j == k {
        assert !SkippedPeer(csrs[0], n.dir, w.files) ==> SoundCert(n1, k, w1.files, w1.next);
      } else {
        CsrName(sh, j);
        OtherLeafSame(sh.dir, k, sh.csrs[j], w.files, w1.files);
      }
    }
  }

  lemma CsrName(sh: Shape, k: string)
    requires LaidOut(sh) && k in sh.csrs
    ensures sh.csrs[k].name == k
  {
  }

  /** Only certificates' files differ. */
  ghost predicate OnlyCerts(f: map<Path, File>, g: map<Path, File>, sh: Shape) {
    forall p :: (forall k :: k in sh.csrs ==> !(LeafDir(sh.dir, k) <= p)) ==> SameAt(f, g, p)
  }

  ghost predicate CertsSigned(n: Node, n': Node, sh: Shape, w: World, w': World) {
    n' == n.(leaves := n'.leaves) && OnlyCerts(w.files, w'.files, sh) && Later(w, w')
  }

  lemma {:induction false} SignCertificatesSound(n: Node, csrs: seq<Csr>, sh: Shape, w: World, f0: map<Path, File>,
                                                 lo: nat)
    returns (n': Node, w': World)
    requires LaidOut(sh) && CertLoop(n, csrs, sh, w, f0, lo)
    ensures SignCertificates(n, csrs, w) == (n', w')
    ensures CertLoop(n', [], sh, w', f0, lo) && CertsSigned(n, n', sh, w, w')
    decreases |csrs|
  {
    if csrs == [] {
      n', w' := n, w;
    } else {
      var n1, w1 := FirstCert(n, csrs, sh, w, f0, lo);
      n', w' := SignCertificatesSound(n1, csrs[1..], sh, w1, f0, lo);
      CertsSignedStep(n, n1, n', csrs[0].name, sh, w, w1, w');
    }
  }

  lemma CertsSignedStep(n: Node, n1: Node, n2: Node, k: string, sh: Shape, w: World, w1: World, w2: World)
    requires k in sh.csrs && n1 == n.(leaves := n1.leaves) && OnlyLeaf(w.files, w1.files, sh.dir, k) && Later(w, w1)
    requires CertsSigned(n1, n2, sh, w1, w2)
    ensures CertsSigned(n, n2, sh, w, w2)
  {
    forall p | forall k :: k in sh.csrs ==> !(LeafDir(sh.dir, k) <= p) ensures SameAt(w.files, w2.files, p) {
      assert SameAt(w.files, w1.files, p) && SameAt(w1.files, w2.files, p);
    }
  }

  lemma FirstCert(n: Node, csrs: seq<Csr>, sh: Shape, w: World, f0: map<Path, File>, lo: nat)
    returns (n1: Node, w1: World)
    requires LaidOut(sh) && CertLoop(n, csrs, sh, w, f0, lo) && csrs != []
    ensures SignCertificate(n, csrs[0], w) == (n1, w1) && csrs[0].name in sh.csrs
    ensures CertLoop(n1, csrs[1..], sh, w1, f0, lo)
    ensures n1 == n.(leaves := n1.leaves) && OnlyLeaf(w.files, w1.files, sh.dir, csrs[0].name) && Later(w, w1)
  {
    var k := csrs[0].name;
    SignCertificateSound(n, csrs[0], sh, w, n.subs.Keys, n.leaves.Keys);
    n1, w1 := SignCertificate(n, csrs[0], w).0, SignCertificate(n, csrs[0], w).1;
    CertsStillToDo(csrs[1..], k, sh, n.ca, f0, w, w1);
    CertStep(n, n1, csrs, sh, w, w1, f0, lo);
    CertStepSound(n, n1, csrs[0], sh, w, w1);
    CertsStillOnDisk(n, n1, csrs, sh, w, w1);
  }

  /** The next request of the loop. */
  lemma NextCsr(n: Node, csrs: seq<Csr>, sh: Shape, w: World, f0: map<Path, File>, lo: nat)
    requires CertLoop(n, csrs, sh, w, f0, lo) && csrs != []
    ensures n.dir == sh.dir && lo <= w.next && csrs[0].name in sh.csrs && sh.csrs[csrs[0].name] == csrs[0]
    ensures GetLeaf(w.files, sh.dir, csrs[0]) == GetLeaf(f0, sh.dir, csrs[0])
    ensures forall k :: k in CsrsByName(csrs) <==> k in CsrsByName(csrs[1..]) || k == csrs[0].name
    ensures csrs[0].name !in CsrsByName(csrs[1..])
  {
    hide GetLeaf, PartlySound, CertsSoFar, CertsOnDisk;
  }

  lemma CertStep(n: Node, n1: Node, csrs: seq<Csr>, sh: Shape, w: World, w1: World, f0: map<Path, File>, lo: nat)
    requires CertLoop(n, csrs, sh, w, f0, lo) && csrs != []
    requires CertDone(n, n1, csrs[0], w, w1, n.subs.Keys, n.leaves.Keys)
    ensures CertsSoFar(n1, sh, f0, CsrsByName(csrs[1..]).Keys, lo, w.now)
    ensures n1.leaves.Keys !! CsrsByName(csrs[1..]).Keys
  {
    hide SoundSub, SoundCert, OnlyLeaf, Within, NodeShape, CertsOnDisk, PartlySound, GetLeaf, CertsToDo, CsrsByName;
    hide Fits;
    var k := csrs[0].name;
    NextCsr(n, csrs, sh, w, f0, lo);
    if !SkippedPeer(csrs[0], n.dir, w.files) {
      assert n1.leaves.Keys == n.leaves.Keys + {k};
      assert CertRecorded(n1.leaves[k], sh.csrs[k], sh.dir, f0, lo, w.now);
    }
  }

  lemma CertStepSound(n: Node, n1: Node, csr: Csr, sh: Shape, w: World, w1: World)
    requires Fits(n, sh, n.subs.Keys, n.leaves.Keys) && PartlySound(n, w.files, w.next, n.subs.Keys, n.leaves.Keys)
    requires csr.name in sh.csrs && sh.csrs[csr.name] == csr && CertDone(n, n1, csr, w, w1, n.subs.Keys, n.leaves.Keys)
    ensures Fits(n1, sh, n1.subs.Keys, n1.leaves.Keys)
    ensures PartlySound(n1, w1.files, w1.next, n1.subs.Keys, n1.leaves.Keys)
  {
    hide SoundSub, SoundCert, OnlyLeaf, Within, NodeShape, FreshCert;
    if !SkippedPeer(csr, n.dir, w.files) {
      assert n1.leaves.Keys == n.leaves.Keys + {csr.name};
    }
  }

  /* ---- bundles ---- */

  lemma {:induction false} AddToBundlesSound(n: Node, ps: seq<Path>, w: World) returns (n': Node, w': World)
    requires forall p :: p in ps ==> Readable(w.files, p)
    ensures AddToBundles(n, ps, w) == Ok(n', w')
    ensures n' == n.(bundles := n.bundles + set p | p in ps)
    ensures w' == w.(files := w'.files)
    ensures forall p :: p !in ps ==> SameAt(w.files, w'.files, p)
    ensures forall p :: p in ps ==> Readable(w'.files, p)
    decreases |ps|
  {
    if ps == [] {
      n', w' := n, w;
    } else {
      var w1 := w.(files := w.files[ps[0] := CertFile(Upsert(BundleAt(w.files, ps[0]), n.ca.cert))]);
      assert forall p :: p in ps[1..] ==> p in ps;
      n', w' := AddToBundlesSound(n.(bundles := n.bundles + {ps[0]}), ps[1..], w1);
      assert ps == [ps[0]] + ps[1..];
    }
  }

  /* ---- the whole builder ---- */

  lemma {:induction false} SubsToDoFirst(bs: seq<Builder>, sh: Shape, ca: Tls, w: World)
    requires AllWellNamed(bs) && Consistent(sh, ca, w.files, w.next)
    requires forall k :: k in BuilderShapes(bs) ==> k in sh.subs && sh.subs[k] == BuilderShapes(bs)[k]
    ensures SubsToDo(bs, sh, ca, w.files, w)
  {
    if bs != [] {
      assert bs[0].name in BuilderShapes(bs);
      SubsToDoFirst(bs[1..], sh, ca, w);
    }
  }

  lemma {:induction false} CertsToDoFirst(csrs: seq<Csr>, sh: Shape, ca: Tls, f0: map<Path, File>, next: nat, w: World)
    requires DistinctCsrs(csrs) && Consistent(sh, ca, f0, next) && next <= w.next
    requires forall k :: k in CsrsByName(csrs) ==> k in sh.csrs && sh.csrs[k] == CsrsByName(csrs)[k]
    requires forall k :: k in sh.csrs ==> GetLeaf(w.files, sh.dir, sh.csrs[k]) == GetLeaf(f0, sh.dir, sh.csrs[k])
    ensures CertsToDo(csrs, sh, ca, f0, w)
  {
    if csrs != [] {
      assert csrs[0].name in CsrsByName(csrs);
      CertsToDoFirst(csrs[1..], sh, ca, f0, next, w);
    }
  }

  lemma LeavesSurviveSubs(sh: Shape, k: string, f: map<Path, File>, g: map<Path, File>)
    requires LaidOut(sh) && k in sh.csrs && OnlySubs(f, g, sh)
    ensures GetLeaf(g, sh.dir, sh.csrs[k]) == GetLeaf(f, sh.dir, sh.csrs[k])
  {
    LeafOwn(sh, k);
    LeafPathsInDir(sh.dir, sh.csrs[k]);
    OwnSurvivesSubs(sh, LeafCertPath(sh.dir, sh.csrs[k]), f, g);
    OwnSurvivesSubs(sh, LeafKeyPath(sh.dir, sh.csrs[k]), f, g);
  }

  lemma OwnSurvivesSubs(sh: Shape, p: Path, f: map<Path, File>, g: map<Path, File>)
    requires LaidOut(sh) && OwnPath(sh, p) && sh.dir <= p && OnlySubs(f, g, sh)
    ensures SameAt(f, g, p)
  {
  }

  lemma StartSubs(b: Builder, ca: Tls, w: World)
    requires WellNamed(b) && Consistent(BuilderShape(b), ca, w.files, w.next)
    requires AllReadable(w.files, Bundles(BuilderShape(b)))
    ensures SubLoop(Empty(b, ca), b.subs, BuilderShape(b), w, w.files, w.next)
  {
    SubsToDoFirst(b.subs, BuilderShape(b), ca, w);
  }

  lemma StartCerts(b: Builder, ca: Tls, w: World, n1: Node, w1: World)
    requires WellNamed(b) && LaidOut(BuilderShape(b)) && Consistent(BuilderShape(b), ca, w.files, w.next)
    requires SubLoop(n1, [], BuilderShape(b), w1, w.files, w.next)
    requires SubsSigned(Empty(b, ca), n1, BuilderShapes(b.subs).Keys, BuilderShape(b), w, w1)
    ensures CertLoop(n1, b.csrs, BuilderShape(b), w1, w.files, w.next)
  {
    var sh := BuilderShape(b);
    SubsFit(n1, sh, w.files, w.next, w1.now);
    forall k | k in sh.csrs ensures GetLeaf(w1.files, sh.dir, sh.csrs[k]) == GetLeaf(w.files, sh.dir, sh.csrs[k]) {
      LeavesSurviveSubs(sh, k, w.files, w1.files);
    }
    CertsToDoFirst(b.csrs, sh, ca, w.files, w.next, w1);
  }

  /** Files outside the subtree's region and files outside its certificates survive a completion's three phases. */
  lemma PhasesUntouched(sh: Shape, f: map<Path, File>, g: map<Path, File>, h: map<Path, File>, i: map<Path, File>)
    requires LaidOut(sh) && OnlySubs(f, g, sh) && OnlyCerts(g, h, sh)
    requires (forall p :: p !in sh.bundles ==> SameAt(h, i, p))
    ensures Untouched(f, i, sh)
    ensures forall p :: CaFile(sh.dir, p) ==> SameAt(f, i, p)
  {
    forall p | !Within(sh, p) && p !in Bundles(sh) ensures SameAt(f, i, p) {
      forall k | k in sh.csrs ensures !(LeafDir(sh.dir, k) <= p) {
        assert sh.dir <= LeafDir(sh.dir, k);
      }
      assert SameAt(f, g, p) && SameAt(g, h, p) && SameAt(h, i, p);
    }
    forall p | CaFile(sh.dir, p) ensures SameAt(f, i, p) {
      OwnSurvivesSubs(sh, p, f, g);
      forall k | k in sh.csrs ensures !(LeafDir(sh.dir, k) <= p) {
        assert p[|sh.dir|] in CA_FILES;
      }
      assert SameAt(g, h, p);
      CaFilesWithin(sh, p);
    }
  }

  lemma BundlesSurviveCerts(sh: Shape, g: map<Path, File>, h: map<Path, File>)
    requires LaidOut(sh) && OnlyCerts(g, h, sh) && AllReadable(g, Bundles(sh))
    ensures AllReadable(h, Bundles(sh))
  {
    forall p | p in Bundles(sh) ensures Readable(h, p) {
      forall k | k in sh.csrs ensures !(LeafDir(sh.dir, k) <= p) {
        assert sh.dir <= LeafDir(sh.dir, k);
        assert !Within(sh, p);
      }
      assert SameAt(g, h, p);
    }
  }

  /** Writing bundle files disturbs nothing recorded. */
  lemma OutsideBundles(sh: Shape, f: map<Path, File>, g: map<Path, File>)
    requires LaidOut(sh) && forall p :: p !in sh.bundles ==> SameAt(f, g, p)
    ensures SameOn(f, g, sh)
  {
    hide Within, SameAt;
    forall p | Within(sh, p) ensures SameAt(f, g, p) {
      assert p in sh.bundles ==> p in Bundles(sh);
    }
  }

  lemma SoundAfterBundles(n: Node, sh: Shape, w: World, n': Node, w': World)
    requires LaidOut(sh) && Fits(n, sh, n.subs.Keys, n.leaves.Keys)
    requires PartlySound(n, w.files, w.next, n.subs.Keys, n.leaves.Keys)
    requires n' == n.(bundles := n'.bundles) && w'.next == w.next
    requires forall p :: p !in sh.bundles ==> SameAt(w.files, w'.files, p)
    ensures Sound(n', w'.files, w'.next)
  {
    hide SameAt, LaidOut, Within, Bundles, GetLeaf, GetSubCA;
    OutsideBundles(sh, w.files, w'.files);
    forall k | k in n.subs ensures SoundSub(n', k, w'.files, w'.next) {
      SubWithin(sh, k);
      SoundSubFrame(n, k, w.files, w'.files, w.next, w'.next);
    }
    forall k | k in n.leaves ensures SoundCert(n', k, w'.files, w'.next) {
      var csr := n.leaves[k].csr;
      LeafPathsInDir(n.dir, csr);
      DirWithin(sh, LeafCertPath(n.dir, csr));
      DirWithin(sh, LeafKeyPath(n.dir, csr));
      SoundCertFrame(n, k, w.files, w'.files, w.next, w'.next);
    }
  }

  lemma DirWithin(sh: Shape, p: Path)
    requires sh.dir <= p
    ensures Within(sh, p)
  {
  }

  lemma ShapeRecorded(n: Node, sh: Shape, f0: map<Path, File>, lo: nat, now: int)
    requires n.name == sh.name && n.dir == sh.dir && n.days == sh.days && n.bundles == sh.bundles
    requires n.subs.Keys == sh.subs.Keys
    requires forall k :: k in n.subs ==> SubRecorded(n.subs[k], sh.subs[k], f0, lo, now)
    requires CertsSoFar(n, sh, f0, {}, lo, now)
    ensures NodeShape(n) == Recorded(sh, f0)
  {
    hide CertsSoFar;
    assert forall k :: k in n.subs ==> NodeShape(n.subs[k]) == Recorded(sh.subs[k], f0) by {
      hide NodeShape, Recorded;
    }
    SubsRecorded(n, sh, f0);
    CertsRecorded(n, sh, f0, lo, now);
  }

  lemma SubsRecorded(n: Node, sh: Shape, f0: map<Path, File>)
    requires n.subs.Keys == sh.subs.Keys && forall k :: k in n.subs ==> NodeShape(n.subs[k]) == Recorded(sh.subs[k], f0)
    ensures NodeShape(n).subs == Recorded(sh, f0).subs
  {
  }

  lemma CertsRecorded(n: Node, sh: Shape, f0: map<Path, File>, lo: nat, now: int)
    requires CertsSoFar(n, sh, f0, {}, lo, now)
    ensures NodeShape(n).csrs == Recorded(sh, f0).csrs
  {
    hide FreshCert, GetLeaf;
    var s, r := NodeShape(n).csrs, Recorded(sh, f0).csrs;
    assert s.Keys == r.Keys;
    forall k | k in s ensures s[k] == r[k] {
      assert CertRecorded(n.leaves[k], sh.csrs[k], sh.dir, f0, lo, now);
    }
  }

  lemma AllFresh(n: Node, sh: Shape, f0: map<Path, File>, lo: nat, now: int)
    requires n.subs.Keys == sh.subs.Keys && CertsSoFar(n, sh, f0, {}, lo, now) && NothingFound(sh, f0)
    requires forall k :: k in n.subs ==> SubRecorded(n.subs[k], sh.subs[k], f0, lo, now)
    ensures FreshBelow(n, lo, now)
  {
  }

  lemma {:induction false} CompleteSound(b: Builder, ca: Tls, w: World) returns (n: Node, w': World)
    requires WellNamed(b) && LaidOut(BuilderShape(b)) && Consistent(BuilderShape(b), ca, w.files, w.next)
    requires AllReadable(w.files, Bundles(BuilderShape(b)))
    ensures Complete(b, ca, w) == Ok(n, w')
    ensures Done(BuilderShape(b), ca, w, n, w')
    decreases b, 1
  {
    var sh := BuilderShape(b);
    StartSubs(b, ca, w);
    var n1, w1 := SignSubCAsSound(Empty(b, ca), b.subs, sh, w, w.files, w.next);
    StartCerts(b, ca, w, n1, w1);
    var n2, w2 := SignCertificatesSound(n1, b.csrs, sh, w1, w.files, w.next);
    BundlesSurviveCerts(sh, w1.files, w2.files);
    assert forall p :: p in b.bundlePaths ==> p in sh.bundles;
    n, w' := AddToBundlesSound(n2, b.bundlePaths, w2);
    FinishComplete(b, ca, w, n1, w1, n2, w2, n, w');
  }

  lemma FinishComplete(b: Builder, ca: Tls, w: World, n1: Node, w1: World, n2: Node, w2: World, n: Node, w': World)
    requires LaidOut(BuilderShape(b)) && AllReadable(w2.files, Bundles(BuilderShape(b)))
    requires SubLoop(n1, [], BuilderShape(b), w1, w.files, w.next)
    requires SubsSigned(Empty(b, ca), n1, BuilderShapes(b.subs).Keys, BuilderShape(b), w, w1)
    requires CertLoop(n2, [], BuilderShape(b), w2, w.files, w.next) && CertsSigned(n1, n2, BuilderShape(b), w1, w2)
    requires n == n2.(bundles := n2.bundles + set p | p in b.bundlePaths) && w' == w2.(files := w'.files)
    requires forall p :: p !in b.bundlePaths ==> SameAt(w2.files, w'.files, p)
    requires forall p :: p in b.bundlePaths ==> Readable(w'.files, p)
    ensures Done(BuilderShape(b), ca, w, n, w')
  {
    hide LaidOut, Recorded, NodeShape, SubRecorded, NothingFound, PartlySound, Sound, AllOnDisk, CertsToDo, SubsToDo;
    hide FreshBelow, CertsSoFar;
    hide Untouched, OnlySubs, OnlyCerts, Fits, Within, Bundles, AllReadable, CertsOnDisk, SubsOnDisk, SubsSoFar;
    hide Readable, CaFile;
    var sh := BuilderShape(b);
    assert forall p :: p in b.bundlePaths <==> p in sh.bundles;
    FinishShape(b, ca, w, n1, w1, n2, w2, n);
    FinishSound(sh, ca, w, w1, n2, w2, n, w');
    StillReadable(sh, b.bundlePaths, w2.files, w'.files);
    SubDirs(n1, sh, w.files, w.next, w1.now);
    assert CsrsByName([]).Keys == {};
    FinishOnDisk(sh, n1, n, w1, w2, w');
  }

  lemma FinishShape(b: Builder, ca: Tls, w: World, n1: Node, w1: World, n2: Node, w2: World, n: Node)
    requires SubLoop(n1, [], BuilderShape(b), w1, w.files, w.next)
    requires SubsSigned(Empty(b, ca), n1, BuilderShapes(b.subs).Keys, BuilderShape(b), w, w1)
    requires CertLoop(n2, [], BuilderShape(b), w2, w.files, w.next) && CertsSigned(n1, n2, BuilderShape(b), w1, w2)
    requires n == n2.(bundles := n2.bundles + set p | p in b.bundlePaths)
    ensures NodeShape(n) == Recorded(BuilderShape(b), w.files)
    ensures NothingFound(BuilderShape(b), w.files) ==> FreshBelow(n, w.next, w.now)
  {
    hide Recorded, NodeShape, SubRecorded, NothingFound, SoundSub, SoundCert, AllOnDisk, CertsToDo, SubsToDo;
    hide FreshBelow;
    hide Untouched, OnlySubs, OnlyCerts, Fits, Within, Bundles, AllReadable, PartlySound, CertsOnDisk, SubsOnDisk;
    var sh := BuilderShape(b);
    ShapeRecorded(n, sh, w.files, w.next, w.now);
    if NothingFound(sh, w.files) {
      AllFresh(n, sh, w.files, w.next, w.now);
    }
  }

  lemma StillReadable(sh: Shape, ps: seq<Path>, f: map<Path, File>, g: map<Path, File>)
    requires AllReadable(f, Bundles(sh)) && (forall p :: p !in ps ==> SameAt(f, g, p))
    requires forall p :: p in ps ==> Readable(g, p)
    ensures AllReadable(g, Bundles(sh))
  {
  }

  lemma FinishSound(sh: Shape, ca: Tls, w: World, w1: World, n2: Node, w2: World, n: Node, w': World)
    requires LaidOut(sh) && OnlySubs(w.files, w1.files, sh) && OnlyCerts(w1.files, w2.files, sh)
    requires Fits(n2, sh, n2.subs.Keys, n2.leaves.Keys)
    requires PartlySound(n2, w2.files, w2.next, n2.subs.Keys, n2.leaves.Keys)
    requires n == n2.(bundles := n.bundles) && w'.next == w2.next
    requires forall p :: p !in sh.bundles ==> SameAt(w2.files, w'.files, p)
    ensures Untouched(w.files, w'.files, sh) && Sound(n, w'.files, w'.next)
    ensures forall p :: CaFile(sh.dir, p) ==> SameAt(w.files, w'.files, p)
  {
    hide LaidOut;
    PhasesUntouched(sh, w.files, w1.files, w2.files, w'.files);
    SoundAfterBundles(n2, sh, w2, n, w');
  }

  lemma SubDirs(n: Node, sh: Shape, f0: map<Path, File>, lo: nat, now: int)
    requires SubsSoFar(n, sh, f0, lo, now)
    ensures forall k :: k in n.subs ==> n.subs[k].dir == sh.subs[k].dir
  {
  }

  lemma FinishOnDisk(sh: Shape, n1: Node, n: Node, w1: World, w2: World, w': World)
    requires LaidOut(sh) && SubsOnDisk(n1, sh, w1.files) && n1.subs.Keys == sh.subs.Keys && n.subs == n1.subs
    requires CertsOnDisk(sh, {}, w2.files) && OnlyCerts(w1.files, w2.files, sh)
    requires forall p :: p !in sh.bundles ==> SameAt(w2.files, w'.files, p)
    requires Sound(n, w'.files, w'.next) && forall k :: k in n.subs ==> n.subs[k].dir == sh.subs[k].dir
    ensures AllOnDisk(sh, w'.files)
  {
    assert SameOn(w2.files, w'.files, sh) by {
      BundlesElsewhere(sh, w2.files, w'.files);
    }
    hide LaidOut, Within, OnlyCerts;
    forall k | k in sh.csrs ensures GetLeaf(w'.files, sh.dir, sh.csrs[k]).Some? {
      SameLeaf(w2.files, w'.files, sh, sh.csrs[k]);
    }
    forall k | k in sh.subs ensures GetSubCA(w'.files, sh.subs[k].dir).Some? && AllOnDisk(sh.subs[k], w'.files) {
      assert SoundSub(n, k, w'.files, w'.next);
      SubOutlivesCerts(sh, k, w1.files, w2.files, w'.files);
    }
  }

  lemma BundlesElsewhere(sh: Shape, f: map<Path, File>, g: map<Path, File>)
    requires LaidOut(sh) && forall p :: p !in sh.bundles ==> SameAt(f, g, p)
    ensures SameOn(f, g, sh)
  {
  }

  lemma SubOutlivesCerts(sh: Shape, k: string, f: map<Path, File>, g: map<Path, File>, h: map<Path, File>)
    requires LaidOut(sh) && k in sh.subs && AllOnDisk(sh.subs[k], f) && OnlyCerts(f, g, sh) && SameOn(g, h, sh)
    ensures AllOnDisk(sh.subs[k], h)
  {
    hide AllOnDisk;
    var c := sh.subs[k];
    forall p | Within(c, p) ensures SameAt(f, h, p) {
      assert OwnApart(sh, c) && !OwnPath(sh, p) && Within(sh, p);
      assert SameAt(f, g, p) && SameAt(g, h, p);
    }
    AllOnDiskFrame(c, f, h);
  }
}
