/** Which part of the disk a signer owns, what it means for tree and disk to agree, and what such facts depend on. */
module Layout {
  import opened Base
  import opened Pki
  import opened Tree

  /* ---- regions of the disk ---- */

  /** `p` lies in the directory of the signer or of one of its descendants. */
  ghost predicate Within(sh: Shape, p: Path) {
    sh.dir <= p || exists k :: k in sh.subs && Within(sh.subs[k], p)
  }

  ghost predicate CaFile(dir: Path, p: Path) {
    p == CACertPath(dir) || p == CAKeyPath(dir) || p == CABundlePath(dir) || p == CASerialsPath(dir)
  }

  /** `p` is a file the signer itself writes: one of its CA files or part of one of its certificates' directories. */
  ghost predicate OwnPath(sh: Shape, p: Path) {
    CaFile(sh.dir, p) || exists k :: k in sh.csrs && LeafDir(sh.dir, k) <= p
  }

  /** Every bundle file registered in the subtree. */
  ghost function Bundles(sh: Shape): set<Path> {
    sh.bundles + set k, p | k in sh.subs && p in Bundles(sh.subs[k]) :: p
  }

  ghost predicate Apart(s: Shape, t: Shape) {
    forall p :: Within(s, p) ==> !Within(t, p)
  }

  ghost predicate OwnApart(sh: Shape, t: Shape) {
    forall p :: OwnPath(sh, p) ==> !Within(t, p)
  }

  /** The layout the engine relies on: names distinct, no signer's files inside an unrelated signer's directory,
      bundle files outside every signer directory. */
  ghost predicate LaidOut(sh: Shape) {
    && (forall k :: k in sh.csrs ==> sh.csrs[k].name == k && k !in CA_FILES)
    && sh.subs.Keys !! sh.csrs.Keys
    && (forall k :: k in sh.subs ==> sh.subs[k].name == k && LaidOut(sh.subs[k]) && OwnApart(sh, sh.subs[k]))
    && (forall k, l :: k in sh.subs && l in sh.subs && k != l ==> Apart(sh.subs[k], sh.subs[l]))
    && (forall p :: p in Bundles(sh) ==> !Within(sh, p))
  }

  /** Every descendant's directory lies under `d`. */
  ghost predicate Under(sh: Shape, d: Path) {
    forall k :: k in sh.subs ==> d <= sh.subs[k].dir && Under(sh.subs[k], d)
  }

  /** Every sub-CA of a sub-CA has its directory under its parent's: required of everything below the root. */
  ghost predicate Nested(sh: Shape) {
    forall k :: k in sh.subs ==> sh.dir <= sh.subs[k].dir && Nested(sh.subs[k])
  }

  /* ---- agreement of tree and disk ---- */

  /** A certificate issued by the CA for the request; a serving or peer file carries the CA's chain as well. */
  ghost predicate LeafIssued(t: Tls, csr: Csr, ca: Tls, next: nat) {
    IssuedBy(t.cert, ca) && t.chain == (if csr.Client? then [] else ca.Pem()) && t.cert.id < next
  }

  /** The certificate recorded is for its request, issued by the signer's CA, and what the disk holds. */
  ghost predicate SoundCert(n: Node, k: string, files: map<Path, File>, next: nat)
    requires k in n.leaves
  {
    var l := n.leaves[k];
    LeafIssued(l.tls, l.csr, n.ca, next) && Says(l.tls.cert, l.csr) && GetLeaf(files, n.dir, l.csr) == Some(l.tls)
  }

  /** A CA certificate properly issued to the sub-CA named `name` by `parent`. */
  ghost predicate SubIssued(t: Tls, name: string, parent: Tls, next: nat) {
    IssuedBy(t.cert, parent) && t.chain == parent.Pem() && t.cert.subject == CN(name) && t.cert.id < next
  }

  ghost predicate SoundSub(n: Node, k: string, files: map<Path, File>, next: nat)
    requires k in n.subs
    decreases n, 0
  {
    var c := n.subs[k];
    && SubIssued(c.ca, c.name, n.ca, next)
    && GetSubCA(files, c.dir) == Some(c.ca)
    && CACertPath(c.dir) in files && files[CACertPath(c.dir)] == CertFile([c.ca.cert])
    && Sound(c, files, next)
  }

  /** Every certificate recorded below `n` chains to the current CA above it and is what the disk holds at its path. */
  ghost predicate Sound(n: Node, files: map<Path, File>, next: nat)
    decreases n, 1
  {
    && (forall k :: k in n.leaves ==> SoundCert(n, k, files, next))
    && (forall k :: k in n.subs ==> SoundSub(n, k, files, next))
  }

  /** Sound, as far as the sub-CAs in `ks` and the certificates in `ls` go. */
  ghost predicate PartlySound(n: Node, files: map<Path, File>, next: nat, ks: set<string>, ls: set<string>) {
    && ks <= n.subs.Keys && ls <= n.leaves.Keys
    && (forall k :: k in ls ==> SoundCert(n, k, files, next))
    && (forall k :: k in ks ==> SoundSub(n, k, files, next))
  }

  /** No certificate the shape asks for can be read from the disk. */
  ghost predicate NothingFound(sh: Shape, files: map<Path, File>) {
    && (forall k :: k in sh.csrs ==> GetLeaf(files, sh.dir, sh.csrs[k]) == None)
    && (forall k :: k in sh.subs ==> GetSubCA(files, sh.subs[k].dir) == None && NothingFound(sh.subs[k], files))
  }

  /** Whatever the disk holds for the sub-CA was issued by `parent`; without its CA it holds nothing for its subtree. */
  ghost predicate SubConsistent(sh: Shape, parent: Tls, files: map<Path, File>, next: nat)
    decreases sh, 1
  {
    match GetSubCA(files, sh.dir)
    case None => NothingFound(sh, files)
    case Some(t) => SubIssued(t, sh.name, parent, next) && Consistent(sh, t, files, next)
  }

  /** Whatever the disk holds below a signer whose CA is `ca` chains to `ca`. */
  ghost predicate Consistent(sh: Shape, ca: Tls, files: map<Path, File>, next: nat)
    decreases sh, 0
  {
    && (forall k :: k in sh.csrs && GetLeaf(files, sh.dir, sh.csrs[k]).Some? ==>
          LeafIssued(GetLeaf(files, sh.dir, sh.csrs[k]).value, sh.csrs[k], ca, next))
    && (forall k :: k in sh.subs ==> SubConsistent(sh.subs[k], ca, files, next))
  }

  /** What Complete records: everything asked for, except peer certificates already on disk (SignPeerCertificate's
      early return). */
  ghost function Recorded(sh: Shape, files: map<Path, File>): Shape {
    Shape(sh.name, sh.dir, sh.days,
          map k | k in sh.subs :: Recorded(sh.subs[k], files),
          map k | k in sh.csrs && !(sh.csrs[k].Peer? && GetLeaf(files, sh.dir, sh.csrs[k]).Some?) :: sh.csrs[k],
          sh.bundles)
  }

  /** Everything the shape asks for below the signer can be read from the disk. */
  ghost predicate AllOnDisk(sh: Shape, files: map<Path, File>) {
    && (forall k :: k in sh.csrs ==> GetLeaf(files, sh.dir, sh.csrs[k]).Some?)
    && (forall k :: k in sh.subs ==> GetSubCA(files, sh.subs[k].dir).Some? && AllOnDisk(sh.subs[k], files))
  }

  /* ---- frames ---- */

  ghost predicate SameAt(f: map<Path, File>, g: map<Path, File>, p: Path) {
    (p in f <==> p in g) && (p in f ==> f[p] == g[p])
  }

  ghost predicate SameOn(f: map<Path, File>, g: map<Path, File>, sh: Shape) {
    forall p :: Within(sh, p) ==> SameAt(f, g, p)
  }

  /** The same except for the signer's own CA files. */
  ghost predicate SameBelow(f: map<Path, File>, g: map<Path, File>, sh: Shape) {
    forall p :: Within(sh, p) && !CaFile(sh.dir, p) ==> SameAt(f, g, p)
  }

  /** Only files in the subtree's directories and bundles registered in it differ. */
  ghost predicate Untouched(f: map<Path, File>, g: map<Path, File>, sh: Shape) {
    forall p :: !Within(sh, p) && p !in Bundles(sh) ==> SameAt(f, g, p)
  }

  ghost predicate AllReadable(files: map<Path, File>, ps: set<Path>) {
    forall p :: p in ps ==> Readable(files, p)
  }

  lemma SubWithin(sh: Shape, k: string)
    requires k in sh.subs
    ensures forall p :: Within(sh.subs[k], p) ==> Within(sh, p)
    ensures Bundles(sh.subs[k]) <= Bundles(sh)
  {
  }

  lemma SubLaidOut(sh: Shape, k: string)
    requires LaidOut(sh) && k in sh.subs
    ensures sh.subs[k].name == k && LaidOut(sh.subs[k])
  {
  }

  lemma SameBelowSubs(f: map<Path, File>, g: map<Path, File>, sh: Shape, k: string)
    requires LaidOut(sh) && SameBelow(f, g, sh) && k in sh.subs
    ensures SameOn(f, g, sh.subs[k])
  {
  }

  lemma SameOnBelow(f: map<Path, File>, g: map<Path, File>, sh: Shape)
    requires SameOn(f, g, sh)
    ensures SameBelow(f, g, sh)
  {
  }

  lemma CaFilesWithin(sh: Shape, p: Path)
    requires CaFile(sh.dir, p)
    ensures Within(sh, p)
  {
  }

  lemma SameCA(f: map<Path, File>, g: map<Path, File>, sh: Shape)
    requires SameOn(f, g, sh)
    ensures GetSubCA(f, sh.dir) == GetSubCA(g, sh.dir)
    ensures SameAt(f, g, CACertPath(sh.dir))
  {
    assert Within(sh, CABundlePath(sh.dir)) && Within(sh, CAKeyPath(sh.dir)) && Within(sh, CASerialsPath(sh.dir));
    assert Within(sh, CACertPath(sh.dir));
    assert SameAt(f, g, CABundlePath(sh.dir)) && SameAt(f, g, CAKeyPath(sh.dir)) && SameAt(f, g, CASerialsPath(sh.dir));
  }

  /** A certificate's files are not CA files. */
  lemma LeafNotCa(dir: Path, csr: Csr)
    ensures !CaFile(dir, LeafCertPath(dir, csr)) && !CaFile(dir, LeafKeyPath(dir, csr))
  {
  }

  lemma SameLeaf(f: map<Path, File>, g: map<Path, File>, sh: Shape, csr: Csr)
    requires SameBelow(f, g, sh)
    ensures GetLeaf(f, sh.dir, csr) == GetLeaf(g, sh.dir, csr)
  {
    LeafPathsInDir(sh.dir, csr);
    LeafNotCa(sh.dir, csr);
    assert Within(sh, LeafCertPath(sh.dir, csr)) && Within(sh, LeafKeyPath(sh.dir, csr));
    assert SameAt(f, g, LeafCertPath(sh.dir, csr)) && SameAt(f, g, LeafKeyPath(sh.dir, csr));
  }

  lemma {:induction false} NothingFoundFrame(sh: Shape, f: map<Path, File>, g: map<Path, File>)
    requires LaidOut(sh) && SameBelow(f, g, sh) && NothingFound(sh, f)
    ensures NothingFound(sh, g)
  {
    forall k | k in sh.csrs ensures GetLeaf(g, sh.dir, sh.csrs[k]) == None {
      SameLeaf(f, g, sh, sh.csrs[k]);
    }
    forall k | k in sh.subs ensures GetSubCA(g, sh.subs[k].dir) == None && NothingFound(sh.subs[k], g) {
      SameBelowSubs(f, g, sh, k);
      SameCA(f, g, sh.subs[k]);
      NothingFoundFrame(sh.subs[k], f, g);
    }
  }

  lemma {:induction false} ConsistentFrame(sh: Shape, ca: Tls, f: map<Path, File>, g: map<Path, File>, next: nat,
                                           next': nat)
    requires LaidOut(sh) && SameBelow(f, g, sh) && next <= next' && Consistent(sh, ca, f, next)
    ensures Consistent(sh, ca, g, next')
    decreases sh, 0
  {
    forall k | k in sh.csrs ensures GetLeaf(g, sh.dir, sh.csrs[k]) == GetLeaf(f, sh.dir, sh.csrs[k]) {
      SameLeaf(f, g, sh, sh.csrs[k]);
    }
    forall k | k in sh.subs ensures SubConsistent(sh.subs[k], ca, g, next') {
      SameBelowSubs(f, g, sh, k);
      SubConsistentFrame(sh.subs[k], ca, f, g, next, next');
    }
  }

  lemma {:induction false} SubConsistentFrame(sh: Shape, parent: Tls, f: map<Path, File>, g: map<Path, File>, next: nat,
                                              next': nat)
    requires LaidOut(sh) && SameOn(f, g, sh) && next <= next' && SubConsistent(sh, parent, f, next)
    ensures SubConsistent(sh, parent, g, next')
    decreases sh, 1
  {
    SameCA(f, g, sh);
    match GetSubCA(f, sh.dir)
    case None => NothingFoundFrame(sh, f, g);
    case Some(t) => ConsistentFrame(sh, t, f, g, next, next');
  }

  lemma {:induction false} NothingIsConsistent(sh: Shape, ca: Tls, files: map<Path, File>, next: nat)
    requires NothingFound(sh, files)
    ensures Consistent(sh, ca, files, next)
  {
  }

  lemma {:induction false} RecordedFrame(sh: Shape, f: map<Path, File>, g: map<Path, File>)
    requires LaidOut(sh) && SameBelow(f, g, sh)
    ensures Recorded(sh, f) == Recorded(sh, g)
  {
    hide LaidOut, Within, GetLeaf, SameBelow;
    forall k | k in sh.csrs ensures GetLeaf(g, sh.dir, sh.csrs[k]) == GetLeaf(f, sh.dir, sh.csrs[k]) {
      SameLeaf(f, g, sh, sh.csrs[k]);
    }
    forall k | k in sh.subs ensures Recorded(sh.subs[k], f) == Recorded(sh.subs[k], g) {
      SameBelowSubs(f, g, sh, k);
      SubLaidOut(sh, k);
      SameOnBelow(f, g, sh.subs[k]);
      RecordedFrame(sh.subs[k], f, g);
    }
    assert Recorded(sh, f).csrs == Recorded(sh, g).csrs;
    assert Recorded(sh, f).subs == Recorded(sh, g).subs;
  }

  lemma SameOnTwice(f: map<Path, File>, g: map<Path, File>, h: map<Path, File>, sh: Shape)
    requires SameOn(f, g, sh) && SameOn(g, h, sh)
    ensures SameOn(f, h, sh)
  {
    forall p | Within(sh, p) ensures SameAt(f, h, p) {
      assert SameAt(f, g, p) && SameAt(g, h, p);
    }
  }

  lemma {:induction false} AllOnDiskFrame(sh: Shape, f: map<Path, File>, g: map<Path, File>)
    requires LaidOut(sh) && SameBelow(f, g, sh) && AllOnDisk(sh, f)
    ensures AllOnDisk(sh, g)
  {
    forall k | k in sh.csrs ensures GetLeaf(g, sh.dir, sh.csrs[k]).Some? {
      SameLeaf(f, g, sh, sh.csrs[k]);
    }
    forall k | k in sh.subs ensures GetSubCA(g, sh.subs[k].dir).Some? && AllOnDisk(sh.subs[k], g) {
      SameBelowSubs(f, g, sh, k);
      SameCA(f, g, sh.subs[k]);
      AllOnDiskFrame(sh.subs[k], f, g);
    }
  }

  lemma {:induction false} RecordedNothing(sh: Shape, files: map<Path, File>)
    requires NothingFound(sh, files)
    ensures Recorded(sh, files) == sh
  {
    forall k | k in sh.subs ensures Recorded(sh.subs[k], files) == sh.subs[k] {
      RecordedNothing(sh.subs[k], files);
    }
    assert Recorded(sh, files).csrs == sh.csrs;
    assert Recorded(sh, files).subs == sh.subs;
  }

  /** Recording changes no directory and no bundle. */
  lemma {:induction false} RecordedWithin(sh: Shape, files: map<Path, File>, p: Path)
    ensures Within(Recorded(sh, files), p) <==> Within(sh, p)
  {
    forall k | k in sh.subs ensures Within(Recorded(sh.subs[k], files), p) <==> Within(sh.subs[k], p) {
      RecordedWithin(sh.subs[k], files, p);
    }
    var r := Recorded(sh, files);
    assert forall k :: k in r.subs ==> r.subs[k] == Recorded(sh.subs[k], files);
  }

  lemma RecordedName(sh: Shape, f: map<Path, File>)
    ensures Recorded(sh, f).name == sh.name && Recorded(sh, f).dir == sh.dir
  {
  }

  lemma {:induction false} RecordedBundles(sh: Shape, f: map<Path, File>)
    ensures Bundles(Recorded(sh, f)) == Bundles(sh)
  {
    var r := Recorded(sh, f);
    forall k | k in sh.subs ensures Bundles(r.subs[k]) == Bundles(sh.subs[k]) {
      RecordedBundles(sh.subs[k], f);
    }
  }

  lemma SoundCertFrame(n: Node, k: string, f: map<Path, File>, g: map<Path, File>, next: nat, next': nat)
    requires k in n.leaves && SoundCert(n, k, f, next) && next <= next'
    requires SameAt(f, g, LeafCertPath(n.dir, n.leaves[k].csr)) && SameAt(f, g, LeafKeyPath(n.dir, n.leaves[k].csr))
    ensures SoundCert(n, k, g, next')
  {
  }

  lemma {:induction false} SoundFrame(n: Node, f: map<Path, File>, g: map<Path, File>, next: nat, next': nat)
    requires SameOn(f, g, NodeShape(n)) && next <= next' && Sound(n, f, next)
    ensures Sound(n, g, next')
    decreases n, 1
  {
    var sh := NodeShape(n);
    forall k | k in n.leaves ensures SoundCert(n, k, g, next') {
      var csr := n.leaves[k].csr;
      LeafPathsInDir(n.dir, csr);
      assert Within(sh, LeafCertPath(n.dir, csr)) && Within(sh, LeafKeyPath(n.dir, csr));
      SoundCertFrame(n, k, f, g, next, next');
    }
    forall k | k in n.subs ensures SoundSub(n, k, g, next') {
      SubWithin(sh, k);
      SoundSubFrame(n, k, f, g, next, next');
    }
  }

  lemma {:induction false} SoundSubFrame(n: Node, k: string, f: map<Path, File>, g: map<Path, File>, next: nat,
                                         next': nat)
    requires k in n.subs && SoundSub(n, k, f, next) && next <= next'
    requires SameOn(f, g, NodeShape(n.subs[k]))
    ensures SoundSub(n, k, g, next')
    decreases n, 0
  {
    SameCA(f, g, NodeShape(n.subs[k]));
    SoundFrame(n.subs[k], f, g, next, next');
  }
}
