/** Requests a restart leaves unrecorded because their certificate is already on disk: they stay consistent with the
    tree through any renewals, so the disk a run leaves behind is one the next start can build on. */
module Leftovers {
  import opened Base
  import opened Pki
  import opened Tree
  import opened Layout
  import opened Completion
  import opened Rebuilding
  import opened Writes
  import opened Renewal
  import opened Regeneration
  import opened Chains
  import opened ChainSetup
  import opened Requests
  import opened Walk
  import opened Rotation

  ghost function ShapeAt(s: Shape, q: Path): Shape
    requires SignerIn(s, q)
    decreases |q|
  {
    if q == [] then s else ShapeAt(s.subs[q[0]], q[1..])
  }

  lemma {:induction false} CoversSigners(s: Shape, r: Shape, q: Path)
    requires Covers(s, r) && SignerIn(s, q)
    ensures SignerIn(r, q) && ShapeAt(s, q).dir == ShapeAt(r, q).dir
    decreases |q|
  {
    if q != [] {
      CoversSigners(s.subs[q[0]], r.subs[q[0]], q[1..]);
    }
  }

  /** The signer at `q` was asked for `u` and has not recorded it. */
  ghost predicate Leftover(s: Shape, r: Shape, q: Path, u: string) {
    SignerIn(s, q) && SignerIn(r, q) && u in ShapeAt(s, q).csrs && u !in ShapeAt(r, q).csrs
  }


  /** What the disk holds for the request was issued by its signer. */
  ghost predicate LeftoverOk(s: Shape, n: Node, q: Path, u: string, files: map<Path, File>, next: nat)
    requires SignerIn(s, q) && u in ShapeAt(s, q).csrs
  {
    && SubSigner(n, q).Some?
    && LeafConsistent(ShapeAt(s, q).csrs[u], ShapeAt(s, q).dir, SubSigner(n, q).value.ca, files, next)
  }

  ghost predicate LeftoversOk(s: Shape, n: Node, files: map<Path, File>, next: nat) {
    forall q, u :: Leftover(s, NodeShape(n), q, u) ==> LeftoverOk(s, n, q, u, files, next)
  }

  /* ---- a tree in order and its leftovers make a consistent disk ---- */

  lemma SubLeftovers(s: Shape, n: Node, k: string, files: map<Path, File>, next: nat)
    requires LeftoversOk(s, n, files, next) && k in s.subs && k in n.subs
    ensures LeftoversOk(s.subs[k], n.subs[k], files, next)
  {
    NodeSubShape(n, k);
    forall q, u | Leftover(s.subs[k], NodeShape(n.subs[k]), q, u)
      ensures LeftoverOk(s.subs[k], n.subs[k], q, u, files, next)
    {
      var l := [k] + q;
      assert l[1..] == q;
      assert Leftover(s, NodeShape(n), l, u);
      assert LeftoverOk(s, n, l, u, files, next);
    }
  }

  lemma {:induction false} LeftoversConsistent(s: Shape, n: Node, files: map<Path, File>, next: nat)
    requires Covers(s, NodeShape(n)) && Sound(n, files, next) && LeftoversOk(s, n, files, next)
    ensures Consistent(s, n.ca, files, next)
    decreases s
  {
    forall k | k in s.csrs && GetLeaf(files, s.dir, s.csrs[k]).Some?
      ensures LeafIssued(GetLeaf(files, s.dir, s.csrs[k]).value, s.csrs[k], n.ca, next)
    {
      if k in n.leaves {
        assert k in NodeShape(n).csrs && SoundCert(n, k, files, next);
      } else {
        assert Leftover(s, NodeShape(n), [], k);
        assert LeftoverOk(s, n, [], k, files, next);
      }
    }
    forall k | k in s.subs ensures SubConsistent(s.subs[k], n.ca, files, next) {
      NodeKeys(n);
      NodeSubShape(n, k);
      assert SoundSub(n, k, files, next);
      DirOf(n.subs[k]);
      SubLeftovers(s, n, k, files, next);
      LeftoversConsistent(s.subs[k], n.subs[k], files, next);
    }
  }

  /* ---- no signer writes the files of a leftover ---- */

  lemma SubNotWritten(s: Shape, r: Shape, j: string, p: Path)
    requires Covers(s, r) && j in s.subs && !Within(s.subs[j], p)
    ensures !Written(r.subs[j], p)
  {
    WrittenWithin(r.subs[j], p);
    CoversWithin(s.subs[j], r.subs[j], p);
  }

  lemma OwnLeftoverNotWritten(s: Shape, r: Shape, u: string, p: Path)
    requires LaidOut(s) && Covers(s, r) && u in s.csrs && u !in r.csrs && LeafDir(s.dir, u) <= p && !CaFile(s.dir, p)
    ensures !Written(r, p) && Within(s, p)
  {
    assert OwnPath(s, p);
    assert s.dir <= LeafDir(s.dir, u);
    forall j | j in s.subs ensures !Written(r.subs[j], p) {
      assert OwnApart(s, s.subs[j]);
      SubNotWritten(s, r, j, p);
    }
    forall k | k in r.csrs ensures !(LeafDir(r.dir, k) <= p) {
      if LeafDir(r.dir, k) <= p {
        LeafDirsApart(s.dir, k, u, p);
        assert false;
      }
    }
  }

  lemma {:induction false} LeftoverNotWritten(s: Shape, r: Shape, q: Path, u: string, p: Path)
    requires LaidOut(s) && Covers(s, r) && Leftover(s, r, q, u)
    requires LeafDir(ShapeAt(s, q).dir, u) <= p && !CaFile(ShapeAt(s, q).dir, p)
    ensures !Written(r, p) && Within(s, p)
    decreases |q|
  {
    if q == [] {
      OwnLeftoverNotWritten(s, r, u, p);
    } else {
      hide LaidOut, CaFile, LeafDir;
      var k := q[0];
      SubLaidOut(s, k);
      LeftoverNotWritten(s.subs[k], r.subs[k], q[1..], u, p);
      SubWithin(s, k);
      forall j | j in s.subs && j != k ensures !Written(r.subs[j], p) {
        LaidOutApart(s, k, j);
        SubNotWritten(s, r, j, p);
      }
      LaidOutApart(s, k, k);
      CoveredOwn(s, r, p);
    }
  }

  lemma CoveredOwn(s: Shape, r: Shape, p: Path)
    requires Covers(s, r)
    ensures OwnPath(r, p) ==> OwnPath(s, p)
  {
  }

  /** A leftover's certificate and key files are foreign to the tree and lie in its signer's directory. */
  lemma LeftoverForeign(s: Shape, n: Node, q: Path, u: string)
    requires LaidOut(s) && LaidOut(NodeShape(n)) && Covers(s, NodeShape(n)) && Leftover(s, NodeShape(n), q, u)
    ensures var t := ShapeAt(s, q);
            && Foreign(NodeShape(n), LeafCertPath(t.dir, t.csrs[u]))
            && Foreign(NodeShape(n), LeafKeyPath(t.dir, t.csrs[u]))
            && t.dir <= LeafCertPath(t.dir, t.csrs[u]) && t.dir <= LeafKeyPath(t.dir, t.csrs[u])
  {
    hide LaidOut, Written, Bundles, Within;
    var t := ShapeAt(s, q);
    CsrNameAt(s, q, u);
    LeafPathsInDir(t.dir, t.csrs[u]);
    LeafNotCa(t.dir, t.csrs[u]);
    LeftoverNotWritten(s, NodeShape(n), q, u, LeafCertPath(t.dir, t.csrs[u]));
    LeftoverNotWritten(s, NodeShape(n), q, u, LeafKeyPath(t.dir, t.csrs[u]));
    InsideNoBundle(s, NodeShape(n), LeafCertPath(t.dir, t.csrs[u]));
    InsideNoBundle(s, NodeShape(n), LeafKeyPath(t.dir, t.csrs[u]));
  }

  lemma {:induction false} CsrNameAt(s: Shape, q: Path, u: string)
    requires LaidOut(s) && SignerIn(s, q) && u in ShapeAt(s, q).csrs
    ensures ShapeAt(s, q).csrs[u].name == u
    decreases |q|
  {
    if q != [] {
      CsrNameAt(s.subs[q[0]], q[1..], u);
    }
  }

  lemma InsideNoBundle(s: Shape, r: Shape, p: Path)
    requires LaidOut(r) && Covers(s, r) && Within(s, p)
    ensures p !in Bundles(r)
  {
    CoversWithin(s, r, p);
  }

  /* ---- renewal ---- */

  lemma {:induction false} NestedAt(r: Shape, q: Path)
    requires Nested(r) && SignerIn(r, q)
    ensures r.dir <= ShapeAt(r, q).dir
    decreases |q|
  {
    if q != [] {
      NestedAt(r.subs[q[0]], q[1..]);
    }
  }

  /** The directories of signers at or below the path are among those a call removes. */
  lemma {:induction false} WipedBelow(n: Node, path: Path, q: Path, p: Path)
    requires SignerIn(NodeShape(n), q) && path <= q && ShapeAt(NodeShape(n), q).dir <= p
    requires (forall k :: k in n.subs ==> Nested(NodeShape(n.subs[k]))) && (path == [] ==> n.ca.chain == [])
    ensures Wiped(n, path, p)
    decreases |path|
  {
    DirOf(n);
    if q != [] {
      var k := q[0];
      NodeKeys(n);
      NodeSubShape(n, k);
      DirOf(n.subs[k]);
      NestedAt(NodeShape(n.subs[k]), q[1..]);
      if |path| > 1 {
        PrefixHead(path, q);
        forall j | j in n.subs[k].subs ensures Nested(NodeShape(n.subs[k].subs[j])) {
          NodeSubShape(n.subs[k], j);
          NodeKeys(n.subs[k]);
        }
        WipedBelow(n.subs[k], path[1..], q[1..], p);
      }
    }
  }

  lemma {:induction false} LaidOutKeyed(n: Node)
    requires LaidOut(NodeShape(n))
    ensures Keyed(n)
  {
    forall k | k in n.subs ensures n.subs[k].name == k && Keyed(n.subs[k]) {
      NodeSubShape(n, k);
      NodeKeys(n);
      DirOf(n.subs[k]);
      SubLaidOut(NodeShape(n), k);
      LaidOutKeyed(n.subs[k]);
    }
    forall k | k in n.leaves ensures n.leaves[k].csr.name == k {
      assert k in NodeShape(n).csrs;
    }
  }

  lemma {:induction false} SignerFound(n: Node, q: Path)
    requires SignerIn(NodeShape(n), q)
    ensures SubSigner(n, q).Some?
    decreases |q|
  {
    if q != [] {
      NodeKeys(n);
      NodeSubShape(n, q[0]);
      SignerFound(n.subs[q[0]], q[1..]);
    }
  }

  /** Where the certificates on the way to a signer are the same, so is the chain it presents. */
  lemma {:induction false} SameChain(n: Node, n': Node, q: Path, files: map<Path, File>, files': map<Path, File>,
                                     next: nat, next': nat)
    requires Sound(n, files, next) && Sound(n', files', next') && n.ca == n'.ca
    requires SubSigner(n, q).Some? && SubSigner(n', q).Some? && forall p :: p <= q ==> CertAt(n, p) == CertAt(n', p)
    ensures SubSigner(n, q).value.ca == SubSigner(n', q).value.ca
    decreases |q|
  {
    if q != [] {
      var k := q[0];
      assert SoundSub(n, k, files, next) && SoundSub(n', k, files', next');
      BelowSub(n, k, []);
      BelowSub(n', k, []);
      assert [k] <= q && CertAt(n, [k]) == CertAt(n', [k]) && [k] + [] == [k];
      assert n.subs[k].ca.cert == n'.subs[k].ca.cert;
      forall p | p <= q[1..] ensures CertAt(n.subs[k], p) == CertAt(n'.subs[k], p) {
        BelowSub(n, k, p);
        BelowSub(n', k, p);
        PrefixCons(k, p, q);
      }
      SameChain(n.subs[k], n'.subs[k], q[1..], files, files', next, next');
    }
  }

  lemma BelowSub(n: Node, k: string, p: Path)
    requires k in n.subs
    ensures CertAt(n, [k] + p) == CertAt(n.subs[k], p)
  {
    assert ([k] + p)[1..] == p;
  }

  lemma PrefixCons(k: string, p: Path, q: Path)
    requires q != [] && q[0] == k && p <= q[1..]
    ensures [k] + p <= q
  {
    assert q == [k] + q[1..];
  }

  lemma LeafNotAdded(f: map<Path, File>, g: map<Path, File>, dir: Path, csr: Csr, ca: Tls, next: nat, next': nat)
    requires LeafConsistent(csr, dir, ca, f, next) && next <= next'
    requires NotAdded(f, g, LeafCertPath(dir, csr)) && NotAdded(f, g, LeafKeyPath(dir, csr))
    ensures LeafConsistent(csr, dir, ca, g, next')
  {
  }

  /** A call on the tree of `root` leaves the chain of every signer it does not lead to. */
  lemma ChainKept(cs: Chains, root: string, path: Path, w: World, cs': Chains, w': World, q: Path)
    requires Intact(cs, w) && Intact(cs', w') && ChainsExact(cs, cs', path, w) && root in cs && root in cs'
    requires !(path <= [root] + q) && SubSigner(cs[root], q).Some? && SubSigner(cs'[root], q).Some?
    ensures SubSigner(cs[root], q).value.ca == SubSigner(cs'[root], q).value.ca
  {
    hide LaidOut, Nested, Sound, AllSeparate, Bundles, NodeShape;
    assert RootHealthy(cs, root, w) && RootHealthy(cs', root, w');
    forall p | p <= q ensures CertAt(cs[root], p) == CertAt(cs'[root], p) {
      var l := [root] + p;
      assert l <= [root] + q && !(path <= l) && l[1..] == p;
      assert ChainCertAt(cs', l) == ChainCertAt(cs, l);
    }
    assert [] <= q && CertAt(cs[root], []) == CertAt(cs'[root], []);
    SameChain(cs[root], cs'[root], q, w.files, w'.files, w.next, w'.next);
  }

  /** One leftover through one call: untouched with its issuer, or gone with its signer's directory. */
  lemma LeftoverThrough(cs: Chains, s: Shape, path: Path, ch: Choices, w: World, cs': Chains, w': World, q: Path,
                        u: string)
    requires Intact(cs, w) && ChainsPossible(cs, path, ch) && RegenerateChains(cs, path, ch, w) == COk(cs', w')
    requires path[0] in cs && LaidOut(s) && Covers(s, NodeShape(cs[path[0]]))
    requires Leftover(s, NodeShape(cs[path[0]]), q, u)
    requires LeftoverOk(s, cs[path[0]], q, u, w.files, w.next)
    ensures path[0] in cs' && LeftoverOk(s, cs'[path[0]], q, u, w'.files, w'.next)
  {
    hide NodeShape, LaidOut, Healthy, RootOnDisk, Possible, Regenerate, Foreign, Wiped, Keyed, LeafCertPath;
    hide LeafKeyPath, ChainDaysAt;
    hide SignerIn, CertAt, LeafConsistent, Intact, ChainsExact, RegenerateChains;
    var k := path[0];
    var n, t, l := cs[k], ShapeAt(s, q), [k] + q;
    RootParts(cs, k, w);
    RegenerateExact(cs, path, ch, w);
    LeftoverForeign(s, n, q, u);
    TreeRegenerated(cs, path, ch, w);
    RegenerateWrites(n, path[1..], ch, w, LeafCertPath(t.dir, t.csrs[u]));
    RegenerateWrites(n, path[1..], ch, w, LeafKeyPath(t.dir, t.csrs[u]));
    assert NodeShape(cs'[k]) == NodeShape(n);
    SignerFound(cs'[k], q);
    PrefixHead(path, l);
    assert l[1..] == q;
    if path <= l {
      CoversSigners(s, NodeShape(n), q);
      WipedBelow(n, path[1..], q, LeafCertPath(t.dir, t.csrs[u]));
      GoneLeaf(w'.files, t.dir, t.csrs[u], SubSigner(cs'[k], q).value.ca, w'.next);
    } else {
      ChainKept(cs, k, path, w, cs', w', q);
      LeafNotAdded(w.files, w'.files, t.dir, t.csrs[u], SubSigner(n, q).value.ca, w.next, w'.next);
    }
  }

  lemma RootParts(cs: Chains, k: string, w: World)
    requires Intact(cs, w) && k in cs
    ensures LaidOut(NodeShape(cs[k])) && (forall j :: j in cs[k].subs ==> Nested(NodeShape(cs[k].subs[j])))
    ensures Keyed(cs[k]) && cs[k].ca.chain == []
  {
    assert RootHealthy(cs, k, w);
    LaidOutKeyed(cs[k]);
  }

  lemma TreeRegenerated(cs: Chains, path: Path, ch: Choices, w: World)
    requires ChainsPossible(cs, path, ch) && RegenerateChains(cs, path, ch, w).COk?
    ensures path[0] in cs && Possible(cs[path[0]], path[1..], ch) && Regenerate(cs[path[0]], path[1..], ch, w).Ok?
    ensures Regenerate(cs[path[0]], path[1..], ch, w).w == RegenerateChains(cs, path, ch, w).w
  {
    hide Regenerate, Possible;
  }

  lemma HealthyLaidOut(n: Node, w: World)
    requires Healthy(n, w)
    ensures LaidOut(NodeShape(n)) && forall k :: k in n.subs ==> Nested(NodeShape(n.subs[k]))
  {
  }

  lemma RootChain(n: Node, w: World)
    requires RootOnDisk(n, w.files, w.next)
    ensures n.ca.chain == []
  {
  }

  lemma GoneLeaf(files: map<Path, File>, dir: Path, csr: Csr, ca: Tls, next: nat)
    requires LeafCertPath(dir, csr) !in files
    ensures GetLeaf(files, dir, csr) == None && LeafConsistent(csr, dir, ca, files, next)
  {
  }

  /* ---- what becomes of the certificate of any request ---- */

  /** A call leaves what the disk holds for a request alone unless it names the request or something above it. */
  lemma RequestUntouched(s: Shape, r: Shape, path: Path, q: Path, f: map<Path, File>, g: map<Path, File>)
    requires LaidOut(s) && LaidOut(r) && Covers(s, r) && Resolves(r, path) && OnlyTarget(f, g, r, path) && !(path <= q)
    ensures Held(s, q, f) == Held(s, q, g)
  {
    hide LaidOut, Covers, InTarget, Bundles, Within, Held, HeldBelow;
    forall p | FileOf(s, q, p) ensures SameAt(f, g, p) {
      FileOfWithin(s, q, p);
      InsideNoBundle(s, r, p);
      if InTarget(r, path, p) {
        TargetNames(s, r, path, q, p);
      }
    }
    HeldFrame(s, q, f, g);
  }

  /** A request that is not recorded is one for a certificate. */
  lemma {:induction false} UnrecordedIsLeftover(s: Shape, r: Shape, q: Path) returns (l: Path, u: string)
    requires LaidOut(s) && Covers(s, r) && Resolves(s, q) && !Resolves(r, q)
    ensures q == l + [u] && Leftover(s, r, l, u)
    ensures forall f :: Held(s, q, f) == GetLeaf(f, ShapeAt(s, l).dir, ShapeAt(s, l).csrs[u])
    decreases |q|
  {
    var k := q[0];
    CoversSub(s, r, k);
    if k in s.subs {
      hide Covers;
      SubLaidOut(s, k);
      l, u := UnrecordedIsLeftover(s.subs[k], r.subs[k], q[1..]);
      l := [k] + l;
      assert l[1..] + [u] == q[1..];
    } else {
      l, u := [], k;
    }
  }

  /** The state of a run over one tree that records part of `s`. */
  ghost predicate Recording(cs: Chains, s: Shape, root: string, w: World) {
    Intact(cs, w) && cs.Keys == {root} && LaidOut(s) && Covers(s, NodeShape(cs[root]))
  }

  /** One call: a request it does not lead to keeps what the disk holds for it; one it leads to that is not recorded
      loses it. */
  lemma HeldThrough(cs: Chains, s: Shape, root: string, c: Call, w: World, cs1: Chains, w1: World, q: Path)
    requires Recording(cs, s, root, w) && ChainsPossible(cs, c.path, c.choices) && Resolves(s, q)
    requires RegenerateChains(cs, c.path, c.choices, w.(now := c.now)) == COk(cs1, w1)
    ensures Recording(cs1, s, root, w1) && NodeShape(cs1[root]) == NodeShape(cs[root])
    ensures !(c.path <= [root] + q) ==> Held(s, q, w1.files) == Held(s, q, w.files)
    ensures c.path <= [root] + q && !Resolves(NodeShape(cs[root]), q) ==> Held(s, q, w1.files) == None
  {
    hide NodeShape, LaidOut, Healthy, RootOnDisk, RegenerateChains, ChainDaysAt, CertAt, Covers, Possible, Held;
    hide OnlyTarget, Resolves;
    var w0, n, path := w.(now := c.now), cs[root], c.path;
    IntactAnyTime(cs, w, c.now);
    assert RootHealthy(cs, root, w0);
    RegenerateExact(cs, path, c.choices, w0);
    assert path[0] == root;
    HealthyLaidOut(n, w0);
    CertAtResolves(n, path[1..]);
    PrefixHead(path, [root] + q);
    assert ([root] + q)[1..] == q;
    if !(path <= [root] + q) {
      RequestUntouched(s, NodeShape(n), path[1..], q, w.files, w1.files);
    } else if !Resolves(NodeShape(n), q) {
      UnrecordedGone(cs, s, root, c, w0, cs1, w1, q);
    }
  }

  lemma ShorterPrefix(path: Path, l: Path, u: string)
    requires path <= l + [u] && path != l + [u]
    ensures path <= l
  {
    var q := l + [u];
    assert path == q[..|path|];
    assert |path| < |q|;
    assert q[..|path|] == l[..|path|];
  }

  lemma UnrecordedGone(cs: Chains, s: Shape, root: string, c: Call, w: World, cs1: Chains, w1: World, q: Path)
    requires Recording(cs, s, root, w) && ChainsPossible(cs, c.path, c.choices) && c.path[0] == root
    requires RegenerateChains(cs, c.path, c.choices, w) == COk(cs1, w1) && Resolves(NodeShape(cs[root]), c.path[1..])
    requires c.path[1..] <= q && Resolves(s, q) && !Resolves(NodeShape(cs[root]), q)
    ensures Held(s, q, w1.files) == None
  {
    hide NodeShape, LaidOut, Healthy, RootOnDisk, Possible, Regenerate, Wiped, Keyed, CertAt, LeafConsistent, Covers;
    hide Held, Resolves, SignerIn;
    var n, path := cs[root], c.path[1..];
    assert RootHealthy(cs, root, w);
    HealthyLaidOut(n, w);
    LaidOutKeyed(n);
    RootChain(n, w);
    var l, u := UnrecordedIsLeftover(s, NodeShape(n), q);
    ShorterPrefix(path, l, u);
    var t := ShapeAt(s, l);
    LeftoverForeign(s, n, l, u);
    RegenerateWrites(n, path, c.choices, w, LeafCertPath(t.dir, t.csrs[u]));
    CoversSigners(s, NodeShape(n), l);
    WipedBelow(n, path, l, LeafCertPath(t.dir, t.csrs[u]));
    GoneLeaf(w1.files, t.dir, t.csrs[u], n.ca, 0);
  }

  /** One call keeps the certificate of a request that is not recorded if and only if the renewed path does not lead to
      or above its signer. */
  lemma LeftoverKeptIff(cs: Chains, s: Shape, root: string, c: Call, w: World, cs1: Chains, w1: World, q: Path)
    requires Recording(cs, s, root, w) && ChainsPossible(cs, c.path, c.choices)
    requires RegenerateChains(cs, c.path, c.choices, w.(now := c.now)) == COk(cs1, w1)
    requires Resolves(s, q) && !Resolves(NodeShape(cs[root]), q)
    ensures Held(s, q, w1.files) == if c.path <= [root] + q then None else Held(s, q, w.files)
  {
    hide Recording, RegenerateChains, ChainsPossible, Held, Resolves, NodeShape;
    HeldThrough(cs, s, root, c, w, cs1, w1, q);
  }

  /** Over a whole run: a request no call leads to keeps what the disk holds for it. */
  lemma {:induction false} RunKeepsHeld(cs: Chains, s: Shape, root: string, w: World, calls: seq<Call>, cs': Chains,
                                        w': World, q: Path)
    requires Recording(cs, s, root, w) && Run(cs, w, calls, cs', w') && Resolves(s, q) && !Covered([root] + q, calls)
    ensures Held(s, q, w'.files) == Held(s, q, w.files)
    decreases |calls|
  {
    if calls != [] {
      hide RegenerateChains, ChainsPossible, Recording, Held, Resolves, Run, Covered;
      var cs1, w1 := RunStep(cs, w, calls, cs', w');
      CoveredStep([root] + q, calls);
      HeldThrough(cs, s, root, calls[0], w, cs1, w1, q);
      RunKeepsHeld(cs1, s, root, w1, calls[1..], cs', w', q);
    }
  }

  /** Over a whole run the certificate of a request that is not recorded survives, unchanged, if and only if no renewed
      path leads to or above its signer.  Nothing issues it again before the next start. */
  lemma {:induction false} LeftoverFate(cs: Chains, s: Shape, root: string, w: World, calls: seq<Call>, cs': Chains,
                                        w': World, q: Path)
    requires Recording(cs, s, root, w) && Run(cs, w, calls, cs', w') && Resolves(s, q)
    requires !Resolves(NodeShape(cs[root]), q)
    ensures Held(s, q, w'.files) == if Covered([root] + q, calls) then None else Held(s, q, w.files)
    decreases |calls|
  {
    if calls != [] {
      hide RegenerateChains, ChainsPossible, Recording, Held, Resolves, Run, Covered, NodeShape;
      var cs1, w1 := RunStep(cs, w, calls, cs', w');
      CoveredStep([root] + q, calls);
      HeldThrough(cs, s, root, calls[0], w, cs1, w1, q);
      LeftoverFate(cs1, s, root, w1, calls[1..], cs', w', q);
    }
  }

  /** What the disk holds for the whole tree `s` is consistent with the live tree. */
  ghost predicate Tracked(s: Shape, cs: Chains, root: string, w: World) {
    cs.Keys == {root} && Covers(s, NodeShape(cs[root])) && LeftoversOk(s, cs[root], w.files, w.next)
  }

  lemma CallTracked(cs: Chains, s: Shape, root: string, path: Path, ch: Choices, w: World, cs': Chains, w': World)
    requires Intact(cs, w) && Tracked(s, cs, root, w) && LaidOut(s)
    requires ChainsPossible(cs, path, ch) && RegenerateChains(cs, path, ch, w) == COk(cs', w')
    ensures Tracked(s, cs', root, w')
  {
    hide Intact, NodeShape, LaidOut, LeftoverOk, Possible, Regenerate, ChainDaysAt, CertAt;
    RegenerateExact(cs, path, ch, w);
    assert path[0] == root;
    assert NodeShape(cs'[root]) == NodeShape(cs[root]);
    forall q, u | Leftover(s, NodeShape(cs'[root]), q, u) ensures LeftoverOk(s, cs'[root], q, u, w'.files, w'.next) {
      LeftoverThrough(cs, s, path, ch, w, cs', w', q, u);
    }
  }

  lemma {:induction false} RunTracked(cs: Chains, s: Shape, root: string, w: World, calls: seq<Call>, cs': Chains,
                                      w': World)
    requires Intact(cs, w) && Tracked(s, cs, root, w) && LaidOut(s) && Run(cs, w, calls, cs', w')
    ensures Tracked(s, cs', root, w')
    decreases |calls|
  {
    if calls != [] {
      hide Intact, LaidOut, RegenerateChains, ChainsPossible, LeftoversOk;
      var c, w0 := calls[0], w.(now := calls[0].now);
      var cs1, w1 := RunStep(cs, w, calls, cs', w');
      IntactAnyTime(cs, w, c.now);
      RegenerateExact(cs, c.path, c.choices, w0);
      assert Tracked(s, cs, root, w0) by { SameLeftovers(s, cs[root], w, w0); }
      CallTracked(cs, s, root, c.path, c.choices, w0, cs1, w1);
      RunTracked(cs1, s, root, w1, calls[1..], cs', w');
    }
  }

  lemma SameLeftovers(s: Shape, n: Node, w: World, w0: World)
    requires LeftoversOk(s, n, w.files, w.next) && w0.files == w.files && w0.next == w.next
    ensures LeftoversOk(s, n, w0.files, w0.next)
  {
  }
}
