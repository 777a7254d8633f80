/** What a tree asks for, request by request: the path of each signer and certificate, the files it is kept in and what
    the disk holds for it. */
module Requests {
  import opened Base
  import opened Pki
  import opened Tree
  import opened Layout
  import opened Completion
  import opened Renewal
  import opened Regeneration
  import opened ChainSetup

  /** `r` records part of what `s` asks for. */
  ghost predicate Covers(s: Shape, r: Shape) {
    && s.name == r.name && s.dir == r.dir && s.subs.Keys == r.subs.Keys
    && (forall k :: k in r.csrs ==> k in s.csrs && r.csrs[k] == s.csrs[k])
    && (forall k :: k in s.subs ==> Covers(s.subs[k], r.subs[k]))
  }

  lemma {:induction false} CoversWithin(s: Shape, r: Shape, p: Path)
    requires Covers(s, r)
    ensures Within(r, p) <==> Within(s, p)
  {
    forall k | k in s.subs ensures Within(r.subs[k], p) <==> Within(s.subs[k], p) {
      CoversWithin(s.subs[k], r.subs[k], p);
    }
  }

  lemma CoversSub(s: Shape, r: Shape, k: string)
    requires Covers(s, r)
    ensures k in s.subs <==> k in r.subs
    ensures k in s.subs ==> Covers(s.subs[k], r.subs[k])
  {
  }

  /* ---- what the disk holds ---- */

  function GetRoot(files: map<Path, File>, dir: Path): Option<Tls> {
    GetCA(files, CACertPath(dir), CAKeyPath(dir), CASerialsPath(dir))
  }

  /** What the disk holds for the request at `q`, below a root. */
  function HeldBelow(s: Shape, q: Path, files: map<Path, File>): Option<Tls>
    decreases |q|
  {
    if q == [] then GetSubCA(files, s.dir)
    else if q[0] in s.subs then HeldBelow(s.subs[q[0]], q[1..], files)
    else if |q| == 1 && q[0] in s.csrs then GetLeaf(files, s.dir, s.csrs[q[0]])
    else None
  }

  function Held(s: Shape, q: Path, files: map<Path, File>): Option<Tls> {
    if q == [] then GetRoot(files, s.dir) else HeldBelow(s, q, files)
  }

  /** The path leads to a request for a peer certificate. */
  predicate PeerAt(s: Shape, q: Path)
    decreases |q|
  {
    && q != []
    && (if q[0] in s.subs then PeerAt(s.subs[q[0]], q[1..]) else |q| == 1 && q[0] in s.csrs && s.csrs[q[0]].Peer?)
  }

  /** `p` is one of the files the request at `q` is kept in. */
  ghost predicate FileOf(s: Shape, q: Path, p: Path)
    decreases |q|
  {
    if q == [] then CaFile(s.dir, p)
    else if q[0] in s.subs then FileOf(s.subs[q[0]], q[1..], p)
    else |q| == 1 && q[0] in s.csrs && LeafDir(s.dir, q[0]) <= p
  }

  lemma {:induction false} FileOfWithin(s: Shape, q: Path, p: Path)
    requires FileOf(s, q, p)
    ensures Within(s, p)
    decreases |q|
  {
    if q == [] {
      CaFilesWithin(s, p);
    } else if q[0] in s.subs {
      FileOfWithin(s.subs[q[0]], q[1..], p);
    } else {
      assert s.dir <= LeafDir(s.dir, q[0]);
    }
  }

  /** A signer's own files and its certificates' are nobody else's. */
  lemma OwnFile(s: Shape, q: Path, p: Path, k: string)
    requires LaidOut(s) && FileOf(s, q, p) && (q == [] || q[0] !in s.subs) && k in s.subs
    ensures !Within(s.subs[k], p)
  {
    LaidOutApart(s, k, k);
    assert OwnPath(s, p);
  }

  /** Different sub-CAs keep their files apart. */
  lemma OtherFile(s: Shape, q: Path, p: Path, k: string)
    requires LaidOut(s) && FileOf(s, q, p) && q != [] && q[0] in s.subs && k in s.subs && k != q[0]
    ensures !Within(s.subs[k], p)
  {
    LaidOutApart(s, q[0], k);
    FileOfWithin(s.subs[q[0]], q[1..], p);
  }

  /** A call that changes a file of a request names the request or something above it. */
  lemma {:induction false} TargetNames(s: Shape, r: Shape, path: Path, q: Path, p: Path)
    requires LaidOut(s) && Covers(s, r) && Resolves(r, path) && FileOf(s, q, p) && p !in Bundles(r)
    requires InTarget(r, path, p)
    ensures path <= q
    decreases |path|
  {
    if path != [] {
      hide LaidOut, CaFile, Within, Bundles, Covers;
      var k := path[0];
      CoversSub(s, r, k);
      if k in r.subs {
        SubLaidOut(s, k);
        SubWithin(r, k);
        TargetWithin(r.subs[k], path[1..], p);
        CoversWithin(s.subs[k], r.subs[k], p);
        if q == [] || q[0] !in s.subs {
          OwnFile(s, q, p, k);
        } else if q[0] != k {
          OtherFile(s, q, p, k);
        } else {
          TargetNames(s.subs[k], r.subs[k], path[1..], q[1..], p);
          PrefixHead(path, q);
        }
      } else {
        UnderCertificate(s, r, k, q, p);
      }
    }
  }

  lemma CaNotUnder(dir: Path, k: string, p: Path)
    requires k !in CA_FILES && CaFile(dir, p)
    ensures !(LeafDir(dir, k) <= p)
  {
    assert p[|dir|] in CA_FILES && LeafDir(dir, k)[|dir|] == k;
  }

  lemma UnderCertificate(s: Shape, r: Shape, k: string, q: Path, p: Path)
    requires LaidOut(s) && Covers(s, r) && k in r.csrs && LeafDir(r.dir, k) <= p && FileOf(s, q, p)
    ensures q == [k]
  {
    assert k in s.csrs && s.dir == r.dir;
    if q == [] {
      CaNotUnder(s.dir, k, p);
    } else if q[0] in s.subs {
      LaidOutApart(s, q[0], q[0]);
      assert OwnPath(s, p);
      FileOfWithin(s.subs[q[0]], q[1..], p);
    } else {
      LeafDirsApart(s.dir, k, q[0], p);
    }
  }

  /** What is held for a request depends on its own files only. */
  lemma {:induction false} HeldFrame(s: Shape, q: Path, f: map<Path, File>, g: map<Path, File>)
    requires LaidOut(s) && forall p :: FileOf(s, q, p) ==> SameAt(f, g, p)
    ensures HeldBelow(s, q, f) == HeldBelow(s, q, g)
    ensures Held(s, q, f) == Held(s, q, g)
    decreases |q|
  {
    if q == [] {
      var d := s.dir;
      assert
          && FileOf(s, q, CACertPath(d)) && FileOf(s, q, CAKeyPath(d)) && FileOf(s, q, CABundlePath(d))
          && FileOf(s, q, CASerialsPath(d));
      assert
          && SameAt(f, g, CACertPath(d)) && SameAt(f, g, CAKeyPath(d)) && SameAt(f, g, CABundlePath(d))
          && SameAt(f, g, CASerialsPath(d));
    } else if q[0] in s.subs {
      SubLaidOut(s, q[0]);
      HeldFrame(s.subs[q[0]], q[1..], f, g);
    } else if |q| == 1 && q[0] in s.csrs {
      var csr := s.csrs[q[0]];
      CsrName(s, q[0]);
      LeafPathsInDir(s.dir, csr);
      assert FileOf(s, q, LeafCertPath(s.dir, csr)) && FileOf(s, q, LeafKeyPath(s.dir, csr));
      assert SameAt(f, g, LeafCertPath(s.dir, csr)) && SameAt(f, g, LeafKeyPath(s.dir, csr));
    }
  }

  /** A live tree in order holds in memory what the disk holds. */
  lemma {:induction false} SoundHeld(n: Node, q: Path, files: map<Path, File>, next: nat)
    requires Sound(n, files, next) && q != [] && CertAt(n, q).Some?
    ensures HeldBelow(NodeShape(n), q, files).Some?
    ensures HeldBelow(NodeShape(n), q, files).value.cert == CertAt(n, q).value
    decreases |q|
  {
    var k := q[0];
    NodeKeys(n);
    if k in n.subs {
      assert SoundSub(n, k, files, next);
      NodeSubShape(n, k);
      DirOf(n.subs[k]);
      if |q| > 1 {
        SoundHeld(n.subs[k], q[1..], files, next);
      }
    } else {
      assert SoundCert(n, k, files, next);
      assert NodeShape(n).csrs[k] == n.leaves[k].csr;
    }
  }

  /* ---- what a completed tree records ---- */

  /** A completed tree has every request but those for peer certificates already on disk. */
  lemma {:induction false} RecordedAt(s: Shape, f: map<Path, File>, at: Path, regs: set<Registration>, q: Path)
    requires LaidOut(s)
    ensures var r := WithBundles(Recorded(s, f), at, regs);
            && (Resolves(r, q) <==> Resolves(s, q) && !(PeerAt(s, q) && HeldBelow(s, q, f).Some?))
            && (Resolves(r, q) ==> DaysAt(r, q) == DaysAt(s, q) && forall g :: HeldBelow(r, q, g) == HeldBelow(s, q, g))
    decreases |q|
  {
    var r := WithBundles(Recorded(s, f), at, regs);
    if q != [] && q[0] in s.subs {
      var k := q[0];
      SubLaidOut(s, k);
      RecordedAt(s.subs[k], f, at + [k], regs, q[1..]);
      assert r.subs[k] == WithBundles(Recorded(s.subs[k], f), at + [k], regs);
    }
  }

  lemma {:induction false} CompletedCovers(s: Shape, f: map<Path, File>, at: Path, regs: set<Registration>)
    ensures Covers(s, WithBundles(Recorded(s, f), at, regs))
  {
    var r := WithBundles(Recorded(s, f), at, regs);
    forall k | k in s.subs ensures Covers(s.subs[k], r.subs[k]) {
      CompletedCovers(s.subs[k], f, at + [k], regs);
      assert r.subs[k] == WithBundles(Recorded(s.subs[k], f), at + [k], regs);
    }
  }
}
