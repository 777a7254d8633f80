/** Regenerate by path: it succeeds exactly on paths that resolve, renews exactly what lies at or below the path,
    and keeps every signer healthy. */
module Regeneration {
  import opened Base
  import opened Pki
  import opened Tree
  import opened Layout
  import opened Completion
  import opened Renewal

  /** The certificate a path leads to; a sub-CA hides a certificate of the same name. */
  function CertAt(n: Node, q: Path): Option<Cert>
    decreases |q|
  {
    if q == [] then Some(n.ca.cert)
    else if q[0] in n.subs then CertAt(n.subs[q[0]], q[1..])
    else if |q| == 1 && q[0] in n.leaves then Some(n.leaves[q[0]].tls.cert)
    else None
  }

  ghost predicate Resolves(sh: Shape, q: Path)
    decreases |q|
  {
    q == [] || (if q[0] in sh.subs then Resolves(sh.subs[q[0]], q[1..]) else |q| == 1 && q[0] in sh.csrs)
  }

  /** The validity, in days, the shape asks for at a path. */
  ghost function DaysAt(sh: Shape, q: Path): int
    decreases |q|
  {
    if q == [] then sh.days
    else if q[0] in sh.subs then DaysAt(sh.subs[q[0]], q[1..])
    else if q[0] in sh.csrs then CsrDays(sh.csrs[q[0]])
    else 0
  }

  /** The files a call with `path` may change: the subtree's region and registered bundles, or one certificate's
      directory. */
  ghost predicate InTarget(sh: Shape, path: Path, p: Path)
    decreases |path|
  {
    if path == [] then Within(sh, p) || p in Bundles(sh)
    else if path[0] in sh.subs then InTarget(sh.subs[path[0]], path[1..], p)
    else path[0] in sh.csrs && LeafDir(sh.dir, path[0]) <= p
  }

  lemma {:induction false} CertAtResolves(n: Node, q: Path)
    ensures CertAt(n, q).Some? <==> Resolves(NodeShape(n), q)
    decreases |q|
  {
    if q != [] && q[0] in n.subs {
      CertAtResolves(n.subs[q[0]], q[1..]);
    }
  }

  lemma {:induction false} FreshAt(n: Node, q: Path, lo: nat, now: int)
    requires Fresh(n, lo, now) && CertAt(n, q).Some?
    ensures Renewed(CertAt(n, q).value, lo, now, DaysAt(NodeShape(n), q))
    decreases |q|
  {
    if q != [] && q[0] in n.subs {
      FreshAt(n.subs[q[0]], q[1..], lo, now);
    }
  }

  lemma {:induction false} FreshBelowAt(n: Node, q: Path, lo: nat, now: int)
    requires FreshBelow(n, lo, now) && q != [] && CertAt(n, q).Some?
    ensures Renewed(CertAt(n, q).value, lo, now, DaysAt(NodeShape(n), q))
  {
    if q[0] in n.subs {
      FreshAt(n.subs[q[0]], q[1..], lo, now);
    }
  }

  lemma {:induction false} TargetWithin(sh: Shape, path: Path, p: Path)
    requires InTarget(sh, path, p)
    ensures Within(sh, p) || p in Bundles(sh)
    decreases |path|
  {
    if path != [] {
      if path[0] in sh.subs {
        TargetWithin(sh.subs[path[0]], path[1..], p);
        SubWithin(sh, path[0]);
      } else {
        assert sh.dir <= LeafDir(sh.dir, path[0]);
      }
    }
  }

  /** A signer's own CA files change only when the path names the signer. */
  lemma TargetNotCa(sh: Shape, path: Path, p: Path)
    requires LaidOut(sh) && path != [] && CaFile(sh.dir, p)
    ensures !InTarget(sh, path, p)
  {
    CaFilesWithin(sh, p);
    assert p[|sh.dir|] in CA_FILES && LeafDir(sh.dir, path[0])[|sh.dir|] == path[0];
    if path[0] in sh.subs {
      SubWithin(sh, path[0]);
      assert OwnApart(sh, sh.subs[path[0]]) && OwnPath(sh, p);
      if InTarget(sh, path, p) {
        TargetWithin(sh.subs[path[0]], path[1..], p);
      }
    }
  }

  ghost predicate OnlyTarget(f: map<Path, File>, g: map<Path, File>, sh: Shape, path: Path) {
    forall p :: !InTarget(sh, path, p) ==> SameAt(f, g, p)
  }

  /** At or below `path` everything was renewed at `w.now`; everything else is the same certificate as before. */
  ghost predicate Exact(n: Node, n': Node, path: Path, w: World) {
    && (forall q :: !(path <= q) ==> CertAt(n', q) == CertAt(n, q))
    && (forall q :: path <= q && CertAt(n', q).Some? ==>
          Renewed(CertAt(n', q).value, w.next, w.now, DaysAt(NodeShape(n), q)))
  }

  ghost predicate Regenerated(n: Node, n': Node, path: Path, w: World, w': World) {
    && n'.ca == n.ca && NodeShape(n') == NodeShape(n)
    && Healthy(n', w') && OnlyTarget(w.files, w'.files, NodeShape(n), path) && Later(w, w')
    && Exact(n, n', path, w)
  }

  lemma PrefixHead(path: Path, q: Path)
    requires path != [] && q != []
    ensures path <= q <==> path[0] == q[0] && path[1..] <= q[1..]
  {
  }

  /* ---- path of length one ---- */

  lemma ExactOneSub(n: Node, n': Node, k: string, w: World)
    requires k in n.subs && k in n'.subs && n' == n.(subs := n.subs[k := n'.subs[k]])
    requires NodeShape(n'.subs[k]) == NodeShape(n.subs[k]) && Fresh(n'.subs[k], w.next, w.now)
    ensures Exact(n, n', [k], w)
  {
    hide FreshBelow;
    forall q | [k] <= q && CertAt(n', q).Some?
      ensures Renewed(CertAt(n', q).value, w.next, w.now, DaysAt(NodeShape(n), q))
    {
      FreshAt(n'.subs[k], q[1..], w.next, w.now);
    }
    forall q | !([k] <= q) ensures CertAt(n', q) == CertAt(n, q) {
      if q != [] {
        PrefixHead([k], q);
      }
    }
  }

  lemma ExactOneCert(n: Node, n': Node, k: string, w: World)
    requires k in n.leaves && k !in n.subs && k in n'.leaves && n' == n.(leaves := n.leaves[k := n'.leaves[k]])
    requires n'.leaves[k].csr == n.leaves[k].csr && FreshCert(n'.leaves[k], w.next, w.now)
    ensures Exact(n, n', [k], w)
  {
  }

  lemma SoundIsPartly(n: Node, files: map<Path, File>, next: nat, ks: set<string>, ls: set<string>)
    requires Sound(n, files, next) && ks <= n.subs.Keys && ls <= n.leaves.Keys
    ensures PartlySound(n, files, next, ks, ls)
  {
  }

  lemma PartlyIsSound(n: Node, files: map<Path, File>, next: nat)
    requires PartlySound(n, files, next, n.subs.Keys, n.leaves.Keys)
    ensures Sound(n, files, next)
  {
  }

  lemma NestedSubs(n: Node, n': Node)
    requires NodeShape(n') == NodeShape(n) && forall k :: k in n.subs ==> Nested(NodeShape(n.subs[k]))
    ensures forall k :: k in n'.subs ==> Nested(NodeShape(n'.subs[k]))
  {
    hide Nested;
    forall k | k in n'.subs ensures Nested(NodeShape(n'.subs[k])) {
      assert k in NodeShape(n).subs;
      NodeSubShape(n, k);
      NodeSubShape(n', k);
    }
  }

  lemma RegenerateSub(n: Node, k: string, ch: Choices, w: World) returns (n': Node, w': World)
    requires Healthy(n, w) && k in n.subs && Possible(n, [k], ch)
    ensures Regenerate(n, [k], ch, w) == Ok(n', w')
    ensures Regenerated(n, n', [k], w, w')
  {
    hide LaidOut, Bundles, NodeShape, Sound, FreshBelow, Rebuilds, Under, Nested, Exact, PartlySound;
    NestedNode(n.subs[k]);
    SoundIsPartly(n, w.files, w.next, n.subs.Keys - {k}, n.leaves.Keys);
    n', w' := RenewSubCASound(n, k, ch.builders[0], w, n.subs.Keys - {k}, n.leaves.Keys);
    assert n.subs.Keys - {k} + {k} == n'.subs.Keys;
    PartlyIsSound(n', w'.files, w'.next);
    ExactOneSub(n, n', k, w);
    NestedSubs(n, n');
    NodeSubShape(n, k);
    UntouchedTarget(w.files, w'.files, NodeShape(n), k);
  }

  lemma UntouchedTarget(f: map<Path, File>, g: map<Path, File>, sh: Shape, k: string)
    requires k in sh.subs && Untouched(f, g, sh.subs[k])
    ensures OnlyTarget(f, g, sh, [k])
  {
  }

  lemma RegenerateCert(n: Node, k: string, ch: Choices, w: World) returns (n': Node, w': World)
    requires Healthy(n, w) && k in n.leaves && k !in n.subs
    ensures Possible(n, [k], ch) && Regenerate(n, [k], ch, w) == Ok(n', w')
    ensures Regenerated(n, n', [k], w, w')
  {
    hide LaidOut, Bundles, Sound, Nested, Exact, PartlySound;
    SoundIsPartly(n, w.files, w.next, n.subs.Keys, n.leaves.Keys - {k});
    n', w' := RenewCertificateSound(n, k, w, n.subs.Keys, n.leaves.Keys - {k});
    assert n.leaves.Keys - {k} + {k} == n'.leaves.Keys;
    PartlyIsSound(n', w'.files, w'.next);
    ExactOneCert(n, n', k, w);
    NestedSubs(n, n');
    assert OnlyTarget(w.files, w'.files, NodeShape(n), [k]);
  }

  /* ---- longer paths ---- */

  lemma HealthySub(n: Node, k: string, w: World)
    requires Healthy(n, w) && k in n.subs
    ensures Healthy(n.subs[k], w)
  {
    var sh := NodeShape(n);
    NodeSubShape(n, k);
    SubWithin(sh, k);
    assert SoundSub(n, k, w.files, w.next);
    var c := n.subs[k];
    forall j | j in c.subs ensures Nested(NodeShape(c.subs[j])) {
      NodeSubShape(c, j);
      assert Nested(NodeShape(c));
    }
  }

  lemma ExactUp(n: Node, c: Node, path: Path, w: World)
    requires |path| >= 2 && path[0] in n.subs && NodeShape(c) == NodeShape(n.subs[path[0]])
    requires Exact(n.subs[path[0]], c, path[1..], w)
    ensures Exact(n, n.(subs := n.subs[path[0] := c]), path, w)
  {
    var k, n' := path[0], n.(subs := n.subs[path[0] := c]);
    forall q | path <= q && CertAt(n', q).Some?
      ensures Renewed(CertAt(n', q).value, w.next, w.now, DaysAt(NodeShape(n), q))
    {
      PrefixHead(path, q);
      NodeSubShape(n, k);
    }
    forall q | !(path <= q) ensures CertAt(n', q) == CertAt(n, q) {
      if q != [] && q[0] == k {
        PrefixHead(path, q);
      }
    }
  }

  lemma TargetUp(f: map<Path, File>, g: map<Path, File>, sh: Shape, path: Path)
    requires LaidOut(sh) && |path| >= 2 && path[0] in sh.subs && OnlyTarget(f, g, sh.subs[path[0]], path[1..])
    ensures OnlyTarget(f, g, sh, path) && Untouched(f, g, sh.subs[path[0]])
    ensures forall p :: CaFile(sh.subs[path[0]].dir, p) ==> SameAt(f, g, p)
  {
    var c := sh.subs[path[0]];
    forall p | !Within(c, p) && p !in Bundles(c) ensures SameAt(f, g, p) {
      if InTarget(c, path[1..], p) {
        TargetWithin(c, path[1..], p);
      }
    }
    forall p | CaFile(c.dir, p) ensures SameAt(f, g, p) {
      TargetNotCa(c, path[1..], p);
    }
  }

  lemma SoundUp(n: Node, k: string, c: Node, w: World, w': World)
    requires Healthy(n, w) && k in n.subs && c.ca == n.subs[k].ca && NodeShape(c) == NodeShape(n.subs[k])
    requires Healthy(c, w') && Later(w, w')
    requires Untouched(w.files, w'.files, NodeShape(n).subs[k])
    requires forall p :: CaFile(n.subs[k].dir, p) ==> SameAt(w.files, w'.files, p)
    ensures Healthy(n.(subs := n.subs[k := c]), w')
  {
    hide LaidOut, Bundles, Nested;
    var sh, n' := NodeShape(n), n.(subs := n.subs[k := c]);
    var ks := n.subs.Keys - {k};
    NodeSubShape(n, k);
    SelfFits(n, ks, n.leaves.Keys);
    SoundIsPartly(n, w.files, w.next, ks, n.leaves.Keys);
    PartlySoundFrame(n, sh, k, w.files, w'.files, w.next, w'.next, ks, n.leaves.Keys);
    assert SoundSub(n', k, w'.files, w'.next) by {
      assert SoundSub(n, k, w.files, w.next);
      DirOf(c);
      DirOf(n.subs[k]);
      SubSound(n', k, c.ca, c, sh.subs[k], w, w');
    }
    PartlySoundAdd(n, k, c, w'.files, w'.next, ks, n.leaves.Keys);
    assert ks + {k} == n'.subs.Keys;
    PartlyIsSound(n', w'.files, w'.next);
    ShapeKeptBySub(n, k, c);
    NestedSubs(n, n');
    ReadableAfterSub(sh, k, w.files, w'.files);
  }

  /** Regenerate with a path into a healthy signer. */
  lemma {:induction false} RegenerateSound(n: Node, path: Path, ch: Choices, w: World) returns (n': Node, w': World)
    requires Healthy(n, w) && path != [] && Possible(n, path, ch) && CertAt(n, path).Some?
    ensures Regenerate(n, path, ch, w) == Ok(n', w')
    ensures Regenerated(n, n', path, w, w')
    decreases |path|
  {
    if |path| == 1 {
      assert path == [path[0]];
      if path[0] in n.subs {
        n', w' := RegenerateSub(n, path[0], ch, w);
      } else {
        n', w' := RegenerateCert(n, path[0], ch, w);
      }
    } else {
      hide Healthy, NodeShape, OnlyTarget, Exact, Untouched;
      var k := path[0];
      HealthySub(n, k, w);
      var c, w1 := RegenerateSound(n.subs[k], path[1..], ch, w);
      n', w' := n.(subs := n.subs[k := c]), w1;
      NodeSubShape(n, k);
      LaidOutHealthy(n, w);
      TargetUp(w.files, w'.files, NodeShape(n), path);
      SoundUp(n, k, c, w, w');
      ExactUp(n, c, path, w);
      ShapeKeptBySub(n, k, c);
    }
  }

  lemma LaidOutHealthy(n: Node, w: World)
    requires Healthy(n, w)
    ensures LaidOut(NodeShape(n)) && (forall k :: k in n.subs ==> NodeShape(n).subs[k].dir == n.subs[k].dir)
  {
  }

  /** Regenerate fails on a path that leads nowhere, whatever the state. */
  lemma {:induction false} RegenerateFails(n: Node, path: Path, ch: Choices, w: World)
    requires Possible(n, path, ch) && CertAt(n, path) == None
    ensures Regenerate(n, path, ch, w).Err?
    decreases |path|
  {
    if |path| >= 2 && path[0] in n.subs {
      RegenerateFails(n.subs[path[0]], path[1..], ch, w);
    }
  }
}
