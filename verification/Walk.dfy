/** WalkChains: the path-resolving recursion against a structural traversal of the trees. */
module Walk {
  import opened Base
  import opened Pki
  import opened Tree
  import opened Regeneration
  import opened Chains

  /** One call of the walk function. */
  datatype Visit = Visit(path: Path, cert: Cert)

  /* ---- WalkChains as written: every step resolves its path from the top ---- */

  function SubSigner(n: Node, q: Path): Option<Node>
    decreases |q|
  {
    if q == [] then Some(n) else if q[0] in n.subs then SubSigner(n.subs[q[0]], q[1..]) else None
  }

  /** CertificateChains.GetSigner. */
  function SignerAt(cs: Chains, path: Path): Option<Node> {
    if path == [] || path[0] !in cs then None else SubSigner(cs[path[0]], path[1..])
  }

  /** CertificateChains.GetCertKey, as far as finding the entry goes. */
  function LeafAt(cs: Chains, path: Path): Option<Leaf> {
    if |path| < 2 then None else
      match SignerAt(cs, path[..|path| - 1])
      case None => None
      case Some(n) => if path[|path| - 1] in n.leaves then Some(n.leaves[path[|path| - 1]]) else None
  }

  ghost function Rank(cs: Chains, path: Path): (nat, Node) {
    var nobody := Node("", Tls(Cert(0, 0, CN(""), CN(""), {}, 0, 0), []), [], 0, map[], map[], {});
    if path == [] then (2, nobody)
    else if SignerAt(cs, path).Some? then (1, SignerAt(cs, path).value)
    else (0, nobody)
  }

  lemma {:induction false} SubSignerSnoc(n: Node, q: Path, k: string)
    ensures SubSigner(n, q + [k]) ==
            if SubSigner(n, q).Some? && k in SubSigner(n, q).value.subs then
            Some(SubSigner(n, q).value.subs[k]) else None
    decreases |q|
  {
    if q == [] {
      assert ([] + [k])[1..] == [];
    } else if q[0] in n.subs {
      assert (q + [k])[1..] == q[1..] + [k];
      SubSignerSnoc(n.subs[q[0]], q[1..], k);
    }
  }

  lemma SignerAtSnoc(cs: Chains, path: Path, k: string)
    requires path != []
    ensures SignerAt(cs, path + [k]) ==
            if SignerAt(cs, path).Some? && k in SignerAt(cs, path).value.subs then
            Some(SignerAt(cs, path).value.subs[k]) else None
  {
    assert (path + [k])[1..] == path[1..] + [k];
    if path[0] in cs {
      SubSignerSnoc(cs[path[0]], path[1..], k);
    }
  }

  /** The names below a signer in the order WalkChains goes through them. */
  ghost function NextNames(n: Node): seq<string> {
    Sorted(n.subs.Keys) + Sorted(n.leaves.Keys)
  }

  /** The loop over `names` starts at the top or at a signer. */
  ghost predicate Walkable(cs: Chains, path: Path, names: seq<string>) {
    if path == [] then forall k :: k in names ==> k in cs else SignerAt(cs, path).Some?
  }

  /** WalkChains from a path: the calls it makes, or None when it fails. */
  ghost function WalkChains(cs: Chains, path: Path): Option<seq<Visit>>
    decreases Rank(cs, path).0, Rank(cs, path).1, 1
  {
    if path == [] then WalkEach(cs, [], Sorted(cs.Keys))
    else if SignerAt(cs, path).Some? then
      var n := SignerAt(cs, path).value;
      match WalkEach(cs, path, NextNames(n))
      case None => None
      case Some(vs) => Some([Visit(path, n.ca.cert)] + vs)
    else if LeafAt(cs, path).Some? then Some([Visit(path, LeafAt(cs, path).value.tls.cert)])
    else None
  }

  /** The loop over the next names. */
  ghost function WalkEach(cs: Chains, path: Path, names: seq<string>): Option<seq<Visit>>
    requires Walkable(cs, path, names)
    decreases Rank(cs, path).0, Rank(cs, path).1, 0, |names|
  {
    if names == [] then Some([]) else
      SignerAtHead(cs, path, names[0]);
      match WalkChains(cs, path + [names[0]])
      case None => None
      case Some(vs) =>
        match WalkEach(cs, path, names[1..])
        case None => None
        case Some(us) => Some(vs + us)
  }

  lemma SignerAtHead(cs: Chains, path: Path, k: string)
    requires path == [] ==> k in cs
    requires path != [] ==> SignerAt(cs, path).Some?
    ensures path == [] ==> SignerAt(cs, path + [k]) == Some(cs[k])
    ensures path != [] ==>
              (SignerAt(cs, path + [k]) ==
               if k in SignerAt(cs, path).value.subs then Some(SignerAt(cs, path).value.subs[k]) else None)
  {
    if path == [] {
      assert [] + [k] == [k] && [k][1..] == [];
    } else {
      SignerAtSnoc(cs, path, k);
    }
  }

  lemma WalkFrom(cs: Chains, path: Path)
    ensures path == [] ==>
              Walkable(cs, path, Sorted(cs.Keys)) && WalkChains(cs, path) == WalkEach(cs, path, Sorted(cs.Keys))
    ensures path != [] && SignerAt(cs, path).Some? ==>
              var n := SignerAt(cs, path).value;
              && Walkable(cs, path, NextNames(n))
              && WalkChains(cs, path) == match WalkEach(cs, path, NextNames(n))
                                         case None => None
                                         case Some(vs) => Some([Visit(path, n.ca.cert)] + vs)
    ensures path != [] && SignerAt(cs, path) == None ==>
              WalkChains(cs, path) == match LeafAt(cs, path) case None => None case Some(l) =>
              Some([Visit(path, l.tls.cert)])
  {
  }

  lemma WalkEachStep(cs: Chains, path: Path, names: seq<string>)
    requires Walkable(cs, path, names) && names != [] && WalkEach(cs, path, names).Some?
    ensures WalkChains(cs, path + [names[0]]).Some? && Walkable(cs, path, names[1..])
    ensures WalkEach(cs, path, names[1..]).Some?
    ensures WalkEach(cs, path, names).value ==
              WalkChains(cs, path + [names[0]]).value + WalkEach(cs, path, names[1..]).value
  {
    hide WalkChains, SignerAt;
  }

  /* ---- a walk function that may fail ---- */

  /** The calls made: those up to and including the first that fails. */
  function Made(vs: seq<Visit>, fn: Visit -> Option<Error>): seq<Visit> {
    if vs == [] then [] else [vs[0]] + (if fn(vs[0]).Some? then [] else Made(vs[1..], fn))
  }

  /** What the walk returns: the error of the last call made, if it failed. */
  function Failure(vs: seq<Visit>, fn: Visit -> Option<Error>): Option<Error> {
    if vs == [] then None else if fn(vs[0]).Some? then fn(vs[0]) else Failure(vs[1..], fn)
  }

  lemma NoneMade(fn: Visit -> Option<Error>)
    ensures Made([], fn) == [] && Failure([], fn) == None
  {
  }

  lemma FirstMade(vs: seq<Visit>, fn: Visit -> Option<Error>)
    requires vs != []
    ensures Made(vs, fn) == if fn(vs[0]).Some? then [vs[0]] else [vs[0]] + Made(vs[1..], fn)
    ensures Failure(vs, fn) == if fn(vs[0]).Some? then fn(vs[0]) else Failure(vs[1..], fn)
  {
  }

  lemma OneMade(v: Visit, fn: Visit -> Option<Error>)
    ensures Made([v], fn) == [v] && Failure([v], fn) == fn(v)
  {
  }

  lemma {:induction false} MadeConcat(us: seq<Visit>, vs: seq<Visit>, fn: Visit -> Option<Error>)
    ensures Failure(us, fn).Some? ==> Made(us + vs, fn) == Made(us, fn) && Failure(us + vs, fn) == Failure(us, fn)
    ensures Failure(us, fn) == None ==>
              Made(us + vs, fn) == Made(us, fn) + Made(vs, fn) && Failure(us + vs, fn) == Failure(vs, fn)
    decreases |us|
  {
    hide Made, Failure;
    if us == [] {
      NoneMade(fn);
      assert us + vs == vs && [] + Made(vs, fn) == Made(vs, fn);
    } else {
      assert (us + vs)[1..] == us[1..] + vs;
      FirstMade(us, fn);
      FirstMade(us + vs, fn);
      MadeConcat(us[1..], vs, fn);
      Regroup(us[0], Made(us[1..], fn), Made(vs, fn));
    }
  }

  lemma Regroup(v: Visit, us: seq<Visit>, vs: seq<Visit>)
    ensures [v] + (us + vs) == [v] + us + vs
  {
  }

  /** The calls of the loop over `names`, after those in `visits`. */
  ghost function MadeEach(cs: Chains, path: Path, names: seq<string>, fn: Visit -> Option<Error>,
                          visits: seq<Visit>): (seq<Visit>, Option<Error>)
    requires Walkable(cs, path, names) && WalkEach(cs, path, names).Some?
  {
    var vs := WalkEach(cs, path, names).value;
    (visits + Made(vs, fn), Failure(vs, fn))
  }

  lemma MadeEachWhole(cs: Chains, path: Path, names: seq<string>, fn: Visit -> Option<Error>)
    requires Walkable(cs, path, names) && WalkEach(cs, path, names).Some?
    ensures var vs := WalkEach(cs, path, names).value;
              MadeEach(cs, path, names, fn, []) == (Made(vs, fn), Failure(vs, fn))
  {
    hide WalkEach, Walkable, Made, Failure;
    assert [] + Made(WalkEach(cs, path, names).value, fn) == Made(WalkEach(cs, path, names).value, fn);
  }

  lemma MadeEachDone(cs: Chains, path: Path, fn: Visit -> Option<Error>, visits: seq<Visit>)
    requires Walkable(cs, path, [])
    ensures WalkEach(cs, path, []).Some? && MadeEach(cs, path, [], fn, visits) == (visits, None)
  {
    assert visits + [] == visits;
  }

  lemma MadeEachStep(cs: Chains, path: Path, names: seq<string>, fn: Visit -> Option<Error>, visits: seq<Visit>)
    requires Walkable(cs, path, names) && names != [] && WalkEach(cs, path, names).Some?
    ensures WalkChains(cs, path + [names[0]]).Some? && Walkable(cs, path, names[1..])
    ensures WalkEach(cs, path, names[1..]).Some?
    ensures var next := WalkChains(cs, path + [names[0]]).value;
            MadeEach(cs, path, names, fn, visits) ==
            if Failure(next, fn).Some? then (visits + Made(next, fn), Failure(next, fn))
            else MadeEach(cs, path, names[1..], fn, visits + Made(next, fn))
  {
    hide WalkChains, WalkEach, SignerAt, Walkable, Made, Failure;
    WalkEachStep(cs, path, names);
    var next, rest := WalkChains(cs, path + [names[0]]).value, WalkEach(cs, path, names[1..]).value;
    MadeConcat(next, rest, fn);
    assert visits + (Made(next, fn) + Made(rest, fn)) == visits + Made(next, fn) + Made(rest, fn);
  }

  /** The calls made are the first ones of the walk: all of them when none fails, and otherwise up to the first
      failure. */
  lemma {:induction false} MadeMeans(vs: seq<Visit>, fn: Visit -> Option<Error>)
    ensures |Made(vs, fn)| <= |vs| && Made(vs, fn) == vs[..|Made(vs, fn)|]
    ensures forall i :: 0 <= i < |Made(vs, fn)| - 1 ==> fn(vs[i]) == None
    ensures Failure(vs, fn) == None <==> forall v :: v in vs ==> fn(v) == None
    ensures Failure(vs, fn) == None ==> Made(vs, fn) == vs
    ensures Failure(vs, fn).Some? ==> Made(vs, fn) != [] && fn(Made(vs, fn)[|Made(vs, fn)| - 1]) == Failure(vs, fn)
    decreases |vs|
  {
    hide Made, Failure;
    if vs == [] {
      NoneMade(fn);
    } else {
      var v, rest := vs[0], vs[1..];
      assert vs == [v] + rest;
      FirstMade(vs, fn);
      MadeMeans(rest, fn);
      if fn(v) == None {
        assert vs[..1 + |Made(rest, fn)|] == [v] + rest[..|Made(rest, fn)|];
        forall i | 0 <= i < |Made(vs, fn)| - 1 ensures fn(vs[i]) == None {
          assert i > 0 ==> vs[i] == rest[i - 1];
        }
      } else {
        assert vs[..1] == [v];
      }
    }
  }

  /* ---- the structural traversal ---- */

  /** Pre-order: the signer, its sub-CAs in name order, then its certificates in name order.  A certificate whose name a
      sub-CA also bears leads to the sub-CA again. */
  ghost function Traverse(n: Node, path: Path): seq<Visit>
    decreases n, 1
  {
    [Visit(path, n.ca.cert)] + TraverseNames(n, path, NextNames(n))
  }

  ghost function TraverseNames(n: Node, path: Path, names: seq<string>): seq<Visit>
    requires forall k :: k in names ==> k in n.subs || k in n.leaves
    decreases n, 0, |names|
  {
    if names == [] then [] else TraverseName(n, path, names[0]) + TraverseNames(n, path, names[1..])
  }

  ghost function TraverseName(n: Node, path: Path, k: string): seq<Visit>
    requires k in n.subs || k in n.leaves
    decreases n, 0, 0
  {
    if k in n.subs then Traverse(n.subs[k], path + [k]) else [Visit(path + [k], n.leaves[k].tls.cert)]
  }

  ghost function TraverseTops(cs: Chains, names: seq<string>): seq<Visit>
    requires forall k :: k in names ==> k in cs
  {
    if names == [] then [] else Traverse(cs[names[0]], [names[0]]) + TraverseTops(cs, names[1..])
  }

  ghost function AllVisits(cs: Chains): seq<Visit> {
    TraverseTops(cs, Sorted(cs.Keys))
  }

  lemma LeafAtSnoc(cs: Chains, path: Path, k: string, n: Node)
    requires SignerAt(cs, path) == Some(n)
    ensures LeafAt(cs, path + [k]) == if k in n.leaves then Some(n.leaves[k]) else None
  {
  }

  /** From a signer's path the walk is the traversal of that signer's subtree. */
  lemma {:induction false} WalkSubtree(cs: Chains, path: Path, n: Node)
    requires SignerAt(cs, path) == Some(n)
    ensures WalkChains(cs, path) == Some(Traverse(n, path))
    decreases n, 1
  {
    WalkSubtreeNames(cs, path, n, NextNames(n));
  }

  lemma {:induction false} WalkSubtreeNames(cs: Chains, path: Path, n: Node, names: seq<string>)
    requires SignerAt(cs, path) == Some(n) && forall k :: k in names ==> k in n.subs || k in n.leaves
    ensures WalkEach(cs, path, names) == Some(TraverseNames(n, path, names))
    decreases n, 0, |names|
  {
    if names != [] {
      var k := names[0];
      SignerAtSnoc(cs, path, k);
      LeafAtSnoc(cs, path, k, n);
      if k in n.subs {
        WalkSubtree(cs, path + [k], n.subs[k]);
      }
      WalkSubtreeNames(cs, path, n, names[1..]);
    }
  }

  lemma {:induction false} WalkTops(cs: Chains, names: seq<string>)
    requires forall k :: k in names ==> k in cs
    ensures WalkEach(cs, [], names) == Some(TraverseTops(cs, names))
    decreases |names|
  {
    if names != [] {
      assert [] + [names[0]] == [names[0]] && [names[0]][1..] == [];
      WalkSubtree(cs, [names[0]], cs[names[0]]);
      WalkTops(cs, names[1..]);
    }
  }

  /** WalkChains equals structural traversal, from every path: the whole forest from the empty path, the subtree from a
      signer's path, the one certificate from a certificate's path, and an error from any other path. */
  lemma WalkIsTraversal(cs: Chains, path: Path)
    ensures path == [] ==> WalkChains(cs, path) == Some(AllVisits(cs))
    ensures SignerAt(cs, path).Some? ==> WalkChains(cs, path) == Some(Traverse(SignerAt(cs, path).value, path))
    ensures path != [] && SignerAt(cs, path) == None && LeafAt(cs, path).Some? ==>
              WalkChains(cs, path) == Some([Visit(path, LeafAt(cs, path).value.tls.cert)])
    ensures path != [] && SignerAt(cs, path) == None && LeafAt(cs, path) == None ==> WalkChains(cs, path) == None
  {
    if path == [] {
      WalkTops(cs, Sorted(cs.Keys));
    } else if SignerAt(cs, path).Some? {
      WalkSubtree(cs, path, SignerAt(cs, path).value);
    }
  }

  /* ---- what is visited ---- */

  lemma {:induction false} TraverseVisits(n: Node, path: Path, v: Visit)
    ensures v in Traverse(n, path) <==> path <= v.path && CertAt(n, v.path[|path|..]) == Some(v.cert)
    decreases n, 1
  {
    var rest := TraverseNames(n, path, NextNames(n));
    assert v in Traverse(n, path) <==> v == Visit(path, n.ca.cert) || v in rest;
    NamesVisits(n, path, NextNames(n), v);
    if path <= v.path && CertAt(n, v.path[|path|..]) == Some(v.cert) {
      var q := v.path[|path|..];
      assert v.path == path + q;
      if q == [] {
        assert v.path == path;
      } else {
        assert q[0] in NextNames(n);
        assert v.path[|path|] == q[0];
      }
    }
  }

  lemma {:induction false} NamesVisits(n: Node, path: Path, names: seq<string>, v: Visit)
    requires forall k :: k in names ==> k in n.subs || k in n.leaves
    ensures v in TraverseNames(n, path, names) <==>
            (path <= v.path && |v.path| > |path| && v.path[|path|] in names && CertAt(n, v.path[|path|..]) ==
             Some(v.cert))
    decreases n, 0, |names|
  {
    if names != [] {
      NameVisits(n, path, names[0], v);
      NamesVisits(n, path, names[1..], v);
      assert names == [names[0]] + names[1..];
    }
  }

  lemma {:induction false} NameVisits(n: Node, path: Path, k: string, v: Visit)
    requires k in n.subs || k in n.leaves
    ensures v in TraverseName(n, path, k) <==>
            (path <= v.path && |v.path| > |path| && v.path[|path|] == k && CertAt(n, v.path[|path|..]) == Some(v.cert))
    decreases n, 0, 0
  {
    SnocPrefix(path, k, v.path);
    if k in n.subs {
      TraverseVisits(n.subs[k], path + [k], v);
    } else if path + [k] <= v.path {
      var q := v.path[|path|..];
      assert |q| == 1 <==> v.path == path + [k];
    }
  }

  lemma SnocPrefix(path: Path, k: string, p: Path)
    ensures path + [k] <= p <==> path <= p && |p| > |path| && p[|path|] == k
    ensures path + [k] <= p ==> p[|path|..] != [] && p[|path|..][0] == k && p[|path|..][1..] == p[|path + [k]|..]
  {
  }

  /** The walk visits exactly the paths that lead to a certificate, each with that certificate. */
  lemma {:induction false} VisitsAll(cs: Chains, v: Visit)
    ensures v in AllVisits(cs) <==> ChainCertAt(cs, v.path) == Some(v.cert)
  {
    TopsVisits(cs, Sorted(cs.Keys), v);
  }

  lemma {:induction false} TopsVisits(cs: Chains, names: seq<string>, v: Visit)
    requires forall k :: k in names ==> k in cs
    ensures v in TraverseTops(cs, names) <==>
              v.path != [] && v.path[0] in names && ChainCertAt(cs, v.path) == Some(v.cert)
    decreases |names|
  {
    if names != [] {
      TraverseVisits(cs[names[0]], [names[0]], v);
      TopsVisits(cs, names[1..], v);
      assert names == [names[0]] + names[1..];
      assert [names[0]] <= v.path <==> v.path != [] && v.path[0] == names[0];
    }
  }

  /* ---- how often a path is visited ---- */

  ghost predicate OncePerPath(vs: seq<Visit>) {
    forall i, j :: 0 <= i < j < |vs| ==> vs[i].path != vs[j].path
  }

  ghost predicate NoSharedPath(us: seq<Visit>, vs: seq<Visit>) {
    forall u, v :: u in us && v in vs ==> u.path != v.path
  }

  /** No signer has a sub-CA and a certificate of the same name. */
  ghost predicate NamesApart(n: Node) {
    n.subs.Keys !! n.leaves.Keys && forall k :: k in n.subs ==> NamesApart(n.subs[k])
  }

  lemma OnceConcat(us: seq<Visit>, vs: seq<Visit>)
    ensures OncePerPath(us + vs) <==> OncePerPath(us) && OncePerPath(vs) && NoSharedPath(us, vs)
  {
    var ws := us + vs;
    assert forall i :: 0 <= i < |us| ==> ws[i] == us[i];
    assert forall i :: 0 <= i < |vs| ==> ws[|us| + i] == vs[i];
    if OncePerPath(ws) {
      forall u, v | u in us && v in vs ensures u.path != v.path {
        var i :| 0 <= i < |us| && us[i] == u;
        var j :| 0 <= j < |vs| && vs[j] == v;
        assert ws[i].path != ws[|us| + j].path;
      }
    }
  }

  lemma SharedName(n: Node, path: Path, k: string, names: seq<string>)
    requires k in n.subs || k in n.leaves
    requires forall j :: j in names ==> j in n.subs || j in n.leaves
    ensures NoSharedPath(TraverseName(n, path, k), TraverseNames(n, path, names)) <==> k !in names
  {
    if k in names {
      var v := Visit(path + [k], if k in n.subs then n.subs[k].ca.cert else n.leaves[k].tls.cert);
      NameVisits(n, path, k, v);
      NamesVisits(n, path, names, v);
    } else {
      forall u, v | u in TraverseName(n, path, k) && v in TraverseNames(n, path, names) ensures u.path != v.path {
        NameVisits(n, path, k, u);
        NamesVisits(n, path, names, v);
      }
    }
  }

  lemma {:induction false} NamesOnce(n: Node, path: Path, names: seq<string>)
    requires forall k :: k in names ==> k in n.subs || k in n.leaves
    ensures OncePerPath(TraverseNames(n, path, names)) <==>
            (Distinct(names) && forall k :: k in names && k in n.subs ==> NamesApart(n.subs[k]))
    decreases n, 0, |names|
  {
    if names != [] {
      var k, rest := names[0], names[1..];
      assert names == [k] + rest;
      if k in n.subs {
        VisitedOnceIff(n.subs[k], path + [k]);
      }
      NamesOnce(n, path, rest);
      SharedName(n, path, k, rest);
      OnceConcat(TraverseName(n, path, k), TraverseNames(n, path, rest));
      assert Distinct(names) <==> Distinct(rest) && k !in rest;
    }
  }

  lemma DistinctConcat(a: seq<string>, b: seq<string>)
    requires Distinct(a) && Distinct(b)
    ensures Distinct(a + b) <==> forall x :: x in a ==> x !in b
  {
    if x :| x in a && x in b {
      var i :| 0 <= i < |a| && a[i] == x;
      var j :| 0 <= j < |b| && b[j] == x;
      assert (a + b)[i] == (a + b)[|a| + j];
    } else {
      forall i, j | 0 <= i < j < |a + b| ensures (a + b)[i] != (a + b)[j] {
        if i < |a| <= j {
          assert a[i] in a && b[j - |a|] in b;
        }
      }
    }
  }

  lemma NextNamesOnce(n: Node)
    ensures Distinct(NextNames(n)) <==> n.subs.Keys !! n.leaves.Keys
  {
    hide Sorted;
    SortedDistinct(n.subs.Keys);
    SortedDistinct(n.leaves.Keys);
    DistinctConcat(Sorted(n.subs.Keys), Sorted(n.leaves.Keys));
  }

  /** A subtree's walk visits every path once if and only if no signer in it has a sub-CA and a certificate of one
      name. */
  lemma {:induction false} VisitedOnceIff(n: Node, path: Path)
    ensures OncePerPath(Traverse(n, path)) <==> NamesApart(n)
    decreases n, 1
  {
    NamesOnce(n, path, NextNames(n));
    NextNamesOnce(n);
    var self, rest := [Visit(path, n.ca.cert)], TraverseNames(n, path, NextNames(n));
    forall v | v in rest ensures v.path != path {
      NamesVisits(n, path, NextNames(n), v);
    }
    OnceConcat(self, rest);
    assert forall k :: k in n.subs ==> k in NextNames(n);
  }

  ghost predicate AllNamesApart(cs: Chains) {
    forall k :: k in cs ==> NamesApart(cs[k])
  }

  lemma {:induction false} TopsOnce(cs: Chains, names: seq<string>)
    requires Distinct(names) && forall k :: k in names ==> k in cs
    ensures OncePerPath(TraverseTops(cs, names)) <==> forall k :: k in names ==> NamesApart(cs[k])
    decreases |names|
  {
    if names != [] {
      var k, rest := names[0], names[1..];
      assert names == [k] + rest;
      VisitedOnceIff(cs[k], [k]);
      TopsOnce(cs, rest);
      forall u, v | u in Traverse(cs[k], [k]) && v in TraverseTops(cs, rest) ensures u.path != v.path {
        TraverseVisits(cs[k], [k], u);
        TopsVisits(cs, rest, v);
      }
      OnceConcat(Traverse(cs[k], [k]), TraverseTops(cs, rest));
    }
  }

  /** The walk visits every path once if and only if no signer of any tree has a sub-CA and a certificate of one
      name. */
  lemma AllVisitedOnceIff(cs: Chains)
    ensures OncePerPath(AllVisits(cs)) <==> AllNamesApart(cs)
  {
    SortedDistinct(cs.Keys);
    TopsOnce(cs, Sorted(cs.Keys));
  }

  /* ---- GetCertKey and the walk ---- */

  function LeafBelow(n: Node, q: Path): Option<Leaf> {
    if q == [] then None else
      match SubSigner(n, q[..|q| - 1])
      case None => None
      case Some(m) => if q[|q| - 1] in m.leaves then Some(m.leaves[q[|q| - 1]]) else None
  }

  lemma LeafBelowStep(n: Node, q: Path)
    requires |q| > 1
    ensures LeafBelow(n, q) == if q[0] in n.subs then LeafBelow(n.subs[q[0]], q[1..]) else None
  {
    assert q[..|q| - 1][0] == q[0] && q[..|q| - 1][1..] == q[1..][..|q[1..]| - 1];
  }

  lemma LeafBelowHere(n: Node, k: string)
    ensures LeafBelow(n, [k]) == if k in n.leaves then Some(n.leaves[k]) else None
  {
    assert [k][..0] == [];
  }

  lemma LeafAtBelow(cs: Chains, path: Path)
    ensures LeafAt(cs, path) == if path != [] && path[0] in cs then LeafBelow(cs[path[0]], path[1..]) else None
  {
    if |path| > 1 {
      assert path[..|path| - 1][0] == path[0] && path[..|path| - 1][1..] == path[1..][..|path[1..]| - 1];
    }
  }

  /** Where no signer is found, the certificate is that of the entry. */
  lemma {:induction false} EntryCert(n: Node, q: Path)
    requires SubSigner(n, q) == None
    ensures CertAt(n, q) == match LeafBelow(n, q) case None => None case Some(l) => Some(l.tls.cert)
    decreases |q|
  {
    if |q| == 1 {
      assert q == [q[0]] && q[1..] == [];
      LeafBelowHere(n, q[0]);
    } else {
      LeafBelowStep(n, q);
      if q[0] in n.subs {
        EntryCert(n.subs[q[0]], q[1..]);
      }
    }
  }

  lemma {:induction false} ApartEntry(n: Node, q: Path)
    requires NamesApart(n) && LeafBelow(n, q).Some?
    ensures SubSigner(n, q) == None
    decreases |q|
  {
    if |q| == 1 {
      assert q == [q[0]] && q[1..] == [];
      LeafBelowHere(n, q[0]);
    } else {
      LeafBelowStep(n, q);
      ApartEntry(n.subs[q[0]], q[1..]);
    }
  }

  lemma {:induction false} SharedEntry(n: Node) returns (q: Path)
    requires !NamesApart(n)
    ensures LeafBelow(n, q).Some? && SubSigner(n, q).Some?
    decreases n
  {
    if k :| k in n.subs && k in n.leaves {
      q := [k];
      assert q[1..] == [];
      LeafBelowHere(n, k);
    } else {
      var k :| k in n.subs && !NamesApart(n.subs[k]);
      var r := SharedEntry(n.subs[k]);
      q := [k] + r;
      assert q[1..] == r;
      LeafBelowStep(n, q);
    }
  }

  /** At a path that leads to no signer the walk makes a visit exactly when GetCertKey finds an entry there, and with
      its certificate. */
  lemma EntryVisitedIff(cs: Chains, v: Visit)
    requires SignerAt(cs, v.path) == None
    ensures v in AllVisits(cs) <==> LeafAt(cs, v.path).Some? && LeafAt(cs, v.path).value.tls.cert == v.cert
  {
    hide AllVisits;
    VisitsAll(cs, v);
    LeafAtBelow(cs, v.path);
    if v.path != [] && v.path[0] in cs {
      EntryCert(cs[v.path[0]], v.path[1..]);
    }
  }

  /** Every entry GetCertKey finds is visited as a certificate if and only if no signer has a sub-CA and a
      certificate of one name; otherwise some entry's path leads to the sub-CA instead. */
  lemma EntriesVisitedIff(cs: Chains)
    ensures AllNamesApart(cs) <==>
            forall q :: LeafAt(cs, q).Some? ==>
              SignerAt(cs, q) == None && Visit(q, LeafAt(cs, q).value.tls.cert) in AllVisits(cs)
  {
    hide AllVisits;
    if AllNamesApart(cs) {
      forall q | LeafAt(cs, q).Some?
        ensures SignerAt(cs, q) == None && Visit(q, LeafAt(cs, q).value.tls.cert) in AllVisits(cs)
      {
        LeafAtBelow(cs, q);
        ApartEntry(cs[q[0]], q[1..]);
        EntryVisitedIff(cs, Visit(q, LeafAt(cs, q).value.tls.cert));
      }
    } else {
      var k :| k in cs && !NamesApart(cs[k]);
      var q := SharedEntry(cs[k]);
      assert ([k] + q)[1..] == q;
      LeafAtBelow(cs, [k] + q);
      assert LeafAt(cs, [k] + q).Some? && SignerAt(cs, [k] + q).Some?;
    }
  }
}
