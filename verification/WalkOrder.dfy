/** The order WalkChains makes its calls in, and the order certsToRegenerate lists paths in. */
module WalkOrder {
  import opened Base
  import opened Pki
  import opened Tree
  import opened Chains
  import opened Walk
  import opened Rotation

  /** At a signer sub-CAs come before certificates, and each of the two in name order; the roots come in name order. */
  ghost predicate NameBefore(cs: Chains, at: Path, a: string, b: string) {
    if at == [] then StrLess(a, b)
    else
      && SignerAt(cs, at).Some?
      && var subs := SignerAt(cs, at).value.subs;
         (a in subs && b !in subs) || ((a in subs <==> b in subs) && StrLess(a, b))
  }

  /** A signer comes before all below it; otherwise the first names that differ decide. */
  ghost predicate Before(cs: Chains, p: Path, q: Path) {
    || p < q
    || exists m :: 0 <= m < |p| && m < |q| && p[..m] == q[..m] && NameBefore(cs, p[..m], p[m], q[m])
  }

  ghost predicate Ordered(cs: Chains, vs: seq<Visit>) {
    forall i, j :: 0 <= i < j < |vs| ==> Before(cs, vs[i].path, vs[j].path)
  }

  lemma OrderedConcat(cs: Chains, us: seq<Visit>, vs: seq<Visit>)
    requires Ordered(cs, us) && Ordered(cs, vs)
    requires forall u, v :: u in us && v in vs ==> Before(cs, u.path, v.path)
    ensures Ordered(cs, us + vs)
  {
    hide Before;
    forall i, j | 0 <= i < j < |us + vs| ensures Before(cs, (us + vs)[i].path, (us + vs)[j].path) {
      if i < |us| <= j {
        assert us[i] in us && vs[j - |us|] in vs;
      }
    }
  }

  ghost predicate Ascends(cs: Chains, at: Path, names: seq<string>) {
    forall i, j :: 0 <= i < j < |names| ==> NameBefore(cs, at, names[i], names[j])
  }

  lemma NextNamesAscend(cs: Chains, at: Path, n: Node)
    requires at != [] && SignerAt(cs, at) == Some(n) && n.subs.Keys !! n.leaves.Keys
    ensures Ascends(cs, at, NextNames(n))
  {
    hide Sorted;
    var a, b := Sorted(n.subs.Keys), Sorted(n.leaves.Keys);
    forall i, j | 0 <= i < j < |a + b| ensures NameBefore(cs, at, (a + b)[i], (a + b)[j]) {
      if i < |a| <= j {
        assert a[i] in n.subs && b[j - |a|] in n.leaves;
      } else if j < |a| {
        assert a[i] in n.subs && a[j] in n.subs;
      } else {
        assert b[i - |a|] in n.leaves && b[j - |a|] in n.leaves;
      }
    }
  }

  lemma ApartAt(cs: Chains, at: Path, p: Path, q: Path)
    requires at <= p && at <= q && |p| > |at| && |q| > |at| && NameBefore(cs, at, p[|at|], q[|at|])
    ensures Before(cs, p, q)
  {
    assert p[..|at|] == at && q[..|at|] == at;
  }

  lemma {:induction false} SubtreeOrdered(cs: Chains, at: Path, n: Node)
    requires at != [] && SignerAt(cs, at) == Some(n) && NamesApart(n)
    ensures Ordered(cs, Traverse(n, at))
    decreases n, 1
  {
    hide Before, NameBefore, SignerAt;
    NextNamesAscend(cs, at, n);
    var self, rest := [Visit(at, n.ca.cert)], TraverseNames(n, at, NextNames(n));
    NamesOrdered(cs, at, n, NextNames(n));
    forall v | v in rest ensures Before(cs, at, v.path) {
      NamesVisits(n, at, NextNames(n), v);
      SelfFirst(cs, at, v.path);
    }
    OrderedConcat(cs, self, rest);
  }

  lemma SelfFirst(cs: Chains, p: Path, q: Path)
    requires p <= q && |q| > |p|
    ensures Before(cs, p, q)
  {
  }

  lemma {:induction false} NamesOrdered(cs: Chains, at: Path, n: Node, names: seq<string>)
    requires at != [] && SignerAt(cs, at) == Some(n) && NamesApart(n) && Ascends(cs, at, names)
    requires forall k :: k in names ==> k in n.subs || k in n.leaves
    ensures Ordered(cs, TraverseNames(n, at, names))
    decreases n, 0, |names|
  {
    hide Before, NameBefore, SignerAt;
    if names != [] {
      var k, rest := names[0], names[1..];
      assert forall i :: 0 <= i < |rest| ==> rest[i] == names[i + 1];
      SignerAtSnoc(cs, at, k);
      if k in n.subs {
        SubtreeOrdered(cs, at + [k], n.subs[k]);
      }
      NamesOrdered(cs, at, n, rest);
      forall u, v | u in TraverseName(n, at, k) && v in TraverseNames(n, at, rest) ensures Before(cs, u.path, v.path) {
        NameVisits(n, at, k, u);
        NamesVisits(n, at, rest, v);
        var j :| 0 <= j < |rest| && rest[j] == v.path[|at|];
        assert names[j + 1] == v.path[|at|];
        ApartAt(cs, at, u.path, v.path);
      }
      OrderedConcat(cs, TraverseName(n, at, k), TraverseNames(n, at, rest));
    }
  }

  lemma {:induction false} TopsOrdered(cs: Chains, names: seq<string>)
    requires AllNamesApart(cs) && Ascends(cs, [], names) && forall k :: k in names ==> k in cs
    ensures Ordered(cs, TraverseTops(cs, names))
    decreases |names|
  {
    hide Before, NameBefore, NamesApart;
    if names != [] {
      var k, rest := names[0], names[1..];
      assert forall i :: 0 <= i < |rest| ==> rest[i] == names[i + 1];
      assert [k][1..] == [];
      SubtreeOrdered(cs, [k], cs[k]);
      TopsOrdered(cs, rest);
      forall u, v | u in Traverse(cs[k], [k]) && v in TraverseTops(cs, rest) ensures Before(cs, u.path, v.path) {
        TraverseVisits(cs[k], [k], u);
        TopsVisits(cs, rest, v);
        var j :| 0 <= j < |rest| && rest[j] == v.path[0];
        assert names[j + 1] == v.path[0];
        ApartAt(cs, [], u.path, v.path);
      }
      OrderedConcat(cs, Traverse(cs[k], [k]), TraverseTops(cs, rest));
    }
  }

  /** The walk visits every certificate below its signer after it, and of two others first the one whose name, where
      their paths part, comes first there. */
  lemma VisitOrder(cs: Chains, i: nat, j: nat)
    requires AllNamesApart(cs) && i < j < |AllVisits(cs)|
    ensures Before(cs, AllVisits(cs)[i].path, AllVisits(cs)[j].path)
  {
    hide Before, Sorted;
    TopsOrdered(cs, Sorted(cs.Keys));
  }

  /** Names are in order when the first is a proper prefix of the second, or has the smaller character where they first
      differ. */
  lemma {:induction false} NameOrder(a: string, b: string)
    ensures StrLess(a, b) <==>
            a < b || exists i :: 0 <= i < |a| && i < |b| && a[..i] == b[..i] && a[i] < b[i]
  {
    if a != [] && b != [] && a[0] == b[0] {
      NameOrder(a[1..], b[1..]);
      if i :| 0 <= i < |a[1..]| && i < |b[1..]| && a[1..][..i] == b[1..][..i] && a[1..][i] < b[1..][i] {
        assert a[..i + 1] == [a[0]] + a[1..][..i] && b[..i + 1] == [b[0]] + b[1..][..i];
        assert a[i + 1] < b[i + 1];
      }
      if i :| 0 <= i < |a| && i < |b| && a[..i] == b[..i] && a[i] < b[i] {
        assert a[1..][..i - 1] == a[..i][1..] && b[1..][..i - 1] == b[..i][1..];
        assert a[1..][i - 1] < b[1..][i - 1];
      }
      assert a == [a[0]] + a[1..] && b == [b[0]] + b[1..];
    } else if a != [] && b != [] {
      assert a[..0] == b[..0];
      if i :| 0 <= i < |a| && i < |b| && a[..i] == b[..i] && a[i] < b[i] {
        assert i > 0 ==> a[..i][0] == b[..i][0];
      }
    }
  }

  /* ---- what certsToRegenerate lists ---- */

  ghost predicate ListOrdered(cs: Chains, ps: seq<Path>) {
    forall i, j :: 0 <= i < j < |ps| ==> ps[i] == ps[j] || Before(cs, ps[i], ps[j])
  }

  lemma {:induction false} ListedInOrder(cs: Chains, vs: seq<Visit>, now: int)
    requires Ordered(cs, vs)
    ensures ListOrdered(cs, CertsToRegenerate(vs, now))
    decreases |vs|
  {
    hide Before, Outdated, Expiring;
    if vs != [] {
      var v, rest := vs[0], vs[1..];
      assert forall i :: 0 <= i < |rest| ==> rest[i] == vs[i + 1];
      ListedInOrder(cs, rest, now);
      var here, there := DueEntries(v, now), CertsToRegenerate(rest, now);
      forall i, j | 0 <= i < j < |here + there|
        ensures (here + there)[i] == (here + there)[j] || Before(cs, (here + there)[i], (here + there)[j])
      {
        if i < |here| <= j {
          ListedIff(rest, now, there[j - |here|]);
          var u :| u in rest && u.path == there[j - |here|];
        }
      }
    }
  }

  /** Paths are listed in the order of the walk. */
  lemma ListOrder(cs: Chains, now: int, i: nat, j: nat)
    requires AllNamesApart(cs) && i < j < |CertsToRegenerate(AllVisits(cs), now)|
    ensures var listed := CertsToRegenerate(AllVisits(cs), now);
            listed[i] == listed[j] || Before(cs, listed[i], listed[j])
  {
    hide Before, Sorted, CertsToRegenerate;
    TopsOrdered(cs, Sorted(cs.Keys));
    ListedInOrder(cs, AllVisits(cs), now);
  }

  function Times(c: Cert, now: int): nat {
    (if Outdated(c, now) then 1 else 0) + (if Expiring(c, now) then 1 else 0)
  }

  lemma EntryTimes(v: Visit, now: int, q: Path)
    ensures multiset(DueEntries(v, now))[q] == if v.path == q then Times(v.cert, now) else 0
  {
    hide Outdated, Expiring;
  }

  lemma ListStep(vs: seq<Visit>, now: int)
    requires vs != []
    ensures multiset(CertsToRegenerate(vs, now)) ==
            multiset(DueEntries(vs[0], now)) + multiset(CertsToRegenerate(vs[1..], now))
  {
    hide DueEntries;
  }

  lemma {:induction false} NeverListed(vs: seq<Visit>, now: int, q: Path)
    requires forall u :: u in vs ==> u.path != q
    ensures multiset(CertsToRegenerate(vs, now))[q] == 0
    decreases |vs|
  {
    hide DueEntries;
    if vs != [] {
      ListStep(vs, now);
      EntryTimes(vs[0], now, q);
      NeverListed(vs[1..], now, q);
    }
  }

  lemma {:induction false} TimesListed(vs: seq<Visit>, now: int, v: Visit)
    requires OncePerPath(vs) && v in vs
    ensures multiset(CertsToRegenerate(vs, now))[v.path] == Times(v.cert, now)
    decreases |vs|
  {
    hide DueEntries, CertsToRegenerate, Times;
    var rest := vs[1..];
    assert vs == [vs[0]] + rest;
    assert forall i :: 0 <= i < |rest| ==> rest[i] == vs[i + 1];
    ListStep(vs, now);
    EntryTimes(vs[0], now, v.path);
    if vs[0] == v {
      NeverListed(rest, now, v.path);
    } else {
      TimesListed(rest, now, v);
    }
  }

  /** A certificate issued for `days` days is listed `t` seconds later once for being outside its validity and once more
      for having too little time left. */
  lemma ListedTimes(cs: Chains, q: Path, issued: int, days: int, t: int)
    requires AllNamesApart(cs) && ChainCertAt(cs, q).Some?
    requires ChainCertAt(cs, q).value.notBefore == issued - 1
    requires ChainCertAt(cs, q).value.notAfter == issued + days * 86400
    ensures multiset(CertsToRegenerate(AllVisits(cs), issued + t))[q] ==
            (if t < -1 || t > days * 86400 then 1 else 0) +
            (if t > (days - (if days < 1825 then 210 else 540)) * 86400 then 1 else 0)
  {
    hide AllVisits, ChainCertAt, CertsToRegenerate, AllNamesApart;
    var v := Visit(q, ChainCertAt(cs, q).value);
    AllVisitedOnceIff(cs);
    VisitsAll(cs, v);
    TimesListed(AllVisits(cs), issued + t, v);
  }
}
