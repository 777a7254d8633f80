/** Bundles with one home each: when every bundle file is registered for a single signer, no two signers can clash. */
module BundleHomes {
  import opened Pki
  import opened Tree
  import opened Layout
  import opened Chains
  import opened BundleFiles
  import opened ChainBundles
  import opened ChainSetup

  /** The bundles registered by the signer at path `q`. */
  ghost function BundlesAt(sh: Shape, q: Path): set<Path>
    decreases |q|
  {
    if q == [] then sh.bundles else if q[0] in sh.subs then BundlesAt(sh.subs[q[0]], q[1..]) else {}
  }

  ghost predicate OneHome(sh: Shape) {
    forall p, q, r :: p in BundlesAt(sh, q) && p in BundlesAt(sh, r) ==> q == r
  }

  lemma AtSub(sh: Shape, k: string, q: Path)
    requires k in sh.subs
    ensures BundlesAt(sh, [k] + q) == BundlesAt(sh.subs[k], q)
  {
  }

  /** Every claim of a subtree is for a bundle one of its signers registered. */
  lemma {:induction false} ClaimedAt(sh: Shape, subject: Name, issuer: Name, x: Claim) returns (q: Path)
    requires x in ClaimsAs(sh, subject, issuer)
    ensures x.path in BundlesAt(sh, q)
  {
    if x in OwnClaims(sh, subject, issuer) {
      q := [];
    } else {
      var k :| k in sh.subs && x in Claims(sh.subs[k], subject);
      var r := ClaimedAt(sh.subs[k], CN(sh.subs[k].name), subject, x);
      AtSub(sh, k, r);
      q := [k] + r;
    }
  }

  lemma {:induction false} SubClaimedAt(sh: Shape, k: string, subject: Name, x: Claim) returns (q: Path)
    requires k in sh.subs && x in Claims(sh.subs[k], subject)
    ensures q != [] && q[0] == k && x.path in BundlesAt(sh, q)
  {
    var r := ClaimedAt(sh.subs[k], CN(sh.subs[k].name), subject, x);
    AtSub(sh, k, r);
    q := [k] + r;
  }

  lemma OneHomeSub(sh: Shape, k: string)
    requires OneHome(sh) && k in sh.subs
    ensures OneHome(sh.subs[k])
  {
    forall p, q, r | p in BundlesAt(sh.subs[k], q) && p in BundlesAt(sh.subs[k], r) ensures q == r {
      AtSub(sh, k, q);
      AtSub(sh, k, r);
      assert [k] + q == [k] + r;
      assert ([k] + q)[1..] == q && ([k] + r)[1..] == r;
    }
  }

  lemma OwnVersusSubs(sh: Shape, subject: Name, issuer: Name)
    requires OneHome(sh)
    ensures OwnClaims(sh, subject, issuer) !! SubClaims(sh, subject)
  {
    hide OneHome, BundlesAt;
    forall x | x in OwnClaims(sh, subject, issuer) ensures x !in SubClaims(sh, subject) {
      if x in SubClaims(sh, subject) {
        var k :| k in sh.subs && x in Claims(sh.subs[k], subject);
        var q := SubClaimedAt(sh, k, subject, x);
        TwoHomes(sh, x.path, q, []);
        assert false;
      }
    }
  }

  lemma TwoHomes(sh: Shape, p: Path, q: Path, r: Path)
    requires OneHome(sh) && p in BundlesAt(sh, q) && (r == [] ==> p in sh.bundles)
    requires (r != [] ==> p in BundlesAt(sh, r))
    ensures q == r
  {
    assert BundlesAt(sh, []) == sh.bundles;
  }

  lemma SiblingsHomes(sh: Shape, j: string, k: string, subject: Name)
    requires OneHome(sh) && j in sh.subs && k in sh.subs && j != k
    ensures Claims(sh.subs[j], subject) !! Claims(sh.subs[k], subject)
  {
    hide OneHome, BundlesAt, Claims;
    forall x | x in Claims(sh.subs[j], subject) ensures x !in Claims(sh.subs[k], subject) {
      if x in Claims(sh.subs[k], subject) {
        var q := SubClaimedAt(sh, j, subject, x);
        var r := SubClaimedAt(sh, k, subject, x);
        TwoHomes(sh, x.path, q, r);
        assert false;
      }
    }
  }

  lemma {:induction false} OneHomeNoClash(sh: Shape, subject: Name, issuer: Name)
    requires OneHome(sh)
    ensures NoClashAs(sh, subject, issuer)
  {
    hide OneHome, Claims, OwnClaims, SubClaims;
    OwnVersusSubs(sh, subject, issuer);
    forall k | k in sh.subs ensures NoClashAs(sh.subs[k], CN(sh.subs[k].name), subject) {
      OneHomeSub(sh, k);
      OneHomeNoClash(sh.subs[k], CN(sh.subs[k].name), subject);
    }
    forall j, k | j in sh.subs && k in sh.subs && j != k
      ensures Claims(sh.subs[j], subject) !! Claims(sh.subs[k], subject)
    {
      SiblingsHomes(sh, j, k, subject);
    }
  }

  /* ---- registrations ---- */

  lemma {:induction false} AddBundleAt(sh: Shape, signer: Path, p: Path, q: Path)
    requires SignerIn(sh, signer)
    ensures BundlesAt(AddBundle(sh, signer, p), q) == BundlesAt(sh, q) + if q == signer then {p} else {}
    decreases |signer|
  {
    if signer != [] && q != [] && q[0] == signer[0] {
      AddBundleAt(sh.subs[q[0]], signer[1..], p, q[1..]);
      assert q == [q[0]] + q[1..] && signer == [signer[0]] + signer[1..];
    }
  }

  /** Every bundle in every tree was registered by one of `regs`. */
  ghost predicate FromRegistrations(cs: Chains, regs: set<Registration>) {
    forall k, q, p :: k in cs && p in BundlesAt(NodeShape(cs[k]), q) ==> Registration(p, [k] + q) in regs
  }

  lemma {:induction false} RegisteredFrom(cs: Chains, regs: seq<Registration>, w: World, cs': Chains, w': World,
                                          all: set<Registration>)
    requires Intact(cs, w) && RegistrationsOk(cs, regs)
    requires forall i :: 0 <= i < |regs| ==> Readable(w.files, regs[i].bundle)
    requires RegisterAll(cs, regs, w) == COk(cs', w') && FromRegistrations(cs, all)
    requires forall r :: r in regs ==> r in all
    ensures FromRegistrations(cs', all) && cs'.Keys == cs.Keys
    decreases |regs|
  {
    if regs != [] {
      hide Intact, RegistrationOk, Register, Registered, FromRegistrations, NodeShape, SignerIn, AddBundle, Within;
      hide RegisterAll;
      var r, k := regs[0], regs[0].signer[0];
      assert RegistrationOk(cs, r);
      RegistrationKnown(cs, r);
      var n, w1 := RegisterIntact(cs, r, w);
      StillRegistrableAll(cs, regs, n, w, w1);
      RegisterAllStep(cs, regs, w, n, w1);
      OneFrom(cs, r, n, w, w1, all);
      RegisteredFrom(cs[k := n], regs[1..], w1, cs', w', all);
    }
  }

  lemma OneFrom(cs: Chains, r: Registration, n: Node, w: World, w': World, all: set<Registration>)
    requires FromRegistrations(cs, all) && r in all && RegistrationOk(cs, r)
    requires Registered(cs[r.signer[0]], n, r.signer[1..], r.bundle, w, w')
    ensures FromRegistrations(cs[r.signer[0] := n], all)
  {
    hide NodeShape, SignerIn, AddBundle, Within, Sound, BundlesAt;
    var k := r.signer[0];
    var cs' := cs[k := n];
    forall l, q, p | l in cs' && p in BundlesAt(NodeShape(cs'[l]), q) ensures Registration(p, [l] + q) in all {
      if l == k {
        AddBundleAt(NodeShape(cs[k]), r.signer[1..], r.bundle, q);
        assert r.signer == [k] + r.signer[1..];
      }
    }
  }

  /** No bundle file is registered for two signers. */
  ghost predicate SingleSigners(regs: set<Registration>) {
    forall r, s :: r in regs && s in regs && r.bundle == s.bundle ==> r.signer == s.signer
  }

  lemma HomesFrom(cs: Chains, regs: set<Registration>, k: string)
    requires FromRegistrations(cs, regs) && SingleSigners(regs) && k in cs
    ensures OneHome(NodeShape(cs[k]))
  {
    hide NodeShape, BundlesAt;
    var sh := NodeShape(cs[k]);
    forall p, q, r | p in BundlesAt(sh, q) && p in BundlesAt(sh, r) ensures q == r {
      assert Registration(p, [k] + q) in regs && Registration(p, [k] + r) in regs;
      assert ([k] + q)[1..] == q && ([k] + r)[1..] == r;
    }
  }

  /** A single tree whose bundles have one signer each is free of clashes. */
  lemma SingleTreeNoClashes(cs: Chains, regs: set<Registration>, root: string)
    requires FromRegistrations(cs, regs) && SingleSigners(regs) && cs.Keys == {root}
    ensures NoClashes(cs)
  {
    hide NodeShape, NoClashAs;
    forall k | k in cs ensures TreeClashFree(cs[k]) {
      HomesFrom(cs, regs, k);
      var c := cs[k].ca.cert;
      OneHomeNoClash(NodeShape(cs[k]), c.subject, c.issuerName);
      OneHomeNoClash(NodeShape(cs[k]), CN(cs[k].name), CN(cs[k].name));
    }
  }
}
