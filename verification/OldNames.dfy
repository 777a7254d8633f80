/** A renewed root takes its signer's name, whatever name it was created under: which bundles then keep an entry that
    nobody maintains any more. */
module OldNames {
  import opened Pki
  import opened Tree
  import opened Layout
  import opened Renewal
  import opened Regeneration
  import opened Chains
  import opened BundleFiles
  import opened BundleFreshness
  import opened ChainBundles
  import opened ChainSetup
  import opened SetupBundles
  import opened BundleHomes

  /* ---- the old entries belong to nobody ---- */

  lemma SubOwnUnclaimed(sh: Shape, was: Name, j: string, i: string, p: Path)
    requires NoClashAs(sh, was, was) && i in sh.subs && j in sh.subs && p in sh.subs[j].bundles && was != CN(sh.name)
    ensures Claim(p, Key(CN(sh.subs[j].name), was)) !in Claims(sh.subs[i], CN(sh.name))
  {
    var x, c, d := Claim(p, Key(CN(sh.subs[j].name), was)), sh.subs[i], sh.subs[j];
    assert Claims(c, was) == OwnClaims(c, CN(c.name), was) + SubClaims(c, CN(c.name));
    assert Claims(c, CN(sh.name)) == OwnClaims(c, CN(c.name), CN(sh.name)) + SubClaims(c, CN(c.name));
    assert x in OwnClaims(d, CN(d.name), was) && x in Claims(d, was);
    assert SubsNoClash(sh, was);
    assert x !in SubClaims(c, CN(c.name)) by {
      if i == j {
        assert NoClashAs(d, CN(d.name), was);
      } else {
        assert Claims(c, was) !! Claims(d, was);
      }
    }
  }

  lemma OldSubUnclaimed(sh: Shape, was: Name, j: string, p: Path)
    requires was != CN(sh.name) && j in sh.subs && p in sh.subs[j].bundles && NoClashAs(sh, was, was)
    ensures Claim(p, Key(CN(sh.subs[j].name), was)) !in ClaimsAs(sh, CN(sh.name), CN(sh.name))
  {
    hide NoClashAs, Claims;
    forall i | i in sh.subs ensures Claim(p, Key(CN(sh.subs[j].name), was)) !in Claims(sh.subs[i], CN(sh.name)) {
      SubOwnUnclaimed(sh, was, j, i, p);
    }
  }

  lemma OldRootUnclaimed(sh: Shape, was: Name, p: Path)
    requires was != CN(sh.name) && p in sh.bundles && NoClashAs(sh, was, was)
    ensures Claim(p, Key(was, was)) !in ClaimsAs(sh, CN(sh.name), CN(sh.name))
  {
    var x := Claim(p, Key(was, was));
    assert x in OwnClaims(sh, was, was);
    forall k | k in sh.subs ensures x !in Claims(sh.subs[k], CN(sh.name)) {
      var c := sh.subs[k];
      assert x !in Claims(c, was) by { SubClaimsOf(sh, k, was); }
      assert Claims(c, was) == OwnClaims(c, CN(c.name), was) + SubClaims(c, CN(c.name));
      assert Claims(c, CN(sh.name)) == OwnClaims(c, CN(c.name), CN(sh.name)) + SubClaims(c, CN(c.name));
    }
  }

  /* ---- names and numbers of a tree in order ---- */

  lemma SubEntry(n: Node, k: string, f: map<Path, File>, next: nat)
    requires Sound(n, f, next) && k in NodeShape(n).subs
    ensures k in n.subs && Sound(n.subs[k], f, next) && NodeShape(n.subs[k]) == NodeShape(n).subs[k]
    ensures KeyOf(n.subs[k].ca.cert) == Key(CN(NodeShape(n).subs[k].name), n.ca.cert.subject)
  {
    NodeKeys(n);
    NodeSubShape(n, k);
    DirOf(n.subs[k]);
    assert SoundSub(n, k, f, next);
  }

  /** Below the first level nothing depends on the root's name. */
  lemma {:induction false} SameKeys(n: Node, n': Node, q: Path, f: map<Path, File>, g: map<Path, File>, next: nat,
                                    next': nat)
    requires Sound(n, f, next) && Sound(n', g, next') && NodeShape(n) == NodeShape(n') && SignerIn(NodeShape(n), q)
    requires q != []
    requires n.ca.cert.subject == n'.ca.cert.subject || |q| > 1
    ensures CertAt(n, q).Some? && CertAt(n', q).Some? && KeyOf(CertAt(n, q).value) == KeyOf(CertAt(n', q).value)
    decreases |q|
  {
    hide Sound, NodeShape;
    var k := q[0];
    SubEntry(n, k, f, next);
    SubEntry(n', k, g, next');
    if |q| > 1 {
      SameKeys(n.subs[k], n'.subs[k], q[1..], f, g, next, next');
    }
  }

  lemma {:induction false} SignerNumber(n: Node, q: Path, f: map<Path, File>, next: nat)
    requires Sound(n, f, next) && n.ca.cert.id < next && SignerIn(NodeShape(n), q)
    ensures CertAt(n, q).Some? && CertAt(n, q).value.id < next
    decreases |q|
  {
    if q != [] {
      NodeKeys(n);
      NodeSubShape(n, q[0]);
      assert SoundSub(n, q[0], f, next);
      SignerNumber(n.subs[q[0]], q[1..], f, next);
    }
  }

  /* ---- which entries stay ---- */

  /** The claim of the signer at `q`, as it was before the root was renewed, is nobody's afterwards: the signer is
      the root or right below it, and the root changed its name. */
  lemma OldUnclaimed(n: Node, q: Path, p: Path, f: map<Path, File>, next: nat)
    requires Sound(n, f, next) && LaidOut(NodeShape(n)) && n.ca.cert.issuerName == n.ca.cert.subject != CN(n.name)
    requires NoClashAs(NodeShape(n), n.ca.cert.subject, n.ca.cert.subject)
    requires |q| <= 1 && SignerIn(NodeShape(n), q) && p in BundlesAt(NodeShape(n), q)
    ensures CertAt(n, q).Some? && Claim(p, KeyOf(CertAt(n, q).value)) !in ClaimsAs(NodeShape(n), CN(n.name), CN(n.name))
  {
    hide NoClashAs, ClaimsAs, LaidOut;
    DirOf(n);
    if q == [] {
      OldRootUnclaimed(NodeShape(n), n.ca.cert.subject, p);
    } else {
      var k := q[0];
      assert q[1..] == [];
      NodeKeys(n);
      NodeSubShape(n, k);
      DirOf(n.subs[k]);
      SubLaidOut(NodeShape(n), k);
      assert SoundSub(n, k, f, next);
      OldSubUnclaimed(NodeShape(n), n.ca.cert.subject, k, p);
    }
  }

  lemma {:induction false} BundleOutside(sh: Shape, q: Path, p: Path)
    requires LaidOut(sh) && SignerIn(sh, q) && p in BundlesAt(sh, q)
    ensures p in Bundles(sh) && !Within(sh, p)
  {
    InBundles(sh, q, p);
  }

  lemma {:induction false} InBundles(sh: Shape, q: Path, p: Path)
    requires SignerIn(sh, q) && p in BundlesAt(sh, q)
    ensures p in Bundles(sh)
    decreases |q|
  {
    if q != [] {
      InBundles(sh.subs[q[0]], q[1..], p);
    }
  }

  /** What the parts below need of a root and its renewal. */
  ghost predicate RootRenewed(n: Node, n': Node, w: World, w': World) {
    && Sound(n, w.files, w.next) && Sound(n', w'.files, w'.next) && LaidOut(NodeShape(n))
    && NodeShape(n') == NodeShape(n)
    && n.ca.cert.id < w.next && n.ca.cert.issuerName == n.ca.cert.subject && ClashFree(n)
    && n'.ca.cert.subject == CN(n.name) && n'.ca.cert.issuerName == CN(n.name)
    && BundlesFresh(n, w.files) && BundlesRenewed(n, n', w, w')
    && (forall q :: CertAt(n', q).Some? ==> CertAt(n', q).value.id >= w.next)
  }

  lemma EntryStaysIff(n: Node, n': Node, w: World, w': World, q: Path, p: Path)
    requires RootRenewed(n, n', w, w') && SignerIn(NodeShape(n), q) && p in BundlesAt(NodeShape(n), q)
    ensures CertAt(n, q).Some? && CertAt(n', q).Some? && Holds(w'.files, p, CertAt(n', q).value)
    ensures Holds(w'.files, p, CertAt(n, q).value) <==> n.ca.cert.subject != CN(n.name) && |q| <= 1
  {
    hide Holds, Sound, LaidOut, NodeShape, ClaimsAs, NoClashAs, BundlesFresh, SignerIn, BundlesAt;
    SignerNumber(n, q, w.files, w.next);
    FreshAtSigner(n, q, p, w.files);
    FreshAtSigner(n', q, p, w'.files);
    if n.ca.cert.subject != CN(n.name) && |q| <= 1 {
      BundleOutside(NodeShape(n), q, p);
      OldUnclaimed(n, q, p, w.files, w.next);
    } else {
      SameEntry(n, n', w, w', q);
      if Holds(w'.files, p, CertAt(n, q).value) {
        HeldOnce(w'.files, p, CertAt(n, q).value, CertAt(n', q).value);
      }
    }
  }

  lemma HeldOnce(f: map<Path, File>, p: Path, c: Cert, d: Cert)
    requires Holds(f, p, c) && Holds(f, p, d) && KeyOf(c) == KeyOf(d)
    ensures c == d
  {
    OneEntry(f[p].certs, c, d);
  }

  lemma SameEntry(n: Node, n': Node, w: World, w': World, q: Path)
    requires RootRenewed(n, n', w, w') && SignerIn(NodeShape(n), q) && (n.ca.cert.subject == CN(n.name) || |q| > 1)
    ensures CertAt(n, q).Some? && CertAt(n', q).Some? && KeyOf(CertAt(n, q).value) == KeyOf(CertAt(n', q).value)
  {
    hide NoClashAs, LaidOut, BundlesFresh, Sound, BundlesRenewed;
    if q != [] {
      SameKeys(n, n', q, w.files, w'.files, w.next, w'.next);
    }
  }

  lemma RenewedRoot(cs: Chains, k: string, ch: Choices, w: World) returns (n': Node, w': World)
    requires Intact(cs, w) && NoClashes(cs) && AllBundlesFresh(cs, w.files) && k in cs && ChainsPossible(cs, [k], ch)
    ensures RegenerateChains(cs, [k], ch, w) == COk(cs[k := n'], w') && cs[k].name == k && RootRenewed(cs[k], n', w, w')
  {
    hide NoClashes, AllBundlesFresh, Sound, KeepsOthers, NodeShape, NoClashAs, ClaimsAs, Nested, RenewAll, LaidOut;
    hide Bundles, Within, Possible;
    hide BundlesFresh, BundlesRenewed, CertAt;
    var n := cs[k];
    assert RootHealthy(cs, k, w) && [k][1..] == [];
    TreeFacts(cs, k, w);
    n', w' := RenewAllBundles(n, ch, w);
    RegenerateExact(cs, [k], ch, w);
    var cs' := cs[k := n'];
    assert NodeShape(n') == NodeShape(n) by {
      assert SameShapes(cs, cs');
    }
    assert RootHealthy(cs', k, w');
    forall q | CertAt(n', q).Some? ensures CertAt(n', q).value.id >= w.next {
      assert [k] <= [k] + q && ([k] + q)[1..] == q;
      assert ChainCertAt(cs', [k] + q) == CertAt(n', q);
    }
  }

  /** When a root is renewed every bundle registered in its tree gets its signer's new certificate; the old one stays
      beside it if and only if the root had gone by another name and the signer is the root or right below it. */
  lemma OldEntryStaysIff(cs: Chains, k: string, ch: Choices, w: World, q: Path, p: Path)
    requires Intact(cs, w) && NoClashes(cs) && AllBundlesFresh(cs, w.files) && k in cs && ChainsPossible(cs, [k], ch)
    requires SignerIn(NodeShape(cs[k]), q) && p in BundlesAt(NodeShape(cs[k]), q)
    ensures var o := RegenerateChains(cs, [k], ch, w);
            && o.COk? && k in o.cs && CertAt(cs[k], q).Some? && CertAt(o.cs[k], q).Some?
            && Holds(o.w.files, p, CertAt(o.cs[k], q).value)
            && (Holds(o.w.files, p, CertAt(cs[k], q).value) <==> cs[k].ca.cert.subject != CN(k) && |q| <= 1)
  {
    hide Intact, NoClashes, AllBundlesFresh, RootRenewed, SignerIn, BundlesAt, NodeShape, Holds, CertAt, ChainsPossible;
    hide RegenerateChains;
    var n', w' := RenewedRoot(cs, k, ch, w);
    EntryStaysIff(cs[k], n', w, w', q, p);
  }
}
