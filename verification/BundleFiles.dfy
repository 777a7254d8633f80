/** CA bundle files: one AddToBundles call is a map update, and every registered bundle holds the signer's current
    certificate. */
module BundleFiles {
  import opened Pki
  import opened Tree
  import opened Layout
  import opened Renewal

  /* ---- a bundle file as a map from (subject, issuer) to certificate ---- */

  ghost predicate UniqueKeys(certs: seq<Cert>) {
    forall i, j :: 0 <= i < j < |certs| ==> KeyOf(certs[i]) != KeyOf(certs[j])
  }

  ghost function AsMap(certs: seq<Cert>): map<Key, Cert> {
    if certs == [] then map[] else AsMap(certs[1..])[KeyOf(certs[0]) := certs[0]]
  }

  /** Every entry with another key stays at its position; at most one entry is added, at the end. */
  lemma {:induction false} UpsertPositions(certs: seq<Cert>, c: Cert)
    ensures |certs| <= |Upsert(certs, c)| <= |certs| + 1
    ensures forall i :: 0 <= i < |certs| && KeyOf(certs[i]) != KeyOf(c) ==> Upsert(certs, c)[i] == certs[i]
    ensures forall i :: 0 <= i < |certs| ==> KeyOf(Upsert(certs, c)[i]) == KeyOf(certs[i])
    ensures |Upsert(certs, c)| == |certs| + 1 <==> forall i :: 0 <= i < |certs| ==> KeyOf(certs[i]) != KeyOf(c)
    ensures |Upsert(certs, c)| == |certs| + 1 ==> Upsert(certs, c)[|certs|] == c
    ensures c in Upsert(certs, c)
  {
    if certs != [] && KeyOf(certs[0]) != KeyOf(c) {
      UpsertPositions(certs[1..], c);
      var r := Upsert(certs[1..], c);
      assert forall i :: 0 < i < |certs| ==> certs[i] == certs[1..][i - 1];
      assert forall i :: 0 <= i < |certs[1..]| ==> certs[1..][i] == certs[i + 1];
    }
  }

  /** The entry is for the subject and the issuer of the certificate. */
  ghost predicate EntryFor(e: Cert, c: Cert) {
    e.subject == c.subject && e.issuerName == c.issuerName
  }

  /** The first such entry is the `i`th. */
  ghost predicate FirstEntry(certs: seq<Cert>, c: Cert, i: int) {
    0 <= i < |certs| && EntryFor(certs[i], c) && forall j :: 0 <= j < i ==> !EntryFor(certs[j], c)
  }

  lemma {:induction false} FirstReplaced(certs: seq<Cert>, c: Cert, i: nat)
    requires FirstEntry(certs, c, i)
    ensures Upsert(certs, c) == certs[i := c]
    decreases i
  {
    if i > 0 {
      assert !EntryFor(certs[0], c) && certs[1..][i - 1] == certs[i];
      assert forall j :: 0 <= j < i - 1 ==> certs[1..][j] == certs[j + 1];
      FirstReplaced(certs[1..], c, i - 1);
    }
  }

  lemma {:induction false} NoneAppended(certs: seq<Cert>, c: Cert)
    requires forall e :: e in certs ==> !EntryFor(e, c)
    ensures Upsert(certs, c) == certs + [c]
    decreases |certs|
  {
    if certs != [] {
      assert !EntryFor(certs[0], c);
      NoneAppended(certs[1..], c);
    }
  }

  /** The first entry for its subject and issuer is overwritten; without one the certificate is appended. */
  lemma UpsertReplaces(certs: seq<Cert>, c: Cert)
    ensures forall i :: FirstEntry(certs, c, i) ==> Upsert(certs, c) == certs[i := c]
    ensures (forall e :: e in certs ==> !EntryFor(e, c)) ==> Upsert(certs, c) == certs + [c]
  {
    hide EntryFor;
    forall i | FirstEntry(certs, c, i) ensures Upsert(certs, c) == certs[i := c] {
      FirstReplaced(certs, c, i);
    }
    if forall e :: e in certs ==> !EntryFor(e, c) {
      NoneAppended(certs, c);
    }
  }

  lemma UpsertUnique(certs: seq<Cert>, c: Cert)
    requires UniqueKeys(certs)
    ensures UniqueKeys(Upsert(certs, c))
  {
    UpsertPositions(certs, c);
  }

  lemma {:induction false} UpsertAsMap(certs: seq<Cert>, c: Cert)
    requires UniqueKeys(certs)
    ensures AsMap(Upsert(certs, c)) == AsMap(certs)[KeyOf(c) := c]
  {
    if certs != [] {
      var rest := certs[1..];
      if KeyOf(certs[0]) == KeyOf(c) {
        assert ([c] + rest)[1..] == rest;
      } else {
        UpsertAsMap(rest, c);
        assert ([certs[0]] + Upsert(rest, c))[1..] == Upsert(rest, c);
      }
    } else {
      assert [c][1..] == [];
    }
  }

  lemma {:induction false} UpsertTwice(certs: seq<Cert>, c: Cert)
    ensures Upsert(Upsert(certs, c), c) == Upsert(certs, c)
  {
    if certs == [] {
      assert [c][1..] == [];
    } else {
      var rest := certs[1..];
      if KeyOf(certs[0]) == KeyOf(c) {
        assert ([c] + rest)[1..] == rest;
      } else {
        UpsertTwice(rest, c);
        assert ([certs[0]] + Upsert(rest, c))[1..] == Upsert(rest, c);
      }
    }
  }

  /** AddToBundles refines a map: on a file with one certificate per (subject, issuer) it is one map update, keys stay
      unique, and doing it again changes nothing. */
  lemma UpsertRefinesMap(certs: seq<Cert>, c: Cert)
    requires UniqueKeys(certs)
    ensures UniqueKeys(Upsert(certs, c))
    ensures AsMap(Upsert(certs, c)) == AsMap(certs)[KeyOf(c) := c]
    ensures Upsert(Upsert(certs, c), c) == Upsert(certs, c)
  {
    UpsertUnique(certs, c);
    UpsertAsMap(certs, c);
    UpsertTwice(certs, c);
  }

  /* ---- what a bundle file holds ---- */

  /** The file's entry for the certificate's subject and issuer is this certificate: writing it again changes
      nothing. */
  ghost predicate Holds(f: map<Path, File>, p: Path, c: Cert) {
    p in f && f[p].CertFile? && Upsert(f[p].certs, c) == f[p].certs
  }

  lemma HoldsMember(f: map<Path, File>, p: Path, c: Cert)
    requires Holds(f, p, c)
    ensures c in f[p].certs
  {
    UpsertPositions(f[p].certs, c);
  }

  lemma {:induction false} UpsertHolds(certs: seq<Cert>, c: Cert, d: Cert)
    ensures Upsert(Upsert(certs, c), c) == Upsert(certs, c)
    ensures Upsert(certs, d) == certs && KeyOf(d) != KeyOf(c) ==> Upsert(Upsert(certs, c), d) == Upsert(certs, c)
  {
    UpsertTwice(certs, c);
    if certs != [] {
      var rest := certs[1..];
      UpsertHolds(rest, c, d);
      if Upsert(certs, d) == certs && KeyOf(d) != KeyOf(c) {
        assert certs == [certs[0]] + rest;
        if KeyOf(certs[0]) == KeyOf(d) {
          assert certs[0] == Upsert(certs, d)[0] == d;
          assert ([certs[0]] + Upsert(rest, c))[1..] == Upsert(rest, c);
        } else {
          assert Upsert(rest, d) == Upsert(certs, d)[1..] == rest;
          if KeyOf(certs[0]) == KeyOf(c) {
            assert ([c] + rest)[1..] == rest;
          } else {
            assert ([certs[0]] + Upsert(rest, c))[1..] == Upsert(rest, c);
          }
        }
      }
    }
  }

  lemma {:induction false} AddToBundlesHolds(n: Node, ps: seq<Path>, w: World)
    requires AddToBundles(n, ps, w).Ok?
    ensures forall p :: p in ps ==> Holds(AddToBundles(n, ps, w).w.files, p, n.ca.cert)
    ensures forall p, c :: Holds(w.files, p, c) && (p !in ps || KeyOf(c) != KeyOf(n.ca.cert) || c == n.ca.cert) ==>
              Holds(AddToBundles(n, ps, w).w.files, p, c)
    decreases |ps|
  {
    if ps != [] {
      var w1 := w.(files := w.files[ps[0] := CertFile(Upsert(BundleAt(w.files, ps[0]), n.ca.cert))]);
      var n1 := n.(bundles := n.bundles + {ps[0]});
      assert ps == [ps[0]] + ps[1..];
      AddToBundlesHolds(n1, ps[1..], w1);
      forall p, c | Holds(w.files, p, c) && (p !in ps || KeyOf(c) != KeyOf(n.ca.cert) || c == n.ca.cert)
        ensures Holds(w1.files, p, c)
      {
        UpsertHolds(BundleAt(w.files, ps[0]), n.ca.cert, c);
      }
      UpsertHolds(BundleAt(w.files, ps[0]), n.ca.cert, n.ca.cert);
      assert Holds(w1.files, ps[0], n.ca.cert);
    }
  }

  /** One entry for each subject and issuer: two certificates that share them cannot both be it. */
  lemma {:induction false} OneEntry(certs: seq<Cert>, c: Cert, d: Cert)
    requires Upsert(certs, c) == certs == Upsert(certs, d) && KeyOf(c) == KeyOf(d)
    ensures c == d
    decreases |certs|
  {
    if KeyOf(certs[0]) == KeyOf(c) {
      assert Upsert(certs, c)[0] == c && Upsert(certs, d)[0] == d;
    } else {
      assert Upsert(certs, c)[1..] == Upsert(certs[1..], c) && Upsert(certs, d)[1..] == Upsert(certs[1..], d);
      OneEntry(certs[1..], c, d);
    }
  }

  /* ---- the whole call ---- */

  lemma SameUpdate(files: map<Path, File>, p: Path, x: File)
    requires p in files && files[p] == x
    ensures files[p := x] == files
  {
  }

  lemma {:induction false} BundlesAgain(m: Node, ps: seq<Path>, w: World)
    requires forall p :: p in ps ==> Holds(w.files, p, m.ca.cert)
    ensures AddToBundles(m, ps, w) == Ok(m.(bundles := m.bundles + set p | p in ps), w)
    decreases |ps|
  {
    if ps != [] {
      assert ps == [ps[0]] + ps[1..];
      assert Holds(w.files, ps[0], m.ca.cert);
      SameUpdate(w.files, ps[0], CertFile(Upsert(BundleAt(w.files, ps[0]), m.ca.cert)));
      BundlesAgain(m.(bundles := m.bundles + {ps[0]}), ps[1..], w);
      assert m.bundles + {ps[0]} + (set p | p in ps[1..]) == m.bundles + set p | p in ps;
    } else {
      assert m.bundles + (set p | p in ps) == m.bundles;
    }
  }

  lemma Registers(n: Node, ps: seq<Path>)
    requires ps != []
    ensures n.bundles + {ps[0]} + (set p | p in ps[1..]) == n.bundles + set p | p in ps
  {
    assert ps == [ps[0]] + ps[1..];
  }

  lemma BundleWritten(f: map<Path, File>, q: Path, c: Cert, p: Path)
    requires Readable(f, q)
    ensures var g := f[q := CertFile(Upsert(BundleAt(f, q), c))];
            && (Readable(g, p) <==> Readable(f, p))
            && Upsert(BundleAt(g, p), c) == Upsert(BundleAt(f, p), c)
  {
    UpsertTwice(BundleAt(f, q), c);
  }

  /** Every listed file is updated once, however often it is listed, and no other file is touched; the call fails
      exactly when one of them is not a certificate file. */
  lemma {:induction false} AddToBundlesFiles(n: Node, ps: seq<Path>, w: World)
    ensures AddToBundles(n, ps, w).Ok? <==> forall p :: p in ps ==> Readable(w.files, p)
    ensures AddToBundles(n, ps, w).Ok? ==>
              var o := AddToBundles(n, ps, w);
              && o.node == n.(bundles := n.bundles + set p | p in ps) && o.w == w.(files := o.w.files)
              && (forall p :: p in ps ==>
                    p in o.w.files && o.w.files[p] == CertFile(Upsert(BundleAt(w.files, p), n.ca.cert)))
              && (forall p :: p !in ps ==> SameAt(w.files, o.w.files, p))
    decreases |ps|
  {
    hide Upsert, Readable, BundleAt;
    if ps == [] {
      assert n.bundles + (set p | p in ps) == n.bundles;
    } else {
      assert ps == [ps[0]] + ps[1..];
      if Readable(w.files, ps[0]) {
        var w1 := w.(files := w.files[ps[0] := CertFile(Upsert(BundleAt(w.files, ps[0]), n.ca.cert))]);
        Registers(n, ps);
        forall p ensures (Readable(w1.files, p) <==> Readable(w.files, p)) &&
                         Upsert(BundleAt(w1.files, p), n.ca.cert) == Upsert(BundleAt(w.files, p), n.ca.cert) {
          BundleWritten(w.files, ps[0], n.ca.cert, p);
        }
        AddToBundlesFiles(n.(bundles := n.bundles + {ps[0]}), ps[1..], w1);
      }
    }
  }

  /** A call of AddToBundles is one map update for each listed file, and a second call is the identity. */
  lemma AddToBundlesRefines(n: Node, ps: seq<Path>, w: World)
    requires AddToBundles(n, ps, w).Ok?
    ensures var o := AddToBundles(n, ps, w);
            && (forall p :: p in ps && UniqueKeys(BundleAt(w.files, p)) ==>
                  && UniqueKeys(BundleAt(o.w.files, p))
                  && AsMap(BundleAt(o.w.files, p)) == AsMap(BundleAt(w.files, p))[KeyOf(n.ca.cert) := n.ca.cert])
            && (forall p :: p !in ps ==> SameAt(w.files, o.w.files, p))
            && AddToBundles(o.node, ps, o.w) == o
  {
    hide Upsert, UniqueKeys, AsMap, AddToBundles, Holds;
    AddToBundlesFiles(n, ps, w);
    var o := AddToBundles(n, ps, w);
    forall p | p in ps && UniqueKeys(BundleAt(w.files, p))
      ensures UniqueKeys(BundleAt(o.w.files, p))
      ensures AsMap(BundleAt(o.w.files, p)) == AsMap(BundleAt(w.files, p))[KeyOf(n.ca.cert) := n.ca.cert]
    {
      UpsertRefinesMap(BundleAt(w.files, p), n.ca.cert);
    }
    AddToBundlesHolds(n, ps, w);
    BundlesAgain(o.node, ps, o.w);
    assert o.node.bundles + (set p | p in ps) == o.node.bundles;
  }

  /* ---- claims: which entry of which bundle a signer maintains ---- */

  datatype Claim = Claim(path: Path, key: Key)

  ghost function OwnClaims(sh: Shape, subject: Name, issuer: Name): set<Claim> {
    set p | p in sh.bundles :: Claim(p, Key(subject, issuer))
  }

  /** The claims of a subtree whose signer goes by `subject`, issued by `issuer`. */
  ghost function ClaimsAs(sh: Shape, subject: Name, issuer: Name): set<Claim>
    decreases sh, 1
  {
    OwnClaims(sh, subject, issuer) + SubClaims(sh, subject)
  }

  ghost function SubClaims(sh: Shape, subject: Name): set<Claim>
    decreases sh, 0
  {
    set k, x | k in sh.subs && x in Claims(sh.subs[k], subject) :: x
  }

  /** A sub-CA goes by its own name. */
  ghost function Claims(sh: Shape, issuer: Name): set<Claim>
    decreases sh, 2
  {
    ClaimsAs(sh, CN(sh.name), issuer)
  }

  /** No two signers of the subtree maintain the same entry of the same bundle. */
  ghost predicate NoClashAs(sh: Shape, subject: Name, issuer: Name)
    decreases sh, 1
  {
    OwnClaims(sh, subject, issuer) !! SubClaims(sh, subject) && SubsNoClash(sh, subject)
  }

  ghost predicate SubsNoClash(sh: Shape, subject: Name)
    decreases sh, 0
  {
    && (forall k :: k in sh.subs ==> NoClashAs(sh.subs[k], CN(sh.subs[k].name), subject))
    && (forall k, l :: k in sh.subs && l in sh.subs && k != l ==>
        Claims(sh.subs[k], subject) !! Claims(sh.subs[l], subject))
  }

  /** Every bundle registered in the subtree holds the registering signer's current certificate. */
  ghost predicate BundlesFresh(n: Node, f: map<Path, File>) {
    && (forall p :: p in n.bundles ==> Holds(f, p, n.ca.cert))
    && (forall k :: k in n.subs ==> BundlesFresh(n.subs[k], f))
  }

  /** Sub-CAs go by their names and carry their parent's subject as issuer. */
  ghost predicate Named(n: Node) {
    forall k :: k in n.subs ==>
      KeyOf(n.subs[k].ca.cert) == Key(CN(n.subs[k].name), n.ca.cert.subject) && Named(n.subs[k])
  }

  lemma {:induction false} SoundNamed(n: Node, files: map<Path, File>, next: nat)
    requires Sound(n, files, next)
    ensures Named(n)
  {
    forall k | k in n.subs
      ensures KeyOf(n.subs[k].ca.cert) == Key(CN(n.subs[k].name), n.ca.cert.subject) && Named(n.subs[k])
    {
      assert SoundSub(n, k, files, next);
      SoundNamed(n.subs[k], files, next);
    }
  }

  ghost function NodeClaims(n: Node): set<Claim> {
    ClaimsAs(NodeShape(n), n.ca.cert.subject, n.ca.cert.issuerName)
  }

  /** Outside the region of `sh`, every entry not among the claims survives. */
  ghost predicate KeepsOthers(f: map<Path, File>, g: map<Path, File>, sh: Shape, claims: set<Claim>) {
    forall p, c :: Holds(f, p, c) && !Within(sh, p) && Claim(p, KeyOf(c)) !in claims ==> Holds(g, p, c)
  }

  lemma SubClaimsOf(sh: Shape, k: string, subject: Name)
    requires k in sh.subs
    ensures Claims(sh.subs[k], subject) <= SubClaims(sh, subject)
  {
  }

  lemma SubNodeClaims(n: Node, k: string)
    requires Named(n) && k in n.subs
    ensures NodeClaims(n.subs[k]) == Claims(NodeShape(n).subs[k], n.ca.cert.subject)
    ensures NodeClaims(n.subs[k]) <= NodeClaims(n)
  {
    hide ClaimsAs, Named;
    NamedAt(n, k);
    NodeSubShape(n, k);
    DirOf(n.subs[k]);
    ClaimsContain(NodeShape(n), k, n.ca.cert.subject, n.ca.cert.issuerName);
  }

  lemma NamedAt(n: Node, k: string)
    requires Named(n) && k in n.subs
    ensures KeyOf(n.subs[k].ca.cert) == Key(CN(n.subs[k].name), n.ca.cert.subject) && Named(n.subs[k])
  {
  }

  lemma ClaimsContain(sh: Shape, k: string, subject: Name, issuer: Name)
    requires k in sh.subs
    ensures Claims(sh.subs[k], subject) <= ClaimsAs(sh, subject, issuer)
  {
  }

  /** A subtree's bundles stay fresh while entries claimed by others are written. */
  lemma {:induction false} FreshKept(n: Node, f: map<Path, File>, g: map<Path, File>, sh: Shape, claims: set<Claim>)
    requires BundlesFresh(n, f) && Named(n) && KeepsOthers(f, g, sh, claims) && claims !! NodeClaims(n)
    requires forall p :: p in Bundles(NodeShape(n)) ==> !Within(sh, p)
    ensures BundlesFresh(n, g)
  {
    forall p | p in n.bundles ensures Holds(g, p, n.ca.cert) {
      assert p in Bundles(NodeShape(n));
      assert Claim(p, KeyOf(n.ca.cert)) in NodeClaims(n);
    }
    forall k | k in n.subs ensures BundlesFresh(n.subs[k], g) {
      SubNodeClaims(n, k);
      NodeSubShape(n, k);
      SubWithin(NodeShape(n), k);
      FreshKept(n.subs[k], f, g, sh, claims);
    }
  }

  lemma KeepsTwice(f: map<Path, File>, g: map<Path, File>, h: map<Path, File>, sh: Shape, cs: set<Claim>,
                   ds: set<Claim>)
    requires KeepsOthers(f, g, sh, cs) && KeepsOthers(g, h, sh, ds)
    ensures KeepsOthers(f, h, sh, cs + ds)
  {
  }

  lemma KeepsSame(f: map<Path, File>, g: map<Path, File>, sh: Shape)
    requires forall p :: !Within(sh, p) ==> SameAt(f, g, p)
    ensures KeepsOthers(f, g, sh, {})
  {
  }

  lemma KeepsWider(f: map<Path, File>, g: map<Path, File>, sh: Shape, k: string, cs: set<Claim>, ds: set<Claim>)
    requires k in sh.subs && KeepsOthers(f, g, sh.subs[k], cs) && cs <= ds
    ensures KeepsOthers(f, g, sh, ds)
  {
  }
}
