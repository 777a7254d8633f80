/** CertificateSigner as the mutable object it is, over a mutable disk: every method is proved against the functions of
    module Tree. */
module Signer {
  import opened Base
  import opened Pki
  import opened Tree
  import opened Rebuilding

  /** The file system, the supply of fresh identities and the clock. */
  class Disk {
    var files: map<Path, File>
    var next: nat
    var now: int

    function State(): World
      reads this
    {
      World(files, next, now)
    }

    method RemoveAll(dir: Path)
      modifies this
      ensures State() == old(State()).(files := Pki.RemoveAll(old(files), dir))
    {
      files := map p | p in files && !(dir <= p) :: files[p];
    }

    method EnsureCA(ci: CAInfo) returns (ca: Tls)
      modifies this
      ensures (ca, State()) == Pki.EnsureCA(ci, old(State()))
    {
      var found := GetCA(files, ci.certFile, ci.keyFile, ci.serialFile);
      if found.Some? {
        return found.value;
      }
      ca := Tls(MakeCert(State(), next, CN(ci.name), CN(ci.name), CADays(ci.days)), []);
      files := PutTls(files, ci.certFile, ci.keyFile, ca)[ci.serialFile := SerialFile];
      next := next + 1;
    }

    /** The pair on disk for a request, or a new one. */
    method EnsureLeaf(ca: Tls, dir: Path, csr: Csr) returns (tls: Tls)
      modifies this
      ensures GetLeaf(old(files), dir, csr).Some? ==>
                tls == GetLeaf(old(files), dir, csr).value && State() == old(State())
      ensures GetLeaf(old(files), dir, csr) == None ==>
                && tls == IssueLeaf(ca, csr, old(State()))
                && State() == old(State()).(files := PutTls(old(files), LeafCertPath(dir, csr), LeafKeyPath(dir, csr),
                                                            tls), next := old(next) + 1)
      ensures SaysEnough(tls.cert, csr)
      ensures !(csr.Peer? && GetLeaf(old(files), dir, csr).Some?) ==> Says(tls.cert, csr)
    {
      hide GetLeaf;
      FoundSays(files, dir, csr);
      var found := GetLeaf(files, dir, csr);
      if found.Some? {
        return found.value;
      }
      IssuedSays(ca, csr, State());
      var subject;
      match csr {
        case Client(_, _, u) => subject := UserToSubject(u);
        case Serving(_, _, hosts) => subject := CN(if hosts == [] then "" else hosts[0]);
        case Peer(_, _, u, _) => subject := UserToSubject(u);
      }
      tls := Tls(MakeCert(State(), ca.cert.id, subject, ca.cert.subject, CsrDays(csr)).(hosts := CsrHosts(csr)),
                 if csr.Client? then [] else ca.Pem());
      files := PutTls(files, LeafCertPath(dir, csr), LeafKeyPath(dir, csr), tls);
      next := next + 1;
    }

    method EnsureSubCA(parent: Tls, name: string, dir: Path, days: int) returns (ca: Tls)
      modifies this
      ensures (ca, State()) == Pki.EnsureSubCA(parent, name, dir, days, old(State()))
    {
      var found := GetSubCA(files, dir);
      if found.Some? {
        ca := found.value;
      } else {
        ca := Tls(MakeCert(State(), parent.cert.id, CN(name), parent.cert.subject, days), parent.Pem());
        files := PutTls(files, CABundlePath(dir), CAKeyPath(dir), ca)[CASerialsPath(dir) := SerialFile];
        next := next + 1;
      }
      files := files[CACertPath(dir) := CertFile([ca.cert])];
    }
  }

  lemma {:induction false} UpsertFirstMatch(certs: seq<Cert>, c: Cert, i: nat)
    requires i <= |certs| && forall j :: 0 <= j < i ==> KeyOf(certs[j]) != KeyOf(c)
    requires i < |certs| ==> KeyOf(certs[i]) == KeyOf(c)
    ensures Upsert(certs, c) == if i < |certs| then certs[i := c] else certs + [c]
  {
    if i > 0 {
      UpsertFirstMatch(certs[1..], c, i - 1);
    } else if certs != [] {
      assert certs[0 := c] == [c] + certs[1..];
    }
  }

  lemma NoCsrs()
    ensures CsrsByName([]) == map[] && DistinctCsrs([])
  {
  }

  /** The requests of a set of recorded certificates, in an arbitrary order. */
  method CsrsOf(leaves: map<string, Leaf>) returns (csrs: seq<Csr>)
    requires forall k :: k in leaves ==> leaves[k].csr.name == k
    ensures DistinctCsrs(csrs) && CsrsByName(csrs) == map k | k in leaves :: leaves[k].csr
  {
    hide CsrsByName, DistinctCsrs;
    csrs := [];
    NoCsrs();
    var todo := leaves.Keys;
    while todo != {}
      invariant todo <= leaves.Keys && DistinctCsrs(csrs) && CsrsByName(csrs).Keys == leaves.Keys - todo
      invariant forall k :: k in CsrsByName(csrs) ==> CsrsByName(csrs)[k] == leaves[k].csr
      decreases |todo|
    {
      var k :| k in todo;
      AppendCsr(csrs, leaves[k].csr);
      csrs, todo := csrs + [leaves[k].csr], todo - {k};
    }
  }

  class CertificateSigner {
    var signerName: string
    var signerConfig: Tls
    var signerDir: Path
    var signerValidityDays: int
    var subCAs: map<string, CertificateSigner>
    var signedCertificates: map<string, Leaf>
    var caBundlePaths: set<Path>
    ghost var Repr: set<CertificateSigner>

    /** Sub-CAs own disjoint parts of the heap; both maps are keyed by name. */
    ghost predicate Valid()
      reads this, Repr
      decreases Repr
    {
      && this in Repr
      && (forall k :: k in subCAs ==>
            && subCAs[k] in Repr && subCAs[k].Repr <= Repr && this !in subCAs[k].Repr
            && subCAs[k].Valid() && subCAs[k].signerName == k)
      && (forall k, l :: k in subCAs && l in subCAs && k != l ==> subCAs[k].Repr !! subCAs[l].Repr)
      && (forall k :: k in signedCertificates ==> signedCertificates[k].csr.name == k)
    }

    ghost function Model(): Node
      requires Valid()
      reads this, Repr
      decreases Repr
    {
      Node(signerName, signerConfig, signerDir, signerValidityDays,
           map k | k in subCAs :: subCAs[k].Model(), signedCertificates, caBundlePaths)
    }

    constructor (name: string, ca: Tls, dir: Path, days: int)
      ensures Valid() && fresh(Repr) && Repr == {this}
      ensures Model() == Node(name, ca, dir, days, map[], map[], {})
    {
      signerName, signerConfig, signerDir, signerValidityDays := name, ca, dir, days;
      subCAs, signedCertificates, caBundlePaths := map[], map[], {};
      Repr := {this};
    }

    /** Nothing below this signer changed. */
    twostate lemma ChildrenKept()
      requires old(Valid()) && subCAs == old(subCAs) && Repr == old(Repr)
      requires forall o :: o in Repr && o != this ==> unchanged(o)
      requires forall k :: k in signedCertificates ==> signedCertificates[k].csr.name == k
      ensures Valid() && Model().subs == old(Model()).subs
    {
      forall k | k in subCAs ensures subCAs[k].Valid() && subCAs[k].Model() == old(subCAs[k].Model()) {
        SignerKept(subCAs[k]);
      }
    }

    static twostate lemma SignerKept(c: CertificateSigner)
      requires old(c.Valid()) && forall o :: o in old(c.Repr) ==> unchanged(o)
      ensures c.Valid() && c.Model() == old(c.Model())
    {
    }

    /* ---- certificates ---- */

    method SignCertificate(csr: Csr, disk: Disk)
      requires Valid()
      modifies this, disk
      ensures Valid() && Repr == old(Repr) && signerName == old(signerName)
      ensures (Model(), disk.State()) == Tree.SignCertificate(old(Model()), csr, old(disk.State()))
      ensures !(csr.Peer? && GetLeaf(old(disk.files), old(signerDir), csr).Some?) ==>
                && csr.name in signedCertificates && signedCertificates[csr.name].csr == csr
                && Says(signedCertificates[csr.name].tls.cert, csr)
    {
      hide GetLeaf, Says, SaysEnough;
      if csr.Peer? && GetLeaf(disk.files, signerDir, csr).Some? {
        return;
      }
      var tls := disk.EnsureLeaf(signerConfig, signerDir, csr);
      signedCertificates := signedCertificates[csr.name := Leaf(csr, tls)];
      ChildrenKept();
    }

    /** The scan of one bundle for an entry with the certificate's subject and issuer. */
    static method Replace(certs: seq<Cert>, c: Cert) returns (r: seq<Cert>)
      ensures r == Upsert(certs, c)
    {
      for i := 0 to |certs|
        invariant forall j :: 0 <= j < i ==> KeyOf(certs[j]) != KeyOf(c)
      {
        if certs[i].subject == c.subject && certs[i].issuerName == c.issuerName {
          UpsertFirstMatch(certs, c, i);
          return certs[i := c];
        }
      }
      UpsertFirstMatch(certs, c, |certs|);
      r := certs + [c];
    }

    method AddToBundle(p: Path, disk: Disk)
      requires Valid() && Readable(disk.files, p)
      modifies this, disk
      ensures Valid() && Repr == old(Repr)
      ensures Model() == old(Model()).(bundles := old(caBundlePaths) + {p})
      ensures disk.State() == old(disk.State()).(files := old(disk.files)[p := CertFile(Upsert(BundleAt(old(disk.files),
                p), signerConfig.cert))])
      ensures signerConfig == old(signerConfig) && subCAs == old(subCAs) && signerName == old(signerName)
    {
      var certs := Replace(BundleAt(disk.files, p), signerConfig.cert);
      disk.files := disk.files[p := CertFile(certs)];
      caBundlePaths := caBundlePaths + {p};
      ChildrenKept();
    }

    method AddToBundles(bundlePaths: seq<Path>, disk: Disk) returns (err: Option<Error>)
      requires Valid()
      modifies this, disk
      ensures Valid() && Repr == old(Repr) && subCAs == old(subCAs) && signerName == old(signerName)
      ensures err == None ==>
                Tree.AddToBundles(old(Model()), bundlePaths, old(disk.State())) == Ok(Model(), disk.State())
      ensures err.Some? ==> Tree.AddToBundles(old(Model()), bundlePaths, old(disk.State())) == Err(err.value)
    {
      for i := 0 to |bundlePaths|
        invariant Valid() && Repr == old(Repr) && subCAs == old(subCAs) && signerName == old(signerName)
        invariant Tree.AddToBundles(old(Model()), bundlePaths, old(disk.State())) ==
                  Tree.AddToBundles(Model(), bundlePaths[i..], disk.State())
      {
        var p := bundlePaths[i];
        assert bundlePaths[i..][0] == p && bundlePaths[i..][1..] == bundlePaths[i + 1..];
        if !Readable(disk.files, p) {
          return Some(BadBundle(p));
        }
        AddToBundle(p, disk);
      }
      err := None;
    }

    /* ---- sub-CAs ---- */

    twostate lemma SubJoinedValid(new c: CertificateSigner)
      requires old(Valid()) && c.Valid() && fresh(c.Repr)
      requires subCAs == old(subCAs)[c.signerName := c] && Repr == old(Repr) + c.Repr
      requires signedCertificates == old(signedCertificates)
      requires forall o :: o in old(Repr) && o != this ==> unchanged(o)
      ensures Valid()
    {
      forall k | k in subCAs
        ensures subCAs[k] in Repr && subCAs[k].Repr <= Repr && this !in subCAs[k].Repr && subCAs[k].Valid()
        ensures subCAs[k].signerName == k
      {
        if k != c.signerName {
          SignerKept(old(subCAs)[k]);
        }
      }
      forall k, l | k in subCAs && l in subCAs && k != l ensures subCAs[k].Repr !! subCAs[l].Repr {
        assert k != c.signerName ==> subCAs[k].Repr <= old(Repr);
        assert l != c.signerName ==> subCAs[l].Repr <= old(Repr);
      }
    }

    /** A fresh sub-CA joins the signer; its siblings are untouched. */
    twostate lemma SubJoined(new c: CertificateSigner)
      requires old(Valid()) && c.Valid() && fresh(c.Repr)
      requires subCAs == old(subCAs)[c.signerName := c] && Repr == old(Repr) + c.Repr
      requires signedCertificates == old(signedCertificates)
      requires forall o :: o in old(Repr) && o != this ==> unchanged(o)
      ensures Valid() && Model().subs == old(Model()).subs[c.signerName := c.Model()]
    {
      SubJoinedValid(c);
      var a, b := Model().subs, old(Model()).subs[c.signerName := c.Model()];
      forall k | k in a ensures k in b && a[k] == b[k] {
        if k != c.signerName {
          SignerKept(old(subCAs)[k]);
        }
      }
      assert a.Keys == b.Keys;
    }

    method SignSubCA(b: Builder, disk: Disk) returns (err: Option<Error>)
      requires Valid()
      modifies this, disk
      ensures Valid() && fresh(Repr - old(Repr)) && signerName == old(signerName)
      ensures err == None ==> Tree.SignSubCA(old(Model()), b, old(disk.State())) == Ok(Model(), disk.State())
      ensures err.Some? ==> Tree.SignSubCA(old(Model()), b, old(disk.State())) == Err(err.value)
      decreases b, 1
    {
      hide Model, Tree.Complete, Pki.EnsureSubCA;
      OwnFacts();
      var ca := disk.EnsureSubCA(signerConfig, b.name, b.dir, b.days);
      SignerKept(this);
      var c;
      err, c := Complete(b, Some(ca), disk);
      if err == None {
        subCAs := subCAs[c.signerName := c];
        Repr := Repr + c.Repr;
        SubJoined(c);
        OwnFacts();
        c.OwnFacts();
      }
    }

    /** certificateSigner.Complete: the CA, unless it has been set, then sub-CAs, certificates and bundles. */
    static method Complete(b: Builder, config: Option<Tls>, disk: Disk)
      returns (err: Option<Error>, s: CertificateSigner)
      requires config.Some? || b.caInfo.Some?
      modifies disk
      ensures s.Valid() && fresh(s.Repr)
      ensures var o := if config.Some? then Tree.Complete(b, config.value, old(disk.State()))
                       else CompleteRoot(b, old(disk.State()));
              o == if err.Some? then Err(err.value) else Ok(s.Model(), disk.State())
      decreases b, 0
    {
      hide Pki.EnsureCA;
      var ca;
      if config.Some? {
        ca := config.value;
      } else {
        ca := disk.EnsureCA(b.caInfo.value);
      }
      ghost var w := disk.State();
      s := new CertificateSigner(b.name, ca, b.dir, b.days);
      for i := 0 to |b.subs|
        invariant s.Valid() && fresh(s.Repr)
        invariant Tree.SignSubCAs(Empty(b, ca), b.subs, w) == Tree.SignSubCAs(s.Model(), b.subs[i..], disk.State())
      {
        assert b.subs[i..][0] == b.subs[i] && b.subs[i..][1..] == b.subs[i + 1..];
        err := s.SignSubCA(b.subs[i], disk);
        if err.Some? {
          return;
        }
      }
      assert b.subs[|b.subs|..] == [];
      ghost var n1, w1 := s.Model(), disk.State();
      for i := 0 to |b.csrs|
        invariant s.Valid() && fresh(s.Repr)
        invariant Tree.SignCertificates(n1, b.csrs, w1) == Tree.SignCertificates(s.Model(), b.csrs[i..], disk.State())
      {
        assert b.csrs[i..][0] == b.csrs[i] && b.csrs[i..][1..] == b.csrs[i + 1..];
        s.SignCertificate(b.csrs[i], disk);
      }
      assert b.csrs[|b.csrs|..] == [];
      err := s.AddToBundles(b.bundlePaths, disk);
    }

    /* ---- renewal ---- */

    lemma SubFacts(k: string)
      requires Valid() && k in subCAs
      ensures subCAs[k].Valid() && subCAs[k].Repr < Repr && this !in subCAs[k].Repr && subCAs[k].signerName == k
      ensures Model().subs.Keys == subCAs.Keys && Model().subs[k] == subCAs[k].Model()
      ensures Model().subs[k].name == k && subCAs[k].Model().dir == subCAs[k].signerDir
    {
    }

    lemma OwnFacts()
      requires Valid()
      ensures Model().subs.Keys == subCAs.Keys && Model().leaves == signedCertificates && Model().dir == signerDir
      ensures Model().ca == signerConfig && Model().bundles == caBundlePaths && Model().name == signerName
      ensures this in Repr
      ensures Model().days == signerValidityDays
      ensures forall k :: k in signedCertificates ==> signedCertificates[k].csr.name == k
    {
    }

    /** The builders of the sub-CAs, visited in an arbitrary order. */
    method SubBuilders() returns (bs: seq<Builder>)
      requires Valid()
      ensures Rebuilt(bs, Model(), subCAs.Keys)
      decreases Repr, 0
    {
      hide Valid, NodeShape, Model, Rebuilt, Rebuilds, BuilderShapes, AllWellNamed, WellNamed, BuilderShape;
      ghost var m := Model();
      bs := [];
      NoneRebuilt(m);
      var todo := subCAs.Keys;
      assert subCAs.Keys - todo == {};
      while todo != {}
        invariant todo <= subCAs.Keys && Rebuilt(bs, m, subCAs.Keys - todo)
        decreases |todo|
      {
        var k :| k in todo;
        SubFacts(k);
        var c := subCAs[k].ToBuilder();
        OneMoreRebuilt(bs, m, subCAs.Keys - todo, c, k);
        assert subCAs.Keys - (todo - {k}) == subCAs.Keys - todo + {k};
        bs, todo := bs + [c], todo - {k};
      }
      assert subCAs.Keys - todo == subCAs.Keys;
    }

    /** toBuilder: whatever order the maps are visited in, the builder asks for exactly what the live signer has. */
    method ToBuilder() returns (b: Builder)
      requires Valid()
      ensures Rebuilds(b, Model()) && b.caInfo == None
      decreases Repr, 1
    {
      hide Valid, Model, NodeShape, BuilderShapes, AllWellNamed;
      OwnFacts();
      var bs := SubBuilders();
      var csrs := CsrsOf(signedCertificates);
      var ps := Enumerate(caBundlePaths);
      b := Builder(signerName, signerDir, signerValidityDays, None, bs, csrs, ps);
      SameShape(b);
    }

    lemma SameShape(b: Builder)
      requires Valid()
      requires b.name == signerName && b.dir == signerDir && b.days == signerValidityDays
      requires Rebuilt(b.subs, Model(), subCAs.Keys)
      requires CsrsByName(b.csrs) == map k | k in signedCertificates :: signedCertificates[k].csr
      requires Enumerates(b.bundlePaths, caBundlePaths)
      ensures BuilderShape(b) == NodeShape(Model())
    {
      hide Valid, BuilderShapes;
      var s := NodeShape(Model());
      assert s.subs == BuilderShapes(b.subs);
      assert (set p | p in b.bundlePaths) == caBundlePaths;
    }

    method RegenerateSubCA(name: string, disk: Disk) returns (err: Option<Error>, ghost b: Builder)
      requires Valid()
      modifies this, disk
      ensures Valid() && fresh(Repr - old(Repr)) && signerName == old(signerName)
      ensures name in old(subCAs) ==> Rebuilds(b, old(Model()).subs[name])
      ensures name !in old(subCAs) ==> Model() == old(Model()) && disk.State() == old(disk.State())
      ensures err == None ==> RenewSubCA(old(Model()), name, b, old(disk.State())) == Ok(Model(), disk.State())
      ensures err.Some? ==> RenewSubCA(old(Model()), name, b, old(disk.State())) == Err(err.value)
    {
      hide Valid, Model, Rebuilds, Tree.SignSubCA;
      OwnFacts();
      if name !in subCAs {
        b := Builder("", [], 0, None, [], [], []);
        return Some(SignerNotFound(name)), b;
      }
      SubFacts(name);
      disk.RemoveAll(subCAs[name].signerDir);
      SignerKept(this);
      SubFacts(name);
      var builder := subCAs[name].ToBuilder();
      b := builder;
      err := SignSubCA(builder, disk);
    }

    method RegenerateCertificate(name: string, disk: Disk) returns (err: Option<Error>)
      requires Valid()
      modifies this, disk
      ensures Valid() && Repr == old(Repr) && signerName == old(signerName)
      ensures err == None ==> RenewCertificate(old(Model()), name, old(disk.State())) == Ok(Model(), disk.State())
      ensures err.Some? ==> RenewCertificate(old(Model()), name, old(disk.State())) == Err(err.value)
    {
      hide Valid, Model, Tree.SignCertificate;
      OwnFacts();
      if name !in signedCertificates {
        return Some(NoCertificate(name));
      }
      var csr := signedCertificates[name].csr;
      disk.RemoveAll(LeafDir(signerDir, csr.name));
      SignerKept(this);
      SignCertificate(csr, disk);
      err := None;
    }

    method RegenerateSelf(disk: Disk) returns (err: Option<Error>, ghost order: seq<Path>)
      requires Valid()
      modifies this, disk
      ensures Valid() && Repr == old(Repr) && signerName == old(signerName) && subCAs == old(subCAs)
      ensures Enumerates(order, old(caBundlePaths))
      ensures err == None ==> RenewSelf(old(Model()), order, old(disk.State())) == Ok(Model(), disk.State())
      ensures err.Some? ==> RenewSelf(old(Model()), order, old(disk.State())) == Err(err.value)
    {
      hide Valid, Model, Tree.AddToBundles, Pki.EnsureCA;
      RegenerateConfig(disk);
      var paths := Enumerate(caBundlePaths);
      order := paths;
      err := AddToBundles(paths, disk);
    }

    /** The first half of regenerateSelf: a new self-signed CA in an emptied directory. */
    method RegenerateConfig(disk: Disk)
      requires Valid()
      modifies this, disk
      ensures Valid() && Repr == old(Repr) && signerName == old(signerName) && subCAs == old(subCAs)
      ensures caBundlePaths == old(caBundlePaths)
      ensures var w0 := old(disk.State()).(files := Pki.RemoveAll(old(disk.files), old(signerDir)));
              var (ca, w1) := Pki.EnsureCA(OwnCAInfo(old(Model())), w0);
              Model() == old(Model()).(ca := ca) && disk.State() == w1
      ensures old(Model()).dir == old(signerDir) && old(Model()).bundles == old(caBundlePaths)
    {
      disk.RemoveAll(signerDir);
      signerConfig := disk.EnsureCA(CAInfo(signerName, signerValidityDays, CACertPath(signerDir), CAKeyPath(signerDir),
                                           CASerialsPath(signerDir)));
      ChildrenKept();
    }

    lemma ModelKeyed()
      requires Valid()
      ensures Keyed(Model())
      decreases Repr
    {
      forall k | k in subCAs ensures Keyed(subCAs[k].Model()) {
        subCAs[k].ModelKeyed();
      }
    }

    /** The loop over the sub-CAs, in name order. */
    method RegenerateSubCAs(disk: Disk) returns (err: Option<Error>, ghost bs: seq<Builder>)
      requires Valid()
      modifies this, disk
      ensures Valid() && fresh(Repr - old(Repr)) && signerName == old(signerName)
      ensures RebuildsEach(bs, old(Model()), Sorted(old(Model()).subs.Keys))
      ensures err == None ==>
                RenewSubCAs(old(Model()), Sorted(old(Model()).subs.Keys), bs, old(disk.State())) ==
                Ok(Model(), disk.State())
      ensures err.Some? ==>
                RenewSubCAs(old(Model()), Sorted(old(Model()).subs.Keys), bs, old(disk.State())) == Err(err.value)
    {
      hide Valid, Model, RenewSubCAs, RenewSubCA, Rebuilds, RebuildsEach, Sorted, Keyed, RenewedUpTo;
      ghost var n, w := Model(), disk.State();
      ModelKeyed();
      OwnFacts();
      var names := SortedKeys(subCAs.Keys);
      SortedDistinct(subCAs.Keys);
      bs := [];
      NoneRenewed(n, names, w);
      for i := 0 to |names|
        invariant Valid() && fresh(Repr - old(Repr)) && signerName == old(signerName)
        invariant RenewedUpTo(n, names, i, bs, w, Model(), disk.State())
      {
        err, bs := RegenerateNext(n, names, i, bs, w, disk);
        if err.Some? {
          return;
        }
      }
      RenewedAll(n, names, bs, w, Model(), disk.State());
      err := None;
    }

    /** One round of the loop over the sub-CAs. */
    method RegenerateNext(ghost n: Node, names: seq<string>, i: nat, ghost done: seq<Builder>, ghost w: World,
                          disk: Disk)
      returns (err: Option<Error>, ghost bs: seq<Builder>)
      requires Valid() && i < |names| && RenewedUpTo(n, names, i, done, w, Model(), disk.State()) && Keyed(n)
      requires (forall k :: k in names ==> k in n.subs) && forall j, l :: 0 <= j < l < |names| ==> names[j] != names[l]
      modifies this, disk
      ensures Valid() && fresh(Repr - old(Repr)) && signerName == old(signerName)
      ensures err == None ==> RenewedUpTo(n, names, i + 1, bs, w, Model(), disk.State())
      ensures err.Some? ==> RebuildsEach(bs, n, names) && RenewSubCAs(n, names, bs, w) == Err(err.value)
    {
      hide Valid, Model, RenewSubCAs, RenewSubCA, Rebuilds, RebuildsEach, Keyed, RenewedUpTo;
      ghost var m, w1 := Model(), disk.State();
      OwnFacts();
      NextToRenew(n, names, i, done, w, m, w1);
      ghost var b;
      err, b := RegenerateSubCA(names[i], disk);
      OneMoreRenewed(n, names, i, done, w, m, w1, b);
      bs := done + [b];
      if err.Some? {
        bs := StoppedEarly(n, names, i + 1, bs, w);
      }
    }

    /** The loop over the certificates, in name order. */
    method RegenerateCertificates(disk: Disk) returns (err: Option<Error>)
      requires Valid()
      modifies this, disk
      ensures Valid() && Repr == old(Repr) && signerName == old(signerName)
      ensures err == None ==>
                RenewCertificates(old(Model()), Sorted(old(Model()).leaves.Keys), old(disk.State())) ==
                Ok(Model(), disk.State())
      ensures err.Some? ==>
                RenewCertificates(old(Model()), Sorted(old(Model()).leaves.Keys), old(disk.State())) == Err(err.value)
    {
      hide Valid, Model, RenewCertificate, RenewCertificates, Sorted;
      ghost var n, w := Model(), disk.State();
      OwnFacts();
      var names := SortedKeys(signedCertificates.Keys);
      for i := 0 to |names|
        invariant Valid() && Repr == old(Repr) && signerName == old(signerName)
        invariant RenewCertificates(n, names, w) == RenewCertificates(Model(), names[i..], disk.State())
      {
        assert names[i..][0] == names[i] && names[i..][1..] == names[i + 1..];
        RenewCertificatesStep(Model(), names[i..], disk.State());
        err := RegenerateCertificate(names[i], disk);
        if err.Some? {
          return;
        }
      }
      RenewCertificatesStep(Model(), [], disk.State());
      err := None;
    }

    /** Regenerate without a path. */
    method RegenerateAll(disk: Disk) returns (err: Option<Error>, ghost ch: Choices)
      requires Valid()
      modifies this, disk
      ensures Valid() && fresh(Repr - old(Repr)) && signerName == old(signerName)
      ensures Possible(old(Model()), [], ch)
      ensures err == None ==> RenewAll(old(Model()), ch, old(disk.State())) == Ok(Model(), disk.State())
      ensures err.Some? ==> RenewAll(old(Model()), ch, old(disk.State())) == Err(err.value)
    {
      hide Valid, Model, RenewSubCAs, RenewCertificates, RenewSelf, Rebuilds, Sorted, Keyed;
      OwnFacts();
      ModelKeyed();
      ghost var n, w := Model(), disk.State();
      ghost var order := EnumerationExists(caBundlePaths);
      ghost var bs;
      if signerConfig.chain == [] {
        err, order := RegenerateSelf(disk);
        RenewSelfKeeps(n, order, w);
        if err.Some? {
          bs := EachRebuilds(n, Sorted(n.subs.Keys));
          ch := Choices(bs, order);
          PossibleAll(n, n, bs, order);
          return;
        }
      }
      ghost var n1 := Model();
      err, bs := RegenerateSubCAs(disk);
      ch := Choices(bs, order);
      PossibleAll(n, n1, bs, order);
      if err == None {
        err := RegenerateCertificates(disk);
      }
    }

    twostate lemma SubChangedValid(k: string)
      requires old(Valid()) && subCAs == old(subCAs) && signedCertificates == old(signedCertificates) && k in subCAs
      requires subCAs[k].Valid() && subCAs[k].signerName == k && fresh(subCAs[k].Repr - old(subCAs[k].Repr))
      requires Repr == old(Repr) + subCAs[k].Repr
      requires forall o :: o in old(Repr) && o !in old(subCAs[k].Repr) && o != this ==> unchanged(o)
      ensures Valid()
    {
      forall l | l in subCAs
        ensures subCAs[l] in Repr && subCAs[l].Repr <= Repr && this !in subCAs[l].Repr && subCAs[l].Valid()
        ensures subCAs[l].signerName == l
        ensures l != k ==> subCAs[l].Repr == old(subCAs[l].Repr)
      {
        if l != k {
          assert old(subCAs[l].Repr) !! old(subCAs[k].Repr);
          SignerKept(subCAs[l]);
        }
      }
      forall l, m | l in subCAs && m in subCAs && l != m ensures subCAs[l].Repr !! subCAs[m].Repr {
        assert old(subCAs[l].Repr) !! old(subCAs[m].Repr);
      }
    }

    twostate lemma SubChangedModel(k: string)
      requires old(Valid()) && Valid() && subCAs == old(subCAs) && k in subCAs
      requires forall l :: l in subCAs && l != k ==> subCAs[l].Model() == old(subCAs[l].Model())
      ensures Model().subs == old(Model()).subs[k := subCAs[k].Model()]
    {
    }

    /** A sub-CA changed in place, and nothing else did. */
    twostate lemma SubChanged(k: string)
      requires old(Valid()) && subCAs == old(subCAs) && signedCertificates == old(signedCertificates) && k in subCAs
      requires subCAs[k].Valid() && subCAs[k].signerName == k && fresh(subCAs[k].Repr - old(subCAs[k].Repr))
      requires Repr == old(Repr) + subCAs[k].Repr
      requires forall o :: o in old(Repr) && o !in old(subCAs[k].Repr) && o != this ==> unchanged(o)
      ensures Valid() && Model().subs == old(Model()).subs[k := subCAs[k].Model()]
    {
      SubChangedValid(k);
      forall l | l in subCAs && l != k ensures subCAs[l].Model() == old(subCAs[l].Model()) {
        hide Model;
        assert old(subCAs[l].Repr) !! old(subCAs[k].Repr);
        SignerKept(subCAs[l]);
      }
      SubChangedModel(k);
    }

    /** Regenerate: the whole signer, a direct sub-CA or certificate, or a forwarded path. */
    method Regenerate(certPath: Path, disk: Disk) returns (err: Option<Error>, ghost ch: Choices)
      requires Valid()
      modifies Repr, disk
      ensures Valid() && fresh(Repr - old(Repr)) && signerName == old(signerName)
      ensures Possible(old(Model()), certPath, ch)
      ensures err == None ==>
                Tree.Regenerate(old(Model()), certPath, ch, old(disk.State())) == Ok(Model(), disk.State())
      ensures err.Some? ==> Tree.Regenerate(old(Model()), certPath, ch, old(disk.State())) == Err(err.value)
      decreases |certPath|
    {
      hide Valid, Model, RenewAll, RenewSubCA, RenewCertificate, Rebuilds;
      OwnFacts();
      if |certPath| == 0 {
        err, ch := RegenerateAll(disk);
      } else if |certPath| == 1 {
        ghost var n, w := Model(), disk.State();
        ghost var b;
        err, b := RegenerateSubCA(certPath[0], disk);
        NotFoundIff(n, certPath[0], b, w);
        ch := Choices([b], []);
        if err.Some? && err.value.SignerNotFound? {
          err := RegenerateCertificate(certPath[0], disk);
        }
      } else if certPath[0] in subCAs {
        err, ch := RegenerateBelow(certPath, disk);
      } else {
        ch := Choices([], []);
        err := Some(NotIntermediary(certPath[0]));
      }
    }

    method RegenerateBelow(certPath: Path, disk: Disk) returns (err: Option<Error>, ghost ch: Choices)
      requires Valid() && |certPath| >= 2 && certPath[0] in subCAs
      modifies Repr, disk
      ensures Valid() && fresh(Repr - old(Repr)) && signerName == old(signerName)
      ensures Possible(old(Model()), certPath, ch)
      ensures err == None ==>
                Tree.Regenerate(old(Model()), certPath, ch, old(disk.State())) == Ok(Model(), disk.State())
      ensures err.Some? ==> Tree.Regenerate(old(Model()), certPath, ch, old(disk.State())) == Err(err.value)
      decreases |certPath|, 0
    {
      hide Valid, Possible, Tree.Regenerate;
      OwnFacts();
      var subCA := subCAs[certPath[0]];
      SubFacts(certPath[0]);
      err, ch := subCA.Regenerate(certPath[1..], disk);
      Repr := Repr + subCA.Repr;
      SubChanged(certPath[0]);
      ForwardedBelow(old(Model()), certPath, ch, old(disk.State()));
    }
  }
}
