/** CertificateChains as a mutable object: lookups, the walk, renewal by path and the loop of InitCerts, each proved
    against the functions over values. */
module ChainsObject {
  import opened Base
  import opened Pki
  import opened Tree
  import opened Rebuilding
  import opened Signer
  import opened Chains
  import opened Walk
  import opened Rotation
  import opened ChainSetup

  class CertificateChains {
    var signers: map<string, CertificateSigner>
    ghost var Repr: set<CertificateSigner>

    ghost predicate Valid()
      reads this, Repr
    {
      && (forall k :: k in signers ==>
            signers[k] in Repr && signers[k].Repr <= Repr && signers[k].Valid() && signers[k].signerName == k)
      && (forall k, l :: k in signers && l in signers && k != l ==> signers[k].Repr !! signers[l].Repr)
    }

    ghost function Model(): Chains
      requires Valid()
      reads this, Repr
    {
      map k | k in signers :: signers[k].Model()
    }

    constructor ()
      ensures Valid() && fresh(Repr) && Model() == map[]
    {
      signers, Repr := map[], {};
    }

    lemma SignerFacts(k: string)
      requires Valid() && k in signers
      ensures signers[k].Valid() && signers[k].Repr <= Repr && signers[k] in Repr && signers[k].signerName == k
      ensures k in Model() && Model()[k] == signers[k].Model()
    {
    }

    lemma SignerNames()
      requires Valid()
      ensures Model().Keys == signers.Keys
    {
    }

    /* ---- lookups ---- */

    /** GetSigner: one step down the tree for each fragment after the first. */
    method GetSigner(signerPath: Path) returns (s: CertificateSigner?)
      requires Valid()
      ensures s == null <==> SignerAt(Model(), signerPath) == None
      ensures s != null ==> s in Repr && s.Valid() && s.Repr <= Repr && SignerAt(Model(), signerPath) == Some(s.Model())
    {
      hide CertificateSigner.Valid, CertificateSigner.Model, Valid, Model;
      SignerNames();
      if signerPath == [] || signerPath[0] !in signers {
        return null;
      }
      SignerFacts(signerPath[0]);
      s := signers[signerPath[0]];
      for i := 1 to |signerPath|
        invariant s in Repr && s.Valid() && s.Repr <= Repr
        invariant SignerAt(Model(), signerPath) == SubSigner(s.Model(), signerPath[i..])
      {
        assert signerPath[i..][0] == signerPath[i] && signerPath[i..][1..] == signerPath[i + 1..];
        s.OwnFacts();
        if signerPath[i] !in s.subCAs {
          return null;
        }
        s.SubFacts(signerPath[i]);
        s := s.subCAs[signerPath[i]];
      }
    }

    /** GetCertKey, up to encoding what it finds. */
    method GetCertKey(certPath: Path) returns (tls: Option<Tls>)
      requires Valid()
      ensures tls == match LeafAt(Model(), certPath) case None => None case Some(l) => Some(l.tls)
    {
      hide CertificateSigner.Valid, CertificateSigner.Model, Valid, Model;
      if |certPath| < 2 {
        return None;
      }
      var signer := GetSigner(certPath[..|certPath| - 1]);
      if signer == null {
        return None;
      }
      signer.OwnFacts();
      var name := certPath[|certPath| - 1];
      tls := if name in signer.signedCertificates then Some(signer.signedCertificates[name].tls) else None;
    }

    /* ---- the walk ---- */

    /** The names of a signer's sub-CAs, then those of its certificates. */
    static method NamesBelow(signer: CertificateSigner) returns (names: seq<string>)
      requires signer.Valid()
      ensures names == NextNames(signer.Model())
    {
      hide CertificateSigner.Valid, CertificateSigner.Model, Sorted;
      signer.OwnFacts();
      var subs := SortedKeys(signer.subCAs.Keys);
      var certs := SortedKeys(signer.signedCertificates.Keys);
      names := subs + certs;
    }

    /** WalkChains; the calls of the walk function are also returned. */
    method WalkChains(rootPath: Path, fn: Visit -> Option<Error>) returns (visits: seq<Visit>, err: Option<Error>)
      requires Valid()
      ensures match Walk.WalkChains(Model(), rootPath)
              case None => visits == [] && err.Some?
              case Some(vs) => visits == Made(vs, fn) && err == Failure(vs, fn)
      decreases Rank(Model(), rootPath).0, Rank(Model(), rootPath).1, 1
    {
      hide CertificateSigner.Valid, CertificateSigner.Model, Valid, Model, Sorted, NextNames, SignerAt, LeafAt;
      hide Walk.WalkChains, Walk.WalkEach, Walkable, Made, Failure, AllVisits, Traverse;
      SignerNames();
      WalkFrom(Model(), rootPath);
      WalkIsTraversal(Model(), rootPath);
      if rootPath == [] {
        var names := SortedKeys(signers.Keys);
        visits, err := WalkEach(rootPath, names, fn);
        return;
      }
      var signer := GetSigner(rootPath);
      if signer != null {
        signer.OwnFacts();
        var own := Visit(rootPath, signer.signerConfig.cert);
        var nextNames := NamesBelow(signer);
        ghost var below := Walk.WalkEach(Model(), rootPath, nextNames).value;
        OneMade(own, fn);
        MadeConcat([own], below, fn);
        visits, err := [own], fn(own);
        if err == None {
          var more;
          more, err := WalkEach(rootPath, nextNames, fn);
          visits := visits + more;
        }
      } else {
        var tls := GetCertKey(rootPath);
        if tls == None {
          return [], Some(NoCertificate(rootPath[|rootPath| - 1]));
        }
        var leaf := Visit(rootPath, tls.value.cert);
        OneMade(leaf, fn);
        visits, err := [leaf], fn(leaf);
      }
    }

    /** The loop over the next names, each resolved from the top again. */
    method WalkEach(rootPath: Path, names: seq<string>, fn: Visit -> Option<Error>)
      returns (visits: seq<Visit>, err: Option<Error>)
      requires Valid()
      requires Walkable(Model(), rootPath, names) && Walk.WalkEach(Model(), rootPath, names).Some?
      ensures var vs := Walk.WalkEach(Model(), rootPath, names).value; visits == Made(vs, fn) && err == Failure(vs, fn)
      decreases Rank(Model(), rootPath).0, Rank(Model(), rootPath).1, 0
    {
      hide Valid, Model, SignerAt, Walk.WalkChains, Walk.WalkEach, Made, Failure, MadeEach;
      visits, err := [], None;
      assert names[0..] == names;
      ghost var all := MadeEach(Model(), rootPath, names, fn, []);
      for i := 0 to |names|
        invariant Walk.WalkEach(Model(), rootPath, names[i..]).Some?
        invariant MadeEach(Model(), rootPath, names[i..], fn, visits) == all
      {
        assert names[i..][0] == names[i] && names[i..][1..] == names[i + 1..];
        SignerAtHead(Model(), rootPath, names[i]);
        MadeEachStep(Model(), rootPath, names[i..], fn, visits);
        var calls;
        calls, err := WalkChains(rootPath + [names[i]], fn);
        visits := visits + calls;
        if err.Some? {
          MadeEachWhole(Model(), rootPath, names, fn);
          return;
        }
      }
      MadeEachDone(Model(), rootPath, fn, visits);
      MadeEachWhole(Model(), rootPath, names, fn);
      err := None;
    }

    /** The whole walk, with a walk function that never fails. */
    method VisitAll() returns (visits: seq<Visit>)
      requires Valid()
      ensures visits == AllVisits(Model())
    {
      hide CertificateSigner.Valid, CertificateSigner.Model, Valid, Model, AllVisits, Walk.WalkChains, Made, Failure;
      WalkIsTraversal(Model(), []);
      var err;
      visits, err := WalkChains([], v => None);
      MadeMeans(AllVisits(Model()), v => None);
    }

    /** The walk function of certsToRegenerate: a path is appended once for each reason to renew its certificate. */
    static method Examine(regenCerts: seq<Path>, v: Visit, now: int) returns (r: seq<Path>)
      ensures r == regenCerts + DueEntries(v, now)
    {
      r := regenCerts;
      if now < v.cert.notBefore || now > v.cert.notAfter {
        r := r + [v.path];
      }
      var timeLeft := v.cert.notAfter - now;
      if IsCertShortLived(v.cert) {
        if timeLeft < 7 * MONTH {
          r := r + [v.path];
        }
      } else if timeLeft < 18 * MONTH {
        r := r + [v.path];
      }
    }

    /** certsToRegenerate at a fixed time. */
    method CertsToRegenerate(now: int) returns (regenCerts: seq<Path>)
      requires Valid()
      ensures regenCerts == Rotation.CertsToRegenerate(AllVisits(Model()), now)
    {
      hide CertificateSigner.Valid, CertificateSigner.Model, Valid, Model, AllVisits, DueEntries, Walk.WalkChains;
      var visits := VisitAll();
      regenCerts := [];
      for i := 0 to |visits|
        invariant Rotation.CertsToRegenerate(visits, now) == regenCerts + Rotation.CertsToRegenerate(visits[i..], now)
      {
        assert visits[i..][0] == visits[i] && visits[i..][1..] == visits[i + 1..];
        regenCerts := Examine(regenCerts, visits[i], now);
      }
    }

    /** WhenToRotateAtEarliest: provided no rotation date is the zero time, the first certificate in walk order with the
        least rotation date; while nothing is due, that date is at least 90 days ahead. */
    method WhenToRotateAtEarliest() returns (certPath: Path, rotationDate: int)
      requires Valid()
      ensures AllVisits(Model()) != [] && DatesSet(AllVisits(Model())) ==>
                && (exists i :: IsFirstLeast(AllVisits(Model()), i) && certPath == AllVisits(Model())[i].path
                                && rotationDate == RotateAt(AllVisits(Model())[i].cert))
                && (forall now :: Rotation.CertsToRegenerate(AllVisits(Model()), now) == [] ==>
                    rotationDate >= now + 3 * MONTH)
    {
      hide CertificateSigner.Valid, CertificateSigner.Model, Valid, Model, AllVisits, Walk.WalkChains, RotateAt;
      hide Rotation.CertsToRegenerate;
      var visits := VisitAll();
      certPath, rotationDate := Rotation.WhenToRotateAtEarliest(visits);
      if AllVisits(Model()) != [] && DatesSet(AllVisits(Model())) {
        ghost var i :| IsFirstLeast(AllVisits(Model()), i) && certPath == AllVisits(Model())[i].path
                       && rotationDate == RotateAt(AllVisits(Model())[i].cert);
        forall now | Rotation.CertsToRegenerate(AllVisits(Model()), now) == [] ensures rotationDate >= now + 3 * MONTH {
          RotationSlack(Model(), now, AllVisits(Model())[i]);
        }
      }
    }

    /* ---- renewal ---- */

    twostate lemma SignerChangedValid(k: string)
      requires old(Valid()) && signers == old(signers) && k in signers
      requires signers[k].Valid() && signers[k].signerName == k && fresh(signers[k].Repr - old(signers[k].Repr))
      requires Repr == old(Repr) + signers[k].Repr
      requires forall o :: o in old(Repr) && o !in old(signers[k].Repr) ==> unchanged(o)
      ensures Valid()
      ensures forall l :: l in signers && l != k ==> signers[l].Model() == old(signers[l].Model())
    {
      hide CertificateSigner.Model;
      forall l | l in signers
        ensures signers[l] in Repr && signers[l].Repr <= Repr && signers[l].Valid() && signers[l].signerName == l
        ensures l != k ==> signers[l].Repr == old(signers[l].Repr) && signers[l].Model() == old(signers[l].Model())
      {
        if l != k {
          assert old(signers[l].Repr) !! old(signers[k].Repr);
          CertificateSigner.SignerKept(signers[l]);
        } else {
          signers[k].OwnFacts();
        }
      }
      forall l, m | l in signers && m in signers && l != m ensures signers[l].Repr !! signers[m].Repr {
        assert old(signers[l].Repr) !! old(signers[m].Repr);
      }
    }

    /** CertificateChains.Regenerate; the source indexes the first fragment, so there must be one. */
    method Regenerate(certPath: Path, disk: Disk) returns (err: Option<Error>, ghost ch: Choices)
      requires Valid() && certPath != []
      modifies this, Repr, disk
      ensures Valid() && fresh(Repr - old(Repr))
      ensures ChainsPossible(old(Model()), certPath, ch)
      ensures err == None ==>
                RegenerateChains(old(Model()), certPath, ch, old(disk.State())) == COk(Model(), disk.State())
      ensures err.Some? ==> RegenerateChains(old(Model()), certPath, ch, old(disk.State())) == CErr(err.value)
    {
      hide CertificateSigner.Valid, CertificateSigner.Model, Possible, Tree.Regenerate;
      SignerNames();
      if certPath[0] !in signers {
        ch := Choices([], []);
        return Some(NoSuchSigner(certPath[0])), ch;
      }
      var signer := signers[certPath[0]];
      SignerFacts(certPath[0]);
      err, ch := signer.Regenerate(certPath[1..], disk);
      Repr := Repr + signer.Repr;
      SignerChangedValid(certPath[0]);
    }

    /** The loop of InitCerts: on an intact state it renews every path certsToRegenerate lists and never fails; when at
        least 210 days are asked for every certificate, nothing is left to renew. */
    method RenewDue(disk: Disk) returns (err: Option<Error>, ghost calls: seq<Call>)
      requires Valid() && Intact(Model(), disk.State())
      modifies this, Repr, disk
      ensures Valid() && fresh(Repr - old(Repr))
      ensures err == None && disk.now == old(disk.now)
      ensures InitCalls(old(Model()), disk.now, calls)
      ensures Run(old(Model()), old(disk.State()), calls, Model(), disk.State())
      ensures Intact(Model(), disk.State()) && SameShapes(old(Model()), Model())
      ensures ValidityOk(old(Model())) ==> Rotation.CertsToRegenerate(AllVisits(Model()), disk.now) == []
    {
      hide CertificateSigner.Valid, CertificateSigner.Model, Valid, Model, Intact, AllVisits, Run, RegenerateChains;
      hide SameShapes;
      hide ValidityOk, Rotation.CertsToRegenerate, ChainsPossible;
      ghost var cs, w := Model(), disk.State();
      calls := [];
      RunNothing(cs, w);
      var regenCerts := CertsToRegenerate(disk.now);
      for i := 0 to |regenCerts|
        invariant Valid() && fresh(Repr - old(Repr)) && disk.now == w.now
        invariant Run(cs, w, calls, Model(), disk.State()) && CallsFor(calls, regenCerts[..i], w.now)
      {
        ghost var cs1, w1 := Model(), disk.State();
        ListedPaths(cs, w.now, regenCerts[i]);
        ghost var ch;
        err, ch := Regenerate(regenCerts[i], disk);
        InitCertsNeverFails(cs, w, calls, cs1, w1, regenCerts[i], ch);
        RunOneMore(cs, w, calls, cs1, w1, Call(regenCerts[i], ch, w.now), Model(), disk.State());
        assert regenCerts[..i + 1] == regenCerts[..i] + [regenCerts[i]];
        calls := calls + [Call(regenCerts[i], ch, w.now)];
      }
      assert regenCerts[..|regenCerts|] == regenCerts;
      RunKeepsIntact(cs, w, calls, Model(), disk.State());
      if ValidityOk(cs) {
        InitCertsConverges(cs, w, calls, Model(), disk.State());
      }
      err := None;
    }

    /* ---- completing a chains builder ---- */

    method Join(s: CertificateSigner)
      requires Valid() && s.Valid() && s.Repr !! Repr && s.signerName !in signers
      modifies this
      ensures Valid() && Repr == old(Repr) + s.Repr
      ensures Model() == old(Model())[s.signerName := s.Model()]
    {
      hide CertificateSigner.Valid, CertificateSigner.Model;
      s.OwnFacts();
      signers := signers[s.signerName := s];
      Repr := Repr + s.Repr;
    }

    /** The signer found by descending from `s` is added to one more bundle. */
    static method AddBelow(s: CertificateSigner, path: Path, bundle: Path, disk: Disk) returns (err: Option<Error>)
      requires s.Valid()
      modifies s.Repr, disk
      ensures s.Valid() && s.Repr == old(s.Repr) && s.signerName == old(s.signerName)
      ensures err == None ==> Register(old(s.Model()), path, bundle, old(disk.State())) == Ok(s.Model(), disk.State())
      ensures err.Some? ==> Register(old(s.Model()), path, bundle, old(disk.State())) == Err(err.value)
      decreases |path|
    {
      hide CertificateSigner.Valid, AddToBundles;
      s.OwnFacts();
      if path == [] {
        err := s.AddToBundles([bundle], disk);
      } else if path[0] !in s.subCAs {
        err := Some(NilDereference);
      } else {
        s.SubFacts(path[0]);
        err := AddBelow(s.subCAs[path[0]], path[1..], bundle, disk);
        s.SubChanged(path[0]);
      }
    }

    method Add(r: Registration, disk: Disk) returns (err: Option<Error>)
      requires Valid()
      modifies Repr, disk
      ensures Valid()
      ensures err == None ==> RegisterOne(old(Model()), r, old(disk.State())) == COk(Model(), disk.State())
      ensures err.Some? ==> RegisterOne(old(Model()), r, old(disk.State())) == CErr(err.value)
    {
      hide CertificateSigner.Valid, CertificateSigner.Model, Register;
      SignerNames();
      if r.signer == [] || r.signer[0] !in signers {
        return Some(NilDereference);
      }
      SignerFacts(r.signer[0]);
      err := AddBelow(signers[r.signer[0]], r.signer[1..], r.bundle, disk);
      SignerChangedValid(r.signer[0]);
    }

    static lemma RootKeepsName(b: Builder, w: World)
      requires b.caInfo.Some?
      ensures CompleteRoot(b, w).Ok? ==> CompleteRoot(b, w).node.name == b.name
    {
      hide Tree.Complete, Pki.EnsureCA;
      var (ca, w1) := Pki.EnsureCA(b.caInfo.value, w);
      CompleteKeepsName(b, ca, w1);
    }

    /** CertificateChainsBuilder.Complete: the signers in order, then the bundle registrations. */
    static method Complete(bs: seq<Builder>, regs: seq<Registration>, disk: Disk)
      returns (err: Option<Error>, cs: CertificateChains)
      requires forall b :: b in bs ==> b.caInfo.Some?
      modifies disk
      ensures cs.Valid() && fresh(cs) && fresh(cs.Repr)
      ensures err == None ==> CompleteChains(bs, regs, old(disk.State())) == COk(cs.Model(), disk.State())
      ensures err.Some? ==> CompleteChains(bs, regs, old(disk.State())) == CErr(err.value)
    {
      hide CertificateSigner.Valid, CertificateSigner.Model, CertificateChains.Valid, CertificateChains.Model;
      hide Tree.Complete, Pki.EnsureCA, RegisterOne;
      cs := new CertificateChains();
      for i := 0 to |bs|
        invariant cs.Valid() && fresh(cs) && fresh(cs.Repr)
        invariant CompleteSigners(map[], bs, old(disk.State())) == CompleteSigners(cs.Model(), bs[i..], disk.State())
      {
        assert bs[i..][0] == bs[i] && bs[i..][1..] == bs[i + 1..];
        cs.SignerNames();
        var b := bs[i];
        if b.name in cs.signers {
          return Some(NameClash(b.name)), cs;
        }
        RootKeepsName(b, disk.State());
        var s;
        err, s := CertificateSigner.Complete(b, None, disk);
        if err.Some? {
          return;
        }
        s.OwnFacts();
        cs.Join(s);
      }
      ghost var cs1, w1 := cs.Model(), disk.State();
      for i := 0 to |regs|
        invariant cs.Valid() && fresh(cs) && fresh(cs.Repr)
        invariant RegisterAll(cs1, regs, w1) == RegisterAll(cs.Model(), regs[i..], disk.State())
      {
        assert regs[i..][0] == regs[i] && regs[i..][1..] == regs[i + 1..];
        err := cs.Add(regs[i], disk);
        if err.Some? {
          return;
        }
      }
      err := None;
    }
  }
}
