/** What InitCerts leaves on disk, spelled out file by file. */
module ConfiguredDisk {
  import opened Base
  import opened Pki
  import opened Tree
  import opened Layout
  import opened Completion
  import opened Renewal
  import opened Regeneration
  import opened Chains
  import opened ChainBundles
  import opened ChainSetup
  import opened BundleFiles
  import opened SetupBundles
  import opened Walk
  import opened Rotation
  import opened Validity
  import opened Requests
  import opened Reusable
  import opened StartUp
  import opened Signer
  import opened ChainsObject
  import opened CertSetup
  import opened SecondStart

  /* ---- files ---- */

  /** The CA certificate by itself. */
  ghost predicate IsCa(files: map<Path, File>, base: Path, dir: string, c: Cert) {
    BundleAt(files, base + [dir, "ca.crt"]) == [c]
  }

  ghost predicate HasKey(files: map<Path, File>, p: Path, c: Cert) {
    p in files && files[p] == KeyFile(c.id)
  }

  ghost predicate Signed(c: Cert, ca: Cert) {
    c.issuer == ca.id && c.issuerName == ca.subject
  }

  /** A self-signed root with its key and serial file. */
  ghost predicate RootFiles(files: map<Path, File>, base: Path) {
    && base + ["root-ca", "serial.txt"] in files
    && exists root :: RootFilesOf(files, base, root)
  }

  ghost predicate RootFilesOf(files: map<Path, File>, base: Path, root: Cert) {
    IsCa(files, base, "root-ca", root) && HasKey(files, base + ["root-ca", "ca.key"], root) && Signed(root, root)
  }

  /** A CA signed by the root, named after its directory: alone, with the root behind it, key and serial file. */
  ghost predicate SubFiles(files: map<Path, File>, base: Path, dir: string) {
    && base + [dir, "serial.txt"] in files
    && exists ca, root :: SubFilesOf(files, base, dir, ca, root)
  }

  ghost predicate SubFilesOf(files: map<Path, File>, base: Path, dir: string, ca: Cert, root: Cert) {
    && IsCa(files, base, dir, ca) && IsCa(files, base, "root-ca", root) && Signed(ca, root)
    && BundleAt(files, base + [dir, "ca-bundle.crt"]) == [ca, root] && HasKey(files, base + [dir, "ca.key"], ca)
    && ca.subject == Name(dir, "", [])
  }

  /** The bundle file contains the CA certificate of the directory. */
  ghost predicate Bundled(files: map<Path, File>, base: Path, bundle: string, dir: string) {
    exists ca :: IsCa(files, base, dir, ca) && ca in BundleAt(files, base + ["ca-bundle", bundle])
  }

  /** A client certificate for the user, issued by the CA of the directory it lies in. */
  ghost predicate ClientFiles(files: map<Path, File>, base: Path, dir: string, name: string, user: string,
                              groups: seq<string>) {
    exists c, ca :: ClientFilesOf(files, base, dir, name, user, groups, c, ca)
  }

  ghost predicate ClientFilesOf(files: map<Path, File>, base: Path, dir: string, name: string, user: string,
                                groups: seq<string>, c: Cert, ca: Cert) {
    && IsCa(files, base, dir, ca) && Signed(c, ca)
    && BundleAt(files, base + [dir, name, "client.crt"]) == [c] && HasKey(files, base + [dir, name, "client.key"], c)
    && c.subject.commonName == user && c.subject.serialNumber == ""
    && multiset(c.subject.organization) == multiset(groups)
  }

  /** A certificate for the hosts, with its CA and the root behind it. */
  ghost predicate ServerFilesOf(files: map<Path, File>, base: Path, dir: string, name: string, crt: string, key: string,
                                hosts: set<string>, c: Cert, ca: Cert, root: Cert) {
    && IsCa(files, base, dir, ca) && IsCa(files, base, "root-ca", root) && Signed(c, ca)
    && BundleAt(files, base + [dir, name, crt]) == [c, ca, root] && HasKey(files, base + [dir, name, key], c)
    && c.hosts == hosts
  }

  ghost predicate ServingFiles(files: map<Path, File>, base: Path, dir: string, name: string, hosts: set<string>) {
    exists c, ca, root :: ServerFilesOf(files, base, dir, name, "server.crt", "server.key", hosts, c, ca, root)
  }

  /** Everything InitCerts is configured for, at its place, but for the etcd peer certificate. */
  ghost predicate ConfiguredFiles(cfg: Config, files: map<Path, File>) {
    var base := cfg.dataDirectory + ["cert"];
    && RootFiles(files, base) && Bundled(files, base, "root-ca-bundle.crt", "root-ca")
    && ServerSide(cfg, files, base) && ClientSide(files, base) && (cfg.embedEtcd ==> EtcdSide(files, base))
  }

  ghost predicate ServerSide(cfg: Config, files: map<Path, File>, base: Path) {
    && SubFiles(files, base, "server-ca") && Bundled(files, base, "server-ca-bundle.crt", "server-ca")
    && ServingFiles(files, base, "server-ca", "kube-apiserver",
                    {cfg.externalHostname, "kubernetes.default", "kubernetes.default.svc",
                     "multicluster-controlplane." + cfg.namespace,
                     "multicluster-controlplane." + cfg.namespace + ".svc",
                     "localhost", "127.0.0.1", "10.0.0.1"})
    && ServingFiles(files, base, "server-ca", "kube-aggregator", {"api.kube-public.svc", "localhost", "127.0.0.1"})
  }

  ghost predicate ClientSide(files: map<Path, File>, base: Path) {
    && SubFiles(files, base, "request-header-ca")
    && Bundled(files, base, "request-header-ca-bundle.crt", "request-header-ca")
    && ClientFiles(files, base, "request-header-ca", "auth-proxy", "system:auth-proxy", [])
    && SubFiles(files, base, "client-ca") && Bundled(files, base, "client-ca-bundle.crt", "client-ca")
    && ClientFiles(files, base, "client-ca", "admin", "system:admin", ["system:masters"])
    && ClientFiles(files, base, "client-ca", "kube-apiserver", "kube-apiserver", [])
    && ClientFiles(files, base, "client-ca", "kube-aggregator", "system:admin", ["system:masters"])
  }

  ghost predicate EtcdSide(files: map<Path, File>, base: Path) {
    && SubFiles(files, base, "etcd-ca") && Bundled(files, base, "etcd-ca-bundle.crt", "etcd-ca")
    && ClientFiles(files, base, "etcd-ca", "client", "etcd", ["etcd"])
  }

  /* ---- from the tree to the files ---- */

  lemma Joined(base: Path, dir: string, name: string, f: string)
    ensures base + [dir] + [f] == base + [dir, f] && base + [dir] + [name] + [f] == base + [dir, name, f]
  {
  }

  lemma RootOnFiles(n: Node, base: Path, files: map<Path, File>, next: nat)
    requires RootOnDisk(n, files, next) && n.dir == base + ["root-ca"]
    ensures RootFiles(files, base) && IsCa(files, base, "root-ca", n.ca.cert)
  {
    Joined(base, "root-ca", "", "ca.crt");
    Joined(base, "root-ca", "", "ca.key");
    Joined(base, "root-ca", "", "serial.txt");
    assert RootFilesOf(files, base, n.ca.cert);
  }

  lemma SubOnFiles(n: Node, k: string, base: Path, files: map<Path, File>, next: nat)
    requires Sound(n, files, next) && n.ca.chain == [] && IsCa(files, base, "root-ca", n.ca.cert)
    requires k in n.subs && n.subs[k].name == k && n.subs[k].dir == base + [k]
    ensures SubFiles(files, base, k) && IsCa(files, base, k, n.subs[k].ca.cert)
    ensures n.subs[k].ca.chain == [n.ca.cert]
  {
    Joined(base, k, "", "ca.crt");
    Joined(base, k, "", "ca-bundle.crt");
    Joined(base, k, "", "ca.key");
    Joined(base, k, "", "serial.txt");
    assert SoundSub(n, k, files, next);
    assert SubFilesOf(files, base, k, n.subs[k].ca.cert, n.ca.cert);
  }

  /** The pair of a request, as far as it can be told without knowing its kind. */
  lemma PairOnFiles(t: Tls, csr: Csr, ca: Tls, base: Path, k: string, files: map<Path, File>, next: nat)
    requires LeafIssued(t, csr, ca, next) && GetLeaf(files, base + [k], csr) == Some(t) && IsCa(files, base, k, ca.cert)
    ensures Signed(t.cert, ca.cert)
    ensures csr.Client? ==> BundleAt(files, base + [k, csr.name, "client.crt"]) == [t.cert]
    ensures csr.Client? ==> HasKey(files, base + [k, csr.name, "client.key"], t.cert)
    ensures csr.Serving? ==> BundleAt(files, base + [k, csr.name, "server.crt"]) == [t.cert] + ca.Pem()
    ensures csr.Serving? ==> HasKey(files, base + [k, csr.name, "server.key"], t.cert)
    ensures csr.Peer? ==> BundleAt(files, base + [k, csr.name, "peer.crt"]) == [t.cert] + ca.Pem()
    ensures csr.Peer? ==> HasKey(files, base + [k, csr.name, "peer.key"], t.cert)
  {
    hide MadeFor;
    var crt, key := LeafCertPath(base + [k], csr), LeafKeyPath(base + [k], csr);
    match csr
    case Client(_, _, _) =>
      Joined(base, k, csr.name, "client.crt");
      Joined(base, k, csr.name, "client.key");
    case Serving(_, _, _) =>
      Joined(base, k, csr.name, "server.crt");
      Joined(base, k, csr.name, "server.key");
    case Peer(_, _, _, _) =>
      Joined(base, k, csr.name, "peer.crt");
      Joined(base, k, csr.name, "peer.key");
  }

  /* ---- from the start to the tree ---- */

  /** After a start the tree agrees with the disk, and so does everything else the disk holds for it. */
  ghost predicate Agrees(cfg: Config, n: Node, files: map<Path, File>, next: nat) {
    && RootOnDisk(n, files, next) && Sound(n, files, next) && Covers(Configured(cfg), NodeShape(n))
    && Consistent(Configured(cfg), n.ca, files, next)
  }

  lemma StartAgrees(cfg: Config, w: World, cs: Chains, w': World)
    requires ReadyToInit(cfg, w) && Started(cfg, w, cs, w')
    ensures cs.Keys == {ROOT} && Agrees(cfg, cs[ROOT], w'.files, w'.next)
    ensures ReadyToInit(cfg, w') && RegistrationsFresh(cs, Registrations(cfg), w'.files)
  {
    hide Started, BuilderShape, RegistrationsFresh, TreesCompleted, AllBundlesFresh, AllMet, AllVisits, Registrations;
    hide CertsToRegenerate, RootSigner, RootOnDisk, Sound, Covers, Consistent, NodeShape, WithBundles, Recorded;
    hide LaidOut;
    StartSound(cfg, w, cs, w');
    RootName(cfg);
    TreeCovers(RootSigner(cfg), Registrations(cfg), cs, w.files);
    assert RootHealthy(cs, ROOT, w');
    HealthySound(cs[ROOT], w');
    SameRoot(Configured(cfg), cs[ROOT], w'.files, w'.next);
  }

  lemma SameRoot(s: Shape, n: Node, files: map<Path, File>, next: nat)
    requires RootConsistent(s, files, next) && RootOnDisk(n, files, next) && Covers(s, NodeShape(n))
    ensures Consistent(s, n.ca, files, next)
  {
    hide Consistent, GetCA;
  }

  lemma ConfiguredSub(cfg: Config, i: nat)
    requires i < |RootSigner(cfg).subs|
    ensures var b := RootSigner(cfg).subs[i];
            && b.name in Configured(cfg).subs && Configured(cfg).subs[b.name] == BuilderShape(b)
            && FlatSub(b, CertsDirectory(cfg))
  {
    hide FlatSub, BuilderShapes, ServerSigner, ClientSigner, EtcdSigner, RequestHeaderSigner;
    SubsAreFlat(cfg);
    ShapeOfSub(RootSigner(cfg).subs, i);
  }

  /** What the sub-CA of the builder is, and what the disk holds for its requests. */
  ghost predicate SubAgrees(b: Builder, n: Node, base: Path, files: map<Path, File>, next: nat) {
    && b.name in n.subs && n.subs[b.name].ca.chain == [n.ca.cert]
    && IsCa(files, base, b.name, n.subs[b.name].ca.cert) && IsCa(files, base, "root-ca", n.ca.cert)
    && SubFiles(files, base, b.name)
    && Consistent(BuilderShape(b), n.subs[b.name].ca, files, next)
  }

  lemma RootPlace(cfg: Config, n: Node)
    requires Covers(Configured(cfg), NodeShape(n))
    ensures n.dir == CertsDirectory(cfg) + ["root-ca"]
  {
    hide BuilderShapes;
    RootIsFlat(cfg);
  }

  lemma CoveredSub(s: Shape, n: Node, k: string)
    requires Covers(s, NodeShape(n)) && k in s.subs
    ensures k in n.subs && n.subs[k].name == s.subs[k].name && n.subs[k].dir == s.subs[k].dir
  {
    NodeKeys(n);
    NodeSubShape(n, k);
  }

  lemma ConsistentSub(s: Shape, n: Node, k: string, files: map<Path, File>, next: nat)
    requires Consistent(s, n.ca, files, next) && Sound(n, files, next) && k in s.subs && k in n.subs
    requires n.subs[k].dir == s.subs[k].dir
    ensures Consistent(s.subs[k], n.subs[k].ca, files, next)
  {
    hide GetSubCA, GetLeaf, LeafIssued, SoundCert, NothingFound;
    assert SoundSub(n, k, files, next);
    assert SubConsistent(s.subs[k], n.ca, files, next);
  }

  lemma SubAt(cfg: Config, i: nat, n: Node, files: map<Path, File>, next: nat)
    requires i < |RootSigner(cfg).subs| && Agrees(cfg, n, files, next)
    ensures SubAgrees(RootSigner(cfg).subs[i], n, CertsDirectory(cfg), files, next)
  {
    hide RootSigner, BuilderShape, RootOnDisk, Sound, Consistent, Covers, NodeShape, SubFiles, IsCa, RootFiles;
    var b, base := RootSigner(cfg).subs[i], CertsDirectory(cfg);
    ConfiguredSub(cfg, i);
    RootPlace(cfg, n);
    CoveredSub(Configured(cfg), n, b.name);
    SubPlace(b, base);
    ConsistentSub(Configured(cfg), n, b.name, files, next);
    RootOnFiles(n, base, files, next);
    assert n.ca.chain == [] by { NoChain(n, files, next); }
    SubOnFiles(n, b.name, base, files, next);
  }

  lemma NoChain(n: Node, files: map<Path, File>, next: nat)
    requires RootOnDisk(n, files, next)
    ensures n.ca.chain == []
  {
  }

  lemma SubPlace(b: Builder, base: Path)
    requires FlatSub(b, base)
    ensures BuilderShape(b).name == b.name && BuilderShape(b).dir == base + [b.name] && b.dir == base + [b.name]
  {
  }

  /** After a start every request but a peer's has its pair on disk. */
  lemma PairHeld(cfg: Config, i: nat, j: nat, w: World, cs: Chains, w': World)
    requires i < |RootSigner(cfg).subs| && j < |RootSigner(cfg).subs[i].csrs| && ReadyToInit(cfg, w)
    requires Started(cfg, w, cs, w')
    ensures var b := RootSigner(cfg).subs[i];
            var t := GetLeaf(w'.files, CertsDirectory(cfg) + [b.name], b.csrs[j]);
            t.Some? || b.csrs[j].Peer?
  {
    hide RootSigner, Started, ReadyToInit, GetLeaf, GetSubCA, Renewed, ToRenew;
    var b, s := RootSigner(cfg).subs[i], Configured(cfg);
    ConfiguredSub(cfg, i);
    RequestOf(b, CertsDirectory(cfg), j);
    var q := [b.name, b.csrs[j].name];
    assert q[1..] == [b.csrs[j].name];
    RequestAt(s, b, j, w'.files);
    StartMeets(cfg, w, cs, w', q);
  }

  lemma RequestOf(b: Builder, base: Path, j: nat)
    requires FlatSub(b, base) && j < |b.csrs|
    ensures var s := BuilderShape(b);
            && b.csrs[j].name in s.csrs && s.csrs[b.csrs[j].name] == b.csrs[j] && s.subs == map[]
            && s.dir == base + [b.name] && s.name == b.name
  {
    RequestNamed(b.csrs, j);
  }

  lemma RequestAt(s: Shape, b: Builder, j: nat, files: map<Path, File>)
    requires b.name in s.subs && s.subs[b.name] == BuilderShape(b) && j < |b.csrs| && BuilderShape(b).subs == map[]
    requires b.csrs[j].name in BuilderShape(b).csrs && BuilderShape(b).csrs[b.csrs[j].name] == b.csrs[j]
    ensures var q := [b.name, b.csrs[j].name];
            Resolves(s, q) && PeerAt(s, q) == b.csrs[j].Peer? && Held(s, q, files) == GetLeaf(files, b.dir, b.csrs[j])
  {
    hide GetLeaf, BuilderShapes, CsrsByName;
    var q := [b.name, b.csrs[j].name];
    assert q[1..] == [b.csrs[j].name];
    assert BuilderShape(b).dir == b.dir;
    assert HeldBelow(BuilderShape(b), [b.csrs[j].name], files) == GetLeaf(files, b.dir, b.csrs[j]);
  }

  /** A pair on disk for a request was issued by the current CA of its sub-CA. */
  lemma PairIssued(b: Builder, j: nat, n: Node, base: Path, files: map<Path, File>, next: nat)
    requires SubAgrees(b, n, base, files, next) && FlatSub(b, base) && j < |b.csrs|
    requires GetLeaf(files, base + [b.name], b.csrs[j]).Some?
    ensures LeafIssued(GetLeaf(files, base + [b.name], b.csrs[j]).value, b.csrs[j], n.subs[b.name].ca, next)
  {
    hide GetLeaf, LeafIssued, SubFiles, IsCa, FlatSub, CsrsByName;
    RequestOf(b, base, j);
  }

  lemma ClientAt(b: Builder, j: nat, n: Node, base: Path, files: map<Path, File>, next: nat)
    requires SubAgrees(b, n, base, files, next) && FlatSub(b, base) && j < |b.csrs| && b.csrs[j].Client?
    requires GetLeaf(files, base + [b.name], b.csrs[j]).Some? && b.csrs[j].user.uid == ""
    ensures ClientFiles(files, base, b.name, b.csrs[j].name, b.csrs[j].user.name, b.csrs[j].user.groups)
  {
    hide GetLeaf, SubFiles, IsCa, FlatSub, Consistent, LeafIssued, HasKey, Signed;
    var csr, ca := b.csrs[j], n.subs[b.name].ca;
    var t := GetLeaf(files, base + [b.name], csr).value;
    PairIssued(b, j, n, base, files, next);
    PairOnFiles(t, csr, ca, base, b.name, files, next);
    FoundSays(files, base + [b.name], csr);
    assert ClientFilesOf(files, base, b.name, csr.name, csr.user.name, csr.user.groups, t.cert, ca.cert);
  }

  lemma ServerAt(b: Builder, j: nat, n: Node, base: Path, files: map<Path, File>, next: nat, crt: string, key: string,
                 hosts: set<string>)
    returns (c: Cert, ca: Cert, root: Cert)
    requires SubAgrees(b, n, base, files, next) && FlatSub(b, base) && j < |b.csrs| && !b.csrs[j].Client?
    requires crt == (if b.csrs[j].Peer? then "peer.crt" else "server.crt")
    requires key == (if b.csrs[j].Peer? then "peer.key" else "server.key")
    requires GetLeaf(files, base + [b.name], b.csrs[j]).Some? && forall h :: h in hosts <==> h in b.csrs[j].hosts
    ensures ServerFilesOf(files, base, b.name, b.csrs[j].name, crt, key, hosts, c, ca, root)
    ensures c == GetLeaf(files, base + [b.name], b.csrs[j]).value.cert
  {
    hide GetLeaf, SubFiles, IsCa, FlatSub, Consistent, LeafIssued, HasKey, Signed;
    var csr := b.csrs[j];
    var t := GetLeaf(files, base + [b.name], csr).value;
    PairIssued(b, j, n, base, files, next);
    PairOnFiles(t, csr, n.subs[b.name].ca, base, b.name, files, next);
    FoundSays(files, base + [b.name], csr);
    assert t.cert.hosts == hosts;
    c, ca, root := t.cert, n.subs[b.name].ca.cert, n.ca.cert;
  }

  lemma ServingAt(b: Builder, j: nat, n: Node, base: Path, files: map<Path, File>, next: nat, hosts: set<string>)
    requires SubAgrees(b, n, base, files, next) && FlatSub(b, base) && j < |b.csrs| && b.csrs[j].Serving?
    requires GetLeaf(files, base + [b.name], b.csrs[j]).Some? && forall h :: h in hosts <==> h in b.csrs[j].hosts
    ensures ServingFiles(files, base, b.name, b.csrs[j].name, hosts)
  {
    hide GetLeaf, SubAgrees, FlatSub, ServerFilesOf;
    var c, ca, root := ServerAt(b, j, n, base, files, next, "server.crt", "server.key", hosts);
  }

  /** The bundle registered for a sub-CA contains the CA certificate in its directory. */
  lemma SubBundled(b: Builder, n: Node, base: Path, files: map<Path, File>, next: nat, cs: Chains, bundle: string)
    requires SubAgrees(b, n, base, files, next) && ROOT in cs && n == cs[ROOT]
    requires RegistrationFresh(cs, Registration(BundlePath(base, bundle), [ROOT, b.name]), files)
    ensures Bundled(files, base, bundle, b.name)
  {
    hide Consistent, IsCa, SubFiles, Holds;
    assert [ROOT, b.name][1..] == [b.name] && [b.name][1..] == [];
    assert ChainCertAt(cs, [ROOT, b.name]) == CertAt(n, [b.name]);
    HoldsAt(files, base + ["ca-bundle", bundle], n.subs[b.name].ca.cert);
  }

  lemma HoldsAt(files: map<Path, File>, p: Path, c: Cert)
    requires Holds(files, p, c)
    ensures c in BundleAt(files, p)
  {
    HoldsMember(files, p, c);
  }

  lemma RootBundled(n: Node, base: Path, files: map<Path, File>, cs: Chains, bundle: string)
    requires IsCa(files, base, "root-ca", n.ca.cert) && ROOT in cs && n == cs[ROOT]
    requires RegistrationFresh(cs, Registration(BundlePath(base, bundle), [ROOT]), files)
    ensures Bundled(files, base, bundle, "root-ca")
  {
    hide IsCa, Holds;
    assert [ROOT][1..] == [];
    HoldsAt(files, base + ["ca-bundle", bundle], n.ca.cert);
  }

  /* ---- the configured tree ---- */

  /** What a start leaves behind, as far as the lemmas below need it. */
  ghost predicate After(cfg: Config, cs: Chains, files: map<Path, File>, next: nat) {
    && ROOT in cs && Agrees(cfg, cs[ROOT], files, next) && RegistrationsFresh(cs, Registrations(cfg), files)
    && AllPairs(cfg, files)
  }

  /** Every request but a peer's has its pair on disk. */
  ghost predicate AllPairs(cfg: Config, files: map<Path, File>) {
    forall i, j :: 0 <= i < |RootSigner(cfg).subs| && 0 <= j < |RootSigner(cfg).subs[i].csrs| ==>
      PairThere(RootSigner(cfg).subs[i], j, CertsDirectory(cfg), files)
  }

  ghost predicate PairThere(b: Builder, j: int, base: Path, files: map<Path, File>)
    requires 0 <= j < |b.csrs|
  {
    b.csrs[j].Peer? || GetLeaf(files, base + [b.name], b.csrs[j]).Some?
  }

  lemma StartedAfter(cfg: Config, w: World, cs: Chains, w': World)
    requires ReadyToInit(cfg, w) && Started(cfg, w, cs, w')
    ensures After(cfg, cs, w'.files, w'.next)
  {
    hide RootSigner, Started, ReadyToInit, GetLeaf, RegistrationsFresh, Registrations, Agrees;
    StartAgrees(cfg, w, cs, w');
    forall i, j | 0 <= i < |RootSigner(cfg).subs| && 0 <= j < |RootSigner(cfg).subs[i].csrs|
      ensures PairThere(RootSigner(cfg).subs[i], j, CertsDirectory(cfg), w'.files)
    {
      PairHeld(cfg, i, j, w, cs, w');
    }
  }

  /** The `i`th sub-CA, its requests and the bundle registered for it. */
  lemma SubThere(cfg: Config, i: nat, cs: Chains, files: map<Path, File>, next: nat)
    requires After(cfg, cs, files, next) && i < |RootSigner(cfg).subs|
    ensures var b, base := RootSigner(cfg).subs[i], CertsDirectory(cfg);
            && ROOT in cs && SubAgrees(b, cs[ROOT], base, files, next) && FlatSub(b, base)
            && forall j :: 0 <= j < |b.csrs| ==> PairThere(b, j, base, files)
  {
    hide RootSigner, Agrees, SubAgrees, FlatSub, PairThere, RegistrationsFresh, Registrations;
    SubAt(cfg, i, cs[ROOT], files, next);
    ConfiguredSub(cfg, i);
  }

  lemma BundleThere(cfg: Config, i: nat, cs: Chains, files: map<Path, File>, next: nat, bundle: string)
    requires After(cfg, cs, files, next) && i < |RootSigner(cfg).subs|
    requires Registration(BundlePath(CertsDirectory(cfg), bundle), [ROOT, RootSigner(cfg).subs[i].name])
             in Registrations(cfg)
    ensures Bundled(files, CertsDirectory(cfg), bundle, RootSigner(cfg).subs[i].name)
  {
    hide RootSigner, Agrees, SubAgrees, FlatSub, PairThere, RegistrationFresh, Registrations, Bundled;
    SubThere(cfg, i, cs, files, next);
    SubBundled(RootSigner(cfg).subs[i], cs[ROOT], CertsDirectory(cfg), files, next, cs, bundle);
  }

  lemma SubFilesThere(b: Builder, n: Node, base: Path, files: map<Path, File>, next: nat)
    requires SubAgrees(b, n, base, files, next)
    ensures SubFiles(files, base, b.name)
  {
  }

  lemma ServerThere(cfg: Config, cs: Chains, files: map<Path, File>, next: nat)
    requires After(cfg, cs, files, next)
    ensures ServerSide(cfg, files, CertsDirectory(cfg))
  {
    hide Agrees, SubAgrees, FlatSub, GetLeaf, Bundled, SubFiles, ServingFiles, AllPairs, RegistrationsFresh, After;
    var b, base := RootSigner(cfg).subs[0], CertsDirectory(cfg);
    assert b == ServerSigner(cfg, base);
    SubThere(cfg, 0, cs, files, next);
    SubFilesThere(b, cs[ROOT], base, files, next);
    BundleThere(cfg, 0, cs, files, next, "server-ca-bundle.crt");
    assert PairThere(b, 0, base, files) && PairThere(b, 1, base, files);
    ServingAt(b, 0, cs[ROOT], base, files, next,
              {cfg.externalHostname, "kubernetes.default", "kubernetes.default.svc",
               "multicluster-controlplane." + cfg.namespace, "multicluster-controlplane." + cfg.namespace + ".svc",
               "localhost", "127.0.0.1", "10.0.0.1"});
    ServingAt(b, 1, cs[ROOT], base, files, next, {"api.kube-public.svc", "localhost", "127.0.0.1"});
  }

  lemma ClientsThere(cfg: Config, cs: Chains, files: map<Path, File>, next: nat)
    requires After(cfg, cs, files, next)
    ensures ClientSide(files, CertsDirectory(cfg))
  {
    hide Agrees, SubAgrees, FlatSub, GetLeaf, Bundled, SubFiles, ClientFiles, AllPairs, RegistrationsFresh, After;
    var base := CertsDirectory(cfg);
    var proxy, client := RootSigner(cfg).subs[1], RootSigner(cfg).subs[2];
    assert proxy == RequestHeaderSigner(base) && client == ClientSigner(base);
    SubThere(cfg, 1, cs, files, next);
    SubThere(cfg, 2, cs, files, next);
    SubFilesThere(proxy, cs[ROOT], base, files, next);
    SubFilesThere(client, cs[ROOT], base, files, next);
    BundleThere(cfg, 1, cs, files, next, "request-header-ca-bundle.crt");
    BundleThere(cfg, 2, cs, files, next, "client-ca-bundle.crt");
    assert PairThere(proxy, 0, base, files);
    assert PairThere(client, 0, base, files) && PairThere(client, 1, base, files) && PairThere(client, 2, base, files);
    ClientAt(proxy, 0, cs[ROOT], base, files, next);
    ClientAt(client, 0, cs[ROOT], base, files, next);
    ClientAt(client, 1, cs[ROOT], base, files, next);
    ClientAt(client, 2, cs[ROOT], base, files, next);
  }

  lemma EtcdThere(cfg: Config, cs: Chains, files: map<Path, File>, next: nat)
    requires After(cfg, cs, files, next) && cfg.embedEtcd
    ensures EtcdSide(files, CertsDirectory(cfg))
  {
    hide Agrees, SubAgrees, FlatSub, GetLeaf, Bundled, SubFiles, ClientFiles, AllPairs, RegistrationsFresh, After;
    var b, base := RootSigner(cfg).subs[3], CertsDirectory(cfg);
    assert b == EtcdSigner(base);
    SubThere(cfg, 3, cs, files, next);
    SubFilesThere(b, cs[ROOT], base, files, next);
    BundleThere(cfg, 3, cs, files, next, "etcd-ca-bundle.crt");
    assert PairThere(b, 0, base, files);
    ClientAt(b, 0, cs[ROOT], base, files, next);
  }

  lemma RootThere(cfg: Config, cs: Chains, files: map<Path, File>, next: nat)
    requires After(cfg, cs, files, next)
    ensures var base := CertsDirectory(cfg);
            RootFiles(files, base) && Bundled(files, base, "root-ca-bundle.crt", "root-ca")
  {
    hide Configured, RootOnDisk, Sound, Consistent, Covers, RegistrationFresh, IsCa, RootFiles, Bundled, AllPairs;
    hide NodeShape;
    var base := CertsDirectory(cfg);
    RootPlace(cfg, cs[ROOT]);
    RootOnFiles(cs[ROOT], base, files, next);
    assert Registration(BundlePath(base, "root-ca-bundle.crt"), [ROOT]) in Registrations(cfg);
    RootBundled(cs[ROOT], base, files, cs, "root-ca-bundle.crt");
  }

  /** After every start from a ready disk the configured files are there. */
  lemma ConfiguredOnDisk(cfg: Config, w: World, cs: Chains, w': World)
    requires ReadyToInit(cfg, w) && Started(cfg, w, cs, w')
    ensures ConfiguredFiles(cfg, w'.files)
  {
    hide After, Started, ReadyToInit, RootFiles, Bundled, ServerSide, ClientSide, EtcdSide;
    StartedAfter(cfg, w, cs, w');
    RootThere(cfg, cs, w'.files, w'.next);
    ServerThere(cfg, cs, w'.files, w'.next);
    ClientsThere(cfg, cs, w'.files, w'.next);
    if cfg.embedEtcd {
      EtcdThere(cfg, cs, w'.files, w'.next);
    }
  }

  /* ---- the etcd peer certificate ---- */

  /** The etcd peer certificate and its key can be read, and the certificate is for the configured host. */
  ghost predicate HasPeer(cfg: Config, files: map<Path, File>) {
    var dir := cfg.dataDirectory + ["cert", "etcd-ca", "peer"];
    var t := GetTls(files, dir + ["peer.crt"], dir + ["peer.key"]);
    t.Some? && t.value.cert.hosts == {"localhost"}
  }

  /** The CA in the directory, kept in the file, can be read and is due. */
  ghost predicate CADue(cfg: Config, dir: string, crt: string, w: World) {
    var d := cfg.dataDirectory + ["cert", dir];
    var t := GetTls(w.files, d + [crt], d + ["ca.key"]);
    d + ["serial.txt"] in w.files && w.files[d + ["serial.txt"]].SerialFile? && t.Some? && Due(t.value.cert, w.now)
  }

  ghost predicate PeerDue(cfg: Config, w: World) {
    CADue(cfg, "root-ca", "ca.crt", w) || CADue(cfg, "etcd-ca", "ca-bundle.crt", w)
  }

  /** Issued by the etcd CA, with the CA and the root behind it. */
  ghost predicate PeerFiles(files: map<Path, File>, base: Path) {
    exists c, ca, root ::
      ServerFilesOf(files, base, "etcd-ca", "peer", "peer.crt", "peer.key", {"localhost"}, c, ca, root)
  }

  ghost predicate PeerUser(files: map<Path, File>, base: Path) {
    var certs := BundleAt(files, base + ["etcd-ca", "peer", "peer.crt"]);
    && certs != [] && certs[0].subject.commonName == "system:etcd-peer:client" && certs[0].subject.serialNumber == ""
    && multiset(certs[0].subject.organization) == multiset{"system:etcd-peers"}
  }

  lemma EtcdIs(cfg: Config)
    requires cfg.embedEtcd
    ensures |RootSigner(cfg).subs| == 4 && RootSigner(cfg).subs[3] == EtcdSigner(CertsDirectory(cfg))
  {
  }

  lemma PeerHeldIff(cfg: Config, files: map<Path, File>)
    requires cfg.embedEtcd
    ensures HasPeer(cfg, files) <==> GetLeaf(files, CertsDirectory(cfg) + ["etcd-ca"], EtcdPeer(cfg)).Some?
    ensures Held(Configured(cfg), PEER, files) == GetLeaf(files, CertsDirectory(cfg) + ["etcd-ca"], EtcdPeer(cfg))
  {
    hide GetTls, GetLeaf, RootSigner, BuilderShape, FlatSub;
    var b, base := EtcdSigner(CertsDirectory(cfg)), CertsDirectory(cfg);
    EtcdIs(cfg);
    ConfiguredSub(cfg, 3);
    RequestOf(b, base, 1);
    RequestAt(Configured(cfg), b, 1, files);
    TakenIff(files, base + ["etcd-ca"], b.csrs[1]);
    var dir := cfg.dataDirectory + ["cert", "etcd-ca", "peer"];
    assert base + ["etcd-ca"] + ["peer"] == dir;
  }

  function EtcdPeer(cfg: Config): Csr { EtcdSigner(CertsDirectory(cfg)).csrs[1] }

  lemma CADueIff(cfg: Config, w: World)
    requires cfg.embedEtcd
    ensures DueOnDisk(Configured(cfg), [], w) <==> CADue(cfg, "root-ca", "ca.crt", w)
    ensures DueOnDisk(Configured(cfg), ETCD, w) <==> CADue(cfg, "etcd-ca", "ca-bundle.crt", w)
  {
    hide GetTls, RootSigner, BuilderShape, FlatSub, FlatRoot;
    var b, base := EtcdSigner(CertsDirectory(cfg)), CertsDirectory(cfg);
    EtcdIs(cfg);
    EtcdRequests(cfg);
    RootRequest(cfg);
    ConfiguredSub(cfg, 3);
    SubPlace(b, base);
    HeldAtSub(Configured(cfg), "etcd-ca", w.files);
    RootDir(cfg);
    assert base + ["root-ca"] == cfg.dataDirectory + ["cert", "root-ca"];
    assert base + ["etcd-ca"] == cfg.dataDirectory + ["cert", "etcd-ca"];
  }

  lemma RootDir(cfg: Config)
    ensures Configured(cfg).dir == CertsDirectory(cfg) + ["root-ca"]
  {
    hide BuilderShapes;
  }

  /** A start keeps the etcd peer certificate or issues it, save that it is lost when it was there and the root CA or
      the etcd CA on disk was due. */
  lemma PeerThereIff(cfg: Config, w: World, cs: Chains, w': World)
    requires cfg.embedEtcd && ReadyToInit(cfg, w) && Started(cfg, w, cs, w')
    ensures HasPeer(cfg, w'.files) <==> !(HasPeer(cfg, w.files) && PeerDue(cfg, w))
  {
    hide HasPeer, CADue, Started, ReadyToInit, RootSigner, BuilderShape, Held, Resolves, PeerAt, DueOnDisk, ToRenew;
    hide GetLeaf, Renewed;
    EtcdRequests(cfg);
    PeerHeldIff(cfg, w.files);
    PeerHeldIff(cfg, w'.files);
    PeerToRenew(Configured(cfg), w);
    CADueIff(cfg, w);
    StartMeets(cfg, w, cs, w', PEER);
  }

  lemma PeerOnFiles(cfg: Config, cs: Chains, files: map<Path, File>, next: nat)
    requires After(cfg, cs, files, next) && cfg.embedEtcd && HasPeer(cfg, files)
    ensures PeerFiles(files, CertsDirectory(cfg))
  {
    hide Agrees, SubAgrees, FlatSub, GetLeaf, HasPeer, ServerFilesOf, AllPairs, RegistrationsFresh, After;
    var b, base := EtcdSigner(CertsDirectory(cfg)), CertsDirectory(cfg);
    EtcdIs(cfg);
    SubThere(cfg, 3, cs, files, next);
    PeerHeldIff(cfg, files);
    var c, ca, root := ServerAt(b, 1, cs[ROOT], base, files, next, "peer.crt", "peer.key", {"localhost"});
  }

  /** A peer certificate that was not there is recorded. */
  lemma PeerRecorded(s: Shape, n: Node, f: map<Path, File>, at: Path, regs: set<Registration>, k: string, name: string)
    requires NodeShape(n) == WithBundles(Recorded(s, f), at, regs) && k in s.subs && name in s.subs[k].csrs
    requires GetLeaf(f, s.subs[k].dir, s.subs[k].csrs[name]) == None
    ensures k in n.subs && name in n.subs[k].leaves && n.subs[k].leaves[name].csr == s.subs[k].csrs[name]
    ensures n.subs[k].dir == s.subs[k].dir
  {
    hide GetLeaf;
    NodeKeys(n);
    NodeSubShape(n, k);
    NodeKeys(n.subs[k]);
    assert NodeShape(n).subs[k].csrs == Recorded(s.subs[k], f).csrs;
  }

  lemma SubSound(n: Node, k: string, files: map<Path, File>, next: nat)
    requires Sound(n, files, next) && k in n.subs
    ensures Sound(n.subs[k], files, next)
  {
    hide SoundCert, SubIssued, GetSubCA;
    assert SoundSub(n, k, files, next);
  }

  lemma LeafSound(n: Node, name: string, files: map<Path, File>, next: nat)
    requires Sound(n, files, next) && name in n.leaves
    ensures var l := n.leaves[name]; Says(l.tls.cert, l.csr) && GetLeaf(files, n.dir, l.csr) == Some(l.tls)
  {
    hide GetLeaf, Says, LeafIssued, SoundSub;
    assert SoundCert(n, name, files, next);
  }

  /** A peer certificate issued by a start is for the configured user. */
  lemma PeerIsFor(cfg: Config, w: World, cs: Chains, w': World)
    requires cfg.embedEtcd && ReadyToInit(cfg, w) && Started(cfg, w, cs, w') && !HasPeer(cfg, w.files)
    ensures PeerUser(w'.files, CertsDirectory(cfg))
  {
    hide HasPeer, Started, RootSigner, BuilderShape, Held, GetLeaf, ReadyToInit, FlatSub, TreesCompleted, NodeShape;
    hide WithBundles, Recorded, RegistrationsFresh, AllBundlesFresh, AllMet, AllVisits, CertsToRegenerate;
    hide Registrations, Covers, Sound, Consistent, RootOnDisk;
    var b, base, s := EtcdSigner(CertsDirectory(cfg)), CertsDirectory(cfg), Configured(cfg);
    EtcdIs(cfg);
    ConfiguredSub(cfg, 3);
    RequestOf(b, base, 1);
    StartSound(cfg, w, cs, w');
    StartAgrees(cfg, w, cs, w');
    RootName(cfg);
    TreeCovers(RootSigner(cfg), Registrations(cfg), cs, w.files);
    PeerHeldIff(cfg, w.files);
    PeerRecorded(s, cs[ROOT], w.files, [ROOT], Registrations(cfg), "etcd-ca", "peer");
    SubSound(cs[ROOT], "etcd-ca", w'.files, w'.next);
    LeafSound(cs[ROOT].subs["etcd-ca"], "peer", w'.files, w'.next);
    PeerReadUser(cs[ROOT].subs["etcd-ca"].leaves["peer"].tls, EtcdPeer(cfg), base, w'.files);
  }

  lemma PeerReadUser(t: Tls, csr: Csr, base: Path, files: map<Path, File>)
    requires GetLeaf(files, base + ["etcd-ca"], csr) == Some(t) && Says(t.cert, csr) && csr.Peer? && csr.name == "peer"
    requires csr.user == UserInfo("system:etcd-peer:client", "", ["system:etcd-peers"])
    ensures PeerUser(files, base)
  {
    hide MadeFor;
    Joined(base, "etcd-ca", "peer", "peer.crt");
    assert multiset(["system:etcd-peers"]) == multiset{"system:etcd-peers"};
  }

  /** The peer certificate after a start: there unless lost as above, issued by the current etcd CA, and for the
      configured user when this start issued it. */
  ghost predicate PeerMet(cfg: Config, w: World, w': World) {
    && (HasPeer(cfg, w'.files) <==> !(HasPeer(cfg, w.files) && PeerDue(cfg, w)))
    && (HasPeer(cfg, w'.files) ==> PeerFiles(w'.files, cfg.dataDirectory + ["cert"]))
    && (!HasPeer(cfg, w.files) ==> PeerUser(w'.files, cfg.dataDirectory + ["cert"]))
  }

  lemma PeerOnDisk(cfg: Config, w: World, cs: Chains, w': World)
    requires cfg.embedEtcd && ReadyToInit(cfg, w) && Started(cfg, w, cs, w')
    ensures PeerMet(cfg, w, w')
  {
    hide HasPeer, PeerDue, PeerFiles, PeerUser, Started, ReadyToInit, After;
    PeerThereIff(cfg, w, cs, w');
    StartedAfter(cfg, w, cs, w');
    if HasPeer(cfg, w'.files) {
      PeerOnFiles(cfg, cs, w'.files, w'.next);
    }
    if !HasPeer(cfg, w.files) {
      PeerIsFor(cfg, w, cs, w');
    }
  }

  /* ---- the first start ---- */

  /** The first certificate in the file is valid from a second before `now` until that many days after. */
  ghost predicate ValidFor(files: map<Path, File>, p: Path, now: int, days: int) {
    var certs := BundleAt(files, p);
    certs != [] && certs[0].notBefore == now - 1 && certs[0].notAfter == now + days * 86400
  }

  const FIRST_FILES: seq<Path> := [
    ["server-ca", "ca-bundle.crt"], ["server-ca", "kube-apiserver", "server.crt"],
    ["server-ca", "kube-aggregator", "server.crt"],
    ["request-header-ca", "ca-bundle.crt"], ["request-header-ca", "auth-proxy", "client.crt"],
    ["client-ca", "ca-bundle.crt"], ["client-ca", "admin", "client.crt"], ["client-ca", "kube-apiserver", "client.crt"],
    ["client-ca", "kube-aggregator", "client.crt"]]

  const FIRST_ETCD_FILES: seq<Path> := [
    ["etcd-ca", "ca-bundle.crt"], ["etcd-ca", "client", "client.crt"], ["etcd-ca", "peer", "peer.crt"]]

  lemma TlsFile(files: map<Path, File>, crt: Path, key: Path)
    requires GetTls(files, crt, key).Some?
    ensures BundleAt(files, crt) != [] && BundleAt(files, crt)[0] == GetTls(files, crt, key).value.cert
  {
  }

  lemma FirstSub(cfg: Config, i: nat, w: World, cs: Chains, w': World)
    requires w.files == map[] && Started(cfg, w, cs, w') && i < |RootSigner(cfg).subs|
    ensures var b := RootSigner(cfg).subs[i];
            ValidFor(w'.files, CertsDirectory(cfg) + [b.name, "ca-bundle.crt"], w.now, b.days)
  {
    hide RootSigner, BuilderShape, Started, GetTls, FlatSub;
    var b, base, s := RootSigner(cfg).subs[i], CertsDirectory(cfg), Configured(cfg);
    ConfiguredSub(cfg, i);
    SubPlace(b, base);
    HeldAtSub(s, b.name, w'.files);
    SubDays(s, b);
    RootRequest(cfg);
    FirstStart(cfg, w, cs, w', [b.name]);
    Joined(base, b.name, "", "ca-bundle.crt");
    TlsFile(w'.files, CABundlePath(base + [b.name]), CAKeyPath(base + [b.name]));
  }

  lemma SubDays(s: Shape, b: Builder)
    requires b.name in s.subs && s.subs[b.name] == BuilderShape(b)
    ensures DaysAt(s, [b.name]) == b.days
  {
    assert [b.name][1..] == [];
  }

  lemma FirstPair(cfg: Config, i: nat, j: nat, w: World, cs: Chains, w': World)
    requires w.files == map[] && Started(cfg, w, cs, w') && i < |RootSigner(cfg).subs|
    requires j < |RootSigner(cfg).subs[i].csrs|
    ensures var b := RootSigner(cfg).subs[i];
            ValidFor(w'.files, LeafCertPath(CertsDirectory(cfg) + [b.name], b.csrs[j]), w.now, CsrDays(b.csrs[j]))
  {
    hide RootSigner, BuilderShape, Started, GetTls, FlatSub, LeafCertPath, LeafKeyPath, CsrDays, MadeFor;
    var b, base, s := RootSigner(cfg).subs[i], CertsDirectory(cfg), Configured(cfg);
    ConfiguredSub(cfg, i);
    SubPlace(b, base);
    RequestOf(b, base, j);
    RequestAt(s, b, j, w'.files);
    RequestDays(s, b, j);
    RootRequest(cfg);
    FirstStart(cfg, w, cs, w', [b.name, b.csrs[j].name]);
    TlsFile(w'.files, LeafCertPath(base + [b.name], b.csrs[j]), LeafKeyPath(base + [b.name], b.csrs[j]));
  }

  lemma RequestDays(s: Shape, b: Builder, j: nat)
    requires b.name in s.subs && s.subs[b.name] == BuilderShape(b) && j < |b.csrs| && BuilderShape(b).subs == map[]
    requires b.csrs[j].name in BuilderShape(b).csrs && BuilderShape(b).csrs[b.csrs[j].name] == b.csrs[j]
    ensures DaysAt(s, [b.name, b.csrs[j].name]) == CsrDays(b.csrs[j])
  {
    hide CsrDays, BuilderShapes, CsrsByName;
    assert [b.name, b.csrs[j].name][1..] == [b.csrs[j].name];
  }

  lemma FirstRoot(cfg: Config, w: World, cs: Chains, w': World)
    requires w.files == map[] && Started(cfg, w, cs, w')
    ensures var p := cfg.dataDirectory + ["cert", "root-ca", "ca.crt"];
            ValidFor(w'.files, p, w.now, 1825) && BundleAt(w'.files, p)[0].subject == Name("", "", [])
  {
    hide BuilderShape, Started, GetTls, Held, Registrations, StartsUp, Prepared;
    RootRequest(cfg);
    FirstStart(cfg, w, cs, w', []);
    EmptyDiskIsReady(cfg, w);
    NothingHeld(Configured(cfg), [], w.files);
    var regs, cs1, w1, calls := StartedParts(cfg, w, cs, w');
    SetupPrepared(cfg, regs, w);
    RootInName(RootSigner(cfg), regs, w, calls, cs, w');
    HeldRoot(cfg, w'.files);
  }

  /** What the first start makes of an empty disk: a root CA for five years, its subject the empty name, and all else
      for one year. */
  lemma FirstDates(cfg: Config, w: World, cs: Chains, w': World)
    requires w.files == map[] && Started(cfg, w, cs, w')
    ensures var base, root := cfg.dataDirectory + ["cert"], cfg.dataDirectory + ["cert", "root-ca", "ca.crt"];
            && ValidFor(w'.files, root, w.now, 1825) && BundleAt(w'.files, root)[0].subject == Name("", "", [])
            && (forall p :: p in FIRST_FILES ==> ValidFor(w'.files, base + p, w.now, 365))
            && (cfg.embedEtcd ==> forall p :: p in FIRST_ETCD_FILES ==> ValidFor(w'.files, base + p, w.now, 365))
  {
    hide Started, ValidFor;
    assert FIRST_FILES == FIRST_FILES[..3] + FIRST_FILES[3..];
    FirstRoot(cfg, w, cs, w');
    FirstServers(cfg, w, cs, w');
    FirstClients(cfg, w, cs, w');
    if cfg.embedEtcd {
      FirstEtcd(cfg, w, cs, w');
    }
  }

  lemma FirstServers(cfg: Config, w: World, cs: Chains, w': World)
    requires w.files == map[] && Started(cfg, w, cs, w')
    ensures forall p :: p in FIRST_FILES[..3] ==> ValidFor(w'.files, CertsDirectory(cfg) + p, w.now, 365)
  {
    hide Started, ValidFor;
    var base := CertsDirectory(cfg);
    assert RootSigner(cfg).subs[0] == ServerSigner(cfg, base);
    FirstSub(cfg, 0, w, cs, w');
    FirstPair(cfg, 0, 0, w, cs, w');
    FirstPair(cfg, 0, 1, w, cs, w');
    Joined(base, "server-ca", "kube-apiserver", "server.crt");
    Joined(base, "server-ca", "kube-aggregator", "server.crt");
  }

  lemma FirstClients(cfg: Config, w: World, cs: Chains, w': World)
    requires w.files == map[] && Started(cfg, w, cs, w')
    ensures forall p :: p in FIRST_FILES[3..] ==> ValidFor(w'.files, CertsDirectory(cfg) + p, w.now, 365)
  {
    hide Started, ValidFor;
    var base := CertsDirectory(cfg);
    assert RootSigner(cfg).subs[1] == RequestHeaderSigner(base) && RootSigner(cfg).subs[2] == ClientSigner(base);
    FirstSub(cfg, 1, w, cs, w');
    FirstPair(cfg, 1, 0, w, cs, w');
    FirstSub(cfg, 2, w, cs, w');
    FirstPair(cfg, 2, 0, w, cs, w');
    FirstPair(cfg, 2, 1, w, cs, w');
    FirstPair(cfg, 2, 2, w, cs, w');
    Joined(base, "request-header-ca", "auth-proxy", "client.crt");
    Joined(base, "client-ca", "admin", "client.crt");
    Joined(base, "client-ca", "kube-apiserver", "client.crt");
    Joined(base, "client-ca", "kube-aggregator", "client.crt");
  }

  lemma FirstEtcd(cfg: Config, w: World, cs: Chains, w': World)
    requires w.files == map[] && Started(cfg, w, cs, w') && cfg.embedEtcd
    ensures forall p :: p in FIRST_ETCD_FILES ==> ValidFor(w'.files, CertsDirectory(cfg) + p, w.now, 365)
  {
    hide Started, ValidFor;
    var base := CertsDirectory(cfg);
    EtcdIs(cfg);
    FirstSub(cfg, 3, w, cs, w');
    FirstPair(cfg, 3, 0, w, cs, w');
    FirstPair(cfg, 3, 1, w, cs, w');
    Joined(base, "etcd-ca", "client", "client.crt");
    Joined(base, "etcd-ca", "peer", "peer.crt");
  }

  /* ---- InitCerts ---- */

  /** InitCerts: certSetup followed by the renewal loop, a start in the sense above.  From any ready disk it
      succeeds; the trees have every signer, request and bundle configured; every certificate is chained to its
      parent's current CA and equal to what the disk holds; each configured bundle has its signer's certificate;
      every certificate asked for that was on disk with nothing due at or above it is still there, and the others
      meet their outcomes; nothing is due; and the next start can again begin from the disk. */
  method InitCerts(cfg: Config, disk: Disk) returns (err: Option<Error>, chains: CertificateChains)
    requires ReadyToInit(cfg, disk.State())
    modifies disk
    ensures err == None && disk.now == old(disk.now)
    ensures fresh(chains) && fresh(chains.Repr) && chains.Valid() && chains.Model().Keys == {ROOT}
    ensures Started(cfg, old(disk.State()), chains.Model(), disk.State())
    ensures Intact(chains.Model(), disk.State())
    ensures TreesCompleted(chains.Model(), [RootSigner(cfg)], Registrations(cfg), old(disk.files))
    ensures ConfiguredFiles(cfg, disk.files)
    ensures cfg.embedEtcd ==> PeerMet(cfg, old(disk.State()), disk.State())
    ensures AllBundlesFresh(chains.Model(), disk.files)
    ensures RegistrationsFresh(chains.Model(), Registrations(cfg), disk.files)
    ensures AllMet(cfg, old(disk.State()), disk.State())
    ensures Rotation.CertsToRegenerate(AllVisits(chains.Model()), disk.now) == []
    ensures ReadyToInit(cfg, disk.State())
  {
    hide CertificateChains.Valid, CertificateChains.Model, Intact, AllVisits, Registrations, RootSigner, ReadyToInit;
    hide CompleteChains, SameShapes;
    hide Rotation.CertsToRegenerate, AllBundlesFresh, TopsReady, RegistrationsFor, LongTops, Enumerates, TreesCompleted;
    hide RegistrationsFresh, AllMet;
    hide InitCalls, Run, ValidityOk, ConfiguredFiles, PeerMet;
    ghost var w := disk.State();
    var bs := [RootSigner(cfg)];
    var regs := Enumerate(Registrations(cfg));
    SetupPrepared(cfg, regs, w);
    ghost var cs, w1 := CompleteChainsSound(bs, regs, w);
    err, chains := CertificateChains.Complete(bs, regs, disk);
    ghost var calls;
    err, calls := chains.RenewDue(disk);
    assert StartsUp(RootSigner(cfg), regs, w, calls, chains.Model(), disk.State());
    StartSound(cfg, w, chains.Model(), disk.State());
    ConfiguredOnDisk(cfg, w, chains.Model(), disk.State());
    if cfg.embedEtcd {
      PeerOnDisk(cfg, w, chains.Model(), disk.State());
    }
  }
}
