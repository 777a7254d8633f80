/** Certificates, key files and the file system, as far as the certificate-chain engine sees them.

    A certificate and the key pair it certifies share one fresh number, `id`; `issuer` is the number of the key that
    signed it.  The parsing and signing code of library-go is reduced to lookup by path and issuance of a fresh `id`. */
module Pki {
  import opened Base
  import opened DerOrder

  type Path = seq<string>

  const DAY := 86400
  const MONTH := 30 * DAY
  /** library-go back-dates every certificate by one second. */
  const BACKDATE := 1
  /** library-go's lifetimes for a requested validity that is not positive. */
  const DEFAULT_CA_DAYS := 5 * 365
  const DEFAULT_CERT_DAYS := 2 * 365

  /** pkix.Name, reduced to the fields the engine sets. */
  datatype Name = Name(commonName: string, serialNumber: string, organization: seq<string>)

  function CN(s: string): Name { Name(s, "", []) }

  datatype Cert = Cert(id: nat, issuer: nat, subject: Name, issuerName: Name, hosts: set<string>, notBefore: int,
                       notAfter: int)

  /** A certificate with its private key, followed by the chain up to the root: crypto.TLSCertificateConfig. */
  datatype Tls = Tls(cert: Cert, chain: seq<Cert>) {
    function Pem(): seq<Cert> { [cert] + chain }
  }

  datatype File = CertFile(certs: seq<Cert>) | KeyFile(key: nat) | SerialFile

  /** The disk, the supply of fresh identities and the clock (seconds since the zero time). */
  datatype World = World(files: map<Path, File>, next: nat, now: int)

  datatype UserInfo = UserInfo(name: string, uid: string, groups: seq<string>)

  datatype Csr =
    | Client(name: string, days: int, user: UserInfo)
    | Serving(name: string, days: int, hosts: seq<string>)
    | Peer(name: string, days: int, user: UserInfo, hosts: seq<string>)

  /** Where a root CA is kept and what it is created with when it is missing. */
  datatype CAInfo = CAInfo(name: string, days: int, certFile: Path, keyFile: Path, serialFile: Path)

  function CACertPath(dir: Path): Path { dir + ["ca.crt"] }
  function CAKeyPath(dir: Path): Path { dir + ["ca.key"] }
  function CABundlePath(dir: Path): Path { dir + ["ca-bundle.crt"] }
  function CASerialsPath(dir: Path): Path { dir + ["serial.txt"] }

  const CA_FILES: set<string> := {"ca.crt", "ca.key", "ca-bundle.crt", "serial.txt"}

  function LeafDir(dir: Path, name: string): Path { dir + [name] }

  function LeafCertPath(dir: Path, csr: Csr): Path {
    LeafDir(dir, csr.name) +
    [match csr case Client(_, _, _) => "client.crt" case Serving(_, _, _) => "server.crt" case Peer(_, _, _, _) =>
     "peer.crt"]
  }

  function LeafKeyPath(dir: Path, csr: Csr): Path {
    LeafDir(dir, csr.name) +
    [match csr case Client(_, _, _) => "client.key" case Serving(_, _, _) => "server.key" case Peer(_, _, _, _) =>
     "peer.key"]
  }

  /** Reading a pair back: both files must exist and the key must belong to the first certificate. */
  function GetTls(files: map<Path, File>, certFile: Path, keyFile: Path): Option<Tls> {
    if certFile in files && keyFile in files && files[certFile].CertFile? && files[certFile].certs != []
       && files[keyFile] == KeyFile(files[certFile].certs[0].id)
    then Some(Tls(files[certFile].certs[0], files[certFile].certs[1..]))
    else None
  }

  function PutTls(files: map<Path, File>, certFile: Path, keyFile: Path, t: Tls): map<Path, File> {
    files[certFile := CertFile(t.Pem())][keyFile := KeyFile(t.cert.id)]
  }

  /** crypto.GetCA: a CA also needs its serial file. */
  function GetCA(files: map<Path, File>, certFile: Path, keyFile: Path, serialFile: Path): Option<Tls> {
    if serialFile in files && files[serialFile].SerialFile? then GetTls(files, certFile, keyFile) else None
  }

  function GetSubCA(files: map<Path, File>, dir: Path): Option<Tls> {
    GetCA(files, CABundlePath(dir), CAKeyPath(dir), CASerialsPath(dir))
  }

  /** The host names and addresses a request asks for. */
  function CsrHosts(csr: Csr): set<string> {
    match csr
    case Client(_, _, _) => {}
    case Serving(_, _, hosts) => set h | h in hosts
    case Peer(_, _, _, hosts) => set h | h in hosts
  }

  /** The names agree, organizations in any order. */
  predicate SameName(a: Name, b: Name) {
    && a.commonName == b.commonName && a.serialNumber == b.serialNumber
    && multiset(a.organization) == multiset(b.organization)
  }

  /** library-go takes a pair it finds for a request only with the request's user, or with exactly its hosts. */
  predicate MadeFor(c: Cert, csr: Csr) {
    if csr.Client? then SameName(c.subject, CsrSubject(csr)) else c.hosts == CsrHosts(csr)
  }

  function GetLeaf(files: map<Path, File>, dir: Path, csr: Csr): Option<Tls> {
    match GetTls(files, LeafCertPath(dir, csr), LeafKeyPath(dir, csr))
    case None => None
    case Some(t) => if MadeFor(t.cert, csr) then Some(t) else None
  }

  /** os.RemoveAll. */
  function RemoveAll(files: map<Path, File>, dir: Path): map<Path, File> {
    map p | p in files && !(dir <= p) :: files[p]
  }

  function MakeCert(w: World, issuer: nat, subject: Name, issuerName: Name, days: int): Cert {
    Cert(w.next, issuer, subject, issuerName, {}, w.now - BACKDATE, w.now + days * DAY)
  }

  function CADays(days: int): int { if days > 0 then days else DEFAULT_CA_DAYS }

  /** crypto.EnsureCA: the root CA on disk, or a new self-signed one. */
  function EnsureCA(ci: CAInfo, w: World): (Tls, World) {
    match GetCA(w.files, ci.certFile, ci.keyFile, ci.serialFile)
    case Some(t) => (t, w)
    case None =>
      var t := Tls(MakeCert(w, w.next, CN(ci.name), CN(ci.name), CADays(ci.days)), []);
      (t, w.(files := PutTls(w.files, ci.certFile, ci.keyFile, t)[ci.serialFile := SerialFile], next := w.next + 1))
  }

  /** libraryGoEnsureSubCA followed by writing the single-certificate file, as SignSubCA does both. */
  function EnsureSubCA(parent: Tls, name: string, dir: Path, days: int, w: World): (Tls, World) {
    match GetSubCA(w.files, dir)
    case Some(t) => (t, w.(files := w.files[CACertPath(dir) := CertFile([t.cert])]))
    case None =>
      var t := Tls(MakeCert(w, parent.cert.id, CN(name), parent.cert.subject, days), parent.Pem());
      var files := PutTls(w.files, CABundlePath(dir), CAKeyPath(dir), t)[CASerialsPath(dir) := SerialFile];
      (t, w.(files := files[CACertPath(dir) := CertFile([t.cert])], next := w.next + 1))
  }

  function CsrSubject(csr: Csr): Name {
    match csr
    case Client(_, _, u) => Name(u.name, u.uid, SortForDer(u.groups))
    case Serving(_, _, hosts) => CN(if hosts == [] then "" else hosts[0])
    case Peer(_, _, u, _) => Name(u.name, u.uid, SortForDer(u.groups))
  }

  /** userToSubject: the groups are copied and sorted. */
  method UserToSubject(u: UserInfo) returns (n: Name)
    ensures n == Name(u.name, u.uid, SortForDer(u.groups))
  {
    var groups := SortGroups(u.groups);
    n := Name(u.name, u.uid, groups);
  }

  /** The lifetime a request asks for: only peer certificates bypass library-go's default. */
  function CsrDays(csr: Csr): int {
    if csr.Peer? || csr.days > 0 then csr.days else DEFAULT_CERT_DAYS
  }

  function IssueLeaf(parent: Tls, csr: Csr, w: World): Tls {
    Tls(MakeCert(w, parent.cert.id, CsrSubject(csr), parent.cert.subject, CsrDays(csr)).(hosts := CsrHosts(csr)),
        if csr.Client? then [] else parent.Pem())
  }

  /* ---- what a certificate says ---- */

  ghost predicate SaysUser(c: Cert, u: UserInfo) {
    && c.subject.commonName == u.name && c.subject.serialNumber == u.uid
    && multiset(c.subject.organization) == multiset(u.groups)
  }

  ghost predicate SaysHosts(c: Cert, hosts: seq<string>) {
    forall h :: h in c.hosts <==> h in hosts
  }

  /** The certificate is for the user and the host names of the request. */
  ghost predicate Says(c: Cert, csr: Csr) {
    match csr
    case Client(_, _, u) => SaysUser(c, u)
    case Serving(_, _, hosts) => SaysHosts(c, hosts)
    case Peer(_, _, u, hosts) => SaysUser(c, u) && SaysHosts(c, hosts)
  }

  /** As far as a pair that is found is looked at: not at the user of a peer certificate. */
  ghost predicate SaysEnough(c: Cert, csr: Csr) {
    match csr
    case Client(_, _, u) => SaysUser(c, u)
    case Serving(_, _, hosts) => SaysHosts(c, hosts)
    case Peer(_, _, _, hosts) => SaysHosts(c, hosts)
  }

  /** What is issued for a request says what the request asks for, and is valid from a second ago for the days asked
      for; client and serving requests that ask for none get two years. */
  lemma IssuedSays(parent: Tls, csr: Csr, w: World)
    ensures var c := IssueLeaf(parent, csr, w).cert;
            && Says(c, csr) && c.notBefore == w.now - 1
            && c.notAfter == w.now + 86400 * (if csr.days <= 0 && !csr.Peer? then 730 else csr.days)
  {
    if !csr.Serving? {
      SortForDerSorts(csr.user.groups);
    }
  }

  lemma SameOrganizations(u: UserInfo)
    ensures multiset(SortForDer(u.groups)) == multiset(u.groups)
  {
    SortForDerSorts(u.groups);
  }

  /** A pair on disk is taken for a request if and only if it is for the request's user, or has exactly its hosts. */
  lemma TakenIff(files: map<Path, File>, dir: Path, csr: Csr)
    ensures var t := GetTls(files, LeafCertPath(dir, csr), LeafKeyPath(dir, csr));
            GetLeaf(files, dir, csr) == if t.Some? && SaysEnough(t.value.cert, csr) then t else None
  {
    hide GetTls, LeafCertPath, LeafKeyPath;
    match csr
    case Client(_, _, u) => SameOrganizations(u);
    case Serving(_, _, hosts) =>
    case Peer(_, _, _, hosts) =>
  }

  lemma FoundSays(files: map<Path, File>, dir: Path, csr: Csr)
    ensures GetLeaf(files, dir, csr).Some? ==> SaysEnough(GetLeaf(files, dir, csr).value.cert, csr)
    ensures GetLeaf(files, dir, csr).Some? && !csr.Peer? ==> Says(GetLeaf(files, dir, csr).value.cert, csr)
  {
    hide GetLeaf, SaysUser, SaysHosts;
    TakenIff(files, dir, csr);
  }

  /** Name and key chaining of section 6.1.3 of RFC 5280: the issuer's key signed it and the issuer's name is on it. */
  predicate IssuedBy(c: Cert, ca: Tls) {
    c.issuer == ca.cert.id && c.issuerName == ca.cert.subject
  }

  lemma GetAfterPut(files: map<Path, File>, certFile: Path, keyFile: Path, t: Tls)
    requires certFile != keyFile
    ensures GetTls(PutTls(files, certFile, keyFile, t), certFile, keyFile) == Some(t)
  {
  }

  /** What is issued for a request is taken for it. */
  lemma LeafReadBack(files: map<Path, File>, dir: Path, csr: Csr, parent: Tls, w: World)
    ensures var t := IssueLeaf(parent, csr, w);
            GetLeaf(PutTls(files, LeafCertPath(dir, csr), LeafKeyPath(dir, csr), t), dir, csr) == Some(t)
  {
    hide LeafCertPath, LeafKeyPath;
    LeafPathsInDir(dir, csr);
    GetAfterPut(files, LeafCertPath(dir, csr), LeafKeyPath(dir, csr), IssueLeaf(parent, csr, w));
  }

  /** File names inside a directory are paths below it, and different names are different paths. */
  lemma InDir(dir: Path, f: string, g: string)
    ensures dir <= dir + [f]
    ensures dir + [f] == dir + [g] ==> f == g
  {
    assert (dir + [f])[|dir|] == f && (dir + [g])[|dir|] == g;
  }

  lemma LeafPathsInDir(dir: Path, csr: Csr)
    ensures LeafDir(dir, csr.name) <= LeafCertPath(dir, csr) && LeafDir(dir, csr.name) <= LeafKeyPath(dir, csr)
    ensures LeafCertPath(dir, csr) != LeafKeyPath(dir, csr)
    ensures dir <= LeafDir(dir, csr.name) && dir <= LeafCertPath(dir, csr) && dir <= LeafKeyPath(dir, csr)
  {
    var d := LeafDir(dir, csr.name);
    assert LeafCertPath(dir, csr)[|d|] != LeafKeyPath(dir, csr)[|d|];
  }
}
