/** The signer tree, its builders, and every operation of the engine as a function of the tree and the world. */
module Tree {
  import opened Base
  import opened Pki

  datatype Leaf = Leaf(csr: Csr, tls: Tls)

  /** A completed CertificateSigner. */
  datatype Node = Node(
    name: string, ca: Tls, dir: Path, days: int,
    subs: map<string, Node>, leaves: map<string, Leaf>, bundles: set<Path>)

  /** The builder a signer is completed from. */
  datatype Builder = Builder(
    name: string, dir: Path, days: int, caInfo: Option<CAInfo>,
    subs: seq<Builder>, csrs: seq<Csr>, bundlePaths: seq<Path>)

  /** What a tree asks for, with every certificate and every iteration order forgotten. */
  datatype Shape = Shape(
    name: string, dir: Path, days: int,
    subs: map<string, Shape>, csrs: map<string, Csr>, bundles: set<Path>)

  datatype Error =
    | SignerNotFound(name: string)
    | NoCertificate(name: string)
    | NotIntermediary(name: string)
    | NoSuchSigner(name: string)
    | NameClash(name: string)
    | BadBundle(path: Path)
    | NilDereference             // stands for the panic

  datatype Out = Ok(node: Node, w: World) | Err(error: Error)

  /* ---- bundles ---- */

  datatype Key = Key(subject: Name, issuer: Name)

  function KeyOf(c: Cert): Key { Key(c.subject, c.issuerName) }

  /** The first entry with the certificate's subject and issuer is overwritten; without one the certificate is
      appended. */
  function Upsert(certs: seq<Cert>, c: Cert): seq<Cert> {
    if certs == [] then [c]
    else if KeyOf(certs[0]) == KeyOf(c) then [c] + certs[1..]
    else [certs[0]] + Upsert(certs[1..], c)
  }

  function BundleAt(files: map<Path, File>, p: Path): seq<Cert> {
    if p in files && files[p].CertFile? then files[p].certs else []
  }

  predicate Readable(files: map<Path, File>, p: Path) {
    p in files ==> files[p].CertFile?
  }

  function AddToBundles(n: Node, ps: seq<Path>, w: World): Out
    decreases |ps|
  {
    if ps == [] then Ok(n, w)
    else if !Readable(w.files, ps[0]) then Err(BadBundle(ps[0]))
    else
      AddToBundles(n.(bundles := n.bundles + {ps[0]}), ps[1..],
                   w.(files := w.files[ps[0] := CertFile(Upsert(BundleAt(w.files, ps[0]), n.ca.cert))]))
  }

  /* ---- completing a builder ---- */

  function SignCertificate(n: Node, csr: Csr, w: World): (Node, World) {
    match GetLeaf(w.files, n.dir, csr)
    case Some(t) => if csr.Peer? then (n, w) else (n.(leaves := n.leaves[csr.name := Leaf(csr, t)]), w)
    case None =>
      var t := IssueLeaf(n.ca, csr, w);
      (n.(leaves := n.leaves[csr.name := Leaf(csr, t)]),
       w.(files := PutTls(w.files, LeafCertPath(n.dir, csr), LeafKeyPath(n.dir, csr), t), next := w.next + 1))
  }

  function SignCertificates(n: Node, csrs: seq<Csr>, w: World): (Node, World)
    decreases |csrs|
  {
    if csrs == [] then (n, w) else
      var (n1, w1) := SignCertificate(n, csrs[0], w);
      SignCertificates(n1, csrs[1..], w1)
  }

  function Empty(b: Builder, ca: Tls): Node {
    Node(b.name, ca, b.dir, b.days, map[], map[], {})
  }

  function Complete(b: Builder, ca: Tls, w: World): Out
    decreases b, 1
  {
    match SignSubCAs(Empty(b, ca), b.subs, w)
    case Err(e) => Err(e)
    case Ok(n1, w1) =>
      var (n2, w2) := SignCertificates(n1, b.csrs, w1);
      AddToBundles(n2, b.bundlePaths, w2)
  }

  function SignSubCA(n: Node, b: Builder, w: World): Out
    decreases b, 2
  {
    var (ca, w1) := EnsureSubCA(n.ca, b.name, b.dir, b.days, w);
    match Complete(b, ca, w1)
    case Err(e) => Err(e)
    case Ok(c, w2) => Ok(n.(subs := n.subs[c.name := c]), w2)
  }

  function SignSubCAs(n: Node, bs: seq<Builder>, w: World): Out
    decreases bs, 0
  {
    if bs == [] then Ok(n, w) else
      match SignSubCA(n, bs[0], w)
      case Err(e) => Err(e)
      case Ok(n1, w1) => SignSubCAs(n1, bs[1..], w1)
  }

  function CompleteRoot(b: Builder, w: World): Out
    requires b.caInfo.Some?
  {
    var (ca, w1) := EnsureCA(b.caInfo.value, w);
    Complete(b, ca, w1)
  }

  /* ---- shapes and rebuilding ---- */

  ghost function NodeShape(n: Node): Shape {
    Shape(n.name, n.dir, n.days, map k | k in n.subs :: NodeShape(n.subs[k]), map k | k in n.leaves :: n.leaves[k].csr,
          n.bundles)
  }

  function BuilderShape(b: Builder): Shape
    decreases b, 1
  {
    Shape(b.name, b.dir, b.days, BuilderShapes(b.subs), CsrsByName(b.csrs), set p | p in b.bundlePaths)
  }

  function BuilderShapes(bs: seq<Builder>): map<string, Shape>
    decreases bs, 0
  {
    if bs == [] then map[] else BuilderShapes(bs[1..])[bs[0].name := BuilderShape(bs[0])]
  }

  function CsrsByName(csrs: seq<Csr>): map<string, Csr> {
    if csrs == [] then map[] else CsrsByName(csrs[1..])[csrs[0].name := csrs[0]]
  }

  /** No two sub-CAs and no two certificates of one signer share a name. */
  ghost predicate WellNamed(b: Builder)
    decreases b, 1
  {
    AllWellNamed(b.subs) && DistinctCsrs(b.csrs)
  }

  ghost predicate AllWellNamed(bs: seq<Builder>)
    decreases bs, 0
  {
    bs != [] ==> WellNamed(bs[0]) && bs[0].name !in BuilderShapes(bs[1..]) && AllWellNamed(bs[1..])
  }

  ghost predicate DistinctCsrs(csrs: seq<Csr>) {
    csrs != [] ==> csrs[0].name !in CsrsByName(csrs[1..]) && DistinctCsrs(csrs[1..])
  }

  /** `b` is what toBuilder makes of the live signer `n`, for some iteration order of its maps and sets. */
  ghost predicate Rebuilds(b: Builder, n: Node) {
    WellNamed(b) && BuilderShape(b) == NodeShape(n)
  }

  /* ---- renewal ---- */

  /** The builders toBuilder produced and the order in which the signer's own bundles were visited. */
  datatype Choices = Choices(builders: seq<Builder>, bundleOrder: seq<Path>)

  function RenewSubCA(n: Node, k: string, b: Builder, w: World): Out {
    if k !in n.subs then Err(SignerNotFound(k))
    else SignSubCA(n, b, w.(files := RemoveAll(w.files, n.subs[k].dir)))
  }

  function RenewCertificate(n: Node, k: string, w: World): Out {
    if k !in n.leaves then Err(NoCertificate(k))
    else
      var csr := n.leaves[k].csr;
      var (n1, w1) := SignCertificate(n, csr, w.(files := RemoveAll(w.files, LeafDir(n.dir, csr.name))));
      Ok(n1, w1)
  }

  function OwnCAInfo(n: Node): CAInfo {
    CAInfo(n.name, n.days, CACertPath(n.dir), CAKeyPath(n.dir), CASerialsPath(n.dir))
  }

  function RenewSelf(n: Node, bundleOrder: seq<Path>, w: World): Out {
    var (ca, w1) := EnsureCA(OwnCAInfo(n), w.(files := RemoveAll(w.files, n.dir)));
    AddToBundles(n.(ca := ca), bundleOrder, w1)
  }

  function RenewSubCAs(n: Node, ks: seq<string>, bs: seq<Builder>, w: World): Out
    requires |ks| == |bs|
    decreases |ks|
  {
    if ks == [] then Ok(n, w) else
      match RenewSubCA(n, ks[0], bs[0], w)
      case Err(e) => Err(e)
      case Ok(n1, w1) => RenewSubCAs(n1, ks[1..], bs[1..], w1)
  }

  function RenewCertificates(n: Node, ks: seq<string>, w: World): Out
    decreases |ks|
  {
    if ks == [] then Ok(n, w) else
      match RenewCertificate(n, ks[0], w)
      case Err(e) => Err(e)
      case Ok(n1, w1) => RenewCertificates(n1, ks[1..], w1)
  }

  /** Regenerate without a path: the signer itself when it is a root, then its sub-CAs and certificates in name
      order. */
  ghost function RenewAll(n: Node, ch: Choices, w: World): Out
    requires |ch.builders| == |n.subs.Keys|
  {
    var self := if n.ca.chain == [] then RenewSelf(n, ch.bundleOrder, w) else Ok(n, w);
    match self
    case Err(e) => Err(e)
    case Ok(n1, w1) =>
      match RenewSubCAs(n1, Sorted(n.subs.Keys), ch.builders, w1)
      case Err(e) => Err(e)
      case Ok(n2, w2) => RenewCertificates(n2, Sorted(n2.leaves.Keys), w2)
  }

  /** `ch` is one of the choices a Regenerate call on `n` with `path` may make. */
  ghost predicate Possible(n: Node, path: Path, ch: Choices)
    decreases |path|
  {
    if |path| == 0 then
      && |ch.builders| == |n.subs.Keys|
      && (forall i :: 0 <= i < |ch.builders| ==> Rebuilds(ch.builders[i], n.subs[Sorted(n.subs.Keys)[i]]))
      && Enumerates(ch.bundleOrder, n.bundles)
    else if |path| == 1 then
      path[0] in n.subs ==> |ch.builders| == 1 && Rebuilds(ch.builders[0], n.subs[path[0]])
    else
      path[0] in n.subs ==> Possible(n.subs[path[0]], path[1..], ch)
  }

  ghost function Regenerate(n: Node, path: Path, ch: Choices, w: World): Out
    requires Possible(n, path, ch)
    decreases |path|
  {
    if |path| == 0 then RenewAll(n, ch, w)
    else if |path| == 1 then
      if path[0] in n.subs then RenewSubCA(n, path[0], ch.builders[0], w) else RenewCertificate(n, path[0], w)
    else if path[0] in n.subs then
      match Regenerate(n.subs[path[0]], path[1..], ch, w)
      case Err(e) => Err(e)
      case Ok(c, w1) => Ok(n.(subs := n.subs[path[0] := c]), w1)
    else Err(NotIntermediary(path[0]))
  }
}
