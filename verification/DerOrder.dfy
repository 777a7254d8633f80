/** The order userToSubject puts a user's groups in, and exactly when it makes their DER encodings ascend.  A string
    stands for its bytes, one character each. */
module DerOrder {
  import opened Base

  /* ---- the order ---- */

  /** sortedForDER.Less: shorter first, then byte order. */
  predicate DerLess(a: string, b: string) {
    if |a| == |b| then StrLess(a, b) else |a| < |b|
  }

  function Insert(g: string, gs: seq<string>): seq<string> {
    if gs == [] || !DerLess(gs[0], g) then [g] + gs else [gs[0]] + Insert(g, gs[1..])
  }

  function SortForDer(gs: seq<string>): seq<string> {
    if gs == [] then [] else Insert(gs[0], SortForDer(gs[1..]))
  }

  /** No later element comes before an earlier one. */
  ghost predicate DerSorted(q: seq<string>) {
    forall i, j :: 0 <= i < j < |q| ==> !DerLess(q[j], q[i])
  }

  lemma DerLessTransitive(a: string, b: string, c: string)
    requires !DerLess(b, a) && !DerLess(c, b)
    ensures !DerLess(c, a)
  {
    if |a| == |b| == |c| && StrLess(c, a) {
      if a != b {
        StrLessTotal(a, b);
        StrLessTransitive(c, a, b);
      }
      assert false;
    }
  }

  lemma DerLessTotal(a: string, b: string)
    requires a != b
    ensures DerLess(a, b) || DerLess(b, a)
  {
    StrLessTotal(a, b);
  }

  lemma InFront(g: string, gs: seq<string>)
    requires DerSorted(gs) && (gs == [] || !DerLess(gs[0], g))
    ensures DerSorted([g] + gs) && multiset([g] + gs) == multiset(gs) + multiset{g}
  {
    hide DerLess;
    forall j | 0 < j < |gs| ensures !DerLess(gs[j], g) {
      DerLessTransitive(g, gs[0], gs[j]);
    }
  }

  lemma {:induction false} InsertSorted(g: string, gs: seq<string>)
    requires DerSorted(gs)
    ensures DerSorted(Insert(g, gs)) && multiset(Insert(g, gs)) == multiset(gs) + multiset{g}
  {
    if gs == [] || !DerLess(gs[0], g) {
      InFront(g, gs);
    } else {
      var rest := Insert(g, gs[1..]);
      InsertSorted(g, gs[1..]);
      assert gs == [gs[0]] + gs[1..];
      assert DerLess(gs[0], g) && !DerLess(g, gs[0]) by { Asymmetric(gs[0], g); }
      forall j | 0 <= j < |rest| ensures !DerLess(rest[j], gs[0]) {
        assert rest[j] in multiset(rest);
        assert rest[j] == g || rest[j] in gs[1..];
      }
    }
  }

  lemma Asymmetric(a: string, b: string)
    requires DerLess(a, b)
    ensures !DerLess(b, a)
  {
    if |a| == |b| && StrLess(b, a) {
      StrLessTransitive(a, b, a);
      StrLessIrreflexive(a);
    }
  }

  /** The groups are permuted and put in order. */
  lemma {:induction false} SortForDerSorts(gs: seq<string>)
    ensures DerSorted(SortForDer(gs)) && multiset(SortForDer(gs)) == multiset(gs)
  {
    if gs != [] {
      assert gs == [gs[0]] + gs[1..];
      SortForDerSorts(gs[1..]);
      InsertSorted(gs[0], SortForDer(gs[1..]));
    }
  }

  lemma SameFirst(p: seq<string>, q: seq<string>)
    requires DerSorted(p) && DerSorted(q) && multiset(p) == multiset(q) && p != [] && q != []
    ensures p[0] == q[0]
  {
    hide DerLess;
    assert p[0] in multiset(q) && q[0] in multiset(p);
    var i :| 0 <= i < |q| && q[i] == p[0];
    var j :| 0 <= j < |p| && p[j] == q[0];
    if p[0] != q[0] {
      DerLessTotal(p[0], q[0]);
      assert false;
    }
  }

  /** Any sorting algorithm arrives at the same list. */
  lemma {:induction false} SortedUnique(p: seq<string>, q: seq<string>)
    requires DerSorted(p) && DerSorted(q) && multiset(p) == multiset(q)
    ensures p == q
  {
    hide DerLess;
    assert |p| == |multiset(p)| == |multiset(q)| == |q|;
    if p != [] {
      SameFirst(p, q);
      assert p == [p[0]] + p[1..] && q == [q[0]] + q[1..];
      assert multiset(p[1..]) == multiset(p) - multiset{p[0]};
      assert multiset(q[1..]) == multiset(q) - multiset{q[0]};
      SortedUnique(p[1..], q[1..]);
    }
  }

  method Place(groups: seq<string>, g: string) returns (r: seq<string>)
    ensures r == Insert(g, groups)
  {
    hide DerLess;
    var at := 0;
    while at < |groups| && DerLess(groups[at], g)
      invariant 0 <= at <= |groups|
      invariant Insert(g, groups) == groups[..at] + Insert(g, groups[at..])
    {
      assert groups[..at + 1] == groups[..at] + [groups[at]] && groups[at..][1..] == groups[at + 1..];
      at := at + 1;
    }
    r := groups[..at] + [g] + groups[at..];
  }

  /** The copy-and-sort of userToSubject, done by insertion. */
  method SortGroups(ugroups: seq<string>) returns (groups: seq<string>)
    ensures groups == SortForDer(ugroups)
  {
    hide DerSorted, Insert, SortForDer;
    groups := [];
    assert DerSorted(groups) by { EmptySorted(); }
    for i := 0 to |ugroups|
      invariant DerSorted(groups) && multiset(groups) == multiset(ugroups[..i])
    {
      assert ugroups[..i + 1] == ugroups[..i] + [ugroups[i]];
      InsertSorted(ugroups[i], groups);
      groups := Place(groups, ugroups[i]);
    }
    assert ugroups[..|ugroups|] == ugroups;
    SortForDerSorts(ugroups);
    SortedUnique(groups, SortForDer(ugroups));
  }

  lemma EmptySorted()
    ensures DerSorted([])
  {
  }

  /* ---- the encoding ---- */

  type Octets = seq<nat>

  /** Big-endian octets without leading zeros. */
  function BigEndian(n: nat): Octets {
    if n < 256 then [n] else BigEndian(n / 256) + [n % 256]
  }

  /** Definite length in the fewest octets: section 10.1 of X.690. */
  function LengthOctets(n: nat): Octets {
    if n < 128 then [n] else [128 + |BigEndian(n)|] + BigEndian(n)
  }

  function Bytes(g: string): Octets {
    seq(|g|, i requires 0 <= i < |g| => g[i] as int)
  }

  /** The characters of PrintableString, section 41.4 of X.680. */
  predicate Printable(c: char) {
    || 'a' <= c <= 'z' || 'A' <= c <= 'Z' || '0' <= c <= '9' || '\'' <= c <= ')' || '+' <= c <= '/'
    || c == ' ' || c == ':' || c == '=' || c == '?'
  }

  const PRINTABLE_STRING := 0x13
  const UTF8_STRING := 0x0C

  /** The encoder chooses the string type for each group by itself. */
  function Tag(g: string): nat {
    if forall i :: 0 <= i < |g| ==> Printable(g[i]) then PRINTABLE_STRING else UTF8_STRING
  }

  /** The content of one attribute: the object identifier 2.5.4.10 and the group as a string with the given tag. */
  function Content(tag: nat, g: string): Octets {
    [0x06, 0x03, 0x55, 0x04, 0x0A, tag] + LengthOctets(|g|) + Bytes(g)
  }

  /** The encoded AttributeTypeAndValue. */
  function Attribute(tag: nat, g: string): Octets {
    [0x30] + LengthOctets(|Content(tag, g)|) + Content(tag, g)
  }

  function Encoded(g: string): Octets {
    Attribute(Tag(g), g)
  }

  /** Two attributes octet by octet: an organization written as a PrintableString and one written as a UTF8String. */
  lemma EncodedExamples()
    ensures Encoded("abc") == [0x30, 0x0A, 0x06, 0x03, 0x55, 0x04, 0x0A, 0x13, 0x03, 0x61, 0x62, 0x63]
    ensures Encoded("x_z") == [0x30, 0x0A, 0x06, 0x03, 0x55, 0x04, 0x0A, 0x0C, 0x03, 0x78, 0x5F, 0x7A]
  {
    assert !Printable("x_z"[1]);
    assert LengthOctets(3) == [3] && LengthOctets(10) == [10];
    assert Bytes("abc") == [0x61, 0x62, 0x63] && Bytes("x_z") == [0x78, 0x5F, 0x7A];
  }

  /** The two strings differ first where the left one has the smaller octet. */
  ghost predicate FirstDiffers(a: Octets, b: Octets) {
    exists i :: 0 <= i < |a| && i < |b| && a[..i] == b[..i] && a[i] < b[i]
  }

  function PaddedAt(a: Octets, i: nat): nat {
    if i < |a| then a[i] else 0
  }

  /** The order of section 11.6 of X.690: octet strings, the shorter one padded with zero octets. */
  ghost predicate OctetLess(a: Octets, b: Octets) {
    exists i :: PaddedLess(a, b, i)
  }

  ghost predicate PaddedLess(a: Octets, b: Octets, i: nat) {
    PaddedAt(a, i) < PaddedAt(b, i) && forall j :: 0 <= j < i ==> PaddedAt(a, j) == PaddedAt(b, j)
  }

  lemma FirstDiffersLess(a: Octets, b: Octets)
    requires FirstDiffers(a, b)
    ensures OctetLess(a, b)
  {
    var i :| 0 <= i < |a| && i < |b| && a[..i] == b[..i] && a[i] < b[i];
    forall j | 0 <= j < i ensures PaddedAt(a, j) == PaddedAt(b, j) {
      assert a[..i][j] == b[..i][j];
    }
    assert PaddedLess(a, b, i);
  }

  lemma FirstDiffersAround(p: Octets, a: Octets, b: Octets, x: Octets, y: Octets)
    requires FirstDiffers(a, b)
    ensures FirstDiffers(p + a + x, p + b + y)
  {
    var i :| 0 <= i < |a| && i < |b| && a[..i] == b[..i] && a[i] < b[i];
    var c, d, n := p + a + x, p + b + y, |p| + i;
    assert c[..n] == p + a[..i] && d[..n] == p + b[..i];
    assert c[n] == a[i] && d[n] == b[i];
  }

  lemma {:induction false} BigEndianLonger(m: nat, n: nat)
    requires m <= n
    ensures |BigEndian(m)| <= |BigEndian(n)|
  {
    if m >= 256 {
      BigEndianLonger(m / 256, n / 256);
    }
  }

  lemma {:induction false} BigEndianLess(m: nat, n: nat)
    requires m < n && |BigEndian(m)| == |BigEndian(n)|
    ensures FirstDiffers(BigEndian(m), BigEndian(n))
  {
    var a, b := BigEndian(m), BigEndian(n);
    if n < 256 {
      assert a[..0] == b[..0];
    } else {
      var p, q := BigEndian(m / 256), BigEndian(n / 256);
      if m / 256 == n / 256 {
        assert a[..|p|] == p == b[..|q|];
        assert a[|p|] < b[|p|];
      } else {
        BigEndianLess(m / 256, n / 256);
        FirstDiffersAround([], p, q, [m % 256], [n % 256]);
        assert [] + p + [m % 256] == a && [] + q + [n % 256] == b;
      }
    }
  }

  /** Smaller lengths have smaller length octets. */
  lemma LengthOctetsLess(m: nat, n: nat)
    requires m < n
    ensures FirstDiffers(LengthOctets(m), LengthOctets(n))
    ensures |LengthOctets(m)| <= |LengthOctets(n)|
  {
    var a, b := LengthOctets(m), LengthOctets(n);
    BigEndianLonger(m, n);
    if m >= 128 && |BigEndian(m)| == |BigEndian(n)| {
      BigEndianLess(m, n);
      FirstDiffersAround([128 + |BigEndian(m)|], BigEndian(m), BigEndian(n), [], []);
      assert [128 + |BigEndian(m)|] + BigEndian(m) + [] == a && [128 + |BigEndian(m)|] + BigEndian(n) + [] == b;
    } else {
      assert a[..0] == b[..0] && a[0] < b[0];
    }
  }

  lemma {:induction false} BytesLess(a: string, b: string)
    requires StrLess(a, b) && |a| == |b|
    ensures FirstDiffers(Bytes(a), Bytes(b))
  {
    var x, y := Bytes(a), Bytes(b);
    if a[0] < b[0] {
      assert x[..0] == y[..0];
    } else {
      BytesLess(a[1..], b[1..]);
      FirstDiffersAround([x[0]], Bytes(a[1..]), Bytes(b[1..]), [], []);
      assert [x[0]] + Bytes(a[1..]) + [] == x && [x[0]] + Bytes(b[1..]) + [] == y;
    }
  }

  lemma ShorterEncodes(t: nat, a: string, u: nat, b: string)
    requires |a| < |b|
    ensures FirstDiffers(Attribute(t, a), Attribute(u, b))
  {
    hide FirstDiffers, LengthOctets;
    var c, d := Content(t, a), Content(u, b);
    LengthOctetsLess(|a|, |b|);
    assert |c| < |d|;
    LengthOctetsLess(|c|, |d|);
    FirstDiffersAround([0x30], LengthOctets(|c|), LengthOctets(|d|), c, d);
  }

  lemma Regroup(a: Octets, b: Octets, c: Octets)
    ensures a + b + c + [] == a + (b + c)
  {
  }

  lemma BytesLength(g: string)
    ensures |Bytes(g)| == |g|
  {
  }

  lemma SameLengthEncodes(t: nat, a: string, b: string)
    requires |a| == |b| && StrLess(a, b)
    ensures FirstDiffers(Attribute(t, a), Attribute(t, b))
  {
    hide FirstDiffers, LengthOctets, StrLess, Bytes;
    BytesLess(a, b);
    assert |Bytes(a)| == |Bytes(b)| by { BytesLength(a); BytesLength(b); }
    var head := [0x06, 0x03, 0x55, 0x04, 0x0A, t] + LengthOctets(|a|);
    var outer := [0x30] + LengthOctets(|Content(t, a)|);
    FirstDiffersAround(outer + head, Bytes(a), Bytes(b), [], []);
    Regroup(outer, head, Bytes(a));
    Regroup(outer, head, Bytes(b));
  }

  const OID: Octets := [0x06, 0x03, 0x55, 0x04, 0x0A]

  lemma ContentParts(t: nat, g: string)
    ensures Content(t, g) == OID + [t] + (LengthOctets(|g|) + Bytes(g))
    ensures |Content(t, g)| == 6 + |LengthOctets(|g|)| + |g|
  {
  }

  /** With lengths alike the string type decides. */
  lemma TagDecides(t: nat, a: string, u: nat, b: string)
    requires |a| == |b| && t < u
    ensures FirstDiffers(Attribute(t, a), Attribute(u, b))
  {
    hide FirstDiffers, LengthOctets, Bytes, Content;
    ContentParts(t, a);
    ContentParts(u, b);
    assert FirstDiffers([t], [u]) by { OneOctet(t, u); }
    var outer := [0x30] + LengthOctets(|Content(t, a)|);
    FirstDiffersAround(outer + OID, [t], [u], LengthOctets(|a|) + Bytes(a), LengthOctets(|b|) + Bytes(b));
    Grouped(outer, OID, [t], LengthOctets(|a|) + Bytes(a));
    Grouped(outer, OID, [u], LengthOctets(|b|) + Bytes(b));
  }

  lemma OneOctet(t: nat, u: nat)
    requires t < u
    ensures FirstDiffers([t], [u])
  {
    assert [t][..0] == [u][..0];
  }

  lemma Grouped(a: Octets, b: Octets, c: Octets, d: Octets)
    ensures a + b + c + d == a + (b + c + d)
  {
  }

  lemma NotBoth(a: Octets, b: Octets, i: nat, j: nat)
    requires PaddedLess(a, b, i)
    ensures !PaddedLess(b, a, j)
  {
  }

  lemma OctetAsymmetric(a: Octets, b: Octets)
    requires OctetLess(a, b)
    ensures !OctetLess(b, a)
  {
    hide PaddedLess;
    var i: nat :| PaddedLess(a, b, i);
    forall j: nat ensures !PaddedLess(b, a, j) {
      NotBoth(a, b, i, j);
    }
  }

  /** Of two groups in sortedForDER's order the first has the smaller encoding exactly when it is shorter or its string
      type has no larger tag. */
  lemma AscendsIff(t: nat, a: string, u: nat, b: string)
    requires DerLess(a, b)
    ensures OctetLess(Attribute(t, a), Attribute(u, b)) <==> |a| < |b| || t <= u
  {
    hide FirstDiffers, OctetLess, Attribute;
    if |a| < |b| {
      ShorterEncodes(t, a, u, b);
      FirstDiffersLess(Attribute(t, a), Attribute(u, b));
    } else if t == u {
      SameLengthEncodes(t, a, b);
      FirstDiffersLess(Attribute(t, a), Attribute(u, b));
    } else if t < u {
      TagDecides(t, a, u, b);
      FirstDiffersLess(Attribute(t, a), Attribute(u, b));
    } else {
      TagDecides(u, b, t, a);
      FirstDiffersLess(Attribute(u, b), Attribute(t, a));
      OctetAsymmetric(Attribute(u, b), Attribute(t, a));
    }
  }

  /** The encoded attributes ascend, as section 11.6 of X.690 requires of a set. */
  ghost predicate Ascending(q: seq<string>) {
    forall i, j :: 0 <= i < j < |q| ==> q[i] == q[j] || OctetLess(Encoded(q[i]), Encoded(q[j]))
  }

  /** No group of printable characters comes before one of the same length with others. */
  ghost predicate TypesAgree(gs: seq<string>) {
    forall a, b :: a in gs && b in gs && |a| == |b| && StrLess(a, b) ==> Tag(a) <= Tag(b)
  }

  lemma SortedMembers(gs: seq<string>)
    ensures forall g :: g in SortForDer(gs) <==> g in gs
  {
    SortForDerSorts(gs);
    forall g ensures g in SortForDer(gs) <==> g in gs {
      assert g in multiset(SortForDer(gs)) <==> g in multiset(gs);
    }
  }

  lemma InOrder(q: seq<string>, a: string, b: string) returns (i: nat, j: nat)
    requires DerSorted(q) && a in q && b in q && DerLess(a, b)
    ensures i < j < |q| && q[i] == a && q[j] == b
  {
    i :| 0 <= i < |q| && q[i] == a;
    j :| 0 <= j < |q| && q[j] == b;
    Asymmetric(a, b);
    assert i != j;
  }

  /** userToSubject's organizations encode in ascending order if and only if no group of printable characters sorts
      before another of its length that has a character outside PrintableString. */
  lemma SubjectIsDerIff(gs: seq<string>)
    ensures Ascending(SortForDer(gs)) <==> TypesAgree(gs)
  {
    hide OctetLess, Attribute, Tag, StrLess, DerSorted;
    var q := SortForDer(gs);
    SortForDerSorts(gs);
    SortedMembers(gs);
    if TypesAgree(gs) {
      forall i, j | 0 <= i < j < |q| && q[i] != q[j] ensures OctetLess(Encoded(q[i]), Encoded(q[j])) {
        LaterIsLarger(q, i, j);
        AscendsIff(Tag(q[i]), q[i], Tag(q[j]), q[j]);
      }
    }
    if Ascending(q) {
      forall a, b | a in gs && b in gs && |a| == |b| && StrLess(a, b) ensures Tag(a) <= Tag(b) {
        var i, j := InOrder(q, a, b);
        assert a != b by { StrLessIrreflexive(a); }
        AscendsIff(Tag(a), a, Tag(b), b);
      }
    }
  }

  lemma LaterIsLarger(q: seq<string>, i: nat, j: nat)
    requires DerSorted(q) && i < j < |q| && q[i] != q[j]
    ensures DerLess(q[i], q[j])
  {
    hide DerLess;
    DerLessTotal(q[i], q[j]);
  }

  /** In particular when all groups have one string type. */
  lemma OneTypeIsDer(gs: seq<string>, tag: nat)
    requires forall g :: g in gs ==> Tag(g) == tag
    ensures Ascending(SortForDer(gs))
  {
    hide Tag;
    SubjectIsDerIff(gs);
  }

  /** It can fail: "abc" is put before "x_z", and the underscore makes the encoder choose the smaller tag. */
  lemma MixedTypesDescend()
    ensures SortForDer(["x_z", "abc"]) == ["abc", "x_z"] && !Ascending(SortForDer(["x_z", "abc"]))
    ensures OctetLess(Encoded("x_z"), Encoded("abc"))
  {
    var gs := ["x_z", "abc"];
    assert Tag("abc") == PRINTABLE_STRING;
    assert Tag("x_z") == UTF8_STRING by { assert !Printable("x_z"[1]); }
    assert gs[1..] == ["abc"] && SortForDer(["abc"]) == ["abc"];
    assert DerLess("abc", "x_z") && StrLess("abc", "x_z");
    assert Insert("x_z", ["abc"]) == ["abc"] + Insert("x_z", []);
    assert gs[0] == "x_z" && gs[1] == "abc" && "abc" in gs && "x_z" in gs;
    SubjectIsDerIff(gs);
    TagDecides(UTF8_STRING, "x_z", PRINTABLE_STRING, "abc");
    FirstDiffersLess(Encoded("x_z"), Encoded("abc"));
  }

  /* ---- the length octets mean the length ---- */

  function Value(o: Octets): nat {
    if o == [] then 0 else Value(o[..|o| - 1]) * 256 + o[|o| - 1]
  }

  /** Length octets decode to the length, and start with no zero octet. */
  lemma {:induction false} BigEndianMeans(n: nat)
    ensures Value(BigEndian(n)) == n && (n > 0 ==> BigEndian(n)[0] > 0)
  {
    if n >= 256 {
      BigEndianMeans(n / 256);
      assert BigEndian(n)[..|BigEndian(n)| - 1] == BigEndian(n / 256);
    } else {
      assert [n][..0] == [];
    }
  }
}
