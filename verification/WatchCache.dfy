/** Watch-cache sizes: parsed from flags, merged with the defaults, printed, parsed again by the REST options factory,
    and turned into the decision whether a resource is cached. */
module WatchCache {
  import opened Base

  datatype GroupResource = GroupResource(group: string, resource: string)

  type Sizes = map<GroupResource, int>

  /** The range of Go's int. */
  const MAX_INT := 0x7FFF_FFFF_FFFF_FFFF
  const MIN_INT := -MAX_INT - 1

  /* ---- the library functions involved ---- */

  predicate IsDigit(c: char) { '0' <= c <= '9' }

  predicate AllDigits(s: string) {
    forall i :: 0 <= i < |s| ==> IsDigit(s[i])
  }

  function DigitValue(c: char): int { c as int - '0' as int }

  function Decimal(s: string): int {
    if s == [] then 0 else Decimal(s[..|s| - 1]) * 10 + DigitValue(s[|s| - 1])
  }

  /** strconv.Atoi: an optional sign, digits, and a value in range. */
  function Atoi(s: string): Option<int> {
    var signed := s != [] && (s[0] == '-' || s[0] == '+');
    var digits := if signed then s[1..] else s;
    if digits == [] || !AllDigits(digits) then None else
      var v := if signed && s[0] == '-' then -Decimal(digits) else Decimal(digits);
      if MIN_INT <= v <= MAX_INT then Some(v) else None
  }

  function Digit(d: nat): char
    requires d < 10
  {
    (d + '0' as int) as char
  }

  /** fmt's %d. */
  function PrintInt(n: nat): string {
    if n < 10 then [Digit(n)] else PrintInt(n / 10) + [Digit(n % 10)]
  }

  /** The position of the first dot, or the length. */
  function FirstDot(s: string): (n: nat)
    ensures n <= |s| && '.' !in s[..n] && (n < |s| ==> s[n] == '.')
  {
    if s == [] || s[0] == '.' then 0 else 1 + FirstDot(s[1..])
  }

  /** schema.ParseGroupResource. */
  function ParseGroupResource(s: string): GroupResource {
    var n := FirstDot(s);
    if n < |s| then GroupResource(s[n + 1..], s[..n]) else GroupResource("", s)
  }

  /** GroupResource.String. */
  function PrintGroupResource(gr: GroupResource): string {
    if gr.group == "" then gr.resource else gr.resource + "." + gr.group
  }

  /* ---- parsing and printing ---- */

  datatype Entry = Entry(gr: GroupResource, size: int)

  /** One element of the list: RESOURCE[.GROUP]#SIZE with a size that is not negative. */
  function ParseEntry(c: string): Option<Entry> {
    var tokens := Split(c, '#');
    if |tokens| != 2 then None else
      match Atoi(tokens[1])
      case None => None
      case Some(size) => if size < 0 then None else Some(Entry(ParseGroupResource(tokens[0]), size))
  }

  function ParseFrom(sizes: Sizes, cs: seq<string>): Option<Sizes>
    decreases |cs|
  {
    if cs == [] then Some(sizes) else
      match ParseEntry(cs[0])
      case None => None
      case Some(e) => ParseFrom(sizes[e.gr := e.size], cs[1..])
  }

  function Parse(cs: seq<string>): Option<Sizes> { ParseFrom(map[], cs) }

  function PrintEntry(gr: GroupResource, size: nat): string {
    PrintGroupResource(gr) + "#" + PrintInt(size)
  }

  /** `cs` is the map printed in the order `order`. */
  ghost predicate Prints(cs: seq<string>, m: Sizes, order: seq<GroupResource>) {
    && Enumerates(order, m.Keys) && |cs| == |order|
    && forall i :: 0 <= i < |order| ==> order[i] in m && m[order[i]] >= 0 && cs[i] == PrintEntry(order[i], m[order[i]])
  }

  /** parseWatchCacheSizes, and ParseWatchCacheSizes of the REST options factory. */
  method ParseWatchCacheSizes(cacheSizes: seq<string>) returns (r: Option<Sizes>)
    ensures r == Parse(cacheSizes)
    ensures r.Some? <==> forall i :: 0 <= i < |cacheSizes| ==> Accepted(cacheSizes[i])
  {
    hide Accepted;
    ParseIff(cacheSizes);
    var sizes: Sizes := map[];
    for i := 0 to |cacheSizes|
      invariant Parse(cacheSizes) == ParseFrom(sizes, cacheSizes[i..])
    {
      assert cacheSizes[i..][0] == cacheSizes[i] && cacheSizes[i..][1..] == cacheSizes[i + 1..];
      var tokens := Split(cacheSizes[i], '#');
      if |tokens| != 2 {
        return None;
      }
      var size := Atoi(tokens[1]);
      if size == None || size.value < 0 {
        return None;
      }
      sizes := sizes[ParseGroupResource(tokens[0]) := size.value];
    }
    r := Some(sizes);
  }

  /** writeWatchCacheSizes: the map is visited in an arbitrary order; a negative size is an error. */
  method WriteWatchCacheSizes(sizes: Sizes) returns (r: Option<seq<string>>, ghost order: seq<GroupResource>)
    ensures r.Some? <==> forall gr :: gr in sizes ==> sizes[gr] >= 0
    ensures r.Some? ==> Prints(r.value, sizes, order)
  {
    var cs := [];
    order := [];
    var todo := sizes.Keys;
    while todo != {}
      invariant todo <= sizes.Keys && Enumerates(order, sizes.Keys - todo) && |cs| == |order|
      invariant forall i :: 0 <= i < |order| ==>
                    order[i] in sizes && sizes[order[i]] >= 0 && cs[i] == PrintEntry(order[i], sizes[order[i]])
      decreases |todo|
    {
      var gr :| gr in todo;
      if sizes[gr] < 0 {
        return None, order;
      }
      cs := cs + [PrintEntry(gr, sizes[gr])];
      order, todo := order + [gr], todo - {gr};
    }
    assert sizes.Keys - todo == sizes.Keys;
    r := Some(cs);
    forall gr | gr in sizes ensures sizes[gr] >= 0 {
      assert gr in order;
    }
  }

  /* ---- round trips ---- */

  lemma {:induction false} PrintIntMeans(n: nat)
    ensures Decimal(PrintInt(n)) == n && PrintInt(n) != []
    ensures forall i :: 0 <= i < |PrintInt(n)| ==> IsDigit(PrintInt(n)[i])
  {
    var s := PrintInt(n);
    if n < 10 {
      assert s[..0] == [];
    } else {
      PrintIntMeans(n / 10);
      assert s[..|s| - 1] == PrintInt(n / 10);
    }
  }

  lemma AtoiPrints(n: nat)
    ensures Atoi(PrintInt(n)) == Some(n) <==> n <= MAX_INT
    ensures '#' !in PrintInt(n)
  {
    PrintIntMeans(n);
    var s := PrintInt(n);
    assert IsDigit(s[0]);
  }

  lemma {:induction false} FirstDotIs(a: string, b: string)
    requires '.' !in a
    ensures FirstDot(a + "." + b) == |a|
  {
    if a != [] {
      assert (a + "." + b)[1..] == a[1..] + "." + b;
      FirstDotIs(a[1..], b);
    }
  }

  /** Resource names without dots, and neither part with a hash sign. */
  ghost predicate Printable(gr: GroupResource) {
    '.' !in gr.resource && '#' !in gr.resource && '#' !in gr.group
  }

  lemma NameRoundTrip(gr: GroupResource)
    ensures ParseGroupResource(PrintGroupResource(gr)) == gr <==> '.' !in gr.resource
  {
    var s := PrintGroupResource(gr);
    if '.' !in gr.resource {
      if gr.group == "" {
        assert FirstDot(s) == |s|;
      } else {
        FirstDotIs(gr.resource, gr.group);
        var n := |gr.resource|;
        assert s[..n] == gr.resource && s[n + 1..] == gr.group;
      }
    } else {
      assert '.' !in ParseGroupResource(s).resource by { ParsedResource(s); }
    }
  }

  lemma ParsedResource(s: string)
    ensures '.' !in ParseGroupResource(s).resource
  {
  }

  /** An entry survives printing and parsing exactly when its names are printable and its size is in range. */
  lemma EntryRoundTrip(gr: GroupResource, size: nat)
    ensures ParseEntry(PrintEntry(gr, size)) == Some(Entry(gr, size)) <==> Printable(gr) && size <= MAX_INT
  {
    hide PrintInt, Atoi;
    var name := PrintGroupResource(gr);
    AtoiPrints(size);
    SplitLength(name, PrintInt(size), '#');
    SplitSingle(name, '#');
    SplitSingle(PrintInt(size), '#');
    if '#' !in name {
      SplitAt(name, PrintInt(size), '#');
      NameRoundTrip(gr);
    }
    assert gr.group != "" ==> forall c :: c in name <==> c in gr.resource || c == '.' || c in gr.group;
  }

  ghost predicate WellFormed(m: Sizes) {
    forall gr :: gr in m ==> Printable(gr) && 0 <= m[gr] <= MAX_INT
  }

  /** The entries of `m` put into `acc` one after the other. */
  ghost function PutAll(acc: Sizes, m: Sizes, order: seq<GroupResource>): Sizes
    requires forall i :: 0 <= i < |order| ==> order[i] in m
    decreases |order|
  {
    if order == [] then acc else PutAll(acc[order[0] := m[order[0]]], m, order[1..])
  }

  lemma {:induction false} PutAllMeans(acc: Sizes, m: Sizes, order: seq<GroupResource>, gr: GroupResource)
    requires forall i :: 0 <= i < |order| ==> order[i] in m
    ensures gr in PutAll(acc, m, order) <==> gr in acc || gr in order
    ensures gr in order ==> PutAll(acc, m, order)[gr] == m[gr]
    ensures gr in acc && gr !in order ==> PutAll(acc, m, order)[gr] == acc[gr]
    decreases |order|
  {
    if order != [] {
      assert order == [order[0]] + order[1..];
      PutAllMeans(acc[order[0] := m[order[0]]], m, order[1..], gr);
    }
  }

  lemma {:induction false} ParsePrinted(acc: Sizes, cs: seq<string>, m: Sizes, order: seq<GroupResource>)
    requires WellFormed(m) && |cs| == |order|
    requires forall i :: 0 <= i < |order| ==>
                 order[i] in m && m[order[i]] >= 0 && cs[i] == PrintEntry(order[i], m[order[i]])
    ensures ParseFrom(acc, cs) == Some(PutAll(acc, m, order))
    decreases |cs|
  {
    hide ParseEntry, PrintEntry, Printable;
    if cs != [] {
      var gr := order[0];
      EntryRoundTrip(gr, m[gr]);
      ParsePrinted(acc[gr := m[gr]], cs[1..], m, order[1..]);
    }
  }

  /** Printing in any order and parsing gives the map back. */
  lemma PrintParse(cs: seq<string>, m: Sizes, order: seq<GroupResource>)
    requires WellFormed(m) && Prints(cs, m, order)
    ensures Parse(cs) == Some(m)
  {
    hide PrintEntry, Printable, ParseFrom, PutAll;
    ParsePrinted(map[], cs, m, order);
    var r := PutAll(map[], m, order);
    forall gr ensures (gr in r <==> gr in m) && (gr in m ==> r[gr] == m[gr]) {
      PutAllMeans(map[], m, order, gr);
    }
    assert r.Keys == m.Keys;
    assert r == m;
  }

  lemma ParsedPrintable(s: string)
    requires '#' !in s
    ensures Printable(ParseGroupResource(s))
  {
  }

  lemma ParsedEntry(c: string)
    ensures ParseEntry(c).Some? ==> Printable(ParseEntry(c).value.gr) && 0 <= ParseEntry(c).value.size <= MAX_INT
  {
    if ParseEntry(c).Some? {
      SplitTokens(c, '#');
      ParsedPrintable(Split(c, '#')[0]);
    }
  }

  /** Everything the parser accepts can be printed. */
  lemma {:induction false} AcceptedIsWellFormed(acc: Sizes, cs: seq<string>)
    requires WellFormed(acc) && ParseFrom(acc, cs).Some?
    ensures WellFormed(ParseFrom(acc, cs).value)
    decreases |cs|
  {
    hide ParseEntry, Printable;
    if cs != [] {
      ParsedEntry(cs[0]);
      var e := ParseEntry(cs[0]).value;
      AcceptedIsWellFormed(acc[e.gr := e.size], cs[1..]);
    }
  }

  /** Parse, print, parse is parse, for every accepted input and every printing order. */
  lemma ParsePrintParse(user: seq<string>, printed: seq<string>, order: seq<GroupResource>)
    requires Parse(user).Some? && Prints(printed, Parse(user).value, order)
    ensures Parse(printed) == Parse(user)
  {
    AcceptedIsWellFormed(map[], user);
    PrintParse(printed, Parse(user).value, order);
  }

  /* ---- what is accepted, spelled out ---- */

  function TenTo(n: nat): nat {
    if n == 0 then 1 else 10 * TenTo(n - 1)
  }

  /** The number a string of digits stands for: each digit counts for its place. */
  function Numeral(digits: string): int {
    if digits == [] then 0 else (digits[0] as int - 48) * TenTo(|digits| - 1) + Numeral(digits[1..])
  }

  /** An optional sign and digits, standing for `n`. */
  ghost predicate Writes(b: string, sign: string, digits: string, n: int) {
    && b == sign + digits && sign in {"", "+", "-"} && digits != [] && (forall c :: c in digits ==> '0' <= c <= '9')
    && n == if sign == "-" then -Numeral(digits) else Numeral(digits)
  }

  /** RESOURCE[.GROUP]#SIZE, with a size from 0 to the largest int. */
  ghost predicate EntryText(c: string, name: string, n: int) {
    && 0 <= n <= 9223372036854775807 && '#' !in name
    && exists b, sign, digits :: c == name + "#" + b && '#' !in b && Writes(b, sign, digits, n)
  }

  lemma {:induction false} NumeralSnoc(d: string, c: char)
    ensures Numeral(d + [c]) == Numeral(d) * 10 + (c as int - 48)
  {
    if d == [] {
      assert ([] + [c])[1..] == [];
    } else {
      assert (d + [c])[1..] == d[1..] + [c];
      NumeralSnoc(d[1..], c);
    }
  }

  lemma {:induction false} DecimalNumeral(d: string)
    ensures Decimal(d) == Numeral(d)
  {
    if d != [] {
      var n := |d| - 1;
      assert d == d[..n] + [d[n]];
      DecimalNumeral(d[..n]);
      NumeralSnoc(d[..n], d[n]);
    }
  }

  lemma AtoiMeans(b: string) returns (sign: string, digits: string)
    requires Atoi(b).Some?
    ensures Writes(b, sign, digits, Atoi(b).value) && Atoi(b).value <= 9223372036854775807
  {
    var signed := b[0] == '-' || b[0] == '+';
    sign, digits := if signed then [b[0]] else "", if signed then b[1..] else b;
    DecimalNumeral(digits);
    assert b == sign + digits;
    assert AllDigits(digits);
    forall c | c in digits ensures '0' <= c <= '9' {
      var i :| 0 <= i < |digits| && digits[i] == c;
    }
  }

  lemma AtoiReads(b: string, sign: string, digits: string, n: int)
    requires Writes(b, sign, digits, n) && 0 <= n <= 9223372036854775807
    ensures Atoi(b) == Some(n)
  {
    DecimalNumeral(digits);
    assert digits[0] in digits;
    assert sign != "" ==> b[0] == sign[0] && b[1..] == digits;
    assert sign == "" ==> b == digits;
    forall i | 0 <= i < |digits| ensures IsDigit(digits[i]) {
      assert digits[i] in digits;
    }
  }

  lemma TwoTokens(c: string)
    requires |Split(c, '#')| == 2
    ensures c == Split(c, '#')[0] + "#" + Split(c, '#')[1] && '#' !in Split(c, '#')[0] && '#' !in Split(c, '#')[1]
  {
    SplitTokens(c, '#');
    var rest := SplitFirst(c, '#');
    SplitSingle(rest, '#');
  }

  /** Exactly the strings of this form parse, to the resource their name stands for and the number they write. */
  lemma ParseEntryIff(c: string, gr: GroupResource, n: int)
    ensures ParseEntry(c) == Some(Entry(gr, n)) <==>
              exists name :: EntryText(c, name, n) && ParseGroupResource(name) == gr
  {
    hide ParseGroupResource, Atoi, Writes, Split;
    if ParseEntry(c) == Some(Entry(gr, n)) {
      TwoTokens(c);
      var sign, digits := AtoiMeans(Split(c, '#')[1]);
      assert EntryText(c, Split(c, '#')[0], n);
    }
    if name :| EntryText(c, name, n) && ParseGroupResource(name) == gr {
      var b, sign, digits :| c == name + "#" + b && '#' !in b && Writes(b, sign, digits, n);
      AtoiReads(b, sign, digits, n);
      SplitAt(name, b, '#');
      SplitSingle(b, '#');
    }
  }

  /** A resource and its group are what stands before and after the first dot; without a dot there is no group. */
  lemma NameIff(name: string, gr: GroupResource)
    ensures ParseGroupResource(name) == gr <==>
              '.' !in gr.resource && (name == gr.resource + "." + gr.group || (gr.group == "" && name == gr.resource))
  {
    var n := FirstDot(name);
    if n < |name| {
      assert name == name[..n] + "." + name[n + 1..];
    } else {
      assert name == name[..n];
    }
    if '.' !in gr.resource && name == gr.resource + "." + gr.group {
      FirstDotIs(gr.resource, gr.group);
      assert name[..|gr.resource|] == gr.resource && name[|gr.resource| + 1..] == gr.group;
    }
  }

  ghost predicate Accepted(c: string) {
    exists name, n :: EntryText(c, name, n)
  }

  lemma AcceptedIff(c: string)
    ensures ParseEntry(c).Some? <==> Accepted(c)
  {
    hide EntryText, ParseGroupResource;
    if ParseEntry(c).Some? {
      ParseEntryIff(c, ParseEntry(c).value.gr, ParseEntry(c).value.size);
    }
    if name, n :| EntryText(c, name, n) {
      ParseEntryIff(c, ParseGroupResource(name), n);
    }
  }

  lemma {:induction false} ParseFromIff(sizes: Sizes, cs: seq<string>)
    ensures ParseFrom(sizes, cs).Some? <==> forall i :: 0 <= i < |cs| ==> Accepted(cs[i])
    decreases |cs|
  {
    hide ParseEntry, Accepted;
    if cs != [] {
      AcceptedIff(cs[0]);
      assert forall i :: 0 <= i < |cs[1..]| ==> cs[1..][i] == cs[i + 1];
      if ParseEntry(cs[0]).Some? {
        ParseFromIff(sizes[ParseEntry(cs[0]).value.gr := ParseEntry(cs[0]).value.size], cs[1..]);
        if forall i :: 0 <= i < |cs[1..]| ==> Accepted(cs[1..][i]) {
          forall i | 0 <= i < |cs| ensures Accepted(cs[i]) {
            assert i > 0 ==> cs[i] == cs[1..][i - 1];
          }
        }
      }
    }
  }

  /** A list parses if and only if every element has that form. */
  lemma ParseIff(cs: seq<string>)
    ensures Parse(cs).Some? <==> forall i :: 0 <= i < |cs| ==> Accepted(cs[i])
  {
    ParseFromIff(map[], cs);
  }

  /* ---- from the flags to the decision ---- */

  /** The size in the last entry for the resource, if there is one. */
  function LastEntry(cs: seq<string>, gr: GroupResource): Option<int>
    decreases |cs|
  {
    if cs == [] then None else
      var e := ParseEntry(cs[|cs| - 1]);
      if e.Some? && e.value.gr == gr then Some(e.value.size) else LastEntry(cs[..|cs| - 1], gr)
  }

  lemma {:induction false} ParseSnoc(acc: Sizes, cs: seq<string>, c: string)
    ensures ParseFrom(acc, cs + [c]) ==
            if ParseFrom(acc, cs) == None || ParseEntry(c) == None then None
            else Some(ParseFrom(acc, cs).value[ParseEntry(c).value.gr := ParseEntry(c).value.size])
    decreases |cs|
  {
    hide ParseEntry;
    if cs == [] {
      assert ([] + [c])[1..] == [];
    } else {
      assert (cs + [c])[1..] == cs[1..] + [c];
      if ParseEntry(cs[0]).Some? {
        var e := ParseEntry(cs[0]).value;
        ParseSnoc(acc[e.gr := e.size], cs[1..], c);
      }
    }
  }

  lemma {:induction false} LastEntryWins(cs: seq<string>, gr: GroupResource)
    requires Parse(cs).Some?
    ensures LastEntry(cs, gr) == if gr in Parse(cs).value then Some(Parse(cs).value[gr]) else None
    decreases |cs|
  {
    hide ParseEntry;
    if cs != [] {
      var n := |cs| - 1;
      assert cs == cs[..n] + [cs[n]];
      ParseSnoc(map[], cs[..n], cs[n]);
      LastEntryWins(cs[..n], gr);
    }
  }

  /** The watch-cache step of Complete: the flags parsed over the defaults and printed again. */
  method CompleteSizes(user: seq<string>, defaults: Sizes) returns (r: Option<seq<string>>)
    requires WellFormed(defaults)
    ensures r.Some? <==> Parse(user).Some?
    ensures r.Some? ==> Parse(r.value) == Some(defaults + Parse(user).value)
  {
    var userSpecified := ParseWatchCacheSizes(user);
    if userSpecified == None {
      return None;
    }
    AcceptedIsWellFormed(map[], user);
    var sizes := defaults + userSpecified.value;
    ghost var order;
    r, order := WriteWatchCacheSizes(sizes);
    PrintParse(r.value, sizes, order);
  }

  datatype Decorator = Undecorated | Cacher

  /** GetRESTOptions as far as the watch cache goes. */
  method GetRESTOptions(enableWatchCache: bool, watchCacheSizes: seq<string>, resource: GroupResource)
    returns (r: Option<Decorator>)
    ensures r == None <==> enableWatchCache && Parse(watchCacheSizes) == None
    ensures r.Some? ==> (r.value == Undecorated <==>
              (enableWatchCache ==>
                 resource in Parse(watchCacheSizes).value && Parse(watchCacheSizes).value[resource] <= 0))
  {
    var decorator := Undecorated;
    if enableWatchCache {
      var sizes := ParseWatchCacheSizes(watchCacheSizes);
      if sizes == None {
        return None;
      }
      if resource in sizes.value && sizes.value[resource] <= 0 {
        decorator := Undecorated;
      } else {
        decorator := Cacher;
      }
    }
    r := Some(decorator);
  }

  /** The size that counts for a resource: the user's last entry for it, else the default. */
  ghost function Requested(user: seq<string>, defaults: Sizes, resource: GroupResource): Option<int> {
    if LastEntry(user, resource).Some? then LastEntry(user, resource)
    else if resource in defaults then Some(defaults[resource]) else None
  }

  /** After a successful Complete with the watch cache on, the REST options never fail to parse, and a resource goes
      uncached exactly when the user's last entry for it, or the default if there is none, is 0. */
  method DecideCaching(user: seq<string>, defaults: Sizes, resource: GroupResource) returns (r: Option<Decorator>)
    requires WellFormed(defaults)
    ensures r == None <==> Parse(user) == None
    ensures r.Some? ==> (r.value == Undecorated <==> Requested(user, defaults, resource) == Some(0))
  {
    var completed := CompleteSizes(user, defaults);
    if completed == None {
      return None;
    }
    LastEntryWins(user, resource);
    AcceptedIsWellFormed(map[], user);
    r := GetRESTOptions(true, completed.value, resource);
  }
}
