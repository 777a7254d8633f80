/** The paths WalkChains hands out are slices that may share a backing array: which of them still read as they did once
    the walk is over. */
module Slices {
  import opened Base
  import opened Pki
  import opened Tree
  import opened Regeneration
  import opened Chains
  import opened Walk

  /** The contents of every backing array; their lengths are the capacities. */
  type Heap = seq<seq<string>>

  datatype Slice = Slice(id: nat, len: nat)

  predicate Allocated(h: Heap, s: Slice) {
    s.id < |h| && 0 < s.len <= |h[s.id]|
  }

  function Read(h: Heap, s: Slice): Path
    requires Allocated(h, s)
  {
    h[s.id][..s.len]
  }

  /** append: into the spare capacity when there is some, else into a new array of twice the capacity. */
  function Append(h: Heap, s: Slice, x: string): (Heap, Slice)
    requires Allocated(h, s)
  {
    var a := h[s.id];
    if s.len < |a| then (h[s.id := a[s.len := x]], Slice(s.id, s.len + 1))
    else (h + [a + [x] + seq(|a| - 1, _ => "")], Slice(|h|, s.len + 1))
  }

  /** The capacity behind a path of one fragment more. */
  function Grown(len: nat, cap: nat): nat {
    if len < cap then cap else 2 * cap
  }

  /** Of the arrays there were, only that of `s` differs, and only behind `s`. */
  ghost predicate Frame(h: Heap, g: Heap, s: Slice) {
    && |h| <= |g| && s.id < |h| && |g[s.id]| == |h[s.id]| && s.len <= |h[s.id]| && g[s.id][..s.len] == h[s.id][..s.len]
    && forall a :: 0 <= a < |h| && a != s.id ==> g[a] == h[a]
  }

  lemma FrameTwice(f: Heap, g: Heap, h: Heap, s: Slice)
    requires Frame(f, g, s) && Frame(g, h, s)
    ensures Frame(f, h, s)
  {
  }

  /** What is written behind the longer slice is written behind the shorter one. */
  lemma AppendFrame(h: Heap, s: Slice, x: string)
    requires Allocated(h, s)
    ensures var (h1, t) := Append(h, s, x);
            && Allocated(h1, t) && Read(h1, t) == Read(h, s) + [x] && |h1[t.id]| == Grown(s.len, |h[s.id]|)
            && Frame(h, h1, s) && forall g :: Frame(h1, g, t) ==> Frame(h, g, s)
  {
    var (h1, t) := Append(h, s, x);
    forall g | Frame(h1, g, t) ensures Frame(h, g, s) {
      if t.id == s.id {
        assert g[s.id][..s.len] == g[s.id][..t.len][..s.len];
      }
    }
  }

  /** One call of the walk function: the path it is given, and the slice that holds it. */
  datatype Note = Note(path: Path, slice: Slice)

  /* ---- the walk ---- */

  ghost function Noted(n: Node, h: Heap, s: Slice, path: Path): (r: (Heap, seq<Note>))
    requires Allocated(h, s)
    ensures Frame(h, r.0, s)
    decreases n, 1
  {
    var (h1, notes) := NotedNames(n, h, s, path, NextNames(n));
    (h1, [Note(path, s)] + notes)
  }

  ghost function NotedNames(n: Node, h: Heap, s: Slice, path: Path, names: seq<string>): (r: (Heap, seq<Note>))
    requires Allocated(h, s) && forall k :: k in names ==> k in n.subs || k in n.leaves
    ensures Frame(h, r.0, s)
    decreases n, 0, |names|
  {
    if names == [] then (h, []) else
      var (h1, notes) := NotedName(n, h, s, path, names[0]);
      var (h2, more) := NotedNames(n, h1, s, path, names[1..]);
      FrameTwice(h, h1, h2, s);
      (h2, notes + more)
  }

  ghost function NotedName(n: Node, h: Heap, s: Slice, path: Path, k: string): (r: (Heap, seq<Note>))
    requires Allocated(h, s) && (k in n.subs || k in n.leaves)
    ensures Frame(h, r.0, s)
    decreases n, 0, 0
  {
    AppendFrame(h, s, k);
    var (h1, t) := Append(h, s, k);
    if k in n.subs then Noted(n.subs[k], h1, t, path + [k]) else (h1, [Note(path + [k], t)])
  }

  ghost function NotedTops(cs: Chains, h: Heap, names: seq<string>): (r: (Heap, seq<Note>))
    requires forall k :: k in names ==> k in cs
    ensures |h| <= |r.0| && forall a :: 0 <= a < |h| ==> r.0[a] == h[a]
    decreases |names|
  {
    if names == [] then (h, []) else
      var (h1, notes) := Noted(cs[names[0]], h + [[names[0]]], Slice(|h|, 1), [names[0]]);
      var (h2, more) := NotedTops(cs, h1, names[1..]);
      (h2, notes + more)
  }

  /** All calls of a walk from the top, and the memory when it is over. */
  ghost function AllNoted(cs: Chains): (Heap, seq<Note>) {
    NotedTops(cs, [], Sorted(cs.Keys))
  }

  /* ---- the calls are those of the walk ---- */

  ghost predicate SameCalls(notes: seq<Note>, vs: seq<Visit>) {
    |notes| == |vs| && forall i :: 0 <= i < |vs| ==> notes[i].path == vs[i].path
  }

  lemma SameCallsConcat(a: seq<Note>, us: seq<Visit>, b: seq<Note>, vs: seq<Visit>)
    requires SameCalls(a, us) && SameCalls(b, vs)
    ensures SameCalls(a + b, us + vs)
  {
  }

  lemma {:induction false} NotedCalls(n: Node, h: Heap, s: Slice, path: Path)
    requires Allocated(h, s)
    ensures SameCalls(Noted(n, h, s, path).1, Traverse(n, path))
    decreases n, 1
  {
    hide SameCalls;
    NotedNamesCalls(n, h, s, path, NextNames(n));
    assert SameCalls([Note(path, s)], [Visit(path, n.ca.cert)]) by { OneCall(path, s, n.ca.cert); }
    SameCallsConcat([Note(path, s)], [Visit(path, n.ca.cert)], NotedNames(n, h, s, path, NextNames(n)).1,
                    TraverseNames(n, path, NextNames(n)));
  }

  lemma OneCall(path: Path, s: Slice, c: Cert)
    ensures SameCalls([Note(path, s)], [Visit(path, c)])
  {
  }

  lemma {:induction false} NotedNamesCalls(n: Node, h: Heap, s: Slice, path: Path, names: seq<string>)
    requires Allocated(h, s) && forall k :: k in names ==> k in n.subs || k in n.leaves
    ensures SameCalls(NotedNames(n, h, s, path, names).1, TraverseNames(n, path, names))
    decreases n, 0, |names|
  {
    if names != [] {
      hide SameCalls, Append;
      var k := names[0];
      var (h1, notes) := NotedName(n, h, s, path, k);
      AppendFrame(h, s, k);
      var (h0, t) := Append(h, s, k);
      if k in n.subs {
        NotedCalls(n.subs[k], h0, t, path + [k]);
      } else {
        OneCall(path + [k], t, n.leaves[k].tls.cert);
      }
      NotedNamesCalls(n, h1, s, path, names[1..]);
      SameCallsConcat(notes, TraverseName(n, path, k), NotedNames(n, h1, s, path, names[1..]).1,
                      TraverseNames(n, path, names[1..]));
    }
  }

  lemma {:induction false} NotedTopsCalls(cs: Chains, h: Heap, names: seq<string>)
    requires forall k :: k in names ==> k in cs
    ensures SameCalls(NotedTops(cs, h, names).1, TraverseTops(cs, names))
    decreases |names|
  {
    if names != [] {
      hide SameCalls;
      var k := names[0];
      var (h1, notes) := Noted(cs[k], h + [[k]], Slice(|h|, 1), [k]);
      NotedCalls(cs[k], h + [[k]], Slice(|h|, 1), [k]);
      NotedTopsCalls(cs, h1, names[1..]);
      SameCallsConcat(notes, Traverse(cs[k], [k]), NotedTops(cs, h1, names[1..]).1, TraverseTops(cs, names[1..]));
    } else {
      assert SameCalls([], []);
    }
  }

  /* ---- which paths last ---- */

  /** The slice still reads as the path that was handed out. */
  ghost predicate Right(e: Note, h: Heap) {
    Allocated(h, e.slice) && Read(h, e.slice) == e.path
  }

  /** Below a signer whose path has `len` fragments in an array of capacity `cap`, the path that goes on with `q`
      lasts: as long as it stays in that array, each fragment is the last name written in its place. */
  ghost predicate Lasts(n: Node, len: nat, cap: nat, q: Path)
    decreases |q|, 1
  {
    q == [] || LastsBelow(n, len, cap, NextNames(n), q)
  }

  ghost predicate LastsBelow(n: Node, len: nat, cap: nat, names: seq<string>, q: Path)
    requires q != []
    decreases |q|, 0
  {
    && (len + |q| <= cap ==> names != [] && names[|names| - 1] == q[0])
    && (q[0] in n.subs ==> Lasts(n.subs[q[0]], len + 1, Grown(len, cap), q[1..]))
  }

  /** Where the slice of a call below `s` lies: in the array of `s` as far as its capacity goes. */
  ghost predicate Placed(e: Note, h: Heap, g: Heap, s: Slice, path: Path)
    requires s.id < |h|
  {
    && path <= e.path && e.slice.len == |e.path| && Allocated(g, e.slice)
    && (if |e.path| <= |h[s.id]| then e.slice.id == s.id else |h| <= e.slice.id)
  }

  /** What a walk below a signer leaves behind. */
  ghost predicate NotesOk(n: Node, h: Heap, s: Slice, path: Path, g: Heap, notes: seq<Note>)
    requires Allocated(h, s)
  {
    forall e :: e in notes ==>
      Placed(e, h, g, s, path) && (Right(e, g) <==> Lasts(n, |path|, |h[s.id]|, e.path[|path|..]))
  }

  ghost predicate NamesOk(n: Node, h: Heap, s: Slice, path: Path, names: seq<string>, g: Heap, notes: seq<Note>)
    requires Allocated(h, s)
  {
    forall e :: e in notes ==> NameOk(n, h, s, path, names, g, e)
  }

  ghost predicate NameOk(n: Node, h: Heap, s: Slice, path: Path, names: seq<string>, g: Heap, e: Note)
    requires Allocated(h, s)
  {
    && Placed(e, h, g, s, path) && |e.path| > |path| && e.path[|path|] in names
    && (Right(e, g) <==> LastsBelow(n, |path|, |h[s.id]|, names, e.path[|path|..]))
  }

  /** The path of the signer itself is not touched. */
  lemma FrameReads(h: Heap, g: Heap, s: Slice)
    requires Allocated(h, s) && Frame(h, g, s)
    ensures Allocated(g, s) && Read(g, s) == Read(h, s) && |g[s.id]| == |h[s.id]|
  {
  }

  /** The last name stays in its place. */
  lemma {:induction false} LastWritten(n: Node, h: Heap, s: Slice, path: Path, names: seq<string>)
    requires Allocated(h, s) && names != [] && (forall k :: k in names ==> k in n.subs || k in n.leaves)
    requires s.len < |h[s.id]|
    ensures var g := NotedNames(n, h, s, path, names).0;
              s.id < |g| && s.len < |g[s.id]| && g[s.id][s.len] == names[|names| - 1]
    decreases |names|
  {
    hide Noted;
    var k := names[0];
    AppendFrame(h, s, k);
    var (h1, t) := Append(h, s, k);
    var g := NotedName(n, h, s, path, k).0;
    assert g[s.id][s.len] == k by {
      if k in n.subs {
        FrameReads(h1, Noted(n.subs[k], h1, t, path + [k]).0, t);
      }
      assert g[s.id][..t.len][s.len] == k;
    }
    if names[1..] != [] {
      LastWritten(n, g, s, path, names[1..]);
    }
  }

  /* ---- the paths that last ---- */

  /** The calls for one name, before its siblings' come. */
  ghost predicate FirstOk(n: Node, h: Heap, s: Slice, path: Path, k: string, g: Heap, e: Note)
    requires Allocated(h, s)
  {
    && Placed(e, h, g, s, path) && |e.path| > |path| && e.path[|path|] == k
    && (Right(e, g) <==> (k in n.subs ==> Lasts(n.subs[k], |path| + 1, Grown(|path|, |h[s.id]|), e.path[|path| + 1..])))
  }

  lemma {:induction false} NotedOk(n: Node, h: Heap, s: Slice, path: Path)
    requires Allocated(h, s) && Read(h, s) == path && NamesApart(n)
    ensures NotesOk(n, h, s, path, Noted(n, h, s, path).0, Noted(n, h, s, path).1)
    decreases n, 1
  {
    hide NotedNames, LastsBelow, Frame;
    NextNamesOnce(n);
    NamesNotedOk(n, h, s, path, NextNames(n));
    FrameReads(h, Noted(n, h, s, path).0, s);
    assert path[|path|..] == [];
  }

  lemma {:induction false} NamesNotedOk(n: Node, h: Heap, s: Slice, path: Path, names: seq<string>)
    requires Allocated(h, s) && Read(h, s) == path && NamesApart(n) && Distinct(names)
    requires forall k :: k in names ==> k in n.subs || k in n.leaves
    ensures NamesOk(n, h, s, path, names, NotedNames(n, h, s, path, names).0, NotedNames(n, h, s, path, names).1)
    decreases n, 0, |names|
  {
    hide NamesApart, FirstOk, NameOk, Frame, NotedName;
    if names != [] {
      var k, rest := names[0], names[1..];
      assert names == [k] + rest;
      var (h1, notes) := NotedName(n, h, s, path, k);
      NameNotedOk(n, h, s, path, k);
      FrameReads(h, h1, s);
      NamesNotedOk(n, h1, s, path, rest);
      var (h2, more) := NotedNames(n, h1, s, path, rest);
      forall e | e in notes ensures NameOk(n, h, s, path, names, h2, e) {
        Overwritten(n, h, s, path, names, e);
      }
      forall e | e in more ensures NameOk(n, h, s, path, names, h2, e) {
        assert NameOk(n, h1, s, path, rest, h2, e);
        LaterName(n, h, h1, h2, s, path, names, e);
      }
    }
  }

  lemma LaterName(n: Node, h: Heap, h1: Heap, h2: Heap, s: Slice, path: Path, names: seq<string>, e: Note)
    requires Allocated(h, s) && Frame(h, h1, s) && Allocated(h1, s) && |names| > 1
    requires NameOk(n, h1, s, path, names[1..], h2, e)
    ensures NameOk(n, h, s, path, names, h2, e)
  {
    hide Lasts;
    assert names == [names[0]] + names[1..];
  }

  lemma {:induction false} NameNotedOk(n: Node, h: Heap, s: Slice, path: Path, k: string)
    requires Allocated(h, s) && Read(h, s) == path && NamesApart(n) && (k in n.subs || k in n.leaves)
    ensures forall e :: e in NotedName(n, h, s, path, k).1 ==>
                FirstOk(n, h, s, path, k, NotedName(n, h, s, path, k).0, e)
    decreases n, 0, 0
  {
    hide Noted, Lasts, Frame;
    AppendFrame(h, s, k);
    var (h0, t) := Append(h, s, k);
    if k in n.subs {
      NotedOk(n.subs[k], h0, t, path + [k]);
      forall e | e in Noted(n.subs[k], h0, t, path + [k]).1
        ensures FirstOk(n, h, s, path, k, Noted(n.subs[k], h0, t, path + [k]).0, e)
      {
        assert path + [k] <= e.path && e.path[..|path|] == (path + [k])[..|path|];
      }
    } else {
      assert (path + [k])[..|path|] == path;
    }
  }

  lemma ReadAt(h: Heap, s: Slice, i: nat)
    requires Allocated(h, s) && i < s.len
    ensures Read(h, s)[i] == h[s.id][i]
  {
  }

  /** Once a sibling has been visited, what shares the signer's array is wrong in that place; what does not is as it
      was. */
  lemma Overwritten(n: Node, h: Heap, s: Slice, path: Path, names: seq<string>, e: Note)
    requires Allocated(h, s) && |path| == s.len && names != [] && Distinct(names)
    requires forall k :: k in names ==> k in n.subs || k in n.leaves
    requires FirstOk(n, h, s, path, names[0], NotedName(n, h, s, path, names[0]).0, e)
    ensures NameOk(n, h, s, path, names, NotedNames(n, h, s, path, names).0, e)
  {
    hide Lasts, NotedName;
    var k, rest, h1 := names[0], names[1..], NotedName(n, h, s, path, names[0]).0;
    assert e.path[|path|..][1..] == e.path[|path| + 1..] && e.path[|path|..][0] == k;
    if rest == [] {
      assert NotedNames(n, h1, s, path, rest).0 == h1;
    } else {
      var h2 := NotedNames(n, h1, s, path, rest).0;
      assert rest[|rest| - 1] == names[|names| - 1] != k;
      if |e.path| <= |h[s.id]| {
        LastWritten(n, h1, s, path, rest);
        ReadAt(h2, e.slice, s.len);
      } else {
        assert h2[e.slice.id] == h1[e.slice.id];
      }
    }
  }

  lemma {:induction false} TopsNotedOk(cs: Chains, h: Heap, names: seq<string>)
    requires AllNamesApart(cs) && forall k :: k in names ==> k in cs
    ensures TopsOk(cs, NotedTops(cs, h, names).0, NotedTops(cs, h, names).1)
    decreases |names|
  {
    hide NamesApart, Noted, Lasts, Frame;
    if names != [] {
      var k, h0, t := names[0], h + [[names[0]]], Slice(|h|, 1);
      assert Read(h0, t) == [k];
      NotedOk(cs[k], h0, t, [k]);
      var (h1, notes) := Noted(cs[k], h0, t, [k]);
      TopsNotedOk(cs, h1, names[1..]);
      var (h2, more) := NotedTops(cs, h1, names[1..]);
      forall e | e in notes ensures TopOk(cs, h2, e) {
        assert h2[e.slice.id] == h1[e.slice.id];
        assert e.path[0] == [k][0];
      }
      assert NotedTops(cs, h, names) == (h2, notes + more);
    }
  }

  ghost predicate TopsOk(cs: Chains, h: Heap, notes: seq<Note>) {
    forall e :: e in notes ==> TopOk(cs, h, e)
  }

  ghost predicate TopOk(cs: Chains, h: Heap, e: Note) {
    && e.path != [] && e.path[0] in cs && Allocated(h, e.slice)
    && (Right(e, h) <==> Lasts(cs[e.path[0]], 1, 1, e.path[1..]))
  }

  /** Path by path: after the walk a kept slice reads as the path it was handed out as if and only if the path lasts. */
  lemma KeptIff(cs: Chains, e: Note)
    requires AllNamesApart(cs) && e in AllNoted(cs).1
    ensures e.path != [] && e.path[0] in cs && Allocated(AllNoted(cs).0, e.slice)
    ensures Read(AllNoted(cs).0, e.slice) == e.path <==> Lasts(cs[e.path[0]], 1, 1, e.path[1..])
  {
    hide Lasts, NotedTops;
    TopsNotedOk(cs, [], Sorted(cs.Keys));
    assert TopOk(cs, AllNoted(cs).0, e);
  }

  /* ---- the whole walk ---- */

  /** What a walk function that keeps the paths it is given finds in them when the walk is over. */
  ghost predicate Keeps(cs: Chains, vs: seq<Visit>) {
    var (h, notes) := AllNoted(cs);
    && |vs| == |notes| == |AllVisits(cs)|
    && forall i :: 0 <= i < |vs| ==>
           Allocated(h, notes[i].slice) && vs[i] == Visit(Read(h, notes[i].slice), AllVisits(cs)[i].cert)
  }

  /** A signer whose path does not fill its array, which is one whose length is no power of two, has at most one
      entry. */
  ghost predicate Narrow(n: Node, len: nat, cap: nat) {
    && (len < cap ==> |n.subs| + |n.leaves| <= 1)
    && forall k :: k in n.subs ==> Narrow(n.subs[k], len + 1, Grown(len, cap))
  }

  lemma NameCount(n: Node)
    ensures |NextNames(n)| == |n.subs| + |n.leaves|
  {
    assert |n.subs| == |n.subs.Keys| && |n.leaves| == |n.leaves.Keys|;
  }

  lemma {:induction false} NarrowLasts(n: Node, len: nat, cap: nat, q: Path)
    requires Narrow(n, len, cap) && CertAt(n, q).Some?
    ensures Lasts(n, len, cap, q)
    decreases |q|
  {
    if q != [] {
      NameCount(n);
      assert q[0] in NextNames(n);
      if q[0] in n.subs {
        NarrowLasts(n.subs[q[0]], len + 1, Grown(len, cap), q[1..]);
      }
    }
  }

  lemma {:induction false} NotNarrow(n: Node, len: nat, cap: nat) returns (q: Path)
    requires NamesApart(n) && !Narrow(n, len, cap)
    ensures CertAt(n, q).Some? && !Lasts(n, len, cap, q)
    decreases n
  {
    if len < cap && |n.subs| + |n.leaves| > 1 {
      NameCount(n);
      NextNamesOnce(n);
      q := FirstName(n);
    } else {
      var k :| k in n.subs && !Narrow(n.subs[k], len + 1, Grown(len, cap));
      var r := NotNarrow(n.subs[k], len + 1, Grown(len, cap));
      q := [k] + r;
      assert q[1..] == r;
    }
  }

  lemma FirstName(n: Node) returns (q: Path)
    requires |NextNames(n)| > 1 && Distinct(NextNames(n))
    ensures |q| == 1 && CertAt(n, q).Some? && q[0] != NextNames(n)[|NextNames(n)| - 1]
  {
    q := [NextNames(n)[0]];
    assert q[0] in NextNames(n) && q[1..] == [];
  }

  lemma NotesAreVisits(cs: Chains)
    ensures SameCalls(AllNoted(cs).1, AllVisits(cs))
  {
    NotedTopsCalls(cs, [], Sorted(cs.Keys));
  }

  /** A path that leads to a certificate is handed out. */
  lemma NotedAt(cs: Chains, k: string, q: Path) returns (i: nat)
    requires k in cs && CertAt(cs[k], q).Some?
    ensures i < |AllNoted(cs).1| && AllNoted(cs).1[i].path == [k] + q
  {
    hide AllVisits, AllNoted;
    NotesAreVisits(cs);
    var v := Visit([k] + q, CertAt(cs[k], q).value);
    assert ([k] + q)[1..] == q;
    VisitsAll(cs, v);
    i :| 0 <= i < |AllVisits(cs)| && AllVisits(cs)[i] == v;
  }

  lemma KeptAllNarrow(cs: Chains, vs: seq<Visit>)
    requires AllNamesApart(cs) && Keeps(cs, vs)
    ensures vs == AllVisits(cs) <==> forall k :: k in cs ==> Narrow(cs[k], 1, 1)
  {
    hide AllVisits, AllNoted, Narrow, Lasts, NamesApart;
    NotesAreVisits(cs);
    var (h, notes) := AllNoted(cs);
    if forall k :: k in cs ==> Narrow(cs[k], 1, 1) {
      forall i | 0 <= i < |vs| ensures vs[i] == AllVisits(cs)[i] {
        var v := AllVisits(cs)[i];
        assert v in AllVisits(cs) && notes[i] in notes;
        VisitsAll(cs, v);
        KeptIff(cs, notes[i]);
        NarrowLasts(cs[v.path[0]], 1, 1, v.path[1..]);
      }
    } else {
      var k :| k in cs && !Narrow(cs[k], 1, 1);
      var q := NotNarrow(cs[k], 1, 1);
      var i := NotedAt(cs, k, q);
      assert ([k] + q)[1..] == q && notes[i] in notes;
      KeptIff(cs, notes[i]);
      assert vs[i].path != AllVisits(cs)[i].path;
    }
  }

  lemma KeepsExists(cs: Chains) returns (vs: seq<Visit>)
    requires AllNamesApart(cs)
    ensures Keeps(cs, vs)
  {
    hide AllVisits, AllNoted, Lasts;
    NotesAreVisits(cs);
    var (h, notes) := AllNoted(cs);
    forall i | 0 <= i < |notes| ensures Allocated(h, notes[i].slice) {
      assert notes[i] in notes;
      KeptIff(cs, notes[i]);
    }
    vs := seq(|notes|, i requires 0 <= i < |notes| => Visit(Read(h, notes[i].slice), AllVisits(cs)[i].cert));
  }

  /** Paths of up to three fragments never share an array. */
  lemma ShallowIsNarrow(n: Node)
    requires forall k :: k in n.subs ==> n.subs[k].subs == map[]
    ensures Narrow(n, 1, 1)
  {
    forall k | k in n.subs ensures Narrow(n.subs[k], 2, 2) {
    }
  }

  /** Where they last, what certsToRegenerate lists is what it is meant to list. */
  lemma ListedRightly(cs: Chains, vs: seq<Visit>)
    requires AllNamesApart(cs) && Keeps(cs, vs)
    requires forall k :: k in cs ==> forall j :: j in cs[k].subs ==> cs[k].subs[j].subs == map[]
    ensures vs == AllVisits(cs)
  {
    hide Narrow, AllVisits, NamesApart, Keeps;
    forall k | k in cs ensures Narrow(cs[k], 1, 1) {
      ShallowIsNarrow(cs[k]);
    }
    KeptAllNarrow(cs, vs);
  }

  /* ---- powers of two ---- */

  function Pow2(e: nat): nat {
    if e == 0 then 1 else 2 * Pow2(e - 1)
  }

  ghost predicate PowerOfTwo(k: nat) {
    exists e: nat :: k == Pow2(e)
  }

  lemma {:induction false} Pow2Doubles(d: nat, e: nat)
    requires d < e
    ensures 2 * Pow2(d) <= Pow2(e)
    decreases e
  {
    if d < e - 1 {
      Pow2Doubles(d, e - 1);
    }
  }

  /** The capacity is the least power of two that the path fits in. */
  ghost predicate LeastPower(len: nat, cap: nat) {
    PowerOfTwo(cap) && len <= cap < 2 * len
  }

  lemma FullIff(len: nat, cap: nat)
    requires LeastPower(len, cap)
    ensures len < cap <==> !PowerOfTwo(len)
  {
    if d: nat, e: nat :| len == Pow2(d) && cap == Pow2(e) && len < cap {
      if d < e {
        Pow2Doubles(d, e);
      } else if e < d {
        Pow2Doubles(e, d);
      }
    }
  }

  lemma GrownPower(len: nat, cap: nat)
    requires LeastPower(len, cap)
    ensures LeastPower(len + 1, Grown(len, cap))
  {
    var e: nat :| cap == Pow2(e);
    assert Pow2(e + 1) == 2 * cap;
  }

  /** Every signer whose path length is no power of two has at most one entry; `len` is the length of the path of
      `n`. */
  ghost predicate Thin(n: Node, len: nat) {
    forall q :: SubSigner(n, q).Some? && !PowerOfTwo(len + |q|) ==> AtMostOne(SubSigner(n, q).value)
  }

  ghost predicate AtMostOne(n: Node) {
    |n.subs| + |n.leaves| <= 1
  }

  lemma {:induction false} NarrowIff(n: Node, len: nat, cap: nat)
    requires LeastPower(len, cap)
    ensures Narrow(n, len, cap) <==> Thin(n, len)
    decreases n
  {
    hide LeastPower, PowerOfTwo;
    FullIff(len, cap);
    GrownPower(len, cap);
    forall k | k in n.subs ensures Narrow(n.subs[k], len + 1, Grown(len, cap)) <==> Thin(n.subs[k], len + 1) {
      NarrowIff(n.subs[k], len + 1, Grown(len, cap));
    }
    if Narrow(n, len, cap) {
      forall q | SubSigner(n, q).Some? && !PowerOfTwo(len + |q|) ensures AtMostOne(SubSigner(n, q).value) {
        if q != [] {
          assert len + 1 + |q[1..]| == len + |q|;
        }
      }
    }
    if Thin(n, len) {
      var here: Path := [];
      assert SubSigner(n, here) == Some(n) && len + |here| == len;
      forall k | k in n.subs ensures Thin(n.subs[k], len + 1) {
        ThinSub(n, len, k);
      }
    }
  }

  lemma ThinSub(n: Node, len: nat, k: string)
    requires Thin(n, len) && k in n.subs
    ensures Thin(n.subs[k], len + 1)
  {
    hide PowerOfTwo;
    forall q | SubSigner(n.subs[k], q).Some? && !PowerOfTwo(len + 1 + |q|)
      ensures AtMostOne(SubSigner(n.subs[k], q).value)
    {
      assert ([k] + q)[1..] == q && len + |[k] + q| == len + 1 + |q|;
      assert SubSigner(n, [k] + q) == SubSigner(n.subs[k], q);
    }
  }

  /** The paths kept during a walk are all right at its end if and only if every signer whose path length is no power
      of two has at most one entry. */
  lemma KeptAllIff(cs: Chains, vs: seq<Visit>)
    requires AllNamesApart(cs) && Keeps(cs, vs)
    ensures vs == AllVisits(cs) <==>
            forall p :: SignerAt(cs, p).Some? && !PowerOfTwo(|p|) ==> AtMostOne(SignerAt(cs, p).value)
  {
    hide AllVisits, NamesApart, Keeps, Narrow, Thin, AtMostOne, PowerOfTwo;
    KeptAllNarrow(cs, vs);
    assert LeastPower(1, 1) by {
      assert 1 == Pow2(0);
      PowerIs(0);
    }
    forall k | k in cs ensures Narrow(cs[k], 1, 1) <==> Thin(cs[k], 1) {
      NarrowIff(cs[k], 1, 1);
    }
    ThinAll(cs);
  }

  lemma PowerIs(e: nat)
    ensures PowerOfTwo(Pow2(e))
  {
  }

  lemma ThinAll(cs: Chains)
    ensures (forall k :: k in cs ==> Thin(cs[k], 1)) <==>
            forall p :: SignerAt(cs, p).Some? && !PowerOfTwo(|p|) ==> AtMostOne(SignerAt(cs, p).value)
  {
    hide AtMostOne, PowerOfTwo;
    if forall k :: k in cs ==> Thin(cs[k], 1) {
      forall p | SignerAt(cs, p).Some? && !PowerOfTwo(|p|) ensures AtMostOne(SignerAt(cs, p).value) {
        assert 1 + |p[1..]| == |p| && Thin(cs[p[0]], 1);
      }
    }
    if forall p :: SignerAt(cs, p).Some? && !PowerOfTwo(|p|) ==> AtMostOne(SignerAt(cs, p).value) {
      forall k, q | k in cs && SubSigner(cs[k], q).Some? && !PowerOfTwo(1 + |q|)
        ensures AtMostOne(SubSigner(cs[k], q).value)
      {
        assert ([k] + q)[1..] == q && |[k] + q| == 1 + |q|;
        assert SignerAt(cs, [k] + q) == SubSigner(cs[k], q);
      }
    }
  }
}
