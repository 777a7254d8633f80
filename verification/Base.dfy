/** Options, the byte-wise order of Go strings, and the sorted key lists the certificate code iterates over. */
module Base {

  datatype Option<+T> = None | Some(value: T)

  /** Go's `<` on strings: lexicographic, a proper prefix first. */
  predicate StrLess(a: string, b: string) {
    b != [] && (a == [] || a[0] < b[0] || (a[0] == b[0] && StrLess(a[1..], b[1..])))
  }

  lemma {:induction false} StrLessIrreflexive(a: string)
    ensures !StrLess(a, a)
  {
    if a != [] {
      StrLessIrreflexive(a[1..]);
    }
  }

  lemma {:induction false} StrLessTransitive(a: string, b: string, c: string)
    requires StrLess(a, b) && StrLess(b, c)
    ensures StrLess(a, c)
  {
    if a != [] && a[0] == b[0] == c[0] {
      StrLessTransitive(a[1..], b[1..], c[1..]);
    }
  }

  lemma {:induction false} StrLessTotal(a: string, b: string)
    requires a != b
    ensures StrLess(a, b) || StrLess(b, a)
  {
    if a != [] && b != [] && a[0] == b[0] {
      assert a == [a[0]] + a[1..] && b == [b[0]] + b[1..];
      StrLessTotal(a[1..], b[1..]);
    }
  }

  ghost predicate IsLeast(m: string, s: set<string>) {
    m in s && forall x :: x in s && x != m ==> StrLess(m, x)
  }

  lemma {:induction false} LeastExists(s: set<string>) returns (m: string)
    requires s != {}
    ensures IsLeast(m, s)
    decreases |s|
  {
    var x :| x in s;
    if s == {x} {
      m := x;
    } else {
      assert s == {x} + (s - {x});
      var y := LeastExists(s - {x});
      StrLessTotal(x, y);
      if StrLess(x, y) {
        m := x;
        forall z | z in s && z != x ensures StrLess(x, z) {
          if z != y {
            StrLessTransitive(x, y, z);
          }
        }
      } else {
        m := y;
      }
    }
  }

  ghost function Least(s: set<string>): (m: string)
    requires s != {}
    ensures IsLeast(m, s)
  {
    assert exists m :: IsLeast(m, s) by {
      var m := LeastExists(s);
    }
    var m :| IsLeast(m, s);
    m
  }

  /** The keys of a map as `sort.StringSlice` leaves them. */
  ghost function Sorted(s: set<string>): (q: seq<string>)
    ensures |q| == |s|
    ensures forall i :: 0 <= i < |q| ==> q[i] in s
    ensures forall x :: x in s ==> x in q
    ensures forall i, j :: 0 <= i < j < |q| ==> StrLess(q[i], q[j])
    decreases |s|
  {
    if s == {} then [] else
      var m := Least(s);
      [m] + Sorted(s - {m})
  }

  lemma SortedDistinct(s: set<string>)
    ensures forall i, j :: 0 <= i < j < |Sorted(s)| ==> Sorted(s)[i] != Sorted(s)[j]
  {
  }

  lemma LeastUnique(m: string, s: set<string>)
    requires IsLeast(m, s)
    ensures m == Least(s)
  {
    var l := Least(s);
    if m != l {
      StrLessTransitive(m, l, m);
      StrLessIrreflexive(m);
    }
  }

  method FindLeast(s: set<string>) returns (m: string)
    requires s != {}
    ensures IsLeast(m, s)
  {
    m :| m in s;
    var todo := s - {m};
    while todo != {}
      invariant m in s && todo <= s && m !in todo
      invariant forall x :: x in s && x !in todo && x != m ==> StrLess(m, x)
      decreases |todo|
    {
      var x :| x in todo;
      StrLessTotal(m, x);
      if StrLess(x, m) {
        forall y | y in s && y !in todo && y != m ensures StrLess(x, y) {
          StrLessTransitive(x, m, y);
        }
        m := x;
      }
      todo := todo - {x};
    }
  }

  /** The keys of a map, sorted. */
  method SortedKeys(s: set<string>) returns (q: seq<string>)
    ensures q == Sorted(s)
    decreases |s|
  {
    if s == {} {
      return [];
    }
    var m := FindLeast(s);
    LeastUnique(m, s);
    var rest := SortedKeys(s - {m});
    q := [m] + rest;
  }

  ghost predicate Distinct<T(!new)>(q: seq<T>) {
    forall i, j :: 0 <= i < j < |q| ==> q[i] != q[j]
  }

  /** `q` lists the elements of `s`, each once, in an arbitrary order: what ranging over a Go map or set yields. */
  ghost predicate Enumerates<T(!new)>(q: seq<T>, s: set<T>) {
    (forall x :: x in q <==> x in s) && Distinct(q)
  }

  /** Ranging over a set. */
  method Enumerate<T(==, !new)>(s: set<T>) returns (q: seq<T>)
    ensures Enumerates(q, s)
  {
    q := [];
    var todo := s;
    while todo != {}
      invariant todo <= s && Enumerates(q, s - todo)
      decreases |todo|
    {
      var x :| x in todo;
      q, todo := q + [x], todo - {x};
    }
    assert s - todo == s;
  }

  lemma {:induction false} EnumerationExists<T(!new)>(s: set<T>) returns (q: seq<T>)
    ensures Enumerates(q, s)
    decreases |s|
  {
    if s == {} {
      q := [];
    } else {
      var x :| x in s;
      q := EnumerationExists(s - {x});
      q := q + [x];
    }
  }

  /** strings.Split with a one-character separator. */
  function Split(s: string, sep: char): (tokens: seq<string>)
    ensures |tokens| > 0
  {
    if s == [] then [[]] else
      var rest := Split(s[1..], sep);
      if s[0] == sep then [[]] + rest else [[s[0]] + rest[0]] + rest[1..]
  }

  /** Only a string without separators is its own single token. */
  lemma {:induction false} SplitSingle(s: string, sep: char)
    ensures |Split(s, sep)| == 1 <==> sep !in s
    ensures sep !in s ==> Split(s, sep) == [s]
  {
    if s != [] {
      SplitSingle(s[1..], sep);
      assert s == [s[0]] + s[1..];
    }
  }

  lemma {:induction false} SplitTokens(s: string, sep: char)
    ensures forall i :: 0 <= i < |Split(s, sep)| ==> sep !in Split(s, sep)[i]
  {
    if s != [] {
      SplitTokens(s[1..], sep);
    }
  }

  lemma {:induction false} SplitLength(a: string, b: string, sep: char)
    ensures |Split(a + [sep] + b, sep)| == |Split(a, sep)| + |Split(b, sep)|
  {
    var s := a + [sep] + b;
    if a == [] {
      assert s[1..] == b;
    } else {
      assert s[1..] == a[1..] + [sep] + b;
      SplitLength(a[1..], b, sep);
    }
  }

  lemma {:induction false} SplitAt(a: string, b: string, sep: char)
    requires sep !in a
    ensures Split(a + [sep] + b, sep) == [a] + Split(b, sep)
  {
    var s := a + [sep] + b;
    if a == [] {
      assert s[1..] == b;
    } else {
      assert s[1..] == a[1..] + [sep] + b;
      SplitAt(a[1..], b, sep);
      assert [a[0]] + a[1..] == a;
    }
  }

  /** What comes after the first token. */
  lemma Prepended(s: string, a: string, b: string, c: string)
    requires s != [] && s[1..] == a + b + c
    ensures s == [s[0]] + a + b + c
  {
    assert s == [s[0]] + s[1..];
  }

  lemma {:induction false} SplitFirst(s: string, sep: char) returns (rest: string)
    requires |Split(s, sep)| > 1
    ensures s == Split(s, sep)[0] + [sep] + rest && Split(rest, sep) == Split(s, sep)[1..]
  {
    if s[0] == sep {
      rest := s[1..];
      assert s == [] + [sep] + rest;
    } else {
      rest := SplitFirst(s[1..], sep);
      Prepended(s, Split(s[1..], sep)[0], [sep], rest);
    }
  }
}
