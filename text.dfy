/** The parts of Go's standard library that the provider's conversion helpers lean on:
    string ordering (`<` on strings and `sort.Strings`), `strings.Join`, `strings.Split`
    with a one-character separator, and `strings.Contains`. */
module Text {

  /** Go's `a <= b` on strings. Go compares the UTF-8 bytes; for Unicode scalar values
      that is the same as comparing code points, which is what `<` on `char` does. */
  predicate Le(a: string, b: string)
    decreases |a|
  {
    |a| == 0 || (|b| > 0 && (a[0] < b[0] || (a[0] == b[0] && Le(a[1..], b[1..]))))
  }

  lemma {:induction false} LeReflexive(a: string)
    ensures Le(a, a)
  {
    if |a| > 0 {
      LeReflexive(a[1..]);
    }
  }

  lemma {:induction false} LeAntisymmetric(a: string, b: string)
    requires Le(a, b) && Le(b, a)
    ensures a == b
  {
    if |a| > 0 && |b| > 0 && a[0] == b[0] {
      LeAntisymmetric(a[1..], b[1..]);
      assert a == [a[0]] + a[1..];
      assert b == [b[0]] + b[1..];
    }
  }

  lemma {:induction false} LeTransitive(a: string, b: string, c: string)
    requires Le(a, b) && Le(b, c)
    ensures Le(a, c)
  {
    if |a| > 0 && |b| > 0 && |c| > 0 && a[0] == b[0] == c[0] {
      LeTransitive(a[1..], b[1..], c[1..]);
    }
  }

  lemma {:induction false} LeTotal(a: string, b: string)
    ensures Le(a, b) || Le(b, a)
  {
    if |a| > 0 && |b| > 0 && a[0] == b[0] {
      LeTotal(a[1..], b[1..]);
    }
  }

  /** The empty string is below every string. */
  lemma EmptyIsLeast(b: string)
    ensures Le("", b)
  {
  }

  predicate Sorted(s: seq<string>) {
    forall i, j :: 0 <= i < j < |s| ==> Le(s[i], s[j])
  }

  predicate NoDup<T(==)>(s: seq<T>) {
    forall i, j :: 0 <= i < j < |s| ==> s[i] != s[j]
  }

  predicate StrictlySorted(s: seq<string>) {
    Sorted(s) && NoDup(s)
  }

  function Elems<T(==)>(s: seq<T>): set<T> {
    set x | x in s
  }

  // ---------------------------------------------------------------------------
  // sort.Strings

  function Insert(x: string, s: seq<string>): seq<string> {
    if s == [] then [x]
    else if Le(x, s[0]) then [x] + s
    else [s[0]] + Insert(x, s[1..])
  }

  /** The result of `sort.Strings` (and of `sort.Slice` with `<`): since two sorted
      permutations of one sequence are equal (SortedUnique), any sorting algorithm
      gives this sequence. */
  function SortStrings(s: seq<string>): seq<string> {
    if s == [] then [] else Insert(s[0], SortStrings(s[1..]))
  }

  lemma {:induction false} InsertCounts(x: string, s: seq<string>)
    ensures multiset(Insert(x, s)) == multiset(s) + multiset{x}
  {
    if s != [] {
      assert s == [s[0]] + s[1..];
      if !Le(x, s[0]) {
        InsertCounts(x, s[1..]);
      }
    }
  }

  /** Every element of `s` is at least `lo`. */
  predicate AllGe(lo: string, s: seq<string>) {
    forall j :: 0 <= j < |s| ==> Le(lo, s[j])
  }

  /** A lower bound in front of a sorted sequence keeps it sorted. */
  lemma ConsSorted(h: string, t: seq<string>)
    requires Sorted(t) && AllGe(h, t)
    ensures Sorted([h] + t)
  {
    var r := [h] + t;
    forall i, j | 0 <= i < j < |r| ensures Le(r[i], r[j]) {
      assert r[j] == t[j - 1];
      if i > 0 {
        assert r[i] == t[i - 1];
      }
    }
  }

  /** Inserting an element above a lower bound keeps the bound. */
  lemma {:induction false} InsertAllGe(lo: string, x: string, s: seq<string>)
    requires AllGe(lo, s) && Le(lo, x)
    ensures AllGe(lo, Insert(x, s))
  {
    if s != [] && !Le(x, s[0]) {
      assert AllGe(lo, s[1..]) by {
        forall j | 0 <= j < |s[1..]| ensures Le(lo, s[1..][j]) {
          assert s[1..][j] == s[j + 1];
        }
      }
      InsertAllGe(lo, x, s[1..]);
      var r := [s[0]] + Insert(x, s[1..]);
      forall j | 0 <= j < |r| ensures Le(lo, r[j]) {
        if j > 0 {
          assert r[j] == Insert(x, s[1..])[j - 1];
        }
      }
    }
  }

  lemma {:induction false} InsertSorted(x: string, s: seq<string>)
    requires Sorted(s)
    ensures Sorted(Insert(x, s))
  {
    if s == [] {
    } else if Le(x, s[0]) {
      forall j | 0 <= j < |s| ensures Le(x, s[j]) {
        if j > 0 { LeTransitive(x, s[0], s[j]); }
      }
      ConsSorted(x, s);
    } else {
      LeTotal(x, s[0]);
      SortedTail(s);
      assert AllGe(s[0], s[1..]) by {
        forall j | 0 <= j < |s[1..]| ensures Le(s[0], s[1..][j]) {
          assert s[1..][j] == s[j + 1];
        }
      }
      InsertSorted(x, s[1..]);
      InsertAllGe(s[0], x, s[1..]);
      ConsSorted(s[0], Insert(x, s[1..]));
    }
  }

  lemma {:induction false} SortStringsSpec(s: seq<string>)
    ensures Sorted(SortStrings(s))
    ensures multiset(SortStrings(s)) == multiset(s)
  {
    if s != [] {
      SortStringsSpec(s[1..]);
      InsertSorted(s[0], SortStrings(s[1..]));
      InsertCounts(s[0], SortStrings(s[1..]));
      assert s == [s[0]] + s[1..];
    }
  }

  /** The tail of a sorted sequence is sorted. */
  lemma SortedTail(a: seq<string>)
    requires Sorted(a) && |a| > 0
    ensures Sorted(a[1..])
  {
    forall i, j | 0 <= i < j < |a| - 1 ensures Le(a[1..][i], a[1..][j]) {
      assert a[1..][i] == a[i + 1] && a[1..][j] == a[j + 1];
    }
  }

  /** The head of a sorted sequence is at most any of its elements. */
  lemma HeadIsLeast(a: seq<string>, x: string)
    requires Sorted(a) && x in multiset(a)
    ensures Le(a[0], x)
  {
    var j :| 0 <= j < |a| && a[j] == x;
    if j == 0 {
      LeReflexive(x);
    }
  }

  /** Taking the head off a sequence takes one copy of it out of the multiset. */
  lemma MultisetTail(a: seq<string>)
    requires |a| > 0
    ensures multiset(a[1..]) == multiset(a) - multiset{a[0]}
    ensures a[0] in multiset(a)
  {
    assert a == [a[0]] + a[1..];
  }

  /** Two sorted sequences with the same elements, counted with multiplicity, are equal. */
  lemma {:induction false} SortedUnique(a: seq<string>, b: seq<string>)
    requires Sorted(a) && Sorted(b) && multiset(a) == multiset(b)
    ensures a == b
  {
    if a == [] {
      assert |multiset(b)| == 0;
    } else {
      assert |multiset(b)| == |multiset(a)| > 0;
      MultisetTail(a);
      MultisetTail(b);
      HeadIsLeast(b, a[0]);
      HeadIsLeast(a, b[0]);
      LeAntisymmetric(a[0], b[0]);
      SortedTail(a);
      SortedTail(b);
      SortedUnique(a[1..], b[1..]);
      SameHeadSameTail(a, b);
    }
  }

  lemma SameHeadSameTail(a: seq<string>, b: seq<string>)
    requires |a| > 0 && |b| > 0 && a[0] == b[0] && a[1..] == b[1..]
    ensures a == b
  {
    assert a == [a[0]] + a[1..] && b == [b[0]] + b[1..];
  }

  /** Sorting depends only on which elements there are, not on their order. */
  lemma SortStringsPermutation(a: seq<string>, b: seq<string>)
    requires multiset(a) == multiset(b)
    ensures SortStrings(a) == SortStrings(b)
  {
    SortStringsSpec(a);
    SortStringsSpec(b);
    SortedUnique(SortStrings(a), SortStrings(b));
  }

  // ---------------------------------------------------------------------------
  // Duplicates and multisets

  lemma {:induction false} NoDupCounts(s: seq<string>)
    requires NoDup(s)
    ensures forall x :: multiset(s)[x] <= 1
  {
    if s != [] {
      assert s == [s[0]] + s[1..];
      NoDupCounts(s[1..]);
      assert s[0] !in s[1..];
    }
  }

  lemma CountsNoDup(s: seq<string>)
    requires forall x :: multiset(s)[x] <= 1
    ensures NoDup(s)
  {
    forall i, j | 0 <= i < j < |s| ensures s[i] != s[j] {
      assert s == s[..j] + s[j..];
      assert s[i] in s[..j];
      assert s[j] in s[j..];
      assert multiset(s) == multiset(s[..j]) + multiset(s[j..]);
      assert multiset(s)[s[i]] >= multiset(s[..j])[s[i]] + multiset(s[j..])[s[i]];
    }
  }

  lemma NoDupPermutation(a: seq<string>, b: seq<string>)
    requires multiset(a) == multiset(b) && NoDup(a)
    ensures NoDup(b)
  {
    NoDupCounts(a);
    CountsNoDup(b);
  }

  /** Two sequences without duplicates and with the same element set are
      permutations of each other. */
  lemma {:induction false} NoDupSameElems(a: seq<string>, b: seq<string>)
    requires NoDup(a) && NoDup(b) && Elems(a) == Elems(b)
    ensures multiset(a) == multiset(b)
  {
    NoDupCounts(a);
    NoDupCounts(b);
    forall x ensures multiset(a)[x] == multiset(b)[x] {
      assert x in a <==> x in Elems(a);
      assert x in b <==> x in Elems(b);
    }
  }

  /** Sorting a duplicate-free sequence gives a strictly ascending sequence with the same elements. */
  lemma SortStringsNoDup(s: seq<string>)
    requires NoDup(s)
    ensures StrictlySorted(SortStrings(s)) && Elems(SortStrings(s)) == Elems(s)
  {
    SortStringsSpec(s);
    NoDupPermutation(s, SortStrings(s));
    forall x ensures x in SortStrings(s) <==> x in s {
      assert x in SortStrings(s) <==> x in multiset(SortStrings(s));
    }
  }

  // ---------------------------------------------------------------------------
  // A set of strings in ascending order

  predicate IsMin(m: string, s: set<string>) {
    forall y :: y in s ==> Le(m, y)
  }

  lemma {:induction false} MinimumExists(s: set<string>)
    requires s != {}
    ensures exists m :: m in s && IsMin(m, s)
    decreases s
  {
    var x :| x in s;
    if s == {x} {
      LeReflexive(x);
      assert IsMin(x, s);
    } else {
      MinimumExists(s - {x});
      var m :| m in s - {x} && IsMin(m, s - {x});
      LeTotal(x, m);
      if Le(x, m) {
        forall y | y in s ensures Le(x, y) {
          if y == x { LeReflexive(x); } else { LeTransitive(x, m, y); }
        }
      } else {
        assert IsMin(m, s);
      }
    }
  }

  lemma MinimumUnique(s: set<string>)
    ensures forall m, n :: m in s && IsMin(m, s) && n in s && IsMin(n, s) ==> m == n
  {
    forall m, n | m in s && IsMin(m, s) && n in s && IsMin(n, s) ensures m == n {
      LeAntisymmetric(m, n);
    }
  }

  /** The elements of `s` in ascending order, each once. */
  function SortedElems(s: set<string>): seq<string>
    decreases s
  {
    if s == {} then []
    else (
      MinimumExists(s);
      MinimumUnique(s);
      var m :| m in s && IsMin(m, s);
      [m] + SortedElems(s - {m}))
  }

  lemma {:induction false} SortedElemsSpec(s: set<string>)
    ensures StrictlySorted(SortedElems(s))
    ensures Elems(SortedElems(s)) == s
    ensures |SortedElems(s)| == |s|
    decreases s
  {
    if s != {} {
      MinimumExists(s);
      MinimumUnique(s);
      var m :| m in s && IsMin(m, s);
      var rest := SortedElems(s - {m});
      assert SortedElems(s) == [m] + rest;
      SortedElemsSpec(s - {m});
      forall j | 0 <= j < |rest| ensures Le(m, rest[j]) && m != rest[j] {
        assert rest[j] in Elems(rest);
      }
      ConsStrictlySorted(m, rest);
      ElemsCons(m, rest);
    }
  }

  /** A least element in front of a strictly ascending sequence keeps it strictly ascending. */
  lemma ConsStrictlySorted(m: string, rest: seq<string>)
    requires StrictlySorted(rest)
    requires forall j :: 0 <= j < |rest| ==> Le(m, rest[j]) && m != rest[j]
    ensures StrictlySorted([m] + rest)
  {
    var r := [m] + rest;
    forall i, j | 0 <= i < j < |r| ensures Le(r[i], r[j]) && r[i] != r[j] {
      assert r[j] == rest[j - 1];
      if i > 0 {
        assert r[i] == rest[i - 1];
      }
    }
  }

  lemma ElemsCons<T>(x: T, s: seq<T>)
    ensures Elems([x] + s) == {x} + Elems(s)
  {
    forall y ensures y in Elems([x] + s) <==> y in {x} + Elems(s) {
      assert y in [x] + s <==> y == x || y in s;
    }
  }

  /** Appending an element not yet present keeps a sequence duplicate-free and adds it to the elements. */
  lemma NoDupSnoc<T>(s: seq<T>, x: T)
    requires NoDup(s) && x !in Elems(s)
    ensures NoDup(s + [x]) && Elems(s + [x]) == Elems(s) + {x}
  {
    assert Elems(s + [x]) == Elems(s) + {x};
  }

  /** A strictly ascending sequence is determined by its element set. */
  lemma StrictlySortedUnique(a: seq<string>, b: seq<string>)
    requires StrictlySorted(a) && StrictlySorted(b) && Elems(a) == Elems(b)
    ensures a == b
  {
    NoDupSameElems(a, b);
    SortedUnique(a, b);
  }

  /** The ascending sequence of a set, characterised without reference to how it is computed. */
  lemma SortedElemsUnique(s: set<string>, r: seq<string>)
    requires StrictlySorted(r) && Elems(r) == s
    ensures r == SortedElems(s)
  {
    SortedElemsSpec(s);
    StrictlySortedUnique(r, SortedElems(s));
  }

  /** The first element of the ascending sequence of a non-empty set is its minimum. */
  lemma SortedElemsHead(s: set<string>)
    requires s != {}
    ensures |SortedElems(s)| > 0
    ensures SortedElems(s)[0] in s && IsMin(SortedElems(s)[0], s)
  {
    SortedElemsSpec(s);
    var r := SortedElems(s);
    forall y | y in s ensures Le(r[0], y) {
      assert y in Elems(r);
      var j :| 0 <= j < |r| && r[j] == y;
      if j == 0 { LeReflexive(y); }
    }
  }

  // ---------------------------------------------------------------------------
  // strings.Join and strings.Split

  /** Go's strings.Join. */
  function Join(xs: seq<string>, sep: string): string {
    if |xs| == 0 then ""
    else if |xs| == 1 then xs[0]
    else xs[0] + sep + Join(xs[1..], sep)
  }

  /** Go's strings.Split(s, string(sep)): the pieces between occurrences of `sep`.
      Like Go, it never returns an empty slice: Split("", c) is [""]. */
  function Split(s: string, sep: char): (r: seq<string>)
    ensures |r| >= 1
    decreases |s|
  {
    if |s| == 0 then [""]
    else
      var rest := Split(s[1..], sep);
      if s[0] == sep then [""] + rest
      else [[s[0]] + rest[0]] + rest[1..]
  }

  lemma {:induction false} SplitPrefix(a: string, t: string, sep: char)
    requires sep !in a
    ensures Split(a + t, sep) == [a + Split(t, sep)[0]] + Split(t, sep)[1..]
  {
    if |a| > 0 {
      var st := Split(t, sep);
      assert (a + t)[0] == a[0] != sep;
      assert (a + t)[1..] == a[1..] + t;
      SplitPrefix(a[1..], t, sep);
      var rest := Split(a[1..] + t, sep);
      assert rest == [a[1..] + st[0]] + st[1..];
      assert Split(a + t, sep) == [[a[0]] + rest[0]] + rest[1..];
      assert [a[0]] + (a[1..] + st[0]) == a + st[0];
    } else {
      var st := Split(t, sep);
      assert a + t == t;
      assert a + st[0] == st[0];
      assert st == [st[0]] + st[1..];
    }
  }

  /** Splitting a join recovers the pieces when none of them contains the separator.
      The list must not be empty: Join([]) is "" and Split("") is [""]. */
  lemma {:induction false} SplitJoin(xs: seq<string>, sep: char)
    requires |xs| > 0
    requires forall i :: 0 <= i < |xs| ==> sep !in xs[i]
    ensures Split(Join(xs, [sep]), sep) == xs
  {
    if |xs| == 1 {
      SplitPrefix(xs[0], "", sep);
      assert xs[0] + "" == xs[0];
    } else {
      var rest := Join(xs[1..], [sep]);
      SplitJoin(xs[1..], sep);
      assert Join(xs, [sep]) == xs[0] + ([sep] + rest);
      SplitPrefix(xs[0], [sep] + rest, sep);
      assert ([sep] + rest)[1..] == rest;
      assert Split([sep] + rest, sep) == [""] + Split(rest, sep);
      assert xs[0] + "" == xs[0];
      assert xs == [xs[0]] + xs[1..];
    }
  }

  lemma SplitEmpty(sep: char)
    ensures Split("", sep) == [""]
  {
  }

  // ---------------------------------------------------------------------------
  // strings.Contains

  /** Go's strings.Contains, scanning from the left. */
  predicate Contains(s: string, sub: string)
    decreases |s|
  {
    (|sub| <= |s| && s[..|sub|] == sub) || (|s| > 0 && Contains(s[1..], sub))
  }

  predicate OccursAt(s: string, sub: string, i: nat) {
    i + |sub| <= |s| && s[i..i + |sub|] == sub
  }

  /** Dropping the first character moves every occurrence one place to the left. */
  lemma OccursShift(s: string, sub: string, i: nat)
    requires |s| > 0
    ensures OccursAt(s[1..], sub, i) <==> OccursAt(s, sub, i + 1)
  {
    if i + 1 + |sub| <= |s| {
      assert s[1..][i..i + |sub|] == s[i + 1..i + 1 + |sub|];
    }
  }

  /** Contains holds exactly when `sub` occurs at some position of `s`. */
  lemma {:induction false} ContainsSpec(s: string, sub: string)
    ensures Contains(s, sub) <==> exists i: nat :: OccursAt(s, sub, i)
    decreases |s|
  {
    if |sub| <= |s| && s[..|sub|] == sub {
      assert OccursAt(s, sub, 0);
    } else if |s| > 0 {
      ContainsSpec(s[1..], sub);
      if Contains(s[1..], sub) {
        var i: nat :| OccursAt(s[1..], sub, i);
        OccursShift(s, sub, i);
      } else {
        forall i: nat | OccursAt(s, sub, i) ensures false {
          assert i != 0;
          OccursShift(s, sub, i - 1);
        }
      }
    }
  }
}
