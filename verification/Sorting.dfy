/** `sort.Strings`: byte-lexicographic order, and the one sorted permutation of a slice. */
module Sorting {
  predicate Leq(a: string, b: string) {
    a == [] || (b != [] && (a[0] < b[0] || (a[0] == b[0] && Leq(a[1..], b[1..]))))
  }

  ghost predicate DiffersAt(a: string, b: string, i: nat) {
    i < |a| && i < |b| && a[..i] == b[..i] && a[i] < b[i]
  }

  /** Byte order: a prefix comes first, else the smaller byte where the strings first differ decides. */
  ghost predicate ByteOrder(a: string, b: string) {
    a <= b || exists i :: DiffersAt(a, b, i)
  }

  lemma DiffersLater(a: string, b: string, i: nat)
    requires a != [] && b != [] && a[0] == b[0]
    ensures DiffersAt(a[1..], b[1..], i) <==> DiffersAt(a, b, i + 1)
  {
    if i < |a| - 1 && i < |b| - 1 {
      assert a[..i + 1] == [a[0]] + a[1..][..i] && b[..i + 1] == [b[0]] + b[1..][..i];
      assert a[1..][..i] == a[..i + 1][1..] && b[1..][..i] == b[..i + 1][1..];
    }
  }

  lemma ByteOrderCons(a: string, b: string)
    requires a != [] && b != [] && a[0] == b[0]
    ensures ByteOrder(a, b) <==> ByteOrder(a[1..], b[1..])
  {
    assert a == [a[0]] + a[1..] && b == [b[0]] + b[1..];
    if i: nat :| DiffersAt(a[1..], b[1..], i) {
      DiffersLater(a, b, i);
    }
    if i: nat :| DiffersAt(a, b, i) {
      DiffersLater(a, b, i - 1);
    }
    assert a <= b <==> a[1..] <= b[1..];
  }

  /** `Leq` is byte order. */
  lemma {:induction false} LeqIsByteOrder(a: string, b: string)
    ensures Leq(a, b) <==> ByteOrder(a, b)
  {
    if a == [] || b == [] {
    } else if a[0] == b[0] {
      LeqIsByteOrder(a[1..], b[1..]);
      ByteOrderCons(a, b);
    } else if a[0] < b[0] {
      assert DiffersAt(a, b, 0);
    } else {
      assert forall i :: 0 < i < |a| && i < |b| ==> a[..i][0] != b[..i][0];
    }
  }

  lemma {:induction false} LeqTotal(a: string, b: string)
    ensures Leq(a, b) || Leq(b, a)
  {
    if a == [] || b == [] {
    } else if a[0] == b[0] {
      LeqTotal(a[1..], b[1..]);
    }
  }

  lemma {:induction false} LeqAntisymmetric(a: string, b: string)
    requires Leq(a, b) && Leq(b, a)
    ensures a == b
  {
    if a == [] {
    } else {
      LeqAntisymmetric(a[1..], b[1..]);
      assert a == [a[0]] + a[1..] && b == [b[0]] + b[1..];
    }
  }

  lemma {:induction false} LeqTransitive(a: string, b: string, c: string)
    requires Leq(a, b) && Leq(b, c)
    ensures Leq(a, c)
  {
    if a == [] {
    } else if a[0] == b[0] == c[0] {
      LeqTransitive(a[1..], b[1..], c[1..]);
    }
  }

  predicate Sorted(s: seq<string>) {
    forall i, j :: 0 <= i < j < |s| ==> Leq(s[i], s[j])
  }

  /** Ascending in byte order. */
  ghost predicate Ascending(s: seq<string>) {
    forall i, j :: 0 <= i < j < |s| ==> ByteOrder(s[i], s[j])
  }

  lemma SortedIsAscending(s: seq<string>)
    ensures Sorted(s) <==> Ascending(s)
  {
    forall i, j | 0 <= i < j < |s| ensures Leq(s[i], s[j]) <==> ByteOrder(s[i], s[j]) {
      LeqIsByteOrder(s[i], s[j]);
    }
  }

  predicate Distinct<T(==)>(s: seq<T>) {
    forall i, j :: 0 <= i < j < |s| ==> s[i] != s[j]
  }

  function ToSet<T>(s: seq<T>): set<T> {
    set x | x in s
  }

  lemma Decompose<T>(s: seq<T>)
    requires s != []
    ensures s == [s[0]] + s[1..]
    ensures multiset(s) == multiset{s[0]} + multiset(s[1..])
    ensures ToSet(s) == {s[0]} + ToSet(s[1..])
  {
    assert s == [s[0]] + s[1..];
  }

  lemma ConsSorted(x: string, s: seq<string>)
    requires Sorted(s) && forall y :: y in s ==> Leq(x, y)
    ensures Sorted([x] + s)
  {
  }

  lemma FirstIsLeast(a: seq<string>, y: string)
    requires Sorted(a) && y in a
    ensures Leq(a[0], y)
  {
    LeqTotal(y, y);
  }

  lemma SortedTail(s: seq<string>)
    requires Sorted(s) && s != []
    ensures Sorted(s[1..])
  {
  }

  lemma LeastFits(x: string, s: seq<string>)
    requires Sorted(s) && s != [] && Leq(x, s[0])
    ensures Sorted([x] + s)
  {
    forall y | y in s ensures Leq(x, y) {
      FirstIsLeast(s, y);
      LeqTransitive(x, s[0], y);
    }
    ConsSorted(x, s);
  }

  lemma FirstFits(x: string, s: seq<string>, r: seq<string>)
    requires Sorted(s) && s != [] && Leq(s[0], x)
    requires Sorted(r) && multiset(r) == multiset(s[1..]) + multiset{x}
    ensures Sorted([s[0]] + r)
  {
    forall y | y in r ensures Leq(s[0], y) {
      assert y in multiset(s[1..]) + multiset{x};
      if y != x {
        FirstIsLeast(s, y);
      }
    }
    ConsSorted(s[0], r);
  }

  function Insert(x: string, s: seq<string>): (r: seq<string>)
    requires Sorted(s)
    ensures Sorted(r)
    ensures multiset(r) == multiset(s) + multiset{x}
  {
    if s == [] then [x]
    else if Leq(x, s[0]) then LeastFits(x, s); [x] + s
    else
      LeqTotal(x, s[0]);
      SortedTail(s);
      Decompose(s);
      var r := Insert(x, s[1..]);
      FirstFits(x, s, r);
      [s[0]] + r
  }

  function Sort(s: seq<string>): (r: seq<string>)
    ensures Sorted(r)
    ensures multiset(r) == multiset(s)
  {
    if s == [] then []
    else
      assert s == [s[0]] + s[1..];
      Insert(s[0], Sort(s[1..]))
  }

  /** `sort.Strings`, as the value it leaves in the slice. */
  function SortStrings(s: seq<string>): (r: seq<string>)
    ensures Sorted(r) && Ascending(r)
    ensures multiset(r) == multiset(s)
  {
    SortedIsAscending(Sort(s));
    Sort(s)
  }

  lemma SameElements<T>(a: seq<T>, b: seq<T>)
    requires multiset(a) == multiset(b)
    ensures |a| == |b| && ToSet(a) == ToSet(b)
  {
    assert |multiset(a)| == |a| && |multiset(b)| == |b|;
    forall x ensures x in a <==> x in b {
      assert x in multiset(a) <==> x in multiset(b);
    }
  }

  lemma SameFirst(a: seq<string>, b: seq<string>)
    requires Sorted(a) && Sorted(b) && a != [] && b != [] && ToSet(a) == ToSet(b)
    ensures a[0] == b[0]
  {
    assert b[0] in ToSet(b) && a[0] in ToSet(a);
    FirstIsLeast(a, b[0]);
    FirstIsLeast(b, a[0]);
    LeqAntisymmetric(a[0], b[0]);
  }

  /** A sorted permutation is determined by its elements: any correct sort gives the same slice. */
  lemma {:induction false} SortedUnique(a: seq<string>, b: seq<string>)
    requires Sorted(a) && Sorted(b) && multiset(a) == multiset(b)
    ensures a == b
  {
    SameElements(a, b);
    if a == [] {
    } else {
      SameFirst(a, b);
      Decompose(a);
      Decompose(b);
      SortedTail(a);
      SortedTail(b);
      assert multiset(a[1..]) == multiset(a) - multiset{a[0]};
      assert multiset(b[1..]) == multiset(b) - multiset{b[0]};
      SortedUnique(a[1..], b[1..]);
    }
  }

  lemma DistinctTail<T>(s: seq<T>)
    requires s != []
    ensures Distinct(s) <==> Distinct(s[1..]) && s[0] !in s[1..]
  {
    var t := s[1..];
    if Distinct(s) {
      assert forall i :: 0 <= i < |t| ==> t[i] == s[i + 1];
    } else {
      var i, j :| 0 <= i < j < |s| && s[i] == s[j];
      assert s[j] == t[j - 1];
      assert i > 0 ==> t[i - 1] == t[j - 1];
    }
  }

  /** A slice without repetitions counts every element once, and conversely. */
  lemma {:induction false} DistinctCounts<T>(s: seq<T>)
    ensures Distinct(s) <==> multiset(s) == multiset(ToSet(s))
  {
    if s == [] {
    } else {
      var t := s[1..];
      DistinctCounts(t);
      DistinctTail(s);
      Decompose(s);
      if s[0] in t {
        assert multiset(s)[s[0]] >= 2;
        assert multiset(ToSet(s))[s[0]] == 1;
      } else {
        assert multiset(ToSet(s)) == multiset{s[0]} + multiset(ToSet(t));
        assert multiset(t) == multiset(s) - multiset{s[0]};
        assert multiset(ToSet(t)) == multiset(ToSet(s)) - multiset{s[0]};
      }
    }
  }

  /** Two strictly increasing slices with the same elements are the same slice. */
  lemma StrictlySortedUnique(a: seq<string>, b: seq<string>)
    requires Sorted(a) && Distinct(a) && Sorted(b) && Distinct(b) && ToSet(a) == ToSet(b)
    ensures a == b
  {
    DistinctCounts(a);
    DistinctCounts(b);
    SortedUnique(a, b);
  }

  lemma PermutationKeepsDistinct<T>(a: seq<T>, b: seq<T>)
    requires multiset(a) == multiset(b)
    ensures Distinct(a) <==> Distinct(b)
  {
    SameElements(a, b);
    DistinctCounts(a);
    DistinctCounts(b);
  }
}
