/** Sorting with a comparison, and the byte order of strings. */
module Sorting {
  /** A comparison fit for sorting: asymmetric, and not coming before is transitive. */
  ghost predicate StrictWeakOrder<T(!new)>(less: (T, T) -> bool) {
    && (forall x, y :: less(x, y) ==> !less(y, x))
    && (forall x, y, z :: !less(x, y) && !less(y, z) ==> !less(x, z))
  }

  predicate Sorted<T>(s: seq<T>, less: (T, T) -> bool) {
    forall i, j :: 0 <= i < j < |s| ==> !less(s[j], s[i])
  }

  predicate SortedPermutation<T(==)>(s: seq<T>, original: seq<T>, less: (T, T) -> bool) {
    Sorted(s, less) && multiset(s) == multiset(original)
  }

  predicate NoTies<T>(s: seq<T>, less: (T, T) -> bool) {
    forall i, j :: 0 <= i < j < |s| ==> less(s[i], s[j]) || less(s[j], s[i])
  }

  /** Up to position `i` the elements are in order, except perhaps the one at `j`, which
      may belong before its place. */
  predicate SortedBut<T>(s: seq<T>, i: nat, j: nat, less: (T, T) -> bool)
    requires j <= i < |s|
  {
    forall p, q :: 0 <= p < q <= i && q != j ==> !less(s[q], s[p])
  }

  function Swap<T>(s: seq<T>, j: nat): seq<T>
    requires 0 < j < |s|
  {
    s[j - 1 := s[j]][j := s[j - 1]]
  }

  lemma SwapMovesDown<T(!new)>(s: seq<T>, i: nat, j: nat, less: (T, T) -> bool)
    requires StrictWeakOrder(less) && 0 < j <= i < |s| && SortedBut(s, i, j, less) && less(s[j], s[j - 1])
    ensures SortedBut(Swap(s, j), i, j - 1, less)
  {
  }

  lemma InPlace<T(!new)>(s: seq<T>, i: nat, j: nat, less: (T, T) -> bool)
    requires StrictWeakOrder(less) && j <= i < |s| && SortedBut(s, i, j, less) && (j > 0 ==> !less(s[j], s[j - 1]))
    ensures Sorted(s[..i + 1], less)
  {
    forall p | 0 <= p < j
      ensures !less(s[j], s[p])
    {
      assert p == j - 1 || !less(s[j - 1], s[p]);
    }
  }

  lemma SwapPermutes<T>(s: seq<T>, j: nat)
    requires 0 < j < |s|
    ensures multiset(Swap(s, j)) == multiset(s)
  {
  }

  /** Stands for the library's sort: sorts in place, in no particular order among ties. */
  method SortSlice<T(!new, ==)>(a: array<T>, less: (T, T) -> bool)
    requires StrictWeakOrder(less)
    modifies a
    ensures SortedPermutation(a[..], old(a[..]), less)
  {
    for i := 0 to a.Length
      invariant Sorted(a[..i], less) && multiset(a[..]) == multiset(old(a[..]))
    {
      var j := i;
      assert a[..i] == a[..][..i];
      while j > 0 && less(a[j], a[j - 1])
        invariant j <= i && SortedBut(a[..], i, j, less) && multiset(a[..]) == multiset(old(a[..]))
      {
        SwapMovesDown(a[..], i, j, less);
        SwapPermutes(a[..], j);
        ghost var next := Swap(a[..], j);
        a[j - 1], a[j] := a[j], a[j - 1];
        assert a[..] == next;
        j := j - 1;
      }
      InPlace(a[..], i, j, less);
      assert a[..][..i + 1] == a[..i + 1];
    }
    assert a[..a.Length] == a[..];
  }

  /** Without ties the sorted order is unique. */
  lemma {:induction false} SortedIsUnique<T(!new)>(a: seq<T>, b: seq<T>, less: (T, T) -> bool)
    requires StrictWeakOrder(less) && NoTies(a, less)
    requires Sorted(a, less) && Sorted(b, less) && multiset(a) == multiset(b)
    ensures a == b
  {
    assert |a| == |multiset(a)| == |multiset(b)| == |b|;
    if a != [] {
      SameHead(a, b, less);
      SameTail(a, b);
      SortedIsUnique(a[1..], b[1..], less);
      assert a == [a[0]] + a[1..] && b == [b[0]] + b[1..];
    }
  }

  lemma SameHead<T(!new)>(a: seq<T>, b: seq<T>, less: (T, T) -> bool)
    requires NoTies(a, less) && Sorted(a, less) && Sorted(b, less)
    requires multiset(a) == multiset(b) && a != [] && b != []
    ensures a[0] == b[0]
  {
    assert a[0] in multiset(b) && b[0] in multiset(a);
    var i :| 0 <= i < |a| && a[i] == b[0];
    var j :| 0 <= j < |b| && b[j] == a[0];
  }

  lemma SameTail<T>(a: seq<T>, b: seq<T>)
    requires multiset(a) == multiset(b) && a != [] && b != [] && a[0] == b[0]
    ensures multiset(a[1..]) == multiset(b[1..])
  {
    assert a == [a[0]] + a[1..] && b == [b[0]] + b[1..];
    assert multiset(a[1..]) == multiset(a) - multiset{a[0]};
  }

  /** Strings compare by their first difference, and a proper prefix comes first. */
  predicate Less(a: string, b: string) {
    b != "" && (a == "" || a[0] < b[0] || (a[0] == b[0] && Less(a[1..], b[1..])))
  }

  /** At their first difference `a` has ended, or has the smaller byte. */
  ghost predicate FirstDiffers(a: string, b: string) {
    exists k :: 0 <= k <= |a| && k < |b| && a[..k] == b[..k] && (k == |a| || a[k] < b[k])
  }

  lemma SamePrefixHead(a: string, b: string, k: nat)
    requires k <= |a| && k <= |b| && a[..k] == b[..k]
    ensures k > 0 ==> a[0] == b[0]
  {
    if k > 0 {
      assert a[..k][0] == b[..k][0];
    }
  }

  lemma {:induction false} LessIff(a: string, b: string)
    ensures Less(a, b) <==> FirstDiffers(a, b)
  {
    if a == "" || b == "" || a[0] != b[0] {
      if b != "" && (a == "" || a[0] < b[0]) {
        assert a[..0] == b[..0];
      }
      if FirstDiffers(a, b) {
        var k :| 0 <= k <= |a| && k < |b| && a[..k] == b[..k] && (k == |a| || a[k] < b[k]);
        SamePrefixHead(a, b, k);
      }
    } else {
      LessIff(a[1..], b[1..]);
      if k :| 0 <= k <= |a| - 1 && k < |b| - 1 && a[1..][..k] == b[1..][..k] &&
              (k == |a| - 1 || a[1..][k] < b[1..][k]) {
        assert a[..k + 1] == [a[0]] + a[1..][..k] && b[..k + 1] == [b[0]] + b[1..][..k];
      }
      if k :| 0 <= k <= |a| && k < |b| && a[..k] == b[..k] && (k == |a| || a[k] < b[k]) {
        assert k > 0;
        assert a[1..][..k - 1] == a[..k][1..] && b[1..][..k - 1] == b[..k][1..];
      }
    }
  }

  lemma {:induction false} LessTotal(a: string, b: string)
    ensures a == b || Less(a, b) || Less(b, a)
    ensures !(Less(a, b) && Less(b, a)) && !Less(a, a)
  {
    if a != "" && b != "" {
      LessTotal(a[1..], b[1..]);
      assert a == [a[0]] + a[1..] && b == [b[0]] + b[1..];
    }
    if a != "" {
      LessTotal(a[1..], a[1..]);
    }
  }

  lemma {:induction false} LessTransitive(a: string, b: string, c: string)
    requires Less(a, b) && Less(b, c)
    ensures Less(a, c)
  {
    if a != "" && a[0] == b[0] == c[0] {
      LessTransitive(a[1..], b[1..], c[1..]);
    }
  }

  lemma LessIsAnOrder()
    ensures StrictWeakOrder(Less)
    ensures forall a, b :: a == b || Less(a, b) || Less(b, a)
  {
    forall a: string, b: string
      ensures a == b || Less(a, b) || Less(b, a)
      ensures !(Less(a, b) && Less(b, a)) && !Less(a, a)
    {
      LessTotal(a, b);
    }
    forall a: string, b: string, c: string | Less(a, b) && Less(b, c)
      ensures Less(a, c)
    {
      LessTransitive(a, b, c);
    }
  }

  predicate Distinct<T(==)>(s: seq<T>) { forall i, j :: 0 <= i < j < |s| ==> s[i] != s[j] }

  predicate Increasing(s: seq<string>) { forall i, j :: 0 <= i < j < |s| ==> Less(s[i], s[j]) }

  lemma DuplicateCountsTwice<T>(s: seq<T>, i: nat, j: nat)
    requires i < j < |s| && s[i] == s[j]
    ensures multiset(s)[s[i]] >= 2
  {
    assert s == s[..i] + [s[i]] + s[i + 1..j] + [s[j]] + s[j + 1..];
  }

  lemma {:induction false} DistinctCountsOnce<T>(s: seq<T>)
    requires Distinct(s)
    ensures forall x :: x in multiset(s) ==> multiset(s)[x] == 1
  {
    if s != [] {
      var last := |s| - 1;
      DistinctCountsOnce(s[..last]);
      assert s == s[..last] + [s[last]];
      assert s[last] !in s[..last];
      assert s[last] !in multiset(s[..last]);
    }
  }

  lemma PermutationIsDistinct<T>(s: seq<T>, t: seq<T>)
    requires Distinct(s) && multiset(t) == multiset(s)
    ensures Distinct(t)
  {
    DistinctCountsOnce(s);
    forall i, j | 0 <= i < j < |t|
      ensures t[i] != t[j]
    {
      if t[i] == t[j] {
        DuplicateCountsTwice(t, i, j);
      }
    }
  }

  /** The strings in byte order, each once. */
  lemma SortedDistinctIsIncreasing(s: seq<string>)
    requires Sorted(s, Less) && Distinct(s)
    ensures Increasing(s)
  {
    LessIsAnOrder();
  }

  /** A set of strings has one listing in byte order. */
  lemma {:induction false} IncreasingIsUnique(s: seq<string>, t: seq<string>)
    requires Increasing(s) && Increasing(t) && forall x :: x in s <==> x in t
    ensures s == t
  {
    LessIsAnOrder();
    if s == [] {
      assert forall i :: 0 <= i < |t| ==> t[i] in t;
    } else {
      assert s[0] in t && t != [] && t[0] in s;
      assert s[0] == t[0];
      assert forall x :: x in s[1..] ==> x in s && x != s[0];
      assert forall x :: x in t[1..] ==> x in t && x != t[0];
      assert s == [s[0]] + s[1..] && t == [t[0]] + t[1..];
      IncreasingIsUnique(s[1..], t[1..]);
    }
  }
}
