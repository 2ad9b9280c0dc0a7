/** Lists of month numbers as the application builds them: JavaScript's numeric sort
    `sort((a, b) => a - b)`, de-duplication through a `Set`, and removal by `filter`. */
module MonthLists {
  import opened Lists

  predicate Sorted(s: seq<int>) {
    forall i, j :: 0 <= i < j < |s| ==> s[i] <= s[j]
  }

  predicate Distinct(s: seq<int>) {
    forall i, j :: 0 <= i < j < |s| ==> s[i] != s[j]
  }

  /** Sorted ascending without duplicates. */
  predicate Increasing(s: seq<int>) {
    forall i, j :: 0 <= i < j < |s| ==> s[i] < s[j]
  }

  /** Places `x` into a sorted list. */
  function Insert(s: seq<int>, x: int): (r: seq<int>)
    requires Sorted(s)
    ensures Sorted(r) && multiset(r) == multiset(s) + multiset{x}
  {
    if s == [] then [x]
    else if x < s[0] then
      SortedCons(x, s);
      [x] + s
    else
      var rest := s[1..];
      var tail := Insert(rest, x);
      assert s == [s[0]] + rest;
      BoundedByPermutation(s[0], rest, x, tail);
      SortedCons(s[0], tail);
      [s[0]] + tail
  }

  /** A value no larger than any element of a sorted list can go in front of it. */
  lemma SortedCons(h: int, t: seq<int>)
    requires Sorted(t)
    requires forall k :: 0 <= k < |t| ==> h <= t[k]
    ensures Sorted([h] + t)
  {
    var r := [h] + t;
    forall i, j | 0 <= i < j < |r|
      ensures r[i] <= r[j]
    {
      assert r[j] == t[j - 1];
      if i > 0 {
        assert r[i] == t[i - 1];
      }
    }
  }

  /** A rearrangement of values bounded below by `lo`, plus `x >= lo`, stays bounded. */
  lemma BoundedByPermutation(lo: int, rest: seq<int>, x: int, t: seq<int>)
    requires forall k :: 0 <= k < |rest| ==> lo <= rest[k]
    requires lo <= x
    requires multiset(t) == multiset(rest) + multiset{x}
    ensures forall k :: 0 <= k < |t| ==> lo <= t[k]
  {
    forall k | 0 <= k < |t|
      ensures lo <= t[k]
    {
      assert t[k] in multiset(t);
      if t[k] != x {
        assert t[k] in multiset(rest);
      }
    }
  }

  /** `xs.sort((a, b) => a - b)`: ascending numeric order, as an insertion sort. */
  function Sort(s: seq<int>): (r: seq<int>)
    ensures Sorted(r) && multiset(r) == multiset(s)
  {
    if s == [] then []
    else
      assert s == s[..|s| - 1] + [s[|s| - 1]];
      Insert(Sort(s[..|s| - 1]), s[|s| - 1])
  }

  /** `[...new Set(xs)]`: the first occurrence of each value, in order. */
  function Dedup(s: seq<int>): (r: seq<int>)
    ensures Distinct(r)
    ensures forall x :: x in r <==> x in s
  {
    if s == [] then []
    else
      var prefix := Dedup(s[..|s| - 1]);
      var last := s[|s| - 1];
      assert s == s[..|s| - 1] + [last];
      if last in prefix then prefix else prefix + [last]
  }

  /** `xs.filter(m => m !== x)`. */
  function Remove(s: seq<int>, x: int): (r: seq<int>)
    ensures x !in r
    ensures forall y :: y != x ==> (y in r <==> y in s)
    ensures Increasing(s) ==> Increasing(r)
  {
    if s == [] then []
    else
      var tail := Remove(s[1..], x);
      assert s == [s[0]] + s[1..];
      assert forall k :: 0 <= k < |tail| ==> tail[k] in s[1..];
      if s[0] == x then tail else [s[0]] + tail
  }

  /** A list without duplicates holds each value at most once. */
  lemma {:induction false} DistinctCounts(s: seq<int>)
    requires Distinct(s)
    ensures forall x :: multiset(s)[x] <= 1
  {
    if s != [] {
      assert s == [s[0]] + s[1..];
      DistinctCounts(s[1..]);
      assert s[0] !in s[1..];
    }
  }

  /** A value held twice shows up twice in the multiset. */
  lemma CountsDistinct(s: seq<int>)
    requires forall x :: multiset(s)[x] <= 1
    ensures Distinct(s)
  {
    forall i, j | 0 <= i < j < |s| ensures s[i] != s[j] {
      assert s == s[..j] + s[j..];
      assert s[i] in multiset(s[..j]) && s[j] in multiset(s[j..]);
      assert multiset(s)[s[j]] == multiset(s[..j])[s[j]] + multiset(s[j..])[s[j]];
    }
  }

  /** Sorting a list without duplicates yields an increasing list with the same values. */
  lemma SortDistinct(s: seq<int>)
    requires Distinct(s)
    ensures Increasing(Sort(s))
    ensures forall x :: x in Sort(s) <==> x in s
  {
    var r := Sort(s);
    DistinctCounts(s);
    assert multiset(r) == multiset(s);
    CountsDistinct(r);
    forall x ensures x in r <==> x in s {
      assert x in r <==> x in multiset(r);
      assert x in s <==> x in multiset(s);
    }
  }

  /** Two increasing lists with the same values are the same list. */
  lemma {:induction false} IncreasingUnique(a: seq<int>, b: seq<int>)
    requires Increasing(a) && Increasing(b)
    requires forall x :: x in a <==> x in b
    ensures a == b
  {
    if a == [] {
      forall x ensures multiset(b)[x] == 0 {
        assert x !in a;
      }
      assert multiset(b) == multiset{};
      assert |b| == |multiset(b)| == 0;
    } else {
      assert a[0] in b && b != [];
      assert b[0] in a;
      assert a[0] == b[0];
      forall x ensures x in a[1..] <==> x in b[1..] {
        assert x in a[1..] <==> x in a && x != a[0];
        assert x in b[1..] <==> x in b && x != b[0];
      }
      IncreasingUnique(a[1..], b[1..]);
      assert a == [a[0]] + a[1..] && b == [b[0]] + b[1..];
    }
  }

  /** Filtering keeps an increasing list increasing. */
  lemma {:induction false} FilterIncreasing(p: int -> bool, s: seq<int>)
    requires Increasing(s)
    ensures Increasing(Filter(p, s))
  {
    if s != [] {
      FilterIncreasing(p, s[1..]);
      var tail := Filter(p, s[1..]);
      assert forall k :: 0 <= k < |tail| ==> tail[k] in s[1..];
    }
  }

  /** The months of the year. */
  const AllMonths: seq<int> := [1, 2, 3, 4, 5, 6, 7, 8, 9, 10, 11, 12]

  lemma AllMonthsSpan()
    ensures Increasing(AllMonths)
    ensures forall m :: m in AllMonths <==> 1 <= m <= 12
  {
    assert forall k :: 0 <= k < 12 ==> AllMonths[k] == k + 1;
  }

  /** Picking out of an increasing list the members of an increasing sublist gives that sublist. */
  lemma FilterMembers(s: seq<int>, members: seq<int>)
    requires Increasing(s) && Increasing(members)
    requires forall m :: m in members ==> m in s
    ensures Filter(m => m in members, s) == members
  {
    var picked := Filter(m => m in members, s);
    FilterIncreasing(m => m in members, s);
    IncreasingUnique(picked, members);
  }

  /** Picking the listed months out of 1..12 gives back an increasing list of months. */
  lemma MonthsAmongTwelve(months: seq<int>)
    requires Increasing(months)
    requires forall m :: m in months ==> 1 <= m <= 12
    ensures Filter(m => m in months, AllMonths) == months
  {
    AllMonthsSpan();
    FilterMembers(AllMonths, months);
  }
}
