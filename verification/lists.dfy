/** Sequence combinators shared by the model: JavaScript's `filter`, `reduce` into a sum,
    and Supabase's `maybeSingle` row selection. */
module Lists {
  import opened Text

  /** `xs.filter(p)`: the elements satisfying `p`, in their original order. */
  function Filter<T(==,!new)>(p: T -> bool, s: seq<T>): (r: seq<T>)
    ensures |r| <= |s|
    ensures forall x :: x in r <==> x in s && p(x)
  {
    if s == [] then []
    else
      assert s == [s[0]] + s[1..];
      (if p(s[0]) then [s[0]] else []) + Filter(p, s[1..])
  }

  lemma {:induction false} FilterAppend<T(!new)>(p: T -> bool, a: seq<T>, b: seq<T>)
    ensures Filter(p, a + b) == Filter(p, a) + Filter(p, b)
  {
    if a == [] {
      assert a + b == b;
    } else {
      assert (a + b)[1..] == a[1..] + b;
      assert (a + b)[0] == a[0];
      FilterAppend(p, a[1..], b);
    }
  }

  /** A filter that every element passes keeps the whole sequence. */
  lemma {:induction false} FilterAll<T(!new)>(p: T -> bool, s: seq<T>)
    requires forall i :: 0 <= i < |s| ==> p(s[i])
    ensures Filter(p, s) == s
  {
    if s != [] {
      FilterAll(p, s[1..]);
    }
  }

  /** Filtering by a predicate and by its negation splits the sequence in two. */
  lemma {:induction false} FilterComplement<T(!new)>(p: T -> bool, q: T -> bool, s: seq<T>)
    requires forall x :: q(x) == !p(x)
    ensures |Filter(p, s)| + |Filter(q, s)| == |s|
  {
    if s != [] {
      FilterComplement(p, q, s[1..]);
    }
  }

  /** When `p` holds exactly where one of two exclusive predicates does, its filter is as
      long as theirs together. */
  lemma {:induction false} FilterSplit<T(!new)>(p: T -> bool, q: T -> bool, r: T -> bool, s: seq<T>)
    requires forall x :: p(x) == (q(x) || r(x))
    requires forall x :: !(q(x) && r(x))
    ensures |Filter(p, s)| == |Filter(q, s)| + |Filter(r, s)|
  {
    if s != [] {
      FilterSplit(p, q, r, s[1..]);
    }
  }

  /** Index `i` holds the first element of `s` satisfying `p`. */
  ghost predicate FirstAt<T>(p: T -> bool, s: seq<T>, i: int)
  {
    0 <= i < |s| && p(s[i]) && forall j :: 0 <= j < i ==> !p(s[j])
  }

  /** `xs.find(p)`: the first element satisfying `p`, or none (`undefined`). */
  function Find<T>(p: T -> bool, s: seq<T>): (r: Option<T>)
    ensures r.None? <==> forall i :: 0 <= i < |s| ==> !p(s[i])
    ensures r.Some? ==> exists i :: FirstAt(p, s, i) && s[i] == r.value
  {
    if s == [] then None
    else if p(s[0]) then
      assert FirstAt(p, s, 0);
      Some(s[0])
    else
      var r := Find(p, s[1..]);
      assert forall i :: 1 <= i < |s| ==> s[i] == s[1..][i - 1];
      assert r.Some? ==> exists i :: FirstAt(p, s, i) && s[i] == r.value by {
        if r.Some? {
          var i :| FirstAt(p, s[1..], i) && s[1..][i] == r.value;
          assert FirstAt(p, s, i + 1);
        }
      }
      r
  }

  /** `xs.reduce((sum, x) => sum + f(x), 0)`. */
  function SumOf<T>(f: T -> real, s: seq<T>): real
  {
    if s == [] then 0.0 else SumOf(f, s[..|s| - 1]) + f(s[|s| - 1])
  }

  lemma {:induction false} SumOfAppend<T>(f: T -> real, a: seq<T>, b: seq<T>)
    ensures SumOf(f, a + b) == SumOf(f, a) + SumOf(f, b)
  {
    if b == [] {
      assert a + b == a;
    } else {
      assert (a + b)[..|a + b| - 1] == a + b[..|b| - 1];
      SumOfAppend(f, a, b[..|b| - 1]);
    }
  }

  /** `c` added to itself `n` times. */
  function Times(c: real, n: nat): real {
    if n == 0 then 0.0 else Times(c, n - 1) + c
  }

  lemma {:induction false} TimesIsProduct(c: real, n: nat)
    ensures Times(c, n) == c * n as real
  {
    if n > 0 {
      TimesIsProduct(c, n - 1);
      assert c * n as real == c * (n - 1) as real + c;
    }
  }

  /** A term that is `c` on the elements satisfying `p` and nothing elsewhere adds up to `c`
      once per such element. */
  lemma {:induction false} SumOfIndicator<T(!new)>(f: T -> real, p: T -> bool, c: real, s: seq<T>)
    requires forall i :: 0 <= i < |s| ==> f(s[i]) == if p(s[i]) then c else 0.0
    ensures SumOf(f, s) == Times(c, |Filter(p, s)|)
  {
    if s != [] {
      var init := s[..|s| - 1];
      var last := s[|s| - 1];
      assert forall i :: 0 <= i < |init| ==> init[i] == s[i];
      SumOfIndicator(f, p, c, init);
      var n := |Filter(p, init)|;
      assert SumOf(f, s) == Times(c, n) + f(last);
      assert s == init + [last];
      FilterAppend(p, init, [last]);
      if p(last) {
        assert Filter(p, [last]) == [last];
        assert |Filter(p, s)| == n + 1;
      } else {
        assert Filter(p, [last]) == [];
        assert |Filter(p, s)| == n;
      }
    }
  }

  lemma SumOfSingleton<T>(f: T -> real, x: T)
    ensures SumOf(f, [x]) == f(x)
  {
    assert [x][..0] == [];
  }

  /** Taking one term out of a sum. */
  lemma SumOfRemove<T>(f: T -> real, b: seq<T>, k: int)
    requires 0 <= k < |b|
    ensures SumOf(f, b) == SumOf(f, b[..k] + b[k + 1..]) + f(b[k])
  {
    var front, x, back := b[..k], b[k], b[k + 1..];
    assert b == (front + [x]) + back;
    SumOfAppend(f, front + [x], back);
    SumOfAppend(f, front, [x]);
    SumOfAppend(f, front, back);
    SumOfSingleton(f, x);
  }

  /** A sum does not depend on the order of its terms. */
  lemma {:induction false} SumOfPermutation<T>(f: T -> real, a: seq<T>, b: seq<T>)
    requires multiset(a) == multiset(b)
    ensures SumOf(f, a) == SumOf(f, b)
    decreases |a|
  {
    if a == [] {
      assert |b| == |multiset(b)| == 0;
    } else {
      var x := a[|a| - 1];
      var a' := a[..|a| - 1];
      assert a == a' + [x];
      assert x in multiset(b);
      var k :| 0 <= k < |b| && b[k] == x;
      var b' := b[..k] + b[k + 1..];
      assert multiset(a') == multiset(b') by {
        assert b == b[..k] + [x] + b[k + 1..];
        assert multiset(a') == multiset(a) - multiset{x};
        assert multiset(b') == multiset(b) - multiset{x};
      }
      SumOfPermutation(f, a', b');
      SumOfRemove(f, b, k);
    }
  }

  /** What Supabase's `maybeSingle()` makes of the rows a query matched. */
  datatype RowMatch<T> = NoRow | OneRow(row: T) | ManyRows

  /** Index `i` is the only position of `s` whose element satisfies `p`. */
  ghost predicate OnlyAt<T>(p: T -> bool, s: seq<T>, i: int)
  {
    0 <= i < |s| && p(s[i]) && forall j :: 0 <= j < |s| && j != i ==> !p(s[j])
  }

  /** Selects the rows satisfying `p`: none, exactly one (returned), or several (an error). */
  function MaybeSingle<T>(p: T -> bool, s: seq<T>): (r: RowMatch<T>)
    ensures r.NoRow? <==> forall i :: 0 <= i < |s| ==> !p(s[i])
    ensures r.OneRow? ==> exists i :: OnlyAt(p, s, i) && s[i] == r.row
    ensures r.ManyRows? <==> exists i, j :: 0 <= i < j < |s| && p(s[i]) && p(s[j])
  {
    if s == [] then NoRow
    else
      var rest := MaybeSingle(p, s[1..]);
      assert forall i :: 1 <= i < |s| ==> s[i] == s[1..][i - 1];
      if !p(s[0]) then
        assert rest.OneRow? ==> exists i :: OnlyAt(p, s, i) && s[i] == rest.row by {
          if rest.OneRow? {
            var i :| OnlyAt(p, s[1..], i) && s[1..][i] == rest.row;
            assert OnlyAt(p, s, i + 1);
          }
        }
        assert rest.ManyRows? ==> exists i, j :: 0 <= i < j < |s| && p(s[i]) && p(s[j]) by {
          if rest.ManyRows? {
            var i, j :| 0 <= i < j < |s[1..]| && p(s[1..][i]) && p(s[1..][j]);
            assert p(s[i + 1]) && p(s[j + 1]);
          }
        }
        rest
      else if rest.NoRow? then
        assert OnlyAt(p, s, 0);
        OneRow(s[0])
      else
        assert exists j :: 1 <= j < |s| && p(s[j]) by {
          if rest.OneRow? {
            var i :| OnlyAt(p, s[1..], i) && s[1..][i] == rest.row;
            assert p(s[i + 1]);
          } else {
            var i, j :| 0 <= i < j < |s[1..]| && p(s[1..][i]) && p(s[1..][j]);
            assert p(s[i + 1]);
          }
        }
        ManyRows
  }
}
