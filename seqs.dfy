/** The array operations the storefront builds its updates and aggregates
    from: `filter`, `find` and the summing `reduce`. */
module Seqs {
  import opened Types

  /** The elements of `s` that `keep` accepts, in their original order. */
  function Filter<T>(s: seq<T>, keep: T -> bool): (r: seq<T>)
    ensures |r| <= |s|
  {
    if s == [] then [] else (if keep(s[0]) then [s[0]] else []) + Filter(s[1..], keep)
  }

  lemma {:induction false} FilterMembership<T>(s: seq<T>, keep: T -> bool, x: T)
    ensures x in Filter(s, keep) <==> x in s && keep(x)
  {
    if s != [] {
      FilterMembership(s[1..], keep, x);
      assert s == [s[0]] + s[1..];
    }
  }

  /** Filtering distributes over concatenation: the relative order of the
      kept elements is the order they had in the input. */
  lemma {:induction false} FilterConcat<T>(a: seq<T>, b: seq<T>, keep: T -> bool)
    ensures Filter(a + b, keep) == Filter(a, keep) + Filter(b, keep)
  {
    if a == [] {
      assert a + b == b;
    } else {
      var head := if keep(a[0]) then [a[0]] else [];
      var ab := a + b;
      assert ab[0] == a[0];
      assert ab[1..] == a[1..] + b;
      FilterConcat(a[1..], b, keep);
      assert Filter(ab, keep) == head + (Filter(a[1..], keep) + Filter(b, keep));
      assert Filter(a, keep) == head + Filter(a[1..], keep);
    }
  }

  lemma {:induction false} FilterKeepsAll<T>(s: seq<T>, keep: T -> bool)
    requires forall i :: 0 <= i < |s| ==> keep(s[i])
    ensures Filter(s, keep) == s
  {
    if s != [] {
      FilterKeepsAll(s[1..], keep);
    }
  }

  /** Two tests that agree on every element of `s` keep the same elements. */
  lemma {:induction false} FilterAgrees<T>(s: seq<T>, keep: T -> bool, keep': T -> bool)
    requires forall i :: 0 <= i < |s| ==> keep(s[i]) == keep'(s[i])
    ensures Filter(s, keep) == Filter(s, keep')
  {
    if s != [] {
      FilterAgrees(s[1..], keep, keep');
    }
  }

  /** The first element of `s` that `p` accepts. */
  function Find<T>(s: seq<T>, p: T -> bool): (r: Option<T>)
    ensures r.None? <==> forall i :: 0 <= i < |s| ==> !p(s[i])
    ensures r.Some? ==> exists i :: 0 <= i < |s| && s[i] == r.value && p(s[i]) &&
                                    forall j :: 0 <= j < i ==> !p(s[j])
  {
    if s == [] then None
    else if p(s[0]) then Some(s[0])
    else
      var r := Find(s[1..], p);
      assert r.Some? ==> exists i :: 0 <= i < |s[1..]| && s[1..][i] == r.value && p(s[1..][i]) &&
                                     forall j :: 0 <= j < i ==> !p(s[1..][j]);
      assert r.Some? ==> exists i :: 1 <= i < |s| && s[i] == r.value && p(s[i]) &&
                                     forall j :: 0 <= j < i ==> !p(s[j]);
      r
  }

  /** The last element of `s` that `p` accepts. */
  function FindLast<T>(s: seq<T>, p: T -> bool): (r: Option<T>)
    ensures r.None? <==> forall i :: 0 <= i < |s| ==> !p(s[i])
    ensures r.Some? ==> exists i :: 0 <= i < |s| && s[i] == r.value && p(s[i]) &&
                                    forall j :: i < j < |s| ==> !p(s[j])
  {
    if s == [] then None
    else if p(s[|s| - 1]) then Some(s[|s| - 1])
    else FindLast(s[..|s| - 1], p)
  }

  /** `reduce((acc, x) => acc + f(x), 0)`: a left fold from 0. */
  function SumBy<T>(s: seq<T>, f: T -> int): int
  {
    if s == [] then 0 else SumBy(s[..|s| - 1], f) + f(s[|s| - 1])
  }

  lemma {:induction false} SumByConcat<T>(a: seq<T>, b: seq<T>, f: T -> int)
    ensures SumBy(a + b, f) == SumBy(a, f) + SumBy(b, f)
  {
    if b == [] {
      assert a + b == a;
    } else {
      var b' := b[..|b| - 1];
      assert (a + b)[..|a + b| - 1] == a + b';
      assert (a + b)[|a + b| - 1] == b[|b| - 1];
      SumByConcat(a, b', f);
    }
  }

  lemma SumBySingleton<T>(x: T, f: T -> int)
    ensures SumBy([x], f) == f(x)
  {
    assert [x][..0] == [];
  }

  /** Replacing one element changes the sum by exactly the difference it makes. */
  lemma SumByUpdate<T>(s: seq<T>, k: int, x: T, f: T -> int)
    requires 0 <= k < |s|
    ensures SumBy(s[k := x], f) == SumBy(s, f) - f(s[k]) + f(x)
  {
    var front, back := s[..k], s[k + 1..];
    assert s == front + [s[k]] + back;
    assert s[k := x] == front + [x] + back;
    SumByConcat(front + [s[k]], back, f);
    SumByConcat(front, [s[k]], f);
    SumByConcat(front + [x], back, f);
    SumByConcat(front, [x], f);
    SumBySingleton(s[k], f);
    SumBySingleton(x, f);
  }

  lemma {:induction false} SumByNonNegative<T>(s: seq<T>, f: T -> int)
    requires forall i :: 0 <= i < |s| ==> f(s[i]) >= 0
    ensures SumBy(s, f) >= 0
  {
    if s != [] {
      SumByNonNegative(s[..|s| - 1], f);
    }
  }
  /** Summing `f` over the kept elements is summing over all elements a
      function `g` that is `f` on kept elements and 0 elsewhere. */
  lemma {:induction false} SumByFilter<T>(s: seq<T>, keep: T -> bool, f: T -> int, g: T -> int)
    requires forall x :: g(x) == (if keep(x) then f(x) else 0)
    ensures SumBy(Filter(s, keep), f) == SumBy(s, g)
  {
    if s != [] {
      SumByFilter(s[1..], keep, f, g);
      var head := if keep(s[0]) then [s[0]] else [];
      SumByConcat(head, Filter(s[1..], keep), f);
      assert s == [s[0]] + s[1..];
      SumByConcat([s[0]], s[1..], g);
      SumBySingleton(s[0], g);
      if keep(s[0]) {
        SumBySingleton(s[0], f);
      } else {
        assert head == [];
      }
    }
  }

  /** A sum of ones is the length. */
  lemma {:induction false} SumByOnes<T>(s: seq<T>, one: T -> int)
    requires forall x :: one(x) == 1
    ensures SumBy(s, one) == |s|
  {
    if s != [] {
      SumByOnes(s[..|s| - 1], one);
    }
  }
}
