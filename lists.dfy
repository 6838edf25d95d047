/** The list operations the dashboard uses on its in-memory arrays
    (`filter`, `reduce` with `+`, `find`), stated once with their laws. */
module Lists {

  datatype Option<T> = None | Some(value: T)

  /** `r` is obtained from `s` by deleting elements, keeping the order. */
  predicate IsSubsequence<T(==)>(r: seq<T>, s: seq<T>)
    decreases |s|
  {
    r == [] || (s != [] && ((r[0] == s[0] && IsSubsequence(r[1..], s[1..])) || IsSubsequence(r, s[1..])))
  }

  /** `Array.prototype.filter`: the elements satisfying `p`, in order, each
      kept exactly as often as it occurs in `s`. */
  function Filter<T(==,!new)>(p: T -> bool, s: seq<T>): (r: seq<T>)
    ensures IsSubsequence(r, s) && |r| <= |s|
    ensures forall x :: x in r <==> x in s && p(x)
    ensures forall x :: multiset(r)[x] == if p(x) then multiset(s)[x] else 0
  {
    if s == [] then []
    else
      assert s == [s[0]] + s[1..];
      if p(s[0]) then [s[0]] + Filter(p, s[1..]) else Filter(p, s[1..])
  }

  /** `reduce((acc, x) => acc + f(x), 0)`. */
  function Sum<T>(f: T -> int, s: seq<T>): int
  {
    if s == [] then 0 else f(s[0]) + Sum(f, s[1..])
  }

  /** `Array.prototype.find`: the first element satisfying `p`, if any. */
  function Find<T(==)>(p: T -> bool, s: seq<T>): (r: Option<T>)
    ensures r.None? <==> forall k :: 0 <= k < |s| ==> !p(s[k])
    ensures r.Some? ==> exists k :: 0 <= k < |s| && s[k] == r.value && p(r.value) && forall j :: 0 <= j < k ==> !p(s[j])
  {
    if s == [] then None
    else if p(s[0]) then Some(s[0])
    else
      var r := Find(p, s[1..]);
      assert r.Some? ==> exists k :: 0 <= k < |s| - 1 && s[1..][k] == r.value && p(r.value) && forall j :: 0 <= j < k ==> !p(s[1..][j]);
      if r.Some? then
        var k :| 0 <= k < |s| - 1 && s[1..][k] == r.value && p(r.value) && forall j :: 0 <= j < k ==> !p(s[1..][j]);
        assert s[k + 1] == r.value && forall j :: 0 <= j < k + 1 ==> !p(s[j]);
        r
      else r
  }

  lemma {:induction false} FilterAppend<T(!new)>(p: T -> bool, a: seq<T>, b: seq<T>)
    ensures Filter(p, a + b) == Filter(p, a) + Filter(p, b)
  {
    if a == [] {
      assert a + b == b;
    } else {
      assert (a + b)[1..] == a[1..] + b;
      FilterAppend(p, a[1..], b);
    }
  }

  /** Filtering by a predicate every element satisfies changes nothing. */
  lemma {:induction false} FilterKeepsAll<T(!new)>(p: T -> bool, s: seq<T>)
    requires forall x :: x in s ==> p(x)
    ensures Filter(p, s) == s
  {
    if s != [] {
      assert forall x :: x in s[1..] ==> x in s;
      FilterKeepsAll(p, s[1..]);
    }
  }

  /** Filtering by `p` and by its negation splits `s` in two. */
  lemma FilterComplement<T(!new)>(p: T -> bool, q: T -> bool, s: seq<T>)
    requires forall x :: q(x) == !p(x)
    ensures |Filter(p, s)| + |Filter(q, s)| == |s|
    ensures multiset(Filter(p, s)) + multiset(Filter(q, s)) == multiset(s)
  {
    var a, b := Filter(p, s), Filter(q, s);
    forall x ensures (multiset(a) + multiset(b))[x] == multiset(s)[x] {
    }
    assert multiset(a) + multiset(b) == multiset(s);
    assert |multiset(a) + multiset(b)| == |a| + |b|;
  }

  /** Two predicates that agree everywhere keep the same elements. */
  lemma {:induction false} FilterSamePredicate<T(!new)>(p: T -> bool, q: T -> bool, s: seq<T>)
    requires forall x :: p(x) == q(x)
    ensures Filter(p, s) == Filter(q, s)
  {
    if s != [] {
      FilterSamePredicate(p, q, s[1..]);
    }
  }

  /** A stronger predicate keeps no more elements. */
  lemma {:induction false} FilterMonotone<T(!new)>(p: T -> bool, q: T -> bool, s: seq<T>)
    requires forall x :: q(x) ==> p(x)
    ensures |Filter(q, s)| <= |Filter(p, s)|
  {
    if s != [] {
      FilterMonotone(p, q, s[1..]);
    }
  }

  /** The number of elements kept is the sum of a 0/1 indicator. */
  lemma {:induction false} FilterCount<T(!new)>(p: T -> bool, f: T -> int, s: seq<T>)
    requires forall x :: f(x) == if p(x) then 1 else 0
    ensures |Filter(p, s)| == Sum(f, s)
  {
    if s != [] {
      FilterCount(p, f, s[1..]);
    }
  }

  lemma {:induction false} SumAppend<T>(f: T -> int, a: seq<T>, b: seq<T>)
    ensures Sum(f, a + b) == Sum(f, a) + Sum(f, b)
  {
    if a == [] {
      assert a + b == b;
    } else {
      assert (a + b)[1..] == a[1..] + b;
      SumAppend(f, a[1..], b);
    }
  }

  /** Dropping elements whose summand is zero does not change a sum. */
  lemma {:induction false} SumFilterZeros<T(!new)>(p: T -> bool, f: T -> int, s: seq<T>)
    requires forall x :: !p(x) ==> f(x) == 0
    ensures Sum(f, Filter(p, s)) == Sum(f, s)
  {
    if s != [] {
      SumFilterZeros(p, f, s[1..]);
      if p(s[0]) {
        assert ([s[0]] + Filter(p, s[1..]))[1..] == Filter(p, s[1..]);
      }
    }
  }

  /** A sum of non-negative summands is non-negative. */
  lemma {:induction false} SumNonNegative<T>(f: T -> int, s: seq<T>)
    requires forall x :: x in s ==> f(x) >= 0
    ensures Sum(f, s) >= 0
  {
    if s != [] {
      assert forall x :: x in s[1..] ==> x in s;
      SumNonNegative(f, s[1..]);
    }
  }

  /** With non-negative terms, every term is at most the sum. */
  lemma {:induction false} SumAtLeastTerm<T>(f: T -> int, s: seq<T>, k: int)
    requires forall x :: x in s ==> f(x) >= 0
    requires 0 <= k < |s|
    ensures f(s[k]) <= Sum(f, s)
  {
    assert forall x :: x in s[1..] ==> x in s;
    if k == 0 {
      SumNonNegative(f, s[1..]);
    } else {
      SumAtLeastTerm(f, s[1..], k - 1);
    }
  }

  lemma SumAtLeastEachTerm<T>(f: T -> int, s: seq<T>)
    requires forall x :: x in s ==> f(x) >= 0
    ensures forall k :: 0 <= k < |s| ==> f(s[k]) <= Sum(f, s)
  {
    forall k | 0 <= k < |s| ensures f(s[k]) <= Sum(f, s) {
      SumAtLeastTerm(f, s, k);
    }
  }

  /** With non-negative terms, the sum is 0 iff every term is 0. */
  lemma {:induction false} SumZeroIff<T>(f: T -> int, s: seq<T>)
    requires forall x :: x in s ==> f(x) >= 0
    ensures Sum(f, s) == 0 <==> forall x :: x in s ==> f(x) == 0
  {
    if s != [] {
      assert forall x :: x in s[1..] ==> x in s;
      assert forall x :: x in s ==> x == s[0] || x in s[1..];
      SumNonNegative(f, s[1..]);
      SumZeroIff(f, s[1..]);
    }
  }
}
