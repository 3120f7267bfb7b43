/**
 * The array primitives the screens use — `filter` and a `reduce` that sums —
 * written from the back, so that a prefix of a list is processed exactly
 * as a left-to-right `forEach` would have processed it.
 */
module Seqs {

  /** `a` is an order-preserving sublist of `b`. */
  predicate IsSublist<T(==)>(a: seq<T>, b: seq<T>)
    decreases |b|
  {
    if a == [] then true
    else if b == [] then false
    else if a[|a| - 1] == b[|b| - 1] then IsSublist(a[..|a| - 1], b[..|b| - 1])
    else IsSublist(a, b[..|b| - 1])
  }

  /** `s.filter(p)`: the elements satisfying `p`, in their order. */
  function Filter<T(==,!new)>(s: seq<T>, p: T -> bool): (r: seq<T>)
    ensures |r| <= |s|
    ensures forall x :: x in r <==> x in s && p(x)
  {
    if s == [] then []
    else
      var front := Filter(s[..|s| - 1], p);
      var last := s[|s| - 1];
      assert forall x :: x in s <==> x in s[..|s| - 1] || x == last;
      if p(last) then front + [last] else front
  }

  /** The filter keeps its survivors in their order: the result is a sublist. */
  lemma {:induction false} FilterSublist<T(!new)>(s: seq<T>, p: T -> bool)
    ensures IsSublist(Filter(s, p), s)
  {
    if s != [] {
      var front, last := s[..|s| - 1], s[|s| - 1];
      var r := Filter(front, p);
      FilterSublist(front, p);
      if p(last) {
        assert (r + [last])[..|r|] == r;
      } else if r != [] {
        assert r[|r| - 1] in r;
      }
    }
  }

  lemma {:induction false} FilterAppend<T(!new)>(a: seq<T>, b: seq<T>, p: T -> bool)
    ensures Filter(a + b, p) == Filter(a, p) + Filter(b, p)
    decreases |b|
  {
    if b == [] {
      assert a + b == a;
    } else {
      var b' := b[..|b| - 1];
      assert (a + b)[..|a + b| - 1] == a + b';
      FilterAppend(a, b', p);
    }
  }

  lemma FilterAppendOne<T(!new)>(s: seq<T>, x: T, p: T -> bool)
    ensures Filter(s + [x], p) == Filter(s, p) + (if p(x) then [x] else [])
  {
    assert (s + [x])[..|s|] == s;
  }

  lemma {:induction false} FilterNone<T(!new)>(s: seq<T>, p: T -> bool)
    requires forall x :: x in s ==> !p(x)
    ensures Filter(s, p) == []
  {
    if s != [] {
      assert s[|s| - 1] in s;
      assert forall x :: x in s[..|s| - 1] ==> x in s;
      FilterNone(s[..|s| - 1], p);
    }
  }

  /** An infix none of whose elements survives the filter can be cut out. */
  lemma FilterSkip<T(!new)>(a: seq<T>, b: seq<T>, c: seq<T>, p: T -> bool)
    requires forall x :: x in b ==> !p(x)
    ensures Filter(a + b + c, p) == Filter(a + c, p)
  {
    FilterAppend(a + b, c, p);
    FilterAppend(a, b, p);
    FilterAppend(a, c, p);
    FilterNone(b, p);
    assert Filter(a, p) + [] == Filter(a, p);
  }

  /** The filter keeps everything when `p` holds of every element. */
  lemma {:induction false} FilterAll<T(!new)>(s: seq<T>, p: T -> bool)
    requires forall x :: x in s ==> p(x)
    ensures Filter(s, p) == s
  {
    if s != [] {
      assert forall x :: x in s[..|s| - 1] ==> x in s;
      FilterAll(s[..|s| - 1], p);
    }
  }

  /** How often `y` survives the filter: as often as in `s` if `p(y)`, else never. */
  lemma {:induction false} FilterCount<T(!new)>(s: seq<T>, p: T -> bool, y: T)
    ensures multiset(Filter(s, p))[y] == if p(y) then multiset(s)[y] else 0
  {
    if s != [] {
      FilterCount(s[..|s| - 1], p, y);
      assert s == s[..|s| - 1] + [s[|s| - 1]];
    }
  }

  /** Filtering two reorderings of one list gives reorderings of one list. */
  lemma FilterPermutation<T(!new)>(a: seq<T>, b: seq<T>, p: T -> bool)
    requires multiset(a) == multiset(b)
    ensures multiset(Filter(a, p)) == multiset(Filter(b, p))
  {
    forall y ensures multiset(Filter(a, p))[y] == multiset(Filter(b, p))[y] {
      FilterCount(a, p, y);
      FilterCount(b, p, y);
    }
  }

  /** A prefix one longer is the shorter prefix and one more element. */
  lemma TakeOneMore<T>(s: seq<T>, i: nat)
    requires i < |s|
    ensures s[..i + 1] == s[..i] + [s[i]]
  {
  }

  lemma TakeTake<T>(s: seq<T>, n: nat, m: nat)
    requires m <= n <= |s|
    ensures s[..n][..m] == s[..m]
  {
  }

  lemma TakeAll<T>(s: seq<T>)
    ensures s[..|s|] == s
  {
  }

  /** `s.reduce((sum, x) => sum + f(x), 0)`. */
  function Sum<T>(s: seq<T>, f: T -> int): int {
    if s == [] then 0 else Sum(s[..|s| - 1], f) + f(s[|s| - 1])
  }

  lemma {:induction false} SumAppend<T>(a: seq<T>, b: seq<T>, f: T -> int)
    ensures Sum(a + b, f) == Sum(a, f) + Sum(b, f)
    decreases |b|
  {
    if b != [] {
      var b' := b[..|b| - 1];
      assert (a + b)[..|a + b| - 1] == a + b';
      SumAppend(a, b', f);
    } else {
      assert a + b == a;
    }
  }

  /** A prefix one longer adds the term of its last element. */
  lemma SumPrefix<T>(s: seq<T>, f: T -> int, n: nat)
    requires 0 < n <= |s|
    ensures Sum(s[..n], f) == Sum(s[..n - 1], f) + f(s[n - 1])
  {
    assert s[..n][..n - 1] == s[..n - 1];
  }

  /** A sum of terms that are never negative is never negative. */
  lemma {:induction false} SumNonNegative<T>(s: seq<T>, f: T -> int)
    requires forall x :: x in s ==> f(x) >= 0
    ensures Sum(s, f) >= 0
  {
    if s != [] {
      assert forall x :: x in s[..|s| - 1] ==> x in s;
      SumNonNegative(s[..|s| - 1], f);
    }
  }

  /** With no negative term, the sum is at least each of its terms. */
  lemma {:induction false} SumAtLeastTerm<T>(s: seq<T>, f: T -> int)
    requires forall x :: x in s ==> f(x) >= 0
    ensures Sum(s, f) >= 0
    ensures forall x :: x in s ==> f(x) <= Sum(s, f)
  {
    if s != [] {
      var front := s[..|s| - 1];
      assert forall x :: x in front ==> x in s;
      SumAtLeastTerm(front, f);
      assert forall x :: x in s ==> x in front || x == s[|s| - 1];
    }
  }

  /** `s.reduce((sum, x) => sum + f(x), 0)` over real-valued terms. */
  function RealSum<T>(s: seq<T>, f: T -> real): real {
    if s == [] then 0.0 else RealSum(s[..|s| - 1], f) + f(s[|s| - 1])
  }

  lemma {:induction false} RealSumAppend<T>(a: seq<T>, b: seq<T>, f: T -> real)
    ensures RealSum(a + b, f) == RealSum(a, f) + RealSum(b, f)
    decreases |b|
  {
    if b != [] {
      var b' := b[..|b| - 1];
      assert (a + b)[..|a + b| - 1] == a + b';
      RealSumAppend(a, b', f);
    } else {
      assert a + b == a;
    }
  }

  /** A sum of real terms that are never negative is never negative. */
  lemma {:induction false} RealSumNonNegative<T>(s: seq<T>, f: T -> real)
    requires forall x :: x in s ==> f(x) >= 0.0
    ensures RealSum(s, f) >= 0.0
  {
    if s != [] {
      assert forall x :: x in s[..|s| - 1] ==> x in s;
      RealSumNonNegative(s[..|s| - 1], f);
    }
  }

  /** Replacing one element changes the sum by the difference of the two terms. */
  lemma {:induction false} SumUpdate<T>(s: seq<T>, i: nat, x: T, f: T -> int)
    requires i < |s|
    ensures Sum(s[i := x], f) == Sum(s, f) - f(s[i]) + f(x)
  {
    var n := |s| - 1;
    assert s[i := x][..n] == if i < n then s[..n][i := x] else s[..n];
    if i < n {
      SumUpdate(s[..n], i, x, f);
    }
  }

  /** The conjunction of two filter conditions. */
  function Both<T>(p: T -> bool, q: T -> bool): T -> bool {
    (x: T) => p(x) && q(x)
  }

  /** Filtering twice is filtering once by both conditions. */
  lemma {:induction false} FilterFilter<T(!new)>(s: seq<T>, p: T -> bool, q: T -> bool)
    ensures Filter(Filter(s, p), q) == Filter(s, Both(p, q))
  {
    if s != [] {
      var front, last := s[..|s| - 1], s[|s| - 1];
      FilterFilter(front, p, q);
      if p(last) {
        FilterAppendOne(Filter(front, p), last, q);
      }
    }
  }
}
