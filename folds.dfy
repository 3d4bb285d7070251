/** Sums, counts and filters over sequences, folded from the right end so that a
    loop over a prefix extends them by one element per step. */
module Folds {

  function Sum<T>(s: seq<T>, f: T -> int): int
  {
    if s == [] then 0 else Sum(s[..|s| - 1], f) + f(s[|s| - 1])
  }

  function Count<T>(s: seq<T>, p: T -> bool): nat
  {
    if s == [] then 0 else Count(s[..|s| - 1], p) + (if p(s[|s| - 1]) then 1 else 0)
  }

  function Filter<T>(s: seq<T>, p: T -> bool): seq<T>
  {
    if s == [] then [] else Filter(s[..|s| - 1], p) + (if p(s[|s| - 1]) then [s[|s| - 1]] else [])
  }

  /** One more element of a prefix adds its term. */
  lemma SumStep<T>(s: seq<T>, i: nat, f: T -> int)
    requires i < |s|
    ensures Sum(s[..i + 1], f) == Sum(s[..i], f) + f(s[i])
  {
    assert s[..i + 1][..i] == s[..i];
  }

  lemma CountStep<T>(s: seq<T>, i: nat, p: T -> bool)
    requires i < |s|
    ensures Count(s[..i + 1], p) == Count(s[..i], p) + (if p(s[i]) then 1 else 0)
  {
    assert s[..i + 1][..i] == s[..i];
  }

  lemma FilterStep<T>(s: seq<T>, i: nat, p: T -> bool)
    requires i < |s|
    ensures Filter(s[..i + 1], p) == Filter(s[..i], p) + (if p(s[i]) then [s[i]] else [])
  {
    assert s[..i + 1][..i] == s[..i];
  }

  /** One more element at the end adds its term. */
  lemma SumAfter<T>(p: seq<T>, t: T, f: T -> int)
    ensures Sum(p + [t], f) == Sum(p, f) + f(t)
  {
    assert (p + [t])[..|p|] == p;
  }

  lemma CountAfter<T>(p: seq<T>, t: T, q: T -> bool)
    ensures Count(p + [t], q) == Count(p, q) + (if q(t) then 1 else 0)
  {
    assert (p + [t])[..|p|] == p;
  }

  /** Terms that are all zero sum to zero. */
  lemma {:induction false} SumZero<T>(s: seq<T>, f: T -> int)
    requires forall i :: 0 <= i < |s| ==> f(s[i]) == 0
    ensures Sum(s, f) == 0
  {
    if s != [] {
      SumZero(s[..|s| - 1], f);
    }
  }

  /** Nothing passes a test that no element passes. */
  lemma {:induction false} CountNone<T>(s: seq<T>, p: T -> bool)
    requires forall i :: 0 <= i < |s| ==> !p(s[i])
    ensures Count(s, p) == 0
  {
    if s != [] {
      CountNone(s[..|s| - 1], p);
    }
  }

  lemma SumSingleton<T>(x: T, f: T -> int)
    ensures Sum([x], f) == f(x)
  {
    assert [x][..0] == [];
  }

  lemma {:induction false} SumAppend<T>(a: seq<T>, b: seq<T>, f: T -> int)
    ensures Sum(a + b, f) == Sum(a, f) + Sum(b, f)
  {
    if b == [] {
      assert a + b == a;
    } else {
      assert (a + b)[..|a + b| - 1] == a + b[..|b| - 1];
      SumAppend(a, b[..|b| - 1], f);
    }
  }

  lemma {:induction false} CountAppend<T>(a: seq<T>, b: seq<T>, p: T -> bool)
    ensures Count(a + b, p) == Count(a, p) + Count(b, p)
  {
    if b == [] {
      assert a + b == a;
    } else {
      assert (a + b)[..|a + b| - 1] == a + b[..|b| - 1];
      CountAppend(a, b[..|b| - 1], p);
    }
  }

  lemma {:induction false} FilterAppend<T>(a: seq<T>, b: seq<T>, p: T -> bool)
    ensures Filter(a + b, p) == Filter(a, p) + Filter(b, p)
  {
    if b == [] {
      assert a + b == a;
    } else {
      assert (a + b)[..|a + b| - 1] == a + b[..|b| - 1];
      FilterAppend(a, b[..|b| - 1], p);
    }
  }

  /** Summing a term that is never negative gives a non-negative total. */
  lemma {:induction false} SumNonNegative<T>(s: seq<T>, f: T -> int)
    requires forall i :: 0 <= i < |s| ==> f(s[i]) >= 0
    ensures Sum(s, f) >= 0
  {
    if s != [] {
      SumNonNegative(s[..|s| - 1], f);
    }
  }

  /** A pointwise smaller term gives a smaller total. */
  lemma {:induction false} SumMonotone<T>(s: seq<T>, f: T -> int, g: T -> int)
    requires forall i :: 0 <= i < |s| ==> f(s[i]) <= g(s[i])
    ensures Sum(s, f) <= Sum(s, g)
  {
    if s != [] {
      SumMonotone(s[..|s| - 1], f, g);
    }
  }

  /** A test implied by another passes at least as often. */
  lemma {:induction false} CountMonotone<T>(s: seq<T>, p: T -> bool, q: T -> bool)
    requires forall i :: 0 <= i < |s| ==> p(s[i]) ==> q(s[i])
    ensures Count(s, p) <= Count(s, q)
  {
    if s != [] {
      CountMonotone(s[..|s| - 1], p, q);
    }
  }

  /** The sum of terms that agree everywhere on the sequence is the same. */
  lemma {:induction false} SumCongruent<T>(s: seq<T>, f: T -> int, g: T -> int)
    requires forall i :: 0 <= i < |s| ==> f(s[i]) == g(s[i])
    ensures Sum(s, f) == Sum(s, g)
  {
    if s != [] {
      SumCongruent(s[..|s| - 1], f, g);
    }
  }

  /** Two sequences whose terms agree position by position have the same sum. */
  lemma {:induction false} SumPointwise<T>(a: seq<T>, b: seq<T>, f: T -> int)
    requires |a| == |b|
    requires forall i :: 0 <= i < |a| ==> f(a[i]) == f(b[i])
    ensures Sum(a, f) == Sum(b, f)
  {
    if a != [] {
      SumPointwise(a[..|a| - 1], b[..|b| - 1], f);
    }
  }

  /** Summing over the elements that pass a test equals summing the term masked by the test. */
  lemma {:induction false} SumFilter<T>(s: seq<T>, p: T -> bool, f: T -> int, g: T -> int)
    requires forall i :: 0 <= i < |s| ==> g(s[i]) == (if p(s[i]) then f(s[i]) else 0)
    ensures Sum(Filter(s, p), f) == Sum(s, g)
  {
    if s != [] {
      var init := s[..|s| - 1];
      SumFilter(init, p, f, g);
      SumAppend(Filter(init, p), if p(s[|s| - 1]) then [s[|s| - 1]] else [], f);
      assert Sum([s[|s| - 1]], f) == f(s[|s| - 1]) by {
        assert [s[|s| - 1]][..0] == [];
      }
    }
  }

  lemma {:induction false} FilterLength<T>(s: seq<T>, p: T -> bool)
    ensures |Filter(s, p)| == Count(s, p)
  {
    if s != [] {
      FilterLength(s[..|s| - 1], p);
    }
  }

  /** A filter that keeps every element keeps the whole sequence. */
  lemma {:induction false} FilterAll<T>(s: seq<T>, p: T -> bool)
    requires forall i :: 0 <= i < |s| ==> p(s[i])
    ensures Filter(s, p) == s
  {
    if s != [] {
      FilterAll(s[..|s| - 1], p);
    }
  }

  lemma {:induction false} FilterMembers<T>(s: seq<T>, p: T -> bool)
    ensures forall x :: x in Filter(s, p) <==> x in s && p(x)
  {
    if s != [] {
      FilterMembers(s[..|s| - 1], p);
      assert s == s[..|s| - 1] + [s[|s| - 1]];
    }
  }

  lemma FilterSnoc<T>(q: seq<T>, x: T, f: T -> bool)
    ensures Filter(q + [x], f) == Filter(q, f) + (if f(x) then [x] else [])
  {
    assert (q + [x])[..|q|] == q;
  }

  /** A test holds throughout `p + [x]` exactly when it holds throughout `p` and on `x`. */
  lemma AllSnoc<T>(p: seq<T>, x: T, f: T -> bool)
    ensures (forall i :: 0 <= i < |p + [x]| ==> f((p + [x])[i])) <==> (forall i :: 0 <= i < |p| ==> f(p[i])) && f(x)
  {
    assert forall i :: 0 <= i < |p| ==> (p + [x])[i] == p[i];
    assert (p + [x])[|p|] == x;
  }

  /** `s.map(f)`. */
  function Map<T, U>(s: seq<T>, f: T -> U): (r: seq<U>)
    ensures |r| == |s|
  {
    if s == [] then [] else Map(s[..|s| - 1], f) + [f(s[|s| - 1])]
  }

  lemma {:induction false} MapAt<T, U>(s: seq<T>, f: T -> U)
    ensures forall i :: 0 <= i < |s| ==> Map(s, f)[i] == f(s[i])
  {
    if s != [] {
      var p := s[..|s| - 1];
      MapAt(p, f);
      assert forall i :: 0 <= i < |p| ==> p[i] == s[i];
    }
  }

  lemma MultisetSnoc<T>(a: seq<T>, b: seq<T>, x: T, left: bool)
    ensures multiset((if left then a + [x] else a) + (if left then b else b + [x])) == multiset(a + b) + multiset{x}
  {
    if left {
      assert (a + [x]) + b == a + [x] + b;
    } else {
      assert a + (b + [x]) == (a + b) + [x];
    }
  }

  /** Splitting by a test and by its complement, then concatenating, permutes. */
  lemma {:induction false} FilterComplement<T>(s: seq<T>, f: T -> bool, g: T -> bool)
    requires forall i :: 0 <= i < |s| ==> g(s[i]) == !f(s[i])
    ensures multiset(Filter(s, f) + Filter(s, g)) == multiset(s)
  {
    if s != [] {
      var q := s[..|s| - 1];
      var x := s[|s| - 1];
      assert forall i :: 0 <= i < |q| ==> q[i] == s[i];
      FilterComplement(q, f, g);
      assert s == q + [x];
      ComplementSnoc(q, x, f, g);
    }
  }

  lemma ComplementSnoc<T>(q: seq<T>, x: T, f: T -> bool, g: T -> bool)
    requires multiset(Filter(q, f) + Filter(q, g)) == multiset(q) && g(x) == !f(x)
    ensures multiset(Filter(q + [x], f) + Filter(q + [x], g)) == multiset(q + [x])
  {
    FilterSnoc(q, x, f);
    FilterSnoc(q, x, g);
    MultisetSnoc(Filter(q, f), Filter(q, g), x, f(x));
  }

  /** Replacing one element changes the sum by the difference of its terms. */
  lemma {:induction false} SumUpdate<T>(s: seq<T>, j: nat, x: T, f: T -> int)
    requires j < |s|
    ensures Sum(s[j := x], f) == Sum(s, f) - f(s[j]) + f(x)
  {
    var n := |s| - 1;
    if j < n {
      assert s[j := x][..n] == s[..n][j := x];
      SumUpdate(s[..n], j, x, f);
    } else {
      assert s[j := x][..n] == s[..n];
    }
  }
}
