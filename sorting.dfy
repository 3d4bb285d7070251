/** Stable sorting by an integer key, the model of `Array.prototype.sort` with a
    comparator that subtracts two keys. */
module Sorting {
  import opened Folds

  predicate SortedBy<T>(s: seq<T>, key: T -> int)
  {
    forall i, j :: 0 <= i < j < |s| ==> key(s[i]) <= key(s[j])
  }

  /** Places `x` in front of the first element whose key is not smaller. */
  function Insert<T>(x: T, s: seq<T>, key: T -> int): (r: seq<T>)
    ensures |r| == |s| + 1
  {
    if s == [] || key(x) <= key(s[0]) then [x] + s else [s[0]] + Insert(x, s[1..], key)
  }

  lemma {:induction false} InsertPermutes<T>(x: T, s: seq<T>, key: T -> int)
    ensures multiset(Insert(x, s, key)) == multiset(s) + multiset{x}
  {
    if s != [] && key(x) > key(s[0]) {
      InsertPermutes(x, s[1..], key);
      assert s == [s[0]] + s[1..];
    }
  }

  lemma {:induction false} InsertBounded<T>(x: T, s: seq<T>, key: T -> int, b: int)
    requires b <= key(x)
    requires forall i :: 0 <= i < |s| ==> b <= key(s[i])
    ensures forall i :: 0 <= i < |Insert(x, s, key)| ==> b <= key(Insert(x, s, key)[i])
  {
    if s != [] && key(x) > key(s[0]) {
      InsertBounded(x, s[1..], key, b);
    }
  }

  lemma {:induction false} InsertSorted<T>(x: T, s: seq<T>, key: T -> int)
    requires SortedBy(s, key)
    ensures SortedBy(Insert(x, s, key), key)
  {
    if s != [] && key(x) > key(s[0]) {
      InsertSorted(x, s[1..], key);
      InsertBounded(x, s[1..], key, key(s[0]));
    }
  }

  lemma SortedPrefix<T>(s: seq<T>, key: T -> int, n: nat)
    requires SortedBy(s, key) && n <= |s|
    ensures SortedBy(s[..n], key)
  {
  }

  /** Neighbours in a sorted sequence are in order. */
  lemma SortedNeighbours<T>(s: seq<T>, key: T -> int, i: nat)
    requires SortedBy(s, key) && 0 < i < |s|
    ensures key(s[i - 1]) <= key(s[i])
  {
  }

  /** Insertion sort; equal keys keep their input order. */
  function SortBy<T>(s: seq<T>, key: T -> int): seq<T>
  {
    if s == [] then [] else Insert(s[0], SortBy(s[1..], key), key)
  }

  /** Sorting orders by the key and only rearranges the input. */
  lemma {:induction false} SortByCorrect<T>(s: seq<T>, key: T -> int)
    ensures SortedBy(SortBy(s, key), key)
    ensures multiset(SortBy(s, key)) == multiset(s)
  {
    if s != [] {
      SortByCorrect(s[1..], key);
      InsertSorted(s[0], SortBy(s[1..], key), key);
      InsertPermutes(s[0], SortBy(s[1..], key), key);
      assert s == [s[0]] + s[1..];
    }
  }

  lemma {:induction false} FilterBounded<T>(s: seq<T>, key: T -> int, p: T -> bool, b: int)
    requires forall i :: 0 <= i < |s| ==> key(s[i]) <= b
    ensures forall i :: 0 <= i < |Filter(s, p)| ==> key(Filter(s, p)[i]) <= b
  {
    if s != [] {
      FilterBounded(s[..|s| - 1], key, p, b);
    }
  }

  /** Keeping some elements of a sorted sequence leaves it sorted. */
  lemma {:induction false} FilterSorted<T>(s: seq<T>, key: T -> int, p: T -> bool)
    requires SortedBy(s, key)
    ensures SortedBy(Filter(s, p), key)
  {
    if s != [] {
      var init := s[..|s| - 1];
      FilterSorted(init, key, p);
      FilterBounded(init, key, p, key(s[|s| - 1]));
    }
  }

  /** Sorting an already sorted sequence changes nothing. */
  lemma {:induction false} SortSorted<T>(s: seq<T>, key: T -> int)
    requires SortedBy(s, key)
    ensures SortBy(s, key) == s
  {
    if s != [] {
      SortSorted(s[1..], key);
      assert s == [s[0]] + s[1..];
    }
  }

  /** A permutation has the same length and the same elements. */
  lemma PermutationSameElements<T>(a: seq<T>, b: seq<T>)
    requires multiset(a) == multiset(b)
    ensures |a| == |b|
    ensures forall x :: x in a <==> x in b
  {
    assert |a| == |multiset(a)| == |multiset(b)| == |b|;
    forall x ensures x in a <==> x in b {
      assert x in a <==> x in multiset(a);
      assert x in b <==> x in multiset(b);
    }
  }
  lemma {:induction false} InsertSum<T>(x: T, s: seq<T>, key: T -> int, f: T -> int)
    ensures Sum(Insert(x, s, key), f) == f(x) + Sum(s, f)
  {
    if s == [] || key(x) <= key(s[0]) {
      SumAppend([x], s, f);
      assert Sum([x], f) == f(x) by { assert [x][..0] == []; }
    } else {
      InsertSum(x, s[1..], key, f);
      SumAppend([s[0]], Insert(x, s[1..], key), f);
      SumAppend([s[0]], s[1..], f);
      assert [s[0]] + s[1..] == s;
      assert Sum([s[0]], f) == f(s[0]) by { assert [s[0]][..0] == []; }
    }
  }

  /** Sorting does not change a sum over the elements. */
  lemma {:induction false} SortBySum<T>(s: seq<T>, key: T -> int, f: T -> int)
    ensures Sum(SortBy(s, key), f) == Sum(s, f)
  {
    if s != [] {
      SortBySum(s[1..], key, f);
      InsertSum(s[0], SortBy(s[1..], key), key, f);
      SumAppend([s[0]], s[1..], f);
      assert [s[0]] + s[1..] == s;
      assert Sum([s[0]], f) == f(s[0]) by { assert [s[0]][..0] == []; }
    }
  }

  // ------------------------------------------------ descending order on a real key

  /** Highest key first: the order of a comparator that subtracts `a`'s key from `b`'s. */
  predicate RankedBy<T>(s: seq<T>, key: T -> real)
  {
    forall i, j :: 0 <= i < j < |s| ==> key(s[i]) >= key(s[j])
  }

  /** Places `x` in front of the first element whose key is not larger. */
  function RankInsert<T>(x: T, s: seq<T>, key: T -> real): (r: seq<T>)
    ensures |r| == |s| + 1
  {
    if s == [] || key(x) >= key(s[0]) then [x] + s else [s[0]] + RankInsert(x, s[1..], key)
  }

  lemma {:induction false} RankInsertPermutes<T>(x: T, s: seq<T>, key: T -> real)
    ensures multiset(RankInsert(x, s, key)) == multiset(s) + multiset{x}
  {
    if s != [] && key(x) < key(s[0]) {
      RankInsertPermutes(x, s[1..], key);
      assert s == [s[0]] + s[1..];
    }
  }

  lemma {:induction false} RankInsertBounded<T>(x: T, s: seq<T>, key: T -> real, b: real)
    requires key(x) <= b
    requires forall i :: 0 <= i < |s| ==> key(s[i]) <= b
    ensures forall i :: 0 <= i < |RankInsert(x, s, key)| ==> key(RankInsert(x, s, key)[i]) <= b
  {
    if s != [] && key(x) < key(s[0]) {
      RankInsertBounded(x, s[1..], key, b);
    }
  }

  lemma {:induction false} RankInsertRanked<T>(x: T, s: seq<T>, key: T -> real)
    requires RankedBy(s, key)
    ensures RankedBy(RankInsert(x, s, key), key)
  {
    if s != [] && key(x) < key(s[0]) {
      RankInsertRanked(x, s[1..], key);
      RankInsertBounded(x, s[1..], key, key(s[0]));
    }
  }

  /** Insertion sort, highest key first; equal keys keep their input order. */
  function RankBy<T>(s: seq<T>, key: T -> real): seq<T>
  {
    if s == [] then [] else RankInsert(s[0], RankBy(s[1..], key), key)
  }

  /** Ranking orders by the key, highest first, and only rearranges the input. */
  lemma {:induction false} RankByCorrect<T>(s: seq<T>, key: T -> real)
    ensures RankedBy(RankBy(s, key), key)
    ensures multiset(RankBy(s, key)) == multiset(s)
  {
    if s != [] {
      RankByCorrect(s[1..], key);
      RankInsertRanked(s[0], RankBy(s[1..], key), key);
      RankInsertPermutes(s[0], RankBy(s[1..], key), key);
      assert s == [s[0]] + s[1..];
    }
  }

  lemma {:induction false} RankInsertSum<T>(x: T, s: seq<T>, key: T -> real, f: T -> int)
    ensures Sum(RankInsert(x, s, key), f) == f(x) + Sum(s, f)
  {
    if s == [] || key(x) >= key(s[0]) {
      SumAppend([x], s, f);
      assert Sum([x], f) == f(x) by { assert [x][..0] == []; }
    } else {
      RankInsertSum(x, s[1..], key, f);
      SumAppend([s[0]], RankInsert(x, s[1..], key), f);
      SumAppend([s[0]], s[1..], f);
      assert [s[0]] + s[1..] == s;
      assert Sum([s[0]], f) == f(s[0]) by { assert [s[0]][..0] == []; }
    }
  }

  /** Ranking does not change a sum over the elements. */
  lemma {:induction false} RankBySum<T>(s: seq<T>, key: T -> real, f: T -> int)
    ensures Sum(RankBy(s, key), f) == Sum(s, f)
  {
    if s != [] {
      RankBySum(s[1..], key, f);
      RankInsertSum(s[0], RankBy(s[1..], key), key, f);
      SumAppend([s[0]], s[1..], f);
      assert [s[0]] + s[1..] == s;
      assert Sum([s[0]], f) == f(s[0]) by { assert [s[0]][..0] == []; }
    }
  }
}
