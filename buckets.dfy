/** Grouping into an insertion-ordered Map from key to list: the first element with a
    new key opens a bucket at the end, later ones are pushed onto their key's bucket. */
module Buckets {
  import opened Wrappers

  datatype Bucket<K, T> = Bucket(key: K, items: seq<T>)

  /** The elements of `s` whose key is `k`, in order. */
  ghost function Having<K, T>(s: seq<T>, key: T -> K, k: K): seq<T>
  {
    if s == [] then []
    else Having(s[..|s| - 1], key, k) + (if key(s[|s| - 1]) == k then [s[|s| - 1]] else [])
  }

  ghost predicate HasKey<K, T>(bs: seq<Bucket<K, T>>, k: K)
  {
    exists b :: 0 <= b < |bs| && bs[b].key == k
  }

  /** `map.get(k)`: the position of the bucket for `k`. */
  function FindBucket<K(==), T>(bs: seq<Bucket<K, T>>, k: K): (r: Option<nat>)
    ensures r.Some? ==> r.value < |bs| && bs[r.value].key == k
    ensures r.None? ==> !HasKey(bs, k)
  {
    if bs == [] then None
    else if bs[|bs| - 1].key == k then Some(|bs| - 1)
    else FindBucket(bs[..|bs| - 1], k)
  }

  /** `if (!map.has(k)) map.set(k, []); map.get(k).push(x)`. */
  function Place<K(==), T>(bs: seq<Bucket<K, T>>, x: T, k: K): seq<Bucket<K, T>>
  {
    var f := FindBucket(bs, k);
    if f.None? then bs + [Bucket(k, [x])]
    else bs[f.value := bs[f.value].(items := bs[f.value].items + [x])]
  }

  function BucketBy<K(==), T>(s: seq<T>, key: T -> K): seq<Bucket<K, T>>
  {
    if s == [] then [] else Place(BucketBy(s[..|s| - 1], key), s[|s| - 1], key(s[|s| - 1]))
  }

  /** One bucket per key occurring in `p`, holding exactly the elements with that key
      in their original order. */
  ghost predicate Partitioned<K, T>(bs: seq<Bucket<K, T>>, p: seq<T>, key: T -> K)
  {
    && (forall a, b :: 0 <= a < b < |bs| ==> bs[a].key != bs[b].key)
    && (forall b :: 0 <= b < |bs| ==> bs[b].items == Having(p, key, bs[b].key) && bs[b].items != [])
    && (forall j :: 0 <= j < |p| ==> HasKey(bs, key(p[j])))
  }

  lemma HavingNone<K, T>(p: seq<T>, key: T -> K, k: K)
    requires forall j :: 0 <= j < |p| ==> key(p[j]) != k
    ensures Having(p, key, k) == []
  {
    if p != [] {
      HavingNone(p[..|p| - 1], key, k);
    }
  }

  lemma HavingSnoc<K, T>(p: seq<T>, x: T, key: T -> K, k: K)
    ensures Having(p + [x], key, k) == Having(p, key, k) + (if key(x) == k then [x] else [])
  {
    assert (p + [x])[..|p|] == p;
  }

  /** A key no element of `p` has selects nothing from `p`. */
  lemma MissingKey<K, T>(bs: seq<Bucket<K, T>>, p: seq<T>, key: T -> K, k: K)
    requires Partitioned(bs, p, key) && !HasKey(bs, k)
    ensures Having(p, key, k) == []
  {
    forall j | 0 <= j < |p| ensures key(p[j]) != k {
      assert HasKey(bs, key(p[j]));
    }
    HavingNone(p, key, k);
  }

  lemma PlaceItems<K, T>(bs: seq<Bucket<K, T>>, p: seq<T>, x: T, key: T -> K)
    requires Partitioned(bs, p, key)
    ensures var after := Place(bs, x, key(x));
      forall b :: 0 <= b < |after| ==> after[b].items == Having(p + [x], key, after[b].key) && after[b].items != []
  {
    var k := key(x);
    var f := FindBucket(bs, k);
    var after := Place(bs, x, k);
    forall b | 0 <= b < |after| ensures after[b].items == Having(p + [x], key, after[b].key) && after[b].items != [] {
      HavingSnoc(p, x, key, after[b].key);
      if b < |bs| && (f.None? || b != f.value) {
        assert after[b] == bs[b];
      } else if f.None? {
        MissingKey(bs, p, key, k);
      }
    }
  }

  lemma PlaceCovers<K, T>(bs: seq<Bucket<K, T>>, p: seq<T>, x: T, key: T -> K)
    requires Partitioned(bs, p, key)
    ensures var after := Place(bs, x, key(x));
      forall j :: 0 <= j < |p + [x]| ==> HasKey(after, key((p + [x])[j]))
  {
    var k := key(x);
    var f := FindBucket(bs, k);
    var after := Place(bs, x, k);
    var q := p + [x];
    assert forall b :: 0 <= b < |bs| ==> after[b].key == bs[b].key;
    assert HasKey(after, k) by {
      if f.None? { assert after[|bs|].key == k; } else { assert after[f.value].key == k; }
    }
    forall j | 0 <= j < |q| ensures HasKey(after, key(q[j])) {
      if j < |p| {
        assert q[j] == p[j];
        assert HasKey(bs, key(p[j]));
        var b :| 0 <= b < |bs| && bs[b].key == key(p[j]);
        assert after[b].key == bs[b].key;
      }
    }
  }

  lemma PlaceStep<K, T>(bs: seq<Bucket<K, T>>, p: seq<T>, x: T, key: T -> K)
    requires Partitioned(bs, p, key)
    ensures Partitioned(Place(bs, x, key(x)), p + [x], key)
  {
    var after := Place(bs, x, key(x));
    assert forall b :: 0 <= b < |bs| ==> after[b].key == bs[b].key;
    PlaceItems(bs, p, x, key);
    PlaceCovers(bs, p, x, key);
  }

  /** Bucketing places every element in exactly the bucket of its key, in input order,
      with one bucket per distinct key. */
  lemma {:induction false} BucketByPartitions<K, T>(s: seq<T>, key: T -> K)
    ensures Partitioned(BucketBy(s, key), s, key)
  {
    if s != [] {
      var p := s[..|s| - 1];
      BucketByPartitions(p, key);
      assert s == p + [s[|s| - 1]];
      PlaceStep(BucketBy(p, key), p, s[|s| - 1], key);
    }
  }

  lemma BucketByAppendStep<K, T>(a: seq<T>, b: seq<T>, j: nat, key: T -> K)
    requires j < |b|
    ensures BucketBy(a + b[..j + 1], key) == Place(BucketBy(a + b[..j], key), b[j], key(b[j]))
  {
    assert a + b[..j + 1] == (a + b[..j]) + [b[j]];
    BucketBySnoc(a + b[..j], b[j], key);
  }

  lemma BucketBySnoc<K, T>(q: seq<T>, x: T, key: T -> K)
    ensures BucketBy(q + [x], key) == Place(BucketBy(q, key), x, key(x))
  {
    assert (q + [x])[..|q|] == q;
  }

  lemma {:induction false} HavingAppend<K, T>(a: seq<T>, b: seq<T>, key: T -> K, k: K)
    ensures Having(a + b, key, k) == Having(a, key, k) + Having(b, key, k)
  {
    if b == [] {
      assert a + b == a;
    } else {
      var n := |b| - 1;
      assert (a + b)[..|a + b| - 1] == a + b[..n];
      HavingAppend(a, b[..n], key, k);
    }
  }

  lemma {:induction false} HavingMembers<K, T>(s: seq<T>, key: T -> K, k: K)
    ensures forall x :: x in Having(s, key, k) <==> x in s && key(x) == k
  {
    if s != [] {
      HavingMembers(s[..|s| - 1], key, k);
      assert s == s[..|s| - 1] + [s[|s| - 1]];
    }
  }
}
