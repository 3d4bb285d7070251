/** Keyed record lists as the store keeps them: `findIndex`, replace-at-index and
    `filter(x => x.id !== id)`, generic in the record type and its key field. */
module Records {
  import opened Wrappers

  /** `findIndex(x => key(x) === id)`: the first position whose key is `id`. */
  function IndexOf<T>(s: seq<T>, key: T -> string, id: string): (r: Option<nat>)
    ensures r.Some? ==> r.value < |s| && key(s[r.value]) == id
    ensures r.Some? ==> forall j :: 0 <= j < r.value ==> key(s[j]) != id
    ensures r.None? ==> forall j :: 0 <= j < |s| ==> key(s[j]) != id
  {
    if s == [] then None
    else if key(s[0]) == id then Some(0)
    else
      var rest := IndexOf(s[1..], key, id);
      assert forall j :: 1 <= j < |s| ==> s[j] == s[1..][j - 1];
      if rest.None? then None else Some(rest.value + 1)
  }

  /** `const i = findIndex(...); if (i !== -1) s[i] = x`. */
  function ReplaceFirst<T>(s: seq<T>, key: T -> string, id: string, x: T): seq<T>
  {
    var i := IndexOf(s, key, id);
    if i.None? then s else s[i.value := x]
  }

  /** `filter(x => key(x) !== id)`. */
  function Without<T>(s: seq<T>, key: T -> string, id: string): seq<T>
  {
    if s == [] then []
    else Without(s[..|s| - 1], key, id) + (if key(s[|s| - 1]) != id then [s[|s| - 1]] else [])
  }

  /** Position `i` holds the first record whose key is `id`. */
  predicate FirstWith<T>(s: seq<T>, key: T -> string, id: string, i: nat)
  {
    i < |s| && key(s[i]) == id && forall j :: 0 <= j < i ==> key(s[j]) != id
  }

  lemma IndexOfFirst<T>(s: seq<T>, key: T -> string, id: string, i: nat)
    requires FirstWith(s, key, id, i)
    ensures IndexOf(s, key, id) == Some(i)
  {
  }

  /** Replacing touches only the first record with the key; an absent key changes nothing. */
  lemma ReplaceFirstSpec<T>(s: seq<T>, key: T -> string, id: string, x: T)
    ensures |ReplaceFirst(s, key, id, x)| == |s|
    ensures (forall j :: 0 <= j < |s| ==> key(s[j]) != id) ==> ReplaceFirst(s, key, id, x) == s
    ensures forall i: nat :: FirstWith(s, key, id, i) ==>
      ReplaceFirst(s, key, id, x)[i] == x &&
      forall j :: 0 <= j < |s| && j != i ==> ReplaceFirst(s, key, id, x)[j] == s[j]
  {
    forall i: nat | FirstWith(s, key, id, i) ensures IndexOf(s, key, id) == Some(i) {
      IndexOfFirst(s, key, id, i);
    }
  }

  /** Deleting keeps exactly the records with another key. */
  lemma {:induction false} WithoutMembers<T>(s: seq<T>, key: T -> string, id: string)
    ensures forall x :: x in Without(s, key, id) <==> x in s && key(x) != id
  {
    if s != [] {
      WithoutMembers(s[..|s| - 1], key, id);
      assert s == s[..|s| - 1] + [s[|s| - 1]];
    }
  }

  /** Deleting an absent key keeps the list as it was. */
  lemma {:induction false} WithoutAbsent<T>(s: seq<T>, key: T -> string, id: string)
    requires forall j :: 0 <= j < |s| ==> key(s[j]) != id
    ensures Without(s, key, id) == s
  {
    if s != [] {
      WithoutAbsent(s[..|s| - 1], key, id);
      assert s == s[..|s| - 1] + [s[|s| - 1]];
    }
  }

  /** Deleting works record by record, so the kept records stay in their order. */
  lemma {:induction false} WithoutAppend<T>(a: seq<T>, b: seq<T>, key: T -> string, id: string)
    ensures Without(a + b, key, id) == Without(a, key, id) + Without(b, key, id)
  {
    if b == [] {
      assert a + b == a;
    } else {
      var n := |b| - 1;
      assert (a + b)[..|a + b| - 1] == a + b[..n];
      WithoutAppend(a, b[..n], key, id);
    }
  }

  /** Lists with the same keys position by position are searched alike. */
  lemma {:induction false} IndexOfSameKeys<T>(a: seq<T>, b: seq<T>, key: T -> string, id: string)
    requires |a| == |b| && forall j :: 0 <= j < |a| ==> key(a[j]) == key(b[j])
    ensures IndexOf(a, key, id) == IndexOf(b, key, id)
  {
    if a != [] && key(a[0]) != id {
      IndexOfSameKeys(a[1..], b[1..], key, id);
    }
  }
}
