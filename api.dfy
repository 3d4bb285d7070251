/** The data-access layer's pure helpers: the key-case conversion between the database's
    snake_case rows and the application's camelCase records, the storage path of an
    uploaded invoice and its recovery from the public URL, and the grouping of
    attachments under their transactions. */
module Api {
  import opened Wrappers
  import opened Types
  import opened Text
  import opened Buckets

  /** A decoded JSON value as the helpers see it: `null`, a value that is not a plain
      object (string, number, boolean, a `Date`, a `Decimal`), an array, or a plain object
      with its keys in order. */
  datatype Json =
    | JNull
    | JScalar(text: string)
    | JList(items: seq<Json>)
    | JObject(fields: seq<Field>)

  datatype Field = Field(key: string, value: Json)

  /** `toCamelCase`: every '-' or '_' followed by a lower-case letter becomes that letter
      in upper case; matches are taken left to right without overlapping. */
  function Camel(s: string): (r: string)
    ensures |r| <= |s|
    decreases |s|
  {
    if |s| >= 2 && (s[0] == '-' || s[0] == '_') && IsLower(s[1]) then [Upper(s[1])] + Camel(s[2..])
    else if s == [] then []
    else [s[0]] + Camel(s[1..])
  }

  /** `toSnakeCase`: every upper-case letter becomes '_' and its lower-case form. */
  function Snake(s: string): (r: string)
    ensures forall i :: 0 <= i < |r| ==> !IsUpper(r[i])
    ensures |r| >= |s|
  {
    if s == [] then []
    else (if IsUpper(s[0]) then ['_', Lower(s[0])] else [s[0]]) + Snake(s[1..])
  }

  /** A key in the application's form: no separator characters. */
  predicate CamelForm(k: string)
  {
    forall i :: 0 <= i < |k| ==> k[i] != '_' && k[i] != '-'
  }

  /** A key in the database's form: no capitals and no '-'. */
  predicate SnakeForm(k: string)
  {
    forall i :: 0 <= i < |k| ==> !IsUpper(k[i]) && k[i] != '-'
  }

  /** An application key survives the trip to the database and back. */
  lemma {:induction false} CamelSnake(k: string)
    requires CamelForm(k)
    ensures Camel(Snake(k)) == k
  {
    if k != [] {
      var rest := Snake(k[1..]);
      if IsUpper(k[0]) {
        var s := ['_', Lower(k[0])] + rest;
        assert Snake(k) == s;
        assert s[2..] == rest;
        assert Upper(Lower(k[0])) == k[0];
      } else {
        var s := [k[0]] + rest;
        assert Snake(k) == s;
        assert s[1..] == rest;
      }
      CamelSnake(k[1..]);
      assert k == [k[0]] + k[1..];
    }
  }

  /** A database key survives the trip to the application and back. */
  lemma {:induction false} SnakeCamel(k: string)
    requires SnakeForm(k)
    ensures Snake(Camel(k)) == k
    decreases |k|
  {
    if |k| >= 2 && (k[0] == '-' || k[0] == '_') && IsLower(k[1]) {
      var rest := Camel(k[2..]);
      var c := [Upper(k[1])] + rest;
      assert Camel(k) == c;
      assert c[1..] == rest;
      SnakeCamel(k[2..]);
      assert k == [k[0], k[1]] + k[2..];
    } else if k != [] {
      var rest := Camel(k[1..]);
      var c := [k[0]] + rest;
      assert Camel(k) == c;
      assert c[1..] == rest;
      SnakeCamel(k[1..]);
      assert k == [k[0]] + k[1..];
    }
  }

  lemma CamelInjective(a: string, b: string)
    requires SnakeForm(a) && SnakeForm(b) && a != b
    ensures Camel(a) != Camel(b)
  {
    SnakeCamel(a);
    SnakeCamel(b);
  }

  predicate DistinctKeys(fs: seq<Field>)
  {
    forall i, j :: 0 <= i < j < |fs| ==> fs[i].key != fs[j].key
  }

  /** The position of the field named `k`. */
  function KeyIndex(fs: seq<Field>, k: string): (r: Option<nat>)
    ensures r.Some? ==> r.value < |fs| && fs[r.value].key == k
    ensures r.None? ==> forall i :: 0 <= i < |fs| ==> fs[i].key != k
  {
    if fs == [] then None
    else if fs[|fs| - 1].key == k then Some(|fs| - 1)
    else KeyIndex(fs[..|fs| - 1], k)
  }

  /** `{ ...result, [k]: v }`: a key already present keeps its place and takes the new
      value; a new key goes last. */
  function Put(fs: seq<Field>, f: Field): (r: seq<Field>)
  {
    match KeyIndex(fs, f.key)
    case None => fs + [f]
    case Some(i) => fs[i := f]
  }

  /** The `reduce` that spreads the renamed fields into a fresh object, in order. */
  function Gather(fs: seq<Field>): seq<Field>
  {
    if fs == [] then [] else Put(Gather(fs[..|fs| - 1]), fs[|fs| - 1])
  }

  /** Without two equal keys, spreading the fields one by one rebuilds them as they are. */
  lemma {:induction false} GatherDistinct(fs: seq<Field>)
    requires DistinctKeys(fs)
    ensures Gather(fs) == fs
  {
    if fs != [] {
      var p := fs[..|fs| - 1];
      GatherDistinct(p);
      assert KeyIndex(p, fs[|fs| - 1].key).None? by {
        forall i | 0 <= i < |p| ensures p[i].key != fs[|fs| - 1].key {
          assert p[i] == fs[i];
        }
      }
      assert p + [fs[|fs| - 1]] == fs;
    }
  }

  /** `keysToCamel` / `keysToSnake` with the key function as a parameter: arrays are mapped
      element by element, plain objects have every key renamed and every value converted,
      anything else is returned as it is. */
  function RenameKeys(j: Json, rename: string -> string): (r: Json)
    ensures j.JNull? || j.JScalar? ==> r == j
    ensures j.JList? ==> r.JList? && |r.items| == |j.items|
    ensures j.JObject? ==> r.JObject?
    decreases j
  {
    match j
    case JList(items) =>
      JList(seq(|items|, i requires 0 <= i < |items| => RenameKeys(items[i], rename)))
    case JObject(fs) =>
      JObject(Gather(seq(|fs|, i requires 0 <= i < |fs| =>
        Field(rename(fs[i].key), RenameKeys(fs[i].value, rename)))))
    case _ => j
  }

  function KeysToCamel(j: Json): Json
  {
    RenameKeys(j, Camel)
  }

  function KeysToSnake(j: Json): Json
  {
    RenameKeys(j, Snake)
  }

  /** Every object inside `j` has distinct keys of the form `ok` admits. */
  predicate KeyedBy(j: Json, ok: string -> bool)
    decreases j
  {
    match j
    case JList(items) => forall i :: 0 <= i < |items| ==> KeyedBy(items[i], ok)
    case JObject(fs) =>
      DistinctKeys(fs) && forall i :: 0 <= i < |fs| ==> ok(fs[i].key) && KeyedBy(fs[i].value, ok)
    case _ => true
  }

  /** The renamed fields before they are spread into the new object. */
  function Converted(fs: seq<Field>, rename: string -> string): (r: seq<Field>)
    ensures |r| == |fs|
  {
    seq(|fs|, i requires 0 <= i < |fs| => Field(rename(fs[i].key), RenameKeys(fs[i].value, rename)))
  }

  lemma RenameObject(fs: seq<Field>, rename: string -> string)
    ensures RenameKeys(JObject(fs), rename) == JObject(Gather(Converted(fs, rename)))
  {
  }

  /** Database keys stay distinct once converted. */
  lemma ConvertedDistinct(fs: seq<Field>)
    requires DistinctKeys(fs)
    requires forall i :: 0 <= i < |fs| ==> SnakeForm(fs[i].key)
    ensures DistinctKeys(Converted(fs, Camel))
  {
    var vs := Converted(fs, Camel);
    forall a, b | 0 <= a < b < |vs| ensures vs[a].key != vs[b].key {
      CamelInjective(fs[a].key, fs[b].key);
    }
  }

  lemma ConvertedBack(fs: seq<Field>)
    requires forall i :: 0 <= i < |fs| ==> SnakeForm(fs[i].key)
    requires forall i :: 0 <= i < |fs| ==> KeysToSnake(KeysToCamel(fs[i].value)) == fs[i].value
    ensures Converted(Converted(fs, Camel), Snake) == fs
  {
    var ws := Converted(Converted(fs, Camel), Snake);
    forall i | 0 <= i < |fs| ensures ws[i] == fs[i] {
      SnakeCamel(fs[i].key);
    }
  }

  /** A row read from the database, converted for the application and converted back for
      a write, is the row it was: no key is lost, merged or changed on the way. */
  lemma {:induction false} RowRoundTrip(j: Json)
    requires KeyedBy(j, SnakeForm)
    ensures KeysToSnake(KeysToCamel(j)) == j
    decreases j
  {
    match j
    case JList(items) =>
      forall i | 0 <= i < |items|
        ensures RenameKeys(RenameKeys(items[i], Camel), Snake) == items[i]
      {
        RowRoundTrip(items[i]);
      }
    case JObject(fs) =>
      forall i | 0 <= i < |fs| ensures KeysToSnake(KeysToCamel(fs[i].value)) == fs[i].value {
        RowRoundTrip(fs[i].value);
      }
      ObjectRoundTrip(fs);
    case _ =>
  }

  lemma ObjectRoundTrip(fs: seq<Field>)
    requires DistinctKeys(fs)
    requires forall i :: 0 <= i < |fs| ==> SnakeForm(fs[i].key)
    requires forall i :: 0 <= i < |fs| ==> KeysToSnake(KeysToCamel(fs[i].value)) == fs[i].value
    ensures KeysToSnake(KeysToCamel(JObject(fs))) == JObject(fs)
  {
    var vs := Converted(fs, Camel);
    ConvertedDistinct(fs);
    GatherDistinct(vs);
    RenameObject(fs, Camel);
    RenameObject(vs, Snake);
    ConvertedBack(fs);
    GatherDistinct(fs);
  }

  /** `file.name.split('.').pop()`: the text after the last '.', or the whole name when
      it has none. */
  function Extension(name: string): string
  {
    var parts := Split(name, '.');
    parts[|parts| - 1]
  }

  lemma ExtensionAfterLastDot(base: string, ext: string)
    requires forall i :: 0 <= i < |ext| ==> ext[i] != '.'
    ensures Extension(base + "." + ext) == ext
  {
    SplitSnoc(base, ext, '.');
  }

  lemma ExtensionWithoutDot(name: string)
    requires forall i :: 0 <= i < |name| ==> name[i] != '.'
    ensures Extension(name) == name
  {
    assert Split(name, '.') == [name];
  }

  /** The storage path of an uploaded invoice: the user, the transaction, the upload
      instant in milliseconds and the file's extension. */
  function UploadPath(user: string, transaction: string, stamp: nat, fileName: string): string
  {
    user + "/" + transaction + "/" + NatToString(stamp) + "." + Extension(fileName)
  }

  function Join(parts: seq<string>, sep: char): (r: string)
  {
    if parts == [] then []
    else if |parts| == 1 then parts[0]
    else Join(parts[..|parts| - 1], sep) + [sep] + parts[|parts| - 1]
  }

  /** `slice(-3)`: the last three elements, or all of them when there are fewer. */
  function LastThree<T>(s: seq<T>): (r: seq<T>)
    ensures |r| == if |s| < 3 then |s| else 3
  {
    if |s| < 3 then s else s[|s| - 3..]
  }

  /** The storage path recovered from a public URL's path when the attachment is deleted. */
  function StoragePath(pathname: string): string
  {
    Join(LastThree(Split(pathname, '/')), '/')
  }

  predicate NoSlash(s: string)
  {
    forall i :: 0 <= i < |s| ==> s[i] != '/'
  }

  /** Deleting an attachment removes the file its upload created: the last three segments
      of the public URL's path are the storage path, whatever the path before it. */
  lemma DeleteFindsUpload(prefix: string, user: string, transaction: string, stamp: nat, fileName: string)
    requires NoSlash(user) && NoSlash(transaction) && NoSlash(fileName)
    ensures StoragePath(prefix + "/" + UploadPath(user, transaction, stamp, fileName))
         == UploadPath(user, transaction, stamp, fileName)
  {
    var last := NatToString(stamp) + "." + Extension(fileName);
    LastSegment(stamp, fileName);
    var path := prefix + "/" + UploadPath(user, transaction, stamp, fileName);
    PathRegrouped(prefix, user, transaction, stamp, fileName);
    SplitPath(prefix, user, transaction, last);
    var parts := Split(prefix, '/') + [user, transaction, last];
    assert Split(path, '/') == parts;
    assert LastThree(parts) == [user, transaction, last];
    assert StoragePath(path) == Join([user, transaction, last], '/');
    JoinThree(user, transaction, last);
  }

  /** The public URL's path is the prefix followed by the segments of the upload path. */
  lemma PathRegrouped(prefix: string, user: string, transaction: string, stamp: nat, fileName: string)
    ensures UploadPath(user, transaction, stamp, fileName)
         == user + "/" + transaction + "/" + (NatToString(stamp) + "." + Extension(fileName))
    ensures prefix + "/" + UploadPath(user, transaction, stamp, fileName)
         == prefix + "/" + user + "/" + transaction + "/" + (NatToString(stamp) + "." + Extension(fileName))
  {
    var last := NatToString(stamp) + "." + Extension(fileName);
    assert UploadPath(user, transaction, stamp, fileName) == user + "/" + transaction + "/" + last;
  }

  /** The file part of an upload path holds no '/'. */
  lemma LastSegment(stamp: nat, fileName: string)
    requires NoSlash(fileName)
    ensures NoSlash(NatToString(stamp) + "." + Extension(fileName))
  {
    var digits := NatToString(stamp);
    var ext := Extension(fileName);
    var last := digits + "." + ext;
    ExtensionIn(fileName);
    forall i | 0 <= i < |last| ensures last[i] != '/' {
      if i > |digits| {
        assert last[i] == ext[i - |digits| - 1];
      }
    }
  }

  lemma SplitPath(prefix: string, a: string, b: string, c: string)
    requires NoSlash(a) && NoSlash(b) && NoSlash(c)
    ensures Split(prefix + "/" + a + "/" + b + "/" + c, '/') == Split(prefix, '/') + [a, b, c]
  {
    var p2 := prefix + "/" + a;
    var p3 := p2 + "/" + b;
    SplitSnoc(p3, c, '/');
    SplitSnoc(p2, b, '/');
    SplitSnoc(prefix, a, '/');
  }

  lemma JoinThree(a: string, b: string, c: string)
    ensures Join([a, b, c], '/') == a + "/" + b + "/" + c
  {
    assert [a, b, c][..2] == [a, b];
    assert [a, b][..1] == [a];
    assert Join([a], '/') == a;
    assert Join([a, b], '/') == a + "/" + b;
  }

  /** The extension is one of the pieces of the name, so it holds no character the name
      does not. */
  lemma ExtensionIn(name: string)
    requires NoSlash(name)
    ensures NoSlash(Extension(name))
  {
    SplitPiecesIn(name, '.');
  }

  lemma {:induction false} SplitPiecesIn(s: string, sep: char)
    requires NoSlash(s)
    ensures forall k :: 0 <= k < |Split(s, sep)| ==> NoSlash(Split(s, sep)[k])
    decreases |s|
  {
    match FirstIndex(s, sep)
    case None =>
    case Some(k) =>
      var tail := s[k + 1..];
      assert NoSlash(tail) by {
        forall i | 0 <= i < |tail| ensures tail[i] != '/' {
          assert tail[i] == s[k + 1 + i];
        }
      }
      SplitPiecesIn(tail, sep);
      var head := s[..k];
      assert NoSlash(head) by {
        forall i | 0 <= i < k ensures head[i] != '/' {
          assert head[i] == s[i];
        }
      }
  }

  function TransactionOf(a: Attachment): string { a.transactionId }

  /** The attachments of transaction `id` as the merge reads them: `byTx[id] || []`. */
  function AttachmentsOf(byTx: map<string, seq<Attachment>>, id: string): seq<Attachment>
  {
    if id in byTx then byTx[id] else []
  }

  /** The `reduce` that groups every attachment under its transaction: a list is opened on
      a transaction's first attachment and each later one is pushed onto it. */
  method GroupAttachments(attachments: seq<Attachment>) returns (byTx: map<string, seq<Attachment>>)
    ensures forall id :: id in byTx <==> exists i :: 0 <= i < |attachments| && attachments[i].transactionId == id
    ensures forall id :: AttachmentsOf(byTx, id) == Having(attachments, TransactionOf, id)
  {
    byTx := map[];
    var i := 0;
    while i < |attachments|
      invariant 0 <= i <= |attachments|
      invariant forall id :: id in byTx <==> exists j :: 0 <= j < i && attachments[j].transactionId == id
      invariant forall id :: AttachmentsOf(byTx, id) == Having(attachments[..i], TransactionOf, id)
    {
      var a := attachments[i];
      var before := if a.transactionId in byTx then byTx[a.transactionId] else [];
      byTx := byTx[a.transactionId := before + [a]];
      forall id ensures AttachmentsOf(byTx, id) == Having(attachments[..i + 1], TransactionOf, id) {
        assert attachments[..i + 1] == attachments[..i] + [a];
        HavingSnoc(attachments[..i], a, TransactionOf, id);
      }
      i := i + 1;
    }
    assert attachments[..i] == attachments;
  }

  /** The merge: every transaction, in order, carries the attachments grouped under its id. */
  function WithAttachments(ts: seq<Transaction>, byTx: map<string, seq<Attachment>>): (r: seq<Transaction>)
    ensures |r| == |ts|
    ensures forall k :: 0 <= k < |ts| ==> r[k] == ts[k].(attachments := Some(AttachmentsOf(byTx, ts[k].id)))
  {
    seq(|ts|, k requires 0 <= k < |ts| => ts[k].(attachments := Some(AttachmentsOf(byTx, ts[k].id))))
  }

  /** Loading the transactions: the attachments are grouped by transaction, and then every
      transaction, in order, gets exactly the attachments whose transaction id is its id,
      in their order, and the empty list when it has none. */
  method MergeAttachments(ts: seq<Transaction>, attachments: seq<Attachment>) returns (r: seq<Transaction>)
    ensures |r| == |ts|
    ensures forall k :: 0 <= k < |ts| ==>
      r[k] == ts[k].(attachments := Some(Having(attachments, TransactionOf, ts[k].id)))
    ensures forall k, a :: 0 <= k < |ts| && a in attachments ==>
      (a in r[k].attachments.value <==> a.transactionId == ts[k].id)
  {
    var byTx := GroupAttachments(attachments);
    r := WithAttachments(ts, byTx);
    forall k, a | 0 <= k < |ts| && a in attachments
      ensures a in r[k].attachments.value <==> a.transactionId == ts[k].id
    {
      HavingMembers(attachments, TransactionOf, ts[k].id);
    }
  }
}
