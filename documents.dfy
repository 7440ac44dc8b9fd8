/**
 * Stored documents and the response serialiser `_serialize_docs`.
 *
 * A stored document is a map from field name to value. The store adds its
 * own identifier under `_id`; responses expose it as a string under `id`.
 * Python's `str(...)` is not modelled: every operation that needs it takes
 * the rendering function `toStr` as a parameter.
 */
module Documents {

  /** A field value as the document store holds it. */
  datatype Value =
    | Null
    | Bool(b: bool)
    | Int(i: int)
    | Real(r: real)
    | Str(s: string)
    | Array(items: seq<Value>)
    | Object(fields: map<string, Value>)  // an embedded document; only the top-level `_id` is ever renamed
    | ObjectId(oid: nat)

  /** One document: field name to value (key order is not modelled). */
  type Doc = map<string, Value>

  /** The storage-native identifier field. */
  const StoreIdKey: string := "_id"

  /** The identifier field of a response payload. */
  const IdKey: string := "id"

  /**
   * What one iteration of `_serialize_docs` makes of a document: if it has
   * `_id`, that key is dropped and `id` is set to the rendered identifier
   * (overwriting any `id` already there); otherwise the document is kept.
   */
  function SerializeDoc(d: Doc, toStr: Value -> string): (r: Doc)
    ensures StoreIdKey !in r
    ensures StoreIdKey in d ==> IdKey in r && r[IdKey] == Str(toStr(d[StoreIdKey]))
    ensures StoreIdKey in d ==> r.Keys == d.Keys - {StoreIdKey} + {IdKey}
    ensures StoreIdKey !in d ==> r == d
    ensures forall k :: k in d && k != StoreIdKey && k != IdKey ==> k in r && r[k] == d[k]
  {
    if StoreIdKey in d then
      (d - {StoreIdKey})[IdKey := Str(toStr(d[StoreIdKey]))]
    else
      d
  }

  /** The list `_serialize_docs` returns, element by element. */
  function SerializeAll(docs: seq<Doc>, toStr: Value -> string): (r: seq<Doc>)
    ensures |r| == |docs|
    ensures forall n :: 0 <= n < |docs| ==> r[n] == SerializeDoc(docs[n], toStr)
  {
    if docs == [] then [] else [SerializeDoc(docs[0], toStr)] + SerializeAll(docs[1..], toStr)
  }

  /**
   * `_serialize_docs`: walks the documents in order, copies each one, moves
   * `_id` to a string `id` and appends the copy. Documents are values here,
   * so the caller's documents are never changed (Python's `dict(d)` copy).
   */
  method SerializeDocs(docs: seq<Doc>, toStr: Value -> string) returns (serialized: seq<Doc>)
    ensures serialized == SerializeAll(docs, toStr)
  {
    serialized := [];
    for n := 0 to |docs|
      invariant |serialized| == n
      invariant forall m :: 0 <= m < n ==> serialized[m] == SerializeDoc(docs[m], toStr)
    {
      var d := docs[n];
      if StoreIdKey in d {
        var id := d[StoreIdKey];
        d := d - {StoreIdKey};
        d := d[IdKey := Str(toStr(id))];
      }
      serialized := serialized + [d];
    }
  }

  /** Serialising a serialised document changes nothing: no `_id` is left to move. */
  lemma SerializeDocIdempotent(d: Doc, toStr: Value -> string)
    ensures SerializeDoc(SerializeDoc(d, toStr), toStr) == SerializeDoc(d, toStr)
  {
  }

  /** Serialisation works document by document, so it distributes over concatenation. */
  lemma {:induction false} SerializeAllAppend(a: seq<Doc>, b: seq<Doc>, toStr: Value -> string)
    ensures SerializeAll(a + b, toStr) == SerializeAll(a, toStr) + SerializeAll(b, toStr)
  {
    if a == [] {
      assert a + b == b;
    } else {
      assert (a + b)[1..] == a[1..] + b;
      SerializeAllAppend(a[1..], b, toStr);
    }
  }

  /** No serialised document carries the storage-native identifier. */
  lemma SerializeAllDropsStoreId(docs: seq<Doc>, toStr: Value -> string)
    ensures forall n :: 0 <= n < |docs| ==> StoreIdKey !in SerializeAll(docs, toStr)[n]
  {
  }

  /**
   * When rendering tells store identifiers apart, documents with different
   * store identifiers get different response identifiers.
   */
  lemma SerializedIdsDistinct(docs: seq<Doc>, toStr: Value -> string, m: nat, n: nat)
    requires m < |docs| && n < |docs|
    requires StoreIdKey in docs[m] && StoreIdKey in docs[n]
    requires docs[m][StoreIdKey] != docs[n][StoreIdKey]
    requires docs[m][StoreIdKey].ObjectId? && docs[n][StoreIdKey].ObjectId?
    requires forall a: nat, b: nat :: toStr(ObjectId(a)) == toStr(ObjectId(b)) ==> a == b
    ensures IdKey in SerializeAll(docs, toStr)[m] && IdKey in SerializeAll(docs, toStr)[n]
    ensures SerializeAll(docs, toStr)[m][IdKey] != SerializeAll(docs, toStr)[n][IdKey]
  {
  }
}
