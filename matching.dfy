/**
 * An ASSUMED reading of the filters: how a document store is taken to
 * select documents with them. The store itself is outside this model; this
 * module only makes precise what each read route asks the store for, so
 * that the filters built in `Filters` can be related to the documents they
 * select. It is a simplification (no type coercion, no equality on array
 * fields except through `$in`).
 */
module Matching {
  import opened Common
  import opened Documents
  import opened Filters

  /** A value counts as containing `x` if it is `x` or an array holding `x`. */
  predicate Contains(v: Value, x: Value)
  {
    v == x || (v.Array? && x in v.items)
  }

  /** Whether a stored value meets one condition. */
  predicate Satisfies(v: Value, c: Condition)
  {
    match c
    case Eq(w) => v == w
    case Gte(n) => (v.Int? && v.i >= n) || (v.Real? && v.r >= n as real)
    case InList(ws) => exists x :: x in ws && Contains(v, x)
  }

  /** A document matches a filter when every filtered field is present and meets its condition. */
  predicate Matches(d: Doc, f: Filter)
  {
    forall k :: k in f ==> k in d && Satisfies(d[k], f[k])
  }

  /** The field `k` of `d` is present and equal to `v`. */
  predicate FieldIs(d: Doc, k: string, v: Value)
  {
    k in d && d[k] == v
  }

  /** The filters are conjunctive, and an omitted product parameter never constrains its field. */
  lemma {:induction false} ProductsFilterSelects(d: Doc, category: Option<string>, roomType: Option<string>, inStock: Option<bool>)
    ensures Matches(d, ProductsFilter(category, roomType, inStock)) <==>
      && (Truthy(category) ==> FieldIs(d, "category", Str(category.value)))
      && (Truthy(roomType) ==> FieldIs(d, "room_type", Str(roomType.value)))
      && (inStock.Some? ==> FieldIs(d, "in_stock", Bool(inStock.value)))
  {
    var f := ProductsFilter(category, roomType, inStock);
    if Matches(d, f) {
      if Truthy(category) { assert "category" in f; }
      if Truthy(roomType) { assert "room_type" in f; }
      if inStock.Some? { assert "in_stock" in f; }
    }
  }

  /** Project requests select on `style` and `room` only when those are non-empty. */
  lemma {:induction false} ProjectsFilterSelects(d: Doc, style: Option<string>, room: Option<string>)
    ensures Matches(d, ProjectsFilter(style, room)) <==>
      && (Truthy(style) ==> FieldIs(d, "style", Str(style.value)))
      && (Truthy(room) ==> FieldIs(d, "room", Str(room.value)))
  {
    var f := ProjectsFilter(style, room);
    if Matches(d, f) {
      if Truthy(style) { assert "style" in f; }
      if Truthy(room) { assert "room" in f; }
    }
  }

  /** Every testimonial a request with `min_rating = n` selects has a rating of at least `n`. */
  lemma {:induction false} TestimonialsFilterSelects(d: Doc, minRating: int)
    requires MinRatingLow <= minRating <= MinRatingHigh
    ensures Matches(d, TestimonialsFilter(minRating)) <==>
      "rating" in d && ((d["rating"].Int? && d["rating"].i >= minRating) || (d["rating"].Real? && d["rating"].r >= minRating as real))
  {
    var f := TestimonialsFilter(minRating);
    if Matches(d, f) {
      assert "rating" in f;
    }
  }

  /**
   * A blog-post request selects the posts whose `published` flag equals the
   * requested one (true by default) and, for a non-empty keyword, whose
   * `keywords` contain it.
   */
  lemma {:induction false} BlogPostsFilterSelects(d: Doc, published: Option<bool>, keyword: Option<string>)
    ensures Matches(d, BlogPostsFilter(PublishedParam(published), keyword)) <==>
      && FieldIs(d, "published", Bool(if published.Some? then published.value else true))
      && (Truthy(keyword) ==> "keywords" in d && Contains(d["keywords"], Str(keyword.value)))
  {
    var f := BlogPostsFilter(PublishedParam(published), keyword);
    if Matches(d, f) {
      assert "published" in f;
      if Truthy(keyword) {
        assert "keywords" in f;
      }
    }
    if && FieldIs(d, "published", Bool(if published.Some? then published.value else true))
       && (Truthy(keyword) ==> "keywords" in d && Contains(d["keywords"], Str(keyword.value)))
    {
      if Truthy(keyword) {
        assert Satisfies(d["keywords"], f["keywords"]) by {
          assert Str(keyword.value) in [Str(keyword.value)];
        }
      }
    }
  }

  /**
   * Serializing a document does not change whether it matches a filter
   * that does not mention the identifier fields: the route's answer keeps
   * exactly the selection the store made.
   */
  lemma SerializePreservesMatch(d: Doc, f: Filter, toStr: Value -> string)
    requires StoreIdKey !in f && IdKey !in f
    ensures Matches(SerializeDoc(d, toStr), f) <==> Matches(d, f)
  {
    var r := SerializeDoc(d, toStr);
    forall k | k in f
      ensures k in r <==> k in d
      ensures k in d ==> r[k] == d[k]
    {
      if StoreIdKey in d {
        assert r.Keys == d.Keys - {StoreIdKey} + {IdKey};
      }
    }
  }

  /** The same, for every document of a serialized list. */
  lemma SerializedSelection(docs: seq<Doc>, f: Filter, toStr: Value -> string)
    requires StoreIdKey !in f && IdKey !in f
    ensures forall n :: 0 <= n < |docs| ==> (Matches(SerializeAll(docs, toStr)[n], f) <==> Matches(docs[n], f))
  {
    forall n | 0 <= n < |docs|
      ensures Matches(SerializeAll(docs, toStr)[n], f) <==> Matches(docs[n], f)
    {
      SerializePreservesMatch(docs[n], f, toStr);
    }
  }

  /** The empty filter selects every document. */
  lemma EmptyFilterMatchesAll(d: Doc)
    ensures Matches(d, map[])
  {
  }
}
