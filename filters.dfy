/**
 * The query-parameter to filter translation of the four read handlers.
 *
 * A filter maps a document field to a condition on it: exact equality,
 * `$gte` on a number, or `$in` on a list of accepted values.
 */
module Filters {
  import opened Common
  import opened Documents

  /** One filter condition: `v`, `{"$gte": bound}` or `{"$in": items}`. */
  datatype Condition = Eq(v: Value) | Gte(bound: int) | InList(items: seq<Value>)

  type Filter = map<string, Condition>

  /** Default and bounds of `min_rating` on the testimonials route. */
  const DefaultMinRating: int := 1
  const MinRatingLow: int := 1
  const MinRatingHigh: int := 5

  /** Default of `published` on the blog-posts route. */
  const DefaultPublished: bool := true

  /** Why a query parameter was refused before the handler ran. */
  datatype ParamError = OutOfRange(name: string, value: int)

  /**
   * `list_products`: `category` and `room_type` are added only when they are
   * non-empty strings (`if category:`); `in_stock` whenever it was supplied,
   * `false` included (`is not None`).
   */
  function ProductsFilter(category: Option<string>, roomType: Option<string>, inStock: Option<bool>): (f: Filter)
    ensures "category" in f <==> Truthy(category)
    ensures Truthy(category) ==> f["category"] == Eq(Str(category.value))
    ensures "room_type" in f <==> Truthy(roomType)
    ensures Truthy(roomType) ==> f["room_type"] == Eq(Str(roomType.value))
    ensures "in_stock" in f <==> inStock.Some?
    ensures inStock.Some? ==> f["in_stock"] == Eq(Bool(inStock.value))
    ensures f.Keys <= {"category", "room_type", "in_stock"}
  {
    var start: Filter := map[];
    var withCategory := if Truthy(category) then start["category" := Eq(Str(category.value))] else start;
    var withRoom := if Truthy(roomType) then withCategory["room_type" := Eq(Str(roomType.value))] else withCategory;
    if inStock.Some? then withRoom["in_stock" := Eq(Bool(inStock.value))] else withRoom
  }

  /** With no usable product parameter the filter is empty, so it selects the whole collection. */
  lemma ProductsFilterEmpty(category: Option<string>, roomType: Option<string>, inStock: Option<bool>)
    requires !Truthy(category) && !Truthy(roomType) && inStock.None?
    ensures ProductsFilter(category, roomType, inStock) == map[]
  {
    var f := ProductsFilter(category, roomType, inStock);
    assert f.Keys == {};
  }

  /** `list_projects`: `style` and `room` are added only when they are non-empty strings. */
  function ProjectsFilter(style: Option<string>, room: Option<string>): (f: Filter)
    ensures "style" in f <==> Truthy(style)
    ensures Truthy(style) ==> f["style"] == Eq(Str(style.value))
    ensures "room" in f <==> Truthy(room)
    ensures Truthy(room) ==> f["room"] == Eq(Str(room.value))
    ensures f.Keys <= {"style", "room"}
  {
    var start: Filter := map[];
    var withStyle := if Truthy(style) then start["style" := Eq(Str(style.value))] else start;
    if Truthy(room) then withStyle["room" := Eq(Str(room.value))] else withStyle
  }

  /**
   * The `min_rating` query parameter as the route declares it: 1 when
   * absent, refused outside [1, 5] before the handler runs.
   */
  function MinRatingParam(raw: Option<int>): (r: Result<int, ParamError>)
    ensures r.Success? <==> raw.None? || MinRatingLow <= raw.value <= MinRatingHigh
    ensures r.Success? ==> MinRatingLow <= r.value <= MinRatingHigh
    ensures raw.None? ==> r == Success(DefaultMinRating)
    ensures raw.Some? && r.Success? ==> r.value == raw.value
  {
    match raw
    case None => Success(DefaultMinRating)
    case Some(n) =>
      if MinRatingLow <= n <= MinRatingHigh then Success(n) else Failure(OutOfRange("min_rating", n))
  }

  /** `list_testimonials`: always exactly one condition, `rating >= min_rating`. */
  function TestimonialsFilter(minRating: int): (f: Filter)
    requires MinRatingLow <= minRating <= MinRatingHigh
    ensures f.Keys == {"rating"}
    ensures f["rating"] == Gte(minRating)
  {
    map["rating" := Gte(minRating)]
  }

  /** The `published` query parameter: `true` when absent. */
  function PublishedParam(raw: Option<bool>): (p: bool)
    ensures raw.None? ==> p == DefaultPublished
    ensures raw.Some? ==> p == raw.value
  {
    if raw.Some? then raw.value else DefaultPublished
  }

  /**
   * `list_blogposts`: `published` is always present; `keywords` holds
   * `{"$in": [keyword]}` exactly when `keyword` is a non-empty string.
   */
  function BlogPostsFilter(published: bool, keyword: Option<string>): (f: Filter)
    ensures "published" in f && f["published"] == Eq(Bool(published))
    ensures "keywords" in f <==> Truthy(keyword)
    ensures Truthy(keyword) ==> f["keywords"] == InList([Str(keyword.value)])
    ensures f.Keys <= {"published", "keywords"}
  {
    var start: Filter := map["published" := Eq(Bool(published))];
    if Truthy(keyword) then start["keywords" := InList([Str(keyword.value)])] else start
  }

  /** A blog-post request without parameters still filters on `published == true`. */
  lemma BlogPostsDefaultFilter()
    ensures BlogPostsFilter(PublishedParam(None), None) == map["published" := Eq(Bool(true))]
  {
    var f := BlogPostsFilter(PublishedParam(None), None);
    assert f.Keys == {"published"};
  }
}
