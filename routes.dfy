/**
 * The four read routes: each builds its filter from the query parameters,
 * asks the store for the matching documents of its collection, and
 * answers them serialized, or 500 with the store's error. The store's
 * query is a parameter, `find`, answering a collection name and a filter
 * with the documents found or an error.
 */
module Routes {
  import opened Common
  import opened Collections
  import opened Documents
  import opened Filters
  import opened Matching

  type Finder = (string, Filter) -> Result<seq<Doc>, string>

  /** Every document of `docs` matches `f`. */
  predicate AllMatch(docs: seq<Doc>, f: Filter)
  {
    forall n :: 0 <= n < |docs| ==> Matches(docs[n], f)
  }

  /**
   * The routes' shared tail: the documents found, serialized, or 500 with
   * the store's error. Whether every answered document matches a filter
   * that leaves the identifier fields alone is whether every document
   * found did.
   */
  method Respond(found: Result<seq<Doc>, string>, toStr: Value -> string, f: Filter) returns (r: Response<seq<Doc>>)
    requires StoreIdKey !in f && IdKey !in f
    ensures found.Failure? ==> r == HttpError(ServerErrorStatus, found.error)
    ensures found.Success? ==> r == Ok(SerializeAll(found.value, toStr))
    ensures found.Success? ==> (AllMatch(r.body, f) <==> AllMatch(found.value, f))
  {
    if found.Failure? {
      return HttpError(ServerErrorStatus, found.error);
    }
    var docs := SerializeDocs(found.value, toStr);
    SerializedSelection(found.value, f, toStr);
    r := Ok(docs);
  }

  /** `list_products`: the products selected by category, room type and stock. */
  method ListProducts(find: Finder, toStr: Value -> string,
                      category: Option<string>, roomType: Option<string>, inStock: Option<bool>)
    returns (r: Response<seq<Doc>>)
    ensures var f := ProductsFilter(category, roomType, inStock);
            var found := find(CollectionName(Products), f);
            && (found.Failure? ==> r == HttpError(ServerErrorStatus, found.error))
            && (found.Success? ==> r == Ok(SerializeAll(found.value, toStr))
                                   && (AllMatch(r.body, f) <==> AllMatch(found.value, f)))
  {
    var f := ProductsFilter(category, roomType, inStock);
    r := Respond(find(CollectionName(Products), f), toStr, f);
  }

  /** `list_projects`: the projects selected by style and room. */
  method ListProjects(find: Finder, toStr: Value -> string, style: Option<string>, room: Option<string>)
    returns (r: Response<seq<Doc>>)
    ensures var f := ProjectsFilter(style, room);
            var found := find(CollectionName(Projects), f);
            && (found.Failure? ==> r == HttpError(ServerErrorStatus, found.error))
            && (found.Success? ==> r == Ok(SerializeAll(found.value, toStr))
                                   && (AllMatch(r.body, f) <==> AllMatch(found.value, f)))
  {
    var f := ProjectsFilter(style, room);
    r := Respond(find(CollectionName(Projects), f), toStr, f);
  }

  /**
   * `list_testimonials`: refused with 422 when `min_rating` is outside
   * [1, 5], before the store is asked; otherwise the testimonials rated at
   * least `min_rating` (1 when absent).
   */
  method ListTestimonials(find: Finder, toStr: Value -> string, minRating: Option<int>)
    returns (r: Response<seq<Doc>>)
    ensures MinRatingParam(minRating).Failure? ==>
              r == HttpError(UnprocessableStatus, MinRatingParam(minRating).error.name)
    ensures MinRatingParam(minRating).Success? ==>
              var f := TestimonialsFilter(MinRatingParam(minRating).value);
              var found := find(CollectionName(Testimonials), f);
              && (found.Failure? ==> r == HttpError(ServerErrorStatus, found.error))
              && (found.Success? ==> r == Ok(SerializeAll(found.value, toStr))
                                     && (AllMatch(r.body, f) <==> AllMatch(found.value, f)))
  {
    var param := MinRatingParam(minRating);
    if param.Failure? {
      return HttpError(UnprocessableStatus, param.error.name);
    }
    var f := TestimonialsFilter(param.value);
    r := Respond(find(CollectionName(Testimonials), f), toStr, f);
  }

  /** `list_blogposts`: the posts with the requested publication state (published by default), by keyword. */
  method ListBlogPosts(find: Finder, toStr: Value -> string, published: Option<bool>, keyword: Option<string>)
    returns (r: Response<seq<Doc>>)
    ensures var f := BlogPostsFilter(PublishedParam(published), keyword);
            var found := find(CollectionName(BlogPosts), f);
            && (found.Failure? ==> r == HttpError(ServerErrorStatus, found.error))
            && (found.Success? ==> r == Ok(SerializeAll(found.value, toStr))
                                   && (AllMatch(r.body, f) <==> AllMatch(found.value, f)))
  {
    var f := BlogPostsFilter(PublishedParam(published), keyword);
    r := Respond(find(CollectionName(BlogPosts), f), toStr, f);
  }
}
