/**
 * `POST /api/seed-demo`: a token gate, then the demo records inserted
 * collection by collection: two products, two testimonials, two projects
 * and one blog post, in that order.
 */
module Seed {
  import opened Common
  import opened Collections
  import opened Schemas
  import opened Store

  /** The token accepted when `SEED_TOKEN` is not set. */
  const DefaultSeedToken: string := "dev"

  const ForbiddenDetail: string := "Forbidden"
  const SeededStatus: string := "seeded"

  /** The token the route expects: the configured `SEED_TOKEN`, or "dev" when it is not set. */
  function ExpectedSeedToken(configured: Option<string>): string
  {
    if configured.Some? then configured.value else DefaultSeedToken
  }

  /**
   * The gate: the `token` query parameter must be present and equal to the
   * expected token. It accepts exactly one token: "dev" while `SEED_TOKEN`
   * is unset, the configured value (even an empty one) once it is set; a
   * request without a token is always refused.
   */
  function SeedAuthorized(token: Option<string>, configured: Option<string>): (ok: bool)
    ensures token.None? ==> !ok
    ensures configured.None? ==> (ok <==> token == Some(DefaultSeedToken))
    ensures configured.Some? ==> (ok <==> token == configured)
  {
    token == Some(ExpectedSeedToken(configured))
  }

  // ---------------------------------------------------------------------
  // The demo records: the constructor arguments, and the records they give
  // ---------------------------------------------------------------------

  const DemoProductInputs: seq<ProductInput> := [
    ProductInput(Given("Modern Lounge Chair"), Given("Ergonomic lounge chair in walnut finish."), Given(799.0),
                 Given("furniture"), Given("living room"), Omitted, Given(true), Given(["modern", "wood"])),
    ProductInput(Given("Marble Pendant Light"), Given("Minimal pendant for kitchen islands."), Given(199.0),
                 Given("lighting"), Given("kitchen"), Omitted, Given(true), Given(["minimal", "lighting"]))
  ]

  const DemoProducts: seq<Product> := [
    Product("Modern Lounge Chair", Some("Ergonomic lounge chair in walnut finish."), 799.0,
            "furniture", Some("living room"), None, true, Some(["modern", "wood"])),
    Product("Marble Pendant Light", Some("Minimal pendant for kitchen islands."), 199.0,
            "lighting", Some("kitchen"), None, true, Some(["minimal", "lighting"]))
  ]

  const DemoTestimonialInputs: seq<TestimonialInput> := [
    TestimonialInput(Given("Ava Patel"), Given("Full Home"), Given(5),
                     Given("They transformed our space beyond expectations!"), Omitted, Omitted),
    TestimonialInput(Given("Liam Chen"), Given("Kitchen Remodel"), Given(5),
                     Given("Professional, timely, and stunning results."), Omitted, Omitted)
  ]

  const DemoTestimonials: seq<Testimonial> := [
    Testimonial("Ava Patel", Some("Full Home"), 5, "They transformed our space beyond expectations!", None, None),
    Testimonial("Liam Chen", Some("Kitchen Remodel"), 5, "Professional, timely, and stunning results.", None, None)
  ]

  const DemoProjectInputs: seq<ProjectInput> := [
    ProjectInput(Given("Skyline Penthouse"), Given("Modern"), Given("Living Room"), Given("$$$"), Given(12),
                 Given("A sleek urban living space with panoramic views."), Omitted, Omitted, Omitted),
    ProjectInput(Given("Cozy Minimal Bedroom"), Given("Minimalist"), Given("Bedroom"), Given("$$"), Given(6),
                 Given("Calming tones with functional storage solutions."), Omitted, Omitted, Omitted)
  ]

  const DemoProjects: seq<Project> := [
    Project("Skyline Penthouse", Some("Modern"), Some("Living Room"), Some("$$$"), Some(12),
            Some("A sleek urban living space with panoramic views."), None, None, Some([])),
    Project("Cozy Minimal Bedroom", Some("Minimalist"), Some("Bedroom"), Some("$$"), Some(6),
            Some("Calming tones with functional storage solutions."), None, None, Some([]))
  ]

  const DemoPostInputs: seq<BlogPostInput> := [
    BlogPostInput(Given("Top 7 Custom Home Interiors Trends"), Given("custom-home-interiors-trends"),
                  Given("Explore the latest in custom home interiors."),
                  Given("Long-form content about custom home interiors..."), Omitted,
                  Given(["custom home interiors", "interior design"]), Given(true))
  ]

  const DemoPosts: seq<BlogPost> := [
    BlogPost("Top 7 Custom Home Interiors Trends", "custom-home-interiors-trends",
             Some("Explore the latest in custom home interiors."),
             "Long-form content about custom home interiors...", None,
             Some(["custom home interiors", "interior design"]), true)
  ]

  /** The demo products are what validating construction makes of their arguments. */
  lemma DemoProductsConstructed(syn: Syntax)
    ensures |DemoProductInputs| == |DemoProducts|
    ensures forall n :: 0 <= n < |DemoProducts| ==> ConstructProduct(DemoProductInputs[n], syn) == Success(DemoProducts[n])
  {
    forall n | 0 <= n < |DemoProducts|
      ensures ConstructProduct(DemoProductInputs[n], syn) == Success(DemoProducts[n])
    {
      var i := DemoProductInputs[n];
      assert forall f :: ProductFieldOk(i, syn, f);
      assert BuildProduct(i) == DemoProducts[n];
    }
  }

  /** The demo testimonials are what validating construction makes of their arguments. */
  lemma DemoTestimonialsConstructed(syn: Syntax)
    ensures |DemoTestimonialInputs| == |DemoTestimonials|
    ensures forall n :: 0 <= n < |DemoTestimonials| ==>
              ConstructTestimonial(DemoTestimonialInputs[n], syn) == Success(DemoTestimonials[n])
  {
    forall n | 0 <= n < |DemoTestimonials|
      ensures ConstructTestimonial(DemoTestimonialInputs[n], syn) == Success(DemoTestimonials[n])
    {
      var i := DemoTestimonialInputs[n];
      assert forall f :: TestimonialFieldOk(i, syn, f);
      assert BuildTestimonial(i) == DemoTestimonials[n];
    }
  }

  /** The demo projects are what validating construction makes of their arguments; the gallery defaults to empty. */
  lemma DemoProjectsConstructed(syn: Syntax)
    ensures |DemoProjectInputs| == |DemoProjects|
    ensures forall n :: 0 <= n < |DemoProjects| ==> ConstructProject(DemoProjectInputs[n], syn) == Success(DemoProjects[n])
  {
    forall n | 0 <= n < |DemoProjects|
      ensures ConstructProject(DemoProjectInputs[n], syn) == Success(DemoProjects[n])
    {
      var i := DemoProjectInputs[n];
      assert forall f :: ProjectFieldOk(i, syn, f);
      assert BuildProject(i) == DemoProjects[n];
    }
  }

  /** The demo blog post is what validating construction makes of its arguments. */
  lemma DemoPostsConstructed(syn: Syntax)
    ensures |DemoPostInputs| == |DemoPosts|
    ensures forall n :: 0 <= n < |DemoPosts| ==> ConstructBlogPost(DemoPostInputs[n], syn) == Success(DemoPosts[n])
  {
    forall n | 0 <= n < |DemoPosts|
      ensures ConstructBlogPost(DemoPostInputs[n], syn) == Success(DemoPosts[n])
    {
      var i := DemoPostInputs[n];
      assert forall f :: BlogPostFieldOk(i, syn, f);
      assert BuildBlogPost(i) == DemoPosts[n];
    }
  }

  // ---------------------------------------------------------------------
  // The inserts
  // ---------------------------------------------------------------------

  /** Records of one kind, as store entries. */
  function Wrap<T>(items: seq<T>, wrap: T -> Entry): (entries: seq<Entry>)
    ensures |entries| == |items|
    ensures forall n :: 0 <= n < |items| ==> entries[n] == wrap(items[n])
  {
    seq(|items|, n requires 0 <= n < |items| => wrap(items[n]))
  }

  /** The inserts of `entries` into `collection`, in order. */
  function Logged(collection: string, entries: seq<Entry>): (log: seq<(string, Entry)>)
    ensures |log| == |entries|
  {
    seq(|entries|, n requires 0 <= n < |entries| => (collection, entries[n]))
  }

  /** The first `k` inserts of a batch are the inserts of its first `k` records. */
  lemma LoggedPrefix(collection: string, entries: seq<Entry>, k: nat)
    requires k <= |entries|
    ensures Logged(collection, entries[..k]) == Logged(collection, entries)[..k]
  {
  }

  /** Appending a prefix of `rest` after `before + batch` appends a prefix of `batch + rest` after `before`. */
  lemma AppendPrefix<T>(before: seq<T>, batch: seq<T>, rest: seq<T>, k: nat)
    requires k <= |rest|
    ensures before + batch + rest[..k] == before + (batch + rest)[..|batch| + k]
  {
    assert (batch + rest)[..|batch| + k] == batch + rest[..k];
  }

  /** Each batch's inserts, batch after batch. */
  function Flatten(batches: seq<(string, seq<Entry>)>): (log: seq<(string, Entry)>)
  {
    if batches == [] then [] else Logged(batches[0].0, batches[0].1) + Flatten(batches[1..])
  }

  /** The four demo lists, each with the collection the route inserts it into, in the route's order. */
  function DemoBatches(): seq<(string, seq<Entry>)>
  {
    [ (CollectionName(Products), Wrap(DemoProducts, p => ProductEntry(p))),
      (CollectionName(Testimonials), Wrap(DemoTestimonials, t => TestimonialEntry(t))),
      (CollectionName(Projects), Wrap(DemoProjects, p => ProjectEntry(p))),
      (CollectionName(BlogPosts), Wrap(DemoPosts, b => BlogPostEntry(b))) ]
  }

  /** The inserts a complete seeding makes. */
  function DemoInserts(): seq<(string, Entry)>
  {
    Flatten(DemoBatches())
  }

  /** The kinds of record in a log, in order. */
  function KindsOf(log: seq<(string, Entry)>): (kinds: seq<Collection>)
    ensures |kinds| == |log|
    ensures forall n :: 0 <= n < |log| ==> kinds[n] == CollectionOf(log[n].1)
  {
    seq(|log|, n requires 0 <= n < |log| => CollectionOf(log[n].1))
  }

  /**
   * A complete seeding inserts two products, two testimonials, two projects
   * and one blog post, in that order, each into its own collection.
   */
  lemma DemoInsertsShape()
    ensures KindsOf(DemoInserts()) == [Products, Products, Testimonials, Testimonials, Projects, Projects, BlogPosts]
    ensures WellFiled(DemoInserts())
  {
    var batches := DemoBatches();
    var products := Logged(batches[0].0, batches[0].1);
    var testimonials := Logged(batches[1].0, batches[1].1);
    var projects := Logged(batches[2].0, batches[2].1);
    var posts := Logged(batches[3].0, batches[3].1);
    BatchOfOneKind(Products, batches[0].1);
    BatchOfOneKind(Testimonials, batches[1].1);
    BatchOfOneKind(Projects, batches[2].1);
    BatchOfOneKind(BlogPosts, batches[3].1);
    assert KindsOf(products) == [Products, Products];
    assert KindsOf(testimonials) == [Testimonials, Testimonials];
    assert KindsOf(projects) == [Projects, Projects];
    assert KindsOf(posts) == [BlogPosts];
    assert Flatten(batches[3..]) == posts;
    assert Flatten(batches[2..]) == projects + posts;
    assert Flatten(batches[1..]) == testimonials + (projects + posts);
    assert DemoInserts() == products + (testimonials + (projects + posts));
    LogAppend(projects, posts);
    LogAppend(testimonials, projects + posts);
    LogAppend(products, testimonials + (projects + posts));
  }

  /** The inserts of a batch whose records are all of kind `c`, into `c`'s collection, are well filed and all of kind `c`. */
  lemma BatchOfOneKind(c: Collection, entries: seq<Entry>)
    requires forall n :: 0 <= n < |entries| ==> CollectionOf(entries[n]) == c
    ensures WellFiled(Logged(CollectionName(c), entries))
    ensures forall n :: 0 <= n < |entries| ==> KindsOf(Logged(CollectionName(c), entries))[n] == c
  {
  }

  /** Kinds and filing of a log are those of its two halves. */
  lemma LogAppend(a: seq<(string, Entry)>, b: seq<(string, Entry)>)
    ensures KindsOf(a + b) == KindsOf(a) + KindsOf(b)
    ensures WellFiled(a) && WellFiled(b) ==> WellFiled(a + b)
  {
  }

  /**
   * `for x in items: create_document(collection, x)`: the records are
   * inserted in order until the store fails; the records before the
   * failure stay inserted, and the store's error is answered.
   */
  method CreateEach(store: DocumentStore, collection: string, entries: seq<Entry>) returns (failure: Option<string>)
    modifies store
    ensures var m := Succeeding(store.outcomes, old(store.calls), |entries|);
            && store.inserts == old(store.inserts) + Logged(collection, entries[..m])
            && (m == |entries| ==> failure.None? && store.calls == old(store.calls) + m
                                   && store.inserts == old(store.inserts) + Logged(collection, entries))
            && (m < |entries| ==> failure == Fault(store.outcomes, old(store.calls) + m) && failure.Some?
                                  && store.calls == old(store.calls) + m + 1)
  {
    ghost var from := store.calls;
    for n := 0 to |entries|
      invariant Succeeding(store.outcomes, from, n) == n
      invariant store.calls == from + n
      invariant store.inserts == old(store.inserts) + Logged(collection, entries[..n])
    {
      SucceedingStep(store.outcomes, from, n, |entries|);
      var created := store.CreateDocument(collection, entries[n]);
      if created.Failure? {
        return Some(created.error);
      }
      assert Logged(collection, entries[..n + 1]) == Logged(collection, entries[..n]) + [(collection, entries[n])];
    }
    assert entries[..|entries|] == entries;
    failure := None;
  }

  /**
   * The seeding's loops, one batch after another: the inserts stop at the
   * first failure, which is answered; those before it stay made.
   */
  method CreateBatches(store: DocumentStore, batches: seq<(string, seq<Entry>)>) returns (failure: Option<string>)
    modifies store
    ensures var all := Flatten(batches);
            var m := Succeeding(store.outcomes, old(store.calls), |all|);
            && store.inserts == old(store.inserts) + all[..m]
            && (m == |all| ==> failure.None? && store.calls == old(store.calls) + m
                               && store.inserts == old(store.inserts) + all)
            && (m < |all| ==> failure == Fault(store.outcomes, old(store.calls) + m) && failure.Some?
                              && store.calls == old(store.calls) + m + 1)
    decreases |batches|
  {
    if batches == [] {
      return None;
    }
    ghost var from := store.calls;
    ghost var before := store.inserts;
    var (collection, entries) := batches[0];
    ghost var batch := Logged(collection, entries);
    ghost var rest := Flatten(batches[1..]);
    ghost var all := batch + rest;
    failure := CreateEach(store, collection, entries);
    if failure.Some? {
      ghost var k := Succeeding(store.outcomes, from, |entries|);
      SucceedingSame(store.outcomes, from, |entries|, |all|);
      LoggedPrefix(collection, entries, k);
      assert all[..k] == batch[..k];
      return;
    }
    assert Succeeding(store.outcomes, from, |entries|) == |entries|;
    SucceedingAfter(store.outcomes, from, |entries|, |rest|);
    failure := CreateBatches(store, batches[1..]);
    ghost var k := Succeeding(store.outcomes, from + |entries|, |rest|);
    AppendPrefix(before, batch, rest, k);
    assert all[..|all|] == all;
  }

  /**
   * `seed_demo`: refused with 403 before any insert unless the token
   * passes. Otherwise the demo records are inserted in order: when every
   * insert succeeds the answer is "seeded"; when one fails, the records
   * before it stay inserted and the store's error is answered with 500.
   */
  method SeedDemo(store: DocumentStore, token: Option<string>, configured: Option<string>) returns (r: Response<string>)
    modifies store
    ensures !SeedAuthorized(token, configured) ==>
              && r == HttpError(ForbiddenStatus, ForbiddenDetail)
              && store.inserts == old(store.inserts) && store.calls == old(store.calls)
    ensures SeedAuthorized(token, configured) ==>
              var m := Succeeding(store.outcomes, old(store.calls), |DemoInserts()|);
              && store.inserts == old(store.inserts) + DemoInserts()[..m]
              && (m == |DemoInserts()| ==> r == Ok(SeededStatus) && store.calls == old(store.calls) + m)
              && (m < |DemoInserts()| ==> Fault(store.outcomes, old(store.calls) + m).Some?
                                          && r == HttpError(ServerErrorStatus, Fault(store.outcomes, old(store.calls) + m).value)
                                          && store.calls == old(store.calls) + m + 1)
  {
    if !SeedAuthorized(token, configured) {
      return HttpError(ForbiddenStatus, ForbiddenDetail);
    }
    var failure := CreateBatches(store, DemoBatches());
    if failure.Some? {
      return HttpError(ServerErrorStatus, failure.value);
    }
    r := Ok(SeededStatus);
  }
}
