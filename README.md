# Interior-design site back end: a Dafny model of its request handling

The system is a small web API for an interior-design business. It serves
products, portfolio projects, testimonials and blog posts out of a document
store, records sales leads (optionally forwarding them to a CRM), and can
seed the store with demo content behind a token. This project models the
core of that API and proves properties of the model:

- **Documents** (`documents.dfy`): `_serialize_docs`, which copies each
  stored document and renames its storage identifier `_id` to a string
  `id`. It is a loop in the source, so it is a method with a loop,
  proved against the function `SerializeAll`.
- **Filters** (`filters.dfy`): the four query-parameter-to-filter builders
  of the read routes, with the `min_rating` bounds and the `published`
  default. **Matching** (`matching.dfy`) gives the filters a reading (which
  documents a filter selects) so that each builder can be proved to select
  exactly what its parameters ask for.
- **Routes** (`routes.dfy`): the four read routes. Each builds its filter,
  queries its collection, and answers the serialized documents, or 500 with
  the store's error (422 for an out-of-range `min_rating`).
- **Schemas** (`schemas.dfy`): the six request-body schemas (user, product,
  testimonial, project, lead, blog post). Each has its required fields,
  defaults, numeric bounds, and email, URL and date-time fields. Construction
  from a body either gives the record or reports every failing field.
- **Store** (`store.dfy`): the store as the write paths see it. It is a
  class whose `create_document` appends to an insert log or fails. A script
  of per-call answers decides which call fails.
- **Seed** (`seed.dfy`): `seed_demo`. It applies the token gate, then
  inserts the demo records in order. A failure stops the inserts, and the
  records before it stay inserted.
- **Leads** (`leads.dfy`): `create_lead`. It inserts the lead, answers the
  new identifier, and builds the CRM contact request that is sent when a
  HubSpot key is configured.
- **Collections** (`collections.dfy`): the collection names the handlers
  use.

The schema docstring at `schemas.py:11` says blog posts live in a "blogs"
collection. The code reads and writes "blogpost" (`main.py:128`,
`main.py:193`, and the class docstring at `schemas.py:88`). The model
follows the code.

## Model

| member | source | states |
|---|---|---|
| Documents.SerializeDoc | main.py:71-74 | The result never has `_id`. When the document had `_id`, its value reappears rendered as a string under `id` and the key set is the old one with `_id` traded for `id`. Without `_id` the document is unchanged. Every other field keeps its value. |
| Documents.SerializeAll | main.py:68-75 | The list keeps its length, and each position holds that document serialized. |
| Documents.SerializeDocs | main.py:68-75 | The loop builds exactly `SerializeAll` of the input list. |
| Documents.SerializeDocIdempotent | main.py:72-73 | Serializing twice is serializing once. |
| Documents.SerializeAllAppend | main.py:70-74 | Serialization works document by document: serializing a concatenation concatenates the serializations. |
| Documents.SerializeAllDropsStoreId | main.py:72-73 | No serialized document has `_id`. |
| Documents.SerializedIdsDistinct | main.py:73 | Documents with different `_id` object ids get different `id`s when the string rendering is injective on store identifiers. |
| Filters.ProductsFilter | main.py:84-90 | `category` and `room_type` appear exactly when given non-empty, as equality. `in_stock` appears exactly when supplied, `false` included. No other key appears. |
| Filters.ProductsFilterEmpty | main.py:84-90 | With no usable parameters the filter is empty. |
| Filters.ProjectsFilter | main.py:100-104 | `style` and `room` appear exactly when given non-empty, as equality, and nothing else appears. |
| Filters.MinRatingParam | main.py:113 | `min_rating` is accepted exactly when absent or within [1, 5]. It defaults to 1, and an accepted value is unchanged. |
| Filters.TestimonialsFilter | main.py:114 | The filter is exactly `rating >= min_rating`. |
| Filters.PublishedParam | main.py:123 | `published` defaults to true and otherwise is the value given. |
| Filters.BlogPostsFilter | main.py:124-126 | `published` is always filtered. `keywords` holds `$in [keyword]` exactly when the keyword is non-empty. Nothing else appears. |
| Filters.BlogPostsDefaultFilter | main.py:123-124 | Without parameters the blog route still asks for published posts only. |
| Matching.ProductsFilterSelects | main.py:84-90 | A document is selected iff it has each given non-empty category and room type and the supplied stock flag. |
| Matching.ProjectsFilterSelects | main.py:100-104 | A document is selected iff it has each given non-empty style and room. |
| Matching.TestimonialsFilterSelects | main.py:113-114 | A document is selected iff its rating is at least `min_rating`. |
| Matching.BlogPostsFilterSelects | main.py:123-126 | A document is selected iff its publication flag is the requested one (true by default) and, when a keyword is given, its keywords contain it. |
| Matching.EmptyFilterMatchesAll | main.py:84 | The empty filter selects every document. |
| Matching.SerializePreservesMatch | main.py:92-93 | Serialization does not change whether a document matches a filter that leaves `_id` and `id` alone. |
| Matching.SerializedSelection | main.py:92-93 | The same holds position by position over a serialized list. |
| Routes.Respond | main.py:91-95 | A store error gives 500 with its message. Otherwise the answer is the serialized documents, and all of them match the filter iff all found documents do. |
| Routes.ListProducts | main.py:79-95 | The route queries "product" with `ProductsFilter` of its parameters and answers as `Respond` does. |
| Routes.ListProjects | main.py:99-109 | The route queries "project" with `ProjectsFilter` of its parameters and answers as `Respond` does. |
| Routes.ListTestimonials | main.py:113-119 | An out-of-range `min_rating` gives 422. Otherwise the route queries "testimonial" with `rating >= min_rating` and answers as `Respond` does. |
| Routes.ListBlogPosts | main.py:123-131 | The route queries "blogpost" with `BlogPostsFilter` of the (defaulted) parameters and answers as `Respond` does. |
| Collections.CollectionName | main.py:92-137 | The name each handler passes to the store ("product", "project", "testimonial", "blogpost", "lead") is its schema class name lower-cased, and is never empty. |
| Collections.NamesDistinct | schemas.py:8-10 | No two collections share a name. |
| Schemas.ConstructUser | schemas.py:20-29 | Construction succeeds iff every field is acceptable (name and email required; email syntax; age, when given, in [0, 120]; no null where not optional). The result is valid. Name and email are the given ones. `address` and `age` are the given values, absent when left out or null. `is_active` is the given flag, true by default. An age below 0 or above 120 is reported with the bound it broke. Every reported error names a failing field, and every failing field is reported. |
| Schemas.UserNoErrorsIff | schemas.py:20-29 | The error list is empty iff every field is acceptable. |
| Schemas.UserErrorsSound | schemas.py:20-29 | Every reported error names a field that is not acceptable. |
| Schemas.UserErrorsComplete | schemas.py:20-29 | Every unacceptable field is reported. |
| Schemas.BuiltUserValid | schemas.py:20-29 | A body whose fields are all acceptable has its required fields and builds a valid user. |
| Schemas.UserRoundTrip | schemas.py:20-29 | Writing a user back as a body and constructing gives the same user iff the user is valid. |
| Schemas.ConstructProduct | schemas.py:31-43 | Construction succeeds iff every field is acceptable (title, price and category required; price >= 0; image URL syntax). Title, price and category are the given ones. `description`, `room_type` and `image_url` are the given values, absent when left out or null. `in_stock` defaults to true. `tags` defaults to the empty list, and an explicit null stays null. It reports a negative price as a `ge 0` error. Errors are sound and complete per field. |
| Schemas.ProductNoErrorsIff | schemas.py:31-43 | The error list is empty iff every field is acceptable. |
| Schemas.ProductErrorsSound | schemas.py:31-43 | Every reported error names a field that is not acceptable. |
| Schemas.ProductErrorsComplete | schemas.py:31-43 | Every unacceptable field is reported. |
| Schemas.BuiltProductValid | schemas.py:31-43 | A body whose fields are all acceptable builds a valid product. |
| Schemas.ProductRoundTrip | schemas.py:31-43 | Writing a product back as a body and constructing gives the same product iff the product is valid. |
| Schemas.ConstructTestimonial | schemas.py:45-55 | Construction succeeds iff every field is acceptable (client name and quote required; rating in [1, 5], default 5; URL syntax). Client name and quote are the given ones, and the rating is the given one or 5. `project_type`, `photo_url` and `case_study_url` are the given values, absent when left out or null. A rating below 1 or above 5 is reported with its bound. Errors are sound and complete per field. |
| Schemas.TestimonialNoErrorsIff | schemas.py:45-55 | The error list is empty iff every field is acceptable. |
| Schemas.TestimonialErrorsSound | schemas.py:45-55 | Every reported error names a field that is not acceptable. |
| Schemas.TestimonialErrorsComplete | schemas.py:45-55 | Every unacceptable field is reported. |
| Schemas.BuiltTestimonialValid | schemas.py:45-55 | A body whose fields are all acceptable builds a valid testimonial. |
| Schemas.TestimonialRoundTrip | schemas.py:45-55 | Writing a testimonial back as a body and constructing gives the same testimonial iff it is valid. |
| Schemas.ConstructProject | schemas.py:57-70 | Construction succeeds iff every field is acceptable (title required; duration >= 0; image URLs and each gallery item URL-checked). The title is the given one. `style`, `room`, `budget_range`, `duration_weeks`, `description` and both image URLs are the given values, absent when left out or null. The gallery is the given list, empty by default, and an explicit null stays null. A negative duration and each bad gallery item (at its position) are reported. Errors are sound and complete per field. |
| Schemas.ProjectGalleryReported | schemas.py:70 | Each gallery item that is not a URL is reported with its own position. |
| Schemas.ProjectNoErrorsIff | schemas.py:57-70 | The error list is empty iff every field is acceptable. |
| Schemas.ProjectErrorsSound | schemas.py:57-70 | Every reported error names a field that is not acceptable. |
| Schemas.ProjectErrorsComplete | schemas.py:57-70 | Every unacceptable field is reported. |
| Schemas.BuiltProjectValid | schemas.py:57-70 | A body whose fields are all acceptable builds a valid project. |
| Schemas.ProjectRoundTrip | schemas.py:57-70 | Writing a project back as a body and constructing gives the same project iff it is valid. |
| Schemas.ConstructLead | schemas.py:72-83 | Construction succeeds iff every field is acceptable (name and email required; email and date-time syntax). Name and email are the given ones. `phone`, `project_details` and `preferred_date` are the given values, absent when left out or null. `source` defaults to "website", and an explicit null stays null. `consent` is the given flag, true by default. A missing email is reported as missing. Errors are sound and complete per field. |
| Schemas.LeadNoErrorsIff | schemas.py:72-83 | The error list is empty iff every field is acceptable. |
| Schemas.LeadErrorsSound | schemas.py:72-83 | Every reported error names a field that is not acceptable. |
| Schemas.LeadErrorsComplete | schemas.py:72-83 | Every unacceptable field is reported. |
| Schemas.BuiltLeadValid | schemas.py:72-83 | A body whose fields are all acceptable builds a valid lead. |
| Schemas.LeadRoundTrip | schemas.py:72-83 | Writing a lead back as a body and constructing gives the same lead iff it is valid. |
| Schemas.ConstructBlogPost | schemas.py:85-96 | Construction succeeds iff every field is acceptable (title, slug and content required; cover URL syntax). Title, slug and content are the given ones. `excerpt` and `cover_image_url` are the given values, absent when left out or null. `keywords` defaults to the empty list, and an explicit null stays null. `published` defaults to true. A missing slug or content is reported as missing. Errors are sound and complete per field. |
| Schemas.BlogPostNoErrorsIff | schemas.py:85-96 | The error list is empty iff every field is acceptable. |
| Schemas.BlogPostErrorsSound | schemas.py:85-96 | Every reported error names a field that is not acceptable. |
| Schemas.BlogPostErrorsComplete | schemas.py:85-96 | Every unacceptable field is reported. |
| Schemas.BuiltBlogPostValid | schemas.py:85-96 | A body whose fields are all acceptable builds a valid blog post. |
| Schemas.BlogPostRoundTrip | schemas.py:85-96 | Writing a blog post back as a body and constructing gives the same post iff it is valid. |
| Schemas.IntRangeErrors | schemas.py:28 | A bounded integer field fails iff it is given and outside its bounds. The error names the bound it broke. |
| Schemas.UrlItemErrorsSound | schemas.py:70 | Every error for a URL list names a position holding a non-URL. |
| Schemas.UrlItemErrorsComplete | schemas.py:70 | Every non-URL position of a URL list is reported. |
| Store.DocumentStore.CreateDocument | main.py:137 | An insert either appends the record to the log and answers its identifier, or fails with the store's error and leaves the log unchanged. |
| Seed.SeedAuthorized | main.py:164-165 | Without a token the request is refused. With `SEED_TOKEN` unset only "dev" passes; with it set, exactly its value passes. |
| Seed.DemoProductsConstructed | main.py:168-171 | The two demo products pass validation and give the stated records, with the tags given. |
| Seed.DemoTestimonialsConstructed | main.py:175-178 | The two demo testimonials pass validation, rating 5. |
| Seed.DemoProjectsConstructed | main.py:182-185 | The two demo projects pass validation, with an empty gallery by default. |
| Seed.DemoPostsConstructed | main.py:189-191 | The demo blog post passes validation and is published. |
| Seed.DemoInsertsShape | main.py:168-193 | A complete seeding inserts two products, two testimonials, two projects and one blog post, in that order, each into its own collection. |
| Seed.CreateEach | main.py:172-173 | The records are inserted in order until the first failure. Those before it stay inserted, and a failure is answered. The store is called once per insert made plus once for the failing one, and never again after it. |
| Seed.CreateBatches | main.py:172-193 | The four loops in turn: the inserts made are exactly the first ones of the whole seeding, up to the first failure, whose error is answered. The store is called exactly once per insert attempted, the failing one included. |
| Seed.SeedDemo | main.py:163-197 | A bad token gives 403 before any store call, so nothing is inserted. Otherwise the log grows by the demo inserts up to the first failure. A complete run answers "seeded"; a failure answers 500 with the store's error. The store is called once per insert attempted, and the seeding stops after the first failed one. |
| Leads.ContactPropertiesCarryLead | main.py:145-153 | The CRM payload carries the lead's email and name, stage "lead", and phone and project details: empty exactly when the lead has none, otherwise the lead's own value. |
| Leads.Authorization | main.py:144 | The header is "Bearer " followed by the key, and the key can be read back from it. |
| Leads.CrmNotification | main.py:139-154 | A CRM request exists exactly when the key is set and non-empty. It goes to the contacts URL with that key, as JSON, with the lead's payload and a 5-second timeout. |
| Leads.CreateLead | main.py:135-159 | On a successful insert the lead is appended to "lead", the answer is its identifier with "received", and the CRM request is the one above. On failure the answer is 500 with the store's error, nothing is inserted and nothing is sent. |

## Left out

- The web framework (FastAPI routing, CORS, uvicorn, the `/` and `/test` endpoints) is not part of this model. The routes are methods taking their decoded query parameters.
- The store's implementation (`database.py`) is not part of this model. Queries are the parameter `find` (a collection name and a filter give documents or an error). Inserts are the `DocumentStore` class. Inserted identifiers are positions in the insert log rather than generated object ids.
- The meaning of a filter inside the store is an assumed reading (`Matching`): equality, `$gte` on numbers, `$in` on values or arrays. Type coercion and other operators are left out.
- `str(...)` of a stored value, and the syntax checks behind `EmailStr`, `HttpUrl` and `datetime`, are parameters (`toStr`, `Syntax`). Library normalisation of URLs and dates is left out.
- Schemas.ConstructUser: `email` is kept as given. The normalisation `EmailStr` applies to an accepted address is left out, because it belongs to the email-validation library.
- Schemas.ConstructLead: `email` is kept as given, with no `EmailStr` normalisation. `preferred_date` is kept as its accepted text rather than parsed into a `datetime`. Both belong to library code outside this model.
- Schemas.ConstructProduct: `image_url` is kept as its accepted text. `HttpUrl` normalisation is left out, because it belongs to the validation library.
- Schemas.ConstructTestimonial: `photo_url` and `case_study_url` are kept as their accepted text, with no `HttpUrl` normalisation.
- Schemas.ConstructProject: the image URLs and gallery items are kept as their accepted text, with no `HttpUrl` normalisation.
- Schemas.ConstructBlogPost: `cover_image_url` is kept as its accepted text, with no `HttpUrl` normalisation.
- Leads.CreateLead: the lead it receives is the record the framework has already validated from the request body (`Schemas.ConstructLead`). An invalid body is answered 422 by the framework before the route runs, so the method takes a `Lead` and does not re-check it.
- Environment reads (`SEED_TOKEN`, `HUBSPOT_API_KEY`) are parameters.
- Leads.CreateLead: the CRM request is returned rather than sent. Its HTTP exchange, its 5-second timeout as behaviour, and the exceptions swallowed around it are left out, because they cannot change the route's answer.
- Pydantic type coercion (strings to numbers and the like), unknown extra fields and key order in documents are left out. A body field is left out, null, or a value of the right type.
- `price` is a `real`, not a binary float; no rounding is modelled.
- The detail body of a 422 is reduced to the parameter's name; FastAPI's structured error list is left out.
- `DocumentOut` (`main.py:63-65`) is declared but never used by the routes, so it is left out.
- Concurrency between requests is left out. Each route runs against the store alone.
