/**
 * The request-body schemas: one record per entity, the constraints it must
 * meet (`Valid...`) and the validating construction from a partial body
 * (`Construct...`), which fills defaults and reports every violated field.
 *
 * A body field arrives as `Field<T>`: left out, an explicit null, or a value.
 * Pydantic tells the first two apart: a required field left out is
 * "missing", a non-optional field given null is refused, and an optional
 * field given null stays null even when its default is something else.
 * Email, URL and date-time syntax are library checks, passed in as `Syntax`.
 */
module Schemas {
  import opened Common

  datatype Field<+T> = Omitted | Null | Given(value: T)

  /** The syntax checks of `EmailStr`, `HttpUrl` and `datetime`. */
  datatype Syntax = Syntax(isEmail: string -> bool, isUrl: string -> bool, isDatetime: string -> bool)

  /** The constraint a field failed. */
  datatype ErrorKind =
    | Missing
    | NullNotAllowed
    | GreaterThanEqual(ge: int)
    | LessThanEqual(le: int)
    | InvalidEmail
    | InvalidUrl
    | InvalidDatetime

  /**
   * One entry of a validation error: the field (of the schema's own field
   * enumeration `F`), the list position inside it if any, and the failed
   * constraint.
   */
  datatype FieldError<F> = FieldError(field: F, index: Option<nat>, kind: ErrorKind)

  /** Some error of `errs` is about field `f`. */
  predicate Reports<F(==)>(errs: seq<FieldError<F>>, f: F)
  {
    exists e :: e in errs && e.field == f
  }

  // ---------------------------------------------------------------------
  // Field-level checks and defaults
  // ---------------------------------------------------------------------

  /** A present value, or the default when the field was left out. */
  function Or<T>(f: Field<T>, default: T): T
  {
    if f.Given? then f.value else default
  }

  /** An optional field: the default when left out, absent when null. */
  function OptOr<T>(f: Field<T>, default: Option<T>): Option<T>
  {
    match f
    case Omitted => default
    case Null => None
    case Given(v) => Some(v)
  }

  /** The body field that carries an optional value: null for absent. */
  function FieldOf<T>(o: Option<T>): Field<T>
  {
    if o.Some? then Given(o.value) else Null
  }

  /** A field declared `Field(...)`: it must be present and not null. */
  function RequiredErrors<F, T>(field: F, f: Field<T>): (errs: seq<FieldError<F>>)
    ensures errs == [] <==> f.Given?
    ensures forall e :: e in errs ==> e.field == field
    ensures f.Omitted? ==> errs == [FieldError(field, None, Missing)]
  {
    match f
    case Omitted => [FieldError(field, None, Missing)]
    case Null => [FieldError(field, None, NullNotAllowed)]
    case Given(_) => []
  }

  /** A non-optional field with a default: it may be left out but not be null. */
  function NotNullErrors<F, T>(field: F, f: Field<T>): (errs: seq<FieldError<F>>)
    ensures errs == [] <==> !f.Null?
    ensures forall e :: e in errs ==> e.field == field
  {
    if f.Null? then [FieldError(field, None, NullNotAllowed)] else []
  }

  /** A given integer lies in [ge, le] (no upper bound when `le` is None). */
  predicate IntInRange(f: Field<int>, ge: int, le: Option<int>)
  {
    f.Given? ==> ge <= f.value && (le.Some? ==> f.value <= le.value)
  }

  /** The `ge`/`le` constraint of an integer field, checked only on a given value. */
  function IntRangeErrors<F>(field: F, f: Field<int>, ge: int, le: Option<int>): (errs: seq<FieldError<F>>)
    ensures errs == [] <==> IntInRange(f, ge, le)
    ensures forall e :: e in errs ==> e.field == field
    ensures f.Given? && f.value < ge ==> errs == [FieldError(field, None, GreaterThanEqual(ge))]
    ensures f.Given? && ge <= f.value && le.Some? && f.value > le.value ==>
              errs == [FieldError(field, None, LessThanEqual(le.value))]
  {
    if f.Given? && f.value < ge then [FieldError(field, None, GreaterThanEqual(ge))]
    else if f.Given? && le.Some? && f.value > le.value then [FieldError(field, None, LessThanEqual(le.value))]
    else []
  }

  /** A given string passes a syntax check. */
  predicate SyntaxOk(f: Field<string>, check: string -> bool)
  {
    f.Given? ==> check(f.value)
  }

  /** A syntax check on a given string value. */
  function SyntaxErrors<F>(field: F, f: Field<string>, check: string -> bool, kind: ErrorKind): (errs: seq<FieldError<F>>)
    ensures errs == [] <==> SyntaxOk(f, check)
    ensures forall e :: e in errs ==> e.field == field && e.kind == kind
  {
    if f.Given? && !check(f.value) then [FieldError(field, None, kind)] else []
  }

  /** Every item of `urls` passes the URL check. */
  predicate AllUrls(urls: seq<string>, isUrl: string -> bool)
    decreases |urls|
  {
    urls == [] || (isUrl(urls[0]) && AllUrls(urls[1..], isUrl))
  }

  /** `AllUrls` holds exactly when the check passes at every position. */
  lemma {:induction false} AllUrlsAt(urls: seq<string>, isUrl: string -> bool)
    ensures AllUrls(urls, isUrl) <==> forall n :: 0 <= n < |urls| ==> isUrl(urls[n])
    decreases |urls|
  {
    if urls != [] {
      AllUrlsAt(urls[1..], isUrl);
      assert forall n :: 1 <= n < |urls| ==> urls[1..][n - 1] == urls[n];
    }
  }

  /**
   * The URL check of each item of a list, one error per bad item carrying
   * its position (`offset` is the position of `urls[0]` in the whole list).
   */
  function UrlItemErrors<F>(field: F, urls: seq<string>, isUrl: string -> bool, offset: nat): (errs: seq<FieldError<F>>)
    ensures errs == [] <==> AllUrls(urls, isUrl)
    ensures forall e :: e in errs ==> e.field == field
    decreases |urls|
  {
    if urls == [] then []
    else
      (if isUrl(urls[0]) then [] else [FieldError(field, Some(offset), InvalidUrl)])
      + UrlItemErrors(field, urls[1..], isUrl, offset + 1)
  }

  /** Every reported item failed the URL check, and is reported at its own position. */
  lemma {:induction false} UrlItemErrorsSound<F>(field: F, urls: seq<string>, isUrl: string -> bool, offset: nat)
    ensures forall e :: e in UrlItemErrors(field, urls, isUrl, offset) ==>
      && e.kind == InvalidUrl && e.index.Some?
      && offset <= e.index.value < offset + |urls| && !isUrl(urls[e.index.value - offset])
    decreases |urls|
  {
    if urls != [] {
      UrlItemErrorsSound(field, urls[1..], isUrl, offset + 1);
    }
  }

  /** Every item that fails the URL check is reported, at its own position. */
  lemma {:induction false} UrlItemErrorsComplete<F>(field: F, urls: seq<string>, isUrl: string -> bool, offset: nat)
    ensures forall n :: 0 <= n < |urls| && !isUrl(urls[n]) ==>
      FieldError(field, Some(offset + n), InvalidUrl) in UrlItemErrors(field, urls, isUrl, offset)
    decreases |urls|
  {
    if urls != [] {
      UrlItemErrorsComplete(field, urls[1..], isUrl, offset + 1);
      var rest := UrlItemErrors(field, urls[1..], isUrl, offset + 1);
      forall n | 1 <= n < |urls| && !isUrl(urls[n])
        ensures FieldError(field, Some(offset + n), InvalidUrl) in rest
      {
        assert urls[1..][n - 1] == urls[n];
      }
    }
  }

  /** A given list of URLs holds well-formed URLs only. */
  predicate UrlListOk(f: Field<seq<string>>, isUrl: string -> bool)
  {
    f.Given? ==> AllUrls(f.value, isUrl)
  }

  /** The URL check of each item of a given list. */
  function UrlListErrors<F>(field: F, f: Field<seq<string>>, isUrl: string -> bool): (errs: seq<FieldError<F>>)
    ensures errs == [] <==> UrlListOk(f, isUrl)
    ensures forall e :: e in errs ==> e.field == field
  {
    if f.Given? then UrlItemErrors(field, f.value, isUrl, 0) else []
  }

  /** An optional stored string passes a syntax check when present. */
  predicate OptSyntaxOk(o: Option<string>, check: string -> bool)
  {
    o.Some? ==> check(o.value)
  }

  /** An optional stored list holds only well-formed URLs when present. */
  predicate OptUrlListOk(o: Option<seq<string>>, isUrl: string -> bool)
  {
    o.Some? ==> AllUrls(o.value, isUrl)
  }

  /**
   * The errors of all fields, in declaration order: the errors `check`
   * reports for each field of `fields`, concatenated.
   */
  function Collect<F>(fields: seq<F>, check: F -> seq<FieldError<F>>): (errs: seq<FieldError<F>>)
    ensures errs == [] <==> forall n :: 0 <= n < |fields| ==> check(fields[n]) == []
    ensures forall e :: e in errs ==> exists n :: 0 <= n < |fields| && e in check(fields[n])
    ensures forall n, e :: 0 <= n < |fields| && e in check(fields[n]) ==> e in errs
  {
    if fields == [] then []
    else
      var rest := Collect(fields[1..], check);
      assert forall n :: 1 <= n < |fields| ==> fields[1..][n - 1] == fields[n];
      check(fields[0]) + rest
  }

  // ---------------------------------------------------------------------
  // User
  // ---------------------------------------------------------------------

  datatype User = User(name: string, email: string, address: Option<string>, age: Option<int>, isActive: bool)

  datatype UserInput = UserInput(name: Field<string>, email: Field<string>, address: Field<string>,
                                 age: Field<int>, isActive: Field<bool>)

  datatype UserField = Name | Email | Address | Age | IsActive

  const UserFields: seq<UserField> := [UserField.Name, UserField.Email, Address, Age, IsActive]

  /** The position of each field in `UserFields`. */
  function UserFieldPos(f: UserField): (n: nat)
    ensures n < |UserFields| && UserFields[n] == f
  {
    match f
    case Name => 0
    case Email => 1
    case Address => 2
    case Age => 3
    case IsActive => 4
  }

  /** `email` well-formed; `age` in [0, 120] when present. */
  predicate ValidUser(u: User, syn: Syntax)
  {
    && syn.isEmail(u.email)
    && (u.age.Some? ==> 0 <= u.age.value <= 120)
  }

  /** Whether field `f` of a user body is acceptable. */
  predicate UserFieldOk(i: UserInput, syn: Syntax, f: UserField)
  {
    match f
    case Name => i.name.Given?
    case Email => i.email.Given? && syn.isEmail(i.email.value)
    case Address => true
    case Age => IntInRange(i.age, 0, Some(120))
    case IsActive => !i.isActive.Null?
  }

  /** The errors reported for field `f` of a user body. */
  function UserFieldErrors(i: UserInput, syn: Syntax, f: UserField): (errs: seq<FieldError<UserField>>)
    ensures errs == [] <==> UserFieldOk(i, syn, f)
    ensures forall e :: e in errs ==> e.field == f
  {
    match f
    case Name => RequiredErrors(f, i.name)
    case Email => RequiredErrors(f, i.email) + SyntaxErrors(f, i.email, syn.isEmail, InvalidEmail)
    case Address => []
    case Age => IntRangeErrors(f, i.age, 0, Some(120))
    case IsActive => NotNullErrors(f, i.isActive)
  }

  /** All errors of a user body, field by field in declaration order. */
  function UserErrors(i: UserInput, syn: Syntax): seq<FieldError<UserField>>
  {
    Collect(UserFields, f => UserFieldErrors(i, syn, f))
  }

  /** A body has no errors exactly when every field is acceptable. */
  lemma UserNoErrorsIff(i: UserInput, syn: Syntax)
    ensures UserErrors(i, syn) == [] <==> forall f :: UserFieldOk(i, syn, f)
  {
    var check := f => UserFieldErrors(i, syn, f);
    if UserErrors(i, syn) == [] {
      forall f ensures UserFieldOk(i, syn, f) {
        var n := UserFieldPos(f);
        assert check(UserFields[n]) == [];
      }
    } else {
      var n :| 0 <= n < |UserFields| && check(UserFields[n]) != [];
      assert !UserFieldOk(i, syn, UserFields[n]);
    }
  }

  /** Every reported error names a field that is not acceptable. */
  lemma UserErrorsSound(i: UserInput, syn: Syntax)
    ensures forall e :: e in UserErrors(i, syn) ==> !UserFieldOk(i, syn, e.field)
  {
    var check := f => UserFieldErrors(i, syn, f);
    forall e | e in UserErrors(i, syn) ensures !UserFieldOk(i, syn, e.field) {
      var n :| 0 <= n < |UserFields| && e in check(UserFields[n]);
      assert e in UserFieldErrors(i, syn, UserFields[n]);
    }
  }

  /** Every field that is not acceptable is reported. */
  lemma UserErrorsComplete(i: UserInput, syn: Syntax)
    ensures forall f :: !UserFieldOk(i, syn, f) ==> Reports(UserErrors(i, syn), f)
  {
    var check := f => UserFieldErrors(i, syn, f);
    forall f | !UserFieldOk(i, syn, f) ensures Reports(UserErrors(i, syn), f) {
      var n := UserFieldPos(f);
      var e := UserFieldErrors(i, syn, f)[0];
      assert e in check(UserFields[n]);
    }
  }

  /** Every error of a single field is among the collected errors. */
  lemma UserErrorsInclude(i: UserInput, syn: Syntax, f: UserField)
    ensures forall e :: e in UserFieldErrors(i, syn, f) ==> e in UserErrors(i, syn)
  {
    var n := UserFieldPos(f);
    assert UserFieldErrors(i, syn, f) == (g => UserFieldErrors(i, syn, g))(UserFields[n]);
  }

  /** The record an acceptable body denotes: the given values, and the defaults for the rest. */
  function BuildUser(i: UserInput): User
    requires i.name.Given? && i.email.Given?
  {
    User(i.name.value, i.email.value, OptOr(i.address, None), OptOr(i.age, None), Or(i.isActive, true))
  }

  /** The record built from an acceptable body satisfies the model's constraints. */
  lemma BuiltUserValid(i: UserInput, syn: Syntax)
    requires forall f :: UserFieldOk(i, syn, f)
    ensures i.name.Given? && i.email.Given? && ValidUser(BuildUser(i), syn)
  {
    assert UserFieldOk(i, syn, UserField.Name) && UserFieldOk(i, syn, UserField.Email) && UserFieldOk(i, syn, Age);
  }

  /** Validating construction of `User`: `is_active` defaults to true, `address` and `age` to absent. */
  function ConstructUser(i: UserInput, syn: Syntax): (r: Result<User, seq<FieldError<UserField>>>)
    ensures r.Success? <==> forall f :: UserFieldOk(i, syn, f)
    ensures r.Success? ==> ValidUser(r.value, syn)
    ensures r.Success? ==> i.name.Given? && i.email.Given?
    ensures r.Success? ==> r.value.name == i.name.value && r.value.email == i.email.value
    ensures r.Success? ==> r.value.address == OptOr(i.address, None)
    ensures r.Success? ==> r.value.age == OptOr(i.age, None)
    ensures r.Success? ==> r.value.isActive == Or(i.isActive, true)
    ensures i.age.Given? && i.age.value < 0 ==>
              r.Failure? && FieldError(Age, None, GreaterThanEqual(0)) in r.error
    ensures i.age.Given? && i.age.value > 120 ==>
              r.Failure? && FieldError(Age, None, LessThanEqual(120)) in r.error
    ensures r.Failure? ==> forall e :: e in r.error ==> !UserFieldOk(i, syn, e.field)
    ensures forall f :: !UserFieldOk(i, syn, f) ==> r.Failure? && Reports(r.error, f)
  {
    UserNoErrorsIff(i, syn);
    UserErrorsSound(i, syn);
    UserErrorsComplete(i, syn);
    UserErrorsInclude(i, syn, Age);
    var errs := UserErrors(i, syn);
    if errs == [] then
      BuiltUserValid(i, syn);
      Success(BuildUser(i))
    else
      Failure(errs)
  }

  /** The body that carries a user record unchanged. */
  function UserInputOf(u: User): UserInput
  {
    UserInput(Given(u.name), Given(u.email), FieldOf(u.address), FieldOf(u.age), Given(u.isActive))
  }

  /** A user record is accepted back from its own body exactly when it is valid. */
  lemma UserRoundTrip(u: User, syn: Syntax)
    ensures ConstructUser(UserInputOf(u), syn) == Success(u) <==> ValidUser(u, syn)
  {
    var i := UserInputOf(u);
    assert BuildUser(i) == u;
    if ValidUser(u, syn) {
      assert forall f :: UserFieldOk(i, syn, f);
    }
  }

  // ---------------------------------------------------------------------
  // Product
  // ---------------------------------------------------------------------

  datatype Product = Product(title: string, description: Option<string>, price: real, category: string,
                             roomType: Option<string>, imageUrl: Option<string>, inStock: bool,
                             tags: Option<seq<string>>)

  datatype ProductInput = ProductInput(title: Field<string>, description: Field<string>, price: Field<real>,
                                       category: Field<string>, roomType: Field<string>, imageUrl: Field<string>,
                                       inStock: Field<bool>, tags: Field<seq<string>>)

  datatype ProductField = Title | Description | Price | Category | RoomType | ImageUrl | InStock | Tags

  const ProductFields: seq<ProductField> := [ProductField.Title, ProductField.Description, Price, Category, RoomType, ImageUrl, InStock, Tags]

  /** The position of each field in `ProductFields`. */
  function ProductFieldPos(f: ProductField): (n: nat)
    ensures n < |ProductFields| && ProductFields[n] == f
  {
    match f
    case Title => 0
    case Description => 1
    case Price => 2
    case Category => 3
    case RoomType => 4
    case ImageUrl => 5
    case InStock => 6
    case Tags => 7
  }

  /** `price >= 0`; `image_url` well-formed when present. */
  predicate ValidProduct(p: Product, syn: Syntax)
  {
    p.price >= 0.0 && OptSyntaxOk(p.imageUrl, syn.isUrl)
  }

  /** Whether field `f` of a product body is acceptable. */
  predicate ProductFieldOk(i: ProductInput, syn: Syntax, f: ProductField)
  {
    match f
    case Title => i.title.Given?
    case Description => true
    case Price => i.price.Given? && i.price.value >= 0.0
    case Category => i.category.Given?
    case RoomType => true
    case ImageUrl => SyntaxOk(i.imageUrl, syn.isUrl)
    case InStock => !i.inStock.Null?
    case Tags => true
  }

  /** The errors reported for field `f` of a product body. */
  function ProductFieldErrors(i: ProductInput, syn: Syntax, f: ProductField): (errs: seq<FieldError<ProductField>>)
    ensures errs == [] <==> ProductFieldOk(i, syn, f)
    ensures forall e :: e in errs ==> e.field == f
  {
    match f
    case Title => RequiredErrors(f, i.title)
    case Description => []
    case Price =>
      RequiredErrors(f, i.price)
      + (if i.price.Given? && i.price.value < 0.0 then [FieldError(f, None, GreaterThanEqual(0))] else [])
    case Category => RequiredErrors(f, i.category)
    case RoomType => []
    case ImageUrl => SyntaxErrors(f, i.imageUrl, syn.isUrl, InvalidUrl)
    case InStock => NotNullErrors(f, i.inStock)
    case Tags => []
  }

  /** All errors of a product body, field by field in declaration order. */
  function ProductErrors(i: ProductInput, syn: Syntax): seq<FieldError<ProductField>>
  {
    Collect(ProductFields, f => ProductFieldErrors(i, syn, f))
  }

  /** A body has no errors exactly when every field is acceptable. */
  lemma ProductNoErrorsIff(i: ProductInput, syn: Syntax)
    ensures ProductErrors(i, syn) == [] <==> forall f :: ProductFieldOk(i, syn, f)
  {
    var check := f => ProductFieldErrors(i, syn, f);
    if ProductErrors(i, syn) == [] {
      forall f ensures ProductFieldOk(i, syn, f) {
        var n := ProductFieldPos(f);
        assert check(ProductFields[n]) == [];
      }
    } else {
      var n :| 0 <= n < |ProductFields| && check(ProductFields[n]) != [];
      assert !ProductFieldOk(i, syn, ProductFields[n]);
    }
  }

  /** Every reported error names a field that is not acceptable. */
  lemma ProductErrorsSound(i: ProductInput, syn: Syntax)
    ensures forall e :: e in ProductErrors(i, syn) ==> !ProductFieldOk(i, syn, e.field)
  {
    var check := f => ProductFieldErrors(i, syn, f);
    forall e | e in ProductErrors(i, syn) ensures !ProductFieldOk(i, syn, e.field) {
      var n :| 0 <= n < |ProductFields| && e in check(ProductFields[n]);
      assert e in ProductFieldErrors(i, syn, ProductFields[n]);
    }
  }

  /** Every field that is not acceptable is reported. */
  lemma ProductErrorsComplete(i: ProductInput, syn: Syntax)
    ensures forall f :: !ProductFieldOk(i, syn, f) ==> Reports(ProductErrors(i, syn), f)
  {
    var check := f => ProductFieldErrors(i, syn, f);
    forall f | !ProductFieldOk(i, syn, f) ensures Reports(ProductErrors(i, syn), f) {
      var n := ProductFieldPos(f);
      var e := ProductFieldErrors(i, syn, f)[0];
      assert e in check(ProductFields[n]);
    }
  }

  /** Every error of a single field is among the collected errors. */
  lemma ProductErrorsInclude(i: ProductInput, syn: Syntax, f: ProductField)
    ensures forall e :: e in ProductFieldErrors(i, syn, f) ==> e in ProductErrors(i, syn)
  {
    var n := ProductFieldPos(f);
    assert ProductFieldErrors(i, syn, f) == (g => ProductFieldErrors(i, syn, g))(ProductFields[n]);
  }

  /** The record an acceptable body denotes: the given values, and the defaults for the rest. */
  function BuildProduct(i: ProductInput): Product
    requires i.title.Given? && i.price.Given? && i.category.Given?
  {
    Product(i.title.value, OptOr(i.description, None), i.price.value, i.category.value,
            OptOr(i.roomType, None), OptOr(i.imageUrl, None), Or(i.inStock, true),
            OptOr(i.tags, Some([])))
  }

  /** The record built from an acceptable body satisfies the model's constraints. */
  lemma BuiltProductValid(i: ProductInput, syn: Syntax)
    requires forall f :: ProductFieldOk(i, syn, f)
    ensures i.title.Given? && i.price.Given? && i.category.Given? && ValidProduct(BuildProduct(i), syn)
  {
    assert ProductFieldOk(i, syn, ProductField.Title) && ProductFieldOk(i, syn, Price) && ProductFieldOk(i, syn, Category)
           && ProductFieldOk(i, syn, ImageUrl);
  }

  /**
   * Validating construction of `Product`: `title`, `price` and `category`
   * are required, `price` may not be negative, `in_stock` defaults to true
   * and `tags` to the empty list (an explicit null is kept as absent).
   */
  function ConstructProduct(i: ProductInput, syn: Syntax): (r: Result<Product, seq<FieldError<ProductField>>>)
    ensures r.Success? <==> forall f :: ProductFieldOk(i, syn, f)
    ensures r.Success? ==> ValidProduct(r.value, syn)
    ensures r.Success? ==> i.title.Given? && i.price.Given? && i.category.Given?
    ensures r.Success? ==> r.value.title == i.title.value && r.value.price == i.price.value
                           && r.value.category == i.category.value
    ensures r.Success? ==> r.value.description == OptOr(i.description, None)
                           && r.value.roomType == OptOr(i.roomType, None)
                           && r.value.imageUrl == OptOr(i.imageUrl, None)
    ensures r.Success? ==> r.value.inStock == Or(i.inStock, true)
    ensures r.Success? ==> r.value.tags == OptOr(i.tags, Some([]))
    ensures i.price.Given? && i.price.value < 0.0 ==>
              r.Failure? && FieldError(Price, None, GreaterThanEqual(0)) in r.error
    ensures r.Failure? ==> forall e :: e in r.error ==> !ProductFieldOk(i, syn, e.field)
    ensures forall f :: !ProductFieldOk(i, syn, f) ==> r.Failure? && Reports(r.error, f)
  {
    ProductNoErrorsIff(i, syn);
    ProductErrorsSound(i, syn);
    ProductErrorsComplete(i, syn);
    ProductErrorsInclude(i, syn, Price);
    var errs := ProductErrors(i, syn);
    if errs == [] then
      BuiltProductValid(i, syn);
      Success(BuildProduct(i))
    else
      Failure(errs)
  }

  /** The body that carries a product record unchanged. */
  function ProductInputOf(p: Product): ProductInput
  {
    ProductInput(Given(p.title), FieldOf(p.description), Given(p.price), Given(p.category),
                 FieldOf(p.roomType), FieldOf(p.imageUrl), Given(p.inStock), FieldOf(p.tags))
  }

  /** A product record is accepted back from its own body exactly when it is valid. */
  lemma ProductRoundTrip(p: Product, syn: Syntax)
    ensures ConstructProduct(ProductInputOf(p), syn) == Success(p) <==> ValidProduct(p, syn)
  {
    var i := ProductInputOf(p);
    assert BuildProduct(i) == p;
    if ValidProduct(p, syn) {
      assert forall f :: ProductFieldOk(i, syn, f);
    }
  }

  // ---------------------------------------------------------------------
  // Testimonial
  // ---------------------------------------------------------------------

  datatype Testimonial = Testimonial(clientName: string, projectType: Option<string>, rating: int, quote: string,
                                     photoUrl: Option<string>, caseStudyUrl: Option<string>)

  datatype TestimonialInput = TestimonialInput(clientName: Field<string>, projectType: Field<string>,
                                               rating: Field<int>, quote: Field<string>,
                                               photoUrl: Field<string>, caseStudyUrl: Field<string>)

  datatype TestimonialField = ClientName | ProjectType | Rating | Quote | PhotoUrl | CaseStudyUrl

  const TestimonialFields: seq<TestimonialField> := [ClientName, ProjectType, Rating, Quote, PhotoUrl, CaseStudyUrl]

  /** The position of each field in `TestimonialFields`. */
  function TestimonialFieldPos(f: TestimonialField): (n: nat)
    ensures n < |TestimonialFields| && TestimonialFields[n] == f
  {
    match f
    case ClientName => 0
    case ProjectType => 1
    case Rating => 2
    case Quote => 3
    case PhotoUrl => 4
    case CaseStudyUrl => 5
  }

  const DefaultRating: int := 5

  /** `rating` in [1, 5]; both URLs well-formed when present. */
  predicate ValidTestimonial(t: Testimonial, syn: Syntax)
  {
    && 1 <= t.rating <= 5
    && OptSyntaxOk(t.photoUrl, syn.isUrl)
    && OptSyntaxOk(t.caseStudyUrl, syn.isUrl)
  }

  /** Whether field `f` of a testimonial body is acceptable. */
  predicate TestimonialFieldOk(i: TestimonialInput, syn: Syntax, f: TestimonialField)
  {
    match f
    case ClientName => i.clientName.Given?
    case ProjectType => true
    case Rating => !i.rating.Null? && IntInRange(i.rating, 1, Some(5))
    case Quote => i.quote.Given?
    case PhotoUrl => SyntaxOk(i.photoUrl, syn.isUrl)
    case CaseStudyUrl => SyntaxOk(i.caseStudyUrl, syn.isUrl)
  }

  /** The errors reported for field `f` of a testimonial body. */
  function TestimonialFieldErrors(i: TestimonialInput, syn: Syntax, f: TestimonialField): (errs: seq<FieldError<TestimonialField>>)
    ensures errs == [] <==> TestimonialFieldOk(i, syn, f)
    ensures forall e :: e in errs ==> e.field == f
  {
    match f
    case ClientName => RequiredErrors(f, i.clientName)
    case ProjectType => []
    case Rating => NotNullErrors(f, i.rating) + IntRangeErrors(f, i.rating, 1, Some(5))
    case Quote => RequiredErrors(f, i.quote)
    case PhotoUrl => SyntaxErrors(f, i.photoUrl, syn.isUrl, InvalidUrl)
    case CaseStudyUrl => SyntaxErrors(f, i.caseStudyUrl, syn.isUrl, InvalidUrl)
  }

  /** All errors of a testimonial body, field by field in declaration order. */
  function TestimonialErrors(i: TestimonialInput, syn: Syntax): seq<FieldError<TestimonialField>>
  {
    Collect(TestimonialFields, f => TestimonialFieldErrors(i, syn, f))
  }

  /** A body has no errors exactly when every field is acceptable. */
  lemma TestimonialNoErrorsIff(i: TestimonialInput, syn: Syntax)
    ensures TestimonialErrors(i, syn) == [] <==> forall f :: TestimonialFieldOk(i, syn, f)
  {
    var check := f => TestimonialFieldErrors(i, syn, f);
    if TestimonialErrors(i, syn) == [] {
      forall f ensures TestimonialFieldOk(i, syn, f) {
        var n := TestimonialFieldPos(f);
        assert check(TestimonialFields[n]) == [];
      }
    } else {
      var n :| 0 <= n < |TestimonialFields| && check(TestimonialFields[n]) != [];
      assert !TestimonialFieldOk(i, syn, TestimonialFields[n]);
    }
  }

  /** Every reported error names a field that is not acceptable. */
  lemma TestimonialErrorsSound(i: TestimonialInput, syn: Syntax)
    ensures forall e :: e in TestimonialErrors(i, syn) ==> !TestimonialFieldOk(i, syn, e.field)
  {
    var check := f => TestimonialFieldErrors(i, syn, f);
    forall e | e in TestimonialErrors(i, syn) ensures !TestimonialFieldOk(i, syn, e.field) {
      var n :| 0 <= n < |TestimonialFields| && e in check(TestimonialFields[n]);
      assert e in TestimonialFieldErrors(i, syn, TestimonialFields[n]);
    }
  }

  /** Every field that is not acceptable is reported. */
  lemma TestimonialErrorsComplete(i: TestimonialInput, syn: Syntax)
    ensures forall f :: !TestimonialFieldOk(i, syn, f) ==> Reports(TestimonialErrors(i, syn), f)
  {
    var check := f => TestimonialFieldErrors(i, syn, f);
    forall f | !TestimonialFieldOk(i, syn, f) ensures Reports(TestimonialErrors(i, syn), f) {
      var n := TestimonialFieldPos(f);
      var e := TestimonialFieldErrors(i, syn, f)[0];
      assert e in check(TestimonialFields[n]);
    }
  }

  /** Every error of a single field is among the collected errors. */
  lemma TestimonialErrorsInclude(i: TestimonialInput, syn: Syntax, f: TestimonialField)
    ensures forall e :: e in TestimonialFieldErrors(i, syn, f) ==> e in TestimonialErrors(i, syn)
  {
    var n := TestimonialFieldPos(f);
    assert TestimonialFieldErrors(i, syn, f) == (g => TestimonialFieldErrors(i, syn, g))(TestimonialFields[n]);
  }

  /** The record an acceptable body denotes: the given values, and the defaults for the rest. */
  function BuildTestimonial(i: TestimonialInput): Testimonial
    requires i.clientName.Given? && i.quote.Given?
  {
    Testimonial(i.clientName.value, OptOr(i.projectType, None), Or(i.rating, DefaultRating),
                i.quote.value, OptOr(i.photoUrl, None), OptOr(i.caseStudyUrl, None))
  }

  /** The record built from an acceptable body satisfies the model's constraints. */
  lemma BuiltTestimonialValid(i: TestimonialInput, syn: Syntax)
    requires forall f :: TestimonialFieldOk(i, syn, f)
    ensures i.clientName.Given? && i.quote.Given? && ValidTestimonial(BuildTestimonial(i), syn)
  {
    assert TestimonialFieldOk(i, syn, ClientName) && TestimonialFieldOk(i, syn, Rating)
           && TestimonialFieldOk(i, syn, Quote) && TestimonialFieldOk(i, syn, PhotoUrl)
           && TestimonialFieldOk(i, syn, CaseStudyUrl);
  }

  /** Validating construction of `Testimonial`: `rating` defaults to 5 and must lie in [1, 5]. */
  function ConstructTestimonial(i: TestimonialInput, syn: Syntax): (r: Result<Testimonial, seq<FieldError<TestimonialField>>>)
    ensures r.Success? <==> forall f :: TestimonialFieldOk(i, syn, f)
    ensures r.Success? ==> ValidTestimonial(r.value, syn)
    ensures r.Success? ==> i.clientName.Given? && i.quote.Given?
    ensures r.Success? ==> r.value.clientName == i.clientName.value && r.value.quote == i.quote.value
    ensures r.Success? ==> r.value.rating == Or(i.rating, DefaultRating)
    ensures r.Success? ==> r.value.projectType == OptOr(i.projectType, None)
                           && r.value.photoUrl == OptOr(i.photoUrl, None)
                           && r.value.caseStudyUrl == OptOr(i.caseStudyUrl, None)
    ensures i.rating.Given? && i.rating.value < 1 ==>
              r.Failure? && FieldError(Rating, None, GreaterThanEqual(1)) in r.error
    ensures i.rating.Given? && i.rating.value > 5 ==>
              r.Failure? && FieldError(Rating, None, LessThanEqual(5)) in r.error
    ensures r.Failure? ==> forall e :: e in r.error ==> !TestimonialFieldOk(i, syn, e.field)
    ensures forall f :: !TestimonialFieldOk(i, syn, f) ==> r.Failure? && Reports(r.error, f)
  {
    TestimonialNoErrorsIff(i, syn);
    TestimonialErrorsSound(i, syn);
    TestimonialErrorsComplete(i, syn);
    TestimonialErrorsInclude(i, syn, Rating);
    var errs := TestimonialErrors(i, syn);
    if errs == [] then
      BuiltTestimonialValid(i, syn);
      Success(BuildTestimonial(i))
    else
      Failure(errs)
  }

  /** The body that carries a testimonial record unchanged. */
  function TestimonialInputOf(t: Testimonial): TestimonialInput
  {
    TestimonialInput(Given(t.clientName), FieldOf(t.projectType), Given(t.rating), Given(t.quote),
                     FieldOf(t.photoUrl), FieldOf(t.caseStudyUrl))
  }

  /** A testimonial record is accepted back from its own body exactly when it is valid. */
  lemma TestimonialRoundTrip(t: Testimonial, syn: Syntax)
    ensures ConstructTestimonial(TestimonialInputOf(t), syn) == Success(t) <==> ValidTestimonial(t, syn)
  {
    var i := TestimonialInputOf(t);
    assert BuildTestimonial(i) == t;
    if ValidTestimonial(t, syn) {
      assert forall f :: TestimonialFieldOk(i, syn, f);
    }
  }

  // ---------------------------------------------------------------------
  // Project
  // ---------------------------------------------------------------------

  datatype Project = Project(title: string, style: Option<string>, room: Option<string>,
                             budgetRange: Option<string>, durationWeeks: Option<int>,
                             description: Option<string>, beforeImageUrl: Option<string>,
                             afterImageUrl: Option<string>, gallery: Option<seq<string>>)

  datatype ProjectInput = ProjectInput(title: Field<string>, style: Field<string>, room: Field<string>,
                                       budgetRange: Field<string>, durationWeeks: Field<int>,
                                       description: Field<string>, beforeImageUrl: Field<string>,
                                       afterImageUrl: Field<string>, gallery: Field<seq<string>>)

  datatype ProjectField =
    Title | Style | Room | BudgetRange | DurationWeeks | Description | BeforeImageUrl | AfterImageUrl | Gallery

  const ProjectFields: seq<ProjectField> :=
    [ProjectField.Title, Style, Room, BudgetRange, DurationWeeks, ProjectField.Description, BeforeImageUrl, AfterImageUrl, Gallery]

  /** The position of each field in `ProjectFields`. */
  function ProjectFieldPos(f: ProjectField): (n: nat)
    ensures n < |ProjectFields| && ProjectFields[n] == f
  {
    match f
    case Title => 0
    case Style => 1
    case Room => 2
    case BudgetRange => 3
    case DurationWeeks => 4
    case Description => 5
    case BeforeImageUrl => 6
    case AfterImageUrl => 7
    case Gallery => 8
  }

  /** `duration_weeks >= 0` when present; every URL well-formed. */
  predicate ValidProject(p: Project, syn: Syntax)
  {
    && (p.durationWeeks.Some? ==> p.durationWeeks.value >= 0)
    && OptSyntaxOk(p.beforeImageUrl, syn.isUrl)
    && OptSyntaxOk(p.afterImageUrl, syn.isUrl)
    && OptUrlListOk(p.gallery, syn.isUrl)
  }

  /** Whether field `f` of a project body is acceptable. */
  predicate ProjectFieldOk(i: ProjectInput, syn: Syntax, f: ProjectField)
  {
    match f
    case Title => i.title.Given?
    case DurationWeeks => IntInRange(i.durationWeeks, 0, None)
    case BeforeImageUrl => SyntaxOk(i.beforeImageUrl, syn.isUrl)
    case AfterImageUrl => SyntaxOk(i.afterImageUrl, syn.isUrl)
    case Gallery => UrlListOk(i.gallery, syn.isUrl)
    case Style => true
    case Room => true
    case BudgetRange => true
    case Description => true
  }

  /** The errors reported for field `f` of a project body; a gallery reports each bad item. */
  function ProjectFieldErrors(i: ProjectInput, syn: Syntax, f: ProjectField): (errs: seq<FieldError<ProjectField>>)
    ensures errs == [] <==> ProjectFieldOk(i, syn, f)
    ensures forall e :: e in errs ==> e.field == f
  {
    match f
    case Title => RequiredErrors(f, i.title)
    case DurationWeeks => IntRangeErrors(f, i.durationWeeks, 0, None)
    case BeforeImageUrl => SyntaxErrors(f, i.beforeImageUrl, syn.isUrl, InvalidUrl)
    case AfterImageUrl => SyntaxErrors(f, i.afterImageUrl, syn.isUrl, InvalidUrl)
    case Gallery => UrlListErrors(f, i.gallery, syn.isUrl)
    case Style => []
    case Room => []
    case BudgetRange => []
    case Description => []
  }

  /** All errors of a project body, field by field in declaration order. */
  function ProjectErrors(i: ProjectInput, syn: Syntax): seq<FieldError<ProjectField>>
  {
    Collect(ProjectFields, f => ProjectFieldErrors(i, syn, f))
  }

  /** A body has no errors exactly when every field is acceptable. */
  lemma ProjectNoErrorsIff(i: ProjectInput, syn: Syntax)
    ensures ProjectErrors(i, syn) == [] <==> forall f :: ProjectFieldOk(i, syn, f)
  {
    var check := f => ProjectFieldErrors(i, syn, f);
    if ProjectErrors(i, syn) == [] {
      forall f ensures ProjectFieldOk(i, syn, f) {
        var n := ProjectFieldPos(f);
        assert check(ProjectFields[n]) == [];
      }
    } else {
      var n :| 0 <= n < |ProjectFields| && check(ProjectFields[n]) != [];
      assert !ProjectFieldOk(i, syn, ProjectFields[n]);
    }
  }

  /** Every reported error names a field that is not acceptable. */
  lemma ProjectErrorsSound(i: ProjectInput, syn: Syntax)
    ensures forall e :: e in ProjectErrors(i, syn) ==> !ProjectFieldOk(i, syn, e.field)
  {
    var check := f => ProjectFieldErrors(i, syn, f);
    forall e | e in ProjectErrors(i, syn) ensures !ProjectFieldOk(i, syn, e.field) {
      var n :| 0 <= n < |ProjectFields| && e in check(ProjectFields[n]);
      assert e in ProjectFieldErrors(i, syn, ProjectFields[n]);
    }
  }

  /** Every field that is not acceptable is reported. */
  lemma ProjectErrorsComplete(i: ProjectInput, syn: Syntax)
    ensures forall f :: !ProjectFieldOk(i, syn, f) ==> Reports(ProjectErrors(i, syn), f)
  {
    var check := f => ProjectFieldErrors(i, syn, f);
    forall f | !ProjectFieldOk(i, syn, f) ensures Reports(ProjectErrors(i, syn), f) {
      var n := ProjectFieldPos(f);
      var e := ProjectFieldErrors(i, syn, f)[0];
      assert e in check(ProjectFields[n]);
    }
  }

  /** Every error of a single field is among the collected errors. */
  lemma ProjectErrorsInclude(i: ProjectInput, syn: Syntax, f: ProjectField)
    ensures forall e :: e in ProjectFieldErrors(i, syn, f) ==> e in ProjectErrors(i, syn)
  {
    var n := ProjectFieldPos(f);
    assert ProjectFieldErrors(i, syn, f) == (g => ProjectFieldErrors(i, syn, g))(ProjectFields[n]);
  }

  /** Each gallery item that is not a well-formed URL is reported at its own position. */
  lemma ProjectGalleryReported(i: ProjectInput, syn: Syntax)
    ensures i.gallery.Given? ==> forall n :: 0 <= n < |i.gallery.value| && !syn.isUrl(i.gallery.value[n]) ==>
              FieldError(Gallery, Some(n), InvalidUrl) in ProjectErrors(i, syn)
  {
    if i.gallery.Given? {
      var items := UrlItemErrors(Gallery, i.gallery.value, syn.isUrl, 0);
      UrlItemErrorsComplete(Gallery, i.gallery.value, syn.isUrl, 0);
      assert ProjectFieldErrors(i, syn, Gallery) == items;
      ProjectErrorsInclude(i, syn, Gallery);
    }
  }

  /** The record an acceptable body denotes: the given values, and the defaults for the rest. */
  function BuildProject(i: ProjectInput): Project
    requires i.title.Given?
  {
    Project(i.title.value, OptOr(i.style, None), OptOr(i.room, None), OptOr(i.budgetRange, None),
            OptOr(i.durationWeeks, None), OptOr(i.description, None),
            OptOr(i.beforeImageUrl, None), OptOr(i.afterImageUrl, None),
            OptOr(i.gallery, Some([])))
  }

  /** The record built from an acceptable body satisfies the model's constraints. */
  lemma BuiltProjectValid(i: ProjectInput, syn: Syntax)
    requires forall f :: ProjectFieldOk(i, syn, f)
    ensures i.title.Given? && ValidProject(BuildProject(i), syn)
  {
    assert ProjectFieldOk(i, syn, ProjectField.Title) && ProjectFieldOk(i, syn, DurationWeeks)
           && ProjectFieldOk(i, syn, BeforeImageUrl) && ProjectFieldOk(i, syn, AfterImageUrl)
           && ProjectFieldOk(i, syn, Gallery);
  }

  /**
   * Validating construction of `Project`: only `title` is required,
   * `duration_weeks` may be absent but not negative, `gallery` defaults to
   * the empty list and each of its items must be a URL.
   */
  function ConstructProject(i: ProjectInput, syn: Syntax): (r: Result<Project, seq<FieldError<ProjectField>>>)
    ensures r.Success? <==> forall f :: ProjectFieldOk(i, syn, f)
    ensures r.Success? ==> ValidProject(r.value, syn)
    ensures r.Success? ==> i.title.Given? && r.value.title == i.title.value
    ensures r.Success? ==> r.value.style == OptOr(i.style, None) && r.value.room == OptOr(i.room, None)
                           && r.value.budgetRange == OptOr(i.budgetRange, None)
                           && r.value.description == OptOr(i.description, None)
    ensures r.Success? ==> r.value.durationWeeks == OptOr(i.durationWeeks, None)
    ensures r.Success? ==> r.value.beforeImageUrl == OptOr(i.beforeImageUrl, None)
                           && r.value.afterImageUrl == OptOr(i.afterImageUrl, None)
    ensures r.Success? ==> r.value.gallery == OptOr(i.gallery, Some([]))
    ensures i.durationWeeks.Given? && i.durationWeeks.value < 0 ==>
              r.Failure? && FieldError(DurationWeeks, None, GreaterThanEqual(0)) in r.error
    ensures i.gallery.Given? ==> forall n :: 0 <= n < |i.gallery.value| && !syn.isUrl(i.gallery.value[n]) ==>
              r.Failure? && FieldError(Gallery, Some(n), InvalidUrl) in r.error
    ensures r.Failure? ==> forall e :: e in r.error ==> !ProjectFieldOk(i, syn, e.field)
    ensures forall f :: !ProjectFieldOk(i, syn, f) ==> r.Failure? && Reports(r.error, f)
  {
    ProjectNoErrorsIff(i, syn);
    ProjectErrorsSound(i, syn);
    ProjectErrorsComplete(i, syn);
    ProjectErrorsInclude(i, syn, DurationWeeks);
    ProjectGalleryReported(i, syn);
    var errs := ProjectErrors(i, syn);
    if errs == [] then
      BuiltProjectValid(i, syn);
      Success(BuildProject(i))
    else
      Failure(errs)
  }

  /** The body that carries a project record unchanged. */
  function ProjectInputOf(p: Project): ProjectInput
  {
    ProjectInput(Given(p.title), FieldOf(p.style), FieldOf(p.room), FieldOf(p.budgetRange),
                 FieldOf(p.durationWeeks), FieldOf(p.description), FieldOf(p.beforeImageUrl),
                 FieldOf(p.afterImageUrl), FieldOf(p.gallery))
  }

  /** A project record is accepted back from its own body exactly when it is valid. */
  lemma ProjectRoundTrip(p: Project, syn: Syntax)
    ensures ConstructProject(ProjectInputOf(p), syn) == Success(p) <==> ValidProject(p, syn)
  {
    var i := ProjectInputOf(p);
    assert BuildProject(i) == p;
    if ValidProject(p, syn) {
      assert forall f :: ProjectFieldOk(i, syn, f);
    }
  }

  // ---------------------------------------------------------------------
  // Lead
  // ---------------------------------------------------------------------

  datatype Lead = Lead(name: string, email: string, phone: Option<string>, projectDetails: Option<string>,
                       preferredDate: Option<string>, source: Option<string>, consent: bool)

  datatype LeadInput = LeadInput(name: Field<string>, email: Field<string>, phone: Field<string>,
                                 projectDetails: Field<string>, preferredDate: Field<string>,
                                 source: Field<string>, consent: Field<bool>)

  datatype LeadField = Name | Email | Phone | ProjectDetails | PreferredDate | Source | Consent

  const LeadFields: seq<LeadField> := [LeadField.Name, LeadField.Email, Phone, ProjectDetails, PreferredDate, Source, Consent]

  /** The position of each field in `LeadFields`. */
  function LeadFieldPos(f: LeadField): (n: nat)
    ensures n < |LeadFields| && LeadFields[n] == f
  {
    match f
    case Name => 0
    case Email => 1
    case Phone => 2
    case ProjectDetails => 3
    case PreferredDate => 4
    case Source => 5
    case Consent => 6
  }

  const DefaultSource: string := "website"

  /** `email` well-formed; `preferred_date` a date-time when present. */
  predicate ValidLead(l: Lead, syn: Syntax)
  {
    syn.isEmail(l.email) && OptSyntaxOk(l.preferredDate, syn.isDatetime)
  }

  /** Whether field `f` of a lead body is acceptable. */
  predicate LeadFieldOk(i: LeadInput, syn: Syntax, f: LeadField)
  {
    match f
    case Name => i.name.Given?
    case Email => i.email.Given? && syn.isEmail(i.email.value)
    case PreferredDate => SyntaxOk(i.preferredDate, syn.isDatetime)
    case Consent => !i.consent.Null?
    case Phone => true
    case ProjectDetails => true
    case Source => true
  }

  /** The errors reported for field `f` of a lead body. */
  function LeadFieldErrors(i: LeadInput, syn: Syntax, f: LeadField): (errs: seq<FieldError<LeadField>>)
    ensures errs == [] <==> LeadFieldOk(i, syn, f)
    ensures forall e :: e in errs ==> e.field == f
  {
    match f
    case Name => RequiredErrors(f, i.name)
    case Email => RequiredErrors(f, i.email) + SyntaxErrors(f, i.email, syn.isEmail, InvalidEmail)
    case PreferredDate => SyntaxErrors(f, i.preferredDate, syn.isDatetime, InvalidDatetime)
    case Consent => NotNullErrors(f, i.consent)
    case Phone => []
    case ProjectDetails => []
    case Source => []
  }

  /** All errors of a lead body, field by field in declaration order. */
  function LeadErrors(i: LeadInput, syn: Syntax): seq<FieldError<LeadField>>
  {
    Collect(LeadFields, f => LeadFieldErrors(i, syn, f))
  }

  /** A body has no errors exactly when every field is acceptable. */
  lemma LeadNoErrorsIff(i: LeadInput, syn: Syntax)
    ensures LeadErrors(i, syn) == [] <==> forall f :: LeadFieldOk(i, syn, f)
  {
    var check := f => LeadFieldErrors(i, syn, f);
    if LeadErrors(i, syn) == [] {
      forall f ensures LeadFieldOk(i, syn, f) {
        var n := LeadFieldPos(f);
        assert check(LeadFields[n]) == [];
      }
    } else {
      var n :| 0 <= n < |LeadFields| && check(LeadFields[n]) != [];
      assert !LeadFieldOk(i, syn, LeadFields[n]);
    }
  }

  /** Every reported error names a field that is not acceptable. */
  lemma LeadErrorsSound(i: LeadInput, syn: Syntax)
    ensures forall e :: e in LeadErrors(i, syn) ==> !LeadFieldOk(i, syn, e.field)
  {
    var check := f => LeadFieldErrors(i, syn, f);
    forall e | e in LeadErrors(i, syn) ensures !LeadFieldOk(i, syn, e.field) {
      var n :| 0 <= n < |LeadFields| && e in check(LeadFields[n]);
      assert e in LeadFieldErrors(i, syn, LeadFields[n]);
    }
  }

  /** Every field that is not acceptable is reported. */
  lemma LeadErrorsComplete(i: LeadInput, syn: Syntax)
    ensures forall f :: !LeadFieldOk(i, syn, f) ==> Reports(LeadErrors(i, syn), f)
  {
    var check := f => LeadFieldErrors(i, syn, f);
    forall f | !LeadFieldOk(i, syn, f) ensures Reports(LeadErrors(i, syn), f) {
      var n := LeadFieldPos(f);
      var e := LeadFieldErrors(i, syn, f)[0];
      assert e in check(LeadFields[n]);
    }
  }

  /** Every error of a single field is among the collected errors. */
  lemma LeadErrorsInclude(i: LeadInput, syn: Syntax, f: LeadField)
    ensures forall e :: e in LeadFieldErrors(i, syn, f) ==> e in LeadErrors(i, syn)
  {
    var n := LeadFieldPos(f);
    assert LeadFieldErrors(i, syn, f) == (g => LeadFieldErrors(i, syn, g))(LeadFields[n]);
  }

  /** The record an acceptable body denotes: the given values, and the defaults for the rest. */
  function BuildLead(i: LeadInput): Lead
    requires i.name.Given? && i.email.Given?
  {
    Lead(i.name.value, i.email.value, OptOr(i.phone, None), OptOr(i.projectDetails, None),
         OptOr(i.preferredDate, None), OptOr(i.source, Some(DefaultSource)), Or(i.consent, true))
  }

  /** The record built from an acceptable body satisfies the model's constraints. */
  lemma BuiltLeadValid(i: LeadInput, syn: Syntax)
    requires forall f :: LeadFieldOk(i, syn, f)
    ensures i.name.Given? && i.email.Given? && ValidLead(BuildLead(i), syn)
  {
    assert LeadFieldOk(i, syn, LeadField.Name) && LeadFieldOk(i, syn, LeadField.Email) && LeadFieldOk(i, syn, PreferredDate);
  }

  /**
   * Validating construction of `Lead`: `name` and `email` are required,
   * `source` defaults to "website" and `consent` to true; `phone`,
   * `project_details` and `preferred_date` default to absent.
   */
  function ConstructLead(i: LeadInput, syn: Syntax): (r: Result<Lead, seq<FieldError<LeadField>>>)
    ensures r.Success? <==> forall f :: LeadFieldOk(i, syn, f)
    ensures r.Success? ==> ValidLead(r.value, syn)
    ensures r.Success? ==> i.name.Given? && i.email.Given?
    ensures r.Success? ==> r.value.name == i.name.value && r.value.email == i.email.value
    ensures r.Success? ==> r.value.phone == OptOr(i.phone, None)
                           && r.value.projectDetails == OptOr(i.projectDetails, None)
                           && r.value.preferredDate == OptOr(i.preferredDate, None)
    ensures r.Success? ==> r.value.source == OptOr(i.source, Some(DefaultSource))
    ensures r.Success? ==> r.value.consent == Or(i.consent, true)
    ensures i.email.Omitted? ==> r.Failure? && FieldError(LeadField.Email, None, Missing) in r.error
    ensures r.Failure? ==> forall e :: e in r.error ==> !LeadFieldOk(i, syn, e.field)
    ensures forall f :: !LeadFieldOk(i, syn, f) ==> r.Failure? && Reports(r.error, f)
  {
    LeadNoErrorsIff(i, syn);
    LeadErrorsSound(i, syn);
    LeadErrorsComplete(i, syn);
    LeadErrorsInclude(i, syn, LeadField.Email);
    var errs := LeadErrors(i, syn);
    if errs == [] then
      BuiltLeadValid(i, syn);
      Success(BuildLead(i))
    else
      Failure(errs)
  }

  /** The body that carries a lead record unchanged. */
  function LeadInputOf(l: Lead): LeadInput
  {
    LeadInput(Given(l.name), Given(l.email), FieldOf(l.phone), FieldOf(l.projectDetails),
              FieldOf(l.preferredDate), FieldOf(l.source), Given(l.consent))
  }

  /** A lead record is accepted back from its own body exactly when it is valid. */
  lemma LeadRoundTrip(l: Lead, syn: Syntax)
    ensures ConstructLead(LeadInputOf(l), syn) == Success(l) <==> ValidLead(l, syn)
  {
    var i := LeadInputOf(l);
    assert BuildLead(i) == l;
    if ValidLead(l, syn) {
      assert forall f :: LeadFieldOk(i, syn, f);
    }
  }

  // ---------------------------------------------------------------------
  // BlogPost
  // ---------------------------------------------------------------------

  datatype BlogPost = BlogPost(title: string, slug: string, excerpt: Option<string>, content: string,
                               coverImageUrl: Option<string>, keywords: Option<seq<string>>, published: bool)

  datatype BlogPostInput = BlogPostInput(title: Field<string>, slug: Field<string>, excerpt: Field<string>,
                                         content: Field<string>, coverImageUrl: Field<string>,
                                         keywords: Field<seq<string>>, published: Field<bool>)

  datatype BlogPostField = Title | Slug | Excerpt | Content | CoverImageUrl | Keywords | Published

  const BlogPostFields: seq<BlogPostField> := [BlogPostField.Title, Slug, Excerpt, Content, CoverImageUrl, Keywords, Published]

  /** The position of each field in `BlogPostFields`. */
  function BlogPostFieldPos(f: BlogPostField): (n: nat)
    ensures n < |BlogPostFields| && BlogPostFields[n] == f
  {
    match f
    case Title => 0
    case Slug => 1
    case Excerpt => 2
    case Content => 3
    case CoverImageUrl => 4
    case Keywords => 5
    case Published => 6
  }

  /** `cover_image_url` well-formed when present. */
  predicate ValidBlogPost(b: BlogPost, syn: Syntax)
  {
    OptSyntaxOk(b.coverImageUrl, syn.isUrl)
  }

  /** Whether field `f` of a blog-post body is acceptable. */
  predicate BlogPostFieldOk(i: BlogPostInput, syn: Syntax, f: BlogPostField)
  {
    match f
    case Title => i.title.Given?
    case Slug => i.slug.Given?
    case Content => i.content.Given?
    case CoverImageUrl => SyntaxOk(i.coverImageUrl, syn.isUrl)
    case Published => !i.published.Null?
    case Excerpt => true
    case Keywords => true
  }

  /** The errors reported for field `f` of a blog-post body. */
  function BlogPostFieldErrors(i: BlogPostInput, syn: Syntax, f: BlogPostField): (errs: seq<FieldError<BlogPostField>>)
    ensures errs == [] <==> BlogPostFieldOk(i, syn, f)
    ensures forall e :: e in errs ==> e.field == f
  {
    match f
    case Title => RequiredErrors(f, i.title)
    case Slug => RequiredErrors(f, i.slug)
    case Content => RequiredErrors(f, i.content)
    case CoverImageUrl => SyntaxErrors(f, i.coverImageUrl, syn.isUrl, InvalidUrl)
    case Published => NotNullErrors(f, i.published)
    case Excerpt => []
    case Keywords => []
  }

  /** All errors of a blog-post body, field by field in declaration order. */
  function BlogPostErrors(i: BlogPostInput, syn: Syntax): seq<FieldError<BlogPostField>>
  {
    Collect(BlogPostFields, f => BlogPostFieldErrors(i, syn, f))
  }

  /** A body has no errors exactly when every field is acceptable. */
  lemma BlogPostNoErrorsIff(i: BlogPostInput, syn: Syntax)
    ensures BlogPostErrors(i, syn) == [] <==> forall f :: BlogPostFieldOk(i, syn, f)
  {
    var check := f => BlogPostFieldErrors(i, syn, f);
    if BlogPostErrors(i, syn) == [] {
      forall f ensures BlogPostFieldOk(i, syn, f) {
        var n := BlogPostFieldPos(f);
        assert check(BlogPostFields[n]) == [];
      }
    } else {
      var n :| 0 <= n < |BlogPostFields| && check(BlogPostFields[n]) != [];
      assert !BlogPostFieldOk(i, syn, BlogPostFields[n]);
    }
  }

  /** Every reported error names a field that is not acceptable. */
  lemma BlogPostErrorsSound(i: BlogPostInput, syn: Syntax)
    ensures forall e :: e in BlogPostErrors(i, syn) ==> !BlogPostFieldOk(i, syn, e.field)
  {
    var check := f => BlogPostFieldErrors(i, syn, f);
    forall e | e in BlogPostErrors(i, syn) ensures !BlogPostFieldOk(i, syn, e.field) {
      var n :| 0 <= n < |BlogPostFields| && e in check(BlogPostFields[n]);
      assert e in BlogPostFieldErrors(i, syn, BlogPostFields[n]);
    }
  }

  /** Every field that is not acceptable is reported. */
  lemma BlogPostErrorsComplete(i: BlogPostInput, syn: Syntax)
    ensures forall f :: !BlogPostFieldOk(i, syn, f) ==> Reports(BlogPostErrors(i, syn), f)
  {
    var check := f => BlogPostFieldErrors(i, syn, f);
    forall f | !BlogPostFieldOk(i, syn, f) ensures Reports(BlogPostErrors(i, syn), f) {
      var n := BlogPostFieldPos(f);
      var e := BlogPostFieldErrors(i, syn, f)[0];
      assert e in check(BlogPostFields[n]);
    }
  }

  /** Every error of a single field is among the collected errors. */
  lemma BlogPostErrorsInclude(i: BlogPostInput, syn: Syntax, f: BlogPostField)
    ensures forall e :: e in BlogPostFieldErrors(i, syn, f) ==> e in BlogPostErrors(i, syn)
  {
    var n := BlogPostFieldPos(f);
    assert BlogPostFieldErrors(i, syn, f) == (g => BlogPostFieldErrors(i, syn, g))(BlogPostFields[n]);
  }

  /** The record an acceptable body denotes: the given values, and the defaults for the rest. */
  function BuildBlogPost(i: BlogPostInput): BlogPost
    requires i.title.Given? && i.slug.Given? && i.content.Given?
  {
    BlogPost(i.title.value, i.slug.value, OptOr(i.excerpt, None), i.content.value,
             OptOr(i.coverImageUrl, None), OptOr(i.keywords, Some([])), Or(i.published, true))
  }

  /** The record built from an acceptable body satisfies the model's constraints. */
  lemma BuiltBlogPostValid(i: BlogPostInput, syn: Syntax)
    requires forall f :: BlogPostFieldOk(i, syn, f)
    ensures i.title.Given? && i.slug.Given? && i.content.Given? && ValidBlogPost(BuildBlogPost(i), syn)
  {
    assert BlogPostFieldOk(i, syn, BlogPostField.Title) && BlogPostFieldOk(i, syn, Slug) && BlogPostFieldOk(i, syn, Content)
           && BlogPostFieldOk(i, syn, CoverImageUrl);
  }

  /**
   * Validating construction of `BlogPost`: `title`, `slug` and `content` are
   * required, `published` defaults to true and `keywords` to the empty list.
   */
  function ConstructBlogPost(i: BlogPostInput, syn: Syntax): (r: Result<BlogPost, seq<FieldError<BlogPostField>>>)
    ensures r.Success? <==> forall f :: BlogPostFieldOk(i, syn, f)
    ensures r.Success? ==> ValidBlogPost(r.value, syn)
    ensures r.Success? ==> i.title.Given? && i.slug.Given? && i.content.Given?
    ensures r.Success? ==> r.value.title == i.title.value && r.value.slug == i.slug.value
                           && r.value.content == i.content.value
    ensures r.Success? ==> r.value.excerpt == OptOr(i.excerpt, None)
                           && r.value.coverImageUrl == OptOr(i.coverImageUrl, None)
    ensures r.Success? ==> r.value.keywords == OptOr(i.keywords, Some([]))
    ensures r.Success? ==> r.value.published == Or(i.published, true)
    ensures i.slug.Omitted? ==> r.Failure? && FieldError(Slug, None, Missing) in r.error
    ensures i.content.Omitted? ==> r.Failure? && FieldError(Content, None, Missing) in r.error
    ensures r.Failure? ==> forall e :: e in r.error ==> !BlogPostFieldOk(i, syn, e.field)
    ensures forall f :: !BlogPostFieldOk(i, syn, f) ==> r.Failure? && Reports(r.error, f)
  {
    BlogPostNoErrorsIff(i, syn);
    BlogPostErrorsSound(i, syn);
    BlogPostErrorsComplete(i, syn);
    BlogPostErrorsInclude(i, syn, Slug);
    BlogPostErrorsInclude(i, syn, Content);
    var errs := BlogPostErrors(i, syn);
    if errs == [] then
      BuiltBlogPostValid(i, syn);
      Success(BuildBlogPost(i))
    else
      Failure(errs)
  }

  /** The body that carries a blog-post record unchanged. */
  function BlogPostInputOf(b: BlogPost): BlogPostInput
  {
    BlogPostInput(Given(b.title), Given(b.slug), FieldOf(b.excerpt), Given(b.content),
                  FieldOf(b.coverImageUrl), FieldOf(b.keywords), Given(b.published))
  }

  /** A blog-post record is accepted back from its own body exactly when it is valid. */
  lemma BlogPostRoundTrip(b: BlogPost, syn: Syntax)
    ensures ConstructBlogPost(BlogPostInputOf(b), syn) == Success(b) <==> ValidBlogPost(b, syn)
  {
    var i := BlogPostInputOf(b);
    assert BuildBlogPost(i) == b;
    if ValidBlogPost(b, syn) {
      assert forall f :: BlogPostFieldOk(i, syn, f);
    }
  }
}
