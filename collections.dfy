/**
 * The collections the handlers read and write, and the names they pass to
 * the store: the schema class name in lower case, so the blog-post
 * collection is "blogpost".
 */
module Collections {

  /** The collections the routes use. */
  datatype Collection = Products | Projects | Testimonials | BlogPosts | Leads

  /** The schema class whose records a collection holds. */
  function SchemaClassName(c: Collection): string
  {
    match c
    case Products => "Product"
    case Projects => "Project"
    case Testimonials => "Testimonial"
    case BlogPosts => "BlogPost"
    case Leads => "Lead"
  }

  /** ASCII lower-casing of one character. */
  function LowerChar(ch: char): char
  {
    if 'A' <= ch <= 'Z' then (ch as int + 32) as char else ch
  }

  /** ASCII lower-casing, character by character. */
  function LowerCase(s: string): (t: string)
    ensures |t| == |s|
    ensures forall k :: 0 <= k < |s| ==> t[k] == LowerChar(s[k])
  {
    seq(|s|, k requires 0 <= k < |s| => LowerChar(s[k]))
  }

  /**
   * The collection name the handlers pass to the store: the schema class
   * name in lower case, never empty.
   */
  function CollectionName(c: Collection): (name: string)
    ensures name == LowerCase(SchemaClassName(c))
    ensures name != []
  {
    match c
    case Products => "product"
    case Projects => "project"
    case Testimonials => "testimonial"
    case BlogPosts => "blogpost"
    case Leads => "lead"
  }

  /** Different collections have different names, so no two routes share a collection by accident. */
  lemma NamesDistinct(a: Collection, b: Collection)
    ensures CollectionName(a) == CollectionName(b) ==> a == b
  {
  }
}
