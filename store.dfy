/**
 * The document store as the write paths see it: `create_document` appends
 * a validated record to a named collection and answers the new document's
 * identifier, or raises the store's error. The store's own code is not
 * part of this model; it is described here only by its effect, an ordered
 * log of inserts, and by a script of the answers it will give to the next
 * inserts (so that a failure can happen at any call, and its effect on the
 * callers can be stated).
 */
module Store {
  import opened Common
  import opened Collections
  import opened Schemas

  /** A validated record handed to the store. */
  datatype Entry =
    | ProductEntry(product: Product)
    | TestimonialEntry(testimonial: Testimonial)
    | ProjectEntry(project: Project)
    | BlogPostEntry(post: BlogPost)
    | LeadEntry(lead: Lead)

  /** The collection a record belongs in. */
  function CollectionOf(e: Entry): Collection
  {
    match e
    case ProductEntry(_) => Products
    case TestimonialEntry(_) => Testimonials
    case ProjectEntry(_) => Projects
    case BlogPostEntry(_) => BlogPosts
    case LeadEntry(_) => Leads
  }

  /** Every insert of `log` went to the collection its record belongs in. */
  predicate WellFiled(log: seq<(string, Entry)>)
  {
    forall n :: 0 <= n < |log| ==> log[n].0 == CollectionName(CollectionOf(log[n].1))
  }

  // ---------------------------------------------------------------------
  // The script of the store's answers
  // ---------------------------------------------------------------------

  /** The store's answer to insert number `n`: its error, or None when the insert succeeds (always, past the end of the script). */
  function Fault(outcomes: seq<Option<string>>, n: nat): Option<string>
  {
    if n < |outcomes| then outcomes[n] else None
  }

  /** How many of the `k` inserts numbered from `from` succeed before the first one that fails. */
  function Succeeding(outcomes: seq<Option<string>>, from: nat, k: nat): (m: nat)
    ensures m <= k
    decreases k
  {
    if k == 0 || Fault(outcomes, from).Some? then 0 else 1 + Succeeding(outcomes, from + 1, k - 1)
  }

  /**
   * After `n` inserts that all succeeded, the next answer decides the run
   * of `k > n` inserts: a failure ends it at `n`, a success extends it.
   */
  lemma {:induction false} SucceedingStep(outcomes: seq<Option<string>>, from: nat, n: nat, k: nat)
    requires Succeeding(outcomes, from, n) == n && n < k
    ensures Fault(outcomes, from + n).Some? ==> Succeeding(outcomes, from, k) == n
    ensures Fault(outcomes, from + n).None? ==> Succeeding(outcomes, from, n + 1) == n + 1
    decreases n
  {
    if n > 0 {
      SucceedingStep(outcomes, from + 1, n - 1, k - 1);
    }
  }

  /**
   * A run of `a + b` inserts whose first `a` succeed goes on as the run of
   * the `b` inserts after them does.
   */
  lemma {:induction false} SucceedingAfter(outcomes: seq<Option<string>>, from: nat, a: nat, b: nat)
    requires Succeeding(outcomes, from, a) == a
    ensures Succeeding(outcomes, from, a + b) == a + Succeeding(outcomes, from + a, b)
    decreases a
  {
    if a > 0 {
      SucceedingAfter(outcomes, from + 1, a - 1, b);
    }
  }

  /** Once a run stops early, running longer does not change where it stops. */
  lemma {:induction false} SucceedingSame(outcomes: seq<Option<string>>, from: nat, b: nat, total: nat)
    requires b <= total && Succeeding(outcomes, from, b) < b
    ensures Succeeding(outcomes, from, total) == Succeeding(outcomes, from, b)
    decreases b
  {
    if Fault(outcomes, from).None? {
      SucceedingSame(outcomes, from + 1, b - 1, total - 1);
    }
  }

  /** When a run stops early, the answer where it stops is a failure. */
  lemma {:induction false} SucceedingStops(outcomes: seq<Option<string>>, from: nat, k: nat)
    requires Succeeding(outcomes, from, k) < k
    ensures Fault(outcomes, from + Succeeding(outcomes, from, k)).Some?
    decreases k
  {
    if Fault(outcomes, from).None? {
      SucceedingStops(outcomes, from + 1, k - 1);
    }
  }

  /**
   * The store: the inserts made so far, in order, the answers it gives to
   * inserts (scripted up front), and how many inserts it has been asked for.
   */
  class DocumentStore {
    var inserts: seq<(string, Entry)>
    const outcomes: seq<Option<string>>
    var calls: nat

    constructor (outcomes: seq<Option<string>>)
      ensures this.outcomes == outcomes && inserts == [] && calls == 0
    {
      this.outcomes := outcomes;
      inserts := [];
      calls := 0;
    }

    /**
     * `create_document(collection, record)`: appends the record and answers
     * its identifier (here its position in the log), or fails without
     * writing anything.
     */
    method CreateDocument(collection: string, entry: Entry) returns (r: Result<nat, string>)
      modifies this
      ensures calls == old(calls) + 1
      ensures Fault(outcomes, old(calls)).None? ==>
                r == Success(|old(inserts)|) && inserts == old(inserts) + [(collection, entry)]
      ensures Fault(outcomes, old(calls)).Some? ==>
                r == Failure(Fault(outcomes, old(calls)).value) && inserts == old(inserts)
    {
      var fault := Fault(outcomes, calls);
      calls := calls + 1;
      if fault.Some? {
        return Failure(fault.value);
      }
      r := Success(|inserts|);
      inserts := inserts + [(collection, entry)];
    }
  }
}
