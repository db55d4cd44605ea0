/**
 * The product store: the catalogue, its featured part, and the browsing
 * fields (loading flag, last error, search text, chosen category).
 */
module ProductSlice {
  import opened Wrappers
  import opened Seqs
  import opened Types

  /** A snapshot of every field of the product store. */
  datatype ProductState = ProductState(
    products: seq<Product>,
    featuredProducts: seq<Product>,
    loading: bool,
    error: Option<string>,
    searchQuery: string,
    selectedCategory: string)

  /** The state the store starts in. */
  function InitialProductState(): ProductState
  {
    ProductState([], [], false, None, "", "All")
  }

  predicate IsFeatured(p: Product) { p.featured }

  /** The featured products of `ps`, in catalogue order. */
  function Featured(ps: seq<Product>): (r: seq<Product>)
    ensures forall i :: 0 <= i < |r| ==> r[i].featured
  {
    Filter(ps, IsFeatured)
  }

  /** The featured list is the one derived from the catalogue. */
  predicate FeaturedInSync(s: ProductState)
  {
    s.featuredProducts == Featured(s.products)
  }

  class ProductStore {
    var products: seq<Product>
    var featuredProducts: seq<Product>
    var loading: bool
    var error: Option<string>
    var searchQuery: string
    var selectedCategory: string

    function State(): ProductState
      reads this
    {
      ProductState(products, featuredProducts, loading, error, searchQuery, selectedCategory)
    }

    constructor ()
      ensures State() == InitialProductState()
      ensures FeaturedInSync(State())
    {
      products, featuredProducts := [], [];
      loading, error := false, None;
      searchQuery, selectedCategory := "", "All";
    }

    method SetProducts(ps: seq<Product>)
      modifies this
      ensures State() == old(State()).(products := ps, featuredProducts := Featured(ps))
      ensures old(FeaturedInSync(State())) ==> FeaturedInSync(State())
    {
      products := ps;
      featuredProducts := Featured(ps);
    }

    method SetLoading(b: bool)
      modifies this
      ensures State() == old(State()).(loading := b)
      ensures old(FeaturedInSync(State())) ==> FeaturedInSync(State())
    {
      loading := b;
    }

    method SetError(e: Option<string>)
      modifies this
      ensures State() == old(State()).(error := e)
      ensures old(FeaturedInSync(State())) ==> FeaturedInSync(State())
    {
      error := e;
    }

    method SetSearchQuery(q: string)
      modifies this
      ensures State() == old(State()).(searchQuery := q)
      ensures old(FeaturedInSync(State())) ==> FeaturedInSync(State())
    {
      searchQuery := q;
    }

    method SetSelectedCategory(c: string)
      modifies this
      ensures State() == old(State()).(selectedCategory := c)
      ensures old(FeaturedInSync(State())) ==> FeaturedInSync(State())
    {
      selectedCategory := c;
    }
  }

  /**
   * The featured list holds exactly the featured products of the catalogue,
   * each as often as there, in catalogue order.
   */
  lemma FeaturedIsOrderedFilter(ps: seq<Product>)
    ensures IsSubsequence(Featured(ps), ps)
    ensures forall p: Product :: multiset(Featured(ps))[p] == if p.featured then multiset(ps)[p] else 0
  {
    FilterIsSubsequence(ps, IsFeatured);
    forall p: Product
      ensures multiset(Featured(ps))[p] == if p.featured then multiset(ps)[p] else 0
    {
      FilterCounts(ps, IsFeatured, p);
    }
  }

  /**
   * The record-level form of the invariant the store's constructor and
   * setters keep: the initial state and each setter's update leave the
   * featured list derived from the catalogue.
   */
  lemma FeaturedStaysInSync(s: ProductState, ps: seq<Product>, b: bool, e: Option<string>, q: string, c: string)
    requires FeaturedInSync(s)
    ensures FeaturedInSync(InitialProductState())
    ensures FeaturedInSync(s.(products := ps, featuredProducts := Featured(ps)))
    ensures FeaturedInSync(s.(loading := b))
    ensures FeaturedInSync(s.(error := e))
    ensures FeaturedInSync(s.(searchQuery := q))
    ensures FeaturedInSync(s.(selectedCategory := c))
  {
  }

  /**
   * Each setter applied twice with one payload has the effect of applying it
   * once: the record-level form of two calls of a setter, since each setter's
   * postcondition gives the new state as the old one with its field replaced.
   */
  lemma SettersIdempotent(s: ProductState, ps: seq<Product>, b: bool, e: Option<string>, q: string, c: string)
    ensures s.(products := ps, featuredProducts := Featured(ps)).(products := ps, featuredProducts := Featured(ps))
         == s.(products := ps, featuredProducts := Featured(ps))
    ensures s.(loading := b).(loading := b) == s.(loading := b)
    ensures s.(error := e).(error := e) == s.(error := e)
    ensures s.(searchQuery := q).(searchQuery := q) == s.(searchQuery := q)
    ensures s.(selectedCategory := c).(selectedCategory := c) == s.(selectedCategory := c)
  {
  }
}
