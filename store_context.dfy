/**
 * src/context/StoreContext.tsx: the catalog snapshot, its refresh, and the views derived from it
 * (lookup by category id, case-insensitive substring search).
 */
module StoreContext {
  import opened Wrappers
  import opened Text
  import opened Types
  import opened Seqs
  import StoreApi

  const CATALOG_ERROR: string := "Erro ao carregar catálogo"

  /** getProductsByCategory(categoryId): [] without a catalog, else the index entry or []. */
  function GetProductsByCategory(catalog: Option<Catalog>, categoryId: string): (r: seq<Product>)
    ensures catalog.None? ==> r == []
    ensures catalog.Some? && categoryId !in catalog.value.productsByCategory ==> r == []
    ensures catalog.Some? && categoryId in catalog.value.productsByCategory ==>
              r == catalog.value.productsByCategory[categoryId]
  {
    match catalog
    case None => []
    case Some(c) => StoreApi.IndexEntry(c, categoryId)
  }

  /** The lower-cased query occurs in the product's lower-cased name, description or short
      description. */
  predicate Matches(p: Product, lowerQuery: string) {
    Contains(ToLower(p.name), lowerQuery) ||
    Contains(ToLower(p.description), lowerQuery) ||
    (p.shortDescription.Some? && Contains(ToLower(p.shortDescription.value), lowerQuery))
  }

  /** searchProducts: [] without a catalog or for a blank query; otherwise exactly the products
      that match the lower-cased, trimmed query, in catalog order. */
  function SearchProducts(catalog: Option<Catalog>, query: string): (r: seq<Product>)
    ensures catalog.None? || AllSpace(query) ==> r == []
    ensures catalog.Some? && !AllSpace(query) ==>
              IsSubsequence(r, catalog.value.products) &&
              forall p :: p in r <==> p in catalog.value.products && Matches(p, Trim(ToLower(query)))
  {
    if catalog.None? || Trim(query) == "" then []
    else MatchingProducts(catalog.value.products, Trim(ToLower(query)))
  }

  /** The products, in order, that match an already lower-cased query. */
  function MatchingProducts(products: seq<Product>, lowerQuery: string): (r: seq<Product>)
    ensures IsSubsequence(r, products)
    ensures forall p :: p in r <==> p in products && Matches(p, lowerQuery)
  {
    Filter(products, p => Matches(p, lowerQuery))
  }

  /** The search does not depend on the case of the query. */
  lemma SearchIgnoresQueryCase(catalog: Option<Catalog>, query: string)
    ensures SearchProducts(catalog, ToLower(query)) == SearchProducts(catalog, query)
  {
    ToLowerIdempotent(query);
    ToLowerAllSpace(query);
    assert Trim(ToLower(ToLower(query))) == Trim(ToLower(query));
  }

  /** err.message || 'Erro ao carregar catálogo' */
  function CatalogErrorMessage(e: ApiError): (msg: string)
    ensures msg != ""
    ensures e.message != "" ==> msg == e.message
    ensures e.message == "" ==> msg == CATALOG_ERROR
  {
    if e.message != "" then e.message else CATALOG_ERROR
  }

  /** The provider's state: the last catalog snapshot and the store record taken from it. */
  class StoreState {
    var store: Option<Store>
    var catalog: Option<Catalog>
    var isLoading: bool
    var error: Option<string>

    /** The store shown is always the one of the catalog shown: both come from one response. */
    ghost predicate Valid()
      reads this
    {
      catalog.Some? ==> store == Some(catalog.value.store)
    }

    /** Mount: nothing loaded yet, loading. */
    constructor ()
      ensures Valid()
      ensures store == None && catalog == None && isLoading && error == None
    {
      store, catalog, isLoading, error := None, None, true, None;
    }

    /** fetchCatalog: a successful fetch replaces catalog and store together and clears the
        error; a failed one keeps the previous snapshot and records the message. */
    method FetchCatalog(response: Remote<Catalog>)
      requires Valid()
      modifies this
      ensures Valid()
      ensures !isLoading
      ensures response.Ok? ==>
                catalog == Some(response.value) && store == Some(response.value.store) && error == None
      ensures response.Err? ==>
                catalog == old(catalog) && store == old(store) &&
                error == Some(CatalogErrorMessage(response.error))
    {
      isLoading := true;
      error := None;
      match response {
        case Ok(data) =>
          catalog := Some(data);
          store := Some(data.store);
        case Err(e) =>
          error := Some(if e.message != "" then e.message else CATALOG_ERROR);
      }
      isLoading := false;
    }

    function Categories(): (r: seq<Category>)
      reads this
      ensures catalog.Some? ==> r == catalog.value.categories
      ensures catalog.None? ==> r == []
    {
      if catalog.Some? then catalog.value.categories else []
    }

    function Products(): (r: seq<Product>)
      reads this
      ensures catalog.Some? ==> r == catalog.value.products
      ensures catalog.None? ==> r == []
    {
      if catalog.Some? then catalog.value.products else []
    }

    function Combos(): (r: seq<Combo>)
      reads this
      ensures catalog.Some? ==> r == catalog.value.combos
      ensures catalog.None? ==> r == []
    {
      if catalog.Some? then catalog.value.combos else []
    }

    function FeaturedProducts(): (r: seq<Product>)
      reads this
      ensures catalog.Some? ==> r == catalog.value.featuredProducts
      ensures catalog.None? ==> r == []
    {
      if catalog.Some? then catalog.value.featuredProducts else []
    }

    function ProductsByCategory(): (r: map<string, seq<Product>>)
      reads this
      ensures catalog.Some? ==> r == catalog.value.productsByCategory
      ensures catalog.None? ==> r == map[]
    {
      if catalog.Some? then catalog.value.productsByCategory else map[]
    }

    /** Without a catalog every derived view is empty, whatever is asked. */
    lemma NoCatalogNoData(categoryId: string, query: string)
      requires catalog.None?
      ensures Categories() == [] && Products() == [] && Combos() == [] && FeaturedProducts() == []
      ensures ProductsByCategory() == map[]
      ensures GetProductsByCategory(catalog, categoryId) == [] && SearchProducts(catalog, query) == []
    {
    }
  }
}
