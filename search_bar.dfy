/** The search box with its results dropdown (src/components/SearchBar.tsx):
    the filtering effect, the open/close rules of the dropdown and what it
    shows. The query itself belongs to the parent; the handlers hand back
    the value they pass to `onSearchChange`. */
module SearchBar {
  import opened Common
  import opened Text
  import opened Types
  import IndexPage

  const MaxResults: nat := 8

  /** A product matches the lower-cased query by name, category or
      description; the last two only when present. */
  predicate SearchBarMatches(p: Product, lowerQuery: string)
  {
    Contains(Lower(p.name), lowerQuery) ||
    (p.category.Some? && Contains(Lower(p.category.value), lowerQuery)) ||
    (p.description.Some? && Contains(Lower(p.description.value), lowerQuery))
  }

  /** The dropdown matches everything the catalog filter matches, and
      more: it also looks at the description. */
  lemma CatalogMatchImpliesSearchBarMatch(p: Product, lowerQuery: string)
    ensures IndexPage.CatalogMatches(p, lowerQuery) ==> SearchBarMatches(p, lowerQuery)
    ensures SearchBarMatches(p, lowerQuery) && !IndexPage.CatalogMatches(p, lowerQuery) ==>
      p.description.Some? && Contains(Lower(p.description.value), lowerQuery)
  {
  }

  /** Every product matching the lower-cased query, in input order, each
      as often as it occurs: the `filter` before the `slice`. */
  function AllMatches(allProducts: seq<Product>, lowerQuery: string): (r: seq<Product>)
    ensures forall p :: p in r <==> p in allProducts && SearchBarMatches(p, lowerQuery)
    ensures forall p :: multiset(r)[p] == if SearchBarMatches(p, lowerQuery) then multiset(allProducts)[p] else 0
    ensures IsSubsequence(r, allProducts)
  {
    var matches := (p: Product) => SearchBarMatches(p, lowerQuery);
    FilterMembers(allProducts, matches);
    FilterIsSubsequence(allProducts, matches);
    forall p ensures multiset(Filter(allProducts, matches))[p] == if matches(p) then multiset(allProducts)[p] else 0 {
      FilterMultiplicity(allProducts, matches, p);
    }
    Filter(allProducts, matches)
  }

  /** The results of the effect: none for a query that trims to nothing;
      otherwise the first eight matches of the untrimmed, lower-cased query,
      in input order. */
  function SearchResults(allProducts: seq<Product>, searchQuery: string): (r: seq<Product>)
    ensures IsBlank(searchQuery) ==> r == []
    ensures !IsBlank(searchQuery) ==> |r| == Min(MaxResults, |AllMatches(allProducts, Lower(searchQuery))|)
    ensures !IsBlank(searchQuery) ==> r == AllMatches(allProducts, Lower(searchQuery))[..|r|]
    ensures |r| <= MaxResults
    ensures IsSubsequence(r, allProducts)
    ensures forall p :: p in r ==> p in allProducts && SearchBarMatches(p, Lower(searchQuery))
    ensures !IsBlank(searchQuery) && |r| < MaxResults ==>
      forall p :: p in allProducts && SearchBarMatches(p, Lower(searchQuery)) ==> p in r
  {
    TrimEmptyIffBlank(searchQuery);
    if Trim(searchQuery) == [] then
      assert IsSubsequence([], allProducts);
      []
    else
      var matches := AllMatches(allProducts, Lower(searchQuery));
      var r := Take(matches, MaxResults);
      PrefixIsSubsequence(matches, |r|);
      SubsequenceTransitive(r, matches, allProducts);
      r
  }

  /** With no products to search, as on the catalog page whose header
      passes none, a search never yields a result. */
  lemma NoProductsNoResults(searchQuery: string)
    ensures SearchResults([], searchQuery) == []
  {
  }

  /** The results list shows when the dropdown is open and there is
      something to list. */
  predicate ShowsResultList(isOpen: bool, results: seq<Product>)
  {
    isOpen && |results| > 0
  }

  /** The "no products found" note. */
  predicate ShowsNoResultsNote(isOpen: bool, searchQuery: string, results: seq<Product>)
  {
    isOpen && searchQuery != "" && |results| == 0
  }

  /** The list and the note never show together; when the dropdown is
      open for a non-empty query, exactly one of them does. */
  lemma ListAndNoteExclusive(isOpen: bool, searchQuery: string, results: seq<Product>)
    ensures !(ShowsResultList(isOpen, results) && ShowsNoResultsNote(isOpen, searchQuery, results))
    ensures isOpen && searchQuery != "" ==>
      ShowsResultList(isOpen, results) || ShowsNoResultsNote(isOpen, searchQuery, results)
  {
  }

  /** The dropdown's own state. */
  class Dropdown {
    var isOpen: bool
    var filteredProducts: seq<Product>

    constructor()
      ensures !isOpen && filteredProducts == []
    {
      isOpen := false;
      filteredProducts := [];
    }

    /** The effect that runs when the query or the product list changes:
        a non-blank query fills the results and opens the dropdown, a
        blank one empties them and closes it. */
    method OnQueryChanged(searchQuery: string, allProducts: seq<Product>)
      modifies this
      ensures filteredProducts == SearchResults(allProducts, searchQuery)
      ensures isOpen <==> !IsBlank(searchQuery)
    {
      TrimEmptyIffBlank(searchQuery);
      if Trim(searchQuery) != [] {
        filteredProducts := Take(AllMatches(allProducts, Lower(searchQuery)), MaxResults);
        isOpen := true;
      } else {
        filteredProducts := [];
        isOpen := false;
      }
    }

    /** Focusing the box reopens the dropdown only for a non-empty query. */
    method OnFocus(searchQuery: string)
      modifies this
      ensures isOpen == (old(isOpen) || searchQuery != "")
      ensures filteredProducts == old(filteredProducts)
    {
      if searchQuery != "" {
        isOpen := true;
      }
    }

    /** `handleProductClick`: navigates to the product, clears the query
        and closes the dropdown. */
    method HandleProductClick(productId: int) returns (route: int, newQuery: string)
      modifies this
      ensures route == productId && newQuery == ""
      ensures !isOpen && filteredProducts == old(filteredProducts)
    {
      route := productId;
      newQuery := "";
      isOpen := false;
    }

    /** `handleClearSearch`: clears the query and closes the dropdown. */
    method HandleClearSearch() returns (newQuery: string)
      modifies this
      ensures newQuery == ""
      ensures !isOpen && filteredProducts == old(filteredProducts)
    {
      newQuery := "";
      isOpen := false;
    }
  }

  /** Once the parent passes the cleared query back, the effect keeps the
      dropdown closed and empties it. */
  lemma ClearedQueryClosesDropdown(allProducts: seq<Product>)
    ensures SearchResults(allProducts, "") == []
    ensures IsBlank("")
  {
  }
}
