/** The catalog page (src/pages/Index.tsx): the header's category list and
    the product pipeline that flattens the catalog, filters it by search
    query and price window, sorts it and groups it by category name under
    each category id; then which sections render. */
module IndexPage {
  import opened Common
  import opened Text
  import opened Types
  import opened Header

  // ---------------------------------------------------------------------
  // Header categories

  function HeaderEntry(cat: CategoryRes): Category
  {
    Category(cat.id, cat.name, cat.description)
  }

  /** A category with at least one product. */
  predicate HasProducts(cat: CategoryRes)
  {
    |cat.products| > 0
  }

  /** `categories_header`: the categories that have at least one product,
      in catalog order, without their products. */
  function CategoriesHeader(categories: Option<seq<CategoryRes>>): (r: seq<Category>)
    ensures categories.None? ==> r == []
    ensures categories.Some? ==> |r| <= |categories.value|
    ensures categories.Some? ==> r == Project(Filter(categories.value, HasProducts))
    ensures categories.Some? ==> forall c :: c in r <==>
      exists k :: 0 <= k < |categories.value| && |categories.value[k].products| > 0 && c == HeaderEntry(categories.value[k])
  {
    if categories.None? then [] else NonEmptyCategories(categories.value)
  }

  function NonEmptyCategories(cats: seq<CategoryRes>): (r: seq<Category>)
    ensures |r| <= |cats|
    ensures r == Project(Filter(cats, HasProducts))
    ensures forall c :: c in r <==> exists k :: 0 <= k < |cats| && |cats[k].products| > 0 && c == HeaderEntry(cats[k])
  {
    if cats == [] then []
    else
      var rest := NonEmptyCategories(cats[1..]);
      assert forall k :: 0 < k < |cats| ==> cats[k] == cats[1..][k - 1];
      if |cats[0].products| > 0 then
        assert Project(Filter(cats, HasProducts))[1..] == Project(Filter(cats[1..], HasProducts));
        [HeaderEntry(cats[0])] + rest
      else rest
  }

  /** The header list keeps catalog order: it is the projection of a
      subsequence of the catalog. */
  lemma {:induction false} CategoriesHeaderInOrder(cats: seq<CategoryRes>)
    ensures IsSubsequence(NonEmptyCategories(cats), Project(cats))
  {
    if cats != [] {
      CategoriesHeaderInOrder(cats[1..]);
      assert Project(cats)[1..] == Project(cats[1..]);
      if |cats[0].products| > 0 {
        assert NonEmptyCategories(cats)[1..] == NonEmptyCategories(cats[1..]);
      }
    }
  }

  /** Every category projected to its header entry. */
  function Project(cats: seq<CategoryRes>): (r: seq<Category>)
    ensures |r| == |cats|
    ensures forall k :: 0 <= k < |cats| ==> r[k] == HeaderEntry(cats[k])
  {
    if cats == [] then [] else [HeaderEntry(cats[0])] + Project(cats[1..])
  }

  // ---------------------------------------------------------------------
  // Search and price filters

  /** A product matches the lower-cased query by name or, when it has one,
      by category. */
  predicate CatalogMatches(p: Product, lowerQuery: string)
  {
    Contains(Lower(p.name), lowerQuery) || (p.category.Some? && Contains(Lower(p.category.value), lowerQuery))
  }

  /** The query "phone" finds "iPhone 15" in Electronics but not "Serum"
      in Cosmetics. */
  lemma SearchExample(iphone: Product, serum: Product)
    requires iphone.name == "iPhone 15" && iphone.category == Some("Electronics")
    requires serum.name == "Serum" && serum.category == Some("Cosmetics")
    ensures CatalogMatches(iphone, Lower("phone"))
    ensures !CatalogMatches(serum, Lower("phone"))
  {
    LowerExamples();
    PhoneInIphone();
    NoPhoneInSerumOrCosmetics();
  }

  lemma NoPhoneInSerumOrCosmetics()
    ensures !Contains("serum", "phone") && !Contains("cosmetics", "phone")
  {
    NoPhoneIn("serum");
    NoPhoneIn("cosmetics");
  }

  lemma PhoneInIphone()
    ensures Contains("iphone 15", "phone")
  {
    var h := "iphone 15";
    assert h[1..6] == "phone";
    assert OccursAt(h, "phone", 1);
    ContainsAt(h, "phone");
  }

  lemma LowerExamples()
    ensures Lower("phone") == "phone" && Lower("iPhone 15") == "iphone 15"
    ensures Lower("Serum") == "serum" && Lower("Cosmetics") == "cosmetics"
  {
    LowerMatches("phone", "phone");
    LowerMatches("iPhone 15", "iphone 15");
    LowerMatches("Serum", "serum");
    LowerMatches("Cosmetics", "cosmetics");
  }

  lemma LowerMatches(s: string, t: string)
    requires |s| == |t|
    requires forall i :: 0 <= i < |s| ==> LowerChar(s[i]) == t[i]
    ensures Lower(s) == t
  {
  }

  /** A word without the letter 'p' does not contain "phone". */
  lemma NoPhoneIn(word: string)
    requires forall i :: 0 <= i < |word| ==> word[i] != 'p'
    ensures !Contains(word, "phone")
  {
    ContainsAt(word, "phone");
    forall k | 0 <= k && k + 5 <= |word| ensures !OccursAt(word, "phone", k) {
      assert word[k..k + 5][0] == word[k];
    }
  }

  /** The search step: a query that trims to nothing keeps every product;
      otherwise the untrimmed query, lower-cased, must match. */
  function SearchFilter(products: seq<Product>, searchQuery: string): (r: seq<Product>)
    ensures IsBlank(searchQuery) ==> r == products
    ensures !IsBlank(searchQuery) ==> forall p :: p in r <==> p in products && CatalogMatches(p, Lower(searchQuery))
    ensures IsSubsequence(r, products)
  {
    TrimEmptyIffBlank(searchQuery);
    var query := Lower(searchQuery);
    var matches := (p: Product) => CatalogMatches(p, query);
    FilterMembers(products, matches);
    FilterIsSubsequence(products, matches);
    if Trim(searchQuery) == [] then
      SubsequenceReflexive(products);
      products
    else Filter(products, matches)
  }

  lemma {:induction false} SubsequenceReflexive<T>(s: seq<T>)
    ensures IsSubsequence(s, s)
  {
    PrefixIsSubsequence(s, |s|);
    assert s[..|s|] == s;
  }

  /** The price step: both bounds are inclusive. */
  function PriceFilter(products: seq<Product>, minPrice: int, maxPrice: int): (r: seq<Product>)
    ensures forall p :: p in r <==> p in products && minPrice <= p.price <= maxPrice
    ensures IsSubsequence(r, products)
  {
    var inRange := (p: Product) => p.price >= minPrice && p.price <= maxPrice;
    FilterMembers(products, inRange);
    FilterIsSubsequence(products, inRange);
    Filter(products, inRange)
  }

  /** The products that survive both filters, in flattened catalog order. */
  function Filtered(cats: seq<CategoryRes>, searchQuery: string, minPrice: int, maxPrice: int): seq<Product>
  {
    PriceFilter(SearchFilter(FlatProducts(cats), searchQuery), minPrice, maxPrice)
  }

  /** What survives the filters: a catalog product inside the price window
      that matches a non-blank query. */
  lemma FilteredMembers(cats: seq<CategoryRes>, searchQuery: string, minPrice: int, maxPrice: int)
    ensures forall p :: p in Filtered(cats, searchQuery, minPrice, maxPrice) <==>
      p in FlatProducts(cats) && minPrice <= p.price <= maxPrice &&
      (IsBlank(searchQuery) || CatalogMatches(p, Lower(searchQuery)))
    ensures IsSubsequence(Filtered(cats, searchQuery, minPrice, maxPrice), FlatProducts(cats))
  {
    var s := SearchFilter(FlatProducts(cats), searchQuery);
    SubsequenceTransitive(PriceFilter(s, minPrice, maxPrice), s, FlatProducts(cats));
  }

  // ---------------------------------------------------------------------
  // Sorting

  /** "name" (also the default), "price-low" and "price-high". */
  datatype SortMode = Name | PriceLow | PriceHigh

  /** The comparator's "a may come before b". */
  predicate Le(mode: SortMode, a: Product, b: Product)
  {
    match mode
    case Name => LexLe(a.name, b.name)
    case PriceLow => a.price <= b.price
    case PriceHigh => a.price >= b.price
  }

  lemma LeTotal(mode: SortMode, a: Product, b: Product)
    ensures Le(mode, a, b) || Le(mode, b, a)
  {
    if mode.Name? {
      LexLeTotal(a.name, b.name);
    }
  }

  lemma LeTransitive(mode: SortMode, a: Product, b: Product, c: Product)
    requires Le(mode, a, b) && Le(mode, b, c)
    ensures Le(mode, a, c)
  {
    if mode.Name? {
      LexLeTransitive(a.name, b.name, c.name);
    }
  }

  ghost predicate SortedBy(mode: SortMode, s: seq<Product>)
  {
    forall i, j :: 0 <= i < j < |s| ==> Le(mode, s[i], s[j])
  }

  /** `allProducts.sort(...)`, in place: insertion by adjacent swaps. */
  method SortProducts(a: array<Product>, mode: SortMode)
    modifies a
    ensures SortedBy(mode, a[..])
    ensures multiset(a[..]) == multiset(old(a[..]))
  {
    var i := 0;
    while i < a.Length
      invariant 0 <= i <= a.Length
      invariant SortedPrefix(mode, a[..], i)
      invariant multiset(a[..]) == multiset(old(a[..]))
    {
      var j := i;
      while j > 0 && !Le(mode, a[j - 1], a[j])
        invariant 0 <= j <= i
        invariant Inserting(mode, a[..], i, j)
        invariant multiset(a[..]) == multiset(old(a[..]))
      {
        SwapKeepsInserting(mode, a[..], i, j);
        a[j - 1], a[j] := a[j], a[j - 1];
        j := j - 1;
      }
      InsertionDone(mode, a[..], i, j);
      i := i + 1;
    }
  }

  /** The first `n` elements are in order. */
  ghost predicate SortedPrefix(mode: SortMode, s: seq<Product>, n: int)
  {
    0 <= n <= |s| && forall p, q :: 0 <= p < q < n ==> Le(mode, s[p], s[q])
  }

  /** Halfway through inserting `s[i]`, which now sits at `j`: the prefix
      up to `i` is in order apart from position `j`, and `s[j]` is no
      greater than everything after it. */
  ghost predicate Inserting(mode: SortMode, s: seq<Product>, i: int, j: int)
  {
    0 <= j <= i < |s| &&
    (forall p, q :: 0 <= p < q <= i && p != j && q != j ==> Le(mode, s[p], s[q])) &&
    (forall q :: j < q <= i ==> Le(mode, s[j], s[q]))
  }

  lemma SwapKeepsInserting(mode: SortMode, s: seq<Product>, i: int, j: int)
    requires Inserting(mode, s, i, j) && 0 < j && !Le(mode, s[j - 1], s[j])
    ensures Inserting(mode, s[j - 1 := s[j]][j := s[j - 1]], i, j - 1)
  {
    LeTotal(mode, s[j - 1], s[j]);
  }

  lemma InsertionDone(mode: SortMode, s: seq<Product>, i: int, j: int)
    requires Inserting(mode, s, i, j) && (j == 0 || Le(mode, s[j - 1], s[j]))
    ensures SortedPrefix(mode, s, i + 1)
  {
    forall p, q | 0 <= p < q <= i ensures Le(mode, s[p], s[q]) {
      if q == j && p < j - 1 {
        LeTransitive(mode, s[p], s[j - 1], s[j]);
      }
    }
  }

  // ---------------------------------------------------------------------
  // Grouping

  /** `allProducts.filter(p => p.category === name)`: products without a
      category land in no bucket. */
  function Bucket(products: seq<Product>, name: string): (r: seq<Product>)
    ensures forall p :: p in r <==> p in products && p.category == Some(name)
  {
    var inCategory := (p: Product) => p.category == Some(name);
    FilterMembers(products, inCategory);
    Filter(products, inCategory)
  }

  /** The name of the last category with this id: the one whose bucket
      survives the overwrites of the `forEach`. */
  function LastName(cats: seq<CategoryRes>, id: int): Option<string>
  {
    if cats == [] then None
    else if cats[|cats| - 1].id == id then Some(cats[|cats| - 1].name)
    else LastName(cats[..|cats| - 1], id)
  }

  lemma {:induction false} LastNameFound(cats: seq<CategoryRes>)
    ensures forall id :: LastName(cats, id).Some? <==> id in CategoryIds(cats)
  {
    if cats != [] {
      var init := cats[..|cats| - 1];
      LastNameFound(init);
      assert cats == init + [cats[|cats| - 1]];
      assert CategoryIds(cats) == CategoryIds(init) + {cats[|cats| - 1].id};
    }
  }

  function CategoryIds(cats: seq<CategoryRes>): set<int>
  {
    set c | c in cats :: c.id
  }

  /** The reference grouping: one key per category id, holding the bucket
      of the last category with that id. */
  function GroupBy(cats: seq<CategoryRes>, products: seq<Product>): (r: map<int, seq<Product>>)
    ensures r.Keys == CategoryIds(cats)
  {
    LastNameFound(cats);
    map id | id in CategoryIds(cats) :: Bucket(products, LastName(cats, id).value)
  }

  /** `grouped`: an empty record without a catalog; otherwise the sorted,
      filtered products bucketed under every category id. Each bucket is
      ordered by the sort mode and holds, as a multiset, exactly the filtered
      products of that category; the mode plays no part in which. */
  method GroupedProducts(categories: Option<seq<CategoryRes>>, searchQuery: string,
                         minPrice: int, maxPrice: int, sortBy: SortMode)
    returns (grouped: map<int, seq<Product>>)
    ensures categories.None? ==> grouped == map[]
    ensures categories.Some? ==> grouped.Keys == CategoryIds(categories.value)
    ensures categories.Some? ==> forall id :: id in grouped ==>
      LastName(categories.value, id).Some? &&
      SortedBy(sortBy, grouped[id]) &&
      multiset(grouped[id]) ==
        multiset(Bucket(Filtered(categories.value, searchQuery, minPrice, maxPrice), LastName(categories.value, id).value))
  {
    if categories.None? {
      return map[];
    }
    var cats := categories.value;
    var filtered := Filtered(cats, searchQuery, minPrice, maxPrice);
    var a := new Product[|filtered|](k requires 0 <= k < |filtered| => filtered[k]);
    assert a[..] == filtered;
    SortProducts(a, sortBy);
    var sorted := a[..];
    grouped := map[];
    var i := 0;
    while i < |cats|
      invariant 0 <= i <= |cats|
      invariant grouped == GroupBy(cats[..i], sorted)
    {
      grouped := grouped[cats[i].id := Bucket(sorted, cats[i].name)];
      GroupByStep(cats, i, sorted);
      i := i + 1;
    }
    assert cats[..i] == cats;
    forall id | id in grouped
      ensures LastName(cats, id).Some?
      ensures SortedBy(sortBy, grouped[id])
      ensures multiset(grouped[id]) == multiset(Bucket(filtered, LastName(cats, id).value))
    {
      LastNameFound(cats);
      var name := LastName(cats, id).value;
      BucketKeepsOrder(sortBy, sorted, name);
      FilterRespectsMultiset(sorted, filtered, (p: Product) => p.category == Some(name));
    }
  }

  lemma GroupByStep(cats: seq<CategoryRes>, i: int, products: seq<Product>)
    requires 0 <= i < |cats|
    ensures GroupBy(cats[..i + 1], products) == GroupBy(cats[..i], products)[cats[i].id := Bucket(products, cats[i].name)]
  {
    var before, after := cats[..i], cats[..i + 1];
    assert after[..|after| - 1] == before;
    assert CategoryIds(after) == CategoryIds(before) + {cats[i].id};
    forall id | id in CategoryIds(before) && id != cats[i].id
      ensures LastName(after, id) == LastName(before, id)
    {
    }
  }

  /** A bucket of a sorted sequence is sorted. */
  lemma {:induction false} BucketKeepsOrder(mode: SortMode, s: seq<Product>, name: string)
    requires SortedBy(mode, s)
    ensures SortedBy(mode, Bucket(s, name))
  {
    var inCategory := (p: Product) => p.category == Some(name);
    FilterIsSubsequence(s, inCategory);
    SubsequenceSorted(mode, Bucket(s, name), s);
  }

  lemma {:induction false} SubsequenceSorted(mode: SortMode, r: seq<Product>, s: seq<Product>)
    requires IsSubsequence(r, s) && SortedBy(mode, s)
    ensures SortedBy(mode, r)
    decreases |s|
  {
    if r != [] {
      if r[0] == s[0] && IsSubsequence(r[1..], s[1..]) {
        SubsequenceSorted(mode, r[1..], s[1..]);
        SubsequenceMembers(r[1..], s[1..]);
        forall i, j | 0 <= i < j < |r| ensures Le(mode, r[i], r[j]) {
          if i == 0 {
            assert r[j] == r[1..][j - 1];
            assert r[j] in r[1..];
            var k :| 0 <= k < |s| - 1 && s[1..][k] == r[j];
            assert s[k + 1] == r[j];
          } else {
            assert r[i] == r[1..][i - 1] && r[j] == r[1..][j - 1];
          }
        }
      } else {
        SubsequenceSorted(mode, r, s[1..]);
      }
    }
  }

  /** Changing only the sort mode regroups the same products: the same
      keys, and every bucket holds the same products as a multiset. */
  method SortModeKeepsBuckets(categories: Option<seq<CategoryRes>>, searchQuery: string, minPrice: int, maxPrice: int,
                              m1: SortMode, m2: SortMode)
    returns (g1: map<int, seq<Product>>, g2: map<int, seq<Product>>)
    ensures g1.Keys == g2.Keys
    ensures forall id :: id in g1 ==> multiset(g1[id]) == multiset(g2[id])
  {
    g1 := GroupedProducts(categories, searchQuery, minPrice, maxPrice, m1);
    g2 := GroupedProducts(categories, searchQuery, minPrice, maxPrice, m2);
  }

  // ---------------------------------------------------------------------
  // Rendering

  /** `Object.keys(groupedProducts).length > 0` is false: the "no products
      found" view. */
  predicate ShowsNoProducts(grouped: map<int, seq<Product>>)
  {
    |grouped.Keys| == 0
  }

  /** With a catalog, the empty view shows exactly when the catalog has no
      categories, whatever the filters removed. */
  lemma NoProductsOnlyWithoutCategories(cats: seq<CategoryRes>, grouped: map<int, seq<Product>>)
    requires grouped.Keys == CategoryIds(cats)
    ensures ShowsNoProducts(grouped) <==> cats == []
  {
    if cats != [] {
      assert cats[0].id in grouped.Keys;
    }
  }

  /** The sections rendered: categories whose bucket is non-empty, in
      catalog order. */
  function SectionsToRender(cats: seq<CategoryRes>, grouped: map<int, seq<Product>>): (r: seq<CategoryRes>)
    ensures forall c :: c in r <==> c in cats && c.id in grouped && |grouped[c.id]| > 0
    ensures forall c :: multiset(r)[c] == if c.id in grouped && |grouped[c.id]| > 0 then multiset(cats)[c] else 0
    ensures IsSubsequence(r, cats)
  {
    var hasProducts := (c: CategoryRes) => c.id in grouped && |grouped[c.id]| > 0;
    FilterMembers(cats, hasProducts);
    FilterIsSubsequence(cats, hasProducts);
    forall c ensures multiset(Filter(cats, hasProducts))[c] == if hasProducts(c) then multiset(cats)[c] else 0 {
      FilterMultiplicity(cats, hasProducts, c);
    }
    Filter(cats, hasProducts)
  }

  /** `document.getElementById('category-' + id)` over the rendered
      sections: whether one of them carries the id. */
  function HasSection(sections: seq<CategoryRes>, id: int): (r: bool)
    ensures r <==> exists c :: c in sections && c.id == id
  {
    if sections == [] then false
    else sections[0].id == id || HasSection(sections[1..], id)
  }

  /** The page's own state: the selected category ("all" or a category id),
      the query, the price window and the sort mode. Only the category and
      the query change; the window and the mode keep their initial values. */
  class Page {
    var activeCategory: Selection
    var searchQuery: string
    const minPrice: int
    const maxPrice: int
    const sortBy: SortMode

    constructor()
      ensures activeCategory == AllCategories && searchQuery == ""
      ensures minPrice == 0 && maxPrice == 30000 && sortBy == Name
    {
      activeCategory := AllCategories;
      searchQuery := "";
      minPrice := 0;
      maxPrice := 30000;
      sortBy := Name;
    }

    /** `scrollToCategory`: records the selection and, for a category
        rather than "all", scrolls to its section when the page has one.
        Sections exist only once the catalog has loaded (`categories` is
        None while loading or after an error) and only for categories
        with a non-empty bucket; the scroll is a DOM call, reported here
        as `scrolls`. */
    method ScrollToCategory(selection: Selection, categories: Option<seq<CategoryRes>>,
                            grouped: map<int, seq<Product>>) returns (scrolls: bool)
      modifies this
      ensures activeCategory == selection && searchQuery == old(searchQuery)
      ensures scrolls <==> (selection.CategoryId? && categories.Some? &&
        exists c :: c in categories.value && c.id == selection.id && c.id in grouped && |grouped[c.id]| > 0)
    {
      activeCategory := selection;
      if selection == AllCategories || categories.None? {
        scrolls := false;
      } else {
        var sections := SectionsToRender(categories.value, grouped);
        scrolls := HasSection(sections, selection.id);
      }
    }

    method OnSearchChange(query: string)
      modifies this
      ensures searchQuery == query && activeCategory == old(activeCategory)
    {
      searchQuery := query;
    }
  }
}
