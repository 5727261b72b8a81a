/** The site header (src/components/Header.tsx): the split of the category
    buttons into visible ones and a "More" menu, the highlight of the
    selected category, the cart badge and the menu flags. Choosing a
    category hands the choice back to the parent. */
module Header {
  import opened Common
  import opened Types
  import opened ShopContext

  const MaxVisibleCategories: nat := 5

  /** The parent's selected category: the initial "all", or the id of a
      category button that was clicked. */
  datatype Selection = AllCategories | CategoryId(id: int)

  /** `categories.slice(0, MAX_VISIBLE_CATEGORIES)`. */
  function VisibleCategories(categories: seq<Category>): (r: seq<Category>)
    ensures |r| == Min(MaxVisibleCategories, |categories|)
    ensures r == categories[..|r|]
  {
    Take(categories, MaxVisibleCategories)
  }

  /** `categories.slice(MAX_VISIBLE_CATEGORIES)`: empty when there are at
      most five. */
  function MoreCategories(categories: seq<Category>): (r: seq<Category>)
  {
    if |categories| <= MaxVisibleCategories then [] else categories[MaxVisibleCategories..]
  }

  /** The two lists partition the categories, in order: the visible ones
      then the "More" ones. */
  lemma SplitKeepsEveryCategory(categories: seq<Category>)
    ensures VisibleCategories(categories) + MoreCategories(categories) == categories
    ensures |MoreCategories(categories)| == |categories| - Min(MaxVisibleCategories, |categories|)
  {
  }

  /** The "More" menu is rendered when it has something to hold. */
  predicate ShowsMoreMenu(categories: seq<Category>)
  {
    |MoreCategories(categories)| > 0
  }

  lemma MoreMenuOnlyBeyondFive(categories: seq<Category>)
    ensures ShowsMoreMenu(categories) <==> |categories| > MaxVisibleCategories
  {
  }

  /** A category button is highlighted when the selection is its id. */
  predicate IsHighlighted(selected: Selection, category: Category)
  {
    selected == CategoryId(category.id)
  }

  /** At most one of a list of distinct categories is highlighted, and
      "all" highlights none. */
  lemma HighlightUnique(selected: Selection, a: Category, b: Category)
    ensures IsHighlighted(selected, a) && IsHighlighted(selected, b) ==> a.id == b.id
    ensures selected == AllCategories ==> !IsHighlighted(selected, a)
  {
  }

  /** The cart badge: the total quantity, shown only when positive. */
  function CartBadge(items: seq<CartItem>): (r: Option<int>)
    ensures r.Some? ==> r.value == QuantitySum(items) && r.value > 0
    ensures r.None? <==> QuantitySum(items) <= 0
  {
    var count := CartItemsCount(items);
    if count > 0 then Some(count) else None
  }

  /** Under the cart invariant the badge shows exactly for a non-empty cart
      and never reads less than the number of lines. */
  lemma BadgeShownIffCartNonEmpty(items: seq<CartItem>)
    requires AllPositive(items)
    ensures CartBadge(items).Some? <==> |items| > 0
    ensures CartBadge(items).Some? ==> CartBadge(items).value >= |items|
  {
    CountAtLeastLines(items);
  }

  /** The header's two menu flags. */
  class Menus {
    var isMobileMenuOpen: bool
    var isMoreOpen: bool

    constructor()
      ensures !isMobileMenuOpen && !isMoreOpen
    {
      isMobileMenuOpen := false;
      isMoreOpen := false;
    }

    /** The "More" button toggles its dropdown. */
    method ToggleMore()
      modifies this
      ensures isMoreOpen == !old(isMoreOpen) && isMobileMenuOpen == old(isMobileMenuOpen)
    {
      isMoreOpen := !isMoreOpen;
    }

    /** Leaving the dropdown with the pointer closes it. */
    method MoreMouseLeave()
      modifies this
      ensures !isMoreOpen && isMobileMenuOpen == old(isMobileMenuOpen)
    {
      isMoreOpen := false;
    }

    /** A visible category button only reports the choice. */
    method SelectVisible(category: Category) returns (chosen: Selection)
      ensures chosen == CategoryId(category.id)
    {
      chosen := CategoryId(category.id);
    }

    /** A category in "More" reports the choice and closes the dropdown. */
    method SelectFromMore(category: Category) returns (chosen: Selection)
      modifies this
      ensures chosen == CategoryId(category.id)
      ensures !isMoreOpen && isMobileMenuOpen == old(isMobileMenuOpen)
    {
      chosen := CategoryId(category.id);
      isMoreOpen := false;
    }

    /** A category in the mobile menu reports the choice and closes the
        mobile menu. */
    method SelectFromMobile(category: Category) returns (chosen: Selection)
      modifies this
      ensures chosen == CategoryId(category.id)
      ensures !isMobileMenuOpen && isMoreOpen == old(isMoreOpen)
    {
      chosen := CategoryId(category.id);
      isMobileMenuOpen := false;
    }

    method ToggleMobileMenu()
      modifies this
      ensures isMobileMenuOpen == !old(isMobileMenuOpen) && isMoreOpen == old(isMoreOpen)
    {
      isMobileMenuOpen := !isMobileMenuOpen;
    }

    /** The cart button opens the cart panel and closes the mobile menu. */
    method CartButton(shop: Shop)
      modifies this, shop
      ensures shop.state == old(shop.state).(isCartOpen := true)
      ensures !isMobileMenuOpen && isMoreOpen == old(isMoreOpen)
    {
      shop.SetCartOpen(true);
      isMobileMenuOpen := false;
    }
  }
}
