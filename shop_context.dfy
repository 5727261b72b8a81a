/** The shop-wide context (src/contexts/ShopContext.tsx): a reducer over the
    cart lines, the interface language and the cart-panel flag, the derived
    total and item count, the translation lookup, and the provider object
    whose methods dispatch actions to the reducer. */
module ShopContext {
  import opened Common
  import opened Types

  datatype Language = Fr | Ar

  datatype ShopState = ShopState(cartItems: seq<CartItem>, language: Language, isCartOpen: bool)

  /** The eight actions the reducer handles. `quantity` of AddToCart is
      optional in the payload; the reducer defaults it to 1. */
  datatype ShopAction =
    | AddToCart(product: Product, quantity: Option<int>, selectedColor: Option<string>)
    | RemoveFromCart(productId: int)
    | UpdateQuantity(productId: int, newQuantity: int)
    | ClearCart
    | SetLanguage(language: Language)
    | ToggleCart
    | SetCartOpen(open: bool)
    | LoadCart(items: seq<CartItem>)

  /** Empty cart, French, panel closed. */
  function InitialState(): (s: ShopState)
    ensures s.cartItems == [] && s.language == Fr && !s.isCartOpen
  {
    ShopState([], Fr, false)
  }

  // ---------------------------------------------------------------------
  // Line keys

  /** A line is identified by (product id, colour); a missing colour is a
      key of its own. */
  predicate SameLine(item: CartItem, productId: int, color: Option<string>)
  {
    item.product.id == productId && item.selectedColor == color
  }

  /** `cartItems.find(...)` finds a line with this key. */
  predicate HasLine(items: seq<CartItem>, productId: int, color: Option<string>)
  {
    exists i :: 0 <= i < |items| && SameLine(items[i], productId, color)
  }

  /** No two lines share a key. */
  predicate UniqueKeys(items: seq<CartItem>)
  {
    items == [] ||
    (!HasLine(items[1..], items[0].product.id, items[0].selectedColor) && UniqueKeys(items[1..]))
  }

  /** Every stored quantity is positive. */
  predicate AllPositive(items: seq<CartItem>)
  {
    forall i :: 0 <= i < |items| ==> items[i].quantity > 0
  }

  /** The invariant the cart keeps under every action except an unchecked
      LoadCart. */
  predicate CartInvariant(items: seq<CartItem>)
  {
    AllPositive(items) && UniqueKeys(items)
  }

  /** Number of lines with this key. */
  function KeyCount(items: seq<CartItem>, productId: int, color: Option<string>): nat
  {
    if items == [] then 0
    else (if SameLine(items[0], productId, color) then 1 else 0) + KeyCount(items[1..], productId, color)
  }

  /** Total quantity held under this key. */
  function KeyQuantity(items: seq<CartItem>, productId: int, color: Option<string>): int
  {
    if items == [] then 0
    else (if SameLine(items[0], productId, color) then items[0].quantity else 0) + KeyQuantity(items[1..], productId, color)
  }

  // ---------------------------------------------------------------------
  // The slices of the reducer that change cart lines

  /** The `map` of ADD_TO_CART when the key exists: every line with the key
      gains `quantity`; nothing else changes, and the order is kept. */
  function BumpLines(items: seq<CartItem>, productId: int, color: Option<string>, quantity: int): (r: seq<CartItem>)
    ensures |r| == |items|
    ensures forall i :: 0 <= i < |items| ==>
      r[i].product == items[i].product && r[i].selectedColor == items[i].selectedColor &&
      r[i].quantity == items[i].quantity + (if SameLine(items[i], productId, color) then quantity else 0)
  {
    if items == [] then []
    else
      var head := if SameLine(items[0], productId, color)
        then items[0].(quantity := items[0].quantity + quantity) else items[0];
      [head] + BumpLines(items[1..], productId, color, quantity)
  }

  /** ADD_TO_CART on the line sequence: merge into the existing key, or
      append one new line at the end. */
  function AddLine(items: seq<CartItem>, product: Product, quantity: int, color: Option<string>): (r: seq<CartItem>)
    ensures HasLine(items, product.id, color) ==> |r| == |items|
    ensures HasLine(items, product.id, color) ==> forall i :: 0 <= i < |items| ==>
      r[i].product == items[i].product && r[i].selectedColor == items[i].selectedColor &&
      r[i].quantity == items[i].quantity + (if SameLine(items[i], product.id, color) then quantity else 0)
    ensures !HasLine(items, product.id, color) ==> r == items + [CartItem(product, quantity, color)]
    ensures HasLine(r, product.id, color)
  {
    if HasLine(items, product.id, color) then BumpLines(items, product.id, color, quantity)
    else
      var r := items + [CartItem(product, quantity, color)];
      assert SameLine(r[|items|], product.id, color);
      r
  }

  /** REMOVE_FROM_CART: drops every line of the product, whatever its
      colour, and keeps the others in order. */
  function RemoveLines(items: seq<CartItem>, productId: int): (r: seq<CartItem>)
    ensures forall x :: x in r <==> x in items && x.product.id != productId
    ensures forall x :: multiset(r)[x] == if x.product.id != productId then multiset(items)[x] else 0
    ensures IsSubsequence(r, items)
  {
    var keep := (item: CartItem) => item.product.id != productId;
    FilterMembers(items, keep);
    FilterIsSubsequence(items, keep);
    forall x ensures multiset(Filter(items, keep))[x] == if keep(x) then multiset(items)[x] else 0 {
      FilterMultiplicity(items, keep, x);
    }
    Filter(items, keep)
  }

  /** The `map` of UPDATE_QUANTITY: every line of the product gets `quantity`. */
  function SetLineQuantities(items: seq<CartItem>, productId: int, quantity: int): (r: seq<CartItem>)
    ensures |r| == |items|
    ensures forall i :: 0 <= i < |items| ==>
      r[i].product == items[i].product && r[i].selectedColor == items[i].selectedColor &&
      r[i].quantity == (if items[i].product.id == productId then quantity else items[i].quantity)
  {
    if items == [] then []
    else
      var head := if items[0].product.id == productId then items[0].(quantity := quantity) else items[0];
      [head] + SetLineQuantities(items[1..], productId, quantity)
  }

  /** The `filter` of UPDATE_QUANTITY keeps the lines with a positive quantity. */
  predicate PositiveLine(item: CartItem)
  {
    item.quantity > 0
  }

  /** UPDATE_QUANTITY: every line of the product (any colour) is set to
      max(0, quantity), then every line whose quantity is not positive is
      dropped, including lines of other products. */
  function UpdateLines(items: seq<CartItem>, productId: int, quantity: int): (r: seq<CartItem>)
    ensures AllPositive(r)
    ensures forall x :: x in r && x.product.id == productId ==> x.quantity == quantity
    ensures forall x :: x in r && x.product.id != productId ==> x in items
    ensures forall x :: x in items && x.product.id != productId && x.quantity > 0 ==> x in r
    ensures forall x :: x in items && x.product.id == productId && quantity > 0 ==> x.(quantity := quantity) in r
    ensures quantity <= 0 ==> forall x :: x in r ==> x.product.id != productId
    ensures AllPositive(items) && quantity > 0 ==> r == SetLineQuantities(items, productId, quantity)
    ensures forall x :: x in r <==> x in SetLineQuantities(items, productId, Max(0, quantity)) && x.quantity > 0
    ensures forall x :: multiset(r)[x] == if x.quantity > 0 then multiset(SetLineQuantities(items, productId, Max(0, quantity)))[x] else 0
    ensures IsSubsequence(r, SetLineQuantities(items, productId, Max(0, quantity)))
  {
    UpdatedLinesKeepOrder(items, productId, quantity);
    UpdatedLinesComeFromItems(items, productId, quantity);
    ItemsSurviveUpdate(items, productId, quantity);
    UpdateOnPositiveCart(items, productId, quantity);
    Filter(SetLineQuantities(items, productId, Max(0, quantity)), PositiveLine)
  }

  /** The `filter` of UPDATE_QUANTITY keeps exactly the positive lines of
      the `map`, as often as they occur and in the same order. */
  lemma UpdatedLinesKeepOrder(items: seq<CartItem>, productId: int, quantity: int)
    ensures var mapped := SetLineQuantities(items, productId, Max(0, quantity));
      var r := Filter(mapped, PositiveLine);
      (forall x :: x in r <==> x in mapped && x.quantity > 0) &&
      (forall x :: multiset(r)[x] == if x.quantity > 0 then multiset(mapped)[x] else 0) &&
      IsSubsequence(r, mapped)
  {
    var mapped := SetLineQuantities(items, productId, Max(0, quantity));
    FilterMembers(mapped, PositiveLine);
    FilterIsSubsequence(mapped, PositiveLine);
    forall x ensures multiset(Filter(mapped, PositiveLine))[x] == if x.quantity > 0 then multiset(mapped)[x] else 0 {
      FilterMultiplicity(mapped, PositiveLine, x);
    }
  }

  /** What the lines left by UPDATE_QUANTITY are made of. */
  lemma UpdatedLinesComeFromItems(items: seq<CartItem>, productId: int, quantity: int)
    ensures var r := Filter(SetLineQuantities(items, productId, Max(0, quantity)), PositiveLine);
      AllPositive(r) &&
      (forall x :: x in r && x.product.id == productId ==> x.quantity == quantity) &&
      (forall x :: x in r && x.product.id != productId ==> x in items)
  {
    var mapped := SetLineQuantities(items, productId, Max(0, quantity));
    FilterMembers(mapped, PositiveLine);
    var r := Filter(mapped, PositiveLine);
    forall x | x in r && x.product.id == productId ensures x.quantity == quantity {
      var i :| 0 <= i < |mapped| && mapped[i] == x;
    }
    forall x | x in r && x.product.id != productId ensures x in items {
      var i :| 0 <= i < |mapped| && mapped[i] == x;
      assert items[i] == x;
    }
  }

  /** The lines that UPDATE_QUANTITY keeps, with their new quantity. */
  lemma ItemsSurviveUpdate(items: seq<CartItem>, productId: int, quantity: int)
    ensures var r := Filter(SetLineQuantities(items, productId, Max(0, quantity)), PositiveLine);
      (forall x :: x in items && x.product.id != productId && x.quantity > 0 ==> x in r) &&
      (forall x :: x in items && x.product.id == productId && quantity > 0 ==> x.(quantity := quantity) in r)
  {
    var mapped := SetLineQuantities(items, productId, Max(0, quantity));
    FilterMembers(mapped, PositiveLine);
    var r := Filter(mapped, PositiveLine);
    forall x | x in items && x.product.id == productId && quantity > 0 ensures x.(quantity := quantity) in r {
      var i :| 0 <= i < |items| && items[i] == x;
      assert mapped[i] == x.(quantity := quantity);
    }
    forall x | x in items && x.product.id != productId && x.quantity > 0 ensures x in r {
      var i :| 0 <= i < |items| && items[i] == x;
      assert mapped[i] == x;
    }
  }

  /** On a cart of positive lines a positive update drops nothing. */
  lemma UpdateOnPositiveCart(items: seq<CartItem>, productId: int, quantity: int)
    ensures AllPositive(items) && quantity > 0 ==>
      Filter(SetLineQuantities(items, productId, Max(0, quantity)), PositiveLine) == SetLineQuantities(items, productId, quantity)
  {
    if AllPositive(items) && quantity > 0 {
      FilterKeepsAll(SetLineQuantities(items, productId, quantity), PositiveLine);
    }
  }

  /** `quantity = 1` in the payload destructuring. */
  function QuantityOrDefault(quantity: Option<int>): int
  {
    if quantity.Some? then quantity.value else 1
  }

  /** shopReducer: the next state for one action. */
  function Reduce(state: ShopState, action: ShopAction): (r: ShopState)
    ensures r.cartItems != state.cartItems ==>
      action.AddToCart? || action.RemoveFromCart? || action.UpdateQuantity? || action.ClearCart? || action.LoadCart?
    ensures r.language != state.language ==> action.SetLanguage?
    ensures r.isCartOpen != state.isCartOpen ==> action.ToggleCart? || action.SetCartOpen?
  {
    match action
    case AddToCart(product, quantity, color) =>
      state.(cartItems := AddLine(state.cartItems, product, QuantityOrDefault(quantity), color))
    case RemoveFromCart(productId) => state.(cartItems := RemoveLines(state.cartItems, productId))
    case UpdateQuantity(productId, quantity) => state.(cartItems := UpdateLines(state.cartItems, productId, quantity))
    case ClearCart => state.(cartItems := [])
    case SetLanguage(language) => state.(language := language)
    case ToggleCart => state.(isCartOpen := !state.isCartOpen)
    case SetCartOpen(open) => state.(isCartOpen := open)
    case LoadCart(items) => state.(cartItems := items)
  }

  /** Each action changes only its own slice of the state. */
  lemma ReduceChangesOnlyItsSlice(state: ShopState, action: ShopAction)
    ensures action.AddToCart? || action.RemoveFromCart? || action.UpdateQuantity? || action.ClearCart? || action.LoadCart?
      ==> Reduce(state, action).language == state.language && Reduce(state, action).isCartOpen == state.isCartOpen
    ensures action.SetLanguage? || action.ToggleCart? || action.SetCartOpen?
      ==> Reduce(state, action).cartItems == state.cartItems
    ensures action.SetLanguage? ==> Reduce(state, action) == state.(language := action.language)
    ensures action.ToggleCart? ==> Reduce(state, action).isCartOpen != state.isCartOpen && Reduce(state, action).language == state.language
    ensures action.SetCartOpen? ==> Reduce(state, action).isCartOpen == action.open && Reduce(state, action).language == state.language
    ensures action.ClearCart? ==> Reduce(state, action).cartItems == []
    ensures action.LoadCart? ==> Reduce(state, action).cartItems == action.items
    ensures action.AddToCart? && action.quantity.None? ==>
      Reduce(state, action) == Reduce(state, AddToCart(action.product, Some(1), action.selectedColor))
  {
  }

  // ---------------------------------------------------------------------
  // Derived values: total, item count, translation

  /** Σ price × quantity, the reference definition. */
  function LineSum(items: seq<CartItem>): int
  {
    if items == [] then 0 else items[0].product.price * items[0].quantity + LineSum(items[1..])
  }

  /** Σ quantity, the reference definition. */
  function QuantitySum(items: seq<CartItem>): int
  {
    if items == [] then 0 else items[0].quantity + QuantitySum(items[1..])
  }

  /** `reduce((total, item) => total + item.product.price * item.quantity, acc)`. */
  function TotalFold(acc: int, items: seq<CartItem>): int
    decreases |items|
  {
    if items == [] then acc else TotalFold(acc + items[0].product.price * items[0].quantity, items[1..])
  }

  /** `reduce((count, item) => count + item.quantity, acc)`. */
  function CountFold(acc: int, items: seq<CartItem>): int
    decreases |items|
  {
    if items == [] then acc else CountFold(acc + items[0].quantity, items[1..])
  }

  lemma {:induction false} TotalFoldIsSum(acc: int, items: seq<CartItem>)
    ensures TotalFold(acc, items) == acc + LineSum(items)
    decreases |items|
  {
    if items != [] {
      TotalFoldIsSum(acc + items[0].product.price * items[0].quantity, items[1..]);
    }
  }

  lemma {:induction false} CountFoldIsSum(acc: int, items: seq<CartItem>)
    ensures CountFold(acc, items) == acc + QuantitySum(items)
    decreases |items|
  {
    if items != [] {
      CountFoldIsSum(acc + items[0].quantity, items[1..]);
    }
  }

  /** getCartTotal: the fold from 0 equals Σ price × quantity. */
  function CartTotal(items: seq<CartItem>): (r: int)
    ensures r == LineSum(items)
  {
    TotalFoldIsSum(0, items);
    TotalFold(0, items)
  }

  /** Two units at 100 and one at 50: a total of 250 over 3 items in 2
      lines. */
  lemma TotalsExample(a: Product, b: Product)
    requires a.price == 100 && b.price == 50
    ensures CartTotal([CartItem(a, 2, None), CartItem(b, 1, None)]) == 250
    ensures CartItemsCount([CartItem(a, 2, None), CartItem(b, 1, None)]) == 3
  {
    var items := [CartItem(a, 2, None), CartItem(b, 1, None)];
    var tail := items[1..];
    assert tail == [CartItem(b, 1, None)];
    assert tail[1..] == [];
    assert LineSum(tail) == 50 * 1 + LineSum(tail[1..]);
    assert LineSum(items) == 100 * 2 + LineSum(tail);
    assert QuantitySum(tail) == 1 + QuantitySum(tail[1..]);
    assert QuantitySum(items) == 2 + QuantitySum(tail);
  }

  /** getCartItemsCount: Σ quantity, not the number of lines. */
  function CartItemsCount(items: seq<CartItem>): (r: int)
    ensures r == QuantitySum(items)
    ensures AllPositive(items) ==> r >= |items|
  {
    CountFoldIsSum(0, items);
    CountAtLeastLines(items);
    CountFold(0, items)
  }

  lemma {:induction false} CountAtLeastLines(items: seq<CartItem>)
    ensures AllPositive(items) ==> QuantitySum(items) >= |items|
  {
    if items != [] {
      CountAtLeastLines(items[1..]);
      if AllPositive(items) {
        assert AllPositive(items[1..]) by {
          forall i | 0 <= i < |items| - 1 ensures items[1..][i].quantity > 0 {
            assert items[1..][i] == items[i + 1];
          }
        }
      }
    }
  }

  const FrenchTable: map<string, string> := map[
    "add-to-cart" := "Ajouter au panier",
    "view-cart" := "Voir le panier",
    "checkout" := "Passer la commande",
    "cart-empty" := "Votre panier est vide",
    "continue-shopping" := "Continuer vos achats",
    "remove" := "Supprimer",
    "quantity" := "Quantité",
    "total" := "Total",
    "electronics" := "Électronique",
    "cosmetics" := "Cosmétiques",
    "fashion" := "Mode",
    "home" := "Maison",
    "all-categories" := "Toutes catégories",
    "search" := "Rechercher...",
    "currency" := "DH",
    "in-stock" := "En stock",
    "out-of-stock" := "Rupture de stock",
    "free-shipping" := "Livraison gratuite",
    "fast-delivery" := "Livraison rapide",
    "24h-support" := "Support 24h/24",
    "easy-returns" := "Retours faciles",
    "product-added" := "Produit ajouté au panier"
  ]

  const ArabicTable: map<string, string> := map[
    "add-to-cart" := "أضف إلى السلة",
    "view-cart" := "عرض السلة",
    "checkout" := "الدفع",
    "cart-empty" := "سلتك فارغة",
    "continue-shopping" := "متابعة التسوق",
    "remove" := "إزالة",
    "quantity" := "الكمية",
    "total" := "المجموع",
    "electronics" := "الإلكترونيات",
    "cosmetics" := "مستحضرات التجميل",
    "fashion" := "الأزياء",
    "home" := "المنزل",
    "all-categories" := "جميع الفئات",
    "search" := "بحث...",
    "currency" := "درهم",
    "in-stock" := "متوفر",
    "out-of-stock" := "نفد من المخزون",
    "free-shipping" := "شحن مجاني",
    "fast-delivery" := "توصيل سريع",
    "24h-support" := "دعم ٢٤/٧",
    "easy-returns" := "إرجاع سهل",
    "product-added" := "تم إضافة المنتج إلى السلة"
  ]

  function Translations(language: Language): map<string, string>
  {
    match language
    case Fr => FrenchTable
    case Ar => ArabicTable
  }

  /** `t(key)`: `translations[language][key] || key`. Since no translation
      is the empty string, the fallback to the key happens exactly for
      unknown keys. */
  function T(language: Language, key: string): (r: string)
    ensures key in Translations(language) ==> r == Translations(language)[key]
    ensures key !in Translations(language) ==> r == key
    ensures r != ""  || key == ""
  {
    var table := Translations(language);
    if key in table && table[key] != "" then table[key] else key
  }

  /** Both languages translate the same keys. */
  lemma TranslationsCoverSameKeys()
    ensures Translations(Fr).Keys == Translations(Ar).Keys
  {
  }

  // ---------------------------------------------------------------------
  // Properties of the transitions

  lemma {:induction false} KeyCountPositive(items: seq<CartItem>, productId: int, color: Option<string>)
    ensures KeyCount(items, productId, color) > 0 <==> HasLine(items, productId, color)
  {
    if items != [] {
      KeyCountPositive(items[1..], productId, color);
      if HasLine(items[1..], productId, color) {
        var i :| 0 <= i < |items| - 1 && SameLine(items[1..][i], productId, color);
        assert SameLine(items[i + 1], productId, color);
      }
      if HasLine(items, productId, color) && !SameLine(items[0], productId, color) {
        var i :| 0 <= i < |items| && SameLine(items[i], productId, color);
        assert SameLine(items[1..][i - 1], productId, color);
      }
    }
  }

  lemma {:induction false} UniqueKeysAtMostOne(items: seq<CartItem>, productId: int, color: Option<string>)
    requires UniqueKeys(items)
    ensures KeyCount(items, productId, color) <= 1
  {
    if items != [] {
      UniqueKeysAtMostOne(items[1..], productId, color);
      if SameLine(items[0], productId, color) {
        KeyCountPositive(items[1..], productId, color);
      }
    }
  }

  lemma {:induction false} KeyFactsAppend(items: seq<CartItem>, line: CartItem, productId: int, color: Option<string>)
    ensures KeyCount(items + [line], productId, color) ==
      KeyCount(items, productId, color) + (if SameLine(line, productId, color) then 1 else 0)
    ensures KeyQuantity(items + [line], productId, color) ==
      KeyQuantity(items, productId, color) + (if SameLine(line, productId, color) then line.quantity else 0)
  {
    if items == [] {
      assert [line][1..] == [];
    } else {
      KeyFactsAppend(items[1..], line, productId, color);
      assert (items + [line])[1..] == items[1..] + [line];
    }
  }

  lemma {:induction false} KeyCountBump(items: seq<CartItem>, productId: int, color: Option<string>, quantity: int)
    ensures KeyCount(BumpLines(items, productId, color, quantity), productId, color) == KeyCount(items, productId, color)
  {
    if items != [] {
      KeyCountBump(items[1..], productId, color, quantity);
      var r := BumpLines(items, productId, color, quantity);
      assert r[1..] == BumpLines(items[1..], productId, color, quantity);
      assert SameLine(r[0], productId, color) == SameLine(items[0], productId, color);
    }
  }

  lemma {:induction false} KeyQuantityBump(items: seq<CartItem>, productId: int, color: Option<string>, quantity: int)
    ensures KeyQuantity(BumpLines(items, productId, color, quantity), productId, color) ==
      KeyQuantity(items, productId, color) + quantity * KeyCount(items, productId, color)
  {
    if items != [] {
      KeyQuantityBump(items[1..], productId, color, quantity);
      var r := BumpLines(items, productId, color, quantity);
      assert r[1..] == BumpLines(items[1..], productId, color, quantity);
      var k := KeyCount(items[1..], productId, color);
      if SameLine(items[0], productId, color) {
        assert KeyCount(items, productId, color) == 1 + k;
        assert quantity * (1 + k) == quantity + quantity * k;
      } else {
        assert KeyCount(items, productId, color) == k;
      }
    }
  }

  /** Adding under a key: the key ends up with at least one line, and
      every existing line of that key gains the added quantity. */
  lemma AddLineKeyFacts(items: seq<CartItem>, product: Product, quantity: int, color: Option<string>)
    ensures KeyCount(AddLine(items, product, quantity, color), product.id, color) == Max(1, KeyCount(items, product.id, color))
    ensures KeyQuantity(AddLine(items, product, quantity, color), product.id, color) ==
      KeyQuantity(items, product.id, color) + quantity * Max(1, KeyCount(items, product.id, color))
  {
    KeyCountPositive(items, product.id, color);
    if HasLine(items, product.id, color) {
      KeyCountBump(items, product.id, color, quantity);
      KeyQuantityBump(items, product.id, color, quantity);
    } else {
      KeyFactsAppend(items, CartItem(product, quantity, color), product.id, color);
    }
  }

  /** Applies ADD_TO_CART for the same product and colour once per quantity. */
  function AddAll(items: seq<CartItem>, product: Product, quantities: seq<int>, color: Option<string>): seq<CartItem>
    decreases |quantities|
  {
    if quantities == [] then items
    else AddAll(AddLine(items, product, quantities[0], color), product, quantities[1..], color)
  }

  function Sum(xs: seq<int>): int
  {
    if xs == [] then 0 else xs[0] + Sum(xs[1..])
  }

  /** Repeated adds under one key: starting with at most one line for the
      key, the cart ends with exactly one line for it, which has gained the
      sum of the added quantities. */
  lemma {:induction false} RepeatedAddsAccumulate(items: seq<CartItem>, product: Product, quantities: seq<int>, color: Option<string>)
    requires KeyCount(items, product.id, color) <= 1
    requires quantities != []
    ensures KeyCount(AddAll(items, product, quantities, color), product.id, color) == 1
    ensures KeyQuantity(AddAll(items, product, quantities, color), product.id, color) ==
      KeyQuantity(items, product.id, color) + Sum(quantities)
    decreases |quantities|
  {
    var next := AddLine(items, product, quantities[0], color);
    AddLineKeyFacts(items, product, quantities[0], color);
    if |quantities| > 1 {
      RepeatedAddsAccumulate(next, product, quantities[1..], color);
    }
  }

  /** Σ price over the lines with this key (the snapshot prices). */
  function KeyPriceSum(items: seq<CartItem>, productId: int, color: Option<string>): int
  {
    if items == [] then 0
    else (if SameLine(items[0], productId, color) then items[0].product.price else 0) + KeyPriceSum(items[1..], productId, color)
  }

  lemma {:induction false} BumpSums(items: seq<CartItem>, productId: int, color: Option<string>, quantity: int)
    ensures QuantitySum(BumpLines(items, productId, color, quantity)) ==
      QuantitySum(items) + quantity * KeyCount(items, productId, color)
    ensures LineSum(BumpLines(items, productId, color, quantity)) ==
      LineSum(items) + quantity * KeyPriceSum(items, productId, color)
  {
    if items != [] {
      BumpSums(items[1..], productId, color, quantity);
      var r := BumpLines(items, productId, color, quantity);
      assert r[1..] == BumpLines(items[1..], productId, color, quantity);
      if SameLine(items[0], productId, color) {
        var p := items[0].product.price;
        assert p * (items[0].quantity + quantity) == p * items[0].quantity + quantity * p;
        assert quantity * (1 + KeyCount(items[1..], productId, color)) == quantity + quantity * KeyCount(items[1..], productId, color);
        assert quantity * (p + KeyPriceSum(items[1..], productId, color)) == quantity * p + quantity * KeyPriceSum(items[1..], productId, color);
      }
    }
  }

  lemma {:induction false} SumsAppend(items: seq<CartItem>, line: CartItem)
    ensures QuantitySum(items + [line]) == QuantitySum(items) + line.quantity
    ensures LineSum(items + [line]) == LineSum(items) + line.product.price * line.quantity
  {
    if items == [] {
      assert [line][1..] == [];
    } else {
      SumsAppend(items[1..], line);
      assert (items + [line])[1..] == items[1..] + [line];
    }
  }

  lemma {:induction false} UniqueKeyPrice(items: seq<CartItem>, k: int)
    requires UniqueKeys(items) && 0 <= k < |items|
    ensures KeyPriceSum(items, items[k].product.id, items[k].selectedColor) == items[k].product.price
    decreases |items|
  {
    var id, c := items[k].product.id, items[k].selectedColor;
    if k == 0 {
      KeyCountPositive(items[1..], id, c);
      NoLineNoPrice(items[1..], id, c);
    } else {
      assert items[1..][k - 1] == items[k];
      UniqueKeyPrice(items[1..], k - 1);
      if SameLine(items[0], id, c) {
        assert SameLine(items[1..][k - 1], items[0].product.id, items[0].selectedColor);
      }
    }
  }

  lemma {:induction false} NoLineNoPrice(items: seq<CartItem>, productId: int, color: Option<string>)
    requires KeyCount(items, productId, color) == 0
    ensures KeyPriceSum(items, productId, color) == 0
  {
    if items != [] {
      NoLineNoPrice(items[1..], productId, color);
    }
  }

  /** Adding `quantity` under a key grows the item count by `quantity` and
      the total by `quantity` times the unit price of the line that holds
      the key: the price captured when the line was first added, or the
      given product's price for a new line. */
  lemma {:induction false} AddChangesTotals(items: seq<CartItem>, product: Product, quantity: int, color: Option<string>, k: int)
    requires UniqueKeys(items)
    requires HasLine(items, product.id, color) ==> 0 <= k < |items| && SameLine(items[k], product.id, color)
    ensures CartItemsCount(AddLine(items, product, quantity, color)) == CartItemsCount(items) + quantity
    ensures CartTotal(AddLine(items, product, quantity, color)) == CartTotal(items) + quantity *
      (if HasLine(items, product.id, color) then items[k].product.price else product.price)
  {
    var r := AddLine(items, product, quantity, color);
    if HasLine(items, product.id, color) {
      AddToExistingLine(items, product.id, color, quantity, k);
      assert r == BumpLines(items, product.id, color, quantity);
    } else {
      var line := CartItem(product, quantity, color);
      SumsAppend(items, line);
      assert r == items + [line];
    }
  }

  lemma AddToExistingLine(items: seq<CartItem>, productId: int, color: Option<string>, quantity: int, k: int)
    requires UniqueKeys(items)
    requires 0 <= k < |items| && SameLine(items[k], productId, color)
    ensures QuantitySum(BumpLines(items, productId, color, quantity)) == QuantitySum(items) + quantity
    ensures LineSum(BumpLines(items, productId, color, quantity)) == LineSum(items) + quantity * items[k].product.price
  {
    BumpSums(items, productId, color, quantity);
    assert HasLine(items, productId, color);
    UniqueKeysAtMostOne(items, productId, color);
    KeyCountPositive(items, productId, color);
    assert KeyCount(items, productId, color) == 1;
    UniqueKeyPrice(items, k);
    assert items[k].product.id == productId && items[k].selectedColor == color;
  }

  // ---------------------------------------------------------------------
  // The cart invariant is preserved

  lemma {:induction false} NoLineInSubset(items: seq<CartItem>, sub: seq<CartItem>, productId: int, color: Option<string>)
    requires forall x :: x in sub ==> x in items
    requires !HasLine(items, productId, color)
    ensures !HasLine(sub, productId, color)
  {
    forall i | 0 <= i < |sub| ensures !SameLine(sub[i], productId, color) {
      assert sub[i] in items;
      var j :| 0 <= j < |items| && items[j] == sub[i];
    }
  }

  lemma {:induction false} FilterKeepsUniqueKeys(items: seq<CartItem>, f: CartItem -> bool)
    requires UniqueKeys(items)
    ensures UniqueKeys(Filter(items, f))
  {
    if items != [] {
      FilterKeepsUniqueKeys(items[1..], f);
      if f(items[0]) {
        var r := Filter(items, f);
        assert r[0] == items[0] && r[1..] == Filter(items[1..], f);
        FilterMembers(items[1..], f);
        NoLineInSubset(items[1..], r[1..], items[0].product.id, items[0].selectedColor);
      }
    }
  }

  /** Two sequences whose lines carry the same keys index by index. */
  predicate SameKeys(a: seq<CartItem>, b: seq<CartItem>)
  {
    |a| == |b| && forall i :: 0 <= i < |a| ==>
      a[i].product.id == b[i].product.id && a[i].selectedColor == b[i].selectedColor
  }

  lemma {:induction false} SameKeysUnique(a: seq<CartItem>, b: seq<CartItem>)
    requires SameKeys(a, b) && UniqueKeys(a)
    ensures UniqueKeys(b)
  {
    if b != [] {
      SameKeysUnique(a[1..], b[1..]);
      forall i | 0 <= i < |b| - 1 ensures !SameLine(b[1..][i], b[0].product.id, b[0].selectedColor) {
        assert !SameLine(a[1..][i], a[0].product.id, a[0].selectedColor);
      }
    }
  }

  lemma {:induction false} AppendNewKeyUnique(items: seq<CartItem>, line: CartItem)
    requires UniqueKeys(items)
    requires !HasLine(items, line.product.id, line.selectedColor)
    ensures UniqueKeys(items + [line])
  {
    if items == [] {
      assert [line][1..] == [];
    } else {
      var r := items + [line];
      assert r[1..] == items[1..] + [line];
      assert !SameLine(items[0], line.product.id, line.selectedColor);
      forall i | 0 <= i < |items| - 1 ensures !SameLine(items[1..][i], line.product.id, line.selectedColor) {
        assert items[1..][i] == items[i + 1];
      }
      AppendNewKeyUnique(items[1..], line);
      forall i | 0 <= i < |r| - 1 ensures !SameLine(r[1..][i], items[0].product.id, items[0].selectedColor) {
        if i < |items| - 1 {
          assert r[1..][i] == items[1..][i];
        }
      }
    }
  }

  /** From a cart whose quantities are positive and whose keys are unique,
      every action keeps both, provided an added quantity is positive and a
      loaded cart satisfies the invariant itself. */
  lemma ReducePreservesInvariant(state: ShopState, action: ShopAction)
    requires CartInvariant(state.cartItems)
    requires action.AddToCart? ==> QuantityOrDefault(action.quantity) > 0
    requires action.LoadCart? ==> CartInvariant(action.items)
    ensures CartInvariant(Reduce(state, action).cartItems)
  {
    var items := state.cartItems;
    match action
    case AddToCart(product, quantity, color) =>
      var q := QuantityOrDefault(quantity);
      var r := AddLine(items, product, q, color);
      if HasLine(items, product.id, color) {
        assert SameKeys(items, r);
        SameKeysUnique(items, r);
      } else {
        AppendNewKeyUnique(items, CartItem(product, q, color));
      }
    case RemoveFromCart(productId) =>
      FilterKeepsUniqueKeys(items, (item: CartItem) => item.product.id != productId);
      var r := RemoveLines(items, productId);
      forall i | 0 <= i < |r| ensures r[i].quantity > 0 {
        assert r[i] in items;
      }
    case UpdateQuantity(productId, quantity) =>
      var mapped := SetLineQuantities(items, productId, Max(0, quantity));
      assert SameKeys(items, mapped);
      SameKeysUnique(items, mapped);
      FilterKeepsUniqueKeys(mapped, PositiveLine);
    case ClearCart =>
    case SetLanguage(_) =>
    case ToggleCart =>
    case SetCartOpen(_) =>
    case LoadCart(_) =>
  }

  /** UPDATE_QUANTITY with a value at most zero removes every line of the
      product, whatever its colour. */
  lemma UpdateToZeroRemovesProduct(items: seq<CartItem>, productId: int, quantity: int)
    requires quantity <= 0
    ensures !exists x :: x in UpdateLines(items, productId, quantity) && x.product.id == productId
    ensures forall color :: KeyCount(UpdateLines(items, productId, quantity), productId, color) == 0
  {
    var r := UpdateLines(items, productId, quantity);
    forall color ensures KeyCount(r, productId, color) == 0 {
      KeyCountPositive(r, productId, color);
      forall i | 0 <= i < |r| ensures !SameLine(r[i], productId, color) {
        assert r[i] in r;
      }
    }
  }

  // ---------------------------------------------------------------------
  // The provider

  /** ShopProvider: holds the reducer state; each operation dispatches one
      action and the new state is the reducer's result. Toasts, the
      storage write-back and the document attributes are side effects that
      are not modelled. */
  class Shop {
    var state: ShopState

    constructor()
      ensures state == InitialState()
    {
      state := InitialState();
    }

    method Dispatch(action: ShopAction)
      modifies this
      ensures state == Reduce(old(state), action)
    {
      state := Reduce(state, action);
    }

    /** The mount effect: a saved cart (if present and parseable) is loaded
        with LOAD_CART, then a saved language with SET_LANGUAGE. */
    method Hydrate(savedCart: Option<seq<CartItem>>, savedLanguage: Option<Language>)
      modifies this
      ensures state.cartItems == (if savedCart.Some? then savedCart.value else old(state.cartItems))
      ensures state.language == (if savedLanguage.Some? then savedLanguage.value else old(state.language))
      ensures state.isCartOpen == old(state.isCartOpen)
    {
      if savedCart.Some? {
        Dispatch(ShopAction.LoadCart(savedCart.value));
      }
      if savedLanguage.Some? {
        Dispatch(ShopAction.SetLanguage(savedLanguage.value));
      }
    }

    /** addToCart(product, quantity = 1, selectedColor). */
    method AddToCart(product: Product, quantity: int := 1, selectedColor: Option<string> := None)
      modifies this
      ensures state == Reduce(old(state), ShopAction.AddToCart(product, Some(quantity), selectedColor))
      ensures state.cartItems == AddLine(old(state.cartItems), product, quantity, selectedColor)
    {
      Dispatch(ShopAction.AddToCart(product, Some(quantity), selectedColor));
    }

    method RemoveFromCart(productId: int)
      modifies this
      ensures state == Reduce(old(state), ShopAction.RemoveFromCart(productId))
      ensures state.cartItems == RemoveLines(old(state.cartItems), productId)
    {
      Dispatch(ShopAction.RemoveFromCart(productId));
    }

    method UpdateQuantity(productId: int, quantity: int)
      modifies this
      ensures state == Reduce(old(state), ShopAction.UpdateQuantity(productId, quantity))
      ensures state.cartItems == UpdateLines(old(state.cartItems), productId, quantity)
    {
      Dispatch(ShopAction.UpdateQuantity(productId, quantity));
    }

    method ClearCart()
      modifies this
      ensures state == old(state).(cartItems := [])
    {
      Dispatch(ShopAction.ClearCart);
    }

    method SetLanguage(language: Language)
      modifies this
      ensures state == old(state).(language := language)
    {
      Dispatch(ShopAction.SetLanguage(language));
    }

    method ToggleCart()
      modifies this
      ensures state == old(state).(isCartOpen := !old(state.isCartOpen))
    {
      Dispatch(ShopAction.ToggleCart);
    }

    method SetCartOpen(open: bool)
      modifies this
      ensures state == old(state).(isCartOpen := open)
    {
      Dispatch(ShopAction.SetCartOpen(open));
    }
  }
}
