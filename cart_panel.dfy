/** The cart side panel (src/components/Cart.tsx): the free-shipping
    arithmetic, which parts of the panel show, the checkout-mode flag and
    the buttons, each of which calls one operation of the shop. */
module CartPanel {
  import opened Common
  import opened Types
  import opened ShopContext

  const ShippingThreshold: int := 500

  /** `Math.max(0, shippingThreshold - currentTotal)`. */
  function FreeShippingRemaining(total: int): (r: int)
    ensures r >= 0
    ensures r == 0 <==> total >= ShippingThreshold
    ensures r > 0 ==> total + r == ShippingThreshold
  {
    Max(0, ShippingThreshold - total)
  }

  /** The empty-cart view replaces everything else. */
  predicate ShowsEmptyView(items: seq<CartItem>)
  {
    |items| == 0
  }

  /** The progress banner: a non-empty cart still short of the threshold,
      in either mode. */
  predicate ShowsProgressBanner(items: seq<CartItem>)
  {
    |items| > 0 && FreeShippingRemaining(CartTotal(items)) > 0
  }

  /** The free-shipping badge sits in the summary, which only the cart view
      (not the checkout form) shows. */
  predicate ShowsFreeShippingBadge(items: seq<CartItem>, checkoutMode: bool)
  {
    |items| > 0 && !checkoutMode && CartTotal(items) >= ShippingThreshold
  }

  /** The banner and the badge never show together; in the cart view of a
      non-empty cart exactly one of them does, while the checkout view of
      a cart at or above the threshold shows neither. */
  lemma BannerAndBadgeExclusive(items: seq<CartItem>, checkoutMode: bool)
    ensures !(ShowsProgressBanner(items) && ShowsFreeShippingBadge(items, checkoutMode))
    ensures |items| > 0 && !checkoutMode ==> ShowsProgressBanner(items) != ShowsFreeShippingBadge(items, checkoutMode)
    ensures |items| > 0 && checkoutMode && CartTotal(items) >= ShippingThreshold ==>
      !ShowsProgressBanner(items) && !ShowsFreeShippingBadge(items, checkoutMode)
  {
  }

  /** The badge next to the title: the number of lines, shown only for a
      non-empty cart. */
  function TitleBadge(items: seq<CartItem>): (r: Option<int>)
    ensures r.None? <==> |items| == 0
    ensures r.Some? ==> r.value == |items|
  {
    if |items| > 0 then Some(|items|) else None
  }

  /** The title badge counts lines, the header badge quantities: with
      positive quantities the first never exceeds the second, and they
      differ as soon as one line holds more than one unit. */
  lemma TitleBadgeCountsLines(items: seq<CartItem>, k: int)
    requires AllPositive(items) && |items| > 0
    requires 0 <= k < |items|
    ensures TitleBadge(items).value <= CartItemsCount(items)
    ensures items[k].quantity > 1 ==> TitleBadge(items).value < CartItemsCount(items)
  {
    ExtraUnitsCounted(items, k);
  }

  lemma {:induction false} ExtraUnitsCounted(items: seq<CartItem>, k: int)
    requires AllPositive(items)
    requires 0 <= k < |items|
    ensures QuantitySum(items) >= |items| + (items[k].quantity - 1)
  {
    if k == 0 {
      CountAtLeastLines(items[1..]);
    } else {
      assert items[1..][k - 1] == items[k];
      ExtraUnitsCounted(items[1..], k - 1);
    }
  }

  /** "Clear cart" appears in the cart view only for more than one line. */
  predicate ShowsClearButton(items: seq<CartItem>, checkoutMode: bool)
  {
    |items| > 1 && !checkoutMode
  }

  /** The clear button shows exactly when, outside checkout, the title badge
      counts more than one line; the header badge then counts at least two
      units. */
  lemma ClearButtonNeedsTwoLines(items: seq<CartItem>, checkoutMode: bool)
    requires AllPositive(items)
    ensures ShowsClearButton(items, checkoutMode) <==>
      !checkoutMode && TitleBadge(items).Some? && TitleBadge(items).value > 1
    ensures ShowsClearButton(items, checkoutMode) ==> CartItemsCount(items) >= 2
  {
    CountAtLeastLines(items);
  }

  // ---------------------------------------------------------------------
  // What the ± buttons do to the item count

  /** Σ quantity over the lines of one product, any colour. */
  function ProductQuantity(items: seq<CartItem>, productId: int): int
  {
    if items == [] then 0
    else (if items[0].product.id == productId then items[0].quantity else 0) + ProductQuantity(items[1..], productId)
  }

  /** Number of lines of one product, any colour. */
  function ProductLines(items: seq<CartItem>, productId: int): nat
  {
    if items == [] then 0
    else (if items[0].product.id == productId then 1 else 0) + ProductLines(items[1..], productId)
  }

  lemma {:induction false} SetQuantitiesSum(items: seq<CartItem>, productId: int, quantity: int)
    ensures QuantitySum(SetLineQuantities(items, productId, quantity)) ==
      QuantitySum(items) - ProductQuantity(items, productId) + quantity * ProductLines(items, productId)
  {
    if items != [] {
      SetQuantitiesSum(items[1..], productId, quantity);
      var r := SetLineQuantities(items, productId, quantity);
      assert r[1..] == SetLineQuantities(items[1..], productId, quantity);
      var n := ProductLines(items[1..], productId);
      if items[0].product.id == productId {
        assert quantity * (1 + n) == quantity + quantity * n;
      }
    }
  }

  lemma {:induction false} SingleProductLine(items: seq<CartItem>, productId: int, k: int)
    requires 0 <= k < |items| && items[k].product.id == productId
    requires forall j :: 0 <= j < |items| && j != k ==> items[j].product.id != productId
    ensures ProductLines(items, productId) == 1
    ensures ProductQuantity(items, productId) == items[k].quantity
  {
    if k == 0 {
      NoProductLines(items[1..], productId);
    } else {
      assert items[1..][k - 1] == items[k];
      forall j | 0 <= j < |items| - 1 && j != k - 1 ensures items[1..][j].product.id != productId {
        assert items[1..][j] == items[j + 1];
      }
      SingleProductLine(items[1..], productId, k - 1);
    }
  }

  lemma {:induction false} NoProductLines(items: seq<CartItem>, productId: int)
    requires forall j :: 0 <= j < |items| ==> items[j].product.id != productId
    ensures ProductLines(items, productId) == 0 && ProductQuantity(items, productId) == 0
  {
    if items != [] {
      assert forall j :: 0 <= j < |items| - 1 ==> items[1..][j] == items[j + 1];
      NoProductLines(items[1..], productId);
    }
  }

  /** Dropping lines of quantity zero leaves Σ quantity alone. */
  lemma {:induction false} FilterPositiveSum(s: seq<CartItem>)
    requires forall i :: 0 <= i < |s| ==> s[i].quantity >= 0
    ensures QuantitySum(Filter(s, PositiveLine)) == QuantitySum(s)
  {
    if s != [] {
      assert forall i :: 0 <= i < |s| - 1 ==> s[1..][i] == s[i + 1];
      FilterPositiveSum(s[1..]);
      if PositiveLine(s[0]) {
        assert Filter(s, PositiveLine)[1..] == Filter(s[1..], PositiveLine);
      }
    }
  }

  /** A ± step on a product held in one line moves the header's item count
      by exactly that step, including − on a line of one, which removes it. */
  lemma StepOnSingleLine(items: seq<CartItem>, k: int, delta: int)
    requires AllPositive(items)
    requires 0 <= k < |items|
    requires forall j :: 0 <= j < |items| && j != k ==> items[j].product.id != items[k].product.id
    requires items[k].quantity + delta >= 0
    ensures CartItemsCount(UpdateLines(items, items[k].product.id, items[k].quantity + delta)) ==
      CartItemsCount(items) + delta
  {
    var id, q := items[k].product.id, items[k].quantity + delta;
    assert Max(0, q) == q;
    var mapped := SetLineQuantities(items, id, q);
    assert UpdateLines(items, id, q) == Filter(mapped, PositiveLine);
    FilterPositiveSum(mapped);
    SetQuantitiesSum(items, id, q);
    SingleProductLine(items, id, k);
    assert QuantitySum(mapped) == QuantitySum(items) - items[k].quantity + q * 1;
  }

  /** Minus on a line with quantity one removes every line of that
      product, including its other colours, whatever their quantities. */
  lemma MinusOnOneRemovesAllColours(items: seq<CartItem>, item: CartItem)
    requires item.quantity == 1
    ensures forall x :: x in UpdateLines(items, item.product.id, item.quantity - 1) ==> x.product.id != item.product.id
  {
  }

  /** Plus sets every line of the product, in every colour, to this line's
      quantity plus one. */
  lemma PlusSetsAllColours(items: seq<CartItem>, item: CartItem)
    requires item.quantity >= 0
    ensures forall x :: x in items && x.product.id == item.product.id ==>
      x.(quantity := item.quantity + 1) in UpdateLines(items, item.product.id, item.quantity + 1)
  {
  }

  // ---------------------------------------------------------------------
  // The panel

  /** The panel's own flag: checkout form or cart view. */
  class Panel {
    var checkoutMode: bool

    constructor()
      ensures !checkoutMode
    {
      checkoutMode := false;
    }

    /** The effect on `isCartOpen`: opening the panel shows the cart view. */
    method OnCartOpenChanged(isCartOpen: bool)
      modifies this
      ensures checkoutMode == (old(checkoutMode) && !isCartOpen)
    {
      if isCartOpen {
        checkoutMode := false;
      }
    }

    /** The checkout button. */
    method Checkout()
      modifies this
      ensures checkoutMode
    {
      checkoutMode := true;
    }

    /** The back button, and the inline form's `onCancel`. */
    method Back()
      modifies this
      ensures !checkoutMode
    {
      checkoutMode := false;
    }

    /** Minus: `updateQuantity(id, quantity - 1)`. */
    method Minus(shop: Shop, item: CartItem)
      modifies shop
      ensures shop.state == old(shop.state).(cartItems := UpdateLines(old(shop.state.cartItems), item.product.id, item.quantity - 1))
    {
      shop.UpdateQuantity(item.product.id, item.quantity - 1);
    }

    /** Plus: `updateQuantity(id, quantity + 1)`. */
    method Plus(shop: Shop, item: CartItem)
      modifies shop
      ensures shop.state == old(shop.state).(cartItems := UpdateLines(old(shop.state.cartItems), item.product.id, item.quantity + 1))
    {
      shop.UpdateQuantity(item.product.id, item.quantity + 1);
    }

    /** The trash button removes the product in every colour. */
    method Trash(shop: Shop, item: CartItem)
      modifies shop
      ensures shop.state == old(shop.state).(cartItems := RemoveLines(old(shop.state.cartItems), item.product.id))
    {
      shop.RemoveFromCart(item.product.id);
    }

    method ClearCart(shop: Shop)
      modifies shop
      ensures shop.state == old(shop.state).(cartItems := [])
    {
      shop.ClearCart();
    }

    /** "Continue shopping" (both views) closes the panel. */
    method ContinueShopping(shop: Shop)
      modifies shop
      ensures shop.state == old(shop.state).(isCartOpen := false)
    {
      shop.SetCartOpen(false);
    }
  }
}
