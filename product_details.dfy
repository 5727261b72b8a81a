/** The product page (src/pages/ProductDetails.tsx): the lookup of the
    product named by the route, the similar products, the stock and promo
    flags, the quantity stepper and the add / buy-now handlers. */
module ProductDetails {
  import opened Common
  import opened Types
  import opened ShopContext

  /** `find(p => p.id === id)` over a product list: the first match. */
  function FindById(products: seq<Product>, id: int): (r: Option<Product>)
    ensures r.None? <==> forall k :: 0 <= k < |products| ==> products[k].id != id
    ensures r.Some? ==> (r.value.id == id &&
      exists k :: 0 <= k < |products| && products[k] == r.value && forall j :: 0 <= j < k ==> products[j].id != id)
  {
    if products == [] then None
    else if products[0].id == id then Some(products[0])
    else
      var r := FindById(products[1..], id);
      FindInTail(products, id, r);
      r
  }

  lemma FindInTail(products: seq<Product>, id: int, r: Option<Product>)
    requires products != [] && products[0].id != id
    requires r.Some? ==> (r.value.id == id &&
      exists k :: 0 <= k < |products| - 1 && products[1..][k] == r.value && forall j :: 0 <= j < k ==> products[1..][j].id != id)
    ensures r.Some? ==>
      exists k :: 0 <= k < |products| && products[k] == r.value && forall j :: 0 <= j < k ==> products[j].id != id
  {
    if r.Some? {
      var k :| 0 <= k < |products| - 1 && products[1..][k] == r.value && forall j :: 0 <= j < k ==> products[1..][j].id != id;
      assert products[k + 1] == r.value;
      forall j | 0 <= j < k + 1 ensures products[j].id != id {
        if j > 0 {
          assert products[j] == products[1..][j - 1];
        }
      }
    }
  }

  /** The product shown: the first catalog product, across categories in
      order, whose id equals the route id. `routeId` is `Number(id)`; None
      stands for NaN, which equals nothing. Without a catalog there is no
      product. */
  function FindProduct(categories: Option<seq<CategoryRes>>, routeId: Option<int>): (r: Option<Product>)
    ensures categories.None? || routeId.None? ==> r.None?
    ensures categories.Some? && routeId.Some? ==>
      (r.None? <==> forall p :: p in FlatProducts(categories.value) ==> p.id != routeId.value)
    ensures r.Some? ==> (r.value.id == routeId.value &&
      exists k :: 0 <= k < |FlatProducts(categories.value)| && FlatProducts(categories.value)[k] == r.value &&
        forall j :: 0 <= j < k ==> FlatProducts(categories.value)[j].id != routeId.value)
  {
    if categories.None? || routeId.None? then None else FindById(FlatProducts(categories.value), routeId.value)
  }

  /** The similarity test of the source, where `product?.category` and
      `product?.id` are undefined without a product: then the products
      without a category are the similar ones. */
  predicate SimilarTo(p: Product, product: Option<Product>)
  {
    (if product.Some? then p.category == product.value.category else p.category.None?) &&
    (product.None? || p.id != product.value.id)
  }

  /** Every catalog product similar to the shown one, in catalog order,
      each as often as it occurs: the `filter` before the `slice`. */
  function AllSimilar(products: seq<Product>, product: Option<Product>): (r: seq<Product>)
    ensures forall p :: p in r <==> p in products && SimilarTo(p, product)
    ensures forall p :: multiset(r)[p] == if SimilarTo(p, product) then multiset(products)[p] else 0
    ensures IsSubsequence(r, products)
  {
    var similar := (p: Product) => SimilarTo(p, product);
    FilterMembers(products, similar);
    FilterIsSubsequence(products, similar);
    forall p ensures multiset(Filter(products, similar))[p] == if similar(p) then multiset(products)[p] else 0 {
      FilterMultiplicity(products, similar, p);
    }
    Filter(products, similar)
  }

  /** `similarProducts`: the first eight catalog products similar to the
      shown one, in catalog order; none without a catalog. */
  function SimilarProducts(categories: Option<seq<CategoryRes>>, product: Option<Product>): (r: seq<Product>)
    ensures categories.None? ==> r == []
    ensures categories.Some? ==> |r| == Min(8, |AllSimilar(FlatProducts(categories.value), product)|)
    ensures categories.Some? ==> r == AllSimilar(FlatProducts(categories.value), product)[..|r|]
    ensures |r| <= 8
    ensures categories.Some? ==> IsSubsequence(r, FlatProducts(categories.value))
    ensures forall p :: p in r ==> SimilarTo(p, product)
    ensures categories.Some? && |r| < 8 ==>
      forall p :: p in FlatProducts(categories.value) && SimilarTo(p, product) ==> p in r
  {
    if categories.None? then []
    else
      var similar := AllSimilar(FlatProducts(categories.value), product);
      var r := Take(similar, 8);
      PrefixIsSubsequence(similar, |r|);
      SubsequenceTransitive(r, similar, FlatProducts(categories.value));
      r
  }

  /** A shown product is never among its own similar products. */
  lemma NotSimilarToItself(categories: Option<seq<CategoryRes>>, product: Product)
    ensures product !in SimilarProducts(categories, Some(product))
  {
  }

  predicate IsOutOfStock(product: Product)
  {
    product.stock == 0
  }

  /** `discount !== 0`: a product without a discount value counts as a
      promotion; only an explicit zero does not. */
  predicate IsPromo(product: Product)
  {
    product.discount != Some(0)
  }

  lemma PromoWithoutDiscount(product: Product)
    ensures product.discount.None? ==> IsPromo(product)
    ensures IsPromo(product) <==> !(product.discount.Some? && product.discount.value == 0)
  {
  }

  /** The price shown next to the stepper. */
  function TotalPrice(product: Product, quantity: int): (r: int)
    ensures r == CartTotal([CartItem(product, quantity, None)])
  {
    var line := [CartItem(product, quantity, None)];
    assert line[1..] == [];
    assert LineSum(line) == product.price * quantity + LineSum(line[1..]);
    product.price * quantity
  }

  /** Adding the page's selection to a cart without that line raises the
      cart total by exactly the displayed total price. */
  lemma AddRaisesTotalByDisplayedPrice(items: seq<CartItem>, product: Product, quantity: int, color: Option<string>)
    requires UniqueKeys(items)
    requires !HasLine(items, product.id, color)
    ensures CartTotal(AddLine(items, product, quantity, color)) == CartTotal(items) + TotalPrice(product, quantity)
  {
    AddChangesTotals(items, product, quantity, color, 0);
  }

  /** The page's own state: the product it shows, the stepper quantity and
      the colour, which no handler ever sets. The route `/product/:id`
      keeps one page instance, so following a link to another product
      (a similar-product card) changes the shown product but keeps the
      quantity. The add/buy-now spinners and the description toggle carry
      no logic and are not modelled. */
  class ProductPage {
    var product: Product
    var quantity: int
    var selectedColor: Option<string>

    /** The stepper never drops below one; the colour stays unset. */
    predicate Valid()
      reads this
    {
      1 <= quantity && selectedColor.None?
    }

    /** The quantity is within what the shown product allows. Every
        handler keeps this, but a change of product does not restore it. */
    predicate WithinStock()
      reads this
    {
      quantity <= Max(1, product.stock)
    }

    constructor(product: Product)
      ensures this.product == product && quantity == 1 && selectedColor.None?
      ensures Valid() && WithinStock()
    {
      this.product := product;
      quantity := 1;
      selectedColor := None;
    }

    /** Navigating to another product id: the same page now shows
        `newProduct`; its state is kept. */
    method OnRouteChange(newProduct: Product)
      requires Valid()
      modifies this
      ensures Valid()
      ensures product == newProduct && quantity == old(quantity) && selectedColor == old(selectedColor)
    {
      product := newProduct;
    }

    /** `incrementQuantity`: only below the stock. */
    method Increment()
      requires Valid()
      modifies this
      ensures Valid()
      ensures quantity == if old(quantity) < old(product.stock) then old(quantity) + 1 else old(quantity)
      ensures product == old(product) && selectedColor == old(selectedColor)
      ensures old(WithinStock()) ==> WithinStock()
    {
      if quantity < product.stock {
        quantity := quantity + 1;
      }
    }

    /** `decrementQuantity`: only above one. */
    method Decrement()
      requires Valid()
      modifies this
      ensures Valid()
      ensures quantity == if old(quantity) > 1 then old(quantity) - 1 else old(quantity)
      ensures product == old(product) && selectedColor == old(selectedColor)
      ensures old(WithinStock()) ==> WithinStock()
    {
      if quantity > 1 {
        quantity := quantity - 1;
      }
    }

    /** The number field's change handler; `value` is `parseInt` of the
      field, None for NaN. Accepted only when 0 < value <= stock. */
    method OnQuantityInput(value: Option<int>)
      requires Valid()
      modifies this
      ensures Valid()
      ensures quantity == if value.Some? && 0 < value.value <= old(product.stock) then value.value else old(quantity)
      ensures product == old(product) && selectedColor == old(selectedColor)
      ensures old(WithinStock()) || quantity != old(quantity) ==> WithinStock()
    {
      if value.Some? && value.value > 0 && value.value <= product.stock {
        quantity := value.value;
      }
    }

    /** `handleAddToCart`: nothing when out of stock; otherwise adds the
        selected quantity and colour, unchecked against the stock. The
        delay and the toast are not modelled. */
    method AddToCart(shop: Shop)
      modifies shop
      ensures IsOutOfStock(product) ==> shop.state == old(shop.state)
      ensures !IsOutOfStock(product) ==>
        shop.state == old(shop.state).(cartItems := AddLine(old(shop.state.cartItems), product, quantity, selectedColor))
    {
      if IsOutOfStock(product) {
        return;
      }
      shop.AddToCart(product, quantity, selectedColor);
    }

    /** `handleBuyNow`: nothing when out of stock; otherwise adds like
        AddToCart and then opens the cart panel. */
    method BuyNow(shop: Shop)
      modifies shop
      ensures IsOutOfStock(product) ==> shop.state == old(shop.state)
      ensures !IsOutOfStock(product) ==>
        shop.state == old(shop.state).(cartItems := AddLine(old(shop.state.cartItems), product, quantity, selectedColor),
                                       isCartOpen := true)
    {
      if IsOutOfStock(product) {
        return;
      }
      shop.AddToCart(product, quantity, selectedColor);
      shop.SetCartOpen(true);
    }
  }

  /** Raising the quantity to 5 on a product with stock 10 and then
      following a link to a similar product with stock 2 leaves the page
      at quantity 5, and adding puts 5 units of the second product in the
      cart: more than its stock. */
  method CarriedQuantityExceedsStock(a: Product, b: Product, shop: Shop) returns (page: ProductPage)
    requires a.stock == 10 && b.stock == 2
    modifies shop
    ensures page.product == b && page.quantity == 5 && page.quantity > page.product.stock
    ensures !page.WithinStock()
    ensures shop.state.cartItems == AddLine(old(shop.state.cartItems), b, 5, None)
  {
    page := new ProductPage(a);
    page.Increment();
    page.Increment();
    page.Increment();
    page.Increment();
    page.OnRouteChange(b);
    page.AddToCart(shop);
  }
}
