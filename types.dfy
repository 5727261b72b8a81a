/** The records the storefront passes around (src/models/types.ts). One
    Product shape is used throughout; its identifier is the backend's
    integer id. */
module Types {
  import opened Common

  /** A catalog product as the backend sends it. Image paths, the status
      string and the `promo` flag carry no logic in the modelled code and
      are left out. */
  datatype Product = Product(
    id: int,
    name: string,
    description: Option<string>,
    category: Option<string>,
    price: int,
    originalPrice: int,
    stock: nat,
    discount: Option<int>)

  /** A category with its products, as `GET /categories` returns it. */
  datatype CategoryRes = CategoryRes(id: int, name: string, description: string, products: seq<Product>)

  /** A category without its products: what the header lists. */
  datatype Category = Category(id: int, name: string, description: string)

  /** One cart line: a product snapshot, a quantity and an optional colour. */
  datatype CartItem = CartItem(product: Product, quantity: int, selectedColor: Option<string>)

  /** What the checkout form hands to its `onSubmit` callback. */
  datatype CustomerInfo = CustomerInfo(name: string, phone: string, address: string)

  /** `categories.flatMap(c => c.products)`: every product of every category,
      category by category, each in its category's order. */
  function FlatProducts(cats: seq<CategoryRes>): (r: seq<Product>)
  {
    if cats == [] then [] else cats[0].products + FlatProducts(cats[1..])
  }

  lemma {:induction false} FlatProductsMembers(cats: seq<CategoryRes>)
    ensures forall p :: p in FlatProducts(cats) <==> exists i :: 0 <= i < |cats| && p in cats[i].products
  {
    if cats != [] {
      FlatProductsMembers(cats[1..]);
      forall p | p in FlatProducts(cats) ensures exists i :: 0 <= i < |cats| && p in cats[i].products {
        if p !in cats[0].products {
          assert p in FlatProducts(cats[1..]);
          var i :| 0 <= i < |cats| - 1 && p in cats[1..][i].products;
          assert p in cats[i + 1].products;
        }
      }
      forall p | exists i :: 0 <= i < |cats| && p in cats[i].products ensures p in FlatProducts(cats) {
        var i :| 0 <= i < |cats| && p in cats[i].products;
        if i > 0 {
          assert p in cats[1..][i - 1].products;
        }
      }
    }
  }
}
