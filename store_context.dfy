/**
 * The merchandise store: the product catalogue, the shopping cart and the
 * order list. Prices are integer cents. Persisting the cart and the orders
 * to browser storage is not part of this model.
 */
module StoreContext {
  import opened Wrappers
  import opened Text
  import opened Seqs

  datatype Category = Apparel | Accessories | Collectibles | Digital

  /** The category's string value, as pages compare it against their filter. */
  function CategoryName(c: Category): (r: string)
    ensures r != "all"
  {
    match c
    case Apparel => "apparel"
    case Accessories => "accessories"
    case Collectibles => "collectibles"
    case Digital => "digital"
  }

  datatype Product = Product(
    id: string,
    name: string,
    description: string,
    priceCents: nat,
    category: Category,
    movieId: Option<string>,
    inStock: bool)

  datatype CartItem = CartItem(product: Product, quantity: int)

  datatype OrderStatus = Pending | Processing | Shipped | Delivered

  datatype Order = Order(
    id: string,
    items: seq<CartItem>,
    totalCents: int,
    status: OrderStatus,
    orderDate: nat,
    trackingNumber: Option<string>)

  /** The quantity `addToCart` uses when none is given. */
  const DefaultQuantity := 1

  const MockProducts: seq<Product> := [
    Product("1", "Quantum Heist T-Shirt", "Official movie merchandise featuring the iconic logo", 2499, Apparel, Some("1"), true),
    Product("2", "CineStream Premium Hoodie", "Comfortable hoodie with embroidered CineStream logo", 4999, Apparel, None, true),
    Product("3", "Midnight Chronicles Poster Set", "Set of 3 high-quality posters from the hit series", 1999, Collectibles, Some("2"), true),
    Product("4", "CineStream Coffee Mug", "Start your day with your favorite streaming platform", 1499, Accessories, None, true),
    Product("5", "Stellar Horizon Soundtrack", "Digital download of the epic space series soundtrack", 999, Digital, Some("4"), true),
    Product("6", "Ocean's Legacy Cap", "Stylish cap inspired by the heist movie", 2299, Accessories, Some("3"), true),
    Product("7", "Shadow Protocol Action Figure", "Collectible action figure of the main character", 3499, Collectibles, Some("6"), false),
    Product("8", "CineStream Phone Case", "Protect your phone with style", 1899, Accessories, None, true)]

  /** No two cart lines are for the same product id. */
  predicate UniqueIds(cart: seq<CartItem>)
  {
    forall i, j :: 0 <= i < j < |cart| ==> cart[i].product.id != cart[j].product.id
  }

  /** Some line of the cart is for `productId`. */
  predicate HasProduct(cart: seq<CartItem>, productId: string)
  {
    exists i :: 0 <= i < |cart| && cart[i].product.id == productId
  }

  /** `addToCart(product, quantity)`: merge into the product's line, or append a new line. */
  function CartAdd(cart: seq<CartItem>, product: Product, quantity: int): (r: seq<CartItem>)
  {
    if HasProduct(cart, product.id) then Bump(cart, product, quantity)
    else cart + [CartItem(product, quantity)]
  }

  /** `removeFromCart(productId)`. */
  function CartRemove(cart: seq<CartItem>, productId: string): (r: seq<CartItem>)
    ensures !HasProduct(r, productId)
    ensures IsSubsequence(r, cart)
  {
    FilterIsSubsequence(cart, (item: CartItem) => item.product.id != productId);
    Filter(cart, (item: CartItem) => item.product.id != productId)
  }

  /** `updateQuantity(productId, quantity)` for a positive quantity: the matching line takes the new quantity. */
  function CartSetQuantity(cart: seq<CartItem>, productId: string, quantity: int): (r: seq<CartItem>)
  {
    MapWhere(cart, (item: CartItem) => item.product.id == productId,
                   (item: CartItem) => item.(quantity := quantity))
  }

  /** `updateQuantity(productId, quantity)`: a quantity of zero or less removes the line. */
  function CartUpdate(cart: seq<CartItem>, productId: string, quantity: int): (r: seq<CartItem>)
    ensures quantity <= 0 ==> r == CartRemove(cart, productId)
  {
    if quantity <= 0 then CartRemove(cart, productId) else CartSetQuantity(cart, productId, quantity)
  }

  function LineTotal(item: CartItem): int
  {
    item.product.priceCents * item.quantity
  }

  /** `getCartTotal()`: the sum of price times quantity over the lines. */
  function CartTotal(cart: seq<CartItem>): (r: int)
    ensures cart == [] ==> r == 0
    decreases |cart|
  {
    if cart == [] then 0 else LineTotal(cart[0]) + CartTotal(cart[1..])
  }

  lemma {:induction false} CartTotalAppend(a: seq<CartItem>, b: seq<CartItem>)
    ensures CartTotal(a + b) == CartTotal(a) + CartTotal(b)
    decreases |a|
  {
    if a == [] {
      assert a + b == b;
    } else {
      assert (a + b)[0] == a[0];
      assert (a + b)[1..] == a[1..] + b;
      CartTotalAppend(a[1..], b);
    }
  }

  /**
   * Adding a product already in the cart raises that line's quantity by the
   * amount and leaves every other line as it was; the cart keeps its length.
   */
  lemma AddExisting(cart: seq<CartItem>, product: Product, quantity: int, i: nat)
    requires i < |cart| && cart[i].product.id == product.id
    ensures var r := CartAdd(cart, product, quantity);
      |r| == |cart| &&
      r[i] == cart[i].(quantity := cart[i].quantity + quantity) &&
      forall j :: 0 <= j < |cart| && cart[j].product.id != product.id ==> r[j] == cart[j]
  {
  }

  /** Adding a product not in the cart appends one line at the end. */
  lemma AddNew(cart: seq<CartItem>, product: Product, quantity: int)
    requires !HasProduct(cart, product.id)
    ensures CartAdd(cart, product, quantity) == cart + [CartItem(product, quantity)]
  {
  }

  /** Adding keeps product ids in the cart unique, and the product is then in the cart. */
  lemma AddKeepsIdsUnique(cart: seq<CartItem>, product: Product, quantity: int)
    requires UniqueIds(cart)
    ensures UniqueIds(CartAdd(cart, product, quantity))
    ensures HasProduct(CartAdd(cart, product, quantity), product.id)
  {
    var r := CartAdd(cart, product, quantity);
    if HasProduct(cart, product.id) {
      var i :| 0 <= i < |cart| && cart[i].product.id == product.id;
      assert r[i].product.id == product.id;
    } else {
      assert r[|cart|].product.id == product.id;
    }
  }

  /**
   * With unique ids, adding `quantity` of a product raises the total by
   * exactly its price times `quantity`.
   */
  lemma {:induction false} AddRaisesTotal(cart: seq<CartItem>, product: Product, quantity: int)
    requires UniqueIds(cart)
    requires forall i :: 0 <= i < |cart| && cart[i].product.id == product.id ==> cart[i].product == product
    ensures CartTotal(CartAdd(cart, product, quantity)) == CartTotal(cart) + product.priceCents * quantity
  {
    if HasProduct(cart, product.id) {
      BumpTotal(cart, product, quantity);
    } else {
      CartTotalAppend(cart, [CartItem(product, quantity)]);
    }
  }

  function Bump(cart: seq<CartItem>, product: Product, quantity: int): seq<CartItem>
  {
    MapWhere(cart, (item: CartItem) => item.product.id == product.id,
                   (item: CartItem) => item.(quantity := item.quantity + quantity))
  }

  lemma {:induction false} BumpTotal(cart: seq<CartItem>, product: Product, quantity: int)
    requires UniqueIds(cart)
    requires forall i :: 0 <= i < |cart| && cart[i].product.id == product.id ==> cart[i].product == product
    ensures CartTotal(Bump(cart, product, quantity)) ==
      CartTotal(cart) + (if HasProduct(cart, product.id) then product.priceCents * quantity else 0)
    decreases |cart|
  {
    if cart != [] {
      var b := Bump(cart, product, quantity);
      var rest := cart[1..];
      assert b[1..] == Bump(rest, product, quantity);
      assert UniqueIds(rest) by {
        forall i, j | 0 <= i < j < |rest| ensures rest[i].product.id != rest[j].product.id {
          assert rest[i] == cart[i + 1] && rest[j] == cart[j + 1];
        }
      }
      BumpTotal(rest, product, quantity);
      if cart[0].product.id == product.id {
        assert !HasProduct(rest, product.id) by {
          forall i | 0 <= i < |rest| ensures rest[i].product.id != product.id {
            assert rest[i] == cart[i + 1];
          }
        }
        var q := cart[0].quantity;
        assert LineTotal(b[0]) == product.priceCents * (q + quantity);
        assert product.priceCents * (q + quantity) == product.priceCents * q + product.priceCents * quantity;
      } else {
        assert HasProduct(cart, product.id) <==> HasProduct(rest, product.id) by {
          if HasProduct(cart, product.id) {
            var i :| 0 <= i < |cart| && cart[i].product.id == product.id;
            assert rest[i - 1] == cart[i];
          }
          if HasProduct(rest, product.id) {
            var i :| 0 <= i < |rest| && rest[i].product.id == product.id;
            assert cart[i + 1] == rest[i];
          }
        }
      }
    }
  }

  /** Removing drops exactly the lines for `productId` and keeps every other line, in order. */
  lemma RemoveKeepsOthers(cart: seq<CartItem>, productId: string)
    ensures forall i :: 0 <= i < |cart| && cart[i].product.id != productId ==> cart[i] in CartRemove(cart, productId)
    ensures forall k :: 0 <= k < |CartRemove(cart, productId)| ==> CartRemove(cart, productId)[k].product.id != productId
    ensures UniqueIds(cart) ==> UniqueIds(CartRemove(cart, productId))
  {
    var r := CartRemove(cart, productId);
    if UniqueIds(cart) {
      SubsequenceKeepsUnique(r, cart);
    }
  }

  lemma {:induction false} SubsequenceKeepsUnique(a: seq<CartItem>, b: seq<CartItem>)
    requires IsSubsequence(a, b) && UniqueIds(b)
    ensures UniqueIds(a)
    decreases |b|
  {
    if b != [] {
      assert UniqueIds(b[1..]) by {
        forall i, j | 0 <= i < j < |b[1..]| ensures b[1..][i].product.id != b[1..][j].product.id {
          assert b[1..][i] == b[i + 1] && b[1..][j] == b[j + 1];
        }
      }
      if a != [] && a[0] == b[0] && IsSubsequence(a[1..], b[1..]) {
        SubsequenceKeepsUnique(a[1..], b[1..]);
        forall j | 0 < j < |a| ensures a[0].product.id != a[j].product.id {
          SubsequenceMember(a[1..], b[1..], j - 1);
          var k :| 0 <= k < |b[1..]| && b[1..][k] == a[1..][j - 1];
          assert b[k + 1] == a[j];
        }
      } else {
        SubsequenceKeepsUnique(a, b[1..]);
      }
    }
  }

  lemma {:induction false} SubsequenceMember<T>(a: seq<T>, b: seq<T>, i: nat)
    requires IsSubsequence(a, b) && i < |a|
    ensures exists k :: 0 <= k < |b| && b[k] == a[i]
    decreases |b|
  {
    if a != [] && b != [] && a[0] == b[0] && IsSubsequence(a[1..], b[1..]) {
      if i == 0 {
        assert b[0] == a[0];
      } else {
        SubsequenceMember(a[1..], b[1..], i - 1);
        var k :| 0 <= k < |b[1..]| && b[1..][k] == a[1..][i - 1];
        assert b[k + 1] == a[i];
      }
    } else {
      SubsequenceMember(a, b[1..], i);
      var k :| 0 <= k < |b[1..]| && b[1..][k] == a[i];
      assert b[k + 1] == a[i];
    }
  }

  /**
   * A positive quantity sets the matching line's quantity and nothing else:
   * no line is added or removed and the product ids stay where they were.
   */
  lemma UpdatePositive(cart: seq<CartItem>, productId: string, quantity: int)
    requires quantity > 0
    ensures var r := CartUpdate(cart, productId, quantity);
      |r| == |cart| &&
      (forall i :: 0 <= i < |cart| ==> r[i].product == cart[i].product) &&
      (forall i :: 0 <= i < |cart| ==>
        r[i].quantity == if cart[i].product.id == productId then quantity else cart[i].quantity)
  {
  }

  /** `getProductsByCategory(category)`: the catalogue products of that category, in catalogue order. */
  function ProductsByCategory(products: seq<Product>, category: string): (r: seq<Product>)
    ensures IsSubsequence(r, products)
    ensures forall i :: 0 <= i < |r| ==> CategoryName(r[i].category) == category
    ensures forall i :: 0 <= i < |products| && CategoryName(products[i].category) == category ==> products[i] in r
  {
    FilterIsSubsequence(products, (p: Product) => CategoryName(p.category) == category);
    Filter(products, (p: Product) => CategoryName(p.category) == category)
  }

  /** `getProductsByMovie(movieId)`: the catalogue products tied to that movie, in catalogue order. */
  function ProductsByMovie(products: seq<Product>, movieId: string): (r: seq<Product>)
    ensures IsSubsequence(r, products)
    ensures forall i :: 0 <= i < |r| ==> r[i].movieId == Some(movieId)
    ensures forall i :: 0 <= i < |products| && products[i].movieId == Some(movieId) ==> products[i] in r
  {
    FilterIsSubsequence(products, (p: Product) => p.movieId == Some(movieId));
    Filter(products, (p: Product) => p.movieId == Some(movieId))
  }

  /** The order `checkout` records at time `now` (milliseconds) for the cart. */
  function NewOrder(cart: seq<CartItem>, now: nat): (o: Order)
    ensures o.items == cart && o.totalCents == CartTotal(cart)
    ensures o.status == Processing && o.trackingNumber.Some?
  {
    Order(NatToString(now), cart, CartTotal(cart), Processing, now, Some("CS" + NatToString(now)))
  }

  /** The catalogue's product ids are distinct and only "Shadow Protocol Action Figure" is out of stock. */
  lemma MockCatalogueFacts()
    ensures forall i, j :: 0 <= i < j < |MockProducts| ==> MockProducts[i].id != MockProducts[j].id
    ensures forall i :: 0 <= i < |MockProducts| ==> (!MockProducts[i].inStock <==> MockProducts[i].id == "7")
  {
  }

  class Store {
    const products: seq<Product>
    var cart: seq<CartItem>
    var orders: seq<Order>

    ghost predicate Valid()
      reads this
    {
      UniqueIds(cart)
    }

    constructor (products: seq<Product>)
      ensures this.products == products && cart == [] && orders == []
      ensures Valid()
    {
      this.products := products;
      cart := [];
      orders := [];
    }

    method AddToCart(product: Product, quantity: int)
      modifies this
      ensures cart == CartAdd(old(cart), product, quantity) && orders == old(orders)
      ensures old(Valid()) ==> Valid()
    {
      if old(Valid()) {
        AddKeepsIdsUnique(cart, product, quantity);
      }
      cart := CartAdd(cart, product, quantity);
    }

    method RemoveFromCart(productId: string)
      modifies this
      ensures cart == CartRemove(old(cart), productId) && orders == old(orders)
      ensures old(Valid()) ==> Valid()
    {
      RemoveKeepsOthers(cart, productId);
      cart := CartRemove(cart, productId);
    }

    /** A quantity of zero or less goes through `removeFromCart`. */
    method UpdateQuantity(productId: string, quantity: int)
      modifies this
      ensures cart == CartUpdate(old(cart), productId, quantity) && orders == old(orders)
      ensures old(Valid()) ==> Valid()
    {
      if quantity <= 0 {
        RemoveFromCart(productId);
        return;
      }
      cart := CartSetQuantity(cart, productId, quantity);
    }

    method ClearCart()
      modifies this
      ensures cart == [] && orders == old(orders)
      ensures Valid()
    {
      cart := [];
    }

    /**
     * `checkout(paymentMethod)` at time `now`: records the cart and its
     * total as a new order in front of the earlier ones, empties the cart
     * and reports success. The payment delay is not modelled.
     */
    method Checkout(now: nat) returns (ok: bool)
      modifies this
      ensures ok
      ensures orders == [NewOrder(old(cart), now)] + old(orders)
      ensures orders[0].items == old(cart) && orders[0].totalCents == CartTotal(old(cart))
      ensures cart == []
    {
      var order := NewOrder(cart, now);
      orders := [order] + orders;
      ClearCart();
      ok := true;
    }

    function GetCartTotal(): (r: int)
      reads this
      ensures r == CartTotal(cart)
    {
      CartTotal(cart)
    }
  }
}
