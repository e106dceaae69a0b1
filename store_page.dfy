/**
 * The store page: the product grid narrowed by category and search text,
 * the cart button's item count, the "Add to Cart" button of each product,
 * and the checkout button of the cart.
 */
module StorePage {
  import opened Wrappers
  import opened Text
  import opened Seqs
  import opened StoreContext

  /** The category select's option values, "all" first. */
  const CategoryIds: seq<string> := ["all", "apparel", "accessories", "collectibles", "digital"]

  predicate MatchesCategory(p: Product, selected: string)
  {
    selected == "all" || CategoryName(p.category) == selected
  }

  predicate MatchesSearch(p: Product, query: string)
  {
    IncludesIgnoringCase(p.name, query) || IncludesIgnoringCase(p.description, query)
  }

  /** `filteredProducts`. */
  function FilteredProducts(products: seq<Product>, selected: string, query: string): (r: seq<Product>)
  {
    Filter(products, (p: Product) => MatchesCategory(p, selected) && MatchesSearch(p, query))
  }

  /** A product is shown exactly when it is in the selected category and its name or description holds the query, ignoring case; the catalogue order is kept. */
  lemma FilteredProductsMembership(products: seq<Product>, selected: string, query: string, p: Product)
    ensures p in FilteredProducts(products, selected, query) <==>
            p in products && MatchesCategory(p, selected) && MatchesSearch(p, query)
    ensures IsSubsequence(FilteredProducts(products, selected, query), products)
  {
    FilterMembership(products, (p: Product) => MatchesCategory(p, selected) && MatchesSearch(p, query), p);
    FilterIsSubsequence(products, (p: Product) => MatchesCategory(p, selected) && MatchesSearch(p, query));
  }

  /** "All Products" with an empty search box shows the whole catalogue. */
  lemma AllWithEmptySearchShowsEverything(products: seq<Product>)
    ensures FilteredProducts(products, "all", "") == products
  {
    forall p: Product ensures MatchesSearch(p, "") {
      EmptyIncluded(Lower(p.name));
    }
    FilterAll(products, (p: Product) => MatchesCategory(p, "all") && MatchesSearch(p, ""));
  }

  /** A category button shows what `getProductsByCategory` counts, when the search box is empty. */
  lemma CategoryWithEmptySearch(products: seq<Product>, category: string)
    requires category != "all"
    ensures FilteredProducts(products, category, "") == ProductsByCategory(products, category)
  {
    forall p: Product ensures MatchesSearch(p, "") {
      EmptyIncluded(Lower(p.name));
    }
    FilterExt(products, (p: Product) => MatchesCategory(p, category) && MatchesSearch(p, ""),
              (p: Product) => CategoryName(p.category) == category);
  }

  /** `cartItemCount`: the quantities of the cart lines, added up. */
  function ItemCount(cart: seq<CartItem>): (r: int)
    ensures cart == [] ==> r == 0
    ensures (forall i :: 0 <= i < |cart| ==> cart[i].quantity >= 0) ==> r >= 0
    decreases |cart|
  {
    if cart == [] then 0 else cart[0].quantity + ItemCount(cart[1..])
  }

  lemma {:induction false} ItemCountAppend(a: seq<CartItem>, b: seq<CartItem>)
    ensures ItemCount(a + b) == ItemCount(a) + ItemCount(b)
    decreases |a|
  {
    if a == [] {
      assert a + b == b;
    } else {
      assert (a + b)[0] == a[0];
      assert (a + b)[1..] == a[1..] + b;
      ItemCountAppend(a[1..], b);
    }
  }

  /** With one line per product, adding `quantity` of a product raises the count by exactly `quantity`. */
  lemma AddRaisesCount(cart: seq<CartItem>, product: Product, quantity: int)
    requires UniqueIds(cart)
    ensures ItemCount(CartAdd(cart, product, quantity)) == ItemCount(cart) + quantity
  {
    if HasProduct(cart, product.id) {
      BumpCount(cart, product, quantity);
    } else {
      ItemCountAppend(cart, [CartItem(product, quantity)]);
    }
  }

  lemma {:induction false} BumpCount(cart: seq<CartItem>, product: Product, quantity: int)
    requires UniqueIds(cart)
    ensures ItemCount(Bump(cart, product, quantity)) ==
      ItemCount(cart) + (if HasProduct(cart, product.id) then quantity else 0)
    decreases |cart|
  {
    if cart != [] {
      var b := Bump(cart, product, quantity);
      var rest := cart[1..];
      assert b[1..] == Bump(rest, product, quantity);
      assert UniqueIds(rest) by {
        forall i, j | 0 <= i < j < |rest| ensures rest[i].product.id != rest[j].product.id {
          assert rest[i] == cart[i + 1] && rest[j] == cart[j + 1];
        }
      }
      BumpCount(rest, product, quantity);
      if cart[0].product.id == product.id {
        assert !HasProduct(rest, product.id) by {
          forall i | 0 <= i < |rest| ensures rest[i].product.id != product.id {
            assert rest[i] == cart[i + 1];
          }
        }
      } else {
        assert HasProduct(cart, product.id) <==> HasProduct(rest, product.id) by {
          if HasProduct(cart, product.id) {
            var i :| 0 <= i < |cart| && cart[i].product.id == product.id;
            assert rest[i - 1] == cart[i];
          }
          if HasProduct(rest, product.id) {
            var i :| 0 <= i < |rest| && rest[i].product.id == product.id;
            assert cart[i + 1] == rest[i];
          }
        }
      }
    }
  }

  /** The badge on the cart button: the count, shown only when it is positive. */
  function CartBadge(cart: seq<CartItem>): (r: Option<int>)
    ensures r.Some? <==> ItemCount(cart) > 0
    ensures r.Some? ==> r.value == ItemCount(cart)
  {
    var count := ItemCount(cart);
    if count > 0 then Some(count) else None
  }

  class StorePageView {
    const store: Store
    var selectedCategory: string
    var searchQuery: string
    var showCart: bool
    var isCheckingOut: bool
    var showCheckoutForm: bool

    constructor (s: Store)
      ensures store == s && selectedCategory == "all" && searchQuery == ""
      ensures !showCart && !isCheckingOut && !showCheckoutForm
    {
      store := s;
      selectedCategory := "all";
      searchQuery := "";
      showCart := false;
      isCheckingOut := false;
      showCheckoutForm := false;
    }

    /** The products the grid shows. */
    function Shown(): (r: seq<Product>)
      reads this, store
      ensures forall i :: 0 <= i < |r| ==> r[i] in store.products && MatchesCategory(r[i], selectedCategory)
    {
      FilteredProducts(store.products, selectedCategory, searchQuery)
    }

    /** "Add to Cart": the button of a product out of stock is disabled, so only products in stock reach the cart, one at a time. */
    method AddToCartClick(product: Product)
      modifies store
      ensures product.inStock ==> store.cart == CartAdd(old(store.cart), product, DefaultQuantity)
      ensures !product.inStock ==> store.cart == old(store.cart)
      ensures store.orders == old(store.orders)
      ensures old(store.Valid()) ==> store.Valid()
    {
      if product.inStock {
        store.AddToCart(product, DefaultQuantity);
      }
    }

    /**
     * `handleCheckout`: the button is busy while the order is placed; on
     * success the cart and the checkout form close; either way the button
     * is released at the end.
     */
    method HandleCheckout(now: nat)
      modifies this, store
      ensures store.orders == [NewOrder(old(store.cart), now)] + old(store.orders)
      ensures store.cart == [] && CartBadge(store.cart).None?
      ensures !showCart && !showCheckoutForm && !isCheckingOut
      ensures selectedCategory == old(selectedCategory) && searchQuery == old(searchQuery)
    {
      isCheckingOut := true;
      var success := store.Checkout(now);
      if success {
        showCart := false;
        showCheckoutForm := false;
      }
      isCheckingOut := false;
    }

    method SelectCategory(id: string)
      modifies this
      ensures selectedCategory == id && searchQuery == old(searchQuery)
      ensures showCart == old(showCart) && showCheckoutForm == old(showCheckoutForm) && isCheckingOut == old(isCheckingOut)
    {
      selectedCategory := id;
    }

    method TypeSearch(text: string)
      modifies this
      ensures searchQuery == text && selectedCategory == old(selectedCategory)
      ensures showCart == old(showCart) && showCheckoutForm == old(showCheckoutForm) && isCheckingOut == old(isCheckingOut)
    {
      searchQuery := text;
    }
  }
}
