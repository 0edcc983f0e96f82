/**
 * The application's state: the signed-in user, the cart, the catalog and
 * the order history, together with the browser's key-value store where the
 * cart and the user are kept across restarts.
 */
module App {
  import opened Common
  import opened Text
  import opened Catalog
  import opened Cart

  /** The signed-in customer. */
  datatype User = User(id: int, firstname: string, lastname: string, email: string)

  /** What the store holds under a key; the JSON text of the value is abstracted away. */
  datatype Stored = UserRecord(user: User) | CartRecord(lines: seq<Line>)

  const UserKey: string := "user"
  const CartKey: string := "cart"

  /** A store whose "user" and "cart" entries, when present, hold what the application wrote there. */
  predicate WellFormedStore(store: map<string, Stored>) {
    && (UserKey in store ==> store[UserKey].UserRecord?)
    && (CartKey in store ==> store[CartKey].CartRecord?)
  }

  class Shop {
    var isLoggedIn: bool
    var user: Option<User>
    var cart: seq<Line>
    var products: seq<Product>
    var orders: seq<Order>
    /** The browser's key-value store; other keys (the API token) belong to other code. */
    var storage: map<string, Stored>

    /**
     * The stored cart is the cart in memory; a user is stored exactly when
     * someone is signed in, and it is the signed-in user.
     */
    ghost predicate Valid()
      reads this
    {
      && CartKey in storage && storage[CartKey] == CartRecord(cart)
      && (isLoggedIn <==> user.Some?)
      && (UserKey in storage <==> isLoggedIn)
      && (isLoggedIn ==> storage[UserKey] == UserRecord(user.value))
    }

    /**
     * Start-up: restore the stored user (and count as signed in) and the
     * stored cart when they are present, then write the cart back. The
     * catalog is the product list the catalog source returned. The order
     * history starts empty: it is loaded only on sign-in.
     */
    constructor (saved: map<string, Stored>, catalog: seq<Product>)
      requires WellFormedStore(saved)
      ensures Valid()
      ensures user == (if UserKey in saved then Some(saved[UserKey].user) else None)
      ensures cart == (if CartKey in saved then saved[CartKey].lines else [])
      ensures products == catalog && orders == []
      ensures storage == saved[CartKey := CartRecord(cart)]
    {
      if UserKey in saved {
        user := Some(saved[UserKey].user);
        isLoggedIn := true;
      } else {
        user := None;
        isLoggedIn := false;
      }
      var restored := if CartKey in saved then saved[CartKey].lines else [];
      cart := restored;
      products := catalog;
      orders := [];
      storage := saved[CartKey := CartRecord(restored)];
    }

    /** Replaces the cart and writes it to the store, as the save-on-change effect does. */
    method SetCart(next: seq<Line>)
      requires Valid()
      modifies this
      ensures Valid()
      ensures cart == next
      ensures storage == old(storage)[CartKey := CartRecord(next)]
      ensures user == old(user) && isLoggedIn == old(isLoggedIn)
      ensures orders == old(orders) && products == old(products)
    {
      cart := next;
      storage := storage[CartKey := CartRecord(next)];
    }

    method AddToCart(p: Product, quantity: int)
      requires Valid()
      modifies this
      ensures Valid()
      ensures cart == Cart.AddToCart(old(cart), p, quantity)
      ensures WellFormed(old(cart)) && quantity >= 1 ==> WellFormed(cart)
      ensures storage == old(storage)[CartKey := CartRecord(cart)]
      ensures user == old(user) && isLoggedIn == old(isLoggedIn)
      ensures orders == old(orders) && products == old(products)
    {
      if DistinctIds(cart) {
        AddKeepsWellFormed(cart, p, quantity);
      }
      SetCart(Cart.AddToCart(cart, p, quantity));
    }

    method RemoveFromCart(id: int)
      requires Valid()
      modifies this
      ensures Valid()
      ensures cart == Cart.RemoveFromCart(old(cart), id)
      ensures WellFormed(old(cart)) ==> WellFormed(cart)
      ensures storage == old(storage)[CartKey := CartRecord(cart)]
      ensures user == old(user) && isLoggedIn == old(isLoggedIn)
      ensures orders == old(orders) && products == old(products)
    {
      RemoveKeepsWellFormed(cart, id);
      SetCart(Cart.RemoveFromCart(cart, id));
    }

    method UpdateCartItemQuantity(id: int, quantity: int)
      requires Valid()
      modifies this
      ensures Valid()
      ensures cart == UpdateQuantity(old(cart), id, quantity)
      ensures WellFormed(old(cart)) ==> WellFormed(cart)
      ensures storage == old(storage)[CartKey := CartRecord(cart)]
      ensures user == old(user) && isLoggedIn == old(isLoggedIn)
      ensures orders == old(orders) && products == old(products)
    {
      UpdateKeepsWellFormed(cart, id, quantity);
      SetCart(UpdateQuantity(cart, id, quantity));
    }

    method ClearCart()
      requires Valid()
      modifies this
      ensures Valid()
      ensures cart == []
      ensures storage == old(storage)[CartKey := CartRecord([])]
      ensures user == old(user) && isLoggedIn == old(isLoggedIn)
      ensures orders == old(orders) && products == old(products)
    {
      SetCart([]);
    }

    /** Loads the order history (the list the order source returned) when someone is signed in. */
    method LoadOrders(fetched: seq<Order>)
      modifies this
      ensures orders == (if old(isLoggedIn) then fetched else old(orders))
      ensures cart == old(cart) && storage == old(storage) && products == old(products)
      ensures user == old(user) && isLoggedIn == old(isLoggedIn)
    {
      if !isLoggedIn {
        return;
      }
      orders := fetched;
    }

    /**
     * Signs `u` in and stores it. The order history is then loaded under the
     * signed-in flag as it was before this sign-in, so a sign-in from the
     * signed-out state leaves the history as it was.
     */
    method Login(u: User, fetched: seq<Order>)
      requires Valid()
      modifies this
      ensures Valid()
      ensures user == Some(u) && isLoggedIn
      ensures storage == old(storage)[UserKey := UserRecord(u)]
      ensures orders == (if old(isLoggedIn) then fetched else old(orders))
      ensures cart == old(cart) && products == old(products)
    {
      var wasLoggedIn := isLoggedIn;
      user := Some(u);
      isLoggedIn := true;
      storage := storage[UserKey := UserRecord(u)];
      if wasLoggedIn {
        orders := fetched;
      }
    }

    /**
     * Sign-in as intended: the user is signed in first and the order history
     * is then loaded, so after any sign-in the history is the fetched one.
     */
    method LoginWithOrders(u: User, fetched: seq<Order>)
      requires Valid()
      modifies this
      ensures Valid()
      ensures user == Some(u) && isLoggedIn
      ensures storage == old(storage)[UserKey := UserRecord(u)]
      ensures orders == fetched
      ensures cart == old(cart) && products == old(products)
    {
      user := Some(u);
      isLoggedIn := true;
      storage := storage[UserKey := UserRecord(u)];
      LoadOrders(fetched);
    }

    /** Signs out: forgets and unstores the user and drops the order history; the cart stays. */
    method Logout()
      requires Valid()
      modifies this
      ensures Valid()
      ensures user == None && !isLoggedIn
      ensures storage == old(storage) - {UserKey}
      ensures orders == []
      ensures cart == old(cart) && products == old(products)
    {
      user := None;
      isLoggedIn := false;
      storage := storage - {UserKey};
      orders := [];
    }

    /**
     * Places an order from the current cart, whatever the cart holds and
     * whoever is signed in: `orderId` is the drawn order number and `date`
     * the current time. The order goes to the front of the history and the
     * cart is emptied.
     */
    method PlaceOrder(orderId: int, date: string) returns (placed: Order)
      requires Valid()
      requires 0 <= orderId <= 9999
      modifies this
      ensures Valid()
      ensures placed == NewOrder(old(cart), orderId, date)
      ensures orders == [placed] + old(orders)
      ensures cart == [] && storage == old(storage)[CartKey := CartRecord([])]
      ensures user == old(user) && isLoggedIn == old(isLoggedIn) && products == old(products)
    {
      placed := NewOrder(cart, orderId, date);
      orders := [placed] + orders;
      ClearCart();
    }

    /** The unit count shown in the header badge. */
    function CartCount(): (n: int)
      reads this
      requires Valid()
      ensures n == TotalItems(cart)
      ensures PositiveQuantities(cart) ==> n >= |cart|
      ensures PositiveQuantities(cart) ==> (n > 0 <==> cart != [])
    {
      assert PositiveQuantities(cart) ==> TotalItems(cart) >= |cart| && (BadgeShown(cart) <==> cart != []) by {
        if PositiveQuantities(cart) {
          BadgeShownIffNonEmpty(cart);
        }
      }
      TotalItems(cart)
    }
  }

  /**
   * A restart of the application: a new state built from the old state's
   * store has the same cart and the same signed-in user, and no order history.
   */
  method Restart(previous: Shop) returns (next: Shop)
    requires previous.Valid()
    ensures fresh(next) && next.Valid()
    ensures next.cart == previous.cart
    ensures next.user == previous.user && next.isLoggedIn == previous.isLoggedIn
    ensures next.storage == previous.storage
    ensures next.products == previous.products && next.orders == []
  {
    next := new Shop(previous.storage, previous.products);
  }

  /**
   * The sign-in as written, right after a start with an empty store: the
   * order history stays empty whatever the order source returns.
   */
  method SignInAfterStart(catalog: seq<Product>, u: User, fetched: seq<Order>) returns (shop: Shop)
    ensures fresh(shop) && shop.Valid() && shop.isLoggedIn && shop.user == Some(u)
    ensures shop.orders == []
    ensures fetched != [] ==> shop.orders != fetched
  {
    shop := new Shop(map[], catalog);
    shop.Login(u, fetched);
  }
}
