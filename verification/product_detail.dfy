/**
 * The product detail page: the product is looked up by the id in the page
 * address, and a quantity selector picks how many units to add, kept
 * between 1 and the available quantity.
 */
module ProductDetail {
  import opened Common
  import opened Text
  import opened Catalog
  import opened Cart
  import opened App

  /** The position of the first product with id `id`; a `NaN` id (`None`) matches nothing. */
  function FindIndex(products: seq<Product>, id: Option<int>): (r: Option<nat>)
    ensures r.Some? ==> id.Some? && r.value < |products| && products[r.value].id == id.value
    ensures r.Some? ==> id.Some? && forall j :: 0 <= j < r.value ==> products[j].id != id.value
    ensures r.None? ==> forall j :: 0 <= j < |products| ==> id.None? || products[j].id != id.value
  {
    if products == [] || id.None? then None
    else if products[0].id == id.value then Some(0)
    else
      match FindIndex(products[1..], id)
      case None => None
      case Some(k) => Some(k + 1)
  }

  /** `products.find(p => p.id === parseInt(routeId))`. */
  function Lookup(products: seq<Product>, routeId: string): Option<Product> {
    match FindIndex(products, ParseInt(routeId))
    case None => None
    case Some(k) => Some(products[k])
  }

  /**
   * Following a product's link (`/product/<id>`) finds that product when the
   * catalog ids are distinct, and otherwise the first product with its id.
   */
  lemma LinkFindsProduct(products: seq<Product>, k: nat)
    requires k < |products|
    ensures Lookup(products, IntToString(products[k].id)).Some?
    ensures Lookup(products, IntToString(products[k].id)).value.id == products[k].id
    ensures (forall i, j :: 0 <= i < j < |products| ==> products[i].id != products[j].id) ==>
      Lookup(products, IntToString(products[k].id)) == Some(products[k])
  {
    ParseIntOfIntToString(products[k].id);
  }

  // ---------------------------------------------------------------------------
  // The quantity selector

  /** The "-" button: one less, but never below 1. */
  function Decremented(quantity: int): (r: int)
    ensures r >= 1 && r <= Max(1, quantity)
    ensures quantity > 1 ==> r == quantity - 1
  {
    Max(1, quantity - 1)
  }

  /** The "+" button: one more, but never above the available quantity. */
  function Incremented(quantity: int, available: int): (r: int)
    ensures r <= available && r <= quantity + 1
    ensures quantity < available ==> r == quantity + 1
    ensures quantity >= available ==> r == available
  {
    Min(available, quantity + 1)
  }

  /**
   * Typing into the number field: the typed number, where text that does
   * not parse or parses to 0 counts as 1, then clamped to `[1, available]`.
   */
  function Typed(text: string, available: int): (r: int)
    ensures r <= available
    ensures available >= 1 ==> r >= 1
    ensures ParseInt(text).None? || ParseInt(text) == Some(0) ==> r == Min(available, 1)
    ensures ParseInt(text).Some? && ParseInt(text).value < 0 ==> r == Min(available, 1)
    ensures ParseInt(text).Some? && ParseInt(text).value >= 1 ==> r == Min(available, ParseInt(text).value)
  {
    var n := match ParseInt(text) case Some(v) => if v == 0 then 1 else v case None => 1;
    Min(available, Max(1, n))
  }

  ghost predicate InRange(quantity: int, available: int) {
    1 <= quantity <= available
  }

  /** With at least one unit available, 1 starts in range and every handler keeps the quantity in range. */
  lemma SelectorKeepsRange(quantity: int, available: int, text: string)
    requires available >= 1
    ensures InRange(1, available)
    ensures InRange(quantity, available) ==> InRange(Decremented(quantity), available)
    ensures InRange(quantity, available) ==> InRange(Incremented(quantity, available), available)
    ensures InRange(Typed(text, available), available)
  {
  }

  /** Typing a number already in range selects exactly that number; the shown value reads back unchanged. */
  lemma TypedInRange(quantity: int, available: int)
    requires InRange(quantity, available)
    ensures Typed(IntToString(quantity), available) == quantity
  {
    ParseIntOfIntToString(quantity);
  }

  /** The quantity controls are shown, and the add button enabled, exactly when some unit is available. */
  predicate QuantityControlShown(p: Product) { p.availableQuantity > 0 }

  predicate AddButtonDisabled(p: Product) { p.availableQuantity < 1 }

  lemma ControlsFollowAvailability(p: Product)
    ensures QuantityControlShown(p) <==> !AddButtonDisabled(p)
  {
  }

  /** What the page shows. */
  datatype PageView = Loading | NotFound | Details(product: Product)

  class ProductPage {
    var product: Option<Product>
    var loading: bool
    var quantity: int

    /** Before the lookup runs: nothing found yet, loading, quantity 1. */
    constructor ()
      ensures product == None && loading && quantity == 1
    {
      product := None;
      loading := true;
      quantity := 1;
    }

    /** The lookup effect: remember the product when one is found; stop loading either way. */
    method Locate(products: seq<Product>, routeId: string)
      modifies this
      ensures product == (if Lookup(products, routeId).Some? then Lookup(products, routeId) else old(product))
      ensures !loading && quantity == old(quantity)
    {
      var found := Lookup(products, routeId);
      if found.Some? {
        product := found;
      }
      loading := false;
    }

    function View(): (v: PageView)
      reads this
      ensures v.Details? <==> !loading && product.Some?
      ensures loading ==> v == Loading
      ensures !loading && product.None? ==> v == NotFound
      ensures v.Details? ==> product.Some? && v.product == product.value
    {
      if loading then Loading
      else match product
        case None => NotFound
        case Some(p) => Details(p)
    }

    /** The selector invariant: when a unit is available, the quantity lies in `[1, availableQuantity]`. */
    ghost predicate QuantityValid()
      reads this
    {
      product.Some? && product.value.availableQuantity >= 1 ==> InRange(quantity, product.value.availableQuantity)
    }

    method Decrement()
      requires product.Some? && QuantityValid()
      modifies this
      ensures product == old(product) && loading == old(loading)
      ensures quantity == Decremented(old(quantity)) && QuantityValid()
    {
      quantity := Decremented(quantity);
    }

    method Increment()
      requires product.Some? && QuantityValid()
      modifies this
      ensures product == old(product) && loading == old(loading)
      ensures quantity == Incremented(old(quantity), product.value.availableQuantity) && QuantityValid()
    {
      quantity := Incremented(quantity, product.value.availableQuantity);
    }

    method Input(text: string)
      requires product.Some?
      modifies this
      ensures product == old(product) && loading == old(loading)
      ensures quantity == Typed(text, product.value.availableQuantity) && QuantityValid()
    {
      quantity := Typed(text, product.value.availableQuantity);
    }

    /**
     * The page's "Add to Cart" button: disabled when nothing is available;
     * otherwise it adds the selected quantity, resets the selector to 1 and
     * goes to the cart page.
     */
    method AddClicked(shop: Shop) returns (navigateTo: Option<string>)
      requires product.Some? && QuantityValid() && shop.Valid()
      modifies this, shop
      ensures shop.Valid() && QuantityValid() && product == old(product)
      ensures AddButtonDisabled(product.value) ==>
        navigateTo == None && quantity == old(quantity) && shop.cart == old(shop.cart)
      ensures !AddButtonDisabled(product.value) ==>
        && navigateTo == Some("/cart") && quantity == 1
        && shop.cart == Cart.AddToCart(old(shop.cart), product.value, old(quantity))
        && (WellFormed(old(shop.cart)) ==> WellFormed(shop.cart))
      ensures shop.orders == old(shop.orders) && shop.user == old(shop.user)
      ensures shop.isLoggedIn == old(shop.isLoggedIn) && shop.products == old(shop.products)
      ensures shop.storage == old(shop.storage)[CartKey := CartRecord(shop.cart)]
      ensures loading == old(loading)
    {
      if AddButtonDisabled(product.value) {
        return None;
      }
      shop.AddToCart(product.value, quantity);
      quantity := 1;
      navigateTo := Some("/cart");
    }
  }
}
