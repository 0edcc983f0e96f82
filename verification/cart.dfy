/**
 * The cart as a list of lines and the order made from it: each cart
 * operation is a function from the previous cart to the next one.
 */
module Cart {
  import opened Common
  import opened Text
  import opened Catalog

  /** A cart line: every field of the product, plus the quantity in the cart. */
  datatype Line = Line(product: Product, quantity: int) {
    function Id(): int { product.id }
  }

  /** One line of a placed order; the price is in cents. */
  datatype OrderItem = OrderItem(productId: int, name: string, price: nat, quantity: int)

  /** A placed order; `totalAmount` is in cents and `date` is an ISO-8601 timestamp. */
  datatype Order = Order(
    id: int,
    reference: string,
    date: string,
    totalAmount: int,
    status: string,
    items: seq<OrderItem>)

  const CompletedStatus: string := "Completed"
  const ReferencePrefix: string := "ORD-"

  function Ids(cart: seq<Line>): (ids: seq<int>)
    ensures |ids| == |cart|
    ensures forall i :: 0 <= i < |cart| ==> ids[i] == cart[i].Id()
  {
    seq(|cart|, i requires 0 <= i < |cart| => cart[i].Id())
  }

  /** At most one line per product id. */
  ghost predicate DistinctIds(cart: seq<Line>) {
    forall i, j :: 0 <= i < j < |cart| ==> cart[i].Id() != cart[j].Id()
  }

  ghost predicate PositiveQuantities(cart: seq<Line>) {
    forall i :: 0 <= i < |cart| ==> cart[i].quantity >= 1
  }

  /** The cart invariant the operations keep: one line per product, each with at least one unit. */
  ghost predicate WellFormed(cart: seq<Line>) {
    DistinctIds(cart) && PositiveQuantities(cart)
  }

  // ---------------------------------------------------------------------------
  // Cart operations

  /** Adds `quantity` to every line of product `id` (the `map` of the add operation). */
  function AddToLines(cart: seq<Line>, id: int, quantity: int): (r: seq<Line>)
    ensures |r| == |cart| && Ids(r) == Ids(cart)
  {
    seq(|cart|, i requires 0 <= i < |cart| =>
      if cart[i].Id() == id then cart[i].(quantity := cart[i].quantity + quantity) else cart[i])
  }

  /** The first line of product `id`, if any (the `find` of the add operation). */
  function FindLine(cart: seq<Line>, id: int): (r: Option<Line>)
    ensures r.Some? <==> id in Ids(cart)
    ensures r.Some? ==> r.value in cart && r.value.Id() == id
  {
    if cart == [] then None
    else if cart[0].Id() == id then Some(cart[0])
    else
      var r := FindLine(cart[1..], id);
      assert Ids(cart) == [cart[0].Id()] + Ids(cart[1..]);
      r
  }

  /**
   * Adds a product: merges it into the line that already holds its id, or
   * else appends a new line with the product's fields. The amount is not
   * checked or clamped.
   */
  function AddToCart(cart: seq<Line>, p: Product, quantity: int): (r: seq<Line>)
  {
    match FindLine(cart, p.id)
    case Some(_) => AddToLines(cart, p.id, quantity)
    case None => cart + [Line(p, quantity)]
  }

  /** Keeps the lines whose id differs from `id`, in their order. */
  function RemoveFromCart(cart: seq<Line>, id: int): (r: seq<Line>)
    ensures forall l :: l in r <==> l in cart && l.Id() != id
    ensures id !in Ids(r)
    ensures |r| <= |cart|
  {
    if cart == [] then []
    else
      var rest := RemoveFromCart(cart[1..], id);
      assert forall l :: l in cart <==> l == cart[0] || l in cart[1..];
      if cart[0].Id() == id then rest else [cart[0]] + rest
  }

  /** Sets every line of product `id` to `max(1, quantity)`. */
  function UpdateQuantity(cart: seq<Line>, id: int, quantity: int): (r: seq<Line>)
  {
    seq(|cart|, i requires 0 <= i < |cart| =>
      if cart[i].Id() == id then cart[i].(quantity := Max(1, quantity)) else cart[i])
  }

  /** The number of units in the cart, summed left to right as `reduce` does. */
  function TotalItems(cart: seq<Line>): int {
    if cart == [] then 0 else TotalItems(cart[..|cart| - 1]) + cart[|cart| - 1].quantity
  }

  /** The cart total in cents: the sum of price times quantity. */
  function CartTotal(cart: seq<Line>): int {
    if cart == [] then 0
    else CartTotal(cart[..|cart| - 1]) + cart[|cart| - 1].product.price * cart[|cart| - 1].quantity
  }

  /** The header badge with the unit count is shown only when the count is positive. */
  predicate BadgeShown(cart: seq<Line>) {
    TotalItems(cart) > 0
  }

  // ---------------------------------------------------------------------------
  // Properties of the operations

  /** Adding a product that is not in the cart appends exactly one line, holding the product and the amount. */
  lemma AddNewProductAppends(cart: seq<Line>, p: Product, quantity: int)
    requires p.id !in Ids(cart)
    ensures AddToCart(cart, p, quantity) == cart + [Line(p, quantity)]
    ensures |AddToCart(cart, p, quantity)| == |cart| + 1
  {
  }

  /**
   * Adding a product that is in the cart keeps the length and the order,
   * raises that line's quantity by the amount, keeps the line's own product
   * fields (the price captured when it was first added), and touches no other line.
   */
  lemma AddExistingProductMerges(cart: seq<Line>, p: Product, quantity: int, k: nat)
    requires DistinctIds(cart)
    requires k < |cart| && cart[k].Id() == p.id
    ensures AddToCart(cart, p, quantity) == cart[k := Line(cart[k].product, cart[k].quantity + quantity)]
  {
    assert p.id in Ids(cart) by {
      assert Ids(cart)[k] == p.id;
    }
  }

  /** Removal drops exactly the lines of `id`; when `id` is absent the cart is unchanged. */
  lemma {:induction false} RemoveAbsentIsIdentity(cart: seq<Line>, id: int)
    requires id !in Ids(cart)
    ensures RemoveFromCart(cart, id) == cart
  {
    if cart != [] {
      assert Ids(cart)[0] == cart[0].Id();
      assert Ids(cart[1..]) == Ids(cart)[1..];
      RemoveAbsentIsIdentity(cart[1..], id);
    }
  }

  /** Removing twice is removing once. */
  lemma RemoveIdempotent(cart: seq<Line>, id: int)
    ensures RemoveFromCart(RemoveFromCart(cart, id), id) == RemoveFromCart(cart, id)
  {
    RemoveAbsentIsIdentity(RemoveFromCart(cart, id), id);
  }

  /** Removal keeps the remaining lines in their relative order. */
  lemma {:induction false} RemoveIsSubsequence(cart: seq<Line>, id: int)
    ensures IsSubsequence(RemoveFromCart(cart, id), cart)
  {
    if cart != [] {
      RemoveIsSubsequence(cart[1..], id);
      var rest := RemoveFromCart(cart[1..], id);
      if cart[0].Id() == id && rest != [] {
        assert IsSubsequence(rest, cart[1..]);
      }
    }
  }

  /**
   * Updating never removes a line and never leaves a quantity below 1: the
   * matching lines get `max(1, quantity)`, every other line is unchanged.
   */
  lemma UpdateClampsAndKeepsLines(cart: seq<Line>, id: int, quantity: int)
    ensures |UpdateQuantity(cart, id, quantity)| == |cart|
    ensures Ids(UpdateQuantity(cart, id, quantity)) == Ids(cart)
    ensures forall i :: 0 <= i < |cart| && cart[i].Id() == id ==>
      UpdateQuantity(cart, id, quantity)[i].quantity >= 1
    ensures forall i :: 0 <= i < |cart| && cart[i].Id() == id ==>
      UpdateQuantity(cart, id, quantity)[i] == Line(cart[i].product, if quantity < 1 then 1 else quantity)
    ensures forall i :: 0 <= i < |cart| && cart[i].Id() != id ==>
      UpdateQuantity(cart, id, quantity)[i] == cart[i]
    ensures id !in Ids(cart) ==> UpdateQuantity(cart, id, quantity) == cart
  {
    var r := UpdateQuantity(cart, id, quantity);
    assert Ids(r) == Ids(cart);
    if id !in Ids(cart) {
      forall i | 0 <= i < |cart|
        ensures r[i] == cart[i]
      {
        assert Ids(cart)[i] == cart[i].Id();
      }
    }
  }

  /** A later update of the same line overrides an earlier one. */
  lemma UpdateOverrides(cart: seq<Line>, id: int, q1: int, q2: int)
    ensures UpdateQuantity(UpdateQuantity(cart, id, q1), id, q2) == UpdateQuantity(cart, id, q2)
  {
  }

  /** Summing after replacing one line changes the unit count by the difference of that line. */
  lemma {:induction false} TotalItemsReplace(cart: seq<Line>, k: nat, l: Line)
    requires k < |cart|
    ensures TotalItems(cart[k := l]) == TotalItems(cart) - cart[k].quantity + l.quantity
  {
    var n := |cart|;
    if k < n - 1 {
      assert cart[k := l][..n - 1] == cart[..n - 1][k := l];
      TotalItemsReplace(cart[..n - 1], k, l);
    } else {
      assert cart[k := l][..n - 1] == cart[..n - 1];
    }
  }

  /** Replacing one line changes the total by the difference of that line's price times quantity. */
  lemma {:induction false} CartTotalReplace(cart: seq<Line>, k: nat, l: Line)
    requires k < |cart|
    ensures CartTotal(cart[k := l]) ==
      CartTotal(cart) - cart[k].product.price * cart[k].quantity + l.product.price * l.quantity
  {
    var n := |cart|;
    if k < n - 1 {
      assert cart[k := l][..n - 1] == cart[..n - 1][k := l];
      CartTotalReplace(cart[..n - 1], k, l);
    } else {
      assert cart[k := l][..n - 1] == cart[..n - 1];
    }
  }

  /** Raising one line's quantity by `quantity` raises the total by its price times `quantity`. */
  lemma RaiseLineTotals(cart: seq<Line>, k: nat, quantity: int)
    requires k < |cart|
    ensures TotalItems(cart[k := Line(cart[k].product, cart[k].quantity + quantity)]) == TotalItems(cart) + quantity
    ensures CartTotal(cart[k := Line(cart[k].product, cart[k].quantity + quantity)]) ==
      CartTotal(cart) + cart[k].product.price * quantity
  {
    var price, before := cart[k].product.price, cart[k].quantity;
    var l := Line(cart[k].product, before + quantity);
    TotalItemsReplace(cart, k, l);
    CartTotalReplace(cart, k, l);
    assert price * (before + quantity) == price * before + price * quantity;
  }

  lemma AddExistingTotals(cart: seq<Line>, p: Product, quantity: int, k: nat)
    requires DistinctIds(cart)
    requires k < |cart| && cart[k].Id() == p.id
    ensures TotalItems(AddToCart(cart, p, quantity)) == TotalItems(cart) + quantity
    ensures CartTotal(AddToCart(cart, p, quantity)) == CartTotal(cart) + cart[k].product.price * quantity
  {
    AddExistingProductMerges(cart, p, quantity, k);
    RaiseLineTotals(cart, k, quantity);
  }

  /**
   * Adding `quantity` units of a product raises the unit count by exactly
   * `quantity`, and the total by `quantity` times the unit price of the line
   * that receives them: the price already in the cart when the product is
   * there, the product's current price otherwise.
   */
  lemma AddToCartTotals(cart: seq<Line>, p: Product, quantity: int)
    requires DistinctIds(cart)
    ensures TotalItems(AddToCart(cart, p, quantity)) == TotalItems(cart) + quantity
    ensures CartTotal(AddToCart(cart, p, quantity)) == CartTotal(cart) +
      (match FindLine(cart, p.id) case Some(l) => l.product.price case None => p.price) * quantity
  {
    match FindLine(cart, p.id)
    case Some(l) =>
      var k :| 0 <= k < |cart| && cart[k] == l;
      AddExistingTotals(cart, p, quantity, k);
    case None =>
      assert (cart + [Line(p, quantity)])[..|cart|] == cart;
  }

  /** Updating a line present once changes the unit count by the new quantity minus the old one. */
  lemma UpdateQuantityTotals(cart: seq<Line>, id: int, quantity: int, k: nat)
    requires DistinctIds(cart)
    requires k < |cart| && cart[k].Id() == id
    ensures TotalItems(UpdateQuantity(cart, id, quantity)) ==
      TotalItems(cart) - cart[k].quantity + (if quantity < 1 then 1 else quantity)
  {
    assert UpdateQuantity(cart, id, quantity) == cart[k := cart[k].(quantity := Max(1, quantity))];
    TotalItemsReplace(cart, k, cart[k].(quantity := Max(1, quantity)));
  }

  /** With at least one unit per line, the badge shows exactly when the cart has a line. */
  lemma {:induction false} BadgeShownIffNonEmpty(cart: seq<Line>)
    requires PositiveQuantities(cart)
    ensures TotalItems(cart) >= |cart|
    ensures BadgeShown(cart) <==> cart != []
  {
    if cart != [] {
      BadgeShownIffNonEmpty(cart[..|cart| - 1]);
    }
  }

  /** The worked example: 99.99 x 1 + 59.99 x 2 is 219.97. */
  lemma SubtotalExample()
    ensures CartTotal([Line(Product(1, "Mechanical Keyboard", "", 9999, 10, "Keyboards"), 1),
                       Line(Product(2, "Wireless Mouse", "", 5999, 15, "Mice"), 2)]) == 21997
  {
    var a := Line(Product(1, "Mechanical Keyboard", "", 9999, 10, "Keyboards"), 1);
    var b := Line(Product(2, "Wireless Mouse", "", 5999, 15, "Mice"), 2);
    assert [a, b][..1] == [a];
    assert [a][..0] == [];
  }

  // ---------------------------------------------------------------------------
  // The cart invariant under every operation

  lemma AddKeepsWellFormed(cart: seq<Line>, p: Product, quantity: int)
    requires DistinctIds(cart)
    ensures DistinctIds(AddToCart(cart, p, quantity))
    ensures PositiveQuantities(cart) && quantity >= 1 ==> PositiveQuantities(AddToCart(cart, p, quantity))
  {
    var r := AddToCart(cart, p, quantity);
    if p.id !in Ids(cart) {
      forall i | 0 <= i < |cart|
        ensures r[i].Id() != p.id
      {
        assert Ids(cart)[i] == cart[i].Id();
      }
    } else {
      assert Ids(r) == Ids(cart);
      forall i, j | 0 <= i < j < |r|
        ensures r[i].Id() != r[j].Id()
      {
        assert Ids(r)[i] == Ids(cart)[i] && Ids(r)[j] == Ids(cart)[j];
      }
    }
  }

  lemma {:induction false} RemoveKeepsWellFormed(cart: seq<Line>, id: int)
    ensures DistinctIds(cart) ==> DistinctIds(RemoveFromCart(cart, id))
    ensures PositiveQuantities(cart) ==> PositiveQuantities(RemoveFromCart(cart, id))
  {
    if cart != [] {
      RemoveKeepsWellFormed(cart[1..], id);
      var rest := RemoveFromCart(cart[1..], id);
      if DistinctIds(cart) && cart[0].Id() != id {
        forall i | 0 <= i < |rest|
          ensures rest[i].Id() != cart[0].Id()
        {
          assert rest[i] in cart[1..];
        }
      }
      if PositiveQuantities(cart) {
        forall i | 0 <= i < |rest|
          ensures rest[i].quantity >= 1
        {
          assert rest[i] in cart[1..];
        }
      }
    }
  }

  lemma UpdateKeepsWellFormed(cart: seq<Line>, id: int, quantity: int)
    ensures DistinctIds(cart) ==> DistinctIds(UpdateQuantity(cart, id, quantity))
    ensures PositiveQuantities(cart) ==> PositiveQuantities(UpdateQuantity(cart, id, quantity))
  {
    var r := UpdateQuantity(cart, id, quantity);
    assert forall i :: 0 <= i < |r| ==> r[i].Id() == cart[i].Id();
  }

  /** The operations the cart page, the product pages and checkout apply to the cart. */
  datatype CartOp =
    | Add(product: Product, amount: int)
    | Remove(id: int)
    | Update(id: int, newQuantity: int)
    | Clear

  function Step(cart: seq<Line>, op: CartOp): seq<Line> {
    match op
    case Add(p, q) => AddToCart(cart, p, q)
    case Remove(id) => RemoveFromCart(cart, id)
    case Update(id, q) => UpdateQuantity(cart, id, q)
    case Clear => []
  }

  function Run(cart: seq<Line>, ops: seq<CartOp>): seq<Line>
    decreases |ops|
  {
    if ops == [] then cart else Run(Step(cart, ops[0]), ops[1..])
  }

  ghost predicate AddsAtLeastOne(ops: seq<CartOp>) {
    forall i :: 0 <= i < |ops| && ops[i].Add? ==> ops[i].amount >= 1
  }

  /**
   * From a cart with one line per product, any sequence of add, remove,
   * update and clear keeps one line per product; when every add brings at
   * least one unit, every line keeps at least one unit.
   */
  lemma {:induction false} RunKeepsWellFormed(cart: seq<Line>, ops: seq<CartOp>)
    requires DistinctIds(cart)
    ensures DistinctIds(Run(cart, ops))
    ensures PositiveQuantities(cart) && AddsAtLeastOne(ops) ==> PositiveQuantities(Run(cart, ops))
    decreases |ops|
  {
    if ops != [] {
      var next := Step(cart, ops[0]);
      match ops[0] {
        case Add(p, q) => AddKeepsWellFormed(cart, p, q);
        case Remove(id) => RemoveKeepsWellFormed(cart, id);
        case Update(id, q) => UpdateKeepsWellFormed(cart, id, q);
        case Clear =>
      }
      RunKeepsWellFormed(next, ops[1..]);
      if AddsAtLeastOne(ops) {
        assert AddsAtLeastOne(ops[1..]) by {
          forall i | 0 <= i < |ops| - 1 && ops[1..][i].Add?
            ensures ops[1..][i].amount >= 1
          {
            assert ops[1..][i] == ops[i + 1];
          }
        }
      }
    }
  }

  // ---------------------------------------------------------------------------
  // Placing an order

  /** The order's copy of the cart lines. */
  function Snapshot(cart: seq<Line>): (items: seq<OrderItem>)
    ensures |items| == |cart|
  {
    seq(|cart|, i requires 0 <= i < |cart| =>
      OrderItem(cart[i].Id(), cart[i].product.name, cart[i].product.price, cart[i].quantity))
  }

  /** The total of an order's items in cents. */
  function ItemsTotal(items: seq<OrderItem>): int {
    if items == [] then 0
    else ItemsTotal(items[..|items| - 1]) + items[|items| - 1].price * items[|items| - 1].quantity
  }

  /** The order made from the cart, with the drawn order number and the current time. */
  function NewOrder(cart: seq<Line>, orderId: int, date: string): Order {
    Order(orderId, ReferencePrefix + IntToString(orderId), date, CartTotal(cart), CompletedStatus, Snapshot(cart))
  }

  lemma {:induction false} SnapshotTotal(cart: seq<Line>)
    ensures ItemsTotal(Snapshot(cart)) == CartTotal(cart)
  {
    if cart != [] {
      assert Snapshot(cart)[..|cart| - 1] == Snapshot(cart[..|cart| - 1]);
      SnapshotTotal(cart[..|cart| - 1]);
    }
  }

  /**
   * The order copies the cart line by line, in order; its total is the sum
   * of its own items' price times quantity, which is the cart total; its
   * status is "Completed".
   */
  lemma NewOrderCopiesCart(cart: seq<Line>, orderId: int, date: string)
    ensures var o := NewOrder(cart, orderId, date);
      && |o.items| == |cart|
      && (forall i :: 0 <= i < |cart| ==>
            o.items[i].productId == cart[i].Id() && o.items[i].name == cart[i].product.name
            && o.items[i].price == cart[i].product.price && o.items[i].quantity == cart[i].quantity)
      && o.totalAmount == ItemsTotal(o.items) == CartTotal(cart)
      && o.status == "Completed"
  {
    SnapshotTotal(cart);
  }

  /** The order's reference is "ORD-" followed by the order number, which reads back as that number. */
  lemma ReferenceReadsBack(orderId: int)
    ensures var reference := ReferencePrefix + IntToString(orderId);
      && reference[..4] == "ORD-"
      && ParseInt(reference[4..]) == Some(orderId)
  {
    ParseIntOfIntToString(orderId);
    assert (ReferencePrefix + IntToString(orderId))[4..] == IntToString(orderId);
  }

  /** Both of the above, about the order recorded from a cart. */
  lemma NewOrderMatchesCart(cart: seq<Line>, orderId: int, date: string)
    ensures var o := NewOrder(cart, orderId, date);
      && |o.items| == |cart|
      && (forall i :: 0 <= i < |cart| ==>
            o.items[i].productId == cart[i].Id() && o.items[i].name == cart[i].product.name
            && o.items[i].price == cart[i].product.price && o.items[i].quantity == cart[i].quantity)
      && o.totalAmount == ItemsTotal(o.items) == CartTotal(cart)
      && o.status == "Completed"
      && o.reference[..4] == "ORD-"
      && ParseInt(o.reference[4..]) == Some(orderId)
  {
    NewOrderCopiesCart(cart, orderId, date);
    ReferenceReadsBack(orderId);
  }
}
