/**
 * The checkout page: the shipping and payment form, the two guards of the
 * submit handler, the order request sent to the order service, and what
 * the page renders for an empty cart or a signed-out visitor.
 */
module Checkout {
  import opened Common
  import opened Text
  import opened Catalog
  import opened Cart
  import opened App

  /** The payment choices offered by the form. */
  datatype PaymentMethod = CreditCard | PayPal | Visa | MasterCard

  /** The name the order service expects for a payment method. */
  function WireName(m: PaymentMethod): string {
    match m
    case CreditCard => "CREDIT_CARD"
    case PayPal => "PAYPAL"
    case Visa => "VISA"
    case MasterCard => "MASTER_CARD"
  }

  /** The form value that the drop-down turns back into a payment method. */
  function ParsePaymentMethod(s: string): (r: Option<PaymentMethod>)
    ensures r.Some? ==> WireName(r.value) == s
  {
    if s == "CREDIT_CARD" then Some(CreditCard)
    else if s == "PAYPAL" then Some(PayPal)
    else if s == "VISA" then Some(Visa)
    else if s == "MASTER_CARD" then Some(MasterCard)
    else None
  }

  /** Every payment method's name reads back as that method, so the four names are distinct. */
  lemma PaymentMethodNamesRoundTrip(m: PaymentMethod)
    ensures ParsePaymentMethod(WireName(m)) == Some(m)
  {
  }

  datatype Form = Form(
    firstname: string,
    lastname: string,
    email: string,
    address: string,
    city: string,
    zipcode: string,
    paymentMethod: PaymentMethod)

  /** The form as first shown: the names and e-mail of the signed-in user, if any; credit card selected. */
  function InitialForm(user: Option<User>): (f: Form)
    ensures user.None? ==> f.firstname == "" && f.lastname == "" && f.email == ""
    ensures user.Some? ==>
      f.firstname == user.value.firstname && f.lastname == user.value.lastname && f.email == user.value.email
    ensures f.address == "" && f.city == "" && f.zipcode == ""
    ensures f.paymentMethod == CreditCard
  {
    match user
    case None => Form("", "", "", "", "", "", CreditCard)
    case Some(u) => Form(u.firstname, u.lastname, u.email, "", "", "", CreditCard)
  }

  /** One edit of one form field. */
  datatype Edit =
    | SetFirstname(text: string)
    | SetLastname(text: string)
    | SetEmail(text: string)
    | SetAddress(text: string)
    | SetCity(text: string)
    | SetZipcode(text: string)
    | SetPaymentMethod(choice: PaymentMethod)

  function ApplyEdit(f: Form, e: Edit): Form {
    match e
    case SetFirstname(t) => f.(firstname := t)
    case SetLastname(t) => f.(lastname := t)
    case SetEmail(t) => f.(email := t)
    case SetAddress(t) => f.(address := t)
    case SetCity(t) => f.(city := t)
    case SetZipcode(t) => f.(zipcode := t)
    case SetPaymentMethod(m) => f.(paymentMethod := m)
  }

  /** The position of the field an edit writes, in the order of the form's fields. */
  function FieldOf(e: Edit): nat {
    match e
    case SetFirstname(_) => 0
    case SetLastname(_) => 1
    case SetEmail(_) => 2
    case SetAddress(_) => 3
    case SetCity(_) => 4
    case SetZipcode(_) => 5
    case SetPaymentMethod(_) => 6
  }

  /**
   * Each change writes one field by name and keeps the rest: a later edit of
   * the same field replaces an earlier one, and edits of different fields
   * give the same form in either order.
   */
  lemma EditsByField(f: Form, e1: Edit, e2: Edit)
    ensures FieldOf(e1) == FieldOf(e2) ==> ApplyEdit(ApplyEdit(f, e1), e2) == ApplyEdit(f, e2)
    ensures FieldOf(e1) != FieldOf(e2) ==> ApplyEdit(ApplyEdit(f, e1), e2) == ApplyEdit(ApplyEdit(f, e2), e1)
  {
  }

  // ---------------------------------------------------------------------------
  // The order request

  datatype ProductQuantity = ProductQuantity(productId: int, quantity: int)

  datatype Address = Address(street: string, city: string, zipcode: string)

  /** The request for the order service; `amount` is in cents. */
  datatype OrderRequest = OrderRequest(
    customerId: int,
    products: seq<ProductQuantity>,
    amount: int,
    paymentMethod: PaymentMethod,
    reference: string,
    address: Address)

  /** One product id and quantity per cart line, in cart order. */
  function RequestLines(cart: seq<Line>): (r: seq<ProductQuantity>)
    ensures |r| == |cart|
  {
    seq(|cart|, i requires 0 <= i < |cart| => ProductQuantity(cart[i].Id(), cart[i].quantity))
  }

  function RequestUnits(lines: seq<ProductQuantity>): int {
    if lines == [] then 0 else RequestUnits(lines[..|lines| - 1]) + lines[|lines| - 1].quantity
  }

  /**
   * The request built from the signed-in user, the cart, the form and the
   * current time in milliseconds: the amount is the cart total (rounding to
   * cents changes nothing in cents) and the reference is "ORD-" and the time.
   */
  function BuildRequest(user: User, cart: seq<Line>, form: Form, now: int): OrderRequest {
    OrderRequest(
      user.id,
      RequestLines(cart),
      CartTotal(cart),
      form.paymentMethod,
      ReferencePrefix + IntToString(now),
      Address(form.address, form.city, form.zipcode))
  }

  lemma {:induction false} RequestUnitsIsTotalItems(cart: seq<Line>)
    ensures RequestUnits(RequestLines(cart)) == TotalItems(cart)
  {
    if cart != [] {
      assert RequestLines(cart)[..|cart| - 1] == RequestLines(cart[..|cart| - 1]);
      RequestUnitsIsTotalItems(cart[..|cart| - 1]);
    }
  }

  /**
   * The request and the order the application then records from the same
   * cart agree: the same products and quantities in the same order, as many
   * units as the cart holds, and the same amount in cents. The customer,
   * payment method and address come from the user and the form.
   */
  lemma RequestMatchesOrder(user: User, cart: seq<Line>, form: Form, now: int, orderId: int, date: string)
    ensures var req := BuildRequest(user, cart, form, now);
      var o := NewOrder(cart, orderId, date);
      && |req.products| == |o.items| == |cart|
      && (forall i :: 0 <= i < |cart| ==>
            req.products[i].productId == o.items[i].productId == cart[i].Id()
            && req.products[i].quantity == o.items[i].quantity == cart[i].quantity)
      && RequestUnits(req.products) == TotalItems(cart)
      && req.amount == o.totalAmount == ItemsTotal(o.items)
      && req.customerId == user.id && req.paymentMethod == form.paymentMethod
      && req.address == Address(form.address, form.city, form.zipcode)
  {
    NewOrderCopiesCart(cart, orderId, date);
    RequestUnitsIsTotalItems(cart);
  }

  // ---------------------------------------------------------------------------
  // Guards and rendering

  /** Which guard of the submit handler stops it, checked in this order. */
  datatype SubmitGuard = NeedsLogin | CartIsEmpty | Proceed

  function Guard(isLoggedIn: bool, cart: seq<Line>): (g: SubmitGuard)
    ensures g == Proceed <==> isLoggedIn && cart != []
    ensures !isLoggedIn ==> g == NeedsLogin
    ensures isLoggedIn && cart == [] ==> g == CartIsEmpty
  {
    if !isLoggedIn then NeedsLogin
    else if |cart| == 0 then CartIsEmpty
    else Proceed
  }

  /** What the page renders: the empty-cart notice, the sign-in prompt, or the form. */
  datatype CheckoutView = EmptyCartNotice | LoginPrompt | OrderForm

  function View(cart: seq<Line>, isLoggedIn: bool): (v: CheckoutView)
    ensures v == OrderForm <==> isLoggedIn && cart != []
    ensures cart == [] ==> v == EmptyCartNotice
    ensures cart != [] && !isLoggedIn ==> v == LoginPrompt
  {
    if |cart| == 0 then EmptyCartNotice
    else if !isLoggedIn then LoginPrompt
    else OrderForm
  }

  /**
   * The form is rendered exactly when a submission passes both guards; but
   * the two checks run in opposite orders, so a signed-out visitor with an
   * empty cart sees the empty-cart notice while a submission would ask for
   * sign-in first.
   */
  lemma GuardsAndViewOrder(cart: seq<Line>, isLoggedIn: bool)
    ensures View(cart, isLoggedIn) == OrderForm <==> Guard(isLoggedIn, cart) == Proceed
    ensures !isLoggedIn && cart == [] ==>
      View(cart, isLoggedIn) == EmptyCartNotice && Guard(isLoggedIn, cart) == NeedsLogin
  {
  }

  const EmptyCartMessage: string := "Your cart is empty"
  const FailureMessage: string := "Failed to place order. Please try again."

  /** How the first part of a submission ends, before waiting for the order service. */
  datatype Submission =
    | RedirectToLogin
    | Rejected
    | Send(request: OrderRequest)

  class CheckoutPage {
    var form: Form
    var loading: bool
    var error: string

    constructor (user: Option<User>)
      ensures form == InitialForm(user) && !loading && error == ""
    {
      form := InitialForm(user);
      loading := false;
      error := "";
    }

    method Change(e: Edit)
      modifies this
      ensures form == ApplyEdit(old(form), e)
      ensures loading == old(loading) && error == old(error)
    {
      form := ApplyEdit(form, e);
    }

    /**
     * The submit handler up to the call of the order service. Signed out:
     * go to sign-in, nothing else. Empty cart: show the empty-cart message.
     * Otherwise start loading, clear the message and build the request; a
     * missing user fails while the request is built, which the handler
     * reports as a failed order.
     */
    method BeginSubmit(isLoggedIn: bool, cart: seq<Line>, user: Option<User>, now: int)
      returns (s: Submission)
      modifies this
      ensures form == old(form)
      ensures Guard(isLoggedIn, cart) == NeedsLogin ==>
        s == RedirectToLogin && loading == old(loading) && error == old(error)
      ensures Guard(isLoggedIn, cart) == CartIsEmpty ==>
        s == Rejected && loading == old(loading) && error == EmptyCartMessage
      ensures Guard(isLoggedIn, cart) == Proceed && user.None? ==>
        s == Rejected && !loading && error == FailureMessage
      ensures Guard(isLoggedIn, cart) == Proceed && user.Some? ==>
        s == Send(BuildRequest(user.value, cart, old(form), now)) && loading && error == ""
    {
      if !isLoggedIn {
        return RedirectToLogin;
      }
      if |cart| == 0 {
        error := EmptyCartMessage;
        return Rejected;
      }
      loading := true;
      error := "";
      match user {
        case None =>
          error := FailureMessage;
          loading := false;
          s := Rejected;
        case Some(u) =>
          s := Send(BuildRequest(u, cart, form, now));
      }
    }

    /**
     * The rest of the handler, once the order service has answered with the
     * new order's id (`Some`) or failed (`None`): go to the success page, or
     * show the failure message and stay; stop loading either way.
     */
    method FinishSubmit(reply: Option<int>) returns (navigateTo: Option<string>)
      modifies this
      ensures !loading && form == old(form)
      ensures reply.Some? ==> navigateTo == Some("/order-success/" + IntToString(reply.value)) && error == old(error)
      ensures reply.None? ==> navigateTo == None && error == FailureMessage
    {
      match reply {
        case Some(id) =>
          navigateTo := Some("/order-success/" + IntToString(id));
        case None =>
          error := FailureMessage;
          navigateTo := None;
      }
      loading := false;
    }

    /**
     * A whole submission against the application's order placement:
     * `now` is the current time in milliseconds, `orderId` the drawn order
     * number and `date` the current time as text.
     */
    method HandleSubmit(shop: Shop, now: int, orderId: int, date: string) returns (navigateTo: Option<string>)
      requires shop.Valid() && 0 <= orderId <= 9999
      modifies this, shop
      ensures form == old(form)
      ensures !old(shop.isLoggedIn) ==>
        navigateTo == Some("/login") && loading == old(loading) && error == old(error)
        && shop.cart == old(shop.cart) && shop.orders == old(shop.orders) && shop.storage == old(shop.storage)
      ensures old(shop.isLoggedIn) && old(shop.cart) == [] ==>
        navigateTo == None && error == EmptyCartMessage && loading == old(loading)
        && shop.cart == old(shop.cart) && shop.orders == old(shop.orders) && shop.storage == old(shop.storage)
      ensures old(shop.isLoggedIn) && old(shop.cart) != [] ==>
        && shop.orders == [NewOrder(old(shop.cart), orderId, date)] + old(shop.orders)
        && shop.cart == [] && shop.storage == old(shop.storage)[CartKey := CartRecord([])]
        && navigateTo == Some("/order-success/" + IntToString(orderId)) && error == "" && !loading
      ensures shop.Valid() && shop.user == old(shop.user) && shop.isLoggedIn == old(shop.isLoggedIn)
      ensures shop.products == old(shop.products)
    {
      var s := BeginSubmit(shop.isLoggedIn, shop.cart, shop.user, now);
      match s {
        case RedirectToLogin =>
          navigateTo := Some("/login");
        case Rejected =>
          navigateTo := None;
        case Send(request) =>
          var placed := shop.PlaceOrder(orderId, date);
          navigateTo := FinishSubmit(Some(placed.id));
      }
    }
  }
}
