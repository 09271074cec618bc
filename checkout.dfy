// The checkout page (CheckoutPage.jsx): a three-step wizard (shipping,
// payment, review) that builds the order payload from the cart and posts it.
// The POST, the token store and the clock are parameters: the model receives
// the token read from storage, the current time, and how the POST ended.

module Checkout {
  import opened Outcomes
  import Text
  import opened Cart

  // ----- steps

  const FIRST_STEP: int := 1
  const LAST_STEP: int := 3

  function NextStep(step: int): int {
    if step < LAST_STEP then step + 1 else step
  }

  function PrevStep(step: int): int {
    if step > FIRST_STEP then step - 1 else step
  }

  /** The wizard never leaves steps 1..3, moves one step at a time, and going
      forward then back (or back then forward) away from the ends is a no-op. */
  lemma StepsStayInRange(step: int)
    requires FIRST_STEP <= step <= LAST_STEP
    ensures FIRST_STEP <= NextStep(step) <= LAST_STEP && FIRST_STEP <= PrevStep(step) <= LAST_STEP
    ensures step < LAST_STEP ==> PrevStep(NextStep(step)) == step
    ensures step > FIRST_STEP ==> NextStep(PrevStep(step)) == step
    ensures NextStep(step) - step in {0, 1} && step - PrevStep(step) in {0, 1}
  {
  }

  // ----- payment methods

  datatype PaymentOption = PaymentOption(id: string, name: string, disabled: bool)

  const PAYMENT_METHODS: seq<PaymentOption> := [
    PaymentOption("cod", "Cash on Delivery", false),
    PaymentOption("gcash", "GCash", true),
    PaymentOption("paypal", "PayPal", true)
  ]

  predicate Selectable(method_: string) {
    exists i :: 0 <= i < |PAYMENT_METHODS| && PAYMENT_METHODS[i].id == method_ && !PAYMENT_METHODS[i].disabled
  }

  /** Cash on delivery is the only payment method that can be chosen. */
  lemma OnlyCashOnDeliverySelectable(m: string)
    ensures Selectable(m) <==> m == "cod"
  {
    if m == "cod" {
      assert PAYMENT_METHODS[0].id == m;
    }
  }

  // ----- the shipping form

  const SHIPPING_FIELDS: seq<string> :=
    ["firstName", "lastName", "email", "phone", "address", "city", "province", "postalCode"]

  datatype User = User(name: Option<string>, email: Option<string>)

  /** `s || ''` for an optional string. */
  function OrEmpty(s: Option<string>): string {
    if s.Some? then s.value else ""
  }

  /** `user?.name?.split(' ')[i] || ''` */
  function NameWord(user: Option<User>, i: nat): (w: string)
    ensures ' ' !in w
  {
    if user.None? || user.value.name.None? then ""
    else
      var words := Text.Split(user.value.name.value, ' ');
      if i < |words| then words[i] else ""
  }

  /** The form's first values: the first two words of the user's name, the
      user's email, everything else empty. */
  function InitialShipping(user: Option<User>): (info: map<string, string>)
    ensures forall f :: f in SHIPPING_FIELDS ==> f in info
  {
    map["firstName" := NameWord(user, 0),
        "lastName" := NameWord(user, 1),
        "email" := if user.Some? then OrEmpty(user.value.email) else "",
        "phone" := "", "address" := "", "city" := "", "province" := "", "postalCode" := ""]
  }

  /** A name whose first two words are `first` and `last` fills the first
      and last name fields with them; later words are dropped. */
  lemma InitialShippingSplitsName(first: string, last: string, rest: string, email: Option<string>)
    requires ' ' !in first && ' ' !in last
    requires rest == "" || rest[0] == ' '
    ensures var info := InitialShipping(Some(User(Some(first + " " + last + rest), email)));
            info["firstName"] == first && info["lastName"] == last && info["email"] == OrEmpty(email)
  {
    SplitTakesWords(first, last, rest);
  }

  lemma SplitTakesWords(first: string, last: string, rest: string)
    requires ' ' !in first && ' ' !in last
    requires rest == "" || rest[0] == ' '
    ensures |Text.Split(first + " " + last + rest, ' ')| >= 2
    ensures Text.Split(first + " " + last + rest, ' ')[0] == first
    ensures Text.Split(first + " " + last + rest, ' ')[1] == last
  {
    assert first + " " + last + rest == first + [' '] + (last + rest);
    Text.SplitAfterPiece(first, last + rest, ' ');
    if rest == "" {
      assert last + rest == last;
      Text.SplitSinglePiece(last, ' ');
    } else {
      assert last + rest == last + [' '] + rest[1..];
      Text.SplitAfterPiece(last, rest[1..], ' ');
    }
  }

  // ----- the order payload

  const PLACEHOLDER_IMAGE: string := "https://via.placeholder.com/200"

  datatype ShippingPayload = ShippingPayload(
    firstName: string, lastName: string, address: string, city: string,
    province: string, postalCode: string, phone: string)

  datatype PayloadItem = PayloadItem(
    productId: nat, name: string, image: string, size: Option<string>, price: int, quantity: int)

  datatype OrderPayload = OrderPayload(
    totalAmount: int, paymentMethod: string, shippingInfo: ShippingPayload, items: seq<PayloadItem>)

  predicate HasShippingFields(info: map<string, string>) {
    forall f :: f in SHIPPING_FIELDS ==> f in info
  }

  /** `item.image || placeholder` */
  function ImageOrPlaceholder(image: Option<string>): string {
    if image.Some? && image.value != "" then image.value else PLACEHOLDER_IMAGE
  }

  function ToPayloadItem(item: LineItem): PayloadItem {
    PayloadItem(item.id, item.name, ImageOrPlaceholder(item.image), item.size, item.price, item.quantity)
  }

  function PayloadItems(cart: seq<LineItem>): (items: seq<PayloadItem>)
    ensures |items| == |cart|
    ensures forall i :: 0 <= i < |cart| ==> items[i] == ToPayloadItem(cart[i])
  {
    if cart == [] then [] else PayloadItems(cart[..|cart| - 1]) + [ToPayloadItem(cart[|cart| - 1])]
  }

  /** The shipping block sent with the order: seven form fields; the email is not sent. */
  function ShippingOf(info: map<string, string>): ShippingPayload
    requires HasShippingFields(info)
  {
    ShippingPayload(info["firstName"], info["lastName"], info["address"], info["city"],
                    info["province"], info["postalCode"], info["phone"])
  }

  /** The body of the create-order request: the whole cart, not only the rows
      selected on the cart page. */
  function BuildOrderPayload(cart: seq<LineItem>, paymentMethod: string, info: map<string, string>): OrderPayload
    requires HasShippingFields(info)
  {
    OrderPayload(CalculateTotal(cart), paymentMethod, ShippingOf(info), PayloadItems(cart))
  }

  function ItemsTotal(items: seq<PayloadItem>): int {
    if items == [] then 0 else ItemsTotal(items[..|items| - 1]) + items[|items| - 1].price * items[|items| - 1].quantity
  }

  /** The declared total agrees with the items sent: it is the sum of each
      item's price times its quantity, and every cart row is sent once, in order. */
  lemma {:induction false} PayloadTotalMatchesItems(cart: seq<LineItem>, paymentMethod: string, info: map<string, string>)
    requires HasShippingFields(info)
    ensures var p := BuildOrderPayload(cart, paymentMethod, info);
            && p.totalAmount == ItemsTotal(p.items)
            && |p.items| == |cart|
            && (forall i :: 0 <= i < |cart| ==>
                  p.items[i].productId == cart[i].id && p.items[i].size == cart[i].size
                  && p.items[i].price == cart[i].price && p.items[i].quantity == cart[i].quantity)
  {
    ItemsTotalOfCart(cart);
  }

  lemma {:induction false} ItemsTotalOfCart(cart: seq<LineItem>)
    ensures ItemsTotal(PayloadItems(cart)) == CalculateTotal(cart)
  {
    if cart != [] {
      var items := PayloadItems(cart);
      assert items[..|items| - 1] == PayloadItems(cart[..|cart| - 1]);
      ItemsTotalOfCart(cart[..|cart| - 1]);
    }
  }

  /** What the user types into the email field never reaches the request. */
  lemma PayloadIgnoresEmail(cart: seq<LineItem>, paymentMethod: string, info: map<string, string>, email: string)
    requires HasShippingFields(info)
    ensures HasShippingFields(info["email" := email])
    ensures BuildOrderPayload(cart, paymentMethod, info["email" := email]) == BuildOrderPayload(cart, paymentMethod, info)
  {
  }

  // ----- placing the order

  const NO_TOKEN_MESSAGE: string := "No authentication token found. Please log in again."

  /** The created order as the server returns it. */
  datatype OrderCreated = OrderCreated(orderNumber: Option<string>, id: Option<int>)

  /** How the POST ends: a response (whose body may be empty), or an error
      carrying the server's `message` if any and the error's own message. */
  datatype PostResult =
    | Responded(data: Option<OrderCreated>)
    | Rejected(serverMessage: Option<string>, errorMessage: string)

  /** What `onOrderComplete` receives. */
  datatype OrderSummary = OrderSummary(orderNumber: string, totalAmount: int, status: string, orderId: Option<int>)

  datatype PlaceOrderEffects = PlaceOrderEffects(
    request: Option<(OrderPayload, string)>,  // the body and its Authorization header
    completed: Option<OrderSummary>,
    alert: Option<string>,
    navigateTo: Option<string>)

  /** `handlePlaceOrder` from the press to the `finally` block. */
  function PlaceOrder(cart: seq<LineItem>, paymentMethod: string, info: map<string, string>,
                      token: Option<string>, now: nat, result: PostResult): PlaceOrderEffects
    requires HasShippingFields(info)
  {
    var payload := BuildOrderPayload(cart, paymentMethod, info);
    if token.None? || token.value == "" then
      PlaceOrderEffects(None, None, Some("Failed to place order: " + NO_TOKEN_MESSAGE), None)
    else
      var request := Some((payload, "Bearer " + token.value));
      match result
      case Responded(None) => PlaceOrderEffects(request, None, None, None)
      case Responded(Some(created)) =>
        var number := if created.orderNumber.Some? && created.orderNumber.value != "" then created.orderNumber.value
                      else "ORD-" + Text.NatToString(now);
        PlaceOrderEffects(request, Some(OrderSummary(number, CalculateTotal(cart), "PENDING", created.id)),
                          None, Some("/order-confirmation"))
      case Rejected(serverMessage, errorMessage) =>
        var shown := if serverMessage.Some? && serverMessage.value != "" then serverMessage.value else errorMessage;
        PlaceOrderEffects(request, None, Some("Failed to place order: " + shown), None)
  }

  /** Without a stored token nothing is sent and the user is told to log in;
      with one, exactly the payload is sent with a bearer header. */
  lemma PlaceOrderSendsOnlyWithToken(cart: seq<LineItem>, paymentMethod: string, info: map<string, string>,
                                     token: Option<string>, now: nat, result: PostResult)
    requires HasShippingFields(info)
    ensures var e := PlaceOrder(cart, paymentMethod, info, token, now, result);
            && (e.request.None? <==> token.None? || token.value == "")
            && (e.request.Some? ==> e.request.value == (BuildOrderPayload(cart, paymentMethod, info), "Bearer " + token.value))
            && (e.request.None? ==> e == PlaceOrderEffects(None, None, Some("Failed to place order: " + NO_TOKEN_MESSAGE), None))
  {
  }

  /** The order is reported complete, and the confirmation page opened,
      exactly when the POST answered with a body; the summary is PENDING,
      carries the cart total and the server's order number, or a time-based
      one when the server gave none or an empty one. */
  lemma PlaceOrderCompletesOnResponse(cart: seq<LineItem>, paymentMethod: string, info: map<string, string>,
                                      token: Option<string>, now: nat, result: PostResult)
    requires HasShippingFields(info)
    ensures var e := PlaceOrder(cart, paymentMethod, info, token, now, result);
            && (e.completed.Some? <==> e.request.Some? && result.Responded? && result.data.Some?)
            && (e.completed.Some? <==> e.navigateTo == Some("/order-confirmation"))
            && (e.completed.Some? ==>
                  (&& e.alert.None?
                   && e.completed.value.status == "PENDING"
                   && e.completed.value.totalAmount == BuildOrderPayload(cart, paymentMethod, info).totalAmount
                   && e.completed.value.orderId == result.data.value.id
                   && (var given := result.data.value.orderNumber;
                       e.completed.value.orderNumber ==
                         if given.Some? && given.value != "" then given.value
                         else "ORD-" + Text.NatToString(now))))
            && (e.alert.Some? <==> e.request.None? || result.Rejected?)
  {
  }

  // ----- the page

  class CheckoutPage {
    var step: int
    var shippingInfo: map<string, string>
    var paymentMethod: string
    var isLoading: bool
    var confirmRemove: Option<PendingRemoval>

    ghost predicate Valid()
      reads this
    {
      FIRST_STEP <= step <= LAST_STEP && HasShippingFields(shippingInfo) && Selectable(paymentMethod)
    }

    constructor(user: Option<User>)
      ensures Valid()
      ensures step == FIRST_STEP && shippingInfo == InitialShipping(user) && paymentMethod == "cod"
      ensures !isLoading && confirmRemove == None
    {
      step := FIRST_STEP;
      shippingInfo := InitialShipping(user);
      paymentMethod := "cod";
      isLoading := false;
      confirmRemove := None;
      OnlyCashOnDeliverySelectable("cod");
    }

    method HandleNextStep()
      requires Valid()
      modifies this
      ensures Valid() && step == NextStep(old(step))
      ensures shippingInfo == old(shippingInfo) && paymentMethod == old(paymentMethod)
      ensures isLoading == old(isLoading) && confirmRemove == old(confirmRemove)
    {
      if step < LAST_STEP {
        step := step + 1;
      }
    }

    method HandlePrevStep()
      requires Valid()
      modifies this
      ensures Valid() && step == PrevStep(old(step))
      ensures shippingInfo == old(shippingInfo) && paymentMethod == old(paymentMethod)
      ensures isLoading == old(isLoading) && confirmRemove == old(confirmRemove)
    {
      if step > FIRST_STEP {
        step := step - 1;
      }
    }

    /** One form field changes; the others keep their values. */
    method HandleShippingChange(name: string, value: string)
      requires Valid()
      modifies this
      ensures Valid() && shippingInfo == old(shippingInfo)[name := value]
      ensures step == old(step) && paymentMethod == old(paymentMethod)
      ensures isLoading == old(isLoading) && confirmRemove == old(confirmRemove)
    {
      shippingInfo := shippingInfo[name := value];
    }

    /** A click on a payment option; a disabled option cannot be chosen. */
    method SelectPaymentMethod(id: string)
      requires Valid()
      modifies this
      ensures Valid()
      ensures paymentMethod == if Selectable(id) then id else old(paymentMethod)
      ensures step == old(step) && shippingInfo == old(shippingInfo)
      ensures isLoading == old(isLoading) && confirmRemove == old(confirmRemove)
    {
      OnlyCashOnDeliverySelectable(id);
      if id == "cod" {
        paymentMethod := id;
      }
    }

    /** `handlePlaceOrder`: loading while the POST is awaited, never after. */
    method HandlePlaceOrder(cart: seq<LineItem>, token: Option<string>, now: nat, result: PostResult)
      returns (effects: PlaceOrderEffects, loadingDuringCall: bool)
      requires Valid()
      modifies this
      ensures Valid() && step == old(step) && shippingInfo == old(shippingInfo)
      ensures effects == PlaceOrder(cart, paymentMethod, shippingInfo, token, now, result)
      ensures loadingDuringCall && !isLoading
      ensures paymentMethod == old(paymentMethod) && confirmRemove == old(confirmRemove)
    {
      isLoading := true;
      loadingDuringCall := isLoading;
      effects := PlaceOrder(cart, paymentMethod, shippingInfo, token, now, result);
      isLoading := false;
    }

    /** The review step's `-` button: one unit less while more than one is
        left; at one unit it only asks for confirmation. Never disabled. */
    method Decrement(item: LineItem) returns (call: Option<CartCall>)
      modifies this
      ensures item.quantity > 1 ==>
                call == Some(UpdateQuantityCall(item.id, item.quantity - 1, item.size))
                && confirmRemove == old(confirmRemove)
      ensures item.quantity == 1 ==> call == None && confirmRemove == Some(PendingRemoval(item))
      ensures item.quantity < 1 ==> call == None && confirmRemove == old(confirmRemove)
      ensures step == old(step) && shippingInfo == old(shippingInfo)
      ensures paymentMethod == old(paymentMethod) && isLoading == old(isLoading)
    {
      call := None;
      if item.quantity > 1 {
        call := Some(UpdateQuantityCall(item.id, item.quantity - 1, item.size));
      } else if item.quantity == 1 {
        confirmRemove := Some(PendingRemoval(item));
      }
    }

    /** The review step's `+` button. */
    method Increment(item: LineItem) returns (call: CartCall)
      ensures call == UpdateQuantityCall(item.id, item.quantity + 1, item.size)
    {
      call := UpdateQuantityCall(item.id, item.quantity + 1, item.size);
    }

    /** The dialog's Remove button: the removal is awaited, and the dialog only
        closes when it resolves; a removal that throws leaves it open. */
    method ConfirmRemoval(outcome: CallOutcome) returns (call: CartCall)
      requires confirmRemove.Some?
      modifies this
      ensures call == old(confirmRemove).value.RemovalCall()
      ensures confirmRemove == if outcome == Resolves then None else old(confirmRemove)
      ensures step == old(step) && shippingInfo == old(shippingInfo)
      ensures paymentMethod == old(paymentMethod) && isLoading == old(isLoading)
    {
      call := confirmRemove.value.RemovalCall();
      if outcome == Resolves {
        confirmRemove := None;
      }
    }

    /** The dialog's Cancel button, and a click on the overlay. */
    method CancelRemoval()
      modifies this
      ensures confirmRemove == None
      ensures step == old(step) && shippingInfo == old(shippingInfo)
      ensures paymentMethod == old(paymentMethod) && isLoading == old(isLoading)
    {
      confirmRemove := None;
    }
  }

  /** The page's redirects: to the login page when signed out, to the cart
      when the cart is empty (both may fire). */
  function Redirects(isAuthenticated: bool, cart: Option<seq<LineItem>>): (targets: seq<string>)
    ensures "/login" in targets <==> !isAuthenticated
    ensures "/cart" in targets <==> cart.Some? && |cart.value| == 0
    ensures |targets| <= 2
  {
    (if !isAuthenticated then ["/login"] else []) + (if cart.Some? && |cart.value| == 0 then ["/cart"] else [])
  }
}
