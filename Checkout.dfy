/** The checkout page (app/checkout/page.tsx): a three-step flow (1 shipping, 2 payment,
    3 review) over the cart store, the one-time client-secret request for card payments, the
    choice between the card form and the direct Place Order button, and order submission. The
    backend's answers are outcomes given as parameters; `router.push` is recorded as a target. */
module Checkout {
  import opened Wrappers
  import opened Folds
  import opened CartContext
  import opened AuthStore
  import opened StripePaymentForm

  const CreditCard: string := "Credit Card"
  const DefaultCountry: string := "United States"
  const PaymentInitError: string := "Could not initialize payment."
  const OrderFallback: string := "Something went wrong."
  const OrdersRoute: string := "/orders"
  const LoginRedirect: string := "/login?redirect=/checkout"

  // ---------------------------------------------------------------------------------------
  // The order payload

  datatype OrderItem = OrderItem(name: string, qty: int, image: string, price: int,
                                 product: Option<string>)

  datatype PaymentResult = PaymentResult(id: string, status: string, email: Option<string>)

  datatype OrderData = OrderData(orderItems: seq<OrderItem>, shippingAddress: Address,
                                 paymentMethod: string, itemsPrice: int, shippingPrice: int,
                                 taxPrice: int, totalPrice: int,
                                 paymentResult: Option<PaymentResult>)

  function OrderItemOf(item: CartItem): OrderItem
  {
    OrderItem(item.name, item.qty, item.image, item.price, item.id)
  }

  function OrderItemsOf(items: seq<CartItem>): (r: seq<OrderItem>)
    ensures |r| == |items|
    ensures forall i :: 0 <= i < |items| ==> r[i] == OrderItemOf(items[i])
  {
    seq(|items|, i requires 0 <= i < |items| => OrderItemOf(items[i]))
  }

  /** `user?.email`. */
  function EmailOf(user: Option<User>): Option<string>
  {
    if user.Some? then Some(user.value.email) else None
  }

  /** The `paymentResult` field: null without a result, otherwise the intent's id and status and
      `receipt_email || user?.email`. */
  function PaymentResultOf(intent: Option<PaymentIntent>, user: Option<User>): (r: Option<PaymentResult>)
    ensures r.None? <==> intent.None?
    ensures intent.Some? ==> r.value.id == intent.value.id && r.value.status == intent.value.status
    ensures intent.Some? && Truthy(intent.value.receiptEmail) ==> r.value.email == intent.value.receiptEmail
    ensures intent.Some? && !Truthy(intent.value.receiptEmail) ==> r.value.email == EmailOf(user)
  {
    match intent
    case None => None
    case Some(pi) => Some(PaymentResult(pi.id, pi.status, OrElse(pi.receiptEmail, EmailOf(user))))
  }

  /** `orderData` as `handlePlaceOrder` assembles it. */
  function BuildOrder(items: seq<CartItem>, formData: Address, paymentType: string,
                      intent: Option<PaymentIntent>, user: Option<User>): OrderData
  {
    OrderData(OrderItemsOf(items), formData, paymentType, ItemsPrice(items), ShippingPrice(items),
              TaxPrice(items), TotalPrice(items), PaymentResultOf(intent, user))
  }

  function OrderLineTotal(o: OrderItem): int
  {
    o.price * o.qty
  }

  lemma {:induction false} OrderLinesSumToItemsPrice(items: seq<CartItem>)
    ensures Sum(OrderItemsOf(items), OrderLineTotal) == ItemsPrice(items)
  {
    if items != [] {
      var n := |items|;
      assert OrderItemsOf(items)[..n - 1] == OrderItemsOf(items[..n - 1]);
      OrderLinesSumToItemsPrice(items[..n - 1]);
    }
  }

  /** The payload is consistent: its lines are the cart's lines in order, they add up to its
      `itemsPrice`, and its total is the sum of the three other figures. */
  lemma OrderPayloadConsistent(items: seq<CartItem>, formData: Address, paymentType: string,
                               intent: Option<PaymentIntent>, user: Option<User>)
    ensures var o := BuildOrder(items, formData, paymentType, intent, user);
            && |o.orderItems| == |items|
            && (forall i :: 0 <= i < |items| ==>
                  o.orderItems[i] == OrderItem(items[i].name, items[i].qty, items[i].image,
                                               items[i].price, items[i].id))
            && Sum(o.orderItems, OrderLineTotal) == o.itemsPrice
            && o.totalPrice == o.itemsPrice + o.shippingPrice + o.taxPrice
            && o.shippingAddress == formData && o.paymentMethod == paymentType
  {
    OrderLinesSumToItemsPrice(items);
  }

  // ---------------------------------------------------------------------------------------
  // The form and the view

  datatype Field = FirstName | LastName | Street | City | PostalCode | Country

  /** `handleInputChange`: one named field replaced. */
  function WithField(a: Address, f: Field, value: string): Address
  {
    match f
    case FirstName => a.(firstName := value)
    case LastName => a.(lastName := value)
    case Street => a.(address := value)
    case City => a.(city := value)
    case PostalCode => a.(postalCode := value)
    case Country => a.(country := value)
  }

  /** The step-1 inputs are all `required`: the browser submits only when none is empty. */
  predicate ShippingFormComplete(a: Address)
  {
    a.firstName != "" && a.lastName != "" && a.address != "" && a.city != "" &&
    a.postalCode != "" && a.country != ""
  }

  function FieldOf(a: Address, f: Field): string
  {
    match f
    case FirstName => a.firstName
    case LastName => a.lastName
    case Street => a.address
    case City => a.city
    case PostalCode => a.postalCode
    case Country => a.country
  }

  /** `shippingAddress?.<field>`: undefined while nothing is saved. */
  function SavedField(saved: Option<Address>, f: Field): Option<string>
  {
    if saved.Some? then Some(FieldOf(saved.value, f)) else None
  }

  /** The form's initial values: the saved address, else the user's name, else empty; the
      country defaults to the United States. */
  function InitialFormData(saved: Option<Address>, user: Option<User>): (a: Address)
    ensures saved.Some? && ShippingFormComplete(saved.value) ==> a == saved.value
    ensures saved.None? && user.None? ==> a == Address("", "", "", "", "", DefaultCountry)
  {
    Address(
      MessageOr(OrElse(SavedField(saved, FirstName),
                       if user.Some? then Some(user.value.firstName) else None), ""),
      MessageOr(OrElse(SavedField(saved, LastName),
                       if user.Some? then Some(user.value.lastName) else None), ""),
      MessageOr(SavedField(saved, Street), ""),
      MessageOr(SavedField(saved, City), ""),
      MessageOr(SavedField(saved, PostalCode), ""),
      MessageOr(SavedField(saved, Country), DefaultCountry))
  }

  datatype PaymentPath = CardForm | PlaceOrderButton

  datatype CheckoutView = EmptyCartView | StepView(step: int) | ReviewView(path: PaymentPath)

  /** What the page renders: the empty-cart message when there are no items and no submission is
      in flight; otherwise the current step, where the review step offers the card form only for
      a card payment that already has a client secret. */
  function View(itemCount: nat, loading: bool, step: int, paymentType: string,
                clientSecret: string): (v: CheckoutView)
    ensures v == EmptyCartView <==> itemCount == 0 && !loading
    ensures v.ReviewView? <==> !(itemCount == 0 && !loading) && step == 3
    ensures v.StepView? ==> v.step == step
    ensures v.ReviewView? ==> (v.path == CardForm <==> paymentType == CreditCard && clientSecret != "")
  {
    if itemCount == 0 && !loading then EmptyCartView
    else if step == 3 then
      ReviewView(if paymentType == CreditCard && clientSecret != "" then CardForm else PlaceOrderButton)
    else StepView(step)
  }

  /** The client-secret effect's guard. */
  predicate ShouldRequestSecret(step: int, paymentType: string, clientSecret: string)
  {
    step == 3 && paymentType == CreditCard && clientSecret == ""
  }

  /** The sign-in effect: an unauthenticated visitor is sent to log in and come back. */
  function AuthRedirect(isAuthenticated: bool): (r: Option<string>)
    ensures r.Some? <==> !isAuthenticated
    ensures r.Some? ==> r.value == LoginRedirect
  {
    if isAuthenticated then None else Some(LoginRedirect)
  }

  // ---------------------------------------------------------------------------------------
  // The page's state

  class CheckoutPage {
    const cart: CartStore
    const user: Option<User>
    var step: int
    var loading: bool
    var error: Option<string>
    var clientSecret: string
    var paymentType: string
    var formData: Address
    /** The last `router.push` target, if any. */
    var navigation: Option<string>

    ghost predicate Valid()
      reads this, cart
    {
      cart.Valid() && 1 <= step <= 3
    }

    function CurrentView(): CheckoutView
      reads this, cart
    {
      View(|cart.cartItems|, loading, step, paymentType, clientSecret)
    }

    constructor (cart: CartStore, user: Option<User>)
      requires cart.Valid()
      ensures Valid()
      ensures this.cart == cart && this.user == user
      ensures step == 1 && !loading && error == None && clientSecret == "" && navigation == None
      ensures paymentType == MessageOr(Some(cart.paymentMethod), CreditCard)
      ensures formData == InitialFormData(cart.shippingAddress, user)
    {
      this.cart := cart;
      this.user := user;
      step := 1;
      loading := false;
      error := None;
      clientSecret := "";
      paymentType := MessageOr(Some(cart.paymentMethod), CreditCard);
      formData := InitialFormData(cart.shippingAddress, user);
      navigation := None;
    }

    method ChangeField(f: Field, value: string)
      requires Valid()
      modifies this
      ensures Valid()
      ensures formData == WithField(old(formData), f, value)
      ensures step == old(step) && loading == old(loading) && error == old(error)
      ensures clientSecret == old(clientSecret) && paymentType == old(paymentType)
      ensures navigation == old(navigation)
    {
      formData := WithField(formData, f, value);
    }

    /** `handleNextStep`: 1 saves the address and moves to 2, 2 saves the payment method and
        moves to 3, 3 does nothing. */
    method HandleNextStep()
      requires Valid()
      modifies this, cart
      ensures Valid()
      ensures old(step) == 1 ==> step == 2 && cart.shippingAddress == Some(formData)
                                 && cart.paymentMethod == old(cart.paymentMethod)
      ensures old(step) == 2 ==> step == 3 && cart.paymentMethod == paymentType
                                 && cart.shippingAddress == old(cart.shippingAddress)
      ensures old(step) == 3 ==> step == 3 && cart.shippingAddress == old(cart.shippingAddress)
                                 && cart.paymentMethod == old(cart.paymentMethod)
      ensures cart.cartItems == old(cart.cartItems)
      ensures formData == old(formData) && paymentType == old(paymentType)
      ensures loading == old(loading) && error == old(error) && clientSecret == old(clientSecret)
      ensures navigation == old(navigation)
    {
      if step == 1 {
        cart.SaveShippingAddress(formData);
        step := 2;
      } else if step == 2 {
        cart.SavePaymentMethod(paymentType);
        step := 3;
      }
    }

    /** Submitting the current step's form: the browser holds back the shipping form while a
        required field is empty. */
    method SubmitForm()
      requires Valid()
      modifies this, cart
      ensures Valid()
      ensures old(step) == 1 && !ShippingFormComplete(formData) ==>
                step == 1 && cart.shippingAddress == old(cart.shippingAddress)
      ensures old(step) == 1 && ShippingFormComplete(formData) ==>
                step == 2 && cart.shippingAddress == Some(formData)
      ensures old(step) == 2 ==> step == 3 && cart.paymentMethod == paymentType
      ensures old(step) == 3 ==> step == 3
      ensures old(step) != 2 ==> cart.paymentMethod == old(cart.paymentMethod)
      ensures old(step) != 1 ==> cart.shippingAddress == old(cart.shippingAddress)
      ensures cart.cartItems == old(cart.cartItems)
      ensures formData == old(formData) && paymentType == old(paymentType)
      ensures loading == old(loading) && error == old(error) && clientSecret == old(clientSecret)
      ensures navigation == old(navigation)
    {
      if step == 1 && !ShippingFormComplete(formData) {
        return;
      }
      HandleNextStep();
    }

    /** "Back to Shipping" on step 2 and "Edit" of the address on step 3. */
    method BackToShipping()
      requires Valid() && (step == 2 || step == 3)
      modifies this
      ensures Valid()
      ensures step == 1
      ensures formData == old(formData) && paymentType == old(paymentType)
      ensures loading == old(loading) && error == old(error) && clientSecret == old(clientSecret)
      ensures navigation == old(navigation)
    {
      step := 1;
    }

    /** "Edit" of the payment method and "Back to Payment" on step 3. */
    method BackToPayment()
      requires Valid() && step == 3
      modifies this
      ensures Valid()
      ensures step == 2
      ensures formData == old(formData) && paymentType == old(paymentType)
      ensures loading == old(loading) && error == old(error) && clientSecret == old(clientSecret)
      ensures navigation == old(navigation)
    {
      step := 2;
    }

    /** One run of the client-secret effect. When its guard holds it asks the backend for an
        intent over `totalPrice` (the amount is returned) and stores the secret it gets; a failure
        sets the error and leaves the secret empty. Otherwise it does nothing. */
    method RunSecretEffect(response: Outcome<Option<string>>) returns (requested: Option<int>)
      requires Valid()
      modifies this
      ensures Valid()
      ensures old(ShouldRequestSecret(step, paymentType, clientSecret)) ==>
                && requested == Some(TotalPrice(cart.cartItems))
                && (response.Ok? ==> clientSecret == MessageOr(response.value, "") && error == old(error))
                && (response.Fail? ==> clientSecret == "" && error == Some(PaymentInitError))
      ensures !old(ShouldRequestSecret(step, paymentType, clientSecret)) ==>
                requested == None && clientSecret == old(clientSecret) && error == old(error)
      ensures step == old(step) && loading == old(loading) && formData == old(formData)
      ensures paymentType == old(paymentType) && navigation == old(navigation)
    {
      if ShouldRequestSecret(step, paymentType, clientSecret) {
        requested := Some(TotalPrice(cart.cartItems));
        match response
        case Ok(secret) => clientSecret := MessageOr(secret, "");
        case Fail(_) => error := Some(PaymentInitError);
      } else {
        requested := None;
      }
    }

    /** `handlePlaceOrder`: posts the payload; success clears the cart and goes to the orders
        page, failure keeps everything and shows the backend's message or a fallback; either way
        `loading` ends false. */
    method HandlePlaceOrder(intent: Option<PaymentIntent>, response: Outcome<()>)
      returns (order: OrderData)
      requires Valid()
      modifies this, cart
      ensures Valid()
      ensures order == BuildOrder(old(cart.cartItems), formData, paymentType, intent, user)
      ensures !loading
      ensures response.Ok? ==> cart.cartItems == [] && error == None && navigation == Some(OrdersRoute)
      ensures response.Fail? ==>
                && cart.cartItems == old(cart.cartItems)
                && error == Some(FailureMessage(response, OrderFallback))
                && navigation == old(navigation)
      ensures cart.shippingAddress == old(cart.shippingAddress)
      ensures cart.paymentMethod == old(cart.paymentMethod)
      ensures step == old(step) && formData == old(formData) && paymentType == old(paymentType)
      ensures clientSecret == old(clientSecret)
    {
      loading := true;
      error := None;
      order := BuildOrder(cart.cartItems, formData, paymentType, intent, user);
      if response.Ok? {
        cart.ClearCart();
        navigation := Some(OrdersRoute);
      } else {
        error := Some(FailureMessage(response, OrderFallback));
      }
      loading := false;
    }

    /** Paying on the card form: the form's outcome decides whether the order is placed with the
        confirmed intent, the form's message becomes the page's error, or nothing happens. The
        form's own `loading` stays set after a confirmation that was not declined, since only its
        error path clears it. */
    method PayByCard(form: PaymentForm, stripeLoaded: bool, elementsLoaded: bool,
                     c: Confirmation, response: Outcome<()>)
      returns (order: Option<OrderData>)
      requires Valid() && CurrentView() == ReviewView(CardForm)
      modifies this, cart, form
      ensures Valid()
      ensures var cb := if stripeLoaded && elementsLoaded then Dispatch(c) else NoCallback;
              && (cb.SuccessCallback? ==>
                    && order == Some(BuildOrder(old(cart.cartItems), formData, paymentType, Some(cb.intent), user))
                    && !loading
                    && (response.Ok? ==>
                          cart.cartItems == [] && error == None && navigation == Some(OrdersRoute))
                    && (response.Fail? ==>
                          && cart.cartItems == old(cart.cartItems)
                          && error == Some(FailureMessage(response, OrderFallback))
                          && navigation == old(navigation)))
              && (cb.ErrorCallback? ==>
                    && order == None && error == Some(cb.message) && cart.cartItems == old(cart.cartItems)
                    && loading == old(loading) && navigation == old(navigation))
              && (cb.NoCallback? ==>
                    && order == None && error == old(error) && cart.cartItems == old(cart.cartItems)
                    && loading == old(loading) && navigation == old(navigation))
      ensures stripeLoaded && elementsLoaded ==> form.loading == !c.Declined?
      ensures !(stripeLoaded && elementsLoaded) ==> form.loading == old(form.loading)
      ensures cart.shippingAddress == old(cart.shippingAddress)
      ensures cart.paymentMethod == old(cart.paymentMethod)
      ensures step == old(step) && formData == old(formData) && paymentType == old(paymentType)
      ensures clientSecret == old(clientSecret)
    {
      var cb := form.HandleSubmit(stripeLoaded, elementsLoaded, c);
      match cb
      case SuccessCallback(pi) =>
        var o := HandlePlaceOrder(Some(pi), response);
        order := Some(o);
      case ErrorCallback(msg) =>
        error := Some(msg);
        order := None;
      case NoCallback =>
        order := None;
    }
  }

  /** A card checkout asks for the client secret once: entering review requests it, and going
      back to the payment step and returning to review does not ask again. */
  method CardSecretRequestedOnce(cart: CartStore, user: Option<User>, secret: string)
    returns (first: Option<int>, second: Option<int>)
    requires cart.Valid() && cart.paymentMethod == CreditCard && secret != ""
    modifies cart
    ensures first == Some(TotalPrice(old(cart.cartItems)))
    ensures second == None
  {
    var page := new CheckoutPage(cart, user);
    page.HandleNextStep();
    page.HandleNextStep();
    first := page.RunSecretEffect(Ok(Some(secret)));
    page.BackToPayment();
    page.HandleNextStep();
    second := page.RunSecretEffect(Ok(Some(secret)));
  }

  /** With PayPal chosen, reaching review requests no secret and offers Place Order. */
  method PayPalRequestsNoSecret(cart: CartStore, user: Option<User>)
    returns (requested: Option<int>, view: CheckoutView)
    requires cart.Valid() && cart.paymentMethod == "PayPal" && |cart.cartItems| > 0
    modifies cart
    ensures requested == None
    ensures view == ReviewView(PlaceOrderButton)
  {
    var page := new CheckoutPage(cart, user);
    page.HandleNextStep();
    page.HandleNextStep();
    requested := page.RunSecretEffect(Ok(Some("unused")));
    view := page.CurrentView();
  }

  /** With an empty cart and nothing in flight only the empty-cart message is produced, whatever
      the step. */
  lemma NoStepWithEmptyCart(step: int, paymentType: string, clientSecret: string)
    ensures View(0, false, step, paymentType, clientSecret) == EmptyCartView
  {
  }
}
