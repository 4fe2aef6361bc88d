/**
 * app/checkout.tsx: the checkout form's validation, the delivery fee and order total, the order
 * payload built from the form, and the submission that clears the cart and picks the next route.
 */
module Checkout {
  import opened Wrappers
  import opened Text
  import opened Types
  import PhoneMask
  import CartContext

  /** The fixed delivery fee of 10 reais, in cents. */
  const DELIVERY_FEE: int := 1000

  const NAME_REQUIRED: string := "Informe seu nome"
  const EMAIL_REQUIRED: string := "Informe seu e-mail"
  const PHONE_REQUIRED: string := "Informe seu telefone"
  const ADDRESS_REQUIRED: string := "Preencha o endereço completo"
  const CHECKOUT_FALLBACK: string := "Erro ao processar pedido"

  const CITY: string := "Palmas"
  const STATE: string := "TO"

  datatype DeliveryMethod = Delivery | Pickup
  datatype PaymentMethod = Pix | Cash

  datatype Address = Address(
    street: string,
    number: string,
    complement: string,
    neighborhood: string,
    city: string,
    state: string,
    zipCode: string)

  /** The body of the checkout request. */
  datatype CheckoutData = CheckoutData(
    customerName: string,
    customerEmail: string,
    customerPhone: string,
    deliveryMethod: DeliveryMethod,
    paymentMethod: PaymentMethod,
    deliveryNotes: string,
    deliveryAddress: Option<Address>)

  /** The part of the checkout response the screen reads. */
  datatype OrderResponse = OrderResponse(orderNumber: Option<string>)

  function DeliveryFee(delivery: DeliveryMethod): (fee: int)
    ensures fee == if delivery == Delivery then DELIVERY_FEE else 0
    ensures fee >= 0
  {
    match delivery
    case Delivery => DELIVERY_FEE
    case Pickup => 0
  }

  /** `total = cartTotal + deliveryFee`: pickup costs exactly the cart, delivery ten reais more. */
  function OrderTotal(cartTotal: int, delivery: DeliveryMethod): (total: int)
    ensures delivery == Pickup ==> total == cartTotal
    ensures delivery == Delivery ==> total == cartTotal + DELIVERY_FEE
    ensures total >= cartTotal
  {
    cartTotal + DeliveryFee(delivery)
  }

  /** The first failing check of validateForm, in its order: name, e-mail, phone, then (for
      delivery only) street, number and neighbourhood together. */
  function CheckoutError(name: string, email: string, phone: string, delivery: DeliveryMethod,
                         street: string, number: string, neighborhood: string): (r: Option<string>)
    ensures Blank(name) ==> r == Some(NAME_REQUIRED)
    ensures !Blank(name) && Blank(email) ==> r == Some(EMAIL_REQUIRED)
    ensures !Blank(name) && !Blank(email) && Blank(phone) ==> r == Some(PHONE_REQUIRED)
    ensures (!Blank(name) && !Blank(email) && !Blank(phone) && delivery == Delivery &&
             (Blank(street) || Blank(number) || Blank(neighborhood))) ==> r == Some(ADDRESS_REQUIRED)
  {
    if Blank(name) then Some(NAME_REQUIRED)
    else if Blank(email) then Some(EMAIL_REQUIRED)
    else if Blank(phone) then Some(PHONE_REQUIRED)
    else if delivery == Delivery && (Blank(street) || Blank(number) || Blank(neighborhood)) then Some(ADDRESS_REQUIRED)
    else None
  }

  /** The form passes exactly when name, e-mail and phone hold something other than whitespace
      and, for delivery, so do street, number and neighbourhood. Complement and notes are never
      required, and pickup needs no address. */
  lemma CheckoutErrorNoneIff(name: string, email: string, phone: string, delivery: DeliveryMethod,
                             street: string, number: string, neighborhood: string)
    ensures CheckoutError(name, email, phone, delivery, street, number, neighborhood).None? <==>
              !AllSpace(name) && !AllSpace(email) && !AllSpace(phone) &&
              (delivery == Delivery ==> !AllSpace(street) && !AllSpace(number) && !AllSpace(neighborhood))
    ensures delivery == Pickup ==>
              CheckoutError(name, email, phone, delivery, street, number, neighborhood) ==
              CheckoutError(name, email, phone, delivery, "", "", "")
  {
  }

  /** `err.response?.data?.error || 'Erro ao processar pedido'` */
  function CheckoutErrorMessage(e: ApiError): (msg: string)
    ensures msg != ""
    ensures e.response.None? ==> msg == CHECKOUT_FALLBACK
    ensures e.response.Some? && e.response.value.data.error.Some? && e.response.value.data.error.value != "" ==>
              msg == e.response.value.data.error.value
    ensures e.response.Some? && (e.response.value.data.error.None? || e.response.value.data.error.value == "") ==>
              msg == CHECKOUT_FALLBACK
  {
    match e.response
    case Some(resp) => if resp.data.error.Some? && resp.data.error.value != "" then resp.data.error.value else CHECKOUT_FALLBACK
    case None => CHECKOUT_FALLBACK
  }

  /** The route after a placed order: the order page when the response names the order, the
      order list otherwise. */
  function OrderRoute(order: OrderResponse): (route: string)
    ensures order.orderNumber.Some? && order.orderNumber.value != "" ==>
              route == "/order/" + order.orderNumber.value + "?success=true"
    ensures !(order.orderNumber.Some? && order.orderNumber.value != "") ==> route == "/orders"
  {
    if order.orderNumber.Some? && order.orderNumber.value != "" then "/order/" + order.orderNumber.value + "?success=true"
    else "/orders"
  }

  /** itemCount: the number of lines, not of units. */
  function ItemCount(cart: CartContext.CartState): (n: int)
    reads cart
    ensures n >= 0
    ensures n == 0 <==> !cart.HasItems()
  {
    |cart.cart| + |cart.combos|
  }

  /** With positive quantities the line count never exceeds the unit count of the cart badge. */
  lemma ItemCountAtMostCartCount(cart: CartContext.CartState)
    requires CartContext.AllPositive(cart.cart) && CartContext.AllPositive(cart.combos)
    ensures ItemCount(cart) <= cart.CartCount()
  {
    CartContext.QuantitiesAtLeastLength(cart.cart);
    CartContext.QuantitiesAtLeastLength(cart.combos);
  }

  /** The checkout screen's form state. */
  class CheckoutForm {
    var name: string
    var email: string
    var phone: string
    var deliveryMethod: DeliveryMethod
    var paymentMethod: PaymentMethod
    var street: string
    var number: string
    var complement: string
    var neighborhood: string
    var notes: string
    var isLoading: bool
    var error: string

    /** The form prefilled from the signed-in user, if any: full name, e-mail and phone;
        delivery and Pix selected. */
    constructor (user: Option<User>)
      ensures user.Some? ==> name == user.value.firstName + " " + user.value.lastName &&
                             email == user.value.email && phone == user.value.phone.GetOr("")
      ensures user.None? ==> name == "" && email == "" && phone == ""
      ensures deliveryMethod == Delivery && paymentMethod == Pix
      ensures street == "" && number == "" && complement == "" && neighborhood == "" && notes == ""
      ensures !isLoading && error == ""
    {
      match user {
        case Some(u) =>
          name := u.firstName + " " + u.lastName;
          email := u.email;
          phone := u.phone.GetOr("");
        case None =>
          name := "";
          email := "";
          phone := "";
      }
      deliveryMethod, paymentMethod := Delivery, Pix;
      street, number, complement, neighborhood, notes := "", "", "", "", "";
      isLoading, error := false, "";
    }

    function Error(): Option<string>
      reads this`name, this`email, this`phone, this`deliveryMethod, this`street, this`number, this`neighborhood
    {
      CheckoutError(name, email, phone, deliveryMethod, street, number, neighborhood)
    }

    /** checkoutData: trimmed text fields, the phone as digits only, and an address (in Palmas,
        TO, with no zip code) exactly for delivery. */
    function Payload(): (d: CheckoutData)
      reads this`name, this`email, this`phone, this`deliveryMethod, this`paymentMethod, this`street,
            this`number, this`complement, this`neighborhood, this`notes
      ensures d.customerPhone == Digits(phone) && AllDigits(d.customerPhone)
      ensures d.customerName == Trim(name) && d.customerEmail == Trim(email) && d.deliveryNotes == Trim(notes)
      ensures d.deliveryMethod == deliveryMethod && d.paymentMethod == paymentMethod
      ensures d.deliveryAddress.Some? <==> deliveryMethod == Delivery
      ensures d.deliveryAddress.Some? ==>
                d.deliveryAddress.value.street == Trim(street) &&
                d.deliveryAddress.value.number == Trim(number) &&
                d.deliveryAddress.value.complement == Trim(complement) &&
                d.deliveryAddress.value.neighborhood == Trim(neighborhood) &&
                d.deliveryAddress.value.city == CITY && d.deliveryAddress.value.state == STATE &&
                d.deliveryAddress.value.zipCode == ""
    {
      CheckoutData(
        Trim(name), Trim(email), Digits(phone), deliveryMethod, paymentMethod, Trim(notes),
        if deliveryMethod == Delivery then
          Some(Address(Trim(street), Trim(number), Trim(complement), Trim(neighborhood), CITY, STATE, ""))
        else None)
    }

    /** A payload sent after validation names the customer, and for delivery gives a street,
        number and neighbourhood. */
    lemma ValidPayloadIsComplete()
      requires Error().None?
      ensures Payload().customerName != "" && Payload().customerEmail != ""
      ensures Payload().deliveryAddress.Some? ==>
                Payload().deliveryAddress.value.street != "" &&
                Payload().deliveryAddress.value.number != "" &&
                Payload().deliveryAddress.value.neighborhood != ""
    {
      assert !Blank(name) && !Blank(email);
      assert deliveryMethod == Delivery ==> !Blank(street) && !Blank(number) && !Blank(neighborhood);
    }

    /** handlePhoneChange: the field shows the typing mask of what was entered. */
    method HandlePhoneChange(text: string)
      modifies this`phone
      ensures phone == PhoneMask.Mask(Digits(text)) && |phone| <= PhoneMask.MAX_LENGTH
    {
      phone := PhoneMask.FormatPhoneNumber(text);
    }

    /** validateForm: sets the first failing message and answers whether the form may be sent. */
    method ValidateForm() returns (ok: bool)
      modifies this`error
      ensures ok <==> old(Error()).None?
      ensures !ok ==> error == old(Error()).value
      ensures ok ==> error == old(error)
    {
      if Blank(name) {
        error := NAME_REQUIRED;
        return false;
      }
      if Blank(email) {
        error := EMAIL_REQUIRED;
        return false;
      }
      if Blank(phone) {
        error := PHONE_REQUIRED;
        return false;
      }
      if deliveryMethod == Delivery {
        if Blank(street) || Blank(number) || Blank(neighborhood) {
          error := ADDRESS_REQUIRED;
          return false;
        }
      }
      return true;
    }

    /** handleCheckout: an invalid form only shows its message. A valid one sends the payload; a
        placed order clears the cart (through clearCart, which swallows its own failure) and
        routes to the order, a rejected one shows the server's message. Loading ends either way. */
    method HandleCheckout(cart: CartContext.CartState, response: Remote<OrderResponse>, cleared: Remote<()>)
      returns (sent: Option<CheckoutData>, route: Option<string>)
      modifies this`isLoading, this`error, cart`cart, cart`combos, cart`cache
      ensures sent.Some? <==> old(Error()).None?
      ensures sent.None? ==>
                error == old(Error()).value && isLoading == old(isLoading) && route == None &&
                cart.cart == old(cart.cart) && cart.combos == old(cart.combos) && cart.cache == old(cart.cache)
      ensures sent.Some? ==> sent.value == old(Payload()) && !isLoading
      ensures sent.Some? && response.Ok? ==>
                error == "" && route == Some(OrderRoute(response.value))
      ensures sent.Some? && response.Ok? && cleared.Ok? ==>
                cart.cart == [] && cart.combos == [] && cart.cache == None
      ensures sent.Some? && (response.Err? || cleared.Err?) ==>
                cart.cart == old(cart.cart) && cart.combos == old(cart.combos) && cart.cache == old(cart.cache)
      ensures sent.Some? && response.Err? ==>
                error == CheckoutErrorMessage(response.error) && route == None
    {
      var data := Payload();
      var valid := ValidateForm();
      if !valid {
        return None, None;
      }
      isLoading := true;
      error := "";
      sent := Some(data);
      route := PlaceOrder(cart, response, cleared);
      isLoading := false;
    }

    /** The try/catch of handleCheckout once the payload is sent: a placed order clears the cart
        and yields its route; a rejected one shows the server's message and leaves the cart. */
    method PlaceOrder(cart: CartContext.CartState, response: Remote<OrderResponse>, cleared: Remote<()>)
      returns (route: Option<string>)
      modifies this`error, cart`cart, cart`combos, cart`cache
      ensures response.Ok? ==> error == old(error) && route == Some(OrderRoute(response.value))
      ensures response.Ok? && cleared.Ok? ==> cart.cart == [] && cart.combos == [] && cart.cache == None
      ensures response.Err? || cleared.Err? ==>
                cart.cart == old(cart.cart) && cart.combos == old(cart.combos) && cart.cache == old(cart.cache)
      ensures response.Err? ==> error == CheckoutErrorMessage(response.error) && route == None
    {
      match response {
        case Ok(order) =>
          cart.ClearCart(cleared);
          route := Some(OrderRoute(order));
        case Err(e) =>
          error := CheckoutErrorMessage(e);
          route := None;
      }
    }
  }

  /** A phone typed through the mask reaches the order as the first eleven digits typed. */
  lemma MaskedPhoneDigits(text: string)
    ensures Digits(PhoneMask.Mask(Digits(text))) ==
            Digits(text)[..PhoneMask.Min(|Digits(text)|, PhoneMask.MAX_DIGITS)]
  {
    DigitsOfDigits(Digits(text));
    PhoneMask.MaskDigits(Digits(text));
  }
}
