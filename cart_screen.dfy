/**
 * The cart screen (app/cart.tsx): the checkout guard in front of
 * `processPayment`, the quantity buttons of each line and the duration label.
 */
module CartScreen {
  import opened Common
  import opened Text
  import opened Salon
  import opened Cart
  import ServiceManagement

  const EmptyCartMessage := "A kosár üres!"
  const MissingNameMessage := "Kérjük, adja meg a vásárló nevét!"

  /** The checks of `handlePayment`, in order: an empty cart first, then a blank customer name. */
  function CheckoutError(items: seq<CartItem>, customer: Customer): Option<string> {
    if |items| == 0 then Some(EmptyCartMessage)
    else if IsBlank(customer.name) then Some(MissingNameMessage)
    else None
  }

  /**
   * Checkout goes ahead exactly when the cart has a line and the name is not
   * blank; an empty cart is reported as such whatever the name.
   */
  lemma CheckoutErrorMeaning(items: seq<CartItem>, customer: Customer)
    ensures CheckoutError(items, customer).None? <==> items != [] && !IsBlank(customer.name)
    ensures items == [] ==> CheckoutError(items, customer) == Some(EmptyCartMessage)
    ensures items != [] && IsBlank(customer.name) ==> CheckoutError(items, customer) == Some(MissingNameMessage)
  {
  }

  /** A name made only of white space is refused like an empty one. */
  lemma SpacesAreNoName(items: seq<CartItem>, customer: Customer)
    requires items != [] && forall i :: 0 <= i < |customer.name| ==> IsSpace(customer.name[i])
    ensures CheckoutError(items, customer) == Some(MissingNameMessage)
  {
    BlankIsAllSpace(customer.name);
  }

  /** `user?.id` and `user?.name`, as `processPayment` receives them. */
  function EmployeeId(user: Option<User>): Option<string> {
    if user.Some? then Some(user.value.id) else None
  }

  function EmployeeName(user: Option<User>): Option<string> {
    if user.Some? then Some(user.value.name) else None
  }

  /** The minus button at quantity 1 removes the line, keeps the others in order and lowers the total by one unit's price. */
  lemma MinusAtOneRemoves(items: seq<CartItem>, k: nat)
    requires WellFormed(items) && k < |items| && items[k].quantity == 1
    ensures WithQuantity(items, items[k].service.id, items[k].quantity - 1) == items[..k] + items[k + 1..]
    ensures Total(WithQuantity(items, items[k].service.id, items[k].quantity - 1)) == Total(items) - items[k].service.price
  {
    RemoveAt(items, items[k].service.id, k);
    RemoveTotals(items, items[k].service.id, k);
  }

  /** Above quantity 1 the minus button takes one unit off that line only, and one price off the total. */
  lemma MinusTakesOneUnit(items: seq<CartItem>, k: nat)
    requires WellFormed(items) && k < |items| && items[k].quantity > 1
    ensures var id, q := items[k].service.id, items[k].quantity;
            WithQuantity(items, id, q - 1) == items[k := items[k].(quantity := q - 1)]
            && Total(WithQuantity(items, id, q - 1)) == Total(items) - items[k].service.price
  {
    var id, q := items[k].service.id, items[k].quantity;
    var line := items[k].(quantity := q - 1);
    UpdateQuantityAt(items, id, q - 1, k, line);
    UpdateQuantityTotals(items, id, q - 1, k);
    OneMoreUnit(line, items[k]);
  }

  /** The plus button adds one unit to that line only, and one price to the total. */
  lemma PlusAddsOneUnit(items: seq<CartItem>, k: nat)
    requires WellFormed(items) && k < |items|
    ensures var id, q := items[k].service.id, items[k].quantity;
            WithQuantity(items, id, q + 1) == items[k := items[k].(quantity := q + 1)]
            && Total(WithQuantity(items, id, q + 1)) == Total(items) + items[k].service.price
  {
    var id, q := items[k].service.id, items[k].quantity;
    assert q >= 1;
    var line := items[k].(quantity := q + 1);
    UpdateQuantityAt(items, id, q + 1, k, line);
    UpdateQuantityTotals(items, id, q + 1, k);
    OneMoreUnit(items[k], line);
  }

  /**
   * `formatDuration` of this screen: with `h = floor(d / 60)` and the
   * JavaScript remainder `m`, "{h}ó {m}p" when `h > 0`, otherwise "{m} perc".
   */
  function FormatDuration(d: int): string {
    var hours := d / 60;
    var minutes := JsRemainder(d, 60);
    if hours > 0 then IntToString(hours) + "ó " + IntToString(minutes) + "p"
    else IntToString(minutes) + " perc"
  }

  /** From an hour on the label shows whole hours and the minutes left over; below an hour (and not negative), the minutes. */
  lemma FormatDurationSplits(d: int)
    ensures d >= 60 ==> exists h, m :: 0 <= m < 60 && h >= 1 && d == 60 * h + m
                                      && FormatDuration(d) == IntToString(h) + "ó " + IntToString(m) + "p"
    ensures 0 <= d < 60 ==> FormatDuration(d) == IntToString(d) + " perc"
  {
    if d >= 60 {
      var h, m := d / 60, d % 60;
      assert FormatDuration(d) == IntToString(h) + "ó " + IntToString(m) + "p";
    }
  }

  /**
   * The cart's label and the service screen's label differ only in the
   * under-an-hour case, which prints the remainder here and the whole
   * duration there; the two agree on every duration above -60 minutes.
   */
  lemma FormattersAgree(d: int)
    requires d > -60
    ensures FormatDuration(d) == ServiceManagement.FormatDuration(d)
  {
    if d < 60 {
      assert d / 60 <= 0;
      if d >= 0 {
        assert d % 60 == d;
      } else {
        assert (-d) % 60 == -d;
      }
      assert JsRemainder(d, 60) == d;
    }
  }

  /**
   * The screen's state: the chosen payment method and the error line;
   * `cart` is the cart hook it renders.
   */
  class CartScreen {
    const cart: CartStore
    var paymentMethod: PaymentMethod
    var errorMessage: string

    constructor (cart: CartStore)
      ensures this.cart == cart && paymentMethod == Cash && errorMessage == ""
    {
      this.cart := cart;
      paymentMethod, errorMessage := Cash, "";
    }

    method SelectPaymentMethod(m: PaymentMethod)
      modifies this`paymentMethod
      ensures paymentMethod == m
    {
      paymentMethod := m;
    }

    /**
     * `handlePayment`: the error line is cleared, then the checks run in
     * order; only when both pass is the payment recorded (with the signed-in
     * user as employee) and the cart cleared.
     */
    method HandlePayment(user: Option<User>, now: nat) returns (payment: Option<Payment>)
      requires cart.Valid()
      modifies this`errorMessage, cart
      ensures cart.Valid()
      ensures var e := CheckoutError(old(cart.items), old(cart.customer));
              errorMessage == (if e.Some? then e.value else "") && (payment.None? <==> e.Some?)
      ensures payment.Some? ==>
                payment.value == NewPayment(old(cart.customer), old(cart.items), paymentMethod,
                                            EmployeeId(user), EmployeeName(user), now)
                && cart.payments == old(cart.payments) + [payment.value]
                && cart.items == [] && cart.customer == EmptyCustomer
      ensures payment.None? ==>
                cart.items == old(cart.items) && cart.customer == old(cart.customer) && cart.payments == old(cart.payments)
    {
      errorMessage := "";
      var e := CheckoutError(cart.items, cart.customer);
      if e.Some? {
        errorMessage := e.value;
        return None;
      }
      var p := cart.ProcessPayment(paymentMethod, EmployeeId(user), EmployeeName(user), now);
      payment := Some(p);
    }

    /** The minus button of a line: `updateQuantity(id, quantity - 1)`. */
    method PressMinus(item: CartItem)
      requires cart.Valid()
      modifies cart
      ensures cart.Valid() && cart.items == WithQuantity(old(cart.items), item.service.id, item.quantity - 1)
      ensures cart.customer == old(cart.customer) && cart.payments == old(cart.payments)
    {
      cart.UpdateQuantity(item.service.id, item.quantity - 1);
    }

    /** The plus button of a line: `updateQuantity(id, quantity + 1)`. */
    method PressPlus(item: CartItem)
      requires cart.Valid()
      modifies cart
      ensures cart.Valid() && cart.items == WithQuantity(old(cart.items), item.service.id, item.quantity + 1)
      ensures cart.customer == old(cart.customer) && cart.payments == old(cart.payments)
    {
      cart.UpdateQuantity(item.service.id, item.quantity + 1);
    }

    /** The bin button of a line: `removeFromCart(id)`. */
    method PressRemove(item: CartItem)
      requires cart.Valid()
      modifies cart
      ensures cart.Valid() && cart.items == Without(old(cart.items), item.service.id)
      ensures cart.customer == old(cart.customer) && cart.payments == old(cart.payments)
    {
      cart.RemoveFromCart(item.service.id);
    }

    /** The customer fields: each input replaces one field of the customer and keeps the others. */
    method EditCustomerName(name: string)
      requires cart.Valid()
      modifies cart
      ensures cart.Valid() && cart.customer == old(cart.customer).(name := name)
      ensures cart.items == old(cart.items) && cart.payments == old(cart.payments)
    {
      cart.SetCustomer(cart.customer.(name := name));
    }

    method EditCustomerPhone(phone: string)
      requires cart.Valid()
      modifies cart
      ensures cart.Valid() && cart.customer == old(cart.customer).(phone := Some(phone))
      ensures cart.items == old(cart.items) && cart.payments == old(cart.payments)
    {
      cart.SetCustomer(cart.customer.(phone := Some(phone)));
    }

    method EditCustomerEmail(email: string)
      requires cart.Valid()
      modifies cart
      ensures cart.Valid() && cart.customer == old(cart.customer).(email := Some(email))
      ensures cart.items == old(cart.items) && cart.payments == old(cart.payments)
    {
      cart.SetCustomer(cart.customer.(email := Some(email)));
    }
  }
}
