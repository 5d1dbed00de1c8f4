/**
 * The order side of checkout: the draft the product page leaves behind,
 * the payment mode, the record handed to the order-intake sink, and the
 * figures of the order-summary panel.
 */
module CheckoutOrder {
  import opened Text
  import opened CheckoutForm

  /** The pending order read from the `orderDetails` entry. Prices are whole rupees. */
  datatype OrderDetails = OrderDetails(
    product: string,
    size: string,
    quantity: int,
    price: int,
    originalPrice: int)

  /** The payment mode state; only cash on delivery can be kept. */
  datatype PaymentMode = Online | Cod

  /** The record sent to the sink and kept as the completed order. It has no original price. */
  datatype OrderData = OrderData(
    name: string,
    phone: string,
    email: string,
    address: string,
    city: string,
    state: string,
    pincode: string,
    product: string,
    size: string,
    quantity: int,
    price: int,
    paymentMode: PaymentMode,
    timestamp: string)

  /**
   * The payment mode once the effect that watches it has run: "online" is
   * replaced by cash on delivery, so whatever was set the mode settles on
   * cash on delivery, and a mode that is already cash on delivery is not
   * touched.
   */
  function SettledPaymentMode(m: PaymentMode): (r: PaymentMode)
    ensures r == Cod
    ensures m == Cod ==> r == m
  {
    if m.Online? then Cod else m
  }

  /** Running the payment-mode effect a second time changes nothing. */
  lemma SettledPaymentModeIdempotent(m: PaymentMode)
    ensures SettledPaymentMode(SettledPaymentMode(m)) == SettledPaymentMode(m)
  {
  }

  /** A string with no whitespace at either end. */
  predicate IsTrimmed(s: string) {
    Trim(s) == s
  }

  /**
   * The record built on submission from the form, the loaded draft, the
   * payment mode and a timestamp. A text field of the record is empty
   * exactly when the form's field was blank and is never longer than it;
   * the draft's product, size, quantity and sale price, the payment mode and
   * the timestamp are carried over, and the original price is not.
   */
  function BuildOrderData(f: ShippingForm, o: OrderDetails, mode: PaymentMode, timestamp: string): (r: OrderData)
    ensures (r.name == [] <==> IsBlank(f.name)) && (r.phone == [] <==> IsBlank(f.phone))
    ensures (r.email == [] <==> IsBlank(f.email)) && (r.address == [] <==> IsBlank(f.address))
    ensures (r.city == [] <==> IsBlank(f.city)) && (r.state == [] <==> IsBlank(f.state))
    ensures r.pincode == [] <==> IsBlank(f.pincode)
    ensures |r.name| <= |f.name| && |r.phone| <= |f.phone| && |r.email| <= |f.email|
    ensures |r.address| <= |f.address| && |r.city| <= |f.city| && |r.state| <= |f.state|
    ensures |r.pincode| <= |f.pincode|
    ensures r.product == o.product && r.size == o.size && r.quantity == o.quantity && r.price == o.price
    ensures r.paymentMode == mode && r.timestamp == timestamp
  {
    OrderData(
      Trim(f.name), Trim(f.phone), Trim(f.email), Trim(f.address),
      Trim(f.city), Trim(f.state), Trim(f.pincode),
      o.product, o.size, o.quantity, o.price,
      mode, timestamp)
  }

  /**
   * Each text field of the submitted record is the trimmed form field, and
   * so has no whitespace at either end: trimming it again changes nothing.
   */
  lemma SubmittedRecord(f: ShippingForm, o: OrderDetails, mode: PaymentMode, timestamp: string)
    ensures var r := BuildOrderData(f, o, mode, timestamp);
      && r.name == Trim(f.name) && r.phone == Trim(f.phone) && r.email == Trim(f.email)
      && r.address == Trim(f.address) && r.city == Trim(f.city) && r.state == Trim(f.state)
      && r.pincode == Trim(f.pincode)
      && IsTrimmed(r.name) && IsTrimmed(r.phone) && IsTrimmed(r.email) && IsTrimmed(r.address)
      && IsTrimmed(r.city) && IsTrimmed(r.state) && IsTrimmed(r.pincode)
  {
    TrimIdempotent(f.name);
    TrimIdempotent(f.phone);
    TrimIdempotent(f.email);
    TrimIdempotent(f.address);
    TrimIdempotent(f.city);
    TrimIdempotent(f.state);
    TrimIdempotent(f.pincode);
  }

  /** A form that passes validation yields a record whose required fields are all non-empty. */
  lemma ValidFormGivesCompleteRecord(f: ShippingForm, o: OrderDetails, mode: PaymentMode, timestamp: string)
    requires ValidateForm(f).None?
    ensures var r := BuildOrderData(f, o, mode, timestamp);
      r.name != [] && r.phone != [] && r.address != [] && r.city != [] && r.state != [] && r.pincode != []
  {
  }

  /** The shipping line of the summary, which always reads FREE. */
  datatype Shipping = Free

  /** The figures of the order-summary panel. */
  datatype OrderSummary = OrderSummary(subtotal: int, discount: int, shipping: Shipping, total: int)

  /**
   * The order summary: the subtotal is the original price, the total is the
   * sale price, and the discount is the difference, so subtotal minus
   * discount is the total. Nothing forces the original price to be at least
   * the sale price, so the discount is negative exactly when it is not.
   */
  function Summarize(o: OrderDetails): (s: OrderSummary)
    ensures s.subtotal == o.originalPrice && s.total == o.price
    ensures s.subtotal - s.discount == s.total
    ensures s.discount < 0 <==> o.originalPrice < o.price
    ensures s.shipping == Free
  {
    OrderSummary(o.originalPrice, o.originalPrice - o.price, Free, o.price)
  }

  /** The summary of an order of quantity 2 at a sale price of 499 against an original price of 999. */
  lemma SummaryExample()
    ensures var s := Summarize(OrderDetails("Vedsutra Detox Foot Patch", "M", 2, 499, 999));
      s.discount == 500 && s.total == 499 && s.subtotal == 999
  {
  }
}
