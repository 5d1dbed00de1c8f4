/**
 * The checkout page as a state machine: its state (form, loaded order,
 * payment mode, submitting flag), the browser's local storage seen as a map
 * from keys to records, and the routes it navigated to. The mount effect
 * loads the draft or sends the buyer home; submission validates, hands a
 * record to the order-intake sink and, when the sink accepts it, files the
 * completed order, drops the draft and moves on to the thank-you page.
 */
module CheckoutPage {
  import opened Wrappers
  import opened Text
  import opened CheckoutForm
  import opened CheckoutOrder

  /** A record held in local storage. */
  datatype StoredValue = DraftRecord(details: OrderDetails) | CompletedRecord(data: OrderData)

  type Store = map<string, StoredValue>

  const DraftKey: string := "orderDetails"
  const CompletedKey: string := "completedOrder"

  const HomeRoute: string := "/"
  const ThankYouRoute: string := "/thank-you"

  const PlaceOrderLabel: string := "Place Order"
  const PlacingOrderLabel: string := "Placing Order..."

  /** What the page draws, reduced to its data: the summary figures and the place-order button. */
  datatype View = View(summary: OrderSummary, submitDisabled: bool, submitLabel: string)

  /** A destructive notification shown to the buyer. */
  datatype Toast = Toast(title: string, description: string)

  const MissingInformationTitle: string := "Missing Information"
  const ErrorTitle: string := "Error"
  const SubmitFailureMessage: string := "Something went wrong. Please try again."

  /** The draft entry, when there is one, holds a draft: the page reads it as one. */
  predicate WellShaped(store: Store) {
    DraftKey in store ==> store[DraftKey].DraftRecord?
  }

  /**
   * The store after a successful submission: the completed-order entry holds
   * the record, the draft entry is gone, and every other entry is as it was.
   */
  function CommitOrder(store: Store, record: OrderData): (r: Store)
    ensures CompletedKey in r && r[CompletedKey] == CompletedRecord(record)
    ensures DraftKey !in r
    ensures forall k | k != DraftKey && k != CompletedKey :: (k in r <==> k in store)
    ensures forall k | k in r && k != CompletedKey :: r[k] == store[k]
    ensures WellShaped(r)
  {
    store[CompletedKey := CompletedRecord(record)] - {DraftKey}
  }

  class Checkout {
    var form: ShippingForm
    var order: Option<OrderDetails>
    var paymentMode: PaymentMode
    var isSubmitting: bool
    var store: Store
    /** The routes navigated to, oldest first. */
    var navigations: seq<string>

    ghost predicate Valid()
      reads this
    {
      WellShaped(store)
    }

    /** The state of a freshly created page, before its mount effect has run. */
    constructor (initialStore: Store)
      requires WellShaped(initialStore)
      ensures Valid()
      ensures form == EmptyForm && order == None && paymentMode == Cod && !isSubmitting
      ensures store == initialStore && navigations == []
    {
      form := EmptyForm;
      order := None;
      paymentMode := Cod;
      isSubmitting := false;
      store := initialStore;
      navigations := [];
    }

    /**
     * What the page renders: nothing until an order is loaded; then the
     * summary of that order, and a place-order button that is disabled and
     * reads "Placing Order..." exactly while a submission is in flight.
     */
    function Render(): (view: Option<View>)
      reads this
      ensures view.None? <==> order.None?
      ensures view.Some? ==>
        && view.value.summary.total == order.value.price
        && view.value.summary.subtotal == order.value.originalPrice
        && view.value.summary.subtotal - view.value.summary.discount == view.value.summary.total
        && view.value.summary.shipping == Free
        && (view.value.submitDisabled <==> isSubmitting)
        && view.value.submitLabel == (if isSubmitting then PlacingOrderLabel else PlaceOrderLabel)
    {
      match order
      case None => None
      case Some(o) =>
        Some(View(Summarize(o), isSubmitting, if isSubmitting then PlacingOrderLabel else PlaceOrderLabel))
    }

    /** The mount effect: load the stored draft, or navigate home when there is none. */
    method Mount()
      requires Valid()
      modifies this`order, this`navigations
      ensures Valid()
      ensures DraftKey in store ==>
        order == Some(store[DraftKey].details) && navigations == old(navigations)
      ensures DraftKey !in store ==>
        order == old(order) && navigations == old(navigations) + [HomeRoute]
    {
      if DraftKey in store {
        order := Some(store[DraftKey].details);
      } else {
        navigations := navigations + [HomeRoute];
      }
    }

    /** A change event from one of the inputs, or a choice in the state selector. */
    method HandleChange(field: Field, value: string)
      requires Valid()
      modifies this`form
      ensures Valid()
      ensures form == WithField(old(form), field, value)
    {
      form := WithField(form, field, value);
    }

    /** The effect that watches the payment mode. */
    method PaymentModeEffect()
      requires Valid()
      modifies this`paymentMode
      ensures Valid()
      ensures paymentMode == SettledPaymentMode(old(paymentMode))
    {
      if paymentMode == Online {
        paymentMode := Cod;
      }
    }

    /** Setting the payment mode, followed by the effect that reacts to it. */
    method ChoosePaymentMode(mode: PaymentMode)
      requires Valid()
      modifies this`paymentMode
      ensures Valid()
      ensures paymentMode == Cod
    {
      paymentMode := mode;
      PaymentModeEffect();
    }

    /**
     * The part of the submit handler that runs before the sink is awaited.
     * A failing validation shows its message and stops; so does a missing
     * order, silently. Otherwise the page starts submitting and returns the
     * record to hand to the sink. Nothing but the submitting flag changes.
     */
    method BeginSubmit(timestamp: string) returns (toast: Option<Toast>, pending: Option<OrderData>)
      requires Valid()
      modifies this`isSubmitting
      ensures Valid()
      ensures ValidateForm(form).Some? ==>
        && toast == Some(Toast(MissingInformationTitle, ValidateForm(form).value))
        && pending == None && isSubmitting == old(isSubmitting)
      ensures ValidateForm(form).None? && order.None? ==>
        toast == None && pending == None && isSubmitting == old(isSubmitting)
      ensures ValidateForm(form).None? && order.Some? ==>
        && toast == None && isSubmitting
        && pending == Some(BuildOrderData(form, order.value, paymentMode, timestamp))
    {
      var error := ValidateForm(form);
      if error.Some? {
        return Some(Toast(MissingInformationTitle, error.value)), None;
      }
      if order.None? {
        return None, None;
      }
      isSubmitting := true;
      pending := Some(BuildOrderData(form, order.value, paymentMode, timestamp));
      toast := None;
    }

    /**
     * The part of the submit handler that runs once the sink has answered.
     * On success the record becomes the completed order, the draft is
     * removed and the page moves to the thank-you route; on failure an error
     * is shown and storage and navigation are left alone. Either way the
     * page stops submitting.
     */
    method FinishSubmit(record: OrderData, sinkSucceeded: bool) returns (toast: Option<Toast>)
      requires Valid()
      modifies this`isSubmitting, this`store, this`navigations
      ensures Valid() && !isSubmitting
      ensures sinkSucceeded ==>
        && toast == None
        && store == CommitOrder(old(store), record)
        && navigations == old(navigations) + [ThankYouRoute]
      ensures !sinkSucceeded ==>
        && toast == Some(Toast(ErrorTitle, SubmitFailureMessage))
        && store == old(store) && navigations == old(navigations)
    {
      if sinkSucceeded {
        store := store[CompletedKey := CompletedRecord(record)];
        store := store - {DraftKey};
        navigations := navigations + [ThankYouRoute];
        toast := None;
      } else {
        toast := Some(Toast(ErrorTitle, SubmitFailureMessage));
      }
      isSubmitting := false;
    }

    /**
     * A press of the place-order button (or an Enter in the form). While a
     * submission is in flight the button is disabled and the press does
     * nothing; otherwise it starts the submit handler.
     */
    method PressPlaceOrder(timestamp: string) returns (toast: Option<Toast>, pending: Option<OrderData>)
      requires Valid()
      modifies this`isSubmitting
      ensures Valid()
      ensures old(isSubmitting) ==> toast == None && pending == None && isSubmitting
      ensures !old(isSubmitting) && ValidateForm(form).Some? ==>
        && toast == Some(Toast(MissingInformationTitle, ValidateForm(form).value))
        && pending == None && !isSubmitting
      ensures !old(isSubmitting) && ValidateForm(form).None? && order.None? ==>
        toast == None && pending == None && !isSubmitting
      ensures !old(isSubmitting) && ValidateForm(form).None? && order.Some? ==>
        && toast == None && isSubmitting
        && pending == Some(BuildOrderData(form, order.value, paymentMode, timestamp))
    {
      if isSubmitting {
        return None, None;
      }
      toast, pending := BeginSubmit(timestamp);
    }

    /**
     * The whole submit handler, with the sink's answer given as a parameter.
     * `sent` is the record handed to the sink, if it was called at all. The
     * form, the order and the payment mode never change.
     */
    method HandleSubmit(timestamp: string, sinkSucceeded: bool) returns (toast: Option<Toast>, sent: Option<OrderData>)
      requires Valid()
      modifies this`isSubmitting, this`store, this`navigations
      ensures Valid()
      ensures ValidateForm(form).Some? ==>
        && toast == Some(Toast(MissingInformationTitle, ValidateForm(form).value))
        && sent == None
        && isSubmitting == old(isSubmitting) && store == old(store) && navigations == old(navigations)
      ensures ValidateForm(form).None? && order.None? ==>
        && toast == None && sent == None
        && isSubmitting == old(isSubmitting) && store == old(store) && navigations == old(navigations)
      ensures ValidateForm(form).None? && order.Some? ==>
        && sent == Some(BuildOrderData(form, order.value, paymentMode, timestamp))
        && !isSubmitting
      ensures ValidateForm(form).None? && order.Some? && sinkSucceeded ==>
        && toast == None
        && store == CommitOrder(old(store), sent.value)
        && navigations == old(navigations) + [ThankYouRoute]
      ensures ValidateForm(form).None? && order.Some? && !sinkSucceeded ==>
        && toast == Some(Toast(ErrorTitle, SubmitFailureMessage))
        && store == old(store) && navigations == old(navigations)
    {
      toast, sent := BeginSubmit(timestamp);
      if sent.Some? {
        var record := sent.value;
        toast := FinishSubmit(record, sinkSucceeded);
      }
    }
  }

  /**
   * Opening the checkout page: create it and run its mount effect. With a
   * draft stored the page shows it and stays put; without one it renders
   * nothing and navigates home exactly once.
   */
  method OpenCheckout(initialStore: Store) returns (page: Checkout)
    requires WellShaped(initialStore)
    ensures fresh(page)
    ensures page.Valid() && page.store == initialStore && page.form == EmptyForm
    ensures !page.isSubmitting && page.paymentMode == Cod
    ensures DraftKey in initialStore ==>
      page.Render().Some? && page.order == Some(initialStore[DraftKey].details) && page.navigations == []
    ensures DraftKey !in initialStore ==>
      page.Render() == None && page.navigations == [HomeRoute]
  {
    page := new Checkout(initialStore);
    page.Mount();
  }
}
