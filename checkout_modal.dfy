/**
 * The checkout form: a draft of the order details, a success flag, and the
 * two steps of a submission: submit shows the success view, and the timer
 * step that follows hands the draft to the confirmation callback.
 */
module Checkout {
  import opened Types
  import opened CartEngine
  import CartDrawer

  /** The form's own left fold of `(price + (selectedOption?.price || 0)) * quantity` over the lines. */
  function TotalFrom(sum: int, cart: Cart): int
    decreases |cart|
  {
    if cart == [] then sum
    else TotalFrom(sum + (cart[0].item.price + cart[0].OptionPrice()) * cart[0].quantity, cart[1..])
  }

  lemma {:induction false} TotalFromIsDrawerFold(sum: int, cart: Cart)
    ensures TotalFrom(sum, cart) == CartDrawer.SubtotalFrom(sum, cart)
    decreases |cart|
  {
    if cart != [] {
      TotalFromIsDrawerFold(sum + CartDrawer.LineTotal(cart[0]), cart[1..]);
    }
  }

  /** The amount on the pay button: for the same cart it equals the drawer's subtotal. */
  function Total(cart: Cart): (t: int)
    ensures t == CartDrawer.Subtotal(cart)
    ensures cart == [] ==> t == 0
  {
    TotalFromIsDrawerFold(0, cart);
    TotalFrom(0, cart)
  }

  /** The draft a fresh form starts from: empty name, phone and address, paying cash. */
  const InitialDetails := OrderDetails("", "", "", Cash)

  /** What the `required` name, phone and address inputs demand before the form submits. */
  predicate Submittable(d: OrderDetails): (b: bool)
    ensures b ==> d != InitialDetails
  {
    d.customerName != "" && d.phone != "" && d.address != ""
  }

  /** The payment radios carry no `required`: the choice of payment never blocks a submission. */
  lemma PaymentMethodIsNotRequired(d: OrderDetails, m: PaymentMethod)
    ensures Submittable(d) <==> Submittable(d.(paymentMethod := m))
  {
  }

  /**
   * The state of the checkout form. `isSuccess` is the success view; the
   * form's inputs are drawn only while it is false.
   */
  class CheckoutModal {
    var details: OrderDetails
    var isSuccess: bool

    constructor ()
      ensures details == InitialDetails && !isSuccess
    {
      details := InitialDetails;
      isSuccess := false;
    }

    method SetCustomerName(value: string)
      requires !isSuccess
      modifies this
      ensures details == old(details).(customerName := value) && isSuccess == old(isSuccess)
    {
      details := details.(customerName := value);
    }

    method SetPhone(value: string)
      requires !isSuccess
      modifies this
      ensures details == old(details).(phone := value) && isSuccess == old(isSuccess)
    {
      details := details.(phone := value);
    }

    method SetAddress(value: string)
      requires !isSuccess
      modifies this
      ensures details == old(details).(address := value) && isSuccess == old(isSuccess)
    {
      details := details.(address := value);
    }

    /** The cash button. */
    method ChooseCash()
      requires !isSuccess
      modifies this
      ensures details == old(details).(paymentMethod := Cash) && isSuccess == old(isSuccess)
    {
      details := details.(paymentMethod := Cash);
    }

    /** The card button. */
    method ChooseCard()
      requires !isSuccess
      modifies this
      ensures details == old(details).(paymentMethod := Card) && isSuccess == old(isSuccess)
    {
      details := details.(paymentMethod := Card);
    }

    /** `handleSubmit`: the success view is shown and the draft is kept for the timer. */
    method Submit()
      requires !isSuccess
      requires Submittable(details)
      modifies this
      ensures isSuccess && details == old(details)
    {
      isSuccess := true;
    }

    /**
     * The timer callback: `confirmed` is what `onConfirm` receives, the draft
     * as it was submitted; the success view ends and the draft is not reset.
     */
    method TimerFires() returns (confirmed: OrderDetails)
      requires isSuccess
      modifies this
      ensures confirmed == old(details) && details == old(details) && !isSuccess
    {
      confirmed := details;
      isSuccess := false;
    }
  }
}
