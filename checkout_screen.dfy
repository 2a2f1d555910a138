/** The three-step checkout of components/CheckoutScreen.tsx: address, payment, review. */
module CheckoutScreen {
  import opened Screens
  import opened CartLines
  import opened Pricing
  import CartContext
  import ScreenHistory
  import NavigationContext

  /** `type PaymentMethod = 'card' | 'apple' | 'cash'`. */
  datatype PaymentMethod = Card | Apple | Cash

  /** The two stepper buttons. */
  datatype StepButton = Continue | Back

  /** Continue is rendered while the step is below three (in its place at step three is
      Place Order); Back is rendered while the step is above one. */
  predicate Offered(step: int, b: StepButton)
  {
    match b
    case Continue => step < 3
    case Back => step > 1
  }

  /** A press of a rendered button: `setStep(step + 1)` or `setStep(step - 1)`; a button that is
      not rendered cannot be pressed, so the step stays. */
  function Press(step: int, b: StepButton): (next: int)
    ensures 1 <= step <= 3 ==> 1 <= next <= 3
    ensures Offered(step, b) <==> next != step
  {
    if !Offered(step, b) then step
    else match b
      case Continue => step + 1
      case Back => step - 1
  }

  /** The step after a sequence of presses. */
  function Presses(step: int, bs: seq<StepButton>): int
    decreases |bs|
  {
    if bs == [] then step else Presses(Press(step, bs[0]), bs[1..])
  }

  /** The number of Continue presses in a sequence. */
  function Continues(bs: seq<StepButton>): nat
  {
    if bs == [] then 0 else (if bs[0] == Continue then 1 else 0) + Continues(bs[1..])
  }

  /** From any step in 1..3, every sequence of presses stays in 1..3, and the step can rise by
      at most the number of Continue presses: reaching the review step from the address step
      takes at least two Continues. */
  lemma {:induction false} PressesStayInRange(step: int, bs: seq<StepButton>)
    requires 1 <= step <= 3
    ensures 1 <= Presses(step, bs) <= 3
    ensures Presses(step, bs) <= step + Continues(bs)
    decreases |bs|
  {
    if bs != [] {
      PressesStayInRange(Press(step, bs[0]), bs[1..]);
    }
  }

  /** The stepper's state and its handlers. */
  class Checkout {
    var step: int
    var paymentMethod: PaymentMethod

    ghost predicate Valid()
      reads this
    {
      1 <= step <= 3
    }

    /** Starts at the address step with card payment. */
    constructor ()
      ensures Valid() && step == 1 && paymentMethod == Card
    {
      step := 1;
      paymentMethod := Card;
    }

    method PressButton(b: StepButton)
      requires Valid() && Offered(step, b)
      modifies this
      ensures Valid() && step == Press(old(step), b) && paymentMethod == old(paymentMethod)
      ensures b == Continue ==> step == old(step) + 1
      ensures b == Back ==> step == old(step) - 1
    {
      match b
      case Continue => step := step + 1;
      case Back => step := step - 1;
    }

    method SetPaymentMethod(m: PaymentMethod)
      requires Valid()
      modifies this
      ensures Valid() && paymentMethod == m && step == old(step)
    {
      paymentMethod := m;
    }

    /** `handlePlaceOrder`: offered only at the review step; empties the live cart, then
        navigates to the confirmation screen. */
    method PlaceOrder(cart: CartContext.CartProvider, nav: NavigationContext.NavigationProvider)
      requires Valid() && step == 3
      modifies cart, nav
      ensures cart.Valid() && cart.cartItems == [] && Total(cart.cartItems) == 0.0
      ensures nav.Nav() == ScreenHistory.Navigate(old(nav.Nav()), Confirmation)
      ensures nav.cartItems == old(nav.cartItems)
    {
      cart.ClearCart();
      nav.Navigate(Confirmation);
    }

    /** The figures of the review step, from `getCartTotal()`. */
    method Totals(cart: CartContext.CartProvider) returns (s: Summary)
      ensures s == Summarize(Total(cart.cartItems))
      ensures s.tax * 10.0 == Total(cart.cartItems)
    {
      var cartTotal := cart.GetCartTotal();
      s := Summarize(cartTotal);
      SummaryFacts(cartTotal, cartTotal);
    }
  }
}
