/** The order summary both the cart screen and the checkout screen compute from the cart total
    (components/CartScreen.tsx and components/CheckoutScreen.tsx): a fixed delivery fee plus a
    ten per cent tax on the subtotal. */
module Pricing {

  /** `deliveryFee = 2.99`. */
  const DeliveryFee: real := 2.99

  /** The four figures of the summary. */
  datatype Summary = Summary(subtotal: real, deliveryFee: real, tax: real, total: real)

  /** `tax = subtotal * 0.1; total = subtotal + deliveryFee + tax`. */
  function Summarize(subtotal: real): (s: Summary)
    ensures s.subtotal == subtotal && s.deliveryFee == DeliveryFee
    ensures s.tax * 10.0 == subtotal
    ensures s.total == s.subtotal + s.deliveryFee + s.tax
  {
    Summary(subtotal, DeliveryFee, subtotal * 0.1, subtotal + DeliveryFee + subtotal * 0.1)
  }

  /** The total is the subtotal grown by a tenth plus the fee: it never falls below the fee for a
      non-negative subtotal, an empty cart costs exactly the fee, and a larger subtotal never
      gives a smaller total. */
  lemma SummaryFacts(a: real, b: real)
    ensures Summarize(a).total == a * 1.1 + DeliveryFee
    ensures Summarize(a).tax * 10.0 == a
    ensures a >= 0.0 ==> Summarize(a).total >= DeliveryFee && Summarize(a).tax <= a
    ensures Summarize(0.0).total == DeliveryFee
    ensures a <= b ==> Summarize(a).total <= Summarize(b).total
  {
  }
}
