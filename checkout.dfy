/** The checkout page (src/pages/Checkout.tsx): the order summary it shows,
    the address and payment choice, the redirect on an empty selection and
    the order it places. */
module Checkout {
  import opened Types
  import opened Cart
  import Seqs

  /** The four amounts of the summary box. */
  datatype OrderSummary = OrderSummary(subtotal: real, tax: real, shipping: real, total: real)

  /** The page's own computation of the summary from the cart's lines. */
  function Summary(items: seq<CartItem>): OrderSummary {
    var subtotal := SumAmounts(Seqs.Filter(items, IsSelected));
    var tax := subtotal * 0.08;
    var shipping := if subtotal > 50.0 then 0.0 else 9.99;
    OrderSummary(subtotal, tax, shipping, subtotal + tax + shipping)
  }

  /** The address and payment method chosen on the page. */
  datatype Choice = Choice(address: Address, payment: PaymentMethod)

  /** The choice starts at the first address and the first payment method. */
  function InitialChoice(addresses: seq<Address>, payments: seq<PaymentMethod>): (c: Choice)
    requires |addresses| > 0 && |payments| > 0
    ensures c.address == addresses[0] && c.payment == payments[0]
  {
    Choice(addresses[0], payments[0])
  }

  /** Clicking an address card. */
  function ChooseAddress(c: Choice, a: Address): (r: Choice)
    ensures r.address == a && r.payment == c.payment
  {
    c.(address := a)
  }

  /** Clicking a payment card. */
  function ChoosePayment(c: Choice, p: PaymentMethod): (r: Choice)
    ensures r.payment == p && r.address == c.address
  {
    c.(payment := p)
  }

  datatype Outcome = RedirectToCart | Placed(order: Order)

  /** The page with the given cart: with no selected line it redirects to the
      cart before any order can be placed; otherwise "Place Order" calls
      `createOrder` with the current choice. The cart itself is not an output:
      placing an order leaves the cart state as it was. */
  function PlaceOrder(s: CartState, c: Choice, now: Timestamp): (r: Outcome) {
    if |Seqs.Filter(s.items, IsSelected)| == 0 then RedirectToCart
    else Placed(CreateOrder(s, c.address, c.payment, now))
  }

  /** The summary shown is the order placed: same subtotal, tax, shipping and
      total, for the same cart. */
  lemma SummaryMatchesOrder(s: CartState, c: Choice, now: Timestamp)
    requires PlaceOrder(s, c, now).Placed?
    ensures var o := PlaceOrder(s, c, now).order;
      var m := Summary(s.items);
      o.subtotal == m.subtotal && o.tax == m.tax && o.shipping == m.shipping && o.total == m.total
  {
  }

  /** The shipping rule of the summary: free strictly above 50, else 9.99. */
  lemma SummaryShipping(items: seq<CartItem>)
    ensures Summary(items).shipping == 0.0 <==> Summary(items).subtotal > 50.0
    ensures Summary(items).shipping == 0.0 || Summary(items).shipping == 9.99
    ensures Summary(items).subtotal == SelectedValue(items)
    ensures Summary(items).total == Summary(items).subtotal * 1.08 + Summary(items).shipping
  {
    CalculateTotalIsSelectedValue(items);
  }

  /** The redirect happens exactly when no line is selected, and a placed order
      carries the chosen address and payment and at least one line. */
  lemma PlaceOrderSpec(s: CartState, c: Choice, now: Timestamp)
    ensures PlaceOrder(s, c, now).RedirectToCart? <==>
      forall i :: 0 <= i < |s.items| ==> !s.items[i].selected
    ensures PlaceOrder(s, c, now).Placed? ==>
      var o := PlaceOrder(s, c, now).order;
      && o.address == c.address && o.paymentMethod == c.payment
      && |o.items| > 0 && o.status == Pending
  {
    var sel := Seqs.Filter(s.items, IsSelected);
    if sel != [] {
      Seqs.FilterMembership(s.items, IsSelected, sel[0]);
    }
    if exists i :: 0 <= i < |s.items| && s.items[i].selected {
      var i :| 0 <= i < |s.items| && s.items[i].selected;
      Seqs.FilterMembership(s.items, IsSelected, s.items[i]);
    }
  }

  /** With the initial choice, the order goes to the first address and is
      paid by the first payment method. */
  lemma DefaultChoiceIsUsed(s: CartState, addresses: seq<Address>, payments: seq<PaymentMethod>, now: Timestamp)
    requires |addresses| > 0 && |payments| > 0
    requires PlaceOrder(s, InitialChoice(addresses, payments), now).Placed?
    ensures PlaceOrder(s, InitialChoice(addresses, payments), now).order.address == addresses[0]
    ensures PlaceOrder(s, InitialChoice(addresses, payments), now).order.paymentMethod == payments[0]
  {
  }
}
