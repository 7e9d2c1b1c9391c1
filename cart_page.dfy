/** The cart page (src/pages/Cart.tsx): its order summary, recomputed from the
    cart's lines, the quantity buttons and the checkout gate. */
module CartPage {
  import opened Types
  import opened Cart
  import Seqs

  /** `totalAmount`: price × quantity over the selected lines. */
  function TotalAmount(items: seq<CartItem>): real {
    SumAmounts(SelectedItems(items))
  }

  /** `totalItems`: units on the selected lines only. */
  function TotalItems(items: seq<CartItem>): int {
    SumQuantities(SelectedItems(items))
  }

  /** The tax line of the summary: 8% of the amount. */
  function DisplayedTax(items: seq<CartItem>): real {
    TotalAmount(items) * 0.08
  }

  /** The summary's total; the shipping line always reads "Free". */
  function DisplayedTotal(items: seq<CartItem>): real {
    TotalAmount(items) + TotalAmount(items) * 0.08
  }

  /** "Proceed to Checkout" is enabled and navigates only with a selected line. */
  predicate CanProceedToCheckout(items: seq<CartItem>) {
    |SelectedItems(items)| > 0
  }

  datatype CartView =
    | EmptyCartView
    | SummaryView(totalItems: int, totalAmount: real, tax: real, total: real, checkoutEnabled: bool)

  /** What the page renders for a cart state. */
  function View(s: CartState): (v: CartView)
    ensures v.EmptyCartView? <==> s.items == []
  {
    if |s.items| == 0 then EmptyCartView
    else SummaryView(TotalItems(s.items), TotalAmount(s.items), DisplayedTax(s.items),
                     DisplayedTotal(s.items), CanProceedToCheckout(s.items))
  }

  /** The "−" button of line k. */
  function MinusClicked(s: CartState, k: int): CartState
    requires 0 <= k < |s.items|
  {
    Reduce(s, UpdateQuantity(s.items[k].product.id, s.items[k].quantity - 1))
  }

  /** The "+" button of line k. */
  function PlusClicked(s: CartState, k: int): CartState
    requires 0 <= k < |s.items|
  {
    Reduce(s, UpdateQuantity(s.items[k].product.id, s.items[k].quantity + 1))
  }

  /** Reference definition: the units on selected lines, an unselected line counting zero. */
  function SelectedUnits(items: seq<CartItem>): int {
    if items == [] then 0
    else (if items[0].selected then items[0].quantity else 0) + SelectedUnits(items[1..])
  }

  lemma {:induction false} TotalItemsIsSelectedUnits(items: seq<CartItem>)
    ensures TotalItems(items) == SelectedUnits(items)
  {
    if items != [] {
      TotalItemsIsSelectedUnits(items[1..]);
      var rest := SelectedItems(items[1..]);
      if items[0].selected {
        assert SelectedItems(items) == [items[0]] + rest;
        assert ([items[0]] + rest)[1..] == rest;
      } else {
        assert SelectedItems(items) == rest;
      }
    }
  }

  /** The page's amount is the cart's cached total. */
  lemma TotalAmountIsCartTotal(s: CartState)
    requires Consistent(s)
    ensures TotalAmount(s.items) == s.total
  {
    CalculateTotalIsSelectedValue(s.items);
  }

  /** The page's total leaves out the shipping that the order charges: equal
      above 50, short by the 9.99 fee at or below it. */
  lemma DisplayedTotalOmitsShipping(s: CartState, address: Address, pm: PaymentMethod, now: Timestamp)
    ensures var o := CreateOrder(s, address, pm, now);
      && o.total == DisplayedTotal(s.items) + o.shipping
      && (TotalAmount(s.items) <= 50.0 ==> o.total == DisplayedTotal(s.items) + 9.99)
      && (TotalAmount(s.items) > 50.0 ==> o.total == DisplayedTotal(s.items))
  {
  }

  /** "−" on a line of quantity 1 removes that line and keeps the others in order. */
  lemma MinusOnOneRemovesLine(s: CartState, k: int)
    requires ValidItems(s.items)
    requires 0 <= k < |s.items| && s.items[k].quantity == 1
    ensures MinusClicked(s, k).items == RemoveLine(s.items, s.items[k].product.id)
    ensures !HasProduct(MinusClicked(s, k).items, s.items[k].product.id)
    ensures |MinusClicked(s, k).items| == |s.items| - 1
  {
    var id := s.items[k].product.id;
    UpdateToZeroIsRemove(s.items, id, 0);
    UpdateToZeroRemoves(s.items, id, 0);
    RemoveLineLength(s.items, k);
  }

  lemma {:induction false} RemoveLineLength(items: seq<CartItem>, k: int)
    requires UniqueIds(items) && 0 <= k < |items|
    ensures |RemoveLine(items, items[k].product.id)| == |items| - 1
  {
    var id := items[k].product.id;
    if k == 0 {
      assert forall i :: 0 <= i < |items[1..]| ==> OtherProduct(id)(items[1..][i]) by {
        forall i | 0 <= i < |items[1..]| ensures OtherProduct(id)(items[1..][i]) {
          assert items[1..][i] == items[i + 1];
        }
      }
      Seqs.FilterAll(items[1..], OtherProduct(id));
    } else {
      assert UniqueIds(items[1..]) by {
        forall i, j | 0 <= i < j < |items[1..]| ensures items[1..][i].product.id != items[1..][j].product.id {
          assert items[1..][i] == items[i + 1] && items[1..][j] == items[j + 1];
        }
      }
      RemoveLineLength(items[1..], k - 1);
      assert items[1..][k - 1] == items[k];
    }
  }

  /** "−" on a line of quantity above 1, and "+" on any line, change that
      line's quantity by one and nothing else. */
  lemma QuantityButtons(s: CartState, k: int)
    requires ValidItems(s.items) && 0 <= k < |s.items|
    ensures PlusClicked(s, k).items == s.items[k := s.items[k].(quantity := s.items[k].quantity + 1)]
    ensures s.items[k].quantity > 1 ==>
      MinusClicked(s, k).items == s.items[k := s.items[k].(quantity := s.items[k].quantity - 1)]
  {
    var line := s.items[k];
    UpdateSetsQuantity(s.items, line.product.id, line.quantity + 1, k);
    if line.quantity > 1 {
      UpdateSetsQuantity(s.items, line.product.id, line.quantity - 1, k);
    }
  }

  /** Checkout is reachable exactly when some line is selected. */
  lemma CheckoutGate(items: seq<CartItem>)
    ensures CanProceedToCheckout(items) <==> exists i :: 0 <= i < |items| && items[i].selected
  {
    var sel := SelectedItems(items);
    if sel != [] {
      Seqs.FilterMembership(items, IsSelected, sel[0]);
    }
    if exists i :: 0 <= i < |items| && items[i].selected {
      var i :| 0 <= i < |items| && items[i].selected;
      Seqs.FilterMembership(items, IsSelected, items[i]);
    }
  }
}
