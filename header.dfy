/** The header's cart badge (src/components/Header.tsx). */
module Header {
  import opened Types
  import opened Cart
  import CartPage

  /** `cartItemCount`: units over every line, selected or not. */
  function CartItemCount(items: seq<CartItem>): int {
    SumQuantities(items)
  }

  /** The badge is rendered only for a positive count. */
  predicate BadgeVisible(items: seq<CartItem>) {
    CartItemCount(items) > 0
  }

  /** With positive quantities, the count is at least the number of lines. */
  lemma {:induction false} CountAtLeastLines(items: seq<CartItem>)
    requires PositiveQuantities(items)
    ensures CartItemCount(items) >= |items|
  {
    if items != [] {
      CountAtLeastLines(items[1..]);
    }
  }

  /** Since the cart keeps every quantity positive, the count is 0 (and the
      badge hidden) exactly when the cart is empty. */
  lemma CountZeroIffEmpty(items: seq<CartItem>)
    requires PositiveQuantities(items)
    ensures CartItemCount(items) == 0 <==> items == []
    ensures BadgeVisible(items) <==> items != []
  {
    CountAtLeastLines(items);
  }

  lemma {:induction false} SumQuantitiesAppend(a: seq<CartItem>, b: seq<CartItem>)
    ensures SumQuantities(a + b) == SumQuantities(a) + SumQuantities(b)
  {
    if a == [] {
      assert a + b == b;
    } else {
      SumQuantitiesAppend(a[1..], b);
      assert (a + b)[1..] == a[1..] + b;
    }
  }

  lemma {:induction false} SumQuantitiesUpdate(items: seq<CartItem>, k: int, x: CartItem)
    requires 0 <= k < |items|
    ensures SumQuantities(items[k := x]) == SumQuantities(items) - items[k].quantity + x.quantity
  {
    if k > 0 {
      SumQuantitiesUpdate(items[1..], k - 1, x);
      assert items[k := x][1..] == items[1..][k - 1 := x];
    }
  }

  /** Every add-to-cart raises the badge count by exactly one. */
  lemma AddRaisesCountByOne(s: CartState, p: Product)
    requires UniqueIds(s.items)
    ensures CartItemCount(Reduce(s, AddToCart(p)).items) == CartItemCount(s.items) + 1
  {
    if HasProduct(s.items, p.id) {
      var k :| 0 <= k < |s.items| && s.items[k].product.id == p.id;
      AddExisting(s.items, p, k);
      SumQuantitiesUpdate(s.items, k, s.items[k].(quantity := s.items[k].quantity + 1));
    } else {
      AddNew(s.items, p);
      SumQuantitiesAppend(s.items, [CartItem(p, 1, true)]);
    }
  }

  /** The badge counts every line while the cart page's "Items" counts only
      the selected ones, so the page never shows more than the badge, and the
      two agree when every line is selected. */
  lemma {:induction false} BadgeBoundsSelectedCount(items: seq<CartItem>)
    requires PositiveQuantities(items)
    ensures CartPage.TotalItems(items) <= CartItemCount(items)
    ensures (forall i :: 0 <= i < |items| ==> items[i].selected) ==>
      CartPage.TotalItems(items) == CartItemCount(items)
  {
    CartPage.TotalItemsIsSelectedUnits(items);
    SelectedUnitsAtMostCount(items);
  }

  lemma {:induction false} SelectedUnitsAtMostCount(items: seq<CartItem>)
    requires PositiveQuantities(items)
    ensures CartPage.SelectedUnits(items) <= SumQuantities(items)
    ensures (forall i :: 0 <= i < |items| ==> items[i].selected) ==>
      CartPage.SelectedUnits(items) == SumQuantities(items)
  {
    if items != [] {
      SelectedUnitsAtMostCount(items[1..]);
    }
  }
}
