/** The cart reducer and order derivation (src/context/CartContext.tsx).

    The cart is a list of lines plus a cached `total`. Every action rebuilds
    the list (`map`, `filter`, spread) and recomputes `total` from it; the
    order factory snapshots the selected lines and prices them. */
module Cart {
  import opened Types
  import Seqs
  import Text

  datatype CartState = CartState(items: seq<CartItem>, total: real)

  datatype CartAction =
    | AddToCart(product: Product)
    | RemoveFromCart(productId: string)
    | UpdateQuantity(productId: string, quantity: int)
    | ToggleSelect(productId: string)
    | ClearCart

  /** The reducer's initial state. */
  const EmptyCart: CartState := CartState([], 0.0)

  const TaxRate: real := 0.08
  const FreeShippingThreshold: real := 50.0
  const FlatShipping: real := 9.99
  /** Seven days, in milliseconds. */
  const DeliveryLeadTime: nat := 7 * 24 * 60 * 60 * 1000

  // ---------------------------------------------------------------- totals

  /** price × quantity of one line. */
  function LineAmount(it: CartItem): real {
    it.product.price * it.quantity as real
  }

  predicate IsSelected(it: CartItem) {
    it.selected
  }

  /** `items.filter(item => item.selected)`. */
  function SelectedItems(items: seq<CartItem>): seq<CartItem> {
    Seqs.Filter(items, IsSelected)
  }

  /** `reduce((total, item) => total + price * quantity, 0)`; real addition is
      exact, so summing from the front gives the same value as the left fold. */
  function SumAmounts(items: seq<CartItem>): real {
    if items == [] then 0.0 else LineAmount(items[0]) + SumAmounts(items[1..])
  }

  /** `reduce((total, item) => total + item.quantity, 0)`: the number of units
      on the given lines. */
  function SumQuantities(items: seq<CartItem>): int {
    if items == [] then 0 else items[0].quantity + SumQuantities(items[1..])
  }

  /** `calculateTotal`: the amount of the selected lines. */
  function CalculateTotal(items: seq<CartItem>): real {
    SumAmounts(SelectedItems(items))
  }

  /** Reference definition of the cart's value: every line counted, an
      unselected one as zero. */
  function SelectedValue(items: seq<CartItem>): real {
    if items == [] then 0.0
    else (if items[0].selected then LineAmount(items[0]) else 0.0) + SelectedValue(items[1..])
  }

  lemma {:induction false} CalculateTotalIsSelectedValue(items: seq<CartItem>)
    ensures CalculateTotal(items) == SelectedValue(items)
  {
    if items != [] {
      CalculateTotalIsSelectedValue(items[1..]);
      var rest := SelectedItems(items[1..]);
      if items[0].selected {
        assert SelectedItems(items) == [items[0]] + rest;
        assert ([items[0]] + rest)[1..] == rest;
      } else {
        assert SelectedItems(items) == rest;
      }
    }
  }

  lemma {:induction false} SelectedValueAppend(a: seq<CartItem>, b: seq<CartItem>)
    ensures SelectedValue(a + b) == SelectedValue(a) + SelectedValue(b)
  {
    if a == [] {
      assert a + b == b;
    } else {
      SelectedValueAppend(a[1..], b);
      assert (a + b)[1..] == a[1..] + b;
    }
  }

  /** Replacing one line changes the value by exactly that line's contribution. */
  lemma {:induction false} SelectedValueUpdate(items: seq<CartItem>, k: int, x: CartItem)
    requires 0 <= k < |items|
    ensures SelectedValue(items[k := x])
         == SelectedValue(items)
            - (if items[k].selected then LineAmount(items[k]) else 0.0)
            + (if x.selected then LineAmount(x) else 0.0)
  {
    if k > 0 {
      SelectedValueUpdate(items[1..], k - 1, x);
      assert items[k := x][1..] == items[1..][k - 1 := x];
    } else {
      assert items[k := x][1..] == items[1..];
    }
  }

  // ---------------------------------------------------------------- lookups

  /** `items.find(item => item.product.id === id)` succeeds. */
  predicate HasProduct(items: seq<CartItem>, id: string) {
    exists i :: 0 <= i < |items| && items[i].product.id == id
  }

  /** At most one line per product id. */
  predicate UniqueIds(items: seq<CartItem>) {
    forall i, j :: 0 <= i < j < |items| ==> items[i].product.id != items[j].product.id
  }

  /** No line with quantity <= 0. */
  predicate PositiveQuantities(items: seq<CartItem>) {
    forall i :: 0 <= i < |items| ==> items[i].quantity > 0
  }

  predicate ValidItems(items: seq<CartItem>) {
    PositiveQuantities(items) && UniqueIds(items)
  }

  /** The cached total is the value of the selected lines. */
  predicate Consistent(s: CartState) {
    s.total == SelectedValue(s.items)
  }

  predicate Valid(s: CartState) {
    ValidItems(s.items) && Consistent(s)
  }

  // ---------------------------------------------------------------- line maps

  /** The ADD_TO_CART map callback: the matching line grows by one. */
  function Bump(it: CartItem, id: string): CartItem {
    if it.product.id == id then it.(quantity := it.quantity + 1) else it
  }

  function IncrementLine(items: seq<CartItem>, id: string): (r: seq<CartItem>)
    ensures |r| == |items|
    ensures forall i :: 0 <= i < |items| ==> r[i] == Bump(items[i], id)
  {
    if items == [] then [] else [Bump(items[0], id)] + IncrementLine(items[1..], id)
  }

  /** `Math.max(0, q)`. */
  function ClampQuantity(q: int): int {
    if q < 0 then 0 else q
  }

  /** The UPDATE_QUANTITY map callback. */
  function Requantify(it: CartItem, id: string, q: int): CartItem {
    if it.product.id == id then it.(quantity := ClampQuantity(q)) else it
  }

  function SetLineQuantity(items: seq<CartItem>, id: string, q: int): (r: seq<CartItem>)
    ensures |r| == |items|
    ensures forall i :: 0 <= i < |items| ==> r[i] == Requantify(items[i], id, q)
  {
    if items == [] then [] else [Requantify(items[0], id, q)] + SetLineQuantity(items[1..], id, q)
  }

  /** The TOGGLE_SELECT map callback. */
  function Flip(it: CartItem, id: string): CartItem {
    if it.product.id == id then it.(selected := !it.selected) else it
  }

  function ToggleLine(items: seq<CartItem>, id: string): (r: seq<CartItem>)
    ensures |r| == |items|
    ensures forall i :: 0 <= i < |items| ==> r[i] == Flip(items[i], id)
  {
    if items == [] then [] else [Flip(items[0], id)] + ToggleLine(items[1..], id)
  }

  /** The REMOVE_FROM_CART filter callback, for a given id. */
  function OtherProduct(id: string): CartItem -> bool {
    (it: CartItem) => it.product.id != id
  }

  predicate HasPositiveQuantity(it: CartItem) {
    it.quantity > 0
  }

  // ---------------------------------------------------------------- reducer

  function AddItem(items: seq<CartItem>, p: Product): seq<CartItem> {
    if HasProduct(items, p.id) then IncrementLine(items, p.id)
    else items + [CartItem(p, 1, true)]
  }

  function RemoveLine(items: seq<CartItem>, id: string): seq<CartItem> {
    Seqs.Filter(items, OtherProduct(id))
  }

  function UpdateLines(items: seq<CartItem>, id: string, q: int): seq<CartItem> {
    Seqs.Filter(SetLineQuantity(items, id, q), HasPositiveQuantity)
  }

  /** A new state whose total is recomputed from its lines. */
  function WithTotal(items: seq<CartItem>): CartState {
    CartState(items, CalculateTotal(items))
  }

  /** `cartReducer`. */
  function Reduce(s: CartState, a: CartAction): CartState {
    match a
    case AddToCart(p) => WithTotal(AddItem(s.items, p))
    case RemoveFromCart(id) => WithTotal(RemoveLine(s.items, id))
    case UpdateQuantity(id, q) => WithTotal(UpdateLines(s.items, id, q))
    case ToggleSelect(id) => WithTotal(ToggleLine(s.items, id))
    case ClearCart => CartState([], 0.0)
  }

  /** A sequence of dispatches, applied in order. */
  function Run(s: CartState, actions: seq<CartAction>): CartState
    decreases |actions|
  {
    if actions == [] then s else Run(Reduce(s, actions[0]), actions[1..])
  }

  // ---------------------------------------------------------------- invariants

  /** After every action the total is the value of the selected lines, whatever
      the state before. */
  lemma ReduceConsistent(s: CartState, a: CartAction)
    ensures Consistent(Reduce(s, a))
  {
    var r := Reduce(s, a);
    CalculateTotalIsSelectedValue(r.items);
  }

  lemma {:induction false} FilterKeepsUniqueIds(items: seq<CartItem>, f: CartItem -> bool)
    requires UniqueIds(items)
    ensures UniqueIds(Seqs.Filter(items, f))
  {
    if items != [] {
      var tail := items[1..];
      FilterKeepsUniqueIds(tail, f);
      var r := Seqs.Filter(tail, f);
      if f(items[0]) {
        var r' := [items[0]] + r;
        assert Seqs.Filter(items, f) == r';
        forall i, j | 0 <= i < j < |r'| ensures r'[i].product.id != r'[j].product.id {
          if i == 0 {
            assert r'[j] in tail;
            var m :| 0 <= m < |tail| && tail[m] == r'[j];
            assert items[m + 1] == r'[j];
          } else {
            assert r'[i] == r[i - 1] && r'[j] == r[j - 1];
          }
        }
      }
    }
  }

  lemma FilterKeepsPositive(items: seq<CartItem>, f: CartItem -> bool)
    requires PositiveQuantities(items)
    ensures PositiveQuantities(Seqs.Filter(items, f))
  {
    var r := Seqs.Filter(items, f);
    forall i | 0 <= i < |r| ensures r[i].quantity > 0 {
      assert r[i] in items;
    }
  }

  lemma AddKeepsValidItems(items: seq<CartItem>, p: Product)
    requires ValidItems(items)
    ensures ValidItems(AddItem(items, p))
  {
    if HasProduct(items, p.id) {
      var r := IncrementLine(items, p.id);
      forall i | 0 <= i < |r| ensures r[i].quantity > 0 && r[i].product.id == items[i].product.id {
        assert r[i] == Bump(items[i], p.id);
      }
    } else {
      var r := items + [CartItem(p, 1, true)];
      forall i, j | 0 <= i < j < |r| ensures r[i].product.id != r[j].product.id {
        if j == |items| {
          assert r[i] == items[i];
        }
      }
    }
  }

  lemma RemoveKeepsValidItems(items: seq<CartItem>, id: string)
    requires ValidItems(items)
    ensures ValidItems(RemoveLine(items, id))
  {
    FilterKeepsUniqueIds(items, OtherProduct(id));
    FilterKeepsPositive(items, OtherProduct(id));
  }

  lemma UpdateKeepsValidItems(items: seq<CartItem>, id: string, q: int)
    requires UniqueIds(items)
    ensures ValidItems(UpdateLines(items, id, q))
  {
    var m := SetLineQuantity(items, id, q);
    forall i | 0 <= i < |m| ensures m[i].product.id == items[i].product.id {
      assert m[i] == Requantify(items[i], id, q);
    }
    FilterKeepsUniqueIds(m, HasPositiveQuantity);
  }

  lemma ToggleKeepsValidItems(items: seq<CartItem>, id: string)
    requires ValidItems(items)
    ensures ValidItems(ToggleLine(items, id))
  {
    var r := ToggleLine(items, id);
    forall i | 0 <= i < |r| ensures r[i].quantity == items[i].quantity && r[i].product.id == items[i].product.id {
      assert r[i] == Flip(items[i], id);
    }
  }

  /** Every action keeps quantities positive and ids unique. */
  lemma ReducePreservesValidItems(s: CartState, a: CartAction)
    requires ValidItems(s.items)
    ensures ValidItems(Reduce(s, a).items)
  {
    match a
    case AddToCart(p) => AddKeepsValidItems(s.items, p);
    case RemoveFromCart(id) => RemoveKeepsValidItems(s.items, id);
    case UpdateQuantity(id, q) => UpdateKeepsValidItems(s.items, id, q);
    case ToggleSelect(id) => ToggleKeepsValidItems(s.items, id);
    case ClearCart =>
  }

  /** From the empty cart, every reachable state has positive quantities,
      unique ids and a total equal to the value of its selected lines. */
  lemma {:induction false} RunPreservesValid(s: CartState, actions: seq<CartAction>)
    requires Valid(s)
    ensures Valid(Run(s, actions))
    decreases |actions|
  {
    if actions != [] {
      ReducePreservesValidItems(s, actions[0]);
      ReduceConsistent(s, actions[0]);
      RunPreservesValid(Reduce(s, actions[0]), actions[1..]);
    }
  }

  lemma ReachableIsValid(actions: seq<CartAction>)
    ensures Valid(Run(EmptyCart, actions))
  {
    RunPreservesValid(EmptyCart, actions);
  }

  // ---------------------------------------------------------------- per-action facts

  /** Adding a product already in the cart increases that line's quantity by one,
      keeping its position, its selection flag and its original product record,
      and touches no other line. */
  lemma AddExisting(items: seq<CartItem>, p: Product, k: int)
    requires UniqueIds(items)
    requires 0 <= k < |items| && items[k].product.id == p.id
    ensures AddItem(items, p) == items[k := items[k].(quantity := items[k].quantity + 1)]
  {
    assert HasProduct(items, p.id);
  }

  /** Adding a product not in the cart appends a selected line of quantity 1. */
  lemma AddNew(items: seq<CartItem>, p: Product)
    requires !HasProduct(items, p.id)
    ensures AddItem(items, p) == items + [CartItem(p, 1, true)]
    ensures HasProduct(AddItem(items, p), p.id)
  {
    var r := AddItem(items, p);
    assert r[|items|].product.id == p.id;
  }

  /** Remove, toggle and update on an absent id change nothing (for update,
      provided every quantity is positive). */
  lemma AbsentIdIsNoOp(s: CartState, a: CartAction)
    requires Valid(s)
    requires a.RemoveFromCart? || a.ToggleSelect? || a.UpdateQuantity?
    requires !HasProduct(s.items, a.productId)
    ensures Reduce(s, a) == s
  {
    CalculateTotalIsSelectedValue(s.items);
    match a
    case RemoveFromCart(id) =>
      Seqs.FilterAll(s.items, OtherProduct(id));
    case ToggleSelect(id) =>
      assert ToggleLine(s.items, id) == s.items;
    case UpdateQuantity(id, q) =>
      assert SetLineQuantity(s.items, id, q) == s.items;
      Seqs.FilterAll(s.items, HasPositiveQuantity);
  }

  /** Clearing always yields the empty cart. */
  lemma ClearIsEmpty(s: CartState)
    ensures Reduce(s, ClearCart) == EmptyCart
  {
  }

  /** Adding a product that is not in the cart and then removing its id gives
      back the original lines and total. */
  lemma AddThenRemove(s: CartState, p: Product)
    requires Consistent(s)
    requires !HasProduct(s.items, p.id)
    ensures Reduce(Reduce(s, AddToCart(p)), RemoveFromCart(p.id)) == s
  {
    var f := OtherProduct(p.id);
    var line := CartItem(p, 1, true);
    AddNew(s.items, p);
    assert Reduce(s, AddToCart(p)).items == s.items + [line];
    Seqs.FilterAppend(s.items, [line], f);
    forall i | 0 <= i < |s.items| ensures f(s.items[i]) {
      assert s.items[i].product.id != p.id;
    }
    Seqs.FilterAll(s.items, f);
    assert Seqs.Filter([line], f) == [];
    assert RemoveLine(s.items + [line], p.id) == s.items;
    CalculateTotalIsSelectedValue(s.items);
  }

  /** Updating a present line to q > 0 sets exactly that line's quantity. */
  lemma UpdateSetsQuantity(items: seq<CartItem>, id: string, q: int, k: int)
    requires ValidItems(items)
    requires 0 <= k < |items| && items[k].product.id == id && q > 0
    ensures UpdateLines(items, id, q) == items[k := items[k].(quantity := q)]
  {
    var m := SetLineQuantity(items, id, q);
    assert m == items[k := items[k].(quantity := q)];
    Seqs.FilterAll(m, HasPositiveQuantity);
  }

  /** Updating to a quantity <= 0 (negatives are clamped to 0) removes the line. */
  lemma UpdateToZeroRemoves(items: seq<CartItem>, id: string, q: int)
    requires q <= 0
    ensures !HasProduct(UpdateLines(items, id, q), id)
  {
    var m := SetLineQuantity(items, id, q);
    var r := UpdateLines(items, id, q);
    forall i | 0 <= i < |r| ensures r[i].product.id != id {
      assert r[i] in m;
    }
  }

  /** When every other quantity is positive, updating a line to <= 0 removes
      exactly that line and keeps the others in order. */
  lemma UpdateToZeroIsRemove(items: seq<CartItem>, id: string, q: int)
    requires PositiveQuantities(items) && q <= 0
    ensures UpdateLines(items, id, q) == RemoveLine(items, id)
    decreases |items|
  {
    if items != [] {
      UpdateToZeroIsRemove(items[1..], id, q);
      assert SetLineQuantity(items, id, q)[1..] == SetLineQuantity(items[1..], id, q);
    }
  }

  /** Toggling a present line flips exactly that line's flag. */
  lemma ToggleFlips(items: seq<CartItem>, k: int)
    requires UniqueIds(items) && 0 <= k < |items|
    ensures ToggleLine(items, items[k].product.id) == items[k := items[k].(selected := !items[k].selected)]
  {
  }

  /** Adding to an existing line raises the total by the product's price when
      that line is selected, and leaves it unchanged otherwise. */
  lemma AddExistingTotal(s: CartState, p: Product, k: int)
    requires Valid(s)
    requires 0 <= k < |s.items| && s.items[k].product.id == p.id
    ensures Reduce(s, AddToCart(p)).total
         == s.total + (if s.items[k].selected then s.items[k].product.price else 0.0)
  {
    var line := s.items[k];
    var bumped := line.(quantity := line.quantity + 1);
    AddExisting(s.items, p, k);
    CalculateTotalIsSelectedValue(s.items[k := bumped]);
    SelectedValueUpdate(s.items, k, bumped);
    assert LineAmount(bumped) == LineAmount(line) + line.product.price;
  }

  /** Adding a new product raises the total by its price. */
  lemma AddNewTotal(s: CartState, p: Product)
    requires Consistent(s) && !HasProduct(s.items, p.id)
    ensures Reduce(s, AddToCart(p)).total == s.total + p.price
  {
    CalculateTotalIsSelectedValue(s.items + [CartItem(p, 1, true)]);
    SelectedValueAppend(s.items, [CartItem(p, 1, true)]);
  }

  // ---------------------------------------------------------------- createOrder

  /** `createOrder(address, paymentMethod)`, at instant `now`. The cart is an
      input only: it is not changed, and an empty selection is not rejected. */
  function CreateOrder(s: CartState, address: Address, paymentMethod: PaymentMethod, now: Timestamp): (r: Order) {
    var selectedItems := SelectedItems(s.items);
    var subtotal := SumAmounts(selectedItems);
    var tax := subtotal * TaxRate;
    var shipping := if subtotal > FreeShippingThreshold then 0.0 else FlatShipping;
    var total := subtotal + tax + shipping;
    Order("ORD-" + Text.NatToString(now), selectedItems, total, subtotal, tax, shipping,
          Pending, address, paymentMethod, now, now + DeliveryLeadTime, None)
  }

  /** What a placed order holds: the selected lines in cart order, their value
      as subtotal, 8% tax, free shipping exactly above 50 and 9.99 otherwise,
      and the sum of the three as total; pending, due seven days after creation. */
  lemma CreateOrderSpec(s: CartState, address: Address, pm: PaymentMethod, now: Timestamp)
    ensures var o := CreateOrder(s, address, pm, now);
      && (forall x :: x in o.items <==> x in s.items && x.selected)
      && (forall x :: multiset(o.items)[x] == if x.selected then multiset(s.items)[x] else 0)
      && Seqs.IsSubsequence(o.items, s.items)
      && o.subtotal == SelectedValue(s.items)
      && o.tax == 0.08 * o.subtotal
      && (o.shipping == 0.0 <==> o.subtotal > 50.0)
      && (o.shipping == 0.0 || o.shipping == 9.99)
      && o.total == o.subtotal + o.tax + o.shipping
      && o.status == Pending
      && o.address == address && o.paymentMethod == pm
      && o.createdAt == now && o.estimatedDelivery == now + 604800000
  {
    forall x ensures x in SelectedItems(s.items) <==> x in s.items && x.selected {
      Seqs.FilterMembership(s.items, IsSelected, x);
    }
    forall x ensures multiset(SelectedItems(s.items))[x] == if x.selected then multiset(s.items)[x] else 0 {
      Seqs.FilterCount(s.items, IsSelected, x);
    }
    Seqs.FilterIsSubsequence(s.items, IsSelected);
    CalculateTotalIsSelectedValue(s.items);
  }

  /** On a consistent cart, the order's subtotal is the cart's displayed total. */
  lemma OrderSubtotalIsCartTotal(s: CartState, address: Address, pm: PaymentMethod, now: Timestamp)
    requires Consistent(s)
    ensures CreateOrder(s, address, pm, now).subtotal == s.total
  {
    CalculateTotalIsSelectedValue(s.items);
  }

  /** With nothing selected, the order is still produced: no lines, and only
      the flat shipping fee to pay. */
  lemma EmptySelectionOrder(s: CartState, address: Address, pm: PaymentMethod, now: Timestamp)
    requires forall i :: 0 <= i < |s.items| ==> !s.items[i].selected
    ensures CreateOrder(s, address, pm, now).items == []
    ensures CreateOrder(s, address, pm, now).total == 9.99
  {
    var o := CreateOrder(s, address, pm, now);
    if o.items != [] {
      Seqs.FilterMembership(s.items, IsSelected, o.items[0]);
    }
  }

  /** Orders created at different instants have different ids. */
  lemma OrderIdsDistinct(s: CartState, t: CartState, a: Address, b: Address,
                         pm: PaymentMethod, qm: PaymentMethod, now: Timestamp, later: Timestamp)
    requires now != later
    ensures CreateOrder(s, a, pm, now).id != CreateOrder(t, b, qm, later).id
  {
    var x, y := Text.NatToString(now), Text.NatToString(later);
    if "ORD-" + x == "ORD-" + y {
      assert x == ("ORD-" + x)[4..] == ("ORD-" + y)[4..] == y;
      Text.NatToStringInjective(now, later);
    }
  }

  // ---------------------------------------------------------------- provider

  /** `CartProvider`: holds the reducer's state, which each dispatch replaces. */
  class CartStore {
    var state: CartState

    /** The provider starts from the empty cart. */
    constructor()
      ensures state == EmptyCart && Valid(state)
    {
      state := EmptyCart;
    }

    /** `dispatch`: the state becomes the reducer's result and stays valid. */
    method Dispatch(a: CartAction)
      requires Valid(state)
      modifies this
      ensures state == Reduce(old(state), a)
      ensures Valid(state)
    {
      ReduceConsistent(state, a);
      ReducePreservesValidItems(state, a);
      state := Reduce(state, a);
    }
  }
}
