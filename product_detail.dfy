/** The product page (src/pages/ProductDetail.tsx): the product lookup, the
    add-to-cart loop, the quantity selector, the related products, the review
    list and the rating summary. The catalog and the stored reviews are inputs. */
module ProductDetail {
  import opened Types
  import opened Cart
  import Seqs
  import Text
  import Auth

  // ---------------------------------------------------------------- lookups

  /** `products.find(p => p.id === id)`: the page shows "Product not found"
      when this is `None`. */
  function FindProduct(catalog: seq<Product>, id: string): (r: Option<Product>)
    ensures r.Some? <==> exists i :: 0 <= i < |catalog| && catalog[i].id == id
    ensures r.Some? ==> r.value in catalog && r.value.id == id
    ensures r.Some? ==>
      exists i :: 0 <= i < |catalog| && catalog[i] == r.value && forall j :: 0 <= j < i ==> catalog[j].id != id
  {
    if catalog == [] then None
    else if catalog[0].id == id then Some(catalog[0])
    else
      var r := FindProduct(catalog[1..], id);
      assert r.Some? ==>
        exists i :: 0 <= i < |catalog| && catalog[i] == r.value && forall j :: 0 <= j < i ==> catalog[j].id != id by {
        if r.Some? {
          var rest := catalog[1..];
          var i :| 0 <= i < |rest| && rest[i] == r.value && forall j :: 0 <= j < i ==> rest[j].id != id;
          assert catalog[i + 1] == r.value;
          forall j | 0 <= j < i + 1 ensures catalog[j].id != id {
            if j > 0 {
              assert catalog[j] == rest[j - 1];
            }
          }
        }
      }
      assert (exists i :: 0 <= i < |catalog| && catalog[i].id == id) ==>
             (exists i :: 0 <= i < |catalog[1..]| && catalog[1..][i].id == id) by {
        if exists i :: 0 <= i < |catalog| && catalog[i].id == id {
          var i :| 0 <= i < |catalog| && catalog[i].id == id;
          assert catalog[1..][i - 1] == catalog[i];
        }
      }
      r
  }

  /** The review filter callback `r.productId === id`. */
  function ForProduct(id: string): Review -> bool {
    (r: Review) => r.productId == id
  }

  /** The initial review list. */
  function ReviewsFor(all: seq<Review>, id: string): seq<Review> {
    Seqs.Filter(all, ForProduct(id))
  }

  /** The initial list holds exactly the stored reviews of this product, in order. */
  lemma ReviewsForSpec(all: seq<Review>, id: string, r: Review)
    ensures r in ReviewsFor(all, id) <==> r in all && r.productId == id
    ensures multiset(ReviewsFor(all, id))[r] == if r.productId == id then multiset(all)[r] else 0
    ensures Seqs.IsSubsequence(ReviewsFor(all, id), all)
  {
    Seqs.FilterMembership(all, ForProduct(id), r);
    Seqs.FilterCount(all, ForProduct(id), r);
    Seqs.FilterIsSubsequence(all, ForProduct(id));
  }

  /** The related-products filter callback. */
  function RelatedTo(product: Product): Product -> bool {
    (p: Product) => p.category == product.category && p.id != product.id
  }

  /** `relatedProducts`: other products of the same category, at most four. */
  function RelatedProducts(catalog: seq<Product>, product: Product): seq<Product> {
    Seqs.Take(Seqs.Filter(catalog, RelatedTo(product)), 4)
  }

  /** Related products share the category, exclude the product itself, number
      at most four and keep catalog order: they are the first min(4, n) of the
      n candidates, so when there are at most four, all of them are shown. */
  lemma RelatedProductsSpec(catalog: seq<Product>, product: Product, p: Product)
    ensures var n := |Seqs.Filter(catalog, RelatedTo(product))|;
      |RelatedProducts(catalog, product)| == if n < 4 then n else 4
    ensures RelatedProducts(catalog, product) ==
      Seqs.Filter(catalog, RelatedTo(product))[..|RelatedProducts(catalog, product)|]
    ensures p in RelatedProducts(catalog, product) ==>
      p in catalog && p.category == product.category && p.id != product.id
    ensures Seqs.IsSubsequence(RelatedProducts(catalog, product), catalog)
    ensures |Seqs.Filter(catalog, RelatedTo(product))| <= 4 ==>
      (p in RelatedProducts(catalog, product) <==>
       p in catalog && p.category == product.category && p.id != product.id)
  {
    var f := RelatedTo(product);
    var all := Seqs.Filter(catalog, f);
    Seqs.FilterMembership(catalog, f, p);
    Seqs.TakeFilterIsSubsequence(catalog, f, 4);
    assert all[..|all|] == all;
    if p in RelatedProducts(catalog, product) {
      assert p in all;
    }
  }

  // ---------------------------------------------------------------- add to cart

  /** After `n` adds the cart is valid and the product's line is raised by
      `n`, or appended with quantity `n` when it had none. */
  predicate AddedSoFar(s: CartState, p: Product, n: nat, r: CartState) {
    && (n == 0 ==> r == s)
    && ValidItems(r.items)
    && (n > 0 ==> Consistent(r) && HasProduct(r.items, p.id))
    && (forall k :: 0 <= k < |s.items| && s.items[k].product.id == p.id ==>
          r.items == s.items[k := s.items[k].(quantity := s.items[k].quantity + n)])
    && (!HasProduct(s.items, p.id) && n > 0 ==> r.items == s.items + [CartItem(p, n, true)])
  }

  /** `addToCart(product)` dispatched `n` times in a row: the product's line
      is raised by `n`, or appended with quantity `n`, and the cart stays valid. */
  function AddTimes(s: CartState, p: Product, n: nat): (r: CartState)
    requires ValidItems(s.items)
    ensures AddedSoFar(s, p, n, r)
  {
    if n == 0 then
      AddedNothing(s, p);
      s
    else
      var prev := AddTimes(s, p, n - 1);
      AddOneMore(s, p, n, prev);
      Reduce(prev, AddToCart(p))
  }

  /** The outcome of adding `q` units of `p` to `s`: `r` is a valid cart
      holding `p`, whose existing line has grown by exactly `q`, or which
      gained one selected line of quantity `q` at the end. */
  predicate AddedQuantity(s: CartState, p: Product, q: int, r: CartState) {
    && Valid(r) && HasProduct(r.items, p.id)
    && (forall k :: 0 <= k < |s.items| && s.items[k].product.id == p.id ==>
          r.items == s.items[k := s.items[k].(quantity := s.items[k].quantity + q)])
    && (!HasProduct(s.items, p.id) ==> r.items == s.items + [CartItem(p, q, true)])
  }

  /** `handleAddToCart`: `addToCart(product)` dispatched `q` times, by the
      source's `for` loop. An existing line grows by exactly `q`; a new
      product enters as one selected line of quantity `q`; the cached total
      stays the value of the selected lines. */
  method AddRepeatedly(s: CartState, p: Product, q: int) returns (r: CartState)
    requires ValidItems(s.items)
    ensures q <= 0 ==> r == s
    ensures q > 0 ==> r == AddTimes(s, p, q)
    ensures q > 0 ==> AddedQuantity(s, p, q, r)
  {
    r := s;
    var i := 0;
    while i < q
      invariant 0 <= i <= (if q > 0 then q else 0)
      invariant r == AddTimes(s, p, i)
    {
      r := Reduce(r, AddToCart(p));
      i := i + 1;
    }
    if q > 0 {
      assert i == q && r == AddTimes(s, p, q);
      assert AddedSoFar(s, p, q, r);
    }
  }

  /** Before the first add, the cart is the one given. */
  lemma AddedNothing(s: CartState, p: Product)
    requires ValidItems(s.items)
    ensures AddedSoFar(s, p, 0, s)
  {
    forall k | 0 <= k < |s.items| && s.items[k].product.id == p.id
      ensures s.items == s.items[k := s.items[k].(quantity := s.items[k].quantity + 0)]
    {
      assert s.items[k].(quantity := s.items[k].quantity + 0) == s.items[k];
    }
  }

  /** One more add: after `n - 1` adds, the `n`-th keeps the cart valid and
      raises the product's line by one more. */
  lemma AddOneMore(s: CartState, p: Product, n: nat, before: CartState)
    requires n > 0 && ValidItems(s.items) && AddedSoFar(s, p, n - 1, before)
    ensures AddedSoFar(s, p, n, Reduce(before, AddToCart(p)))
  {
    ReduceConsistent(before, AddToCart(p));
    ReducePreservesValidItems(before, AddToCart(p));
    if HasProduct(s.items, p.id) {
      var k :| 0 <= k < |s.items| && s.items[k].product.id == p.id;
      AddOneMoreExisting(s, p, n, before, k);
    } else {
      AddOneMoreNew(s, p, n, before);
    }
  }

  /** The loop step when the product already had a line: that line grows by one more. */
  lemma AddOneMoreExisting(s: CartState, p: Product, n: nat, before: CartState, k: int)
    requires ValidItems(s.items) && 0 <= k < |s.items| && s.items[k].product.id == p.id
    requires before.items == s.items[k := s.items[k].(quantity := s.items[k].quantity + (n - 1))]
    ensures var r := Reduce(before, AddToCart(p));
      && HasProduct(r.items, p.id)
      && (forall j :: 0 <= j < |s.items| && s.items[j].product.id == p.id ==>
            r.items == s.items[j := s.items[j].(quantity := s.items[j].quantity + n)])
  {
    assert UniqueIds(before.items) by {
      forall a, b | 0 <= a < b < |before.items| ensures before.items[a].product.id != before.items[b].product.id {
        assert before.items[a].product.id == s.items[a].product.id;
        assert before.items[b].product.id == s.items[b].product.id;
      }
    }
    var r := Reduce(before, AddToCart(p));
    AddExisting(before.items, p, k);
    assert r.items[k].product.id == p.id;
    forall j | 0 <= j < |s.items| && s.items[j].product.id == p.id
      ensures r.items == s.items[j := s.items[j].(quantity := s.items[j].quantity + n)]
    {
      assert j == k;
    }
  }

  /** The loop step when the product had no line: the first turn appends it,
      later turns raise the appended line. */
  lemma AddOneMoreNew(s: CartState, p: Product, n: nat, before: CartState)
    requires n > 0 && ValidItems(s.items) && ValidItems(before.items) && !HasProduct(s.items, p.id)
    requires n == 1 ==> before == s
    requires n > 1 ==> before.items == s.items + [CartItem(p, n - 1, true)]
    ensures var r := Reduce(before, AddToCart(p));
      HasProduct(r.items, p.id) && r.items == s.items + [CartItem(p, n, true)]
  {
    var r := Reduce(before, AddToCart(p));
    if n == 1 {
      AddNew(before.items, p);
    } else {
      AddExisting(before.items, p, |s.items|);
      assert r.items[|s.items|].product.id == p.id;
    }
  }

  // ---------------------------------------------------------------- ratings

  /** The histogram filter callback `r.rating === rating`. */
  function HasRating(k: int): Review -> bool {
    (r: Review) => r.rating == k
  }

  /** The count shown next to star value k. */
  function RatingCount(rs: seq<Review>, k: int): nat {
    |Seqs.Filter(rs, HasRating(k))|
  }

  /** The counts of the five rows, 5 down to 1. */
  function HistogramTotal(rs: seq<Review>): nat {
    RatingCount(rs, 5) + RatingCount(rs, 4) + RatingCount(rs, 3) + RatingCount(rs, 2) + RatingCount(rs, 1)
  }

  predicate RatingsInRange(rs: seq<Review>) {
    forall i :: 0 <= i < |rs| ==> 1 <= rs[i].rating <= 5
  }

  lemma RatingCountCons(rs: seq<Review>, k: int)
    requires rs != []
    ensures RatingCount(rs, k) == (if rs[0].rating == k then 1 else 0) + RatingCount(rs[1..], k)
  {
  }

  /** With integer ratings from 1 to 5, the five rows count every review once. */
  lemma {:induction false} HistogramCountsEveryReview(rs: seq<Review>)
    requires RatingsInRange(rs)
    ensures HistogramTotal(rs) == |rs|
  {
    if rs != [] {
      HistogramCountsEveryReview(rs[1..]);
      RatingCountCons(rs, 5);
      RatingCountCons(rs, 4);
      RatingCountCons(rs, 3);
      RatingCountCons(rs, 2);
      RatingCountCons(rs, 1);
    }
  }

  /** `reviews.reduce((sum, r) => sum + r.rating, 0)`. */
  function RatingSum(rs: seq<Review>): int {
    if rs == [] then 0 else rs[0].rating + RatingSum(rs[1..])
  }

  /** The average shown above the histogram; the block is rendered only for a
      non-empty list. */
  function AverageRating(rs: seq<Review>): real
    requires |rs| > 0
  {
    RatingSum(rs) as real / |rs| as real
  }

  lemma {:induction false} RatingSumBounds(rs: seq<Review>)
    requires RatingsInRange(rs)
    ensures |rs| <= RatingSum(rs) <= 5 * |rs|
  {
    if rs != [] {
      RatingSumBounds(rs[1..]);
    }
  }

  /** With ratings from 1 to 5, the average is between 1 and 5, and so is the
      number of filled stars `Math.floor(average)`. */
  lemma AverageRatingBounds(rs: seq<Review>)
    requires |rs| > 0 && RatingsInRange(rs)
    ensures 1.0 <= AverageRating(rs) <= 5.0
    ensures 1 <= AverageRating(rs).Floor <= 5
  {
    RatingSumBounds(rs);
    var n := |rs| as real;
    var s := RatingSum(rs) as real;
    DivideMonotone(n, s, n);
    DivideMonotone(s, 5.0 * n, n);
    DivideScaled(1.0, n);
    DivideScaled(5.0, n);
  }

  lemma DivideScaled(c: real, d: real)
    requires d > 0.0
    ensures c * d / d == c
  {
  }

  /** Dividing by a positive number keeps the order. */
  lemma DivideMonotone(x: real, y: real, d: real)
    requires d > 0.0 && x <= y
    ensures x / d <= y / d
  {
    assert y / d - x / d == (y - x) / d;
  }

  // ---------------------------------------------------------------- reviews

  /** The review `handleSubmitReview` builds: id `review-<now>`, the route's
      product id, the author from the auth state, the form's fields, no helpful
      votes yet. */
  function NewReview(productId: string, user: AuthUser, data: ReviewFormData, now: Timestamp): Review {
    Review("review-" + Text.NatToString(now), productId, user.id, user.name, user.avatar,
           data.rating, data.title, data.comment, now, 0, data.images)
  }

  /** The page's state for one product. */
  class ProductPage {
    const id: string
    const product: Product
    var quantity: int
    var reviews: seq<Review>
    var showReviewForm: bool
    var isSubmittingReview: bool

    ghost predicate Valid()
      reads this
    {
      quantity >= 1
    }

    /** The page for route `id`, holding the product `find` returned for it;
        the "Product not found" view has no state of its own. */
    constructor(id: string, catalog: seq<Product>, allReviews: seq<Review>)
      requires FindProduct(catalog, id).Some?
      ensures this.id == id && this.product == FindProduct(catalog, id).value && product.id == id
      ensures Valid() && quantity == 1
      ensures reviews == ReviewsFor(allReviews, id)
      ensures !showReviewForm && !isSubmittingReview
    {
      this.id := id;
      this.product := FindProduct(catalog, id).value;
      quantity := 1;
      reviews := ReviewsFor(allReviews, id);
      showReviewForm := false;
      isSubmittingReview := false;
    }

    /** The "−" button: `Math.max(1, quantity - 1)`. */
    method DecreaseQuantity()
      requires Valid()
      modifies this
      ensures Valid()
      ensures old(quantity) > 1 ==> quantity == old(quantity) - 1
      ensures old(quantity) == 1 ==> quantity == 1
      ensures reviews == old(reviews) && showReviewForm == old(showReviewForm)
      ensures isSubmittingReview == old(isSubmittingReview)
    {
      quantity := if quantity - 1 < 1 then 1 else quantity - 1;
    }

    /** The "+" button. */
    method IncreaseQuantity()
      requires Valid()
      modifies this
      ensures Valid() && quantity == old(quantity) + 1
      ensures reviews == old(reviews) && showReviewForm == old(showReviewForm)
      ensures isSubmittingReview == old(isSubmittingReview)
    {
      quantity := quantity + 1;
    }

    /** "Add to Cart" with the selector's value: since the selector never goes
        below 1, the product is always in the cart afterwards. */
    method HandleAddToCart(s: CartState) returns (r: CartState)
      requires Valid() && ValidItems(s.items)
      ensures AddedQuantity(s, product, quantity, r)
    {
      r := AddRepeatedly(s, product, quantity);
    }

    /** `handleSubmitReview`: refused without a logged-in user; otherwise the
        new review goes to the front of the list and the form closes. */
    method SubmitReview(auth: Auth.AuthState, data: ReviewFormData, now: Timestamp) returns (accepted: bool)
      requires Valid()
      modifies this
      ensures Valid() && quantity == old(quantity)
      ensures accepted <==> auth.isAuthenticated && auth.user.Some?
      ensures !accepted ==>
        reviews == old(reviews) && showReviewForm == old(showReviewForm)
        && isSubmittingReview == old(isSubmittingReview)
      ensures accepted ==>
        && reviews == [NewReview(id, auth.user.value, data, now)] + old(reviews)
        && |reviews| == |old(reviews)| + 1
        && !showReviewForm && !isSubmittingReview
    {
      if !auth.isAuthenticated || auth.user.None? {
        return false;
      }
      isSubmittingReview := true;
      reviews := [NewReview(id, auth.user.value, data, now)] + reviews;
      showReviewForm := false;
      isSubmittingReview := false;
      accepted := true;
    }
  }
}
