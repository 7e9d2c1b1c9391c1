/** The home page's three product rows (src/pages/Home.tsx), computed from
    the catalog, which is an input here. */
module Home {
  import opened Types
  import Seqs

  /** `product.discount && product.discount > 20`: a discount is present and
      above 20 (a missing or zero discount is falsy). */
  predicate IsFlashSale(p: Product) {
    p.discount.Some? && p.discount.value > 20.0
  }

  predicate IsTrending(p: Product) {
    p.sold > 5000
  }

  function FlashSaleProducts(catalog: seq<Product>): (r: seq<Product>) {
    Seqs.Filter(catalog, IsFlashSale)
  }

  function TrendingProducts(catalog: seq<Product>): (r: seq<Product>) {
    Seqs.Filter(catalog, IsTrending)
  }

  /** `products.slice(0, 4)`. */
  function NewArrivals(catalog: seq<Product>): seq<Product> {
    Seqs.Take(catalog, 4)
  }

  /** Flash-sale products are exactly the catalog products with a discount
      above 20, in catalog order. */
  lemma FlashSaleSpec(catalog: seq<Product>, p: Product)
    ensures p in FlashSaleProducts(catalog) <==>
      p in catalog && p.discount.Some? && p.discount.value > 20.0
    ensures multiset(FlashSaleProducts(catalog))[p] == if IsFlashSale(p) then multiset(catalog)[p] else 0
    ensures Seqs.IsSubsequence(FlashSaleProducts(catalog), catalog)
  {
    Seqs.FilterMembership(catalog, IsFlashSale, p);
    Seqs.FilterCount(catalog, IsFlashSale, p);
    Seqs.FilterIsSubsequence(catalog, IsFlashSale);
  }

  /** Trending products are exactly the catalog products sold more than 5000
      times, in catalog order. */
  lemma TrendingSpec(catalog: seq<Product>, p: Product)
    ensures p in TrendingProducts(catalog) <==> p in catalog && p.sold > 5000
    ensures multiset(TrendingProducts(catalog))[p] == if IsTrending(p) then multiset(catalog)[p] else 0
    ensures Seqs.IsSubsequence(TrendingProducts(catalog), catalog)
  {
    Seqs.FilterMembership(catalog, IsTrending, p);
    Seqs.FilterCount(catalog, IsTrending, p);
    Seqs.FilterIsSubsequence(catalog, IsTrending);
  }

  /** New arrivals are the first min(4, n) catalog products. */
  lemma NewArrivalsSpec(catalog: seq<Product>)
    ensures |NewArrivals(catalog)| == if |catalog| < 4 then |catalog| else 4
    ensures NewArrivals(catalog) == catalog[..|NewArrivals(catalog)|]
    ensures Seqs.IsSubsequence(NewArrivals(catalog), catalog)
  {
    var n := |NewArrivals(catalog)|;
    Seqs.PrefixIsSubsequence(catalog, n);
    assert catalog[..|catalog|] == catalog;
  }
}
