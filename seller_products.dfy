/** The seller's product list (src/pages/SellerProducts.tsx): the search,
    category and status filter, the status labels and colours, and the update
    and delete handlers. The page's own product record is `SellerProduct`. */
module SellerProducts {
  import opened Types
  import Seqs
  import Text

  datatype ProductStatus = Active | Inactive | OutOfStock

  /** The status as the source spells it. */
  function ProductStatusName(s: ProductStatus): string {
    match s
    case Active => "active"
    case Inactive => "inactive"
    case OutOfStock => "out_of_stock"
  }

  datatype SellerProduct = SellerProduct(
    id: string,
    name: string,
    description: string,
    price: real,
    originalPrice: Option<real>,
    discount: Option<real>,
    category: string,
    stock: int,
    sold: int,
    rating: real,
    images: seq<string>,
    status: ProductStatus)

  /** The lower-cased query occurs in the lower-cased name or description. */
  predicate MatchesSearch(p: SellerProduct, query: string) {
    var q := Text.ToLower(query);
    Text.Contains(Text.ToLower(p.name), q) || Text.Contains(Text.ToLower(p.description), q)
  }

  /** The `filteredProducts` callback. */
  function Listed(query: string, categoryFilter: string, statusFilter: string): SellerProduct -> bool {
    (p: SellerProduct) =>
      && MatchesSearch(p, query)
      && (categoryFilter == "all" || p.category == categoryFilter)
      && (statusFilter == "all" || ProductStatusName(p.status) == statusFilter)
  }

  function FilteredProducts(products: seq<SellerProduct>, query: string, categoryFilter: string,
                            statusFilter: string): seq<SellerProduct> {
    Seqs.Filter(products, Listed(query, categoryFilter, statusFilter))
  }

  /** A product is listed exactly when it matches the search, the category and
      the status; the list keeps the original order. */
  lemma FilteredProductsSpec(products: seq<SellerProduct>, query: string, categoryFilter: string,
                             statusFilter: string, p: SellerProduct)
    ensures p in FilteredProducts(products, query, categoryFilter, statusFilter) <==>
      && p in products
      && (Text.Contains(Text.ToLower(p.name), Text.ToLower(query))
          || Text.Contains(Text.ToLower(p.description), Text.ToLower(query)))
      && (categoryFilter == "all" || p.category == categoryFilter)
      && (statusFilter == "all" || ProductStatusName(p.status) == statusFilter)
    ensures multiset(FilteredProducts(products, query, categoryFilter, statusFilter))[p] ==
      if Listed(query, categoryFilter, statusFilter)(p) then multiset(products)[p] else 0
    ensures Seqs.IsSubsequence(FilteredProducts(products, query, categoryFilter, statusFilter), products)
  {
    Seqs.FilterMembership(products, Listed(query, categoryFilter, statusFilter), p);
    Seqs.FilterCount(products, Listed(query, categoryFilter, statusFilter), p);
    Seqs.FilterIsSubsequence(products, Listed(query, categoryFilter, statusFilter));
  }

  /** An empty search with both filters on "all" lists every product, in order. */
  lemma EmptySearchListsAll(products: seq<SellerProduct>)
    ensures FilteredProducts(products, "", "all", "all") == products
  {
    forall i | 0 <= i < |products| ensures Listed("", "all", "all")(products[i]) {
      Text.ContainsEmpty(Text.ToLower(products[i].name));
      assert Text.ToLower("") == "";
      assert MatchesSearch(products[i], "");
    }
    Seqs.FilterAll(products, Listed("", "all", "all"));
  }

  /** `getStatusText`. */
  function StatusText(status: string): string {
    if status == "active" then "Active"
    else if status == "inactive" then "Inactive"
    else if status == "out_of_stock" then "Out of Stock"
    else status
  }

  /** The three statuses get their fixed labels, which differ from each other;
      any other string is shown as it is. */
  lemma StatusTextSpec(a: ProductStatus, b: ProductStatus, other: string)
    ensures StatusText(ProductStatusName(Active)) == "Active"
    ensures StatusText(ProductStatusName(Inactive)) == "Inactive"
    ensures StatusText(ProductStatusName(OutOfStock)) == "Out of Stock"
    ensures a != b ==> StatusText(ProductStatusName(a)) != StatusText(ProductStatusName(b))
    ensures (forall s: ProductStatus :: ProductStatusName(s) != other) ==> StatusText(other) == other
  {
    if forall s: ProductStatus :: ProductStatusName(s) != other {
      assert ProductStatusName(Active) != other && ProductStatusName(Inactive) != other;
      assert ProductStatusName(OutOfStock) != other;
    }
  }

  const DefaultStatusColor := "bg-gray-100 text-gray-800"

  /** `getStatusColor`. */
  function StatusColor(status: string): string {
    if status == "active" then "bg-green-100 text-green-800"
    else if status == "inactive" then "bg-gray-100 text-gray-800"
    else if status == "out_of_stock" then "bg-red-100 text-red-800"
    else DefaultStatusColor
  }

  /** Active and out-of-stock products get their own colours; an inactive
      product looks like an unknown status. */
  lemma StatusColorSpec(other: string)
    ensures StatusColor(ProductStatusName(Active)) != StatusColor(ProductStatusName(OutOfStock))
    ensures StatusColor(ProductStatusName(Active)) != DefaultStatusColor
    ensures StatusColor(ProductStatusName(OutOfStock)) != DefaultStatusColor
    ensures StatusColor(ProductStatusName(Inactive)) == DefaultStatusColor
    ensures (forall s: ProductStatus :: ProductStatusName(s) != other) ==> StatusColor(other) == DefaultStatusColor
  {
    if forall s: ProductStatus :: ProductStatusName(s) != other {
      assert ProductStatusName(Active) != other && ProductStatusName(Inactive) != other;
      assert ProductStatusName(OutOfStock) != other;
    }
  }

  /** The page's state besides the (fixed) product list. */
  datatype ProductsView = ProductsView(
    searchQuery: string,
    categoryFilter: string,
    statusFilter: string,
    selectedProduct: Option<SellerProduct>,
    showDeleteModal: bool)

  /** `updateProductStatus`: past its log line, closes the detail view. */
  function UpdateProductStatus(v: ProductsView, productId: string, newStatus: ProductStatus): (r: ProductsView)
    ensures r.selectedProduct.None? && r.showDeleteModal == v.showDeleteModal
    ensures r.searchQuery == v.searchQuery && r.categoryFilter == v.categoryFilter
    ensures r.statusFilter == v.statusFilter
  {
    v.(selectedProduct := None)
  }

  /** `handleDeleteProduct`: closes the confirmation and the detail view. */
  function DeleteProduct(v: ProductsView, productId: string): (r: ProductsView)
    ensures r.selectedProduct.None? && !r.showDeleteModal
    ensures r.searchQuery == v.searchQuery && r.categoryFilter == v.categoryFilter
    ensures r.statusFilter == v.statusFilter
  {
    v.(showDeleteModal := false, selectedProduct := None)
  }

  /** Neither handler touches the product list: what the page lists afterwards
      is what it listed before. */
  lemma HandlersKeepListing(products: seq<SellerProduct>, v: ProductsView, productId: string, st: ProductStatus)
    ensures var r := UpdateProductStatus(v, productId, st);
      FilteredProducts(products, r.searchQuery, r.categoryFilter, r.statusFilter)
      == FilteredProducts(products, v.searchQuery, v.categoryFilter, v.statusFilter)
    ensures var r := DeleteProduct(v, productId);
      FilteredProducts(products, r.searchQuery, r.categoryFilter, r.statusFilter)
      == FilteredProducts(products, v.searchQuery, v.categoryFilter, v.statusFilter)
  {
  }
}
