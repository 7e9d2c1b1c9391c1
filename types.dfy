/** The storefront's record shapes. Money is an exact `real` (the source's
    JavaScript numbers, without floating-point rounding); instants are
    millisecond timestamps (`Date.now()`), passed in by the caller. */
module Types {

  datatype Option<T> = None | Some(value: T)

  /** Milliseconds since the epoch, as `Date.now()` returns them. */
  type Timestamp = nat

  datatype Seller = Seller(name: string, rating: real, followers: int)

  /** A catalog product. `price` is always present; `originalPrice`,
      `discount` and `tags` are optional. */
  datatype Product = Product(
    id: string,
    name: string,
    price: real,
    originalPrice: Option<real>,
    image: string,
    images: seq<string>,
    rating: real,
    reviews: int,
    sold: int,
    category: string,
    description: string,
    discount: Option<real>,
    tags: Option<seq<string>>,
    seller: Seller)

  datatype Category = Category(id: string, name: string, icon: string, image: string)

  /** One cart line: a product, an integer quantity and the selection flag. */
  datatype CartItem = CartItem(product: Product, quantity: int, selected: bool)

  datatype Address = Address(
    id: string,
    name: string,
    phone: string,
    address: string,
    city: string,
    state: string,
    zipCode: string,
    isDefault: bool)

  datatype PaymentKind = Card | Paypal | Bank

  datatype PaymentMethod = PaymentMethod(
    id: string,
    kind: PaymentKind,
    name: string,
    details: string,
    isDefault: bool)

  datatype OrderStatus = Pending | Confirmed | Shipped | Delivered | Cancelled

  /** The status as the source spells it. */
  function StatusName(s: OrderStatus): string {
    match s
    case Pending => "pending"
    case Confirmed => "confirmed"
    case Shipped => "shipped"
    case Delivered => "delivered"
    case Cancelled => "cancelled"
  }

  /** A placed order: a snapshot of the selected lines with its amounts.
      `createdAt` and `estimatedDelivery` are the instants that the source
      formats with `toISOString`. */
  datatype Order = Order(
    id: string,
    items: seq<CartItem>,
    total: real,
    subtotal: real,
    tax: real,
    shipping: real,
    status: OrderStatus,
    address: Address,
    paymentMethod: PaymentMethod,
    createdAt: Timestamp,
    estimatedDelivery: Timestamp,
    trackingNumber: Option<string>)

  /** The logged-in user (the auth context's user record). */
  datatype AuthUser = AuthUser(id: string, name: string, email: string, avatar: string, phone: string)

  /** A product review as the product page lists it. */
  datatype Review = Review(
    id: string,
    productId: string,
    userId: string,
    userName: string,
    userAvatar: string,
    rating: int,
    title: string,
    comment: string,
    createdAt: Timestamp,
    helpful: int,
    images: seq<string>)

  /** The review form's fields. */
  datatype ReviewFormData = ReviewFormData(rating: int, title: string, comment: string, images: seq<string>)

  /** Distinct statuses have distinct names, so filtering by name is filtering by status. */
  lemma StatusNameInjective(a: OrderStatus, b: OrderStatus)
    requires StatusName(a) == StatusName(b)
    ensures a == b
  {
  }
}
