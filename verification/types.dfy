/** The shapes the storefront works on. A TypeScript string-literal union
    becomes an enumeration together with its literal spelling (`…Name`) and
    the partial inverse (`Parse…`) that accepts exactly those literals. */
module Types {
  import opened Wrappers

  /** `'user' | 'admin'` */
  datatype UserRole = User | Admin

  function RoleName(role: UserRole): string
  {
    match role
    case User => "user"
    case Admin => "admin"
  }

  /** Accepts exactly the two spellings of the union, each naming its own role. */
  function ParseRole(s: string): (r: Option<UserRole>)
    ensures r.Some? <==> s == "user" || s == "admin"
    ensures r.Some? ==> RoleName(r.value) == s
  {
    if s == "user" then Some(User)
    else if s == "admin" then Some(Admin)
    else None
  }

  datatype UserProfile = UserProfile(
    uid: string,
    email: string,
    displayName: string,
    role: UserRole,
    createdAt: int)

  datatype Product = Product(
    id: string,
    name: string,
    price: int,
    description: string,
    category: string,
    imageUrl: string,
    featured: bool,
    stock: int)

  /** `CartItem extends Product`: every product field, then the quantity. */
  datatype CartItem = CartItem(
    id: string,
    name: string,
    price: int,
    description: string,
    category: string,
    imageUrl: string,
    featured: bool,
    stock: int,
    quantity: int)

  /** `{ ...product, quantity }` */
  function ItemOf(p: Product, quantity: int): CartItem
  {
    CartItem(p.id, p.name, p.price, p.description, p.category, p.imageUrl,
             p.featured, p.stock, quantity)
  }

  /** The `Product` part of a cart item. */
  function ProductOf(it: CartItem): Product
  {
    Product(it.id, it.name, it.price, it.description, it.category, it.imageUrl,
            it.featured, it.stock)
  }

  /** A cart item is a product and a quantity, and nothing more: the two
      conversions are mutually inverse. */
  lemma ItemProductRoundTrip(p: Product, quantity: int, it: CartItem)
    ensures ProductOf(ItemOf(p, quantity)) == p
    ensures ItemOf(p, quantity).quantity == quantity
    ensures ItemOf(ProductOf(it), it.quantity) == it
  {
  }

  /** `'pending' | 'processing' | 'shipped' | 'delivered' | 'cancelled'` */
  datatype OrderStatus = Pending | Processing | Shipped | Delivered | Cancelled

  function StatusName(s: OrderStatus): string
  {
    match s
    case Pending => "pending"
    case Processing => "processing"
    case Shipped => "shipped"
    case Delivered => "delivered"
    case Cancelled => "cancelled"
  }

  /** Accepts exactly the five spellings of the union, each naming its own status. */
  function ParseStatus(s: string): (r: Option<OrderStatus>)
    ensures r.Some? <==> s in {"pending", "processing", "shipped", "delivered", "cancelled"}
    ensures r.Some? ==> StatusName(r.value) == s
  {
    if s == "pending" then Some(Pending)
    else if s == "processing" then Some(Processing)
    else if s == "shipped" then Some(Shipped)
    else if s == "delivered" then Some(Delivered)
    else if s == "cancelled" then Some(Cancelled)
    else None
  }

  /** The literal type `'COD'`: cash on delivery is the only payment method. */
  datatype PaymentMethod = COD

  function PaymentMethodName(m: PaymentMethod): string
  {
    "COD"
  }

  function ParsePaymentMethod(s: string): (r: Option<PaymentMethod>)
    ensures r.Some? <==> s == "COD"
    ensures r.Some? ==> PaymentMethodName(r.value) == s
  {
    if s == "COD" then Some(COD) else None
  }

  /** Every spelling round-trips through its parser, and the spellings of
      distinct values differ, so each union has exactly the listed members. */
  lemma LiteralUnionsRoundTrip(role: UserRole, status: OrderStatus, pay: PaymentMethod)
    ensures ParseRole(RoleName(role)) == Some(role)
    ensures ParseStatus(StatusName(status)) == Some(status)
    ensures ParsePaymentMethod(PaymentMethodName(pay)) == Some(pay)
    ensures forall other: OrderStatus :: StatusName(other) == StatusName(status) ==> other == status
  {
  }

  /** An order: `notes` is the one optional field. */
  datatype Order = Order(
    id: string,
    userId: string,
    userEmail: string,
    items: seq<CartItem>,
    total: int,
    customerName: string,
    phone: string,
    address: string,
    notes: Option<string>,
    paymentMethod: PaymentMethod,
    status: OrderStatus,
    createdAt: int)

  datatype Category = Category(id: string, name: string)
}
