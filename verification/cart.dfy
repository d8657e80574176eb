/** The cart store: an ordered sequence of cart items keyed by product id,
    its four mutations as state transitions from the previous cart to the
    next, and the two values derived from it (the total and the navbar badge). */
module Cart {
  import opened Wrappers
  import opened Types
  import JsArray

  type Cart = seq<CartItem>

  /** Some item of the cart carries the id. */
  predicate HasItem(cart: Cart, id: string)
  {
    exists i :: 0 <= i < |cart| && cart[i].id == id
  }

  /** No two items share a product id. */
  predicate UniqueIds(cart: Cart)
  {
    forall i, j :: 0 <= i < j < |cart| ==> cart[i].id != cart[j].id
  }

  /** Every quantity is at least one. */
  predicate PositiveQuantities(cart: Cart)
  {
    forall i :: 0 <= i < |cart| ==> cart[i].quantity >= 1
  }

  /** The invariant the store keeps. */
  predicate Valid(cart: Cart)
  {
    UniqueIds(cart) && PositiveQuantities(cart)
  }

  /** `item => item.id === id` */
  function HasId(id: string): CartItem -> bool
  {
    (it: CartItem) => it.id == id
  }

  /** `item => item.id !== id` */
  function NotId(id: string): CartItem -> bool
  {
    (it: CartItem) => it.id != id
  }

  /** `item => item.id === id ? { ...item, quantity: item.quantity + 1 } : item` */
  function BumpIfId(id: string): CartItem -> CartItem
  {
    (it: CartItem) => if it.id == id then it.(quantity := it.quantity + 1) else it
  }

  /** `item => item.id === id ? { ...item, quantity } : item` */
  function SetIfId(id: string, quantity: int): CartItem -> CartItem
  {
    (it: CartItem) => if it.id == id then it.(quantity := quantity) else it
  }

  /** Adds one unit of `product`: the items keep their ids and order, and the
      cart grows by one item, the product with quantity one, exactly when the
      product was not in it. */
  function AddToCart(cart: Cart, product: Product): (r: Cart)
    ensures |r| == if HasItem(cart, product.id) then |cart| else |cart| + 1
    ensures forall i :: 0 <= i < |cart| ==> r[i].id == cart[i].id
    ensures !HasItem(cart, product.id) ==> r[|cart|] == ItemOf(product, 1)
  {
    if JsArray.Find(cart, HasId(product.id)).Some? then
      JsArray.Map(cart, BumpIfId(product.id))
    else
      cart + [ItemOf(product, 1)]
  }

  /** Drops every item with the id and keeps every other item. */
  function RemoveFromCart(cart: Cart, productId: string): (r: Cart)
    ensures !HasItem(r, productId)
    ensures multiset(r) <= multiset(cart)
    ensures forall i :: 0 <= i < |cart| && cart[i].id != productId ==> cart[i] in r
  {
    JsArray.FilterKeepsMatches(cart, NotId(productId));
    JsArray.Filter(cart, NotId(productId))
  }

  /** Sets an absolute quantity; anything below one removes the item. Ids,
      order and the non-quantity fields stay where they were. */
  function UpdateQuantity(cart: Cart, productId: string, quantity: int): (r: Cart)
    ensures quantity < 1 ==> r == RemoveFromCart(cart, productId)
    ensures quantity >= 1 ==> |r| == |cart|
    ensures quantity >= 1 ==> forall i :: 0 <= i < |cart| ==>
              ProductOf(r[i]) == ProductOf(cart[i])
              && r[i].quantity == (if cart[i].id == productId then quantity else cart[i].quantity)
  {
    if quantity < 1 then RemoveFromCart(cart, productId)
    else JsArray.Map(cart, SetIfId(productId, quantity))
  }

  /** `setCart([])`: whatever the cart held, it is now empty, valid, and
      worth nothing. */
  function ClearCart(cart: Cart): (r: Cart)
    ensures |r| == 0 && Valid(r)
    ensures CartTotal(r) == 0
  {
    []
  }

  /** The amount one item contributes to the total. */
  function LineTotal(it: CartItem): int
  {
    it.price * it.quantity
  }

  function QuantityOf(it: CartItem): int
  {
    it.quantity
  }

  /** `cart.reduce((acc, item) => acc + item.price * item.quantity, 0)`,
      recomputed from the cart on every read. */
  function CartTotal(cart: Cart): int
  {
    JsArray.Reduce(cart, JsArray.Adder(LineTotal), 0)
  }

  /** `cart.reduce((acc, item) => acc + item.quantity, 0)`: the badge number. */
  function BadgeCount(cart: Cart): int
  {
    JsArray.Reduce(cart, JsArray.Adder(QuantityOf), 0)
  }

  /** The navbar badge: shown only for a non-empty cart, with the number of units. */
  function Badge(cart: Cart): (r: Option<int>)
    ensures r.Some? <==> |cart| > 0
    ensures r.Some? ==> r.value == JsArray.SumOf(cart, QuantityOf)
  {
    if |cart| > 0 then
      JsArray.ReduceAdderIsSum(cart, QuantityOf, 0);
      Some(BadgeCount(cart))
    else None
  }
}
