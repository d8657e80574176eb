/** What the cart store promises its callers: the exact effect of each
    mutation on a well-formed cart, the invariant they all keep, and how the
    derived total and badge follow the cart. */
module CartProperties {
  import opened Types
  import opened Cart
  import JsArray

  /** Adding a product already in the cart raises that one item's quantity by
      exactly one; its other fields stay as stored (they are not refreshed
      from the product passed in), and every other item is untouched. */
  lemma AddToCartExisting(cart: Cart, product: Product, k: int)
    requires UniqueIds(cart)
    requires 0 <= k < |cart| && cart[k].id == product.id
    ensures AddToCart(cart, product) == cart[k := cart[k].(quantity := cart[k].quantity + 1)]
  {
  }

  /** Adding a product not in the cart appends it with quantity one. */
  lemma AddToCartAbsent(cart: Cart, product: Product)
    requires !HasItem(cart, product.id)
    ensures AddToCart(cart, product) == cart + [ItemOf(product, 1)]
  {
  }

  /** `k` successive additions of the same product, each applied to the
      cart the previous one produced. */
  function AddTimes(cart: Cart, product: Product, k: nat): Cart
    decreases k
  {
    if k == 0 then cart else AddTimes(AddToCart(cart, product), product, k - 1)
  }

  /** Adding to a one-item cart that holds the same product. */
  lemma AddToSingleItem(item: CartItem, product: Product)
    requires item.id == product.id
    ensures AddToCart([item], product) == [item.(quantity := item.quantity + 1)]
  {
  }

  /** Further additions to a one-item cart of the same product only raise its quantity. */
  lemma {:induction false} AddTimesToSingleItem(item: CartItem, product: Product, k: nat)
    requires item.id == product.id
    ensures AddTimes([item], product, k) == [item.(quantity := item.quantity + k)]
    decreases k
  {
    if k > 0 {
      var next := item.(quantity := item.quantity + 1);
      AddToSingleItem(item, product);
      assert AddTimes([item], product, k) == AddTimes([next], product, k - 1);
      AddTimesToSingleItem(next, product, k - 1);
      assert next.(quantity := next.quantity + (k - 1)) == item.(quantity := item.quantity + k);
    }
  }

  /** From an empty cart, `k >= 1` additions of one product give a single item
      with quantity `k`. */
  lemma AddRepeatedly(product: Product, k: nat)
    requires k >= 1
    ensures AddTimes([], product, k) == [ItemOf(product, k)]
  {
    AddToCartAbsent([], product);
    assert AddTimes([], product, k) == AddTimes([ItemOf(product, 1)], product, k - 1);
    AddTimesToSingleItem(ItemOf(product, 1), product, k - 1);
  }

  /** Those `k` additions make the total `k` times the price. */
  lemma AddRepeatedlyTotal(product: Product, k: nat)
    requires k >= 1
    ensures CartTotal(AddTimes([], product, k)) == k * product.price
  {
    AddRepeatedly(product, k);
    var item := ItemOf(product, k);
    CartTotalIsSum([item]);
    assert JsArray.SumOf([item], LineTotal) == LineTotal(item) + JsArray.SumOf([item][1..], LineTotal);
  }

  /** Removing a present id deletes exactly that item; the rest keep their order. */
  lemma RemoveFromCartDeletes(cart: Cart, productId: string, k: int)
    requires UniqueIds(cart)
    requires 0 <= k < |cart| && cart[k].id == productId
    ensures RemoveFromCart(cart, productId) == cart[..k] + cart[k+1..]
  {
    var p := NotId(productId);
    forall i | 0 <= i < |cart| && i != k ensures p(cart[i]) {
      assert cart[i].id != productId;
    }
    JsArray.FilterDropsOne(cart, k, p);
  }

  /** Removing an absent id changes nothing. */
  lemma RemoveFromCartAbsent(cart: Cart, productId: string)
    requires !HasItem(cart, productId)
    ensures RemoveFromCart(cart, productId) == cart
  {
    JsArray.FilterKeepsAll(cart, NotId(productId));
  }

  /** A quantity of one or more on a present id replaces just that item's
      quantity; every other item and field is untouched. */
  lemma UpdateQuantitySets(cart: Cart, productId: string, quantity: int, k: int)
    requires UniqueIds(cart)
    requires quantity >= 1
    requires 0 <= k < |cart| && cart[k].id == productId
    ensures UpdateQuantity(cart, productId, quantity) == cart[k := cart[k].(quantity := quantity)]
  {
  }

  /** Updating an absent id changes nothing, whatever the quantity. */
  lemma UpdateQuantityAbsent(cart: Cart, productId: string, quantity: int)
    requires !HasItem(cart, productId)
    ensures UpdateQuantity(cart, productId, quantity) == cart
  {
    if quantity < 1 {
      RemoveFromCartAbsent(cart, productId);
    } else {
      var r := UpdateQuantity(cart, productId, quantity);
      forall i | 0 <= i < |cart| ensures r[i] == cart[i] {
        assert cart[i].id != productId;
      }
    }
  }

  /** The store starts as an empty cart: valid, with total 0 and no badge.
      Every mutation below keeps it valid. */
  lemma InitialCartValid()
    ensures Valid([])
    ensures CartTotal([]) == 0
    ensures Badge([]).None?
  {
  }

  lemma AddToCartPreservesValid(cart: Cart, product: Product)
    requires Valid(cart)
    ensures Valid(AddToCart(cart, product))
  {
  }

  /** Deleting one position keeps distinct ids and positive quantities. */
  lemma DeletePreservesValid(cart: Cart, k: int)
    requires Valid(cart)
    requires 0 <= k < |cart|
    ensures Valid(cart[..k] + cart[k+1..])
  {
  }

  lemma RemoveFromCartPreservesValid(cart: Cart, productId: string)
    requires Valid(cart)
    ensures Valid(RemoveFromCart(cart, productId))
  {
    if k :| 0 <= k < |cart| && cart[k].id == productId {
      RemoveFromCartDeletes(cart, productId, k);
      DeletePreservesValid(cart, k);
    } else {
      RemoveFromCartAbsent(cart, productId);
    }
  }

  lemma UpdateQuantityPreservesValid(cart: Cart, productId: string, quantity: int)
    requires Valid(cart)
    ensures Valid(UpdateQuantity(cart, productId, quantity))
  {
    if quantity < 1 {
      RemoveFromCartPreservesValid(cart, productId);
    } else if k :| 0 <= k < |cart| && cart[k].id == productId {
      UpdateQuantitySets(cart, productId, quantity, k);
    } else {
      UpdateQuantityAbsent(cart, productId, quantity);
    }
  }

  /** The total is the sum of price times quantity over the items. */
  lemma CartTotalIsSum(cart: Cart)
    ensures CartTotal(cart) == JsArray.SumOf(cart, LineTotal)
  {
    JsArray.ReduceAdderIsSum(cart, LineTotal, 0);
  }

  /** The badge number is the sum of the quantities. */
  lemma BadgeCountIsSum(cart: Cart)
    ensures BadgeCount(cart) == JsArray.SumOf(cart, QuantityOf)
  {
    JsArray.ReduceAdderIsSum(cart, QuantityOf, 0);
  }

  /** On a valid cart the badge is shown exactly when there are items, and then
      counts at least one unit per item. */
  lemma BadgeOnValidCart(cart: Cart)
    requires Valid(cart)
    ensures Badge(cart).Some? ==> Badge(cart).value >= |cart| >= 1
  {
    JsArray.SumOfAtLeastLength(cart, QuantityOf);
  }

  /** One addition adds one unit to the badge, and the price of the stored
      item (when present) or of the product (when absent) to the total. */
  lemma AddToCartTotals(cart: Cart, product: Product)
    requires UniqueIds(cart)
    ensures BadgeCount(AddToCart(cart, product)) == BadgeCount(cart) + 1
    ensures forall k :: 0 <= k < |cart| && cart[k].id == product.id ==>
              CartTotal(AddToCart(cart, product)) == CartTotal(cart) + cart[k].price
    ensures !HasItem(cart, product.id) ==>
              CartTotal(AddToCart(cart, product)) == CartTotal(cart) + product.price
  {
    var r := AddToCart(cart, product);
    CartTotalIsSum(cart);
    CartTotalIsSum(r);
    BadgeCountIsSum(cart);
    BadgeCountIsSum(r);
    if k :| 0 <= k < |cart| && cart[k].id == product.id {
      AddToCartExisting(cart, product, k);
      JsArray.SumOfUpdate(cart, k, r[k], LineTotal);
      JsArray.SumOfUpdate(cart, k, r[k], QuantityOf);
      forall j | 0 <= j < |cart| && cart[j].id == product.id
        ensures CartTotal(r) == CartTotal(cart) + cart[j].price
      {
        assert j == k;
      }
    } else {
      AddToCartAbsent(cart, product);
      JsArray.SumOfConcat(cart, [ItemOf(product, 1)], LineTotal);
      JsArray.SumOfConcat(cart, [ItemOf(product, 1)], QuantityOf);
    }
  }

  /** Removing a present item lowers the total by that item's line total and
      the badge by its quantity. */
  lemma RemoveFromCartTotal(cart: Cart, productId: string, k: int)
    requires UniqueIds(cart)
    requires 0 <= k < |cart| && cart[k].id == productId
    ensures CartTotal(RemoveFromCart(cart, productId)) == CartTotal(cart) - cart[k].price * cart[k].quantity
    ensures BadgeCount(RemoveFromCart(cart, productId)) == BadgeCount(cart) - cart[k].quantity
  {
    var rest := cart[..k] + cart[k+1..];
    RemoveFromCartDeletes(cart, productId, k);
    CartTotalIsSum(cart);
    CartTotalIsSum(rest);
    JsArray.SumOfDelete(cart, k, LineTotal);
    BadgeCountIsSum(cart);
    BadgeCountIsSum(rest);
    JsArray.SumOfDelete(cart, k, QuantityOf);
  }

  /** Setting a present item's quantity to `q >= 1` moves the total by
      `price * (q - old quantity)` and the badge by `q - old quantity`. */
  lemma UpdateQuantityTotal(cart: Cart, productId: string, quantity: int, k: int)
    requires UniqueIds(cart)
    requires quantity >= 1
    requires 0 <= k < |cart| && cart[k].id == productId
    ensures CartTotal(UpdateQuantity(cart, productId, quantity))
            == CartTotal(cart) + cart[k].price * (quantity - cart[k].quantity)
    ensures BadgeCount(UpdateQuantity(cart, productId, quantity))
            == BadgeCount(cart) + (quantity - cart[k].quantity)
  {
    var item := cart[k].(quantity := quantity);
    UpdateQuantitySets(cart, productId, quantity, k);
    CartTotalIsSum(cart);
    CartTotalIsSum(cart[k := item]);
    JsArray.SumOfUpdate(cart, k, item, LineTotal);
    BadgeCountIsSum(cart);
    BadgeCountIsSum(cart[k := item]);
    JsArray.SumOfUpdate(cart, k, item, QuantityOf);
  }

  /** Adding the 3500 phone twice leaves one item of quantity two worth 7000. */
  lemma PhoneTwiceScenario(phone: Product)
    requires phone.id == "1" && phone.price == 3500
    ensures AddToCart(AddToCart([], phone), phone) == [ItemOf(phone, 2)]
    ensures CartTotal(AddToCart(AddToCart([], phone), phone)) == 7000
  {
    AddRepeatedly(phone, 2);
    AddRepeatedlyTotal(phone, 2);
    assert AddTimes([], phone, 2) == AddTimes(AddToCart([], phone), phone, 1);
    assert AddTimes(AddToCart([], phone), phone, 1)
        == AddTimes(AddToCart(AddToCart([], phone), phone), phone, 0);
  }

  /** Products priced 450 and 900, then three of the first: 2250. */
  lemma UpdateScenario(first: Product, second: Product)
    requires first.id == "1" && first.price == 450
    requires second.id == "2" && second.price == 900
    ensures CartTotal(UpdateQuantity(AddToCart(AddToCart([], first), second), "1", 3)) == 2250
  {
    var one := AddToCart([], first);
    AddToCartAbsent([], first);
    AddToCartAbsent(one, second);
    var two := AddToCart(one, second);
    assert two == [ItemOf(first, 1), ItemOf(second, 1)];
    UpdateQuantitySets(two, "1", 3, 0);
    var three := UpdateQuantity(two, "1", 3);
    assert three == [ItemOf(first, 3), ItemOf(second, 1)];
    CartTotalIsSum(three);
    assert JsArray.SumOf(three, LineTotal) == LineTotal(three[0]) + JsArray.SumOf(three[1..], LineTotal);
    assert JsArray.SumOf(three[1..], LineTotal) == LineTotal(three[1]) + JsArray.SumOf(three[2..], LineTotal);
  }
}
