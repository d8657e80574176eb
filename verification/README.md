# Storefront cart and session stores, modelled in Dafny

This project models the state logic of a small single-page storefront: the
**cart store** (`CartProvider`), which keeps an ordered list of cart items keyed
by product id and offers `addToCart`, `removeFromCart`, `updateQuantity`,
`clearCart` and the derived `cartTotal`; the navbar **badge**, the number of
units in the cart; and the mocked **auth store** (`AuthProvider`), whose
session is a user profile or nothing and whose `login` derives the user's role
and display name from the email address.

Every store action is a pure function from the previous state to the next. The
cart is a `seq<CartItem>`; the session is an `Option<UserProfile>`.

- `wrappers.dfy` — `Option`, standing for `null`, `undefined` and optional fields.
- `js_array.dfy` (`JsArray`) — `map`, `filter`, `find` and `reduce` as recursive
  functions over sequences, with the reference sum `SumOf` and lemmas about it.
- `types.dfy` (`Types`) — the records and string-literal unions of `types.ts`.
  Each union (`UserRole`, `OrderStatus`, the `'COD'` payment method) is an
  enumeration with its spelling and a parser that accepts exactly those
  literals. `CartItem` repeats every `Product` field and adds `quantity`, as
  `extends` does. In `Order`, `notes` is the only `Option` field. `Category`
  (types.ts:44-47) is declared, but no store uses it.
- `cart.dfy` (`Cart`) — the cart actions, written with the same
  `find`/`map`/`filter`/`reduce` steps as the source, plus the invariant
  `Valid`: product ids are unique and every quantity is at least 1.
- `cart_properties.dfy` (`CartProperties`) — for each action, its exact effect
  on a cart with unique ids, the fact that it keeps `Valid`, and how it moves
  the total and the badge.
- `auth.dfy` (`JsString`, `Auth`) — `String.prototype.includes` and
  `split('@')[0]`, each proved against an independent characterisation, and
  the session transitions.

The model follows what the code does, even where the code itself points at
something more:

- `types.ts:29-42` declares an `Order` record, but the checkout handler
  (`App.tsx:268-276`) never builds one. After a timer it only calls
  `clearCart`, so `Order` is declared here and no operation produces one.
- The comment at `App.tsx:467` marks `login` as a stand-in for a real identity
  provider. As written, `login` and `register` succeed for every input and
  ignore the password, and so does the model.

## Model

| member | source | states |
|---|---|---|
| JsArray.Map | App.tsx:441 | `map` keeps the length and puts `f(s[i])` at every position `i` |
| JsArray.Filter | App.tsx:445 | every element `filter` keeps satisfies the predicate, and the result is a sub-multiset of the input |
| JsArray.FilterKeepsMatches | App.tsx:445 | no element that satisfies the predicate is dropped |
| JsArray.FilterConcat | App.tsx:445 | filtering a concatenation is the concatenation of the filtered parts, so relative order is kept |
| JsArray.FilterCount | App.tsx:445 | each value keeps all its occurrences when it satisfies the predicate and none otherwise; with `FilterConcat` this settles both repeats and order |
| JsArray.Find | App.tsx:440 | `find` returns a value exactly when some element matches, and that value is a matching element of the array |
| JsArray.FindIsFirst | App.tsx:440 | when position `i` matches and no earlier position does, `find` returns the element at `i`: the first match |
| JsArray.ReduceAdderIsSum | App.tsx:451 | a left fold with `(acc, x) => acc + w(x)` from `acc` equals `acc` plus the sum of `w` over the array |
| Types.ParseRole | types.ts:2 | the role type admits exactly the literals `'user'` and `'admin'`, and each literal names its own role |
| Types.ItemProductRoundTrip | types.ts:12-25 | a cart item is exactly a product plus a quantity: the product part of `{...p, quantity}` is `p`, and rebuilding an item from its product part and quantity gives the item back |
| Types.ParseStatus | types.ts:27 | the order status admits exactly the five literals pending, processing, shipped, delivered and cancelled, and each names its own status |
| Types.ParsePaymentMethod | types.ts:39 | the payment method admits only the literal `'COD'` |
| Types.LiteralUnionsRoundTrip | types.ts:27-40 | every role, status and payment method parses back from its spelling, and distinct statuses have distinct spellings |
| Cart.AddToCart | App.tsx:438-443 | adding keeps every existing item's id at its position; the cart grows by one item exactly when the product was absent, and the new last item is the product with quantity 1 |
| Cart.RemoveFromCart | App.tsx:445 | after removal no item carries the id, every remaining item comes from the old cart, and every item with another id survives |
| Cart.UpdateQuantity | App.tsx:446-449 | a quantity below 1 is the same as removing the id; otherwise the length and every product field stay the same, the items with the id get exactly the new quantity, and the other quantities are unchanged |
| Cart.ClearCart | App.tsx:450-451 | whatever the cart held, clearing leaves it empty, valid and with total 0 |
| Cart.Badge | App.tsx:64-66 | the badge is shown exactly when the cart is non-empty, and then shows the sum of the quantities |
| CartProperties.AddToCartExisting | App.tsx:440-441 | adding a product that is already present raises that one item's quantity by exactly 1; its stored fields are not refreshed from the argument, and every other item stays in place unchanged |
| CartProperties.AddToCartAbsent | App.tsx:442 | adding an absent product appends the product with quantity 1 after the old items |
| CartProperties.AddRepeatedly | App.tsx:438-442 | from an empty cart, k >= 1 additions of one product give exactly one item, that product with quantity k |
| CartProperties.AddRepeatedlyTotal | App.tsx:438-451 | after those k additions the total is k times the product's price |
| CartProperties.RemoveFromCartDeletes | App.tsx:445 | removing a present id from a cart with unique ids deletes exactly that item and keeps the others in order |
| CartProperties.RemoveFromCartAbsent | App.tsx:445 | removing an id that is absent leaves the cart unchanged |
| CartProperties.UpdateQuantitySets | App.tsx:448 | with a quantity >= 1 and a present id, only that item changes, and only its quantity, which becomes exactly the given value |
| CartProperties.UpdateQuantityAbsent | App.tsx:446-448 | updating an id that is absent leaves the cart unchanged, whatever the quantity |
| CartProperties.InitialCartValid | App.tsx:437 | the store's starting cart, the empty one, satisfies the invariant, has total 0 and shows no badge |
| CartProperties.AddToCartPreservesValid | App.tsx:438-443 | adding keeps ids unique and every quantity at least 1 |
| CartProperties.DeletePreservesValid | App.tsx:445 | deleting one position keeps ids unique and quantities at least 1 |
| CartProperties.RemoveFromCartPreservesValid | App.tsx:445 | removing keeps ids unique and every quantity at least 1 |
| CartProperties.UpdateQuantityPreservesValid | App.tsx:446-449 | updating to any integer keeps ids unique and every quantity at least 1 |
| CartProperties.CartTotalIsSum | App.tsx:451 | the total is the sum of price times quantity over the items |
| CartProperties.BadgeCountIsSum | App.tsx:66 | the badge number is the sum of the quantities |
| CartProperties.BadgeOnValidCart | App.tsx:64-66 | on a valid cart, a visible badge shows at least one unit per item |
| CartProperties.AddToCartTotals | App.tsx:438-451 | one addition adds 1 to the badge; the total grows by the stored item's price when the product is present, and by the product's price when it is absent |
| CartProperties.RemoveFromCartTotal | App.tsx:445-451 | removing a present item lowers the total by that item's price times quantity, and the badge by its quantity |
| CartProperties.UpdateQuantityTotal | App.tsx:448-451 | setting a present item's quantity to q >= 1 changes the total by price times (q minus the old quantity), and the badge by q minus the old quantity |
| CartProperties.PhoneTwiceScenario | App.tsx:438-451 | adding the product with id "1" and price 3500 twice gives one item with quantity 2 and a total of 7000 |
| CartProperties.UpdateScenario | App.tsx:438-451 | adding products at 450 and 900, then setting the first one's quantity to 3, gives a total of 2250 |
| JsString.IncludesIffOccurs | App.tsx:468 | `includes` is true exactly when the substring occurs at some position |
| JsString.BeforeFirst | App.tsx:469 | `split('@')[0]` is a prefix of the string without '@', and it stops at the end of the string or at an '@' |
| JsString.BeforeFirstUnique | App.tsx:469 | those three facts determine the piece: any such prefix is the first piece |
| Auth.Login | App.tsx:466-470 | login always opens a session, with the given email and the current clock reading |
| Auth.LoginWithGoogle | App.tsx:472-477 | Google login opens a session for an ordinary user |
| Auth.Register | App.tsx:479-481 | registration opens a session for an ordinary user, with the given email and the given name as display name |
| Auth.Logout | App.tsx:483 | logout leaves no session, whatever the session was before |
| Auth.IsAdmin | App.tsx:484 | `isAdmin` holds exactly when there is a user and that user's role is admin |
| Auth.LoginAdminIff | App.tsx:468-469 | after login the role is admin, and `isAdmin` holds, exactly when the email contains "admin" |
| Auth.LoginDisplayName | App.tsx:469 | the display name after login is the part of the email before the first '@', or the whole email when it has no '@' |
| Auth.OnlyLoginGrantsAdmin | App.tsx:472-484 | Google login and registration never produce an admin, and after logout `isAdmin` is false |

## Left out

- Rendering, styling, the menu toggle, the admin tab state and the hash router. They are presentation and navigation, not store logic.
- The custom `useParams` hook (App.tsx:519-528). It reads `window.location` inside an effect.
- The timed product loading (App.tsx:137-148), the hard-coded catalogue and the commented-out Firebase integration. They are fixed data and timers.
- Checkout submission (App.tsx:268-276). After a timer it sets UI flags and calls `clearCart`. Its effect on the cart is `Cart.ClearCart`.
- The `loading` flag and the Promise wrappers of the auth store. Each action is modelled as its final state change.
- `Date.now()` is not modelled. Its reading is the parameter `now`.
- Floating-point `number` is not modelled. Price, quantity and stock are integers, so NaN and fractional quantities are not covered.
- Stock limits. `addToCart` never compares against `stock`, and neither does the model.
- JsArray.Filter: its own contract does not state order or repeats. `FilterConcat` states that order is kept, and `FilterCount` states the number of copies of each value. On carts with unique ids, `CartProperties.RemoveFromCartDeletes` gives the exact in-order result of `removeFromCart`.
- Cart.AddToCart: its contract does not say the product is in the cart afterwards. That follows from its id-preservation clause and the appended item. Stating it directly sent the solver into a matching loop when `AddToCart` calls were nested.
