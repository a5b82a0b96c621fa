# Cafetería storefront: cart and pricing model

This project models the only logic in the Cafetería storefront: the state that the `App`
component keeps for a shopping session, and the operations that change it. There are three
pieces of state:

- `cart`: the ordered product records the user has added. The same product may appear more than once.
- `promoCode`: the promo text the user has typed.
- `discount`: the flat discount applied so far. It starts at 0.

The operations are these:

- add a product to the end of the cart;
- remove every line with a given product id;
- replace the promo text;
- apply the promo code, which sets the discount to 20 only when the stored text is exactly `CAFE20`;
- compute the total, which is the sum of the line prices minus the discount and is not clamped at zero.

The project has three modules:

- `Products` (`products.dfy`) holds the product record and the fixed six-item catalog.
- `Cart` (`cart.dfy`) holds the pure computations the operations use, with their lemmas. `Sum` is the `reduce` fold. `Without` is the `filter` on id. `Total` is the sum minus the discount.
- `App` (`app.dfy`) holds the class `CartState`, which owns the three fields. Its methods assign the fields, standing for the component's state setters. The module also holds four client methods that run example sessions against those method contracts.

`applyPromoCode` in the code takes no argument: it checks the promo text already stored in
the state. The model does the same. `ApplyPromoCode` reads `promoCode`, and `SetPromoCode`
stores the text. The pop-up alert for an invalid code becomes the `false` result of
`ApplyPromoCode`.

## Model

| member | source | states |
|---|---|---|
| `Products.CatalogWellFormed` | src/App.js:6-13 | the catalog has six entries, ids 1 to 6 in order and pairwise distinct, every price between 40 and 65 |
| `Cart.Without` | src/App.js:25 | the filtered cart holds no line with the id; every other product keeps exactly its multiplicity; the kept lines are a subsequence of the old cart, in their old relative order |
| `Cart.WithoutAbsent` | src/App.js:25 | removing an id that no line has leaves the cart unchanged, order included |
| `Cart.WithoutIdempotent` | src/App.js:25 | removing the same id twice gives the same cart as removing it once |
| `Cart.WithoutRemovesAllInstances` | src/App.js:25 | for distinct products A and B, removing A's id from [A, B, A] leaves [B]: every duplicate goes in one call |
| `Cart.SumAppend` | src/App.js:29 | the price sum of two concatenated carts is the sum of their sums |
| `Cart.SumPush` | src/App.js:21-29 | appending one line raises the sum by exactly that line's price |
| `Cart.SumPermutation` | src/App.js:29 | two carts holding the same lines in any order have the same sum |
| `Cart.SumWithout` | src/App.js:25-29 | removing lines by id never raises the sum |
| `Cart.TotalWithoutDiscount` | src/App.js:28-31 | with discount 0 the total is the plain price sum |
| `Cart.TotalAfterAdd` | src/App.js:20-31 | after adding a product the total rises by exactly its price, whatever the discount |
| `Cart.TotalPermutation` | src/App.js:28-31 | the total does not depend on the order in which lines were added |
| `Cart.TotalNotClamped` | src/App.js:29-30 | the total is negative exactly when the discount exceeds the sum; for an empty cart it is minus the discount |
| `App.CartState.constructor` | src/App.js:16-18 | a session starts with an empty cart, empty promo text and discount 0, and the discount invariant holds |
| `App.CartState.AddToCart` | src/App.js:20-22 | the new cart is the old cart followed by the product: one line longer, earlier lines untouched, no deduplication; promo text and discount unchanged |
| `App.CartState.RemoveFromCart` | src/App.js:24-26 | the new cart is the old one filtered by id: no line with the id remains, other lines keep their counts and order, and the call is a no-op when the id is absent; promo text and discount unchanged |
| `App.CartState.SetPromoCode` | src/App.js:17 | the promo text becomes the given text (the setter the input field calls on every change); cart and discount unchanged |
| `App.CartState.ApplyPromoCode` | src/App.js:33-39 | success exactly when the stored text equals `CAFE20`. On success the discount becomes 20 whatever it was. On failure the discount keeps its old value. Cart and promo text never change, and the discount stays 0 or 20 |
| `App.CartState.CalculateTotal` | src/App.js:28-31 | the returned total plus the discount equals the price sum (so it equals the sum when the discount is 0), it is at least the sum minus 20, and no state changes |
| `App.EndToEndTotal` | src/App.js:20-39 | adding Café Latte (50) and Espresso (40) and applying `CAFE20` gives the total 70 |
| `App.NegativeTotalAfterRemoval` | src/App.js:24-39 | adding Espresso, applying `CAFE20` and removing Espresso leaves an empty cart with the discount still 20 and total −20 |
| `App.RejectedCodeKeepsDiscount` | src/App.js:33-39 | after a successful `CAFE20`, the lower-case `cafe20` is rejected, the discount of 20 stays and the cart still holds only Cappuccino (60), so the total is 40 |
| `App.DuplicateRemoval` | src/App.js:20-26 | adding Café Latte, Cappuccino, Café Latte and removing Café Latte's id leaves only Cappuccino in the cart |

## Left out

- The routing and the view components (`Router`, `Routes`, `Link`, and `Home`, `Catalog`, `About`, `Cart`) are presentation. They hold no state of the core.
- The `alert` shown for an invalid promo code is a browser side effect. It is modelled only as the `false` result of `ApplyPromoCode`.
- The React `useState` hook is not modelled. That includes batched, asynchronous state updates and stale reads of `cart` inside closures. Each operation is modelled as one atomic read-then-write of the state.
- Image URLs and CSS are display data and are not modelled. Product names are kept only so that cart lines are whole records.
- The "Comprar" checkout button has no handler, so there is nothing to model.
- Prices are JavaScript numbers in the code. Here they are natural numbers, because every catalog price is a non-negative integer. Floating-point sums are therefore not modelled.
- Ids are modelled as integers, and removal compares them with integer equality. The code uses `!==` between two JavaScript numbers, which gives the same result for the integer ids the catalog uses.
