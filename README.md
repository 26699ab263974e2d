# Shopping-cart state of the RocketShoes storefront, in Dafny

This project models the cart provider of a React storefront (`src/hooks/useCart.tsx`).
The provider holds the cart: an ordered list of products, each with an id and an amount in the cart.
It offers three operations:

- **addProduct** fetches the product and its remote stock. With stock left, it writes stock - 1 back to the stock endpoint. Then it puts the product at the front of the cart with amount 1, or adds 1 to the entry already there.
- **removeProduct** drops every entry with the id.
- **updateProductAmount** fetches the stock and returns quietly when it is below 1. Otherwise it sets the entry's amount to the requested one and writes that amount to the stock endpoint.

Each operation then saves the cart to local storage, and each one shows an error toast when anything in it throws.

The model has two modules:

- `CartItems` (`cart_items.dfy`) holds the `Product` value and the pure list computations the operations use. These are `some` (`HasId`), the two `map`s (`Incremented`, `WithAmount`) and `filter` (`Without`). It also holds the lemmas about them: order kept, absent ids, idempotence, remove undoing an add, and unique ids preserved.
- `UseCart` (`cart_provider.dfy`) holds the class `CartProvider`, whose `cart` field is the provider's state. It has one method per operation, and each method's `ensures` gives the new cart, branch by branch.
  - The inputs are what the outside world answers: the fetched product and stock records (`None` when a request fails), whether the stock PUT succeeds, and whether the storage write succeeds.
  - The outputs are the effects: the amount sent in the stock PUT, the toasts shown in order, and the snapshot written to storage.

The model follows the code as written, including these behaviours a shopper would not expect:

- `updateProductAmount` does not refuse an amount above the stock. It shows the out-of-stock toast and applies and sends the amount anyway.
- Nothing refuses an amount below 1.
- The snapshot saved to storage is the cart as it was before the operation, not the new cart.
- In `addProduct` the stock PUT comes before the cart changes, so a failed PUT leaves the cart alone. In `updateProductAmount` the cart changes before the PUT, so a failed PUT leaves the cart changed, with an error toast.
- The entry that `addProduct` prepends takes its id from the fetched product record, not from the requested id. Ids stay unique only if the server returns the record for the id that was asked for. `AddProduct` states this as a hypothesis of its uniqueness postcondition.

The three methods `AmountAboveStockIsApplied`, `AmountBelowOneIsApplied` and `SavedSnapshotIsStale` run the provider on concrete inputs and exhibit these behaviours.

## Model

| member | source | states |
|---|---|---|
| CartItems.HasId | src/hooks/useCart.tsx:44 | the result is true exactly when some entry of the cart has the id |
| CartItems.Incremented | src/hooks/useCart.tsx:49-52 | same length and ids; every entry with the id has its amount raised by exactly 1 and nothing else changed; every other entry is identical |
| CartItems.WithAmount | src/hooks/useCart.tsx:82-84 | same length and ids; every entry with the id gets the requested amount, whatever it is; every other entry is identical |
| CartItems.Without | src/hooks/useCart.tsx:65 | a product is in the result exactly when it is in the cart with another id; no entry with the id is left; the cart never grows |
| CartItems.WithoutCounts | src/hooks/useCart.tsx:65 | every entry with another id is kept as many times as it occurs in the cart, and every entry with the id is dropped (with `WithoutKeepsOrder` this fixes the filtered cart completely) |
| CartItems.WithoutKeepsOrder | src/hooks/useCart.tsx:65 | the entries the filter keeps stay in their relative order (the result is a subsequence of the cart) |
| CartItems.WithoutAbsent | src/hooks/useCart.tsx:65 | removing an id that is not in the cart leaves the cart unchanged |
| CartItems.WithoutPresentShrinks | src/hooks/useCart.tsx:65 | removing an id that is in the cart makes it strictly shorter |
| CartItems.WithoutIdempotent | src/hooks/useCart.tsx:65 | removing an id twice is the same as removing it once |
| CartItems.RemoveUndoesPrepend | src/hooks/useCart.tsx:47-65 | removing the id of a product just prepended to a cart without that id gives back the cart as it was |
| CartItems.PrependKeepsUnique | src/hooks/useCart.tsx:44-47 | prepending a product whose id is not in a cart with unique ids keeps ids unique |
| CartItems.WithoutKeepsUnique | src/hooks/useCart.tsx:65 | filtering a cart with unique ids keeps ids unique |
| CartItems.SameIdsSameUniqueness | src/hooks/useCart.tsx:49-52 | two carts with the same ids in the same places are both unique or both not, so the two maps preserve uniqueness |
| CartItems.WithAmountAbsent | src/hooks/useCart.tsx:82-84 | setting the amount of an id that is not in the cart changes nothing (the stock is still written) |
| CartItems.WithAmountIdempotent | src/hooks/useCart.tsx:82-84 | setting the same amount twice is the same as setting it once |
| UseCart.CartProvider.constructor | src/hooks/useCart.tsx:25-31 | the initial cart is the saved cart when one is saved, otherwise empty |
| UseCart.CartProvider.AddProduct | src/hooks/useCart.tsx:34-61 | a failed fetch changes nothing, sends nothing and shows the add-error toast. Stock of 0 or less leaves the cart, sends nothing and shows the out-of-stock toast. With stock, it sends exactly stock - 1, and a failed PUT leaves the cart unchanged. After a successful PUT, a new id is prepended with amount 1, otherwise exactly the matching entry's amount rises by 1. The old snapshot is saved, and ids stay unique |
| UseCart.CartProvider.RemoveProduct | src/hooks/useCart.tsx:63-71 | the new cart is the filtered cart: no entry has the id, the others keep their order, an absent id leaves the cart unchanged, and ids stay unique. The old snapshot is saved, and a failed save shows the remove-error toast |
| UseCart.CartProvider.UpdateProductAmount | src/hooks/useCart.tsx:73-91 | a failed fetch changes nothing and shows the update-error toast. Stock below 1 returns silently with nothing changed or sent. Otherwise every entry with the id gets the amount, even above stock (out-of-stock toast) or below 1. The amount itself is sent to the stock endpoint, and a failed PUT or save leaves the new cart with the update-error toast. Ids stay unique |
| UseCart.AmountAboveStockIsApplied | src/hooks/useCart.tsx:80-86 | with stock 2, a requested amount 5 is applied to the cart and sent to the stock endpoint, with only the out-of-stock toast |
| UseCart.AmountBelowOneIsApplied | src/hooks/useCart.tsx:80-86 | a requested amount 0 is applied and sent without any toast |
| UseCart.SavedSnapshotIsStale | src/hooks/useCart.tsx:41-57 | after adding a product to an empty cart, the cart holds it with amount 1 but the saved snapshot is the empty cart |

## Left out

- React wiring (the context, `useState`, the provider element and the `useCart` hook): the cart is a field of the class, and each `setCart` call is an assignment to it.
- HTTP calls: each GET is an input that is either the record or a failure, and each PUT is an input saying whether it succeeded. Nothing about the inventory service itself is modelled.
- Local storage and JSON: reading the saved cart is an optional input to the constructor, and the write is an output plus an input saying whether it succeeded. Parsing and serialisation are not modelled, and neither is a saved value that does not parse.
- Toasts: each toast is a tag (`Toast`): out of stock, or a failed add, remove or update. Neither the message texts nor the toast library are modelled.
- Concurrent calls: each operation runs to completion before the next one starts. The model does not capture interleaved async operations that act on a stale `cart` closure.
- Object aliasing: products are values. In the code, `item.amount += 1` (src/hooks/useCart.tsx:51) also changes the matching object in the old cart array. That array is the snapshot that is then saved, so in the increment branch the saved JSON shows the raised amount. The model's saved snapshot is the old cart as values. (`currentStock.amount -= 1` at line 42 changes only the fetched stock record, which is never a cart entry, so it has no effect on the cart.)
- Number representation: ids, amounts and stock are unbounded integers, not JavaScript floating-point numbers. `src/types` is not part of this model; the product's display fields are represented by a title, a price and an image, which no operation reads.
