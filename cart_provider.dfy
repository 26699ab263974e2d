/** The cart provider: the cart state it holds and its three operations,
    add a product, remove a product and update a product's amount.

    Every answer from outside is a parameter: the product and stock records
    fetched from the inventory API (`None` when the request fails), whether
    the stock PUT succeeds, and whether the write to local storage succeeds.
    Every effect on the outside is a result: the amount sent in the stock
    PUT, the toasts shown in order, and the cart snapshot written to local
    storage. */
module UseCart {
  import opened CartItems

  datatype Option<T> = None | Some(value: T)

  /** The error toasts the provider shows: out of stock, and a failure of
      the add, the remove or the update. */
  datatype Toast = OutOfStock | AddFailed | RemoveFailed | UpdateFailed

  class CartProvider {
    /** The cart state, most recently added product first. */
    var cart: seq<Product>

    /** The initial state: the cart saved in local storage, or an empty cart
        when nothing is saved there. */
    constructor (saved: Option<seq<Product>>)
      ensures saved.Some? ==> cart == saved.value
      ensures saved.None? ==> cart == []
    {
      if saved.Some? {
        cart := saved.value;
      } else {
        cart := [];
      }
    }

    /** Adds one unit of `productId`. Fetches the product and then its stock;
        with stock left, sends stock - 1 to the stock endpoint and, once that
        succeeded, puts the product at the front with amount 1 or raises the
        amount of the entry already there by 1. The snapshot saved is the cart
        as it was before the call. Any failed request ends in the add-error
        toast; so does a failed storage write, after the cart has changed. */
    method AddProduct(productId: int, productReply: Option<Product>, stockReply: Option<int>,
                      putOk: bool, storageOk: bool)
      returns (sent: Option<int>, toasts: seq<Toast>, stored: Option<seq<Product>>)
      modifies this
      // a failed product or stock request: nothing changes and nothing is sent or saved
      ensures productReply.None? || stockReply.None? ==>
        cart == old(cart) && sent == None && toasts == [AddFailed] && stored == None
      // out of stock: the cart stays, nothing is sent, the snapshot is saved
      ensures productReply.Some? && stockReply.Some? && stockReply.value <= 0 ==>
        && cart == old(cart) && sent == None
        && toasts == [OutOfStock] + (if storageOk then [] else [AddFailed])
        && stored == (if storageOk then Some(old(cart)) else None)
      // in stock: stock - 1 is sent before the cart changes
      ensures productReply.Some? && stockReply.Some? && stockReply.value > 0 ==>
        sent == Some(stockReply.value - 1)
      ensures productReply.Some? && stockReply.Some? && stockReply.value > 0 && !putOk ==>
        cart == old(cart) && toasts == [AddFailed] && stored == None
      ensures productReply.Some? && stockReply.Some? && stockReply.value > 0 && putOk ==>
        && (!HasId(old(cart), productId) ==> cart == [productReply.value.(amount := 1)] + old(cart))
        && (HasId(old(cart), productId) ==> cart == Incremented(old(cart), productId))
        && toasts == (if storageOk then [] else [AddFailed])
        && stored == (if storageOk then Some(old(cart)) else None)
      // ids stay unique, provided the product record has the id that was asked for
      ensures UniqueIds(old(cart)) && (productReply.Some? ==> productReply.value.id == productId) ==>
        UniqueIds(cart)
    {
      sent, toasts, stored := None, [], None;
      if productReply.None? {
        toasts := [AddFailed];
        return;
      }
      var productToAdd := productReply.value;
      if stockReply.None? {
        toasts := [AddFailed];
        return;
      }
      var snapshot := cart;
      if stockReply.value > 0 {
        sent := Some(stockReply.value - 1);
        if !putOk {
          toasts := [AddFailed];
          return;
        }
        if !HasId(snapshot, productId) {
          cart := [productToAdd.(amount := 1)] + snapshot;
          if UniqueIds(snapshot) && productToAdd.id == productId {
            PrependKeepsUnique(snapshot, productToAdd.(amount := 1));
          }
        } else {
          cart := Incremented(snapshot, productId);
          SameIdsSameUniqueness(snapshot, cart);
        }
      } else {
        toasts := [OutOfStock];
      }
      if !storageOk {
        toasts := toasts + [AddFailed];
        return;
      }
      stored := Some(snapshot);
    }

    /** Drops every entry with `productId`, keeping the others in order; an
        absent id leaves the cart as it was. The snapshot saved is the cart as
        it was before the call; a failed storage write, after the cart has
        changed, ends in the remove-error toast. */
    method RemoveProduct(productId: int, storageOk: bool)
      returns (toasts: seq<Toast>, stored: Option<seq<Product>>)
      modifies this
      ensures cart == Without(old(cart), productId)
      ensures !HasId(cart, productId)
      ensures IsSubsequence(cart, old(cart))
      ensures !HasId(old(cart), productId) ==> cart == old(cart)
      ensures UniqueIds(old(cart)) ==> UniqueIds(cart)
      ensures toasts == (if storageOk then [] else [RemoveFailed])
      ensures stored == (if storageOk then Some(old(cart)) else None)
    {
      var snapshot := cart;
      cart := Without(snapshot, productId);
      WithoutKeepsOrder(snapshot, productId);
      if !HasId(snapshot, productId) {
        WithoutAbsent(snapshot, productId);
      }
      if UniqueIds(snapshot) {
        WithoutKeepsUnique(snapshot, productId);
      }
      if !storageOk {
        toasts, stored := [RemoveFailed], None;
        return;
      }
      toasts, stored := [], Some(snapshot);
    }

    /** Sets the amount of `productId` to `amount`. Fetches the stock and
        returns quietly when it is below 1. Otherwise it shows the
        out-of-stock toast when `amount` exceeds the stock but applies
        `amount` all the same, whatever its value; then it sends `amount` to
        the stock endpoint, after the cart has changed, and saves the cart as
        it was before the call. A failed request or storage write ends in the
        update-error toast. */
    method UpdateProductAmount(productId: int, amount: int, stockReply: Option<int>,
                               putOk: bool, storageOk: bool)
      returns (sent: Option<int>, toasts: seq<Toast>, stored: Option<seq<Product>>)
      modifies this
      // a failed stock request: nothing changes and nothing is sent or saved
      ensures stockReply.None? ==>
        cart == old(cart) && sent == None && toasts == [UpdateFailed] && stored == None
      // stock below 1: a silent return
      ensures stockReply.Some? && stockReply.value < 1 ==>
        cart == old(cart) && sent == None && toasts == [] && stored == None
      // otherwise the amount is applied and sent, even above the stock
      ensures stockReply.Some? && stockReply.value >= 1 ==>
        && cart == WithAmount(old(cart), productId, amount)
        && sent == Some(amount)
        && toasts == (if stockReply.value < amount then [OutOfStock] else [])
                     + (if putOk && storageOk then [] else [UpdateFailed])
        && stored == (if putOk && storageOk then Some(old(cart)) else None)
      ensures UniqueIds(old(cart)) ==> UniqueIds(cart)
    {
      sent, toasts, stored := None, [], None;
      if stockReply.None? {
        toasts := [UpdateFailed];
        return;
      }
      var stock := stockReply.value;
      if stock < 1 {
        return;
      }
      if stock < amount {
        toasts := [OutOfStock];
      }
      var snapshot := cart;
      cart := WithAmount(snapshot, productId, amount);
      SameIdsSameUniqueness(snapshot, cart);
      sent := Some(amount);
      if !putOk || !storageOk {
        toasts := toasts + [UpdateFailed];
        return;
      }
      stored := Some(snapshot);
    }
  }

  /** A requested amount above the stock is applied, and written to the stock
      endpoint, with only a toast to show for it. */
  method AmountAboveStockIsApplied() returns (amount: int, sent: Option<int>, toasts: seq<Toast>)
    ensures amount == 5 && sent == Some(5) && toasts == [OutOfStock]
  {
    var shoe := Product(1, "Tenis", 139.9, "tenis.jpg", 1);
    var provider := new CartProvider(Some([shoe]));
    var stored;
    sent, toasts, stored := provider.UpdateProductAmount(1, 5, Some(2), true, true);
    amount := provider.cart[0].amount;
  }

  /** A requested amount below 1 is applied as well: nothing checks it. */
  method AmountBelowOneIsApplied() returns (amount: int, sent: Option<int>, toasts: seq<Toast>)
    ensures amount == 0 && sent == Some(0) && toasts == []
  {
    var shoe := Product(1, "Tenis", 139.9, "tenis.jpg", 3);
    var provider := new CartProvider(Some([shoe]));
    var stored;
    sent, toasts, stored := provider.UpdateProductAmount(1, 0, Some(3), true, true);
    amount := provider.cart[0].amount;
  }

  /** The snapshot saved after a successful add is the cart before the add:
      adding to an empty cart saves an empty cart. */
  method SavedSnapshotIsStale() returns (held: seq<Product>, stored: Option<seq<Product>>)
    ensures |held| == 1 && held[0].amount == 1 && stored == Some([])
  {
    var shoe := Product(1, "Tenis", 139.9, "tenis.jpg", 0);
    var provider := new CartProvider(None);
    var sent, toasts;
    sent, toasts, stored := provider.AddProduct(1, Some(shoe), Some(4), true, true);
    held := provider.cart;
  }
}
