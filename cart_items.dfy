/** The cart as a list of products, and the list computations the cart
    operations perform on it: `some` (is an id in the cart?), the two `map`s
    (add one to an entry, set an entry's amount) and `filter` (drop every
    entry with an id). Products are values: no operation here mutates one. */
module CartItems {

  /** A product in the cart. `title`, `price` and `image` stand for the
      display fields of the record the product endpoint returns; no cart
      operation reads or changes them. `amount` is the quantity in the cart
      and is not constrained: nothing in the cart code keeps it positive. */
  datatype Product = Product(id: int, title: string, price: real, image: string, amount: int)

  /** No two entries of the cart share an id. */
  predicate UniqueIds(cart: seq<Product>)
  {
    forall i, j :: 0 <= i < j < |cart| ==> cart[i].id != cart[j].id
  }

  /** `r` keeps some of the entries of `s`, in the order they have in `s`. */
  predicate IsSubsequence(r: seq<Product>, s: seq<Product>)
    decreases |s|
  {
    if r == [] then true
    else if s == [] then false
    else (r[0] == s[0] && IsSubsequence(r[1..], s[1..])) || IsSubsequence(r, s[1..])
  }

  /** Whether some entry of the cart has the id. */
  function HasId(cart: seq<Product>, id: int): (b: bool)
    ensures b <==> exists i :: 0 <= i < |cart| && cart[i].id == id
  {
    if cart == [] then false
    else if cart[0].id == id then true
    else
      var b := HasId(cart[1..], id);
      assert forall i :: 1 <= i < |cart| ==> cart[i] == cart[1..][i - 1];
      b
  }

  /** The cart with one more unit of the id: every entry with the id has its
      amount raised by exactly one, and every other entry, like the order and
      the ids, stays as it was. */
  function Incremented(cart: seq<Product>, id: int): (r: seq<Product>)
    ensures |r| == |cart|
    ensures forall i :: 0 <= i < |cart| ==> r[i].id == cart[i].id
    ensures forall i :: 0 <= i < |cart| && cart[i].id == id ==>
      r[i] == cart[i].(amount := cart[i].amount + 1)
    ensures forall i :: 0 <= i < |cart| && cart[i].id != id ==> r[i] == cart[i]
  {
    if cart == [] then []
    else
      var head := if cart[0].id == id then cart[0].(amount := cart[0].amount + 1) else cart[0];
      [head] + Incremented(cart[1..], id)
  }

  /** The cart with the id's amount replaced: every entry with the id gets the
      given amount, whatever it is, and every other entry, like the order and
      the ids, stays as it was. */
  function WithAmount(cart: seq<Product>, id: int, amount: int): (r: seq<Product>)
    ensures |r| == |cart|
    ensures forall i :: 0 <= i < |cart| ==> r[i].id == cart[i].id
    ensures forall i :: 0 <= i < |cart| && cart[i].id == id ==> r[i] == cart[i].(amount := amount)
    ensures forall i :: 0 <= i < |cart| && cart[i].id != id ==> r[i] == cart[i]
  {
    if cart == [] then []
    else
      var head := if cart[0].id == id then cart[0].(amount := amount) else cart[0];
      [head] + WithAmount(cart[1..], id, amount)
  }

  /** The cart with the id taken out: every entry with the id is dropped and
      exactly the entries with another id are kept, so none with the id is
      left and the cart never grows. `WithoutCounts` adds that a kept entry is
      kept as many times as it occurs, and `WithoutKeepsOrder` that the kept
      entries stay in order. */
  function Without(cart: seq<Product>, id: int): (r: seq<Product>)
    ensures forall p :: p in r <==> p in cart && p.id != id
    ensures !HasId(r, id)
    ensures |r| <= |cart|
  {
    if cart == [] then []
    else if cart[0].id == id then Without(cart[1..], id)
    else [cart[0]] + Without(cart[1..], id)
  }

  /** Every entry with another id is kept as many times as it occurs in the
      cart, and every entry with the id is dropped. */
  lemma {:induction false} WithoutCounts(cart: seq<Product>, id: int)
    ensures forall p :: multiset(Without(cart, id))[p] == if p.id == id then 0 else multiset(cart)[p]
  {
    if cart != [] {
      WithoutCounts(cart[1..], id);
      var rest := Without(cart[1..], id);
      assert cart == [cart[0]] + cart[1..];
      assert multiset(cart) == multiset{cart[0]} + multiset(cart[1..]);
      if cart[0].id != id {
        assert multiset([cart[0]] + rest) == multiset{cart[0]} + multiset(rest);
      }
    }
  }

  /** Entries that the filter keeps stay in their relative order. */
  lemma {:induction false} WithoutKeepsOrder(cart: seq<Product>, id: int)
    ensures IsSubsequence(Without(cart, id), cart)
  {
    if cart != [] {
      WithoutKeepsOrder(cart[1..], id);
      var rest := Without(cart[1..], id);
      if cart[0].id != id {
        assert ([cart[0]] + rest)[1..] == rest;
      }
    }
  }

  /** Removing an id that is not in the cart leaves the cart unchanged. */
  lemma {:induction false} WithoutAbsent(cart: seq<Product>, id: int)
    requires !HasId(cart, id)
    ensures Without(cart, id) == cart
  {
    if cart != [] {
      WithoutAbsent(cart[1..], id);
      assert [cart[0]] + cart[1..] == cart;
    }
  }

  /** Removing an id that is in the cart makes the cart strictly shorter. */
  lemma {:induction false} WithoutPresentShrinks(cart: seq<Product>, id: int)
    requires HasId(cart, id)
    ensures |Without(cart, id)| < |cart|
  {
    if cart[0].id != id {
      WithoutPresentShrinks(cart[1..], id);
    }
  }

  /** Removing the same id twice is the same as removing it once. */
  lemma WithoutIdempotent(cart: seq<Product>, id: int)
    ensures Without(Without(cart, id), id) == Without(cart, id)
  {
  }

  /** Removing the id of an entry that was just put at the front of a cart
      without that id gives back the cart as it was before. */
  lemma RemoveUndoesPrepend(cart: seq<Product>, p: Product)
    requires !HasId(cart, p.id)
    ensures Without([p] + cart, p.id) == cart
  {
    assert ([p] + cart)[1..] == cart;
    WithoutAbsent(cart, p.id);
  }

  /** Putting an entry in front of a cart that lacks its id keeps ids unique. */
  lemma PrependKeepsUnique(cart: seq<Product>, p: Product)
    requires UniqueIds(cart) && !HasId(cart, p.id)
    ensures UniqueIds([p] + cart)
  {
  }

  /** Filtering keeps ids unique. */
  lemma {:induction false} WithoutKeepsUnique(cart: seq<Product>, id: int)
    requires UniqueIds(cart)
    ensures UniqueIds(Without(cart, id))
  {
    if cart != [] {
      var tail := cart[1..];
      assert UniqueIds(tail) by {
        forall i, j | 0 <= i < j < |tail| ensures tail[i].id != tail[j].id {
          assert tail[i] == cart[i + 1] && tail[j] == cart[j + 1];
        }
      }
      WithoutKeepsUnique(tail, id);
      if cart[0].id != id {
        var rest := Without(tail, id);
        assert !HasId(rest, cart[0].id) by {
          forall k | 0 <= k < |rest| ensures rest[k].id != cart[0].id {
            assert rest[k] in tail;
            var m :| 0 <= m < |tail| && tail[m] == rest[k];
            assert tail[m] == cart[m + 1];
          }
        }
        PrependKeepsUnique(rest, cart[0]);
      }
    }
  }

  /** Two carts with the same ids in the same places are both unique or both
      not: the two maps change amounts and never ids. */
  lemma SameIdsSameUniqueness(a: seq<Product>, b: seq<Product>)
    requires |a| == |b|
    requires forall i :: 0 <= i < |a| ==> a[i].id == b[i].id
    ensures UniqueIds(a) <==> UniqueIds(b)
  {
  }

  /** Setting the amount of an id that is not in the cart changes nothing. */
  lemma WithAmountAbsent(cart: seq<Product>, id: int, amount: int)
    requires !HasId(cart, id)
    ensures WithAmount(cart, id, amount) == cart
  {
  }

  /** Setting the same amount twice is the same as setting it once. */
  lemma WithAmountIdempotent(cart: seq<Product>, id: int, amount: int)
    ensures WithAmount(WithAmount(cart, id, amount), id, amount) == WithAmount(cart, id, amount)
  {
  }
}
