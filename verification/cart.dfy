/**
 * The shopping cart: its line items, the quantity buttons, removal by id,
 * the subtotal every page of the checkout flow shows, and the cart page's
 * shipping estimate. Prices are whole cents.
 */
module Cart {

  /** A cart line: one customised print. `id` is assigned when the item
      enters the cart; `format` is the format's display label. */
  datatype CartItem = CartItem(
    id: string, productId: int, imgSrc: string, projectName: string,
    format: string, paperType: string, priceCents: nat, quantity: int)

  function Max(a: int, b: int): int {
    if a >= b then a else b
  }

  /** Every line has at least one unit. */
  predicate QuantitiesPositive(cart: seq<CartItem>) {
    forall i :: 0 <= i < |cart| ==> cart[i].quantity >= 1
  }

  function Ids(cart: seq<CartItem>): seq<string> {
    if cart == [] then [] else [cart[0].id] + Ids(cart[1..])
  }

  /** The lines carrying `id`. */
  function Matching(cart: seq<CartItem>, id: string): (m: seq<CartItem>)
    ensures forall x :: x in m ==> x.id == id && x in cart
    ensures forall i :: 0 <= i < |cart| && cart[i].id == id ==> cart[i] in m
  {
    if cart == [] then []
    else if cart[0].id == id then [cart[0]] + Matching(cart[1..], id)
    else Matching(cart[1..], id)
  }

  /** The line with quantity `q` after the button adding `delta`. */
  function Bump(item: CartItem, delta: int): (r: CartItem)
    ensures r.quantity >= 1
    ensures r == item.(quantity := r.quantity)
    ensures item.quantity + delta >= 1 ==> r.quantity == item.quantity + delta
    ensures item.quantity + delta < 1 ==> r.quantity == 1
  {
    item.(quantity := Max(1, item.quantity + delta))
  }

  /** `handleUpdateCartQty`: the lines carrying `id` get `delta` added to
      their quantity, never going below one; every other line, the length
      and the order of the cart are unchanged. */
  function UpdateQty(cart: seq<CartItem>, id: string, delta: int): (r: seq<CartItem>)
    ensures |r| == |cart|
    ensures forall i :: 0 <= i < |cart| && cart[i].id != id ==> r[i] == cart[i]
    ensures forall i :: 0 <= i < |cart| && cart[i].id == id ==> r[i] == Bump(cart[i], delta)
  {
    if cart == [] then []
    else [if cart[0].id == id then Bump(cart[0], delta) else cart[0]] + UpdateQty(cart[1..], id, delta)
  }

  /** The quantity buttons keep every quantity at one or more, and keep the
      ids in place. */
  lemma UpdateQtyKeepsInvariant(cart: seq<CartItem>, id: string, delta: int)
    requires QuantitiesPositive(cart)
    ensures QuantitiesPositive(UpdateQty(cart, id, delta))
    ensures Ids(UpdateQty(cart, id, delta)) == Ids(cart)
  {
    IdsPointwise(cart, UpdateQty(cart, id, delta));
  }

  lemma {:induction false} IdsPointwise(a: seq<CartItem>, b: seq<CartItem>)
    requires |a| == |b| && forall i :: 0 <= i < |a| ==> a[i].id == b[i].id
    ensures Ids(a) == Ids(b)
  {
    if a != [] {
      IdsPointwise(a[1..], b[1..]);
    }
  }

  /** `handleRemoveFromCart`: the cart without the lines carrying `id`;
      what is left is every other line, in order (see `RemoveMembers`). */
  function Remove(cart: seq<CartItem>, id: string): (r: seq<CartItem>)
    ensures |r| + |Matching(cart, id)| == |cart|
    ensures forall i :: 0 <= i < |r| ==> r[i].id != id
  {
    if cart == [] then []
    else if cart[0].id == id then Remove(cart[1..], id)
    else [cart[0]] + Remove(cart[1..], id)
  }

  /** Removal keeps exactly the lines not carrying `id`. */
  lemma {:induction false} RemoveMembers(cart: seq<CartItem>, id: string)
    ensures forall x :: x in Remove(cart, id) <==> x in cart && x.id != id
  {
    if cart != [] {
      RemoveMembers(cart[1..], id);
      assert cart == [cart[0]] + cart[1..];
    }
  }

  /** Removal works line by line: the lines kept stay in their order. */
  lemma {:induction false} RemoveAppend(a: seq<CartItem>, b: seq<CartItem>, id: string)
    ensures Remove(a + b, id) == Remove(a, id) + Remove(b, id)
  {
    if a == [] {
      assert a + b == b;
    } else {
      var ab := a + b;
      assert ab != [] && ab[0] == a[0] && ab[1..] == a[1..] + b;
      RemoveAppend(a[1..], b, id);
      if a[0].id == id {
        calc {
          Remove(ab, id);
          Remove(a[1..] + b, id);
          Remove(a[1..], id) + Remove(b, id);
        }
      } else {
        calc {
          Remove(ab, id);
          [a[0]] + Remove(a[1..] + b, id);
          [a[0]] + (Remove(a[1..], id) + Remove(b, id));
          ([a[0]] + Remove(a[1..], id)) + Remove(b, id);
        }
      }
    }
  }

  /** Removing an id that is not in the cart changes nothing; removing is
      idempotent. */
  lemma {:induction false} RemoveAbsent(cart: seq<CartItem>, id: string)
    requires forall x :: x in cart ==> x.id != id
    ensures Remove(cart, id) == cart
  {
    if cart != [] {
      assert cart[0] in cart;
      assert forall x :: x in cart[1..] ==> x in cart;
      RemoveAbsent(cart[1..], id);
    }
  }

  lemma RemoveIdempotent(cart: seq<CartItem>, id: string)
    ensures Remove(Remove(cart, id), id) == Remove(cart, id)
  {
    RemoveAbsent(Remove(cart, id), id);
  }

  /** Removal keeps quantities positive. */
  lemma RemoveKeepsInvariant(cart: seq<CartItem>, id: string)
    requires QuantitiesPositive(cart)
    ensures QuantitiesPositive(Remove(cart, id))
  {
    var r := Remove(cart, id);
    RemoveMembers(cart, id);
    forall i | 0 <= i < |r| ensures r[i].quantity >= 1 {
      assert r[i] in r;
    }
  }

  /** `cart.reduce((acc, item) => acc + item.price * item.quantity, 0)`. */
  function Subtotal(cart: seq<CartItem>): int {
    if cart == [] then 0 else Cost(cart[0]) + Subtotal(cart[1..])
  }

  function Cost(item: CartItem): int {
    item.priceCents * item.quantity
  }

  /** The subtotal of two carts side by side is the sum of their
      subtotals. */
  lemma {:induction false} SubtotalAppend(a: seq<CartItem>, b: seq<CartItem>)
    ensures Subtotal(a + b) == Subtotal(a) + Subtotal(b)
  {
    if a == [] {
      assert a + b == b;
    } else {
      assert (a + b)[0] == a[0] && (a + b)[1..] == a[1..] + b;
      SubtotalAppend(a[1..], b);
    }
  }

  /** With positive quantities the subtotal is never negative, and a
      non-empty cart of paid lines costs something. */
  lemma {:induction false} SubtotalNonNegative(cart: seq<CartItem>)
    requires QuantitiesPositive(cart)
    ensures Subtotal(cart) >= 0
    ensures (forall x :: x in cart ==> x.priceCents > 0) && cart != [] ==> Subtotal(cart) > 0
  {
    if cart != [] {
      assert forall x :: x in cart[1..] ==> x in cart;
      SubtotalNonNegative(cart[1..]);
      assert cart[0] in cart;
      CostSign(cart[0]);
    }
  }

  lemma CostSign(item: CartItem)
    requires item.quantity >= 1
    ensures Cost(item) >= item.priceCents
  {
  }

  /** The unit prices of the lines carrying `id`, added up. */
  function MatchingUnitPrice(cart: seq<CartItem>, id: string): int {
    if cart == [] then 0
    else (if cart[0].id == id then cart[0].priceCents else 0) + MatchingUnitPrice(cart[1..], id)
  }

  /** Pressing "+" on a line raises the subtotal by that line's unit price
      (by each matching line's, if ids repeat). */
  lemma {:induction false} IncrementRaisesSubtotal(cart: seq<CartItem>, id: string)
    requires QuantitiesPositive(cart)
    ensures Subtotal(UpdateQty(cart, id, 1)) == Subtotal(cart) + MatchingUnitPrice(cart, id)
  {
    if cart != [] {
      var r := UpdateQty(cart, id, 1);
      assert r[1..] == UpdateQty(cart[1..], id, 1);
      IncrementRaisesSubtotal(cart[1..], id);
    }
  }

  /** Removing a line takes exactly its cost off the subtotal. */
  lemma {:induction false} RemoveLowersSubtotal(cart: seq<CartItem>, id: string)
    ensures Subtotal(Remove(cart, id)) == Subtotal(cart) - Subtotal(Matching(cart, id))
  {
    if cart != [] {
      RemoveLowersSubtotal(cart[1..], id);
      if cart[0].id != id {
        assert (Remove(cart, id))[1..] == Remove(cart[1..], id);
      } else {
        assert Matching(cart, id)[1..] == Matching(cart[1..], id);
      }
    }
  }

  /** The shipping estimate the cart page adds: 3.99 for a non-empty cart. */
  const CartShippingEstimateCents: nat := 399

  /** The `total` the cart page computes; it is shown only for a non-empty
      cart, the empty cart page showing no summary at all. The estimate is
      added exactly when there is something to ship. */
  function CartPageTotal(cart: seq<CartItem>): (t: int)
    ensures t >= Subtotal(cart)
    ensures t == Subtotal(cart) <==> cart == []
    ensures cart != [] ==> t - Subtotal(cart) == CartShippingEstimateCents
  {
    Subtotal(cart) + (if |cart| > 0 then CartShippingEstimateCents else 0)
  }
}
