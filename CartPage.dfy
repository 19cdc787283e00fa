/** The cart page (app/cart/page.tsx): the quantity controls compute the value they hand to
    `updateQuantity`, clamped to [1, countInStock]; the remove control passes the clicked item's
    id; each row shows price times quantity. */
module CartPage {
  import opened Wrappers
  import opened CartContext
  import Folds

  /** `Math.max(1, qty - 1)`. */
  function Decrement(qty: int): (r: int)
    ensures r >= 1 && r >= qty - 1
    ensures r == 1 || r == qty - 1
  {
    if qty - 1 > 1 then qty - 1 else 1
  }

  /** `Math.min(countInStock, qty + 1)`. */
  function Increment(qty: int, countInStock: int): (r: int)
    ensures r <= countInStock && r <= qty + 1
    ensures r == countInStock || r == qty + 1
  {
    if countInStock < qty + 1 then countInStock else qty + 1
  }

  /** The increment button's `disabled` rule. */
  predicate IncrementDisabled(item: CartItem)
  {
    item.qty >= item.countInStock
  }

  /** The shipping row reads "Free" exactly when the shipping price is zero. */
  predicate ShowsFreeShipping(items: seq<CartItem>)
  {
    ShippingPrice(items) == 0
  }

  /** Every line's quantity within [1, countInStock]. */
  ghost predicate WithinStock(items: seq<CartItem>)
  {
    forall j :: 0 <= j < |items| ==> 1 <= items[j].qty <= items[j].countInStock
  }

  /** The cart after clicking minus on row `i`. */
  function PressDecrement(items: seq<CartItem>, i: nat): seq<CartItem>
    requires i < |items|
  {
    UpdateItem(items, items[i].id, Decrement(items[i].qty))
  }

  /** The cart after clicking plus on row `i`; the disabled button does nothing. */
  function PressIncrement(items: seq<CartItem>, i: nat): seq<CartItem>
    requires i < |items|
  {
    if IncrementDisabled(items[i]) then items
    else UpdateItem(items, items[i].id, Increment(items[i].qty, items[i].countInStock))
  }

  /** The cart after clicking remove on row `i`. */
  function PressRemove(items: seq<CartItem>, i: nat): seq<CartItem>
    requires i < |items|
  {
    RemoveItem(items, items[i].id)
  }

  /** Decrement never goes below 1 and leaves 1 at 1; increment never exceeds the stock. */
  lemma ClampBounds(qty: int, countInStock: int)
    ensures Decrement(qty) >= 1
    ensures Decrement(1) == 1
    ensures qty >= 2 ==> Decrement(qty) == qty - 1
    ensures Increment(qty, countInStock) <= countInStock
    ensures qty < countInStock ==> Increment(qty, countInStock) == qty + 1
  {
  }

  /** Minus on row `i` sets that row to `max(1, qty - 1)` and touches no other row. */
  lemma PressDecrementChangesOneRow(items: seq<CartItem>, i: nat)
    requires UniqueIds(items) && i < |items|
    ensures PressDecrement(items, i) == items[i := items[i].(qty := Decrement(items[i].qty))]
  {
    UpdateSetsExactly(items, items[i].id, Decrement(items[i].qty), i);
  }

  /** Plus on an enabled row `i` raises that row by one and touches no other row. */
  lemma PressIncrementChangesOneRow(items: seq<CartItem>, i: nat)
    requires UniqueIds(items) && i < |items|
    ensures IncrementDisabled(items[i]) ==> PressIncrement(items, i) == items
    ensures !IncrementDisabled(items[i]) ==>
              PressIncrement(items, i) == items[i := items[i].(qty := items[i].qty + 1)]
  {
    if !IncrementDisabled(items[i]) {
      UpdateSetsExactly(items, items[i].id, Increment(items[i].qty, items[i].countInStock), i);
    }
  }

  /** Both quantity controls keep every row within [1, countInStock]. */
  lemma ControlsKeepWithinStock(items: seq<CartItem>, i: nat)
    requires UniqueIds(items) && WithinStock(items) && i < |items|
    ensures WithinStock(PressDecrement(items, i))
    ensures WithinStock(PressIncrement(items, i))
  {
    PressDecrementChangesOneRow(items, i);
    PressIncrementChangesOneRow(items, i);
  }

  /** Remove deletes exactly the clicked row and keeps the others in order. */
  lemma PressRemoveDeletesRow(items: seq<CartItem>, i: nat)
    requires UniqueIds(items) && i < |items|
    ensures PressRemove(items, i) == items[..i] + items[i + 1..]
  {
    RemoveDeletesAt(items, items[i].id, i);
  }

  /** The row total is price times quantity; in a cart of one line it is the subtotal. */
  lemma LineTotalIsSubtotalOfOneLine(item: CartItem)
    ensures ItemsPrice([item]) == item.price * item.qty
  {
    Folds.SumSingleton(item, LineTotal);
  }

  /** The shipping row reads "Free" exactly when the subtotal is strictly above $100. */
  lemma FreeShippingShownAboveThreshold(items: seq<CartItem>)
    ensures ShowsFreeShipping(items) <==> ItemsPrice(items) > FreeShippingThreshold
  {
  }
}
