/** The cart every page uses (context/CartContext.tsx): line items merged by product id, the saved
    shipping address and payment method, and the prices derived from the items. Money is in whole
    cents throughout. */
module CartContext {
  import opened Wrappers
  import opened Folds

  /** The fields `addToCart` reads from the product it is given; `dbId` is the backend's `_id`. */
  datatype Product = Product(id: Option<string>, dbId: Option<string>, name: string, price: int,
                             image: string, countInStock: int)

  /** A line item. Its `id` is whatever `product.id || product._id` gave, so it may be undefined. */
  datatype CartItem = CartItem(id: Option<string>, name: string, price: int, image: string,
                               qty: int, countInStock: int)

  /** The shipping form's record, saved as it is by `saveShippingAddress`. */
  datatype Address = Address(firstName: string, lastName: string, address: string, city: string,
                             postalCode: string, country: string)

  /** Subtotal (in cents) above which shipping is free: $100.00. */
  const FreeShippingThreshold: int := 10000
  /** The flat shipping fee in cents: $10.00. */
  const ShippingFee: int := 1000
  /** The flat tax rate, in percent of the subtotal. */
  const TaxPercent: int := 15

  /** The identity a product gets in the cart: `product.id || product._id`. */
  function ProductKey(p: Product): (k: Option<string>)
    ensures Truthy(p.id) ==> k == p.id
    ensures !Truthy(p.id) ==> k == p.dbId
  {
    OrElse(p.id, p.dbId)
  }

  /** At most one line item per id. */
  ghost predicate UniqueIds(items: seq<CartItem>)
  {
    forall i, j :: 0 <= i < j < |items| ==> items[i].id != items[j].id
  }

  /** `prevItems.find(x => x.id === key)`, as the index of the first match, or -1. */
  function FindIndex(items: seq<CartItem>, key: Option<string>): (r: int)
    ensures -1 <= r < |items|
    ensures 0 <= r ==> items[r].id == key && forall j :: 0 <= j < r ==> items[j].id != key
    ensures r == -1 ==> forall j :: 0 <= j < |items| ==> items[j].id != key
  {
    if items == [] then -1
    else if items[0].id == key then 0
    else
      var k := FindIndex(items[1..], key);
      if k == -1 then -1 else k + 1
  }

  /** The line item a new product becomes: no clamping of `qty` against the stock. */
  function NewItem(p: Product, qty: int): CartItem
  {
    CartItem(ProductKey(p), p.name, p.price, p.image, qty, p.countInStock)
  }

  /** The new `cartItems` after `addToCart(product, qty)`. */
  function AddItem(items: seq<CartItem>, p: Product, qty: int): (r: seq<CartItem>)
  {
    var k := FindIndex(items, ProductKey(p));
    if k >= 0 then
      var exist := items[k];
      seq(|items|, j requires 0 <= j < |items| =>
        if items[j].id == exist.id then exist.(qty := exist.qty + qty) else items[j])
    else
      items + [NewItem(p, qty)]
  }

  /** The new `cartItems` after `removeFromCart(id)`: the items whose id differs, in order. */
  function RemoveItem(items: seq<CartItem>, id: Option<string>): (r: seq<CartItem>)
    ensures |r| <= |items|
    ensures forall x :: x in r <==> x in items && x.id != id
  {
    if items == [] then []
    else (if items[0].id == id then [] else [items[0]]) + RemoveItem(items[1..], id)
  }

  /** The new `cartItems` after `updateQuantity(id, qty)`: no validation of `qty`. */
  function UpdateItem(items: seq<CartItem>, id: Option<string>, qty: int): (r: seq<CartItem>)
  {
    seq(|items|, j requires 0 <= j < |items| =>
      if items[j].id == id then items[j].(qty := qty) else items[j])
  }

  // ---------------------------------------------------------------------------------------
  // Pricing

  function LineTotal(item: CartItem): int
  {
    item.price * item.qty
  }

  /** `itemsPrice`: the sum of price times quantity over the line items. */
  function ItemsPrice(items: seq<CartItem>): int
  {
    Sum(items, LineTotal)
  }

  /** `shippingPrice` for a subtotal: waived only strictly above the threshold. */
  function ShippingFor(itemsPrice: int): (s: int)
    ensures s == 0 <==> itemsPrice > FreeShippingThreshold
    ensures s == 0 || s == ShippingFee
  {
    if itemsPrice > FreeShippingThreshold then 0 else ShippingFee
  }

  /** `taxPrice` for a subtotal: 15% rounded to the nearest cent, halves rounded up. */
  function TaxOn(itemsPrice: int): (t: int)
    ensures 100 * t - 50 <= TaxPercent * itemsPrice < 100 * t + 50
  {
    (TaxPercent * itemsPrice + 50) / 100
  }

  function TotalFor(itemsPrice: int): int
  {
    itemsPrice + ShippingFor(itemsPrice) + TaxOn(itemsPrice)
  }

  function ShippingPrice(items: seq<CartItem>): int { ShippingFor(ItemsPrice(items)) }
  function TaxPrice(items: seq<CartItem>): int { TaxOn(ItemsPrice(items)) }
  function TotalPrice(items: seq<CartItem>): int { TotalFor(ItemsPrice(items)) }

  /** `addDecimals` on an exact decimal amount: `Math.round(x * 100) / 100`, where `Math.round`
      rounds halves up. */
  function AddDecimals(x: real): real
  {
    (x * 100.0 + 0.5).Floor as real / 100.0
  }

  lemma FloorOfQuotient(n: int, d: int)
    requires d > 0
    ensures (n as real / d as real).Floor == n / d
  {
    var q, r := n / d, n % d;
    assert n == q * d + r && 0 <= r < d;
    assert n as real / d as real == q as real + r as real / d as real;
    assert 0.0 <= r as real / d as real < 1.0;
  }

  /** On a whole number of cents `addDecimals` changes nothing, which is why the model keeps
      every figure in cents without rounding it again. */
  lemma AddDecimalsKeepsCents(c: int)
    ensures AddDecimals(c as real / 100.0) == c as real / 100.0
  {
    assert c as real / 100.0 * 100.0 + 0.5 == (2 * c + 1) as real / 2.0;
    FloorOfQuotient(2 * c + 1, 2);
  }

  /** The cent tax is the source's `addDecimals(0.15 * itemsPrice)` on the dollar amount. */
  lemma TaxMatchesDecimalRounding(c: int)
    ensures AddDecimals(0.15 * (c as real / 100.0)) * 100.0 == TaxOn(c) as real
  {
    assert 0.15 * (c as real / 100.0) * 100.0 + 0.5 == (15 * c + 50) as real / 100.0;
    FloorOfQuotient(15 * c + 50, 100);
  }

  // ---------------------------------------------------------------------------------------
  // Properties of the item operations

  /** Adding a product already in the cart keeps the item count and raises that item's quantity
      by `qty`, keeping its other fields; every other item is unchanged. */
  lemma AddMergesExisting(items: seq<CartItem>, p: Product, qty: int, i: nat)
    requires UniqueIds(items)
    requires i < |items| && items[i].id == ProductKey(p)
    ensures |AddItem(items, p, qty)| == |items|
    ensures AddItem(items, p, qty)[i] == items[i].(qty := items[i].qty + qty)
    ensures forall j :: 0 <= j < |items| && j != i ==> AddItem(items, p, qty)[j] == items[j]
  {
    var k := FindIndex(items, ProductKey(p));
    assert k == i;
  }

  /** Adding a product with a new id appends exactly one item, built from the product. */
  lemma AddAppendsNew(items: seq<CartItem>, p: Product, qty: int)
    requires forall j :: 0 <= j < |items| ==> items[j].id != ProductKey(p)
    ensures AddItem(items, p, qty) == items + [NewItem(p, qty)]
    ensures AddItem(items, p, qty)[|items|] ==
            CartItem(OrElse(p.id, p.dbId), p.name, p.price, p.image, qty, p.countInStock)
  {
  }

  lemma AddPreservesUnique(items: seq<CartItem>, p: Product, qty: int)
    requires UniqueIds(items)
    ensures UniqueIds(AddItem(items, p, qty))
  {
    var k := FindIndex(items, ProductKey(p));
    if k >= 0 {
      AddMergesExisting(items, p, qty, k);
    }
  }

  lemma {:induction false} RemovePreservesUnique(items: seq<CartItem>, id: Option<string>)
    requires UniqueIds(items)
    ensures UniqueIds(RemoveItem(items, id))
  {
    if items != [] {
      RemovePreservesUnique(items[1..], id);
      var rest := RemoveItem(items[1..], id);
      forall x | x in rest ensures x.id != items[0].id {
        var j :| 0 <= j < |items[1..]| && items[1..][j] == x;
        assert items[j + 1] == x;
      }
    }
  }

  /** Removal works piecewise on concatenations. */
  lemma {:induction false} RemoveDistributes(a: seq<CartItem>, b: seq<CartItem>, id: Option<string>)
    ensures RemoveItem(a + b, id) == RemoveItem(a, id) + RemoveItem(b, id)
  {
    if a == [] {
      assert a + b == b;
    } else {
      assert (a + b)[0] == a[0] && (a + b)[1..] == a[1..] + b;
      RemoveDistributes(a[1..], b, id);
      var head := if a[0].id == id then [] else [a[0]];
      calc {
        RemoveItem(a + b, id);
        head + RemoveItem(a[1..] + b, id);
        head + (RemoveItem(a[1..], id) + RemoveItem(b, id));
        (head + RemoveItem(a[1..], id)) + RemoveItem(b, id);
      }
    }
  }

  /** Removing the id of the one item between two runs without it leaves just the two runs. */
  lemma RemoveBetween(before: seq<CartItem>, x: CartItem, after: seq<CartItem>, id: Option<string>)
    requires x.id == id
    requires forall j :: 0 <= j < |before| ==> before[j].id != id
    requires forall j :: 0 <= j < |after| ==> after[j].id != id
    ensures RemoveItem(before + ([x] + after), id) == before + after
  {
    var single := [x];
    calc {
      RemoveItem(before + (single + after), id);
      { RemoveDistributes(before, single + after, id); }
      RemoveItem(before, id) + RemoveItem(single + after, id);
      { RemoveDistributes(single, after, id); }
      RemoveItem(before, id) + (RemoveItem(single, id) + RemoveItem(after, id));
      { RemoveAbsentIsNoOp(before, id);
        RemoveAbsentIsNoOp(after, id);
        assert RemoveItem(single, id) == [] by { assert single[1..] == []; } }
      before + ([] + after);
    }
    assert [] + after == after;
  }

  /** Removing an id that occurs only at `i` deletes exactly that item. */
  lemma RemoveOnlyAt(items: seq<CartItem>, id: Option<string>, i: nat)
    requires i < |items| && items[i].id == id
    requires forall j :: 0 <= j < |items| && j != i ==> items[j].id != id
    ensures RemoveItem(items, id) == items[..i] + items[i + 1..]
  {
    var before, after := items[..i], items[i + 1..];
    forall j | 0 <= j < |before| ensures before[j].id != id {
      assert before[j] == items[j];
    }
    forall j | 0 <= j < |after| ensures after[j].id != id {
      assert after[j] == items[i + 1 + j];
    }
    assert items == before + ([items[i]] + after);
    RemoveBetween(before, items[i], after, id);
  }

  /** Removing an id that occurs at `i` deletes exactly that item and keeps the rest in order. */
  lemma RemoveDeletesAt(items: seq<CartItem>, id: Option<string>, i: nat)
    requires UniqueIds(items)
    requires i < |items| && items[i].id == id
    ensures RemoveItem(items, id) == items[..i] + items[i + 1..]
  {
    forall j | 0 <= j < |items| && j != i
      ensures items[j].id != id
    {
      if j < i {
        assert items[j].id != items[i].id;
      } else {
        assert items[i].id != items[j].id;
      }
    }
    RemoveOnlyAt(items, id, i);
  }

  /** Removing an id that is not in the cart changes nothing. */
  lemma {:induction false} RemoveAbsentIsNoOp(items: seq<CartItem>, id: Option<string>)
    requires forall j :: 0 <= j < |items| ==> items[j].id != id
    ensures RemoveItem(items, id) == items
  {
    if items != [] {
      RemoveAbsentIsNoOp(items[1..], id);
      assert [items[0]] + items[1..] == items;
    }
  }

  /** Setting the quantity of the item at `i` sets exactly that quantity, whatever its value,
      and changes nothing else. */
  lemma UpdateSetsExactly(items: seq<CartItem>, id: Option<string>, qty: int, i: nat)
    requires UniqueIds(items)
    requires i < |items| && items[i].id == id
    ensures UpdateItem(items, id, qty) == items[i := items[i].(qty := qty)]
  {
  }

  lemma UpdateAbsentIsNoOp(items: seq<CartItem>, id: Option<string>, qty: int)
    requires forall j :: 0 <= j < |items| ==> items[j].id != id
    ensures UpdateItem(items, id, qty) == items
  {
  }

  lemma UpdatePreservesUnique(items: seq<CartItem>, id: Option<string>, qty: int)
    requires UniqueIds(items)
    ensures UniqueIds(UpdateItem(items, id, qty))
  {
  }

  /** Repeated adds of one product: a single line item whose quantity is the sum of the added
      quantities (starting from a cart without that product). */
  function AddAll(items: seq<CartItem>, p: Product, qs: seq<int>): seq<CartItem>
    decreases qs
  {
    if qs == [] then items else AddAll(AddItem(items, p, qs[0]), p, qs[1..])
  }

  function Total(qs: seq<int>): int
  {
    if qs == [] then 0 else qs[0] + Total(qs[1..])
  }

  lemma {:induction false} AddAllMerges(items: seq<CartItem>, p: Product, qs: seq<int>, i: nat)
    requires UniqueIds(items)
    requires i < |items| && items[i].id == ProductKey(p)
    ensures |AddAll(items, p, qs)| == |items|
    ensures UniqueIds(AddAll(items, p, qs))
    ensures AddAll(items, p, qs)[i] == items[i].(qty := items[i].qty + Total(qs))
    ensures forall j :: 0 <= j < |items| && j != i ==> AddAll(items, p, qs)[j] == items[j]
    decreases qs
  {
    if qs != [] {
      var next := AddItem(items, p, qs[0]);
      AddMergesExisting(items, p, qs[0], i);
      AddPreservesUnique(items, p, qs[0]);
      AddAllMerges(next, p, qs[1..], i);
    }
  }

  lemma AddAllSumsQuantities(items: seq<CartItem>, p: Product, qs: seq<int>)
    requires UniqueIds(items)
    requires forall j :: 0 <= j < |items| ==> items[j].id != ProductKey(p)
    requires qs != []
    ensures |AddAll(items, p, qs)| == |items| + 1
    ensures AddAll(items, p, qs)[|items|] == NewItem(p, Total(qs))
    ensures AddAll(items, p, qs)[..|items|] == items
  {
    var first := AddItem(items, p, qs[0]);
    AddAppendsNew(items, p, qs[0]);
    AddPreservesUnique(items, p, qs[0]);
    AddAllMerges(first, p, qs[1..], |items|);
    var r := AddAll(first, p, qs[1..]);
    assert r[..|items|] == items by {
      forall j | 0 <= j < |items| ensures r[j] == items[j] { assert first[j] == items[j]; }
    }
  }

  /** Removing a product and adding it again gives a fresh item with just the new quantity. */
  lemma RemoveThenAddIsFresh(items: seq<CartItem>, p: Product, qty: int)
    ensures var r := AddItem(RemoveItem(items, ProductKey(p)), p, qty);
            r[|r| - 1] == NewItem(p, qty) &&
            forall j :: 0 <= j < |r| - 1 ==> r[j].id != ProductKey(p)
  {
    var removed := RemoveItem(items, ProductKey(p));
    forall j | 0 <= j < |removed| ensures removed[j].id != ProductKey(p) {
      assert removed[j] in removed;
    }
    AddAppendsNew(removed, p, qty);
  }

  /** All four price figures depend only on the multiset of line items, not on their order. */
  lemma PricesIndependentOfOrder(a: seq<CartItem>, b: seq<CartItem>)
    requires multiset(a) == multiset(b)
    ensures ItemsPrice(a) == ItemsPrice(b)
    ensures ShippingPrice(a) == ShippingPrice(b)
    ensures TaxPrice(a) == TaxPrice(b)
    ensures TotalPrice(a) == TotalPrice(b)
  {
    SumPermutation(a, b, LineTotal);
  }

  /** The figures quoted for the pricing rules: $90.00 pays $10.00 shipping, $150.00 ships
      free, and $100.00 (not above the threshold) pays $10.00 shipping, $15.00 tax and
      $125.00 in all. */
  lemma PricingExamples()
    ensures ShippingFor(9000) == 1000
    ensures ShippingFor(15000) == 0
    ensures ShippingFor(10000) == 1000
    ensures TaxOn(10000) == 1500
    ensures TotalFor(10000) == 12500
  {
  }

  // ---------------------------------------------------------------------------------------
  // The store

  /** The provider's three state cells. `shippingAddress` is `None` for the initial `{}`. */
  class CartStore {
    var cartItems: seq<CartItem>
    var shippingAddress: Option<Address>
    var paymentMethod: string

    ghost predicate Valid()
      reads this
    {
      UniqueIds(cartItems)
    }

    constructor ()
      ensures Valid()
      ensures cartItems == [] && shippingAddress == None && paymentMethod == "Credit Card"
    {
      cartItems := [];
      shippingAddress := None;
      paymentMethod := "Credit Card";
    }

    method AddToCart(product: Product, qty: int)
      requires Valid()
      modifies this
      ensures Valid()
      ensures cartItems == AddItem(old(cartItems), product, qty)
      ensures shippingAddress == old(shippingAddress) && paymentMethod == old(paymentMethod)
    {
      AddPreservesUnique(cartItems, product, qty);
      cartItems := AddItem(cartItems, product, qty);
    }

    method RemoveFromCart(id: Option<string>)
      requires Valid()
      modifies this
      ensures Valid()
      ensures cartItems == RemoveItem(old(cartItems), id)
      ensures shippingAddress == old(shippingAddress) && paymentMethod == old(paymentMethod)
    {
      RemovePreservesUnique(cartItems, id);
      cartItems := RemoveItem(cartItems, id);
    }

    method UpdateQuantity(id: Option<string>, qty: int)
      requires Valid()
      modifies this
      ensures Valid()
      ensures cartItems == UpdateItem(old(cartItems), id, qty)
      ensures shippingAddress == old(shippingAddress) && paymentMethod == old(paymentMethod)
    {
      UpdatePreservesUnique(cartItems, id, qty);
      cartItems := UpdateItem(cartItems, id, qty);
    }

    method ClearCart()
      requires Valid()
      modifies this
      ensures Valid()
      ensures cartItems == []
      ensures shippingAddress == old(shippingAddress) && paymentMethod == old(paymentMethod)
    {
      cartItems := [];
    }

    method SaveShippingAddress(data: Address)
      requires Valid()
      modifies this
      ensures Valid()
      ensures shippingAddress == Some(data)
      ensures cartItems == old(cartItems) && paymentMethod == old(paymentMethod)
    {
      shippingAddress := Some(data);
    }

    method SavePaymentMethod(data: string)
      requires Valid()
      modifies this
      ensures Valid()
      ensures paymentMethod == data
      ensures cartItems == old(cartItems) && shippingAddress == old(shippingAddress)
    {
      paymentMethod := data;
    }
  }
}
