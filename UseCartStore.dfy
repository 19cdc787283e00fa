/** The second cart store (store/useCartStore.ts), which no page imports. Its entries hold the
    whole product and a quantity; adding a product that matches an entry REPLACES that entry, and
    matching compares `id` or `_id` with `===`, so two products that both lack `_id` match. */
module UseCartStore {
  import opened Wrappers
  import CartContext

  /** The catalogue product (lib/data.ts); `dbId` is the optional `_id`. `id` is declared as a
      string there, but a backend product may lack it, so both are optional here. */
  datatype Product = Product(id: Option<string>, dbId: Option<string>, name: string, price: int,
                             category: string, image: string, description: string)

  datatype Entry = Entry(product: Product, quantity: int)

  datatype ShippingAddress = ShippingAddress(address: string, city: string, postalCode: string,
                                             country: string, firstName: Option<string>,
                                             lastName: Option<string>)

  /** `a.id === b.id || a._id === b._id`: two undefined fields are equal. */
  predicate SameProduct(a: Product, b: Product)
  {
    a.id == b.id || a.dbId == b.dbId
  }

  /** `x.product.id === productId || x.product._id === productId` for a defined `productId`. */
  predicate HasId(e: Entry, productId: string)
  {
    e.product.id == Some(productId) || e.product.dbId == Some(productId)
  }

  /** `currentItems.find(...)` as the index of the first entry matching `p`, or -1. */
  function FindEntry(items: seq<Entry>, p: Product): (r: int)
    ensures -1 <= r < |items|
    ensures 0 <= r ==> SameProduct(items[r].product, p) &&
                       forall j :: 0 <= j < r ==> !SameProduct(items[j].product, p)
    ensures r == -1 ==> forall j :: 0 <= j < |items| ==> !SameProduct(items[j].product, p)
  {
    if items == [] then -1
    else if SameProduct(items[0].product, p) then 0
    else
      var k := FindEntry(items[1..], p);
      if k == -1 then -1 else k + 1
  }

  /** The new `cartItems` after `addToCart(product, quantity)`: every entry that matches the first
      matching entry becomes `{product, quantity}`; with no match the pair is appended. */
  function AddEntry(items: seq<Entry>, p: Product, quantity: int): seq<Entry>
  {
    var k := FindEntry(items, p);
    if k >= 0 then
      var exist := items[k].product;
      seq(|items|, j requires 0 <= j < |items| =>
        if SameProduct(items[j].product, exist) then Entry(p, quantity) else items[j])
    else
      items + [Entry(p, quantity)]
  }

  /** The new `cartItems` after `removeFromCart(productId)`. */
  function RemoveEntries(items: seq<Entry>, productId: string): (r: seq<Entry>)
    ensures forall e :: e in r <==> e in items && !HasId(e, productId)
  {
    if items == [] then []
    else (if HasId(items[0], productId) then [] else [items[0]]) + RemoveEntries(items[1..], productId)
  }

  /** The new `cartItems` after `updateQuantity(productId, quantity)`: the entries with that id
      get the quantity, every product stays where it was. */
  function UpdateEntries(items: seq<Entry>, productId: string, quantity: int): (r: seq<Entry>)
    ensures |r| == |items|
    ensures forall j :: 0 <= j < |items| ==> r[j].product == items[j].product
    ensures forall j :: 0 <= j < |items| ==>
              r[j].quantity == (if HasId(items[j], productId) then quantity else items[j].quantity)
  {
    seq(|items|, j requires 0 <= j < |items| =>
      if HasId(items[j], productId) then items[j].(quantity := quantity) else items[j])
  }

  /** Every entry has a distinct `id` and a distinct `_id` (so no two undefined ones). */
  ghost predicate DistinctKeys(items: seq<Entry>)
  {
    forall i, j :: 0 <= i < j < |items| ==>
      items[i].product.id != items[j].product.id && items[i].product.dbId != items[j].product.dbId
  }

  /** With distinct keys, adding a matching product overwrites the first matching entry with
      the new product and quantity: the quantity is replaced, not summed. */
  lemma AddReplacesMatch(items: seq<Entry>, p: Product, quantity: int)
    requires DistinctKeys(items) && FindEntry(items, p) >= 0
    ensures AddEntry(items, p, quantity) == items[FindEntry(items, p) := Entry(p, quantity)]
  {
  }

  /** Adding a product that matches nothing appends `{product, quantity}`. */
  lemma AddAppendsUnmatched(items: seq<Entry>, p: Product, quantity: int)
    requires forall j :: 0 <= j < |items| ==> !SameProduct(items[j].product, p)
    ensures AddEntry(items, p, quantity) == items + [Entry(p, quantity)]
  {
  }

  /** The `undefined === undefined` quirk: when the product and every entry lack `_id`, the first
      entry matches and every entry is replaced by the new one. */
  lemma MissingDbIdsCollapseCart(items: seq<Entry>, p: Product, quantity: int)
    requires |items| > 0 && p.dbId == None
    requires forall j :: 0 <= j < |items| ==> items[j].product.dbId == None
    ensures FindEntry(items, p) == 0
    ensures forall j :: 0 <= j < |items| ==> AddEntry(items, p, quantity)[j] == Entry(p, quantity)
    ensures |AddEntry(items, p, quantity)| == |items|
  {
  }

  /** Removal is an order-preserving filter: it works piecewise on concatenations. */
  lemma {:induction false} RemoveDistributes(a: seq<Entry>, b: seq<Entry>, productId: string)
    ensures RemoveEntries(a + b, productId) == RemoveEntries(a, productId) + RemoveEntries(b, productId)
  {
    if a != [] {
      assert (a + b)[0] == a[0] && (a + b)[1..] == a[1..] + b;
      RemoveDistributes(a[1..], b, productId);
      var head := if HasId(a[0], productId) then [] else [a[0]];
      calc {
        RemoveEntries(a + b, productId);
        head + RemoveEntries(a[1..] + b, productId);
        head + (RemoveEntries(a[1..], productId) + RemoveEntries(b, productId));
        (head + RemoveEntries(a[1..], productId)) + RemoveEntries(b, productId);
        RemoveEntries(a, productId) + RemoveEntries(b, productId);
      }
    } else {
      assert a + b == b;
    }
  }

  /** Removing an id that no entry has, as `id` or `_id`, leaves the entries unchanged. */
  lemma {:induction false} RemoveAbsentIsNoOp(items: seq<Entry>, productId: string)
    requires forall j :: 0 <= j < |items| ==> !HasId(items[j], productId)
    ensures RemoveEntries(items, productId) == items
  {
    if items != [] {
      RemoveAbsentIsNoOp(items[1..], productId);
      assert [items[0]] + items[1..] == items;
    }
  }

  /** Two catalogue products without `_id` (as every entry of the static catalogue is): adding
      the second to a cart holding the first drops the first. */
  lemma CatalogueProductsCollide(q1: int, q2: int)
    ensures var p1 := Product(Some("1"), None, "Minimalist Leather Backpack", 12999,
                              "Accessories", "", "");
            var p2 := Product(Some("2"), None, "Wireless Noise-Cancelling Headphones", 24950,
                              "Electronics", "", "");
            AddEntry(AddEntry([], p1, q1), p2, q2) == [Entry(p2, q2)]
  {
  }

  /** Adding one product twice: this store keeps the second quantity, the context cart sums them. */
  lemma ReplaceVersusMerge(q1: int, q2: int)
    ensures var p := Product(Some("1"), None, "n", 100, "c", "i", "d");
            AddEntry(AddEntry([], p, q1), p, q2) == [Entry(p, q2)]
    ensures var p := CartContext.Product(Some("1"), None, "n", 100, "i", 5);
            CartContext.AddItem(CartContext.AddItem([], p, q1), p, q2) ==
              [CartContext.NewItem(p, q1 + q2)]
  {
    var p := CartContext.Product(Some("1"), None, "n", 100, "i", 5);
    var once := CartContext.AddItem([], p, q1);
    assert once == [CartContext.NewItem(p, q1)];
    assert CartContext.FindIndex(once, CartContext.ProductKey(p)) == 0;
  }

  class CartStore {
    var cartItems: seq<Entry>
    var shippingAddress: Option<ShippingAddress>
    var paymentMethod: string

    constructor ()
      ensures cartItems == [] && shippingAddress == None && paymentMethod == "Credit Card"
    {
      cartItems, shippingAddress, paymentMethod := [], None, "Credit Card";
    }

    method AddToCart(product: Product, quantity: int)
      modifies this
      ensures cartItems == AddEntry(old(cartItems), product, quantity)
      ensures shippingAddress == old(shippingAddress) && paymentMethod == old(paymentMethod)
    {
      cartItems := AddEntry(cartItems, product, quantity);
    }

    method RemoveFromCart(productId: string)
      modifies this
      ensures cartItems == RemoveEntries(old(cartItems), productId)
      ensures shippingAddress == old(shippingAddress) && paymentMethod == old(paymentMethod)
    {
      cartItems := RemoveEntries(cartItems, productId);
    }

    method UpdateQuantity(productId: string, quantity: int)
      modifies this
      ensures cartItems == UpdateEntries(old(cartItems), productId, quantity)
      ensures shippingAddress == old(shippingAddress) && paymentMethod == old(paymentMethod)
    {
      cartItems := UpdateEntries(cartItems, productId, quantity);
    }

    method ClearCart()
      modifies this
      ensures cartItems == []
      ensures shippingAddress == old(shippingAddress) && paymentMethod == old(paymentMethod)
    {
      cartItems := [];
    }

    method SaveShippingAddress(address: ShippingAddress)
      modifies this
      ensures shippingAddress == Some(address)
      ensures cartItems == old(cartItems) && paymentMethod == old(paymentMethod)
    {
      shippingAddress := Some(address);
    }

    method SavePaymentMethod(chosen: string)
      modifies this
      ensures paymentMethod == chosen
      ensures cartItems == old(cartItems) && shippingAddress == old(shippingAddress)
    {
      paymentMethod := chosen;
    }
  }
}
