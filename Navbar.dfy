/** The navigation bar (components/Navbar.tsx): the cart badge count and which links show. */
module Navbar {
  import opened Wrappers
  import opened Folds
  import opened CartContext
  import opened AuthStore

  function ItemQty(item: CartItem): int
  {
    item.qty
  }

  /** `cartQuantity`: the sum of the line items' quantities. */
  function CartQuantity(items: seq<CartItem>): int
  {
    Sum(items, ItemQty)
  }

  /** The badge is drawn exactly when the count is positive. */
  predicate BadgeShown(items: seq<CartItem>)
  {
    CartQuantity(items) > 0
  }

  predicate OrdersLinkShown(isAuthenticated: bool)
  {
    isAuthenticated
  }

  /** `user?.isAdmin`: false when no user is held. */
  predicate AdminLinkShown(user: Option<User>)
  {
    user.Some? && user.value.isAdmin
  }

  /** An empty cart counts 0 and shows no badge. */
  lemma EmptyCartShowsNoBadge()
    ensures CartQuantity([]) == 0 && !BadgeShown([])
  {
  }

  /** Adding `q` units through the cart store raises the badge count by exactly `q`, whether the
      product merges into an existing line or opens a new one. */
  lemma AddRaisesQuantity(items: seq<CartItem>, p: Product, q: int)
    requires UniqueIds(items)
    ensures CartQuantity(AddItem(items, p, q)) == CartQuantity(items) + q
  {
    var k := FindIndex(items, ProductKey(p));
    if k >= 0 {
      AddMergesExisting(items, p, q, k);
      var y := items[k].(qty := items[k].qty + q);
      assert AddItem(items, p, q) == items[k := y];
      SumUpdate(items, k, y, ItemQty);
    } else {
      SumAppend(items, [NewItem(p, q)], ItemQty);
      SumSingleton(NewItem(p, q), ItemQty);
    }
  }

  /** Removing a line item lowers the count by exactly that item's quantity. */
  lemma RemoveLowersQuantity(items: seq<CartItem>, i: nat)
    requires UniqueIds(items) && i < |items|
    ensures CartQuantity(RemoveItem(items, items[i].id)) == CartQuantity(items) - items[i].qty
  {
    RemoveDeletesAt(items, items[i].id, i);
    SumRemoveAt(items, i, ItemQty);
  }

  /** In a consistent session (signed in exactly when a user is held) the Admin link is shown
      only beside the Orders link, and never when signed out. */
  lemma AdminLinkNeedsSession(isAuthenticated: bool, user: Option<User>)
    requires isAuthenticated <==> user.Some?
    ensures AdminLinkShown(user) ==> OrdersLinkShown(isAuthenticated)
    ensures !isAuthenticated ==> !AdminLinkShown(user) && !OrdersLinkShown(isAuthenticated)
  {
  }
}
