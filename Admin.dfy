/** The admin dashboard (app/admin/page.tsx): who may see it, the revenue and order-count
    figures, and the recent-orders table. Amounts are integer cents. */
module Admin {
  import opened Wrappers
  import opened Folds
  import opened AuthStore

  /** An order as the dashboard reads it; `dbId` is the optional `_id`. */
  datatype AdminOrder = AdminOrder(id: Option<string>, dbId: Option<string>, totalPrice: int,
                                   isPaid: bool, isDelivered: bool)

  /** What the access effect does. */
  datatype AccessEffect = RedirectToLogin | RedirectToProfile | LoadDashboard

  const LoginRoute: string := "/login"
  const ProfileRoute: string := "/profile"
  const RecentCount: nat := 5
  const IdPrefixLength: nat := 8

  /** The effect's branches: signed out goes to the login page, a held non-admin user to the
      profile page, and otherwise the data is fetched. */
  function Access(isAuthenticated: bool, user: Option<User>): (e: AccessEffect)
    ensures e == RedirectToLogin <==> !isAuthenticated
    ensures e == RedirectToProfile <==> isAuthenticated && user.Some? && !user.value.isAdmin
  {
    if !isAuthenticated then RedirectToLogin
    else if user.Some? && !user.value.isAdmin then RedirectToProfile
    else LoadDashboard
  }

  /** The early `return null`: the page renders only for a signed-in admin. */
  predicate RendersDashboard(isAuthenticated: bool, user: Option<User>)
  {
    isAuthenticated && user.Some? && user.value.isAdmin
  }

  /** The page's target route, when the effect navigates. */
  function RedirectTarget(e: AccessEffect): (r: Option<string>)
    ensures r.Some? <==> e != LoadDashboard
    ensures e == RedirectToLogin ==> r == Some(LoginRoute)
    ensures e == RedirectToProfile ==> r == Some(ProfileRoute)
  {
    match e
    case RedirectToLogin => Some(LoginRoute)
    case RedirectToProfile => Some(ProfileRoute)
    case LoadDashboard => None
  }

  /** One order's share of the revenue `reduce`. */
  function Revenue(o: AdminOrder): int
  {
    if o.isPaid then o.totalPrice else 0
  }

  function Price(o: AdminOrder): int
  {
    o.totalPrice
  }

  /** `totalRevenue`. */
  function TotalRevenue(orders: seq<AdminOrder>): int
  {
    Sum(orders, Revenue)
  }

  /** `totalOrders`. */
  function TotalOrders(orders: seq<AdminOrder>): (n: nat)
    ensures n == |orders|
  {
    |orders|
  }

  /** The paid orders, in their order. */
  function PaidOrders(orders: seq<AdminOrder>): (r: seq<AdminOrder>)
    ensures forall o :: o in r <==> o in orders && o.isPaid
  {
    if orders == [] then []
    else
      var last := orders[|orders| - 1];
      PaidOrders(orders[..|orders| - 1]) + (if last.isPaid then [last] else [])
  }

  /** `orders.slice(0, 5)`: the first five orders, or all of them when there are fewer. */
  function RecentOrders(orders: seq<AdminOrder>): (r: seq<AdminOrder>)
    ensures |r| <= RecentCount
    ensures |r| == |orders| || |r| == RecentCount
    ensures r <= orders
  {
    if |orders| <= RecentCount then orders else orders[..RecentCount]
  }

  /** `(order._id || order.id).substring(0, 8)`; `None` where both are missing and the call on
      `undefined` throws. */
  function DisplayId(o: AdminOrder): (r: Option<string>)
    ensures r.None? <==> !Truthy(o.dbId) && o.id.None?
    ensures r.Some? ==> r.value <= OrElse(o.dbId, o.id).value
    ensures r.Some? ==> var k := OrElse(o.dbId, o.id).value;
                        |r.value| == if |k| <= IdPrefixLength then |k| else IdPrefixLength
    ensures r.Some? && Truthy(o.dbId) ==> r.value <= o.dbId.value
  {
    var key := OrElse(o.dbId, o.id);
    if key.None? then None
    else if |key.value| <= IdPrefixLength then Some(key.value)
    else Some(key.value[..IdPrefixLength])
  }

  /** The status badge. */
  function StatusLabel(o: AdminOrder): (r: string)
    ensures r == "Delivered" <==> o.isDelivered
    ensures r == "Processing" <==> !o.isDelivered
  {
    if o.isDelivered then "Delivered" else "Processing"
  }

  /** Whenever the dashboard renders, the effect took the loading branch; the converse fails
      only for a session flagged authenticated that holds no user. */
  lemma RenderImpliesLoad(isAuthenticated: bool, user: Option<User>)
    ensures RendersDashboard(isAuthenticated, user) ==> Access(isAuthenticated, user) == LoadDashboard
    ensures Access(isAuthenticated, user) == LoadDashboard && user.Some? ==>
              RendersDashboard(isAuthenticated, user)
    ensures !RendersDashboard(true, None) && Access(true, None) == LoadDashboard
  {
  }

  /** The revenue is the sum of the paid orders' totals. */
  lemma {:induction false} RevenueIsPaidTotal(orders: seq<AdminOrder>)
    ensures TotalRevenue(orders) == Sum(PaidOrders(orders), Price)
  {
    if orders != [] {
      var init := orders[..|orders| - 1];
      var last := orders[|orders| - 1];
      RevenueIsPaidTotal(init);
      if last.isPaid {
        SumAppend(PaidOrders(init), [last], Price);
        SumSingleton(last, Price);
      } else {
        assert PaidOrders(orders) == PaidOrders(init);
      }
    }
  }

  /** Unpaid orders add nothing; a paid one adds its total. */
  lemma AppendOrderRevenue(orders: seq<AdminOrder>, o: AdminOrder)
    ensures TotalRevenue(orders + [o]) == TotalRevenue(orders) + (if o.isPaid then o.totalPrice else 0)
  {
    assert (orders + [o])[..|orders|] == orders;
  }

  /** The revenue does not depend on the order in which the orders were fetched. */
  lemma RevenueIgnoresOrder(a: seq<AdminOrder>, b: seq<AdminOrder>)
    requires multiset(a) == multiset(b)
    ensures TotalRevenue(a) == TotalRevenue(b)
  {
    SumPermutation(a, b, Revenue);
  }

  /** With non-negative totals, the revenue is non-negative and at most the sum of all totals. */
  lemma {:induction false} RevenueBounds(orders: seq<AdminOrder>)
    requires forall i :: 0 <= i < |orders| ==> orders[i].totalPrice >= 0
    ensures 0 <= TotalRevenue(orders) <= Sum(orders, Price)
  {
    if orders != [] {
      RevenueBounds(orders[..|orders| - 1]);
    }
  }

  /** Example: a 24-character backend id shows as its first eight characters. */
  lemma DisplayIdExample()
    ensures DisplayId(AdminOrder(None, Some("65f1c2a9b8e7d6c5b4a39281"), 0, false, false)) ==
            Some("65f1c2a9")
  {
    assert "65f1c2a9b8e7d6c5b4a39281"[..IdPrefixLength] == "65f1c2a9";
  }
}
