/** The shop page (app/shop/page.tsx): the category and price-range filters, the four sort
    orders and the category taken from the query string. Prices are integer cents. */
module Shop {
  import opened Wrappers

  /** A product as the backend returns it; `createdAt` is its timestamp in milliseconds. */
  datatype ShopProduct = ShopProduct(id: Option<string>, dbId: Option<string>, name: string,
                                     price: int, category: Option<string>, createdAt: int)

  const Categories: seq<string> := ["All", "Electronics", "Clothing", "Accessories", "Home", "Beauty"]
  const AllCategories: string := "All"

  /** The price-range options, "All" first. */
  datatype PriceRange = AnyPrice | Under50 | From50To100 | From100To200 | Over200

  /** The sort options; `Featured` is the server's order. */
  datatype SortBy = Featured | LowToHigh | HighToLow | Newest

  /** ASCII `toLowerCase`. */
  function LowerChar(c: char): (r: char)
    ensures 'A' <= c <= 'Z' ==> r as int == c as int + 32
    ensures !('A' <= c <= 'Z') ==> r == c
  {
    if 'A' <= c <= 'Z' then (c as int + 32) as char else c
  }

  function Lower(s: string): (r: string)
    ensures |r| == |s|
    ensures forall i :: 0 <= i < |s| ==> r[i] == LowerChar(s[i])
  {
    seq(|s|, i requires 0 <= i < |s| => LowerChar(s[i]))
  }

  /** The category test: "All" keeps everything, otherwise the product's category must equal the
      selection ignoring case; a product without a category never matches. */
  predicate CategoryMatches(selected: string, p: ShopProduct)
  {
    selected == AllCategories || (p.category.Some? && Lower(p.category.value) == Lower(selected))
  }

  /** The price test in cents; $100 belongs to both neighbouring bands, $50 only to the upper one
      and $200 only to the lower one. */
  predicate PriceMatches(range: PriceRange, price: int)
  {
    match range
    case AnyPrice => true
    case Under50 => price < 5000
    case From50To100 => 5000 <= price <= 10000
    case From100To200 => 10000 <= price <= 20000
    case Over200 => price > 20000
  }

  predicate Keep(selected: string, range: PriceRange, p: ShopProduct)
  {
    CategoryMatches(selected, p) && PriceMatches(range, p.price)
  }

  /** `products.filter(...)`. */
  function FilterProducts(s: seq<ShopProduct>, selected: string, range: PriceRange): (r: seq<ShopProduct>)
    ensures |r| <= |s|
    ensures forall p :: p in r <==> p in s && Keep(selected, range, p)
  {
    if s == [] then []
    else (if Keep(selected, range, s[0]) then [s[0]] else []) + FilterProducts(s[1..], selected, range)
  }

  /** The comparator `(a, b) => Key(a) - Key(b)` for each sort option; Featured compares equal. */
  function SortKey(order: SortBy, p: ShopProduct): int
  {
    match order
    case Featured => 0
    case LowToHigh => p.price
    case HighToLow => -p.price
    case Newest => -p.createdAt
  }

  /** Insert `x` before the first element whose key is not smaller. */
  function Insert(order: SortBy, x: ShopProduct, t: seq<ShopProduct>): (r: seq<ShopProduct>)
    ensures multiset(r) == multiset{x} + multiset(t)
    ensures |r| == |t| + 1
  {
    if t == [] || SortKey(order, x) <= SortKey(order, t[0]) then [x] + t
    else
      assert t == [t[0]] + t[1..];
      [t[0]] + Insert(order, x, t[1..])
  }

  /** The stable `Array.prototype.sort` with the option's comparator. */
  function SortProducts(order: SortBy, s: seq<ShopProduct>): (r: seq<ShopProduct>)
    ensures multiset(r) == multiset(s)
  {
    if s == [] then []
    else
      assert s == [s[0]] + s[1..];
      Insert(order, s[0], SortProducts(order, s[1..]))
  }

  ghost predicate SortedBy(order: SortBy, s: seq<ShopProduct>)
  {
    forall i, j :: 0 <= i < j < |s| ==> SortKey(order, s[i]) <= SortKey(order, s[j])
  }

  /** The products with one key value, in their order. */
  function WithKey(order: SortBy, k: int, s: seq<ShopProduct>): (r: seq<ShopProduct>)
    ensures forall p :: p in r ==> p in s && SortKey(order, p) == k
  {
    if s == [] then []
    else (if SortKey(order, s[0]) == k then [s[0]] else []) + WithKey(order, k, s[1..])
  }

  /** What the page lists. */
  function DisplayedProducts(products: seq<ShopProduct>, selected: string, range: PriceRange,
                             order: SortBy): seq<ShopProduct>
  {
    SortProducts(order, FilterProducts(products, selected, range))
  }

  /** `categories.find(c => lower(c) === lower(target))`. */
  function FindCategory(cs: seq<string>, target: string): (r: Option<string>)
    ensures r.Some? ==> r.value in cs && Lower(r.value) == Lower(target)
    ensures r.Some? ==> exists i :: 0 <= i < |cs| && cs[i] == r.value &&
                          forall j :: 0 <= j < i ==> Lower(cs[j]) != Lower(target)
    ensures r.None? ==> forall c :: c in cs ==> Lower(c) != Lower(target)
  {
    if cs == [] then None
    else if Lower(cs[0]) == Lower(target) then Some(cs[0])
    else FindCategory(cs[1..], target)
  }

  /** The initial selection from the `category` query parameter (`null` is `None`). */
  function InitialCategory(param: Option<string>): (r: string)
    ensures r in Categories
    ensures var wanted := MessageOr(param, AllCategories);
            if exists c :: c in Categories && Lower(c) == Lower(wanted) then Lower(r) == Lower(wanted)
            else r == AllCategories
  {
    var wanted := MessageOr(param, AllCategories);
    var found := FindCategory(Categories, wanted);
    if found.Some? then found.value else AllCategories
  }

  /** Every key in `s` is at least `m`. */
  ghost predicate KeysAtLeast(order: SortBy, m: int, s: seq<ShopProduct>)
  {
    forall i :: 0 <= i < |s| ==> m <= SortKey(order, s[i])
  }

  /** Inserting a product whose key is at least `m` keeps every key at least `m`. */
  lemma {:induction false} InsertKeysAtLeast(order: SortBy, m: int, x: ShopProduct, t: seq<ShopProduct>)
    requires KeysAtLeast(order, m, t) && m <= SortKey(order, x)
    ensures KeysAtLeast(order, m, Insert(order, x, t))
  {
    if t != [] && SortKey(order, x) > SortKey(order, t[0]) {
      InsertKeysAtLeast(order, m, x, t[1..]);
    }
  }

  /** Inserting keeps a sorted list sorted. */
  lemma {:induction false} InsertSorted(order: SortBy, x: ShopProduct, t: seq<ShopProduct>)
    requires SortedBy(order, t)
    ensures SortedBy(order, Insert(order, x, t))
  {
    if t != [] && SortKey(order, x) > SortKey(order, t[0]) {
      var rest := Insert(order, x, t[1..]);
      InsertSorted(order, x, t[1..]);
      InsertKeysAtLeast(order, SortKey(order, t[0]), x, t[1..]);
      var r := [t[0]] + rest;
      assert r == Insert(order, x, t);
      forall i, j | 0 <= i < j < |r|
        ensures SortKey(order, r[i]) <= SortKey(order, r[j])
      {
        if i == 0 {
          assert r[j] == rest[j - 1];
        } else {
          assert r[i] == rest[i - 1] && r[j] == rest[j - 1];
        }
      }
    }
  }

  /** Every sort option orders the list by its key. */
  lemma {:induction false} SortIsSorted(order: SortBy, s: seq<ShopProduct>)
    ensures SortedBy(order, SortProducts(order, s))
  {
    if s != [] {
      SortIsSorted(order, s[1..]);
      InsertSorted(order, s[0], SortProducts(order, s[1..]));
    }
  }

  /** One step of the key filter on a list with a known first product. */
  lemma WithKeyCons(order: SortBy, k: int, x: ShopProduct, s: seq<ShopProduct>)
    ensures WithKey(order, k, [x] + s) ==
            (if SortKey(order, x) == k then [x] else []) + WithKey(order, k, s)
  {
    assert ([x] + s)[0] == x && ([x] + s)[1..] == s;
  }

  /** Inserting never reorders products of equal key: `x` goes before the equal-keyed ones. */
  lemma {:induction false} InsertStable(order: SortBy, k: int, x: ShopProduct, t: seq<ShopProduct>)
    ensures WithKey(order, k, Insert(order, x, t)) == WithKey(order, k, [x] + t)
  {
    if t != [] && SortKey(order, x) > SortKey(order, t[0]) {
      var y, rest := t[0], t[1..];
      var hx := if SortKey(order, x) == k then [x] else [];
      var hy := if SortKey(order, y) == k then [y] else [];
      assert hx == [] || hy == [];
      calc {
        WithKey(order, k, Insert(order, x, t));
        WithKey(order, k, [y] + Insert(order, x, rest));
        { WithKeyCons(order, k, y, Insert(order, x, rest)); }
        hy + WithKey(order, k, Insert(order, x, rest));
        { InsertStable(order, k, x, rest); }
        hy + WithKey(order, k, [x] + rest);
        { WithKeyCons(order, k, x, rest); }
        hy + (hx + WithKey(order, k, rest));
        hx + (hy + WithKey(order, k, rest));
        { assert t == [y] + rest;
          WithKeyCons(order, k, y, rest); }
        hx + WithKey(order, k, t);
        { WithKeyCons(order, k, x, t); }
        WithKey(order, k, [x] + t);
      }
    }
  }

  /** Stability: products that compare equal keep their relative order. */
  lemma {:induction false} SortIsStable(order: SortBy, k: int, s: seq<ShopProduct>)
    ensures WithKey(order, k, SortProducts(order, s)) == WithKey(order, k, s)
  {
    if s != [] {
      SortIsStable(order, k, s[1..]);
      var t := SortProducts(order, s[1..]);
      InsertStable(order, k, s[0], t);
      assert ([s[0]] + t)[1..] == t;
    }
  }

  /** "Featured" compares everything equal, so the stable sort keeps the server's order. */
  lemma {:induction false} FeaturedKeepsOrder(s: seq<ShopProduct>)
    ensures SortProducts(Featured, s) == s
  {
    if s != [] {
      FeaturedKeepsOrder(s[1..]);
      assert [s[0]] + s[1..] == s;
    }
  }

  /** The page lists exactly the products that pass both filters, each as often as it was
      fetched, in key order. */
  lemma DisplayedAreTheFiltered(products: seq<ShopProduct>, selected: string, range: PriceRange,
                                order: SortBy)
    ensures var d := DisplayedProducts(products, selected, range, order);
            (forall p :: p in d <==> p in products && Keep(selected, range, p)) &&
            multiset(d) == multiset(FilterProducts(products, selected, range)) &&
            SortedBy(order, d)
  {
    var f := FilterProducts(products, selected, range);
    SortIsSorted(order, f);
    forall p
      ensures p in SortProducts(order, f) <==> p in f
    {
      assert p in SortProducts(order, f) <==> p in multiset(SortProducts(order, f));
      assert p in f <==> p in multiset(f);
    }
  }

  /** One step of the filter on a list with a known first product. */
  lemma FilterCons(x: ShopProduct, s: seq<ShopProduct>, selected: string, range: PriceRange)
    ensures FilterProducts([x] + s, selected, range) ==
            (if Keep(selected, range, x) then [x] else []) + FilterProducts(s, selected, range)
  {
    assert ([x] + s)[0] == x && ([x] + s)[1..] == s;
  }

  /** Filtering is order-preserving: it works piecewise on concatenations. */
  lemma {:induction false} FilterDistributes(a: seq<ShopProduct>, b: seq<ShopProduct>,
                                             selected: string, range: PriceRange)
    ensures FilterProducts(a + b, selected, range) ==
            FilterProducts(a, selected, range) + FilterProducts(b, selected, range)
  {
    if a == [] {
      assert a + b == b;
    } else {
      var x, rest := a[0], a[1..];
      var head := if Keep(selected, range, x) then [x] else [];
      calc {
        FilterProducts(a + b, selected, range);
        { assert a + b == [x] + (rest + b); }
        FilterProducts([x] + (rest + b), selected, range);
        { FilterCons(x, rest + b, selected, range); }
        head + FilterProducts(rest + b, selected, range);
        { FilterDistributes(rest, b, selected, range); }
        head + (FilterProducts(rest, selected, range) + FilterProducts(b, selected, range));
        (head + FilterProducts(rest, selected, range)) + FilterProducts(b, selected, range);
        { assert a == [x] + rest;
          FilterCons(x, rest, selected, range); }
        FilterProducts(a, selected, range) + FilterProducts(b, selected, range);
      }
    }
  }

  /** With both filters at "All" (the state "Clear Filters" restores) every product passes. */
  lemma {:induction false} ClearedFiltersKeepAll(s: seq<ShopProduct>)
    ensures FilterProducts(s, AllCategories, AnyPrice) == s
  {
    if s != [] {
      ClearedFiltersKeepAll(s[1..]);
      assert [s[0]] + s[1..] == s;
    }
  }

  /** Every price lies in some band; exactly $100 lies in two, while $50 and $200 lie in one. */
  lemma PriceBandsCoverAndOverlap(price: int)
    ensures PriceMatches(Under50, price) || PriceMatches(From50To100, price) ||
            PriceMatches(From100To200, price) || PriceMatches(Over200, price)
    ensures PriceMatches(From50To100, 10000) && PriceMatches(From100To200, 10000)
    ensures PriceMatches(From100To200, 20000) && !PriceMatches(Over200, 20000)
    ensures !PriceMatches(Under50, 5000) && PriceMatches(From50To100, 5000)
  {
  }

  /** Examples: a lower-case parameter selects the listed spelling; no parameter means "All". */
  lemma InitialCategoryExamples()
    ensures InitialCategory(Some("electronics")) == "Electronics"
    ensures InitialCategory(None) == "All"
  {
    assert |Lower("All")| != |Lower("electronics")|;
    assert Lower("Electronics") == Lower("electronics");
  }

  /** The "Home" option does not match the catalogue's "Home & Kitchen" category. */
  lemma HomeOmitsHomeAndKitchen(p: ShopProduct)
    requires p.category == Some("Home & Kitchen")
    ensures !CategoryMatches("Home", p)
  {
    assert |Lower("Home")| != |Lower("Home & Kitchen")|;
  }

  /** The filter and sort selections of the page, over the fetched products. */
  class ShopPage {
    var products: seq<ShopProduct>
    var loading: bool
    var selectedCategory: string
    var selectedPrice: PriceRange
    var sortBy: SortBy

    constructor (categoryParam: Option<string>)
      ensures products == [] && loading
      ensures selectedCategory == InitialCategory(categoryParam)
      ensures selectedPrice == AnyPrice && sortBy == Featured
    {
      products := [];
      loading := true;
      selectedCategory := InitialCategory(categoryParam);
      selectedPrice := AnyPrice;
      sortBy := Featured;
    }

    function Displayed(): seq<ShopProduct>
      reads this
    {
      DisplayedProducts(products, selectedCategory, selectedPrice, sortBy)
    }

    /** The fetch effect: a failed fetch leaves the list as it was; loading ends either way. */
    method ReceiveProducts(response: Outcome<seq<ShopProduct>>)
      modifies this
      ensures products == (if response.Ok? then response.value else old(products))
      ensures !loading
      ensures selectedCategory == old(selectedCategory) && selectedPrice == old(selectedPrice)
      ensures sortBy == old(sortBy)
    {
      if response.Ok? {
        products := response.value;
      }
      loading := false;
    }

    method SelectCategory(category: string)
      requires category in Categories
      modifies this
      ensures selectedCategory == category
      ensures products == old(products) && loading == old(loading)
      ensures selectedPrice == old(selectedPrice) && sortBy == old(sortBy)
    {
      selectedCategory := category;
    }

    method SelectPrice(range: PriceRange)
      modifies this
      ensures selectedPrice == range
      ensures products == old(products) && loading == old(loading)
      ensures selectedCategory == old(selectedCategory) && sortBy == old(sortBy)
    {
      selectedPrice := range;
    }

    method SelectSort(order: SortBy)
      modifies this
      ensures sortBy == order
      ensures products == old(products) && loading == old(loading)
      ensures selectedCategory == old(selectedCategory) && selectedPrice == old(selectedPrice)
    {
      sortBy := order;
    }

    /** "Clear Filters": both filters back to "All", so every fetched product is listed again,
        in the current sort order. */
    method ClearFilters()
      modifies this
      ensures selectedCategory == AllCategories && selectedPrice == AnyPrice
      ensures products == old(products) && loading == old(loading) && sortBy == old(sortBy)
      ensures Displayed() == SortProducts(sortBy, products)
    {
      selectedCategory := AllCategories;
      selectedPrice := AnyPrice;
      ClearedFiltersKeepAll(products);
    }
  }
}
