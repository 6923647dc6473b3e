/**
 * The dashboard component: its state (headline figures, products, users,
 * loading flag, error, local tab), the product-loading effect with the fetch
 * outcome passed in, the revenue fold, the five-row previews and the tab
 * routing.
 */
module Dashboard {
  import opened Wrappers
  import opened Text
  import opened Entities

  /** A headline figure: text shown as is, or a dollar amount whose formatting is not modelled. */
  datatype Stat = Shown(text: string) | Dollars(amount: real)

  datatype DashboardData = DashboardData(
    totalRevenue: Stat,
    totalUsers: Stat,
    totalProducts: Stat,
    totalOrders: Stat,
    revenueTrend: real,
    usersTrend: real,
    productsTrend: real,
    ordersTrend: real)

  const InitialData := DashboardData(
    Shown("$12,345"), Shown("1,258"), Shown("246"), Shown("321"), 12.5, 8.2, 3.7, 5.4)

  const FallbackError := "Failed to load product data. Using sample data instead."

  /** The outcome of `fetch('https://dummyjson.com/products')` and `response.json()`. */
  datatype FetchResult = Fetched(products: seq<Product>) | FetchFailed

  /** The one-item list used when the fetch fails. */
  function SampleProduct(): Product {
    Product(1, "iPhone 9", "An apple mobile which is nothing like apple", 549.0, Some(12.96),
      4.69, 94, Some("Apple"), "smartphones", "https://i.dummyjson.com/data/products/1/thumbnail.jpg",
      ["https://i.dummyjson.com/data/products/1/1.jpg", "https://i.dummyjson.com/data/products/1/2.jpg"],
      "In Stock", Some("1 year warranty"), Some("Ships in 1 week"), Some("30 days return policy"),
      Some(1), Some([]))
  }

  /** The users shown when the caller passes none. */
  function SampleUsers(): seq<UserRow> {
    [ UserRow("1", "John Doe", "john.doe@example.com", "admin", Active, "2023-01-15T09:30:00Z"),
      UserRow("2", "Jane Smith", "jane.smith@example.com", "user", Active, "2023-02-20T14:22:00Z"),
      UserRow("3", "Robert Johnson", "robert.j@example.com", "user", Inactive, "2023-03-05T11:15:00Z"),
      UserRow("4", "Emily Davis", "emily.davis@example.com", "manager", Active, "2023-04-12T16:45:00Z"),
      UserRow("5", "Michael Wilson", "m.wilson@example.com", "user", Pending, "2023-05-08T10:20:00Z") ]
  }

  /** The `reduce` callback run left to right: every price is scaled by 100 and added. */
  function ScaledPriceFold(acc: real, products: seq<Product>): real
    decreases |products|
  {
    if |products| == 0 then acc else ScaledPriceFold(acc + products[0].price * 100.0, products[1..])
  }

  /** The revenue figure: the scaled fold divided by 100. */
  function TotalRevenue(products: seq<Product>): real {
    ScaledPriceFold(0.0, products) / 100.0
  }

  /** Reference definition: the plain sum of prices. */
  function SumOfPrices(products: seq<Product>): real {
    if |products| == 0 then 0.0 else products[0].price + SumOfPrices(products[1..])
  }

  lemma {:induction false} ScaledPriceFoldSum(acc: real, products: seq<Product>)
    ensures ScaledPriceFold(acc, products) == acc + 100.0 * SumOfPrices(products)
    decreases |products|
  {
    if |products| > 0 {
      ScaledPriceFoldSum(acc + products[0].price * 100.0, products[1..]);
    }
  }

  /** The revenue figure is the sum of the prices: the scaling cancels and stock plays no part. */
  lemma TotalRevenueIsSumOfPrices(products: seq<Product>)
    ensures TotalRevenue(products) == SumOfPrices(products)
  {
    ScaledPriceFoldSum(0.0, products);
  }

  /** Two lists with the same prices have the same revenue, whatever their stock counts. */
  lemma {:induction false} RevenueIgnoresStock(ps: seq<Product>, qs: seq<Product>)
    requires |ps| == |qs|
    requires forall i :: 0 <= i < |ps| ==> ps[i].price == qs[i].price
    ensures TotalRevenue(ps) == TotalRevenue(qs)
  {
    TotalRevenueIsSumOfPrices(ps);
    TotalRevenueIsSumOfPrices(qs);
    SamePricesSameSum(ps, qs);
  }

  lemma {:induction false} SamePricesSameSum(ps: seq<Product>, qs: seq<Product>)
    requires |ps| == |qs|
    requires forall i :: 0 <= i < |ps| ==> ps[i].price == qs[i].price
    ensures SumOfPrices(ps) == SumOfPrices(qs)
    decreases |ps|
  {
    if |ps| > 0 {
      SamePricesSameSum(ps[1..], qs[1..]);
    }
  }

  function Min(a: int, b: int): int {
    if a <= b then a else b
  }

  /** `slice(0, 5)`: the first five items, or all of them when there are fewer. */
  function Preview<T>(items: seq<T>): (r: seq<T>)
    ensures |r| == Min(5, |items|)
    ensures forall i :: 0 <= i < |r| ==> r[i] == items[i]
  {
    if |items| <= 5 then items else items[..5]
  }

  /** Previewing a preview changes nothing. */
  lemma PreviewIdempotent<T>(items: seq<T>)
    ensures Preview(Preview(items)) == Preview(items)
  {
  }

  datatype TabRoute = ToParent(tab: string) | ToLocal(tab: string)

  /** `handleTabChange`: the parent's setter wins when it is supplied. */
  function RouteTabChange(hasParentSetter: bool, tab: string): (r: TabRoute)
    ensures r.tab == tab
    ensures r.ToParent? <==> hasParentSetter
  {
    if hasParentSetter then ToParent(tab) else ToLocal(tab)
  }

  /** The four cells of a row of the user preview table. `name` is `None` when the record has no such property. */
  datatype UserPreviewCells = UserPreviewCells(id: string, name: Option<string>, email: string, role: string)

  function UserPreviewRow(u: UserRow): UserPreviewCells {
    UserPreviewCells(u.id, Some(u.name), u.email, u.role)
  }

  /** The user preview table: one row per previewed user, in order. */
  function UserPreviewTable(users: seq<UserRow>): (rows: seq<UserPreviewCells>)
    ensures |rows| == Min(5, |users|)
    ensures forall i :: 0 <= i < |rows| ==>
      rows[i].id == users[i].id && rows[i].name == Some(users[i].name) &&
      rows[i].email == users[i].email && rows[i].role == users[i].role
  {
    var shown := Preview(users);
    seq(|shown|, i requires 0 <= i < |shown| => UserPreviewRow(shown[i]))
  }

  datatype Screen =
    | Spinner
    | ProductsPreview(products: seq<Product>)
    | UsersPreview(rows: seq<UserPreviewCells>)

  class DashboardState {
    const propProducts: Option<seq<Product>>
    const propUsers: Option<seq<UserRow>>
    const hasParentSetter: bool

    var activeTab: string
    var data: DashboardData
    var products: seq<Product>
    var users: seq<UserRow>
    var loading: bool
    var error: Option<string>

    /** The initial state: a caller's products mean nothing is loading. */
    constructor (propProducts: Option<seq<Product>>, propUsers: Option<seq<UserRow>>, hasParentSetter: bool)
      ensures this.propProducts == propProducts && this.propUsers == propUsers
      ensures this.hasParentSetter == hasParentSetter
      ensures activeTab == "products" && data == InitialData
      ensures products == propProducts.GetOr([])
      ensures users == propUsers.GetOr(SampleUsers())
      ensures loading == propProducts.None?
      ensures error == None
    {
      this.propProducts := propProducts;
      this.propUsers := propUsers;
      this.hasParentSetter := hasParentSetter;
      activeTab := "products";
      data := InitialData;
      products := propProducts.GetOr([]);
      users := propUsers.GetOr(SampleUsers());
      loading := propProducts.None?;
      error := None;
    }

    /**
     * The mount effect, run to completion with the fetch outcome given:
     * nothing happens when the caller supplied products; otherwise a success
     * sets the product count and revenue and stores the list, and a failure
     * sets the error and falls back to the sample product.
     */
    method LoadProducts(result: FetchResult)
      modifies this
      ensures propProducts.Some? ==> unchanged(this)
      ensures propProducts.None? ==> !loading
      ensures propProducts.None? && result.Fetched? ==>
        && products == result.products
        && error == None
        && data == old(data).(totalProducts := Shown(DecimalString(|result.products|)),
                              totalRevenue := Dollars(TotalRevenue(result.products)))
        && ParseDecimal(data.totalProducts.text) == |result.products|
      ensures propProducts.None? && result.FetchFailed? ==>
        && products == [SampleProduct()]
        && error == Some(FallbackError)
        && data == old(data)
      ensures users == old(users) && activeTab == old(activeTab)
    {
      if propProducts.Some? {
        return;
      }
      loading := true;
      error := None;
      match result {
        case Fetched(fetched) =>
          ParseDecimalString(|fetched|);
          data := data.(totalProducts := Shown(DecimalString(|fetched|)),
                        totalRevenue := Dollars(TotalRevenue(fetched)));
          products := fetched;
        case FetchFailed =>
          error := Some(FallbackError);
          products := [SampleProduct()];
      }
      loading := false;
    }

    /**
     * The two-second timer the same effect arms: a fixed revenue figure and
     * trend, and the user count when the caller passed no users. There is no
     * timer when the caller supplied products.
     */
    method TimerFires()
      modifies this
      ensures propProducts.Some? ==> unchanged(this)
      ensures propProducts.None? ==>
        data == old(data).(totalRevenue := Shown("$12,432"), revenueTrend := 13.2,
                           totalUsers := if propUsers.None? then Shown(DecimalString(|users|)) else old(data).totalUsers)
      ensures products == old(products) && users == old(users) && activeTab == old(activeTab)
      ensures loading == old(loading) && error == old(error)
    {
      if propProducts.Some? {
        return;
      }
      data := data.(totalRevenue := Shown("$12,432"), revenueTrend := 13.2);
      if propUsers.None? {
        data := data.(totalUsers := Shown(DecimalString(|users|)));
      }
    }

    /** `handleTabChange`: returns the tab handed to the parent's setter, if there is one. */
    method HandleTabChange(tab: string) returns (forwarded: Option<string>)
      modifies this
      ensures hasParentSetter ==> forwarded == Some(tab) && activeTab == old(activeTab)
      ensures !hasParentSetter ==> forwarded == None && activeTab == tab
      ensures data == old(data) && products == old(products) && users == old(users)
      ensures loading == old(loading) && error == old(error)
    {
      match RouteTabChange(hasParentSetter, tab) {
        case ToParent(t) =>
          forwarded := Some(t);
        case ToLocal(t) =>
          activeTab := t;
          forwarded := None;
      }
    }

    /** What the component shows: a spinner while loading its own products, else the active preview table. */
    function View(): (s: Screen)
      reads this
      ensures s.Spinner? <==> loading && propProducts.None?
      ensures s.ProductsPreview? ==> s.products == Preview(products)
      ensures s.UsersPreview? ==> s.rows == UserPreviewTable(users)
      ensures !s.Spinner? ==> (s.ProductsPreview? <==> activeTab == "products")
    {
      if loading && propProducts.None? then Spinner
      else if activeTab == "products" then ProductsPreview(Preview(products))
      else UsersPreview(UserPreviewTable(users))
    }
  }

  /** What an already mounted dashboard can receive: a tab click, the fetch settling, or the timer. */
  datatype DashboardEvent = TabClicked(tab: string) | FetchSettled(result: FetchResult) | TimerElapsed

  /** The tabs clicked in a run of events, in order. */
  function TabsClicked(events: seq<DashboardEvent>): seq<string> {
    if |events| == 0 then []
    else
      var last := events[|events| - 1];
      TabsClicked(events[..|events| - 1]) + (if last.TabClicked? then [last.tab] else [])
  }

  /**
   * The dashboard as `App` mounts it: with its products, its users and its
   * tab setter. Whatever events follow, every tab click goes to the parent,
   * the local tab stays "products", and the view is the products preview of
   * the passed list, so the user preview is never rendered.
   */
  method EmbeddedDashboard(ps: seq<Product>, us: seq<UserRow>, events: seq<DashboardEvent>)
    returns (d: DashboardState, forwarded: seq<string>)
    ensures d.activeTab == "products"
    ensures d.View() == ProductsPreview(Preview(ps))
    ensures !d.View().UsersPreview?
    ensures forwarded == TabsClicked(events)
  {
    d := new DashboardState(Some(ps), Some(us), true);
    forwarded := [];
    var i := 0;
    while i < |events|
      invariant 0 <= i <= |events|
      invariant d.propProducts == Some(ps) && d.hasParentSetter
      invariant d.activeTab == "products" && d.products == ps && !d.loading
      invariant forwarded == TabsClicked(events[..i])
    {
      assert events[..i + 1][..i] == events[..i];
      match events[i] {
        case TabClicked(tab) =>
          var sent := d.HandleTabChange(tab);
          forwarded := forwarded + [sent.value];
        case FetchSettled(result) =>
          d.LoadProducts(result);
        case TimerElapsed =>
          d.TimerFires();
      }
      i := i + 1;
    }
    assert events[..i] == events;
  }

  /**
   * The fetch and the timer race: whichever finishes last decides the revenue
   * card. A fetch that lands after the timer shows the computed sum; one that
   * lands before it is overwritten by the fixed figure.
   */
  method RevenueAfterBoth(fetched: seq<Product>, timerFirst: bool) returns (d: DashboardState)
    ensures d.data.totalRevenue == if timerFirst then Dollars(TotalRevenue(fetched)) else Shown("$12,432")
    ensures d.data.totalProducts == Shown(DecimalString(|fetched|))
    ensures d.data.totalUsers == Shown("5")
  {
    d := new DashboardState(None, None, false);
    if timerFirst {
      d.TimerFires();
      d.LoadProducts(Fetched(fetched));
    } else {
      d.LoadProducts(Fetched(fetched));
      d.TimerFires();
    }
  }
}
