/** The report queries (app/sql/sales/), as relational expressions over the rows of the tables, and
    the plain per-product sums that they stand for. */
module Reports {
  import opened Text
  import opened Resolver
  import opened Ledger
  import opened Calendar
  import opened Periods

  /** The half-open window of a query, for one shop. */
  datatype Window = Window(shop: Uuid, start: int, end: int)

  predicate Matches(sale: Sale, w: Window) {
    sale.shopId == w.shop && w.start <= sale.createdAt < w.end
  }

  function Selected(sales: seq<Sale>, w: Window): seq<Sale> {
    if sales == [] then []
    else if Matches(sales[0], w) then [sales[0]] + Selected(sales[1..], w)
    else Selected(sales[1..], w)
  }

  // -------------------------------------------------------- revenue and count

  function TotalOf(sales: seq<Sale>): int {
    if sales == [] then 0 else sales[0].Total() + TotalOf(sales[1..])
  }

  /** get_total_revenue_and_count.sql */
  function RevenueAndCount(sales: seq<Sale>, w: Window): (int, nat) {
    (TotalOf(Selected(sales, w)), |Selected(sales, w)|)
  }

  function Plus(a: (int, nat), b: (int, nat)): (int, nat) {
    (a.0 + b.0, a.1 + b.1)
  }

  /** Adjacent windows neither drop a sale nor count one twice. */
  lemma {:induction false} WindowsAdd(sales: seq<Sale>, shop: Uuid, start: int, middle: int, end: int)
    requires start <= middle <= end
    ensures RevenueAndCount(sales, Window(shop, start, end))
            == Plus(RevenueAndCount(sales, Window(shop, start, middle)),
                    RevenueAndCount(sales, Window(shop, middle, end)))
  {
    if sales != [] {
      WindowsAdd(sales[1..], shop, start, middle, end);
    }
  }

  lemma {:induction false} EmptyWindow(sales: seq<Sale>, shop: Uuid, at: int)
    ensures RevenueAndCount(sales, Window(shop, at, at)) == (0, 0)
  {
    if sales != [] {
      EmptyWindow(sales[1..], shop, at);
    }
  }

  /** The daily figures that the sales service computes for a date. */
  function DailyFigures(sales: seq<Sale>, shop: Uuid, z: TimeZone, date: Date): (int, nat)
    requires IsDate(date)
  {
    var (start, end) := LocalDayBounds(OnDate(date), z);
    RevenueAndCount(sales, Window(shop, start, end))
  }

  /** Their sum over the days with ordinals from `first` up to, and without, `last`. */
  function SumOfDays(sales: seq<Sale>, shop: Uuid, z: TimeZone, first: int, last: int): (int, nat)
    requires 1 <= first <= last
    decreases last - first
  {
    if first == last then (0, 0)
    else Plus(SumOfDays(sales, shop, z, first, last - 1), DailyFigures(sales, shop, z, FromOrdinal(last - 1)))
  }

  lemma DayWindow(sales: seq<Sale>, shop: Uuid, z: TimeZone, day: int)
    requires day >= 1
    ensures DailyFigures(sales, shop, z, FromOrdinal(day))
            == RevenueAndCount(sales, Window(shop, z.midnight(day), z.midnight(day + 1)))
  {
    hide Ordinal, FromOrdinal, RevenueAndCount;
  }

  lemma OneMoreDay(sales: seq<Sale>, shop: Uuid, z: TimeZone, first: int, last: int)
    requires 1 <= first <= last
    ensures SumOfDays(sales, shop, z, first, first) == (0, 0)
    ensures SumOfDays(sales, shop, z, first, last + 1)
            == Plus(SumOfDays(sales, shop, z, first, last),
                    RevenueAndCount(sales, Window(shop, z.midnight(last), z.midnight(last + 1))))
  {
    hide RevenueAndCount, DailyFigures, FromOrdinal, Plus;
    DayWindow(sales, shop, z, last);
  }

  lemma {:induction false} DaysAddUp(sales: seq<Sale>, shop: Uuid, z: TimeZone, first: int, last: int)
    requires ZoneOk(z) && 1 <= first <= last
    ensures RevenueAndCount(sales, Window(shop, z.midnight(first), z.midnight(last)))
            == SumOfDays(sales, shop, z, first, last)
    decreases last - first
  {
    hide RevenueAndCount, SumOfDays, ZoneOk, Plus;
    if first == last {
      EmptyWindow(sales, shop, z.midnight(first));
      OneMoreDay(sales, shop, z, first, last);
    } else {
      DaysAddUp(sales, shop, z, first, last - 1);
      OneMoreDay(sales, shop, z, first, last - 1);
      MidnightsInOrder(z, first, last - 1);
      MidnightsInOrder(z, last - 1, last);
      WindowsAdd(sales, shop, z.midnight(first), z.midnight(last - 1), z.midnight(last));
    }
  }

  /** The total of any week, month, year or date range is the sum of the daily figures of its days. */
  lemma PeriodTotalIsSumOfDays(
    sales: seq<Sale>, shop: Uuid, z: TimeZone, p: ReportingPeriod, now: int)
    requires ZoneOk(z)
    requires p.Relative? ==> z.dateOf(now) >= 1
    requires p.DateRange? ==> IsDate(p.startDate) && IsDate(p.endDate) && Before(p.startDate, p.endDate)
    ensures var (first, last) :=
              if p.DateRange? then (Ordinal(p.startDate), Ordinal(p.endDate) + 1)
              else var (start, end) := LocalBounds(p.kind, FromOrdinal(z.dateOf(now))); (Ordinal(start), Ordinal(end));
            && 1 <= first < last
            && var (start, end) := Resolve(p, z, now);
               RevenueAndCount(sales, Window(shop, start, end)) == SumOfDays(sales, shop, z, first, last)
  {
    hide Ordinal, FromOrdinal, LocalBounds, SumOfDays, RevenueAndCount;
    match p {
      case DateRange(startDate, endDate) =>
        OrdinalsAreOrdered(startDate, endDate);
        DaysAddUp(sales, shop, z, Ordinal(startDate), Ordinal(endDate) + 1);
      case Relative(kind) =>
        var anchor := FromOrdinal(z.dateOf(now));
        var (start, end) := LocalBounds(kind, anchor);
        PeriodHoldsItsAnchor(kind, anchor);
        OrdinalsAreOrdered(start, end);
        DaysAddUp(sales, shop, z, Ordinal(start), Ordinal(end));
    }
  }

  // -------------------------------------------------------- per-product sums

  /** What a report adds up for each product. */
  datatype Measure = UNITS | REVENUE

  function Amount(sale: Sale, per: Measure): int {
    if per == UNITS then sale.quantity else sale.Total()
  }

  /** The reference: the sum over the selected sales of one product. */
  function SumFor(sales: seq<Sale>, p: Uuid, per: Measure): int {
    if sales == [] then 0
    else (if sales[0].productId == p then Amount(sales[0], per) else 0) + SumFor(sales[1..], p, per)
  }

  function SumOver(sales: seq<Sale>, ids: seq<Uuid>, per: Measure): int {
    if ids == [] then 0 else SumFor(sales, ids[0], per) + SumOver(sales, ids[1..], per)
  }

  lemma {:induction false} OneMoreSale(sales: seq<Sale>, ids: seq<Uuid>, per: Measure)
    requires sales != [] && Distinct(ids)
    ensures SumOver(sales, ids, per)
            == SumOver(sales[1..], ids, per) + if sales[0].productId in ids then Amount(sales[0], per) else 0
  {
    if ids != [] {
      OneMoreSale(sales, ids[1..], per);
      assert forall id :: id in ids <==> id == ids[0] || id in ids[1..];
    }
  }

  lemma {:induction false} NoSaleNoSum(ids: seq<Uuid>, per: Measure)
    ensures SumOver([], ids, per) == 0
  {
    if ids != [] {
      NoSaleNoSum(ids[1..], per);
    }
  }

  /** Group revenues conserve the total: over any list that names each sold product once, they add up
      to what the revenue query reports. */
  lemma {:induction false} GroupsSumToTotal(sales: seq<Sale>, ids: seq<Uuid>)
    requires Distinct(ids) && forall i :: 0 <= i < |sales| ==> sales[i].productId in ids
    ensures SumOver(sales, ids, REVENUE) == TotalOf(sales)
  {
    if sales == [] {
      NoSaleNoSum(ids, REVENUE);
    } else {
      GroupsSumToTotal(sales[1..], ids);
      OneMoreSale(sales, ids, REVENUE);
    }
  }

  // ------------------------------------------------------------- top products

  datatype Ranked = Ranked(id: Uuid, name: string, sum: int)

  /** FROM sales JOIN products ... GROUP BY product: one group for each product with a selected sale. */
  function Groups(sales: seq<Sale>, products: map<Uuid, Product>, w: Window, per: Measure): set<Ranked> {
    var selected := Selected(sales, w);
    set i | 0 <= i < |selected| && selected[i].productId in products ::
      var id := selected[i].productId;
      Ranked(id, products[id].name, SumFor(selected, id, per))
  }

  /** DENSE_RANK() OVER (ORDER BY sum DESC): one more than the number of greater sums. */
  function DenseRank(g: Ranked, groups: set<Ranked>): nat {
    1 + |set other | other in groups && other.sum > g.sum :: other.sum|
  }

  /** get_top_moving_products_by_units.sql and get_top_moving_products_by_revenue.sql */
  function TopProducts(sales: seq<Sale>, products: map<Uuid, Product>, w: Window, per: Measure): set<Ranked> {
    var groups := Groups(sales, products, w, per);
    set g | g in groups && DenseRank(g, groups) == 1
  }

  lemma FirstRankIsMaximal(g: Ranked, groups: set<Ranked>)
    ensures DenseRank(g, groups) == 1 <==> forall other :: other in groups ==> other.sum <= g.sum
  {
    var greater := set other | other in groups && other.sum > g.sum :: other.sum;
    if greater == {} {
      assert forall other :: other in groups && other.sum > g.sum ==> other.sum in greater;
    } else {
      var sum :| sum in greater;
      assert |greater| > 0;
    }
  }

  lemma {:induction false} SelectedExactly(sales: seq<Sale>, w: Window, sale: Sale)
    ensures sale in Selected(sales, w) <==> sale in sales && Matches(sale, w)
  {
    if sales != [] {
      SelectedExactly(sales[1..], w, sale);
    }
  }

  /** The top query returns exactly the products, among those that sold in the window, whose sum no
      other such product exceeds. */
  lemma TopProductsAreTheMaxima(
    sales: seq<Sale>, products: map<Uuid, Product>, w: Window, per: Measure, g: Ranked)
    ensures var selected := Selected(sales, w);
            g in TopProducts(sales, products, w, per) <==>
              && g.id in products && g.name == products[g.id].name
              && (exists sale :: sale in sales && Matches(sale, w) && sale.productId == g.id)
              && g.sum == SumFor(selected, g.id, per)
              && forall sale :: sale in sales && Matches(sale, w) && sale.productId in products ==>
                   SumFor(selected, sale.productId, per) <= g.sum
  {
    var selected, groups := Selected(sales, w), Groups(sales, products, w, per);
    FirstRankIsMaximal(g, groups);
    forall sale ensures sale in selected <==> sale in sales && Matches(sale, w) {
      SelectedExactly(sales, w, sale);
    }
    forall sale | sale in selected && sale.productId in products
      ensures Ranked(sale.productId, products[sale.productId].name, SumFor(selected, sale.productId, per)) in groups
    {
      var i :| 0 <= i < |selected| && selected[i] == sale;
    }
  }

  function SumOfSums(ranked: seq<Ranked>): int {
    if ranked == [] then 0 else ranked[0].sum + SumOfSums(ranked[1..])
  }

  lemma {:induction false} SumsAreSums(selected: seq<Sale>, ranked: seq<Ranked>, ids: seq<Uuid>, per: Measure)
    requires |ids| == |ranked|
    requires forall i :: 0 <= i < |ids| ==> ids[i] == ranked[i].id && ranked[i].sum == SumFor(selected, ids[i], per)
    ensures SumOfSums(ranked) == SumOver(selected, ids, per)
  {
    if ids != [] {
      SumsAreSums(selected, ranked[1..], ids[1..], per);
    }
  }

  /** The groups of the revenue ranking conserve the revenue: in whatever order they come, they add up
      to what the total-revenue query reports for the same window. */
  lemma RevenueGroupsSumToTotal(sales: seq<Sale>, products: map<Uuid, Product>, w: Window, ranked: seq<Ranked>)
    requires Distinct(ranked) && (set g | g in ranked) == Groups(sales, products, w, REVENUE)
    requires forall i :: 0 <= i < |sales| ==> sales[i].productId in products
    ensures SumOfSums(ranked) == RevenueAndCount(sales, w).0
  {
    hide SumFor, Selected;
    var selected, groups := Selected(sales, w), Groups(sales, products, w, REVENUE);
    var ids := seq(|ranked|, i requires 0 <= i < |ranked| => ranked[i].id);
    forall i | 0 <= i < |ranked|
      ensures ids[i] in products
      ensures ranked[i] == Ranked(ids[i], products[ids[i]].name, SumFor(selected, ids[i], REVENUE))
    {
      assert ranked[i] in groups;
    }
    forall i | 0 <= i < |selected| ensures selected[i].productId in ids {
      SelectedExactly(sales, w, selected[i]);
      var id := selected[i].productId;
      var g := Ranked(id, products[id].name, SumFor(selected, id, REVENUE));
      assert g in groups && g in ranked;
      var k :| 0 <= k < |ranked| && ranked[k] == g;
      assert ids[k] == id;
    }
    SumsAreSums(selected, ranked, ids, REVENUE);
    GroupsSumToTotal(selected, ids);
  }

  predicate IsMaximal(g: Ranked, groups: set<Ranked>) {
    g in groups && forall other :: other in groups ==> other.sum <= g.sum
  }

  lemma {:induction false} SomeGroupIsMaximal(groups: set<Ranked>) returns (top: Ranked)
    requires groups != {}
    ensures IsMaximal(top, groups)
    decreases groups
  {
    var g :| g in groups;
    if groups == {g} {
      top := g;
    } else {
      var best := SomeGroupIsMaximal(groups - {g});
      top := if g.sum > best.sum then g else best;
      assert forall other :: other in groups ==> other == g || other in groups - {g};
    }
  }

  /** There is a top product as soon as one known product has sold. */
  lemma TopProductExists(sales: seq<Sale>, products: map<Uuid, Product>, w: Window, per: Measure, sale: Sale)
    requires sale in sales && Matches(sale, w) && sale.productId in products
    ensures TopProducts(sales, products, w, per) != {}
  {
    var selected, groups := Selected(sales, w), Groups(sales, products, w, per);
    SelectedExactly(sales, w, sale);
    var i :| 0 <= i < |selected| && selected[i] == sale;
    assert Ranked(sale.productId, products[sale.productId].name, SumFor(selected, sale.productId, per)) in groups;
    var top := SomeGroupIsMaximal(groups);
    FirstRankIsMaximal(top, groups);
    assert top in TopProducts(sales, products, w, per);
  }

  // ------------------------------------------------------ slow-moving products

  /** A row of the inventory table. */
  datatype InventoryRow = InventoryRow(productId: Uuid, quantity: int)

  /** UniqueConstraint("product_id") */
  predicate OneRowEach(inventory: seq<InventoryRow>) {
    forall i, j :: 0 <= i < j < |inventory| ==> inventory[i].productId != inventory[j].productId
  }

  /** A row of the two left joins; a side without a match is null. */
  datatype Joined = Joined(sale: Option<Sale>, stock: Option<int>)

  /** The selected sales of a product, or one null. */
  function SalesSide(selected: seq<Sale>, p: Uuid): seq<Option<Sale>> {
    var own := SalesOf(selected, p);
    if own == [] then [None] else Nullable(own)
  }

  function Nullable(sales: seq<Sale>): seq<Option<Sale>> {
    seq(|sales|, i requires 0 <= i < |sales| => Some(sales[i]))
  }

  function SalesOf(selected: seq<Sale>, p: Uuid): seq<Sale> {
    if selected == [] then []
    else if selected[0].productId == p then [selected[0]] + SalesOf(selected[1..], p)
    else SalesOf(selected[1..], p)
  }

  function StocksOf(inventory: seq<InventoryRow>, p: Uuid): seq<Option<int>> {
    if inventory == [] then []
    else if inventory[0].productId == p then [Some(inventory[0].quantity)] + StocksOf(inventory[1..], p)
    else StocksOf(inventory[1..], p)
  }

  /** The inventory rows of a product, or one null. */
  function StockSide(inventory: seq<InventoryRow>, p: Uuid): seq<Option<int>> {
    if StocksOf(inventory, p) == [] then [None] else StocksOf(inventory, p)
  }

  function Paired(sale: Option<Sale>, stocks: seq<Option<int>>): seq<Joined> {
    if stocks == [] then [] else [Joined(sale, stocks[0])] + Paired(sale, stocks[1..])
  }

  function Cross(sales: seq<Option<Sale>>, stocks: seq<Option<int>>): seq<Joined> {
    if sales == [] then [] else Paired(sales[0], stocks) + Cross(sales[1..], stocks)
  }

  /** products LEFT JOIN sales LEFT JOIN inventory, for one product. */
  function JoinedRows(selected: seq<Sale>, inventory: seq<InventoryRow>, p: Uuid): seq<Joined> {
    Cross(SalesSide(selected, p), StockSide(inventory, p))
  }

  /** COALESCE(SUM(sales.quantity), 0) over the joined rows in the group of one inventory quantity. */
  function GroupUnits(rows: seq<Joined>, stock: Option<int>): int {
    if rows == [] then 0
    else
      (if rows[0].stock == stock && rows[0].sale.Some? then rows[0].sale.value.quantity else 0)
      + GroupUnits(rows[1..], stock)
  }

  datatype SlowProduct = SlowProduct(id: Uuid, name: string, price: int, unitsSold: int, currentStock: int)

  /** GROUP BY product and inventory.quantity, HAVING at most `max` units. */
  function SlowGroups(
    sales: seq<Sale>, products: map<Uuid, Product>, inventory: seq<InventoryRow>, w: Window, max: int)
    : set<SlowProduct>
  {
    var selected := Selected(sales, w);
    set id, stock |
      && id in products && products[id].shopId == w.shop
      && stock in StockSide(inventory, id)
      && GroupUnits(JoinedRows(selected, inventory, id), stock) <= max
      :: SlowProduct(id, products[id].name, products[id].price,
                     GroupUnits(JoinedRows(selected, inventory, id), stock),
                     if stock.Some? then stock.value else 0)
  }

  /** ORDER BY units_sold ASC, product_name ASC, where `sortsBefore` is the collation of the database. */
  ghost predicate SlowestFirst(rows: seq<SlowProduct>, sortsBefore: (string, string) -> bool) {
    forall i, j :: 0 <= i < j < |rows| ==>
      || rows[i].unitsSold < rows[j].unitsSold
      || (rows[i].unitsSold == rows[j].unitsSold && sortsBefore(rows[i].name, rows[j].name))
  }

  /** `rows` is a possible answer of get_slow_moving_products.sql. */
  ghost predicate SlowRows(
    rows: seq<SlowProduct>, sales: seq<Sale>, products: map<Uuid, Product>, inventory: seq<InventoryRow>,
    w: Window, max: int, limit: nat, sortsBefore: (string, string) -> bool)
  {
    exists ordered: seq<SlowProduct> ::
      && Distinct(ordered) && SlowestFirst(ordered, sortsBefore)
      && (set r | r in ordered) == SlowGroups(sales, products, inventory, w, max)
      && rows == Limit(ordered, limit)
  }

  function UnitsOf(sale: Option<Sale>): int {
    if sale.Some? then sale.value.quantity else 0
  }

  function UnitsIn(sales: seq<Option<Sale>>): int {
    if sales == [] then 0 else UnitsOf(sales[0]) + UnitsIn(sales[1..])
  }

  function Occurrences(stocks: seq<Option<int>>, stock: Option<int>): nat {
    if stocks == [] then 0 else (if stocks[0] == stock then 1 else 0) + Occurrences(stocks[1..], stock)
  }

  lemma {:induction false} GroupUnitsConcat(a: seq<Joined>, b: seq<Joined>, stock: Option<int>)
    ensures GroupUnits(a + b, stock) == GroupUnits(a, stock) + GroupUnits(b, stock)
  {
    if a == [] {
      assert a + b == b;
    } else {
      GroupUnitsConcat(a[1..], b, stock);
      assert (a + b)[1..] == a[1..] + b;
    }
  }

  lemma {:induction false} PairedUnits(sale: Option<Sale>, stocks: seq<Option<int>>, stock: Option<int>)
    ensures GroupUnits(Paired(sale, stocks), stock) == UnitsOf(sale) * Occurrences(stocks, stock)
  {
    if stocks != [] {
      PairedUnits(sale, stocks[1..], stock);
      assert Paired(sale, stocks)[1..] == Paired(sale, stocks[1..]);
    }
  }

  lemma NoRows(stock: Option<int>)
    ensures GroupUnits([], stock) == 0
  {
  }

  lemma Distribute(a: int, b: int, k: int)
    ensures (a + b) * k == a * k + b * k
  {
  }

  lemma {:induction false} CrossUnits(sales: seq<Option<Sale>>, stocks: seq<Option<int>>, stock: Option<int>)
    ensures GroupUnits(Cross(sales, stocks), stock) == UnitsIn(sales) * Occurrences(stocks, stock)
  {
    hide GroupUnits, Paired, Occurrences;
    if sales == [] {
      assert GroupUnits([], stock) == 0 by { NoRows(stock); }
    } else {
      CrossUnits(sales[1..], stocks, stock);
      Distribute(UnitsOf(sales[0]), UnitsIn(sales[1..]), Occurrences(stocks, stock));
      PairedUnits(sales[0], stocks, stock);
      GroupUnitsConcat(Paired(sales[0], stocks), Cross(sales[1..], stocks), stock);
    }
  }

  lemma {:induction false} OwnSalesSum(selected: seq<Sale>, p: Uuid)
    ensures UnitsIn(Nullable(SalesOf(selected, p))) == SumFor(selected, p, UNITS)
  {
    if selected != [] {
      OwnSalesSum(selected[1..], p);
      var own := SalesOf(selected, p);
      if selected[0].productId == p {
        assert Nullable(own)[1..] == Nullable(SalesOf(selected[1..], p));
      }
    }
  }

  /** What the join really adds up, whatever the inventory table holds: the units of the product,
      once for each of its inventory rows in the group. */
  lemma JoinMultipliesByInventoryRows(
    selected: seq<Sale>, inventory: seq<InventoryRow>, p: Uuid, stock: Option<int>)
    ensures GroupUnits(JoinedRows(selected, inventory, p), stock)
            == SumFor(selected, p, UNITS) * Occurrences(StockSide(inventory, p), stock)
  {
    CrossUnits(SalesSide(selected, p), StockSide(inventory, p), stock);
    OwnSalesSum(selected, p);
    assert SalesOf(selected, p) == [] ==> SalesSide(selected, p)[1..] == [];
  }

  lemma {:induction false} StocksComeFromRows(inventory: seq<InventoryRow>, p: Uuid)
    ensures StocksOf(inventory, p) == [] <==> forall i :: 0 <= i < |inventory| ==> inventory[i].productId != p
  {
    if inventory != [] {
      StocksComeFromRows(inventory[1..], p);
      assert inventory[0].productId != p ==>
        forall i :: 0 < i < |inventory| ==> inventory[i] == inventory[1..][i - 1];
    }
  }

  /** With the unique constraint each product has one group. */
  lemma {:induction false} OneStockEach(inventory: seq<InventoryRow>, p: Uuid)
    requires OneRowEach(inventory)
    ensures |StocksOf(inventory, p)| <= 1 && |StockSide(inventory, p)| == 1
  {
    if inventory != [] {
      OneStockEach(inventory[1..], p);
      if inventory[0].productId == p {
        StocksComeFromRows(inventory[1..], p);
      }
    }
  }

  /** The stock that a report shows: zero for a product without an inventory row. */
  function StockOf(inventory: seq<InventoryRow>, p: Uuid): int {
    if StocksOf(inventory, p) != [] && StocksOf(inventory, p)[0].Some? then StocksOf(inventory, p)[0].value else 0
  }

  function Report(
    sales: seq<Sale>, products: map<Uuid, Product>, inventory: seq<InventoryRow>, w: Window, id: Uuid): SlowProduct
    requires id in products
  {
    SlowProduct(id, products[id].name, products[id].price,
                SumFor(Selected(sales, w), id, UNITS), StockOf(inventory, id))
  }

  predicate IsSlow(sales: seq<Sale>, products: map<Uuid, Product>, w: Window, max: int, id: Uuid) {
    InShop(products, w.shop, id) && SumFor(Selected(sales, w), id, UNITS) <= max
  }

  lemma OneGroupEach(selected: seq<Sale>, inventory: seq<InventoryRow>, p: Uuid)
    requires OneRowEach(inventory)
    ensures |StockSide(inventory, p)| == 1
    ensures var stock := StockSide(inventory, p)[0];
            && GroupUnits(JoinedRows(selected, inventory, p), stock) == SumFor(selected, p, UNITS)
            && StockOf(inventory, p) == if stock.Some? then stock.value else 0
  {
    OneStockEach(inventory, p);
    JoinMultipliesByInventoryRows(selected, inventory, p, StockSide(inventory, p)[0]);
    assert StockSide(inventory, p)[1..] == [];
  }

  /** The groups refine the plain sums: one for each slow product of the shop, with its exact units. */
  lemma SlowGroupsAreExact(
    sales: seq<Sale>, products: map<Uuid, Product>, inventory: seq<InventoryRow>, w: Window, max: int, r: SlowProduct)
    requires OneRowEach(inventory)
    ensures r in SlowGroups(sales, products, inventory, w, max) <==>
              IsSlow(sales, products, w, max, r.id) && r == Report(sales, products, inventory, w, r.id)
  {
    hide GroupUnits, JoinedRows, StockSide, StockOf, SumFor, Selected, OneRowEach;
    var selected := Selected(sales, w);
    OneGroupEach(selected, inventory, r.id);
    if r in SlowGroups(sales, products, inventory, w, max) {
      var id: Uuid, stock: Option<int> :|
        && id in products && products[id].shopId == w.shop && stock in StockSide(inventory, id)
        && GroupUnits(JoinedRows(selected, inventory, id), stock) <= max
        && r == SlowProduct(id, products[id].name, products[id].price,
                            GroupUnits(JoinedRows(selected, inventory, id), stock),
                            if stock.Some? then stock.value else 0);
      assert stock == StockSide(inventory, r.id)[0];
    }
    if IsSlow(sales, products, w, max, r.id) && r == Report(sales, products, inventory, w, r.id) {
      assert StockSide(inventory, r.id)[0] in StockSide(inventory, r.id);
    }
  }

  /** The query lists each slow product of the shop at most once, with its exact units in the window,
      and leaves one out only when the list is full of products that sold no more. */
  lemma SlowQueryListsEachOnce(
    rows: seq<SlowProduct>, sales: seq<Sale>, products: map<Uuid, Product>, inventory: seq<InventoryRow>,
    w: Window, max: int, limit: nat, sortsBefore: (string, string) -> bool)
    requires OneRowEach(inventory)
    requires SlowRows(rows, sales, products, inventory, w, max, limit, sortsBefore)
    ensures |rows| <= limit
    ensures forall r :: r in rows ==>
      IsSlow(sales, products, w, max, r.id) && r == Report(sales, products, inventory, w, r.id)
    ensures forall i, j :: 0 <= i < j < |rows| ==> rows[i].id != rows[j].id
    ensures forall id :: IsSlow(sales, products, w, max, id) ==>
      var own := Report(sales, products, inventory, w, id);
      own in rows || (|rows| == limit && forall r :: r in rows ==> r.unitsSold <= own.unitsSold)
  {
    var groups := SlowGroups(sales, products, inventory, w, max);
    var ordered: seq<SlowProduct> :|
      && Distinct(ordered) && SlowestFirst(ordered, sortsBefore)
      && (set r | r in ordered) == groups && rows == Limit(ordered, limit);
    forall r ensures r in ordered <==>
      IsSlow(sales, products, w, max, r.id) && r == Report(sales, products, inventory, w, r.id)
    {
      SlowGroupsAreExact(sales, products, inventory, w, max, r);
      assert r in ordered <==> r in groups;
    }
    forall i | 0 <= i < |rows| ensures rows[i] == ordered[i] && rows[i] in ordered {
    }
    forall id | IsSlow(sales, products, w, max, id)
      ensures var own := Report(sales, products, inventory, w, id);
        own in rows || (|rows| == limit && forall r :: r in rows ==> r.unitsSold <= own.unitsSold)
    {
      var own := Report(sales, products, inventory, w, id);
      var k :| 0 <= k < |ordered| && ordered[k] == own;
      if k < |rows| {
        assert rows[k] == own;
      }
    }
  }

  // ---------------------------------------------------------- what a row adds

  lemma {:induction false} SelectedConcat(a: seq<Sale>, b: seq<Sale>, w: Window)
    ensures Selected(a + b, w) == Selected(a, w) + Selected(b, w)
  {
    if a == [] {
      assert a + b == b;
    } else {
      SelectedConcat(a[1..], b, w);
      assert (a + b)[1..] == a[1..] + b;
    }
  }

  lemma {:induction false} TotalConcat(a: seq<Sale>, b: seq<Sale>)
    ensures TotalOf(a + b) == TotalOf(a) + TotalOf(b)
  {
    if a == [] {
      assert a + b == b;
    } else {
      TotalConcat(a[1..], b);
      assert (a + b)[1..] == a[1..] + b;
    }
  }

  lemma {:induction false} SumConcat(a: seq<Sale>, b: seq<Sale>, p: Uuid, per: Measure)
    ensures SumFor(a + b, p, per) == SumFor(a, p, per) + SumFor(b, p, per)
  {
    if a == [] {
      assert a + b == b;
    } else {
      SumConcat(a[1..], b, p, per);
      assert (a + b)[1..] == a[1..] + b;
    }
  }

  lemma SelectedAround(a: seq<Sale>, sale: Sale, b: seq<Sale>, w: Window)
    ensures Selected(a + [sale] + b, w) == Selected(a, w) + Selected([sale], w) + Selected(b, w)
    ensures Selected(a + b, w) == Selected(a, w) + Selected(b, w)
    ensures Selected([sale], w) ==
      if sale.shopId == w.shop && w.start <= sale.createdAt < w.end then [sale] else []
  {
    SelectedConcat(a + [sale], b, w);
    SelectedConcat(a, [sale], w);
    SelectedConcat(a, b, w);
    assert [sale][1..] == [];
  }

  /** A sale of another shop, or outside the half-open window, changes no report, wherever it stands in the
      table. */
  lemma OtherSalesDoNotCount(
    a: seq<Sale>, sale: Sale, b: seq<Sale>, products: map<Uuid, Product>, inventory: seq<InventoryRow>,
    w: Window, per: Measure, max: int)
    requires sale.shopId != w.shop || sale.createdAt < w.start || sale.createdAt >= w.end
    ensures RevenueAndCount(a + [sale] + b, w) == RevenueAndCount(a + b, w)
    ensures TopProducts(a + [sale] + b, products, w, per) == TopProducts(a + b, products, w, per)
    ensures SlowGroups(a + [sale] + b, products, inventory, w, max) == SlowGroups(a + b, products, inventory, w, max)
  {
    SelectedAround(a, sale, b, w);
    assert Selected(a, w) + [] + Selected(b, w) == Selected(a, w) + Selected(b, w);
  }

  lemma SumAround(a: seq<Sale>, sale: Sale, b: seq<Sale>, p: Uuid, per: Measure)
    ensures SumFor(a + [sale] + b, p, per)
            == SumFor(a + b, p, per) + if sale.productId == p then Amount(sale, per) else 0
  {
    SumConcat(a + [sale], b, p, per);
    SumConcat(a, [sale], p, per);
    SumConcat(a, b, p, per);
    assert [sale][1..] == [];
    assert SumFor([], p, per) == 0;
  }

  /** A sale of the shop inside the window adds its quantity times its unit price, and one transaction; to the
      sums of its own product it adds its quantity and that amount, and to no other product's anything. */
  lemma OwnSaleCounts(a: seq<Sale>, sale: Sale, b: seq<Sale>, w: Window, p: Uuid)
    requires sale.shopId == w.shop && w.start <= sale.createdAt < w.end
    ensures RevenueAndCount(a + [sale] + b, w)
            == Plus(RevenueAndCount(a + b, w), (sale.quantity * sale.unitPrice, 1))
    ensures var before, after := Selected(a + b, w), Selected(a + [sale] + b, w);
            && SumFor(after, p, UNITS) == SumFor(before, p, UNITS) + (if sale.productId == p then sale.quantity else 0)
            && SumFor(after, p, REVENUE)
               == SumFor(before, p, REVENUE) + (if sale.productId == p then sale.quantity * sale.unitPrice else 0)
  {
    var left, right := Selected(a, w), Selected(b, w);
    SelectedAround(a, sale, b, w);
    TotalConcat(left + [sale], right);
    TotalConcat(left, [sale]);
    TotalConcat(left, right);
    SumAround(left, sale, right, p, UNITS);
    SumAround(left, sale, right, p, REVENUE);
    assert [sale][1..] == [];
    assert TotalOf([sale]) == sale.quantity * sale.unitPrice;
  }
}
