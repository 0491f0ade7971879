/**
 * The dashboard's own derived figures, on top of the hook's statistics:
 * the average profit per strawberry cup and the cups still needed to break
 * even, revenue and units per product and per day for the charts, the
 * total cost card, and the low and negative stock flags of the inventory
 * cards.
 */
module DashboardOverview {
  import opened Wrappers
  import opened Records
  import opened Folds
  import opened Types
  import opened DateOrder
  import opened Costing
  import DashboardStats

  // ------------------------------------------------------------------
  // Average profit per strawberry cup
  // ------------------------------------------------------------------

  /** The strawberry products: the plain cup and the kunafa cup. */
  predicate IsStrawberryCup(s: Sale) {
    s.productId == "normal" || s.productId == "kunafa"
  }

  function SaleQty(s: Sale): int { s.qty }

  /** The variable cost of a sale at its date; a product that no longer exists adds none. */
  function SaleCost(state: AppState, s: Sale): (r: real)
    ensures ProductOf(state, s.productId).None? ==> r == 0.0
  {
    match ProductOf(state, s.productId)
    case None => 0.0
    case Some(p) => s.qty as real * CostPerCup(state, p, Some(s.date))
  }

  function CostFn(state: AppState): Sale -> real { s => SaleCost(state, s) }

  datatype StrawberryFigures = StrawberryFigures(cups: int, revenue: real, cost: real)

  /** Cups, revenue and cost over the strawberry-cup sales among `sales`. */
  function Figures(state: AppState, sales: seq<Sale>): StrawberryFigures {
    var cupSales := Filter(sales, IsStrawberryCup);
    StrawberryFigures(SumInt(cupSales, SaleQty), Sum(cupSales, Revenue), Sum(cupSales, CostFn(state)))
  }

  /** Profit over cups sold, 0 when no strawberry cup was sold. */
  function AverageProfit(f: StrawberryFigures): (r: real)
    ensures f.cups <= 0 ==> r == 0.0
    ensures f.cups > 0 ==> r * f.cups as real == f.revenue - f.cost
  {
    if f.cups > 0 then (f.revenue - f.cost) / f.cups as real else 0.0
  }

  function AvgProfitPerStrawberryCup(state: AppState): real {
    AverageProfit(Figures(state, state.sales))
  }

  /** Sales of other products never move the strawberry figures. */
  lemma OtherSalesIgnored(state: AppState, sales: seq<Sale>, s: Sale)
    requires !IsStrawberryCup(s)
    ensures Figures(state, sales + [s]) == Figures(state, sales)
  {
    assert (sales + [s])[..|sales|] == sales;
  }

  /** A strawberry-cup sale adds its quantity, its revenue and its cost. */
  lemma {:induction false} StrawberrySaleCounted(state: AppState, sales: seq<Sale>, s: Sale)
    requires IsStrawberryCup(s)
    ensures var before, after := Figures(state, sales), Figures(state, sales + [s]);
      after.cups == before.cups + s.qty &&
      after.revenue == before.revenue + Revenue(s) &&
      after.cost == before.cost + SaleCost(state, s)
  {
    var cupSales := Filter(sales, IsStrawberryCup);
    assert (sales + [s])[..|sales|] == sales;
    assert Filter(sales + [s], IsStrawberryCup) == cupSales + [s];
    SumIntAppend(cupSales, [s], SaleQty);
    SumAppend(cupSales, [s], Revenue);
    SumAppend(cupSales, [s], CostFn(state));
    assert [s][..0] == [];
  }

  // ------------------------------------------------------------------
  // Cups to break even
  // ------------------------------------------------------------------

  /** `Math.ceil`. */
  function Ceil(x: real): (n: int)
    ensures n as real - 1.0 < x <= n as real
  {
    -((-x).Floor)
  }

  lemma ScaleLe(a: real, b: real, c: real)
    requires a <= b && c > 0.0
    ensures a * c <= b * c
  {
    assert b * c - a * c == (b - a) * c;
  }

  lemma ScaleLt(a: real, b: real, c: real)
    requires a < b && c > 0.0
    ensures a * c < b * c
  {
    assert b * c - a * c == (b - a) * c;
  }

  /**
   * The "cups to go" estimate, shown only while something remains and the
   * average profit is positive: the fewest cups whose average profit covers
   * what remains.
   */
  function CupsToBreakeven(remaining: real, avgProfit: real): (r: Option<int>)
    ensures r.Some? <==> remaining > 0.0 && avgProfit > 0.0
    ensures r.Some? ==> r.value >= 1
    ensures r.Some? ==> r.value as real * avgProfit >= remaining
    ensures r.Some? ==> (r.value - 1) as real * avgProfit < remaining
  {
    if remaining > 0.0 && avgProfit > 0.0 then
      var q := remaining / avgProfit;
      var n := Ceil(q);
      assert q * avgProfit == remaining;
      ScaleLe(q, n as real, avgProfit);
      assert (n - 1) as real == n as real - 1.0;
      ScaleLt((n - 1) as real, q, avgProfit);
      assert (n - 1) as real * avgProfit < remaining;
      assert q > 0.0;
      Some(n)
    else None
  }

  /** The estimate on the dashboard, from the hook's shortfall and the strawberry average. */
  function DashboardCupsToGo(state: AppState): Option<int> {
    CupsToBreakeven(DashboardStats.StatsOf(state).remainingToBreakeven, AvgProfitPerStrawberryCup(state))
  }

  /** No estimate once break-even is reached. */
  lemma NoEstimateWhenBrokenEven(state: AppState)
    requires DashboardStats.StatsOf(state).netAfterFixed >= 0.0
    ensures DashboardCupsToGo(state).None?
  {
  }

  // ------------------------------------------------------------------
  // Total costs
  // ------------------------------------------------------------------

  /** The "Total Costs" card: fixed plus variable. */
  function TotalCosts(stats: Types.DashboardStats): real {
    stats.fixedTotal + stats.totalVarCost
  }

  /** The total costs are exactly what separates net revenue from the net result. */
  lemma TotalCostsSeparateRevenueFromNet(state: AppState)
    ensures TotalCosts(DashboardStats.StatsOf(state)) ==
      DashboardStats.StatsOf(state).totalRevenue - DashboardStats.StatsOf(state).netAfterFixed
  {
  }

  // ------------------------------------------------------------------
  // Sales by product
  // ------------------------------------------------------------------

  datatype ProductSales = ProductSales(name: string, value: int, revenue: real)

  function QtyOf(id: string): Sale -> int { (s: Sale) => if s.productId == id then s.qty else 0 }

  /** Units sold of the product, valued at its current price. */
  function ProductEntry(sales: seq<Sale>, p: Product): ProductSales {
    var units := SumInt(sales, QtyOf(p.id));
    ProductSales(p.name, units, units as real * p.price)
  }

  function ProductEntries(sales: seq<Sale>, ps: seq<Product>): (r: seq<ProductSales>)
    ensures |r| == |ps|
    ensures forall k :: 0 <= k < |ps| ==> r[k] == ProductEntry(sales, ps[k])
  {
    if ps == [] then [] else ProductEntries(sales, ps[..|ps| - 1]) + [ProductEntry(sales, ps[|ps| - 1])]
  }

  function Sold(e: ProductSales): bool { e.value > 0 }

  /** `salesByProduct`: an entry per product with units sold, in dictionary order. */
  function SalesByProduct(state: AppState): (r: seq<ProductSales>)
    ensures forall i :: 0 <= i < |r| ==>
      r[i].value > 0 && exists k :: 0 <= k < |state.products| && r[i] == ProductEntry(state.sales, state.products[k].value)
    ensures forall k :: 0 <= k < |state.products| ==>
      (SumInt(state.sales, QtyOf(state.products[k].value.id)) > 0 ==> ProductEntry(state.sales, state.products[k].value) in r)
  {
    var ps := Values(state.products);
    var es := ProductEntries(state.sales, ps);
    var r := Filter(es, Sold);
    assert forall i :: 0 <= i < |r| ==> exists k :: 0 <= k < |es| && r[i] == es[k];
    assert forall k :: 0 <= k < |state.products| ==> es[k] == ProductEntry(state.sales, state.products[k].value);
    r
  }

  /** The chart's revenue is the units times the current price, whatever the sales were booked at. */
  lemma ChartRevenueAtCurrentPrice()
    ensures var p := Product("normal", "Strawberry Cup", 30.0, None, false, 0.0, 0.0, 0.0, 0.0, 0.0);
      var s := Sale("s1", 0, "normal", 2, 25.0, Manual, None);
      ProductEntry([s], p).revenue == 60.0 && Revenue(s) == 50.0
  {
    var p := Product("normal", "Strawberry Cup", 30.0, None, false, 0.0, 0.0, 0.0, 0.0, 0.0);
    var s := Sale("s1", 0, "normal", 2, 25.0, Manual, None);
    assert [s][..0] == [];
    assert SumInt([s], QtyOf(p.id)) == 2;
  }

  // ------------------------------------------------------------------
  // Sales over time
  // ------------------------------------------------------------------

  datatype DayTotal = DayTotal(date: Date, revenue: real, units: int)

  function DayDate(e: DayTotal): Date { e.date }
  function DayRevenue(e: DayTotal): real { e.revenue }
  function DayUnits(e: DayTotal): int { e.units }

  /** `acc.find(entry => entry.date === date)`, as an index; -1 when absent. */
  function FindDay(acc: seq<DayTotal>, date: Date): (i: int)
    ensures -1 <= i < |acc|
    ensures i == -1 <==> forall j :: 0 <= j < |acc| ==> acc[j].date != date
    ensures 0 <= i ==> acc[i].date == date && forall j :: 0 <= j < i ==> acc[j].date != date
  {
    if acc == [] then -1
    else if acc[0].date == date then 0
    else
      var r := FindDay(acc[1..], date);
      assert forall j :: 1 <= j < |acc| ==> acc[1..][j - 1] == acc[j];
      if r < 0 then -1 else r + 1
  }

  /** The first entry on a date is the one the dates alone point at. */
  lemma FindDayAt(acc: seq<DayTotal>, d: Date, i: int)
    requires -1 <= i < |acc|
    requires 0 <= i ==> acc[i].date == d
    requires forall j :: 0 <= j < |acc| && (i < 0 || j < i) ==> acc[j].date != d
    ensures FindDay(acc, d) == i
  {
  }

  /** One step of the reduce: add to the sale's day, or open a new day at the end. */
  function AddToDay(acc: seq<DayTotal>, s: Sale): seq<DayTotal> {
    var i := FindDay(acc, s.date);
    if 0 <= i then acc[i := DayTotal(s.date, acc[i].revenue + Revenue(s), acc[i].units + s.qty)]
    else acc + [DayTotal(s.date, Revenue(s), s.qty)]
  }

  /** Where a day sits after one step of the reduce, and what it holds. */
  lemma AddToDayFind(acc: seq<DayTotal>, s: Sale, d: Date)
    ensures var r, i := AddToDay(acc, s), FindDay(acc, d);
      (d != s.date ==> FindDay(r, d) == i && (0 <= i ==> r[i] == acc[i])) &&
      (d == s.date && 0 <= i ==>
        FindDay(r, d) == i && r[i] == DayTotal(d, acc[i].revenue + Revenue(s), acc[i].units + s.qty)) &&
      (d == s.date && i < 0 ==> FindDay(r, d) == |acc| && r[|acc|] == DayTotal(d, Revenue(s), s.qty))
  {
    var r := AddToDay(acc, s);
    var i := FindDay(acc, d);
    var si := FindDay(acc, s.date);
    if 0 <= si {
      assert forall j :: 0 <= j < |acc| ==> r[j].date == acc[j].date;
      FindDayAt(r, d, i);
    } else {
      assert forall j :: 0 <= j < |acc| ==> r[j] == acc[j];
      if d == s.date {
        FindDayAt(r, d, |acc|);
      } else {
        FindDayAt(r, d, i);
      }
    }
  }

  /** The reduce over the sales, days in order of first appearance. */
  function DailyTotals(sales: seq<Sale>): seq<DayTotal> {
    if sales == [] then [] else AddToDay(DailyTotals(sales[..|sales| - 1]), sales[|sales| - 1])
  }

  /** `salesOverTime`: the daily reduce, then sorted by date. */
  method SalesOverTime(sales: seq<Sale>) returns (days: seq<DayTotal>)
    ensures days == SortByDate(DailyTotals(sales), DayDate)
  {
    var acc: seq<DayTotal> := [];
    assert sales[..0] == [];
    for i := 0 to |sales|
      invariant acc == DailyTotals(sales[..i])
    {
      var sale := sales[i];
      var revenue := sale.qty as real * sale.unitPrice;
      var j := FindDay(acc, sale.date);
      assert sales[..i + 1][..i] == sales[..i];
      assert DailyTotals(sales[..i + 1]) == AddToDay(acc, sale);
      ghost var next := AddToDay(acc, sale);
      assert revenue == Revenue(sale);
      if 0 <= j {
        acc := acc[j := DayTotal(sale.date, acc[j].revenue + revenue, acc[j].units + sale.qty)];
      } else {
        acc := acc + [DayTotal(sale.date, revenue, sale.qty)];
      }
      assert acc == next;
    }
    assert sales[..|sales|] == sales;
    days := SortByDate(acc, DayDate);
  }

  predicate DistinctDays(days: seq<DayTotal>) {
    forall i, j :: 0 <= i < j < |days| ==> days[i].date != days[j].date
  }

  lemma {:induction false} DailyTotalsDistinct(sales: seq<Sale>)
    ensures DistinctDays(DailyTotals(sales))
  {
    if sales != [] {
      DailyTotalsDistinct(sales[..|sales| - 1]);
    }
  }

  function RevenueOn(d: Date): Sale -> real { (s: Sale) => if s.date == d then Revenue(s) else 0.0 }
  function UnitsOn(d: Date): Sale -> int { (s: Sale) => if s.date == d then s.qty else 0 }

  /** A day has an entry iff some sale is on it. */
  lemma {:induction false} DailyTotalsDays(sales: seq<Sale>, d: Date)
    ensures 0 <= FindDay(DailyTotals(sales), d) <==> exists k :: 0 <= k < |sales| && sales[k].date == d
  {
    if sales != [] {
      var init := sales[..|sales| - 1];
      var last := sales[|sales| - 1];
      DailyTotalsDays(init, d);
      AddToDayFind(DailyTotals(init), last, d);
      assert forall k :: 0 <= k < |init| ==> init[k] == sales[k];
      if 0 <= FindDay(DailyTotals(init), d) {
        var k :| 0 <= k < |init| && init[k].date == d;
        assert sales[k].date == d;
      } else if last.date != d {
        assert forall k :: 0 <= k < |sales| ==> sales[k].date != d by {
          assert forall k :: 0 <= k < |init| ==> init[k].date != d;
        }
      }
    }
  }

  /** Before any sale on a day, that day sums to nothing. */
  lemma {:induction false} DailyTotalsOff(sales: seq<Sale>, d: Date)
    requires FindDay(DailyTotals(sales), d) == -1
    ensures Sum(sales, RevenueOn(d)) == 0.0 && SumInt(sales, UnitsOn(d)) == 0
  {
    if sales != [] {
      var init := sales[..|sales| - 1];
      var last := sales[|sales| - 1];
      AddToDayFind(DailyTotals(init), last, d);
      DailyTotalsOff(init, d);
    }
  }

  /** Each day's entry sums the revenue and units of exactly the sales on that day. */
  lemma {:induction false} DailyTotalsEntry(sales: seq<Sale>, d: Date)
    requires 0 <= FindDay(DailyTotals(sales), d)
    ensures DailyTotals(sales)[FindDay(DailyTotals(sales), d)].revenue == Sum(sales, RevenueOn(d))
    ensures DailyTotals(sales)[FindDay(DailyTotals(sales), d)].units == SumInt(sales, UnitsOn(d))
  {
    var init := sales[..|sales| - 1];
    var last := sales[|sales| - 1];
    var acc := DailyTotals(init);
    AddToDayFind(acc, last, d);
    if 0 <= FindDay(acc, d) {
      DailyTotalsEntry(init, d);
    } else {
      DailyTotalsOff(init, d);
    }
  }

  /** One step of the reduce adds the sale's revenue to the days' revenue. */
  lemma AddToDayRevenue(acc: seq<DayTotal>, s: Sale)
    ensures Sum(AddToDay(acc, s), DayRevenue) == Sum(acc, DayRevenue) + Revenue(s)
  {
    var i := FindDay(acc, s.date);
    if 0 <= i {
      SumUpdate(acc, i, DayTotal(s.date, acc[i].revenue + Revenue(s), acc[i].units + s.qty), DayRevenue);
    } else {
      var e := DayTotal(s.date, Revenue(s), s.qty);
      SumAppend(acc, [e], DayRevenue);
      assert [e][..0] == [];
    }
  }

  /** One step of the reduce adds the sale's units to the days' units. */
  lemma AddToDayUnits(acc: seq<DayTotal>, s: Sale)
    ensures SumInt(AddToDay(acc, s), DayUnits) == SumInt(acc, DayUnits) + s.qty
  {
    var i := FindDay(acc, s.date);
    if 0 <= i {
      SumIntUpdate(acc, i, DayTotal(s.date, acc[i].revenue + Revenue(s), acc[i].units + s.qty), DayUnits);
    } else {
      var e := DayTotal(s.date, Revenue(s), s.qty);
      SumIntAppend(acc, [e], DayUnits);
      assert [e][..0] == [];
    }
  }

  /** The days together carry all the revenue. */
  lemma {:induction false} DailyRevenueTotal(sales: seq<Sale>)
    ensures Sum(DailyTotals(sales), DayRevenue) == Sum(sales, Revenue)
  {
    if sales != [] {
      DailyRevenueTotal(sales[..|sales| - 1]);
      AddToDayRevenue(DailyTotals(sales[..|sales| - 1]), sales[|sales| - 1]);
    }
  }

  /** The days together carry all the units. */
  lemma {:induction false} DailyUnitsTotal(sales: seq<Sale>)
    ensures SumInt(DailyTotals(sales), DayUnits) == SumInt(sales, SaleQty)
  {
    if sales != [] {
      DailyUnitsTotal(sales[..|sales| - 1]);
      AddToDayUnits(DailyTotals(sales[..|sales| - 1]), sales[|sales| - 1]);
    }
  }

  /** The chart's days run strictly forward in time and carry all the sales. */
  lemma SalesOverTimeShape(sales: seq<Sale>)
    ensures var days := SortByDate(DailyTotals(sales), DayDate);
      (forall i, j :: 0 <= i < j < |days| ==> days[i].date < days[j].date) &&
      Sum(days, DayRevenue) == Sum(sales, Revenue) &&
      SumInt(days, DayUnits) == SumInt(sales, SaleQty)
  {
    var acc := DailyTotals(sales);
    var days := SortByDate(acc, DayDate);
    DailyTotalsDistinct(sales);
    DailyRevenueTotal(sales);
    DailyUnitsTotal(sales);
    SumPermutation(days, acc, DayRevenue);
    SumIntPermutation(days, acc, DayUnits);
    forall i, j | 0 <= i < j < |days| ensures days[i].date < days[j].date {
      assert days[i].date <= days[j].date;
      DistinctAfterPermutation(acc, days, i, j);
    }
  }

  /** Distinct dates stay distinct under a permutation. */
  lemma DistinctAfterPermutation(a: seq<DayTotal>, b: seq<DayTotal>, i: nat, j: nat)
    requires DistinctDays(a) && multiset(a) == multiset(b) && i < j < |b|
    ensures b[i].date != b[j].date
  {
    if b[i].date == b[j].date {
      assert b[i] in multiset(a);
      var p :| 0 <= p < |a| && a[p] == b[i];
      assert b[j] in multiset(a);
      var q :| 0 <= q < |a| && a[q] == b[j];
      assert p == q;
      assert multiset(b)[b[i]] >= 2 by {
        assert b == b[..i] + [b[i]] + b[i + 1..j] + [b[j]] + b[j + 1..];
      }
      DistinctCountOne(a, p);
    }
  }

  lemma {:induction false} DistinctCountOne(a: seq<DayTotal>, p: nat)
    requires DistinctDays(a) && p < |a|
    ensures multiset(a)[a[p]] == 1
  {
    var x := a[p];
    assert a == a[..p] + [x] + a[p + 1..];
    assert x !in a[..p] by {
      forall k | 0 <= k < p ensures a[..p][k] != x { assert a[k].date != x.date; }
    }
    var rest := a[p + 1..];
    assert x !in rest by {
      forall k | 0 <= k < |rest| ensures rest[k] != x { assert rest[k] == a[p + 1 + k]; }
    }
  }

  // ------------------------------------------------------------------
  // Stock flags
  // ------------------------------------------------------------------

  predicate IsNegative(row: IngredientInventory) { row.remaining < 0.0 }

  predicate IsLow(row: IngredientInventory) {
    row.remaining < row.totalPurchased * 0.2 && row.remaining > 0.0
  }

  datatype StockStatus = Negative | Low | Plenty

  /** The card's colour: red for negative stock, amber for low stock, green otherwise. */
  function Status(row: IngredientInventory): (r: StockStatus)
    ensures r == Negative <==> row.remaining < 0.0
    ensures r == Low <==> 0.0 < row.remaining < 0.2 * row.totalPurchased
    ensures r == Plenty <==> row.remaining == 0.0 || (row.remaining > 0.0 && row.remaining >= 0.2 * row.totalPurchased)
  {
    if IsNegative(row) then Negative else if IsLow(row) then Low else Plenty
  }

  /** The two warnings never show together, and a low warning implies stock was bought. */
  lemma FlagsExclusive(row: IngredientInventory)
    ensures !(IsNegative(row) && IsLow(row))
    ensures IsLow(row) ==> row.totalPurchased > 0.0
  {
  }
}
