/**
 * The sales log: the manual sale-entry form, and the running profit and
 * loss over the recorded sales. The rows are the sales in ascending date
 * order, each with its revenue, its variable cost at the recipe cost of its
 * own date, the cumulative revenue and profit up to and including it, and
 * how far the business still is from covering the fixed costs at that
 * point. The table shows the rows newest first.
 *
 * The form's text fields are given here with the values `parseInt` and
 * `parseFloat` produced for them; a number that failed to parse is `NaN`.
 */
module SalesLog {
  import opened Wrappers
  import opened Folds
  import opened Types
  import opened DateOrder
  import opened Costing
  import Usage
  import DashboardStats
  import AppStore

  // ------------------------------------------------------------------
  // The sale-entry form
  // ------------------------------------------------------------------

  /**
   * The submitted form. `date` is absent when the date field is empty;
   * `qtyText` is the quantity as typed and `qty`/`price` the parsed
   * quantity and unit price.
   */
  datatype SaleForm = SaleForm(
    date: Option<Date>,
    productId: string,
    qtyText: string,
    qty: Parsed<int>,
    price: Parsed<real>)

  const InvalidSaleError := "Please fill all fields correctly."

  /** `qtyNum <= 0`: every comparison with `NaN` is false. */
  predicate AtMostZero(n: Parsed<int>) {
    n.Value? && n.v <= 0
  }

  /** The guard of the form exactly as written: a `NaN` quantity slips through it. */
  predicate AcceptedAsWritten(f: SaleForm) {
    f.date.Some? && f.productId != "" && f.qtyText != "" && !AtMostZero(f.qty) && f.price.Value?
  }

  /**
   * The quantity text `.5e1` is the number 5, so it passes the field's
   * `min="1" step="1"` constraints, but `parseInt` stops at the `.` and
   * gives `NaN`, and the guard lets the sale through.
   */
  lemma NaNQuantityAccepted()
    ensures AcceptedAsWritten(SaleForm(Some(0), "normal", ".5e1", NaN, Value(30.0)))
  {
  }

  /** The guard as intended: the quantity must be a positive number. */
  predicate Accepted(f: SaleForm) {
    f.date.Some? && f.productId != "" && f.qtyText != "" && f.qty.Value? && f.qty.v > 0 && f.price.Value?
  }

  /** The intended guard refuses exactly what the written one refuses, and a quantity that is not a number. */
  lemma AcceptedIsAsWrittenWithNumber(f: SaleForm)
    ensures Accepted(f) <==> AcceptedAsWritten(f) && f.qty.Value?
  {
  }

  /**
   * `handleSubmit`, with the quantity guard corrected: a complete form
   * becomes one sale of its date, product, quantity and price, without
   * source or checkout id; anything else is refused.
   */
  function SubmittedSale(f: SaleForm): (r: Option<AppStore.SaleDraft>)
    ensures r.Some? <==> Accepted(f)
    ensures r.Some? ==>
      r.value.date == f.date.value && r.value.productId == f.productId &&
      r.value.qty == f.qty.v && r.value.qty > 0 && r.value.unitPrice == f.price.v &&
      r.value.source.None? && r.value.transactionId.None?
  {
    if Accepted(f) then Some(AppStore.SaleDraft(f.date.value, f.productId, f.qty.v, f.price.v, None, None))
    else None
  }

  /**
   * Submitting the form, with the guard corrected as in `Accepted`: a
   * quantity text that does not parse is refused here, while the form as
   * written stores a sale whose quantity is `NaN` (`NaNQuantityAccepted`).
   * A refused form shows the error and leaves the store alone; an accepted
   * one appends exactly one manual sale.
   */
  method HandleSubmit(store: AppStore.Store, f: SaleForm, id: string) returns (error: string)
    modifies store
    ensures error == "" <==> Accepted(f)
    ensures error != "" ==> error == InvalidSaleError && store.Snapshot() == old(store.Snapshot())
    ensures error == "" ==> store.Snapshot() == old(store.Snapshot()).(sales :=
      old(store.sales) + [AppStore.NewSale(id, SubmittedSale(f).value)])
    ensures old(store.Valid()) ==> store.Valid()
  {
    var draft := SubmittedSale(f);
    if draft.None? {
      return InvalidSaleError;
    }
    store.AddSale(id, draft.value);
    error := "";
  }

  // ------------------------------------------------------------------
  // The running profit and loss
  // ------------------------------------------------------------------

  datatype Row = Row(
    sale: Sale,
    index: int,
    product: Option<Product>,
    revenue: real,
    costPerCup: real,
    varCost: real,
    profitBeforeFixed: real,
    cumulativeRevenue: real,
    cumulativeProfit: real,
    netAfterFixed: real,
    isBreakeven: bool,
    remainingToBreakeven: real,
    strawberryG: real,
    chocolateG: real,
    kunafaG: real,
    batchUsed: string)

  /** `[...state.sales].sort((a, b) => a.date.localeCompare(b.date))`. */
  function SortedSales(state: AppState): seq<Sale> {
    SortByDate(state.sales, SaleDate)
  }

  /** The cost of one cup on the sale's date; 0 when the product no longer exists. */
  function SaleCostPerCup(state: AppState, s: Sale): real {
    match ProductOf(state, s.productId)
    case None => 0.0
    case Some(p) => CostPerCup(state, p, Some(s.date))
  }

  /** Revenue less the variable cost of the cups sold. */
  function SaleProfit(state: AppState, s: Sale): real {
    Revenue(s) - s.qty as real * SaleCostPerCup(state, s)
  }

  function ProfitFn(state: AppState): Sale -> real { s => SaleProfit(state, s) }

  /** `batch?.name || 'Default'`. */
  function BatchLabel(batch: Option<StrawberryBatch>): string {
    if batch.Some? && batch.value.name != "" then batch.value.name else "Default"
  }

  /** The row of one sale, given its position (from 1) and the running totals up to it. */
  function MakeRow(state: AppState, fixedTotal: real, s: Sale, index: int,
                   cumulativeRevenue: real, cumulativeProfit: real): Row
  {
    var product := ProductOf(state, s.productId);
    var costPerCup := SaleCostPerCup(state, s);
    var net := cumulativeProfit - fixedTotal;
    var batch := StrawberryBatchAt(state.strawberryBatches, s.date);
    var grams := LoggedGrams(state, s);
    Row(s, index, product, Revenue(s), costPerCup, s.qty as real * costPerCup, SaleProfit(state, s),
      cumulativeRevenue, cumulativeProfit, net, net >= 0.0, DashboardStats.RemainingToBreakeven(net),
      grams.strawberry, grams.chocolate, grams.kunafa, BatchLabel(batch))
  }

  /**
   * The strawberry, chocolate and kunafa grams the row shows: the recipe
   * amounts times the quantity for an existing product costed by recipe,
   * strawberries weighed at the average weight of the batch for the date.
   */
  datatype RowGrams = RowGrams(strawberry: real, chocolate: real, kunafa: real)

  function LoggedGrams(state: AppState, s: Sale): RowGrams {
    var product := ProductOf(state, s.productId);
    var avgWeight := Usage.AvgWeight(StrawberryBatchAt(state.strawberryBatches, s.date));
    var q := s.qty as real;
    if product.Some? && !product.value.useManualCost then
      RowGrams(q * product.value.strawberriesPerCup * avgWeight, q * product.value.chocolatePerCup,
        q * product.value.kunafaPerCup)
    else RowGrams(0.0, 0.0, 0.0)
  }

  /** Row `k` of the sorted sales: the running totals cover rows 1 to `k + 1`. */
  function RowAt(state: AppState, fixedTotal: real, sorted: seq<Sale>, k: nat): Row
    requires k < |sorted|
  {
    MakeRow(state, fixedTotal, sorted[k], k + 1,
      Sum(sorted[..k + 1], Revenue), Sum(sorted[..k + 1], ProfitFn(state)))
  }

  /** `salesWithCalculations`: the map over the sorted sales with its two running totals. */
  method SalesWithCalculations(state: AppState) returns (rows: seq<Row>)
    ensures |rows| == |state.sales|
    ensures forall k :: 0 <= k < |rows| ==>
      rows[k] == RowAt(state, DashboardStats.FixedTotal(state.fixedCosts), SortedSales(state), k)
  {
    var fixedTotal := DashboardStats.FixedTotal(state.fixedCosts);
    var sorted := SortedSales(state);
    var cumulativeRevenue := 0.0;
    var cumulativeProfit := 0.0;
    rows := [];
    assert sorted[..0] == [];
    for i := 0 to |sorted|
      invariant |rows| == i
      invariant forall k :: 0 <= k < i ==> rows[k] == RowAt(state, fixedTotal, sorted, k)
      invariant cumulativeRevenue == Sum(sorted[..i], Revenue)
      invariant cumulativeProfit == Sum(sorted[..i], ProfitFn(state))
    {
      var sale := sorted[i];
      SumPrefixStep(sorted, i, Revenue);
      SumPrefixStep(sorted, i, ProfitFn(state));
      cumulativeRevenue := cumulativeRevenue + Revenue(sale);
      cumulativeProfit := cumulativeProfit + SaleProfit(state, sale);
      var row := MakeRow(state, fixedTotal, sale, i + 1, cumulativeRevenue, cumulativeProfit);
      assert row == RowAt(state, fixedTotal, sorted, i);
      AppendRow(rows, row, state, fixedTotal, sorted);
      rows := rows + [row];
    }
  }

  lemma AppendRow(rows: seq<Row>, row: Row, state: AppState, fixedTotal: real, sorted: seq<Sale>)
    requires |rows| < |sorted|
    requires forall k :: 0 <= k < |rows| ==> rows[k] == RowAt(state, fixedTotal, sorted, k)
    requires row == RowAt(state, fixedTotal, sorted, |rows|)
    ensures forall k :: 0 <= k <= |rows| ==> (rows + [row])[k] == RowAt(state, fixedTotal, sorted, k)
  {
  }

  // ------------------------------------------------------------------
  // What the rows say
  // ------------------------------------------------------------------

  /** The rows run in ascending date order over exactly the recorded sales. */
  lemma RowsAreSortedSales(state: AppState, rows: seq<Row>)
    requires |rows| == |state.sales|
    requires forall k :: 0 <= k < |rows| ==>
      rows[k] == RowAt(state, DashboardStats.FixedTotal(state.fixedCosts), SortedSales(state), k)
    ensures forall i, j :: 0 <= i < j < |rows| ==> rows[i].sale.date <= rows[j].sale.date
    ensures multiset(seq(|rows|, k requires 0 <= k < |rows| => rows[k].sale)) == multiset(state.sales)
    ensures forall k :: 0 <= k < |rows| ==> rows[k].index == k + 1
  {
    var sorted := SortedSales(state);
    assert seq(|rows|, k requires 0 <= k < |rows| => rows[k].sale) == sorted;
  }

  /** A row breaks even iff its cumulative profit covers the fixed costs; otherwise it shows the shortfall. */
  lemma {:induction false} RowBreakeven(state: AppState, fixedTotal: real, sorted: seq<Sale>, k: nat)
    requires k < |sorted|
    ensures var r := RowAt(state, fixedTotal, sorted, k);
      (r.isBreakeven <==> r.cumulativeProfit - fixedTotal >= 0.0) &&
      (r.isBreakeven ==> r.remainingToBreakeven == 0.0) &&
      (!r.isBreakeven ==> r.remainingToBreakeven == fixedTotal - r.cumulativeProfit)
  {
    var r := RowAt(state, fixedTotal, sorted, k);
    assert r.netAfterFixed == r.cumulativeProfit - fixedTotal;
  }

  /** The running totals grow by exactly the row's own revenue and profit. */
  lemma RunningTotalsStep(state: AppState, fixedTotal: real, sorted: seq<Sale>, k: nat)
    requires 0 < k < |sorted|
    ensures RowAt(state, fixedTotal, sorted, k).cumulativeRevenue ==
      RowAt(state, fixedTotal, sorted, k - 1).cumulativeRevenue + Revenue(sorted[k])
    ensures RowAt(state, fixedTotal, sorted, k).cumulativeProfit ==
      RowAt(state, fixedTotal, sorted, k - 1).cumulativeProfit + SaleProfit(state, sorted[k])
  {
    SumPrefixStep(sorted, k, Revenue);
    SumPrefixStep(sorted, k, ProfitFn(state));
  }

  /** The summary card: the last row's total, 0 for an empty log. */
  function LastOr(rows: seq<Row>, total: Row -> real): real {
    if rows == [] then 0.0 else total(rows[|rows| - 1])
  }

  function RowRevenueTotal(r: Row): real { r.cumulativeRevenue }
  function RowProfitTotal(r: Row): real { r.cumulativeProfit }

  /** The summary cards show the total revenue and profit of all sales, whatever their order. */
  lemma {:induction false} SummaryTotals(state: AppState, rows: seq<Row>)
    requires |rows| == |state.sales|
    requires forall k :: 0 <= k < |rows| ==>
      rows[k] == RowAt(state, DashboardStats.FixedTotal(state.fixedCosts), SortedSales(state), k)
    ensures LastOr(rows, RowRevenueTotal) == Sum(state.sales, Revenue)
    ensures LastOr(rows, RowProfitTotal) == Sum(state.sales, ProfitFn(state))
  {
    var sorted := SortedSales(state);
    SumPermutation(sorted, state.sales, Revenue);
    SumPermutation(sorted, state.sales, ProfitFn(state));
    if rows != [] {
      assert sorted[..|rows|] == sorted;
    }
  }

  datatype BreakevenCard = Achieved | Remaining(amount: real)

  /** The Break-even Status card: the last row's status, its shortfall `|| fixedTotal`. */
  function BreakevenCardOf(rows: seq<Row>, fixedTotal: real): BreakevenCard {
    if rows != [] && rows[|rows| - 1].isBreakeven then Achieved
    else if rows != [] && rows[|rows| - 1].remainingToBreakeven != 0.0 then Remaining(rows[|rows| - 1].remainingToBreakeven)
    else Remaining(fixedTotal)
  }

  /**
   * The summary cards are rendered only once there is a sale. The card then
   * shows break-even reached iff the profit of all sales covers the fixed
   * costs, and otherwise the fixed costs less that profit. For an empty log
   * the figure below is computed but never displayed.
   */
  lemma {:induction false} BreakevenCardTotals(state: AppState, rows: seq<Row>)
    requires |rows| == |state.sales|
    requires forall k :: 0 <= k < |rows| ==>
      rows[k] == RowAt(state, DashboardStats.FixedTotal(state.fixedCosts), SortedSales(state), k)
    ensures var f, p := DashboardStats.FixedTotal(state.fixedCosts), Sum(state.sales, ProfitFn(state));
      BreakevenCardOf(rows, f) == Achieved <==> rows != [] && p - f >= 0.0
    ensures var f, p := DashboardStats.FixedTotal(state.fixedCosts), Sum(state.sales, ProfitFn(state));
      BreakevenCardOf(rows, f).Remaining? ==> BreakevenCardOf(rows, f).amount == f - p
  {
    var f := DashboardStats.FixedTotal(state.fixedCosts);
    SummaryTotals(state, rows);
    if rows != [] {
      RowBreakeven(state, f, SortedSales(state), |rows| - 1);
    }
  }

  /** A sale of a deleted product costs nothing but still counts toward revenue and profit. */
  lemma MissingProductCountsFullRevenue(state: AppState, fixedTotal: real, sorted: seq<Sale>, k: nat)
    requires k < |sorted| && ProductOf(state, sorted[k].productId).None?
    ensures RowAt(state, fixedTotal, sorted, k).costPerCup == 0.0
    ensures RowAt(state, fixedTotal, sorted, k).profitBeforeFixed == RowAt(state, fixedTotal, sorted, k).revenue
    ensures !DashboardStats.Counts(state, sorted[k])
  {
  }

  /** The row's ingredient grams are what the usage fold of the state hook charges for the sale. */
  lemma RowGramsMatchUsage(state: AppState, fixedTotal: real, sorted: seq<Sale>, k: nat)
    requires k < |sorted|
    ensures var r := RowAt(state, fixedTotal, sorted, k);
      var u := Usage.Consumed(state, sorted[k]);
      r.strawberryG == u.strawberriesG && r.chocolateG == u.chocolateG && r.kunafaG == u.kunafaG
  {
    GramsMatchUsage(state, sorted[k]);
  }

  lemma GramsMatchUsage(state: AppState, s: Sale)
    ensures var u := Usage.Consumed(state, s);
      LoggedGrams(state, s) == RowGrams(u.strawberriesG, u.chocolateG, u.kunafaG)
  {
    var product := ProductOf(state, s.productId);
    if product.Some? && !product.value.useManualCost {
      var pr := product.value;
      var q := s.qty as real;
      var avgWeight := Usage.AvgWeight(StrawberryBatchAt(state.strawberryBatches, s.date));
      assert Usage.RecipeOf(state, s) == Some(pr);
      assert Usage.Consumed(state, s) == IngredientUsage(q * pr.strawberriesPerCup * avgWeight, q * pr.strawberriesPerCup,
        q * pr.chocolatePerCup, q * pr.kunafaPerCup, q * pr.cupsPerCup, q * pr.sticksPerCup);
    } else {
      assert Usage.RecipeOf(state, s).None?;
    }
  }

  // ------------------------------------------------------------------
  // Newest first
  // ------------------------------------------------------------------

  function Reverse<T>(s: seq<T>): (r: seq<T>)
    ensures |r| == |s|
    ensures forall k :: 0 <= k < |s| ==> r[k] == s[|s| - 1 - k]
  {
    if s == [] then [] else [s[|s| - 1]] + Reverse(s[..|s| - 1])
  }

  lemma ReverseReverse<T>(s: seq<T>)
    ensures Reverse(Reverse(s)) == s
  {
  }

  /** `displaySales`: the table lists the latest-dated sale first. */
  lemma DisplayNewestFirst(rows: seq<Row>)
    requires forall i, j :: 0 <= i < j < |rows| ==> rows[i].sale.date <= rows[j].sale.date
    ensures forall i, j :: 0 <= i < j < |Reverse(rows)| ==> Reverse(rows)[i].sale.date >= Reverse(rows)[j].sale.date
  {
  }
}
