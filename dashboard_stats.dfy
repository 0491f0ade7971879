/**
 * The dashboard figures of the state hook: revenue, the automatic POS
 * fees charged per checkout, the flat deduction for Rocky Road, costs and
 * the break-even gap.
 */
module DashboardStats {
  import opened Wrappers
  import opened Records
  import opened Folds
  import opened Grouping
  import opened Types
  import opened Usage
  import opened Inventory

  /** A sale counts toward revenue only while its product exists. */
  predicate Counts(state: AppState, s: Sale) {
    ProductOf(state, s.productId).Some?
  }

  /** A counted sale rung up at the till. */
  predicate IsPosSale(state: AppState, s: Sale) {
    Counts(state, s) && s.source == Pos
  }

  /** The checkout a till sale belongs to: its transaction id, or its own id when that is absent or empty. */
  function TransactionKey(s: Sale): string {
    if s.transactionId.Some? && s.transactionId.value != "" then s.transactionId.value else s.id
  }

  const RockyDeductionPerUnit: real := 50.0
  const PosFeeFixed: real := 1.0
  const PosFeeRate: real := 0.026

  function GrossFn(state: AppState): Sale -> real { s => if Counts(state, s) then Revenue(s) else 0.0 }
  function TipsFn(state: AppState): Sale -> real { s => if Counts(state, s) && s.productId == "tips" then Revenue(s) else 0.0 }
  function RockyFn(state: AppState): Sale -> real {
    s => if Counts(state, s) && s.productId == "rocky" then RockyDeductionPerUnit * s.qty as real else 0.0
  }
  function ExclRockyFn(state: AppState): Sale -> real { s => if Counts(state, s) && s.productId != "rocky" then Revenue(s) else 0.0 }
  function CupsFn(state: AppState): Sale -> int { s => if Counts(state, s) then s.qty else 0 }
  function PosRevenueFn(state: AppState): Sale -> real { s => if IsPosSale(state, s) then Revenue(s) else 0.0 }
  function KeyRevenueFn(state: AppState, k: string): Sale -> real {
    s => if IsPosSale(state, s) && TransactionKey(s) == k then Revenue(s) else 0.0
  }
  function PosFn(state: AppState): Sale -> bool { s => IsPosSale(state, s) }

  /** The revenue of the counted till sales, summed per checkout, checkouts in order of first appearance. */
  function PosGroups(state: AppState, sales: seq<Sale>): Dict<real> {
    GroupSums(sales, PosFn(state), TransactionKey, Revenue)
  }

  function GroupFee(e: Entry<real>): real { PosFeeFixed + e.value * PosFeeRate }

  /** The automatic fees: 1 plus 2.6% of the checkout's revenue, for every checkout. */
  function AutoFees(groups: Dict<real>): real {
    Sum(groups, GroupFee)
  }

  /** The fee chosen in settings: the manual amount, or a percentage of gross revenue. */
  function PosFees(state: AppState, gross: real): (r: real)
    ensures state.useManualPosFee ==> r == state.posFeeManual
    ensures !state.useManualPosFee ==> r == state.posFeePercent / 100.0 * gross
  {
    if state.useManualPosFee then state.posFeeManual else (state.posFeePercent / 100.0) * gross
  }

  /** The shortfall to break even: 0 once the net is not negative, otherwise its magnitude. */
  function RemainingToBreakeven(net: real): (r: real)
    ensures r >= 0.0
    ensures r == 0.0 <==> net >= 0.0
    ensures net < 0.0 ==> r + net == 0.0
  {
    if net >= 0.0 then 0.0 else -net
  }

  /** `inventory.find(...)?.remaining || 0`: the first row with that id, 0 when there is none. */
  function FindRemaining(rows: seq<IngredientInventory>, id: string): (r: real)
    ensures (forall i :: 0 <= i < |rows| ==> rows[i].ingredientId != id) ==> r == 0.0
    ensures forall i :: (0 <= i < |rows| && rows[i].ingredientId == id &&
      forall j :: 0 <= j < i ==> rows[j].ingredientId != id) ==> r == rows[i].remaining
  {
    if rows == [] then 0.0
    else if rows[0].ingredientId == id then rows[0].remaining
    else
      var r := FindRemaining(rows[1..], id);
      assert forall i :: 1 <= i < |rows| ==> rows[1..][i - 1] == rows[i];
      r
  }

  function TotalVarCost(rows: seq<IngredientInventory>): real {
    Sum(rows, (r: IngredientInventory) => r.totalCost)
  }

  function FixedTotal(costs: seq<FixedCost>): real {
    Sum(costs, (c: FixedCost) => c.amount)
  }

  function TotalWasteCost(waste: seq<WasteEntry>): real {
    Sum(waste, (w: WasteEntry) => w.estimatedCost)
  }

  /** The share of gross revenue not earned on Rocky Road, 0 without revenue. */
  function ExclRockyRatio(t: SaleTotals): real {
    if t.gross > 0.0 then t.exclRocky / t.gross else 0.0
  }

  /** The revenue not earned on Rocky Road, less its proportional share of the settings fee. */
  function NetExclRocky(t: SaleTotals, posFees: real): real {
    t.exclRocky - posFees * ExclRockyRatio(t)
  }

  /** The figures derived from the sale totals, the checkout fees, usage and inventory. */
  function Assemble(state: AppState, usage: IngredientUsage, inventory: seq<IngredientInventory>,
                    t: SaleTotals, autoPosFees: real): (r: DashboardStats)
    ensures r.grossRevenue == t.gross && r.tipsRevenue == t.tips && r.rockyDeduction == t.rocky
    ensures r.posFees == PosFees(state, t.gross) && r.autoPosFees == autoPosFees
    ensures r.totalVarCost == TotalVarCost(inventory) && r.fixedTotal == FixedTotal(state.fixedCosts)
    ensures r.totalCups == t.cups && r.usage == usage && r.totalWasteCost == TotalWasteCost(state.wasteEntries)
    ensures r.totalRevenueExcludingRocky == NetExclRocky(t, r.posFees)
    ensures r.strawberryRemainingG == FindRemaining(inventory, "strawberry")
    ensures r.chocolateRemainingG == FindRemaining(inventory, "chocolate")
    ensures r.kunafaRemainingG == FindRemaining(inventory, "kunafa")
    ensures r.cupsRemaining == FindRemaining(inventory, "cup")
    ensures r.sticksRemaining == FindRemaining(inventory, "sticks")
    ensures r.totalRevenue == r.grossRevenue - r.posFees - r.autoPosFees - r.rockyDeduction
    ensures r.profitBeforeFixed == r.totalRevenue - r.totalVarCost
    ensures r.netAfterFixed == r.profitBeforeFixed - r.fixedTotal
    ensures r.remainingToBreakeven >= 0.0
    ensures r.remainingToBreakeven == 0.0 <==> r.netAfterFixed >= 0.0
    ensures r.netAfterFixed < 0.0 ==> r.remainingToBreakeven == -r.netAfterFixed
  {
    var gross := t.gross;
    var posFees := PosFees(state, gross);
    var totalRevenue := gross - posFees - autoPosFees - t.rocky;
    var totalVarCost := TotalVarCost(inventory);
    var profitBeforeFixed := totalRevenue - totalVarCost;
    var fixedTotal := FixedTotal(state.fixedCosts);
    var netAfterFixed := profitBeforeFixed - fixedTotal;
    DashboardStats(
      gross, totalRevenue, NetExclRocky(t, posFees), t.tips, t.rocky,
      totalVarCost, posFees, autoPosFees, profitBeforeFixed, fixedTotal, netAfterFixed,
      t.cups, RemainingToBreakeven(netAfterFixed), usage,
      FindRemaining(inventory, "strawberry"), FindRemaining(inventory, "chocolate"),
      FindRemaining(inventory, "kunafa"), FindRemaining(inventory, "cup"),
      FindRemaining(inventory, "sticks"), TotalWasteCost(state.wasteEntries))
  }

  /** The dashboard figures of a state. */
  function StatsOf(state: AppState): DashboardStats {
    var usage := UsageOf(state, state.sales);
    Assemble(state, usage, InventoryOf(state, usage), TotalsOf(state, state.sales),
      AutoFees(PosGroups(state, state.sales)))
  }

  /** The running totals of the hook's `forEach` over the sales. */
  datatype SaleTotals = SaleTotals(gross: real, exclRocky: real, tips: real, rocky: real, cups: int, pos: Dict<real>)

  function TotalsOf(state: AppState, sales: seq<Sale>): SaleTotals {
    SaleTotals(Sum(sales, GrossFn(state)), Sum(sales, ExclRockyFn(state)), Sum(sales, TipsFn(state)),
      Sum(sales, RockyFn(state)), SumInt(sales, CupsFn(state)), PosGroups(state, sales))
  }

  /** What one sale adds to the running totals. */
  function Step(state: AppState, t: SaleTotals, s: Sale): SaleTotals {
    if !Counts(state, s) then t
    else SaleTotals(
      t.gross + Revenue(s),
      if s.productId != "rocky" then t.exclRocky + Revenue(s) else t.exclRocky,
      if s.productId == "tips" then t.tips + Revenue(s) else t.tips,
      if s.productId == "rocky" then t.rocky + RockyDeductionPerUnit * s.qty as real else t.rocky,
      t.cups + s.qty,
      if s.source == Pos then AddTo(t.pos, TransactionKey(s), Revenue(s)) else t.pos)
  }

  lemma TotalsStep(state: AppState, sales: seq<Sale>, i: nat)
    requires i < |sales|
    ensures TotalsOf(state, sales[..i + 1]) == Step(state, TotalsOf(state, sales[..i]), sales[i])
  {
    SumPrefixStep(sales, i, GrossFn(state));
    SumPrefixStep(sales, i, ExclRockyFn(state));
    SumPrefixStep(sales, i, TipsFn(state));
    SumPrefixStep(sales, i, RockyFn(state));
    SumIntPrefixStep(sales, i, CupsFn(state));
    assert sales[..i + 1][..i] == sales[..i];
  }

  /** The `forEach` over the sales: skips sales of missing products, accumulates the rest, groups till sales. */
  method AccumulateSales(state: AppState) returns (totals: SaleTotals)
    ensures totals == TotalsOf(state, state.sales)
  {
    var sales := state.sales;
    totals := SaleTotals(0.0, 0.0, 0.0, 0.0, 0, []);
    assert sales[..0] == [];
    var i := 0;
    while i < |sales|
      invariant 0 <= i <= |sales|
      invariant totals == TotalsOf(state, sales[..i])
    {
      TotalsStep(state, sales, i);
      totals := AddSale(state, totals, sales[i]);
      i := i + 1;
    }
    assert sales[..|sales|] == sales;
  }

  /** The body of the `forEach`, returning early for a sale whose product is missing. */
  method AddSale(state: AppState, t: SaleTotals, sale: Sale) returns (r: SaleTotals)
    ensures r == Step(state, t, sale)
  {
    var product := ProductOf(state, sale.productId);
    if product.None? {
      return t;
    }
    var grossRevenue, revenueExcludingRocky, tipsRevenue, rockyDeduction := t.gross, t.exclRocky, t.tips, t.rocky;
    var totalCups, posTransactions := t.cups, t.pos;
    var revenue := sale.qty as real * sale.unitPrice;
    assert Counts(state, sale) && revenue == Revenue(sale);
    grossRevenue := grossRevenue + revenue;
    if sale.productId == "tips" {
      tipsRevenue := tipsRevenue + revenue;
    }
    if sale.productId == "rocky" {
      rockyDeduction := rockyDeduction + RockyDeductionPerUnit * sale.qty as real;
    }
    if sale.productId != "rocky" {
      revenueExcludingRocky := revenueExcludingRocky + revenue;
    }
    totalCups := totalCups + sale.qty;
    if sale.source == Pos {
      var transactionKey := TransactionKey(sale);
      var currentTotal := Get(posTransactions, transactionKey).GetOr(0.0);
      posTransactions := Put(posTransactions, transactionKey, currentTotal + revenue);
      assert posTransactions == AddTo(t.pos, TransactionKey(sale), Revenue(sale));
    }
    r := SaleTotals(grossRevenue, revenueExcludingRocky, tipsRevenue, rockyDeduction, totalCups, posTransactions);
  }

  /** The `forEach` over the checkout groups, adding each one's fee. */
  method SumAutoPosFees(groups: Dict<real>) returns (autoPosFees: real)
    ensures autoPosFees == AutoFees(groups)
  {
    autoPosFees := 0.0;
    var i := 0;
    while i < |groups|
      invariant 0 <= i <= |groups|
      invariant autoPosFees == Sum(groups[..i], GroupFee)
    {
      SumPrefixStep(groups, i, GroupFee);
      var transactionFee := 1.0 + groups[i].value * 0.026;
      autoPosFees := autoPosFees + transactionFee;
      i := i + 1;
    }
    assert groups[..|groups|] == groups;
  }

  /** The hook's dashboard computation. */
  method CalculateDashboardStats(state: AppState) returns (stats: DashboardStats)
    ensures stats == StatsOf(state)
  {
    var usage := CalculateIngredientUsage(state);
    var inventory := CalculateInventory(state);
    var totals := AccumulateSales(state);
    var autoPosFees := SumAutoPosFees(totals.pos);
    stats := Assemble(state, usage, inventory, totals, autoPosFees);
  }

  /** The automatic fees are 1 per checkout plus 2.6% of the grouped revenue. */
  lemma {:induction false} AutoFeesSplit(g: Dict<real>)
    ensures AutoFees(g) == |g| as real * PosFeeFixed + PosFeeRate * Sum(g, EntryValue)
  {
    if g != [] {
      AutoFeesSplit(g[..|g| - 1]);
    }
  }

  /** Each checkout appears once among the groups. */
  lemma PosGroupsUnique(state: AppState, sales: seq<Sale>)
    ensures UniqueKeys(PosGroups(state, sales))
  {
    GroupSumsUnique(sales, PosFn(state), TransactionKey, Revenue);
  }

  /** There is a group for a checkout exactly when some counted till sale belongs to it. */
  lemma PosGroupsKeys(state: AppState, sales: seq<Sale>, k: string)
    ensures HasKey(PosGroups(state, sales), k) <==>
      exists i :: 0 <= i < |sales| && IsPosSale(state, sales[i]) && TransactionKey(sales[i]) == k
  {
    if HasKey(PosGroups(state, sales), k) {
      GroupSumsKeysSound(sales, PosFn(state), TransactionKey, Revenue, k);
    }
    if exists i :: 0 <= i < |sales| && IsPosSale(state, sales[i]) && TransactionKey(sales[i]) == k {
      var i :| 0 <= i < |sales| && IsPosSale(state, sales[i]) && TransactionKey(sales[i]) == k;
      GroupSumsKeysComplete(sales, PosFn(state), TransactionKey, Revenue, i);
    }
  }

  /** A checkout's group holds the revenue of exactly its counted till sales. */
  lemma PosGroupsGet(state: AppState, sales: seq<Sale>, k: string)
    ensures Get(PosGroups(state, sales), k).GetOr(0.0) == Sum(sales, KeyRevenueFn(state, k))
  {
    GroupSumsGet(sales, PosFn(state), TransactionKey, Revenue, k);
    SumCongruent(sales, ValueFor(PosFn(state), TransactionKey, Revenue, k), KeyRevenueFn(state, k));
  }

  /**
   * The automatic POS fee is charged once per checkout: it equals the number
   * of checkouts plus 2.6% of the revenue of all counted till sales.
   */
  lemma AutoPosFeesFormula(state: AppState)
    ensures var groups := PosGroups(state, state.sales);
      StatsOf(state).autoPosFees == |groups| as real * PosFeeFixed + PosFeeRate * Sum(state.sales, PosRevenueFn(state))
  {
    var groups := PosGroups(state, state.sales);
    AutoFeesSplit(groups);
    GroupSumsTotal(state.sales, PosFn(state), TransactionKey, Revenue);
    SumCongruent(state.sales, KeptValue(PosFn(state), Revenue), PosRevenueFn(state));
  }

  /** Sales whose product is missing add nothing to gross revenue. */
  lemma GrossSkipsMissingProducts(state: AppState, sales: seq<Sale>)
    ensures Sum(Filter(sales, (s: Sale) => Counts(state, s)), (s: Sale) => Revenue(s)) == Sum(sales, GrossFn(state))
  {
    SumFilterSplit(sales, (s: Sale) => Counts(state, s), (s: Sale) => Revenue(s));
    SumCongruent(sales, (x: Sale) => if Counts(state, x) then Revenue(x) else 0.0, GrossFn(state));
  }
}
