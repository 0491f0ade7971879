/** The ingredient-usage fold of the state hook over the recorded sales. */
module Usage {
  import opened Wrappers
  import opened Folds
  import opened Types
  import opened Costing

  /** The product whose recipe a sale consumes; none for a missing or manual-cost product. */
  function RecipeOf(state: AppState, s: Sale): Option<Product> {
    var p := ProductOf(state, s.productId);
    if p.Some? && !p.value.useManualCost then p else None
  }

  /** Grams per strawberry of a batch; 20 without a batch or when the batch records 0. */
  function AvgWeight(batch: Option<StrawberryBatch>): real {
    if batch.Some? && batch.value.avgWeightPerStrawberry != 0.0 then batch.value.avgWeightPerStrawberry else 20.0
  }

  /** What one sale consumes: its quantity times each recipe amount, nothing when it has no recipe. */
  function Consumed(state: AppState, s: Sale): IngredientUsage {
    match RecipeOf(state, s)
    case None => IngredientUsage(0.0, 0.0, 0.0, 0.0, 0.0, 0.0)
    case Some(p) =>
      var q := s.qty as real;
      var avgWeight := AvgWeight(StrawberryBatchAt(state.strawberryBatches, s.date));
      IngredientUsage(q * p.strawberriesPerCup * avgWeight, q * p.strawberriesPerCup,
        q * p.chocolatePerCup, q * p.kunafaPerCup, q * p.cupsPerCup, q * p.sticksPerCup)
  }

  function GramsFn(state: AppState): Sale -> real { s => Consumed(state, s).strawberriesG }
  function PiecesFn(state: AppState): Sale -> real { s => Consumed(state, s).strawberriesPcs }
  function ChocolateFn(state: AppState): Sale -> real { s => Consumed(state, s).chocolateG }
  function KunafaFn(state: AppState): Sale -> real { s => Consumed(state, s).kunafaG }
  function CupsFn(state: AppState): Sale -> real { s => Consumed(state, s).cupsUsed }
  function SticksFn(state: AppState): Sale -> real { s => Consumed(state, s).sticksUsed }

  /** The usage of a sequence of sales: each field summed over the sales. */
  function UsageOf(state: AppState, sales: seq<Sale>): IngredientUsage {
    IngredientUsage(Sum(sales, GramsFn(state)), Sum(sales, PiecesFn(state)), Sum(sales, ChocolateFn(state)),
      Sum(sales, KunafaFn(state)), Sum(sales, CupsFn(state)), Sum(sales, SticksFn(state)))
  }

  function AddUsage(u: IngredientUsage, v: IngredientUsage): IngredientUsage {
    IngredientUsage(u.strawberriesG + v.strawberriesG, u.strawberriesPcs + v.strawberriesPcs,
      u.chocolateG + v.chocolateG, u.kunafaG + v.kunafaG, u.cupsUsed + v.cupsUsed, u.sticksUsed + v.sticksUsed)
  }

  /**
   * The hook's `forEach` over the sales: each sale with a recipe adds its
   * quantities, pricing strawberry grams by the batch for its date.
   */
  method CalculateIngredientUsage(state: AppState) returns (usage: IngredientUsage)
    ensures usage == UsageOf(state, state.sales)
  {
    var sales := state.sales;
    usage := IngredientUsage(0.0, 0.0, 0.0, 0.0, 0.0, 0.0);
    var i := 0;
    while i < |sales|
      invariant 0 <= i <= |sales|
      invariant usage == UsageOf(state, sales[..i])
    {
      UsageOfStep(state, sales, i);
      usage := AddSaleUsage(state, usage, sales[i]);
      i := i + 1;
    }
    assert sales[..|sales|] == sales;
  }

  /** The body of the `forEach`: returns early for a sale without a recipe. */
  method AddSaleUsage(state: AppState, usage: IngredientUsage, sale: Sale) returns (r: IngredientUsage)
    ensures r == AddUsage(usage, Consumed(state, sale))
  {
    var product := ProductOf(state, sale.productId);
    if product.None? || product.value.useManualCost {
      return usage;
    }
    var p := product.value;
    var batch := StrawberryBatchForDate(state.strawberryBatches, sale.date);
    var avgWeight := if batch.Some? && batch.value.avgWeightPerStrawberry != 0.0
      then batch.value.avgWeightPerStrawberry else 20.0;
    var q := sale.qty as real;
    r := usage.(
      strawberriesPcs := usage.strawberriesPcs + q * p.strawberriesPerCup,
      strawberriesG := usage.strawberriesG + q * p.strawberriesPerCup * avgWeight,
      chocolateG := usage.chocolateG + q * p.chocolatePerCup,
      kunafaG := usage.kunafaG + q * p.kunafaPerCup,
      cupsUsed := usage.cupsUsed + q * p.cupsPerCup,
      sticksUsed := usage.sticksUsed + q * p.sticksPerCup);
  }

  lemma UsageOfStep(state: AppState, sales: seq<Sale>, i: nat)
    requires i < |sales|
    ensures UsageOf(state, sales[..i + 1]) == AddUsage(UsageOf(state, sales[..i]), Consumed(state, sales[i]))
  {
    SumPrefixStep(sales, i, GramsFn(state));
    SumPrefixStep(sales, i, PiecesFn(state));
    SumPrefixStep(sales, i, ChocolateFn(state));
    SumPrefixStep(sales, i, KunafaFn(state));
    SumPrefixStep(sales, i, CupsFn(state));
    SumPrefixStep(sales, i, SticksFn(state));
  }

  /** Usage does not depend on the order the sales were recorded in. */
  lemma UsageOrderIndependent(state: AppState, a: seq<Sale>, b: seq<Sale>)
    requires multiset(a) == multiset(b)
    ensures UsageOf(state, a) == UsageOf(state, b)
  {
    SumPermutation(a, b, GramsFn(state));
    SumPermutation(a, b, PiecesFn(state));
    SumPermutation(a, b, ChocolateFn(state));
    SumPermutation(a, b, KunafaFn(state));
    SumPermutation(a, b, CupsFn(state));
    SumPermutation(a, b, SticksFn(state));
  }

  /** The usage of two runs of sales is the sum of their usages. */
  lemma UsageAppend(state: AppState, a: seq<Sale>, b: seq<Sale>)
    ensures UsageOf(state, a + b) == AddUsage(UsageOf(state, a), UsageOf(state, b))
  {
    SumAppend(a, b, GramsFn(state));
    SumAppend(a, b, PiecesFn(state));
    SumAppend(a, b, ChocolateFn(state));
    SumAppend(a, b, KunafaFn(state));
    SumAppend(a, b, CupsFn(state));
    SumAppend(a, b, SticksFn(state));
  }

  function HasRecipe(state: AppState): Sale -> bool { s => RecipeOf(state, s).Some? }

  lemma SumSkipsNoRecipe(state: AppState, sales: seq<Sale>, f: Sale -> real)
    requires forall s :: RecipeOf(state, s).None? ==> f(s) == 0.0
    ensures Sum(Filter(sales, HasRecipe(state)), f) == Sum(sales, f)
  {
    SumFilterSplit(sales, HasRecipe(state), f);
    SumCongruent(sales, x => if HasRecipe(state)(x) then f(x) else 0.0, f);
  }

  /** Sales of missing or manual-cost products consume nothing: dropping them leaves the usage as it is. */
  lemma UsageSkipsNoRecipe(state: AppState, sales: seq<Sale>)
    ensures UsageOf(state, Filter(sales, HasRecipe(state))) == UsageOf(state, sales)
  {
    SumSkipsNoRecipe(state, sales, GramsFn(state));
    SumSkipsNoRecipe(state, sales, PiecesFn(state));
    SumSkipsNoRecipe(state, sales, ChocolateFn(state));
    SumSkipsNoRecipe(state, sales, KunafaFn(state));
    SumSkipsNoRecipe(state, sales, CupsFn(state));
    SumSkipsNoRecipe(state, sales, SticksFn(state));
  }

  /** Strawberry grams are the pieces times the date's average weight, 20 g without a batch. */
  lemma GramsFromPieces(state: AppState, s: Sale)
    ensures Consumed(state, s).strawberriesG ==
      Consumed(state, s).strawberriesPcs * AvgWeight(StrawberryBatchAt(state.strawberryBatches, s.date))
    ensures state.strawberryBatches == [] ==> Consumed(state, s).strawberriesG == Consumed(state, s).strawberriesPcs * 20.0
  {
  }
}
