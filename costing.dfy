/**
 * Cost lookups of the state hook: which strawberry batch prices a sale,
 * what one unit of an ingredient costs, and what one cup of a product costs.
 */
module Costing {
  import opened Wrappers
  import opened Records
  import opened Folds
  import opened DateOrder
  import opened Types

  /** The batch in use: the last one recorded, none when there are none. */
  function ActiveStrawberryBatch(batches: seq<StrawberryBatch>): (r: Option<StrawberryBatch>)
    ensures r.None? <==> batches == []
    ensures r.Some? ==> r.value in batches && r == At(batches, |batches| - 1)
  {
    if |batches| == 0 then None else Some(batches[|batches| - 1])
  }

  /** The strawberry batch that prices a sale dated `saleDate`. */
  function StrawberryBatchAt(batches: seq<StrawberryBatch>, saleDate: Date): Option<StrawberryBatch> {
    AsOfOrEarliest(batches, saleDate, StrawberryBatchDate)
  }

  /**
   * Sorts the batches by date (stably) and walks them, keeping the last one
   * dated on or before the sale and stopping at the first later one; falls
   * back to the earliest batch when none qualifies.
   */
  method StrawberryBatchForDate(batches: seq<StrawberryBatch>, saleDate: Date) returns (r: Option<StrawberryBatch>)
    ensures r == StrawberryBatchAt(batches, saleDate)
  {
    if |batches| == 0 {
      return None;
    }
    var sorted := SortByDate(batches, StrawberryBatchDate);
    var applicable := WalkStrawberryBatches(sorted, saleDate);
    LastOfSortedIsLatestAsOf(batches, saleDate, StrawberryBatchDate);
    if applicable.None? {
      FirstOfSortedIsEarliest(batches, StrawberryBatchDate);
      applicable := Some(sorted[0]);
    }
    r := applicable;
  }

  /** The walk itself, over batches already in date order: the last one on or before the date. */
  method WalkStrawberryBatches(sorted: seq<StrawberryBatch>, saleDate: Date) returns (applicable: Option<StrawberryBatch>)
    requires Sorted(sorted, StrawberryBatchDate)
    ensures applicable == LastAtOrBefore(sorted, saleDate, StrawberryBatchDate)
  {
    applicable := None;
    var i := 0;
    while i < |sorted|
      invariant 0 <= i <= |sorted|
      invariant applicable == LastAtOrBefore(sorted[..i], saleDate, StrawberryBatchDate)
    {
      if sorted[i].date <= saleDate {
        assert sorted[..i + 1][..i] == sorted[..i];
        applicable := Some(sorted[i]);
      } else {
        LastAtOrBeforeStops(sorted, i, saleDate, StrawberryBatchDate);
        return;
      }
      i := i + 1;
    }
    assert sorted[..|sorted|] == sorted;
  }

  /** A bulk cost divided by its quantity, 0 when the quantity is not positive. */
  function CostRatio(cost: real, qty: real): (r: real)
    ensures qty > 0.0 ==> r * qty == cost
    ensures qty <= 0.0 ==> r == 0.0
    ensures cost >= 0.0 ==> r >= 0.0
  {
    if qty > 0.0 then cost / qty else 0.0
  }

  function BatchRatio(b: IngredientBatch): real {
    CostRatio(b.bulkCost, b.bulkQty)
  }

  function DefaultRatio(ing: Ingredient): real {
    CostRatio(ing.defaultBulkCost, ing.defaultBulkQty)
  }

  /** The purchase batches of one ingredient, in insertion order. */
  function BatchesOf(batches: seq<IngredientBatch>, id: string): (r: seq<IngredientBatch>)
    ensures forall i :: 0 <= i < |r| ==> r[i] in batches && r[i].ingredientId == id
    ensures forall i :: 0 <= i < |batches| && batches[i].ingredientId == id ==> batches[i] in r
  {
    Filter(batches, (b: IngredientBatch) => b.ingredientId == id)
  }

  /**
   * The unit cost of an ingredient: with no batches, the default bulk ratio
   * (0 for an unknown ingredient); with a date, the ratio of the batch as of
   * that date; without one, the ratio of the last batch recorded.
   */
  function IngredientUnitCost(state: AppState, id: string, forDate: Option<Date>): real {
    var batches := BatchesOf(state.ingredientBatches, id);
    if batches == [] then
      match Get(state.ingredients, id)
      case None => 0.0
      case Some(ing) => DefaultRatio(ing)
    else if forDate.Some? then
      BatchRatio(AsOfOrEarliest(batches, forDate.value, IngredientBatchDate).value)
    else
      BatchRatio(batches[|batches| - 1])
  }

  /**
   * The batch a dated unit-cost lookup settles on: starting from the
   * earliest, the walk over the sorted batches keeps each one dated on or
   * before `t` and stops at the first later one.
   */
  method IngredientBatchForDate(batches: seq<IngredientBatch>, t: Date) returns (b: IngredientBatch)
    requires batches != []
    ensures Some(b) == AsOfOrEarliest(batches, t, IngredientBatchDate)
  {
    var sorted := SortByDate(batches, IngredientBatchDate);
    b := WalkToDate(sorted, t);
    LastOfSortedIsLatestAsOf(batches, t, IngredientBatchDate);
    var latest := LatestAsOfIndex(batches, t, IngredientBatchDate);
    if latest < 0 {
      FirstOfSortedIsEarliest(batches, IngredientBatchDate);
    }
  }

  /** The walk itself, over batches already in date order. */
  method WalkToDate(sorted: seq<IngredientBatch>, t: Date) returns (b: IngredientBatch)
    requires sorted != [] && Sorted(sorted, IngredientBatchDate)
    ensures LastAtOrBefore(sorted, t, IngredientBatchDate).None? ==> b == sorted[0]
    ensures LastAtOrBefore(sorted, t, IngredientBatchDate).Some? ==> b == LastAtOrBefore(sorted, t, IngredientBatchDate).value
  {
    b := sorted[0];
    var i := 0;
    while i < |sorted|
      invariant 0 <= i <= |sorted|
      invariant LastAtOrBefore(sorted[..i], t, IngredientBatchDate).None? ==> b == sorted[0]
      invariant LastAtOrBefore(sorted[..i], t, IngredientBatchDate).Some? ==>
        b == LastAtOrBefore(sorted[..i], t, IngredientBatchDate).value
    {
      if sorted[i].date <= t {
        assert sorted[..i + 1][..i] == sorted[..i];
        b := sorted[i];
      } else {
        LastAtOrBeforeStops(sorted, i, t, IngredientBatchDate);
        assert sorted[..|sorted|] == sorted;
        i := |sorted|;
        break;
      }
      i := i + 1;
    }
    assert sorted[..|sorted|] == sorted;
  }

  /** The unit-cost lookup of the state hook. */
  method IngredientCostPerUnit(state: AppState, id: string, forDate: Option<Date>) returns (r: real)
    ensures r == IngredientUnitCost(state, id, forDate)
  {
    var batches := BatchesOf(state.ingredientBatches, id);
    if |batches| == 0 {
      var ingredient := Get(state.ingredients, id);
      if ingredient.None? {
        return 0.0;
      }
      var ing := ingredient.value;
      return if ing.defaultBulkQty > 0.0 then ing.defaultBulkCost / ing.defaultBulkQty else 0.0;
    }
    if forDate.Some? {
      var applicable := IngredientBatchForDate(batches, forDate.value);
      return if applicable.bulkQty > 0.0 then applicable.bulkCost / applicable.bulkQty else 0.0;
    }
    var latest := batches[|batches| - 1];
    return if latest.bulkQty > 0.0 then latest.bulkCost / latest.bulkQty else 0.0;
  }

  /** The three cases of the unit cost, each stated by the batch (or default) it is the ratio of. */
  lemma UnitCostCases(state: AppState, id: string, forDate: Option<Date>)
    ensures var batches := BatchesOf(state.ingredientBatches, id);
      var r := IngredientUnitCost(state, id, forDate);
      (batches == [] && !HasKey(state.ingredients, id) ==> r == 0.0) &&
      (batches == [] && HasKey(state.ingredients, id) ==>
         r == DefaultRatio(Get(state.ingredients, id).value)) &&
      (batches != [] ==> exists b :: b in state.ingredientBatches && b.ingredientId == id && r == BatchRatio(b)) &&
      (batches != [] && forDate.None? ==> r == BatchRatio(batches[|batches| - 1]))
  {
    var batches := BatchesOf(state.ingredientBatches, id);
    if batches != [] {
      var b := if forDate.Some? then AsOfOrEarliest(batches, forDate.value, IngredientBatchDate).value
               else batches[|batches| - 1];
      assert b in batches;
    }
  }

  /**
   * A dated lookup prices with a batch of that ingredient dated on or before
   * the date, none later; when every batch is later, with an earliest one.
   */
  lemma DatedUnitCostIsAsOfBatch(state: AppState, id: string, t: Date)
    requires BatchesOf(state.ingredientBatches, id) != []
    ensures var batches := BatchesOf(state.ingredientBatches, id);
      exists b :: b in batches && IngredientUnitCost(state, id, Some(t)) == BatchRatio(b) &&
        ((exists j :: 0 <= j < |batches| && batches[j].date <= t) ==>
           b.date <= t && forall j :: 0 <= j < |batches| && batches[j].date <= t ==> batches[j].date <= b.date) &&
        ((forall j :: 0 <= j < |batches| ==> batches[j].date > t) ==>
           forall j :: 0 <= j < |batches| ==> b.date <= batches[j].date)
  {
    var batches := BatchesOf(state.ingredientBatches, id);
    var b := AsOfOrEarliest(batches, t, IngredientBatchDate).value;
    assert b in batches;
  }

  /** With non-negative bulk costs, no unit cost is negative. */
  lemma UnitCostNonNegative(state: AppState, id: string, forDate: Option<Date>)
    requires forall i :: 0 <= i < |state.ingredientBatches| ==> state.ingredientBatches[i].bulkCost >= 0.0
    requires forall i :: 0 <= i < |state.ingredients| ==> state.ingredients[i].value.defaultBulkCost >= 0.0
    ensures IngredientUnitCost(state, id, forDate) >= 0.0
  {
    var batches := BatchesOf(state.ingredientBatches, id);
    if batches == [] {
      var g := Get(state.ingredients, id);
      if g.Some? {
        var k :| 0 <= k < |state.ingredients| && state.ingredients[k] == Entry(id, g.value);
      }
    } else {
      var b := if forDate.Some? then AsOfOrEarliest(batches, forDate.value, IngredientBatchDate).value
               else batches[|batches| - 1];
      assert b in batches;
      var k :| 0 <= k < |state.ingredientBatches| && state.ingredientBatches[k] == b;
    }
  }

  /** The strawberry cost of one piece: the batch's `costPerStrawberry`, 0 without a batch. */
  function CostPerStrawberry(batch: Option<StrawberryBatch>): real {
    if batch.Some? then batch.value.costPerStrawberry else 0.0
  }

  /** The batch that prices strawberries: as of the date when one is given, else the active one. */
  function PricingBatch(state: AppState, forDate: Option<Date>): Option<StrawberryBatch> {
    if forDate.Some? then StrawberryBatchAt(state.strawberryBatches, forDate.value)
    else ActiveStrawberryBatch(state.strawberryBatches)
  }

  /** The cost of a recipe at the given unit costs. */
  function RecipeCost(p: Product, strawberry: real, chocolate: real, kunafa: real, cup: real, sticks: real): real {
    p.strawberriesPerCup * strawberry
    + p.chocolatePerCup * chocolate
    + p.kunafaPerCup * kunafa
    + p.cupsPerCup * cup
    + p.sticksPerCup * sticks
  }

  /**
   * The cost of one cup: the manual figure (0 when unset) for a manual-cost
   * product, otherwise the recipe priced at the unit costs resolved for the date.
   */
  function CostPerCup(state: AppState, p: Product, forDate: Option<Date>): (r: real)
    ensures p.useManualCost ==> r == p.manualCostPerCup.GetOr(0.0)
    ensures !p.useManualCost ==> (r ==
      RecipeCost(p, CostPerStrawberry(PricingBatch(state, forDate)),
        IngredientUnitCost(state, "chocolate", forDate), IngredientUnitCost(state, "kunafa", forDate),
        IngredientUnitCost(state, "cup", forDate), IngredientUnitCost(state, "sticks", forDate)))
  {
    if p.useManualCost then p.manualCostPerCup.GetOr(0.0)
    else
      var strawberryCostPerPiece := CostPerStrawberry(PricingBatch(state, forDate));
      var cupCost := IngredientUnitCost(state, "cup", forDate);
      var chocolateCost := IngredientUnitCost(state, "chocolate", forDate);
      var kunafaCost := IngredientUnitCost(state, "kunafa", forDate);
      var sticksCost := IngredientUnitCost(state, "sticks", forDate);
      RecipeCost(p, strawberryCostPerPiece, chocolateCost, kunafaCost, cupCost, sticksCost)
  }

  /** A manual-cost product costs its manual figure whatever its recipe says. */
  lemma ManualCostIgnoresRecipe(state: AppState, p: Product, q: Product, forDate: Option<Date>)
    requires p.useManualCost && q.useManualCost && p.manualCostPerCup == q.manualCostPerCup
    ensures CostPerCup(state, p, forDate) == CostPerCup(state, q, forDate)
  {
  }

  /** Without strawberry batches, a recipe is priced with strawberries at 0 a piece. */
  lemma NoBatchNoStrawberryCost(state: AppState, p: Product, forDate: Option<Date>)
    requires state.strawberryBatches == [] && !p.useManualCost
    ensures CostPerCup(state, p, forDate) ==
      RecipeCost(p, 0.0, IngredientUnitCost(state, "chocolate", forDate), IngredientUnitCost(state, "kunafa", forDate),
        IngredientUnitCost(state, "cup", forDate), IngredientUnitCost(state, "sticks", forDate))
  {
    assert PricingBatch(state, forDate).None?;
  }

  lemma RecipeCostNonNegative(p: Product, strawberry: real, chocolate: real, kunafa: real, cup: real, sticks: real)
    requires p.strawberriesPerCup >= 0.0 && p.chocolatePerCup >= 0.0 && p.kunafaPerCup >= 0.0
    requires p.cupsPerCup >= 0.0 && p.sticksPerCup >= 0.0
    requires strawberry >= 0.0 && chocolate >= 0.0 && kunafa >= 0.0 && cup >= 0.0 && sticks >= 0.0
    ensures RecipeCost(p, strawberry, chocolate, kunafa, cup, sticks) >= 0.0
  {
  }

  /** With non-negative bulk costs, piece costs and recipe amounts, a cup never costs less than 0. */
  lemma CostPerCupNonNegative(state: AppState, p: Product, forDate: Option<Date>)
    requires forall i :: 0 <= i < |state.ingredientBatches| ==> state.ingredientBatches[i].bulkCost >= 0.0
    requires forall i :: 0 <= i < |state.ingredients| ==> state.ingredients[i].value.defaultBulkCost >= 0.0
    requires forall i :: 0 <= i < |state.strawberryBatches| ==> state.strawberryBatches[i].costPerStrawberry >= 0.0
    requires !p.useManualCost
    requires p.strawberriesPerCup >= 0.0 && p.chocolatePerCup >= 0.0 && p.kunafaPerCup >= 0.0
    requires p.cupsPerCup >= 0.0 && p.sticksPerCup >= 0.0
    ensures CostPerCup(state, p, forDate) >= 0.0
  {
    UnitCostNonNegative(state, "chocolate", forDate);
    UnitCostNonNegative(state, "kunafa", forDate);
    UnitCostNonNegative(state, "cup", forDate);
    UnitCostNonNegative(state, "sticks", forDate);
    var batch := PricingBatch(state, forDate);
    if batch.Some? {
      var k :| 0 <= k < |state.strawberryBatches| && state.strawberryBatches[k] == batch.value;
    }
    RecipeCostNonNegative(p, CostPerStrawberry(batch),
      IngredientUnitCost(state, "chocolate", forDate), IngredientUnitCost(state, "kunafa", forDate),
      IngredientUnitCost(state, "cup", forDate), IngredientUnitCost(state, "sticks", forDate));
  }
}
