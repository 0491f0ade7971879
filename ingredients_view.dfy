/**
 * The ingredients view: the three entry forms (a new ingredient, a purchase
 * batch of an ingredient, a strawberry batch), the batch marked active, the
 * ingredients that cannot be deleted, and the stock warnings on the
 * inventory cards.
 */
module IngredientsView {
  import opened Wrappers
  import opened Records
  import opened Folds
  import opened Text
  import opened Types
  import opened Costing
  import AppStore
  import DashboardOverview

  // ------------------------------------------------------------------
  // A new ingredient
  // ------------------------------------------------------------------

  /** The new-ingredient form; the two bulk figures are parsed, `NaN` when empty. */
  datatype IngredientForm = IngredientForm(name: string, unit: Unit, bulkQty: Parsed<real>, bulkCost: Parsed<real>)

  /** The ingredient `handleAddIngredient` passes to the store; none for a blank name. */
  function NewIngredient(f: IngredientForm, id: string): (r: Option<Ingredient>)
    ensures r.None? <==> Trim(f.name) == ""
    ensures r.Some? ==> r.value.id == id && r.value.name == Trim(f.name) && r.value.unit == f.unit
    ensures r.Some? ==> r.value.defaultBulkQty == (if f.bulkQty.Value? then f.bulkQty.v else 0.0)
    ensures r.Some? ==> r.value.defaultBulkCost == (if f.bulkCost.Value? then f.bulkCost.v else 0.0)
  {
    if Trim(f.name) == "" then None
    else Some(Ingredient(id, Trim(f.name), f.unit, OrZero(f.bulkQty), OrZero(f.bulkCost)))
  }

  /** `handleAddIngredient`: stores the ingredient under a fresh id, or does nothing for a blank name. */
  method HandleAddIngredient(store: AppStore.Store, f: IngredientForm, id: string) returns (added: bool)
    modifies store
    ensures added <==> Trim(f.name) != ""
    ensures !added ==> store.Snapshot() == old(store.Snapshot())
    ensures added ==> store.Snapshot() == old(store.Snapshot()).(ingredients :=
      Put(old(store.ingredients), id, NewIngredient(f, id).value))
    ensures old(store.Valid()) ==> store.Valid()
  {
    var name := Trim(f.name);
    if name == "" {
      return false;
    }
    store.AddIngredient(id, Ingredient("", name, f.unit, OrZero(f.bulkQty), OrZero(f.bulkCost)));
    added := true;
  }

  /**
   * Until a batch of it is bought, a new ingredient is costed at its
   * default bulk cost over its default bulk quantity, on any date.
   */
  lemma NewIngredientCostedAtDefault(state: AppState, f: IngredientForm, id: string, forDate: Option<Date>)
    requires Trim(f.name) != ""
    requires BatchesOf(state.ingredientBatches, id) == []
    ensures IngredientUnitCost(state.(ingredients := Put(state.ingredients, id, NewIngredient(f, id).value)), id, forDate)
      == CostRatio(OrZero(f.bulkCost), OrZero(f.bulkQty))
  {
    PutGet(state.ingredients, id, NewIngredient(f, id).value, id);
  }

  // ------------------------------------------------------------------
  // A purchase batch
  // ------------------------------------------------------------------

  /**
   * The batch form. `date` is the date field as a day number and `dateText`
   * its `yyyy-MM-dd` text; the quantity and cost are absent when their
   * fields are empty.
   */
  datatype BatchForm = BatchForm(
    ingredientId: string,
    name: string,
    date: Date,
    dateText: string,
    qty: Option<real>,
    cost: Option<real>)

  /** The form is refused when no ingredient is chosen or the quantity or cost is empty. */
  predicate BatchAccepted(f: BatchForm) {
    f.ingredientId != "" && f.qty.Some? && f.cost.Some?
  }

  /** `ingredient?.name || ''`. */
  function IngredientName(state: AppState, id: string): (r: string)
    ensures !HasKey(state.ingredients, id) ==> r == ""
    ensures HasKey(state.ingredients, id) ==> r == Get(state.ingredients, id).value.name
  {
    match Get(state.ingredients, id)
    case None => ""
    case Some(g) => g.name
  }

  /** The typed batch name, or `"<ingredient name> - <date>"` when it is empty. */
  function BatchName(state: AppState, f: BatchForm): (r: string)
    ensures f.name != "" ==> r == f.name
    ensures f.name == "" ==> r == IngredientName(state, f.ingredientId) + " - " + f.dateText
  {
    if f.name != "" then f.name else IngredientName(state, f.ingredientId) + " - " + f.dateText
  }

  /** The batch `handleAddBatch` passes to the store, if the form is accepted. */
  function NewBatch(state: AppState, f: BatchForm, id: string): (r: Option<IngredientBatch>)
    ensures r.Some? <==> BatchAccepted(f)
    ensures r.Some? ==> r.value.id == id && r.value.ingredientId == f.ingredientId && r.value.date == f.date
    ensures r.Some? ==> r.value.bulkQty == f.qty.value && r.value.bulkCost == f.cost.value
    ensures r.Some? ==> r.value.name == BatchName(state, f) && r.value.avgWeightPerPiece.None?
  {
    if !BatchAccepted(f) then None
    else Some(IngredientBatch(id, f.ingredientId, BatchName(state, f), f.date, f.qty.value, f.cost.value, None))
  }

  /** `handleAddBatch`: appends the batch, or does nothing. */
  method HandleAddBatch(store: AppStore.Store, f: BatchForm, id: string) returns (added: bool)
    modifies store
    ensures added <==> BatchAccepted(f)
    ensures !added ==> store.Snapshot() == old(store.Snapshot())
    ensures added ==> store.Snapshot() == old(store.Snapshot()).(ingredientBatches :=
      old(store.ingredientBatches) + [NewBatch(old(store.Snapshot()), f, id).value])
    ensures old(store.Valid()) ==> store.Valid()
  {
    if f.ingredientId == "" || f.qty.None? || f.cost.None? {
      return false;
    }
    var ingredient := Get(store.ingredients, f.ingredientId);
    var ingredientName := if ingredient.Some? then ingredient.value.name else "";
    var name := if f.name != "" then f.name else ingredientName + " - " + f.dateText;
    assert name == BatchName(store.Snapshot(), f);
    store.AddIngredientBatch(id, IngredientBatch("", f.ingredientId, name, f.date, f.qty.value, f.cost.value, None));
    added := true;
  }

  /** Appending a batch adds it to the end of that ingredient's batches and to no other's. */
  lemma BatchesOfAppend(batches: seq<IngredientBatch>, b: IngredientBatch, id: string)
    ensures BatchesOf(batches + [b], id) ==
      if b.ingredientId == id then BatchesOf(batches, id) + [b] else BatchesOf(batches, id)
  {
    assert (batches + [b])[..|batches|] == batches;
  }

  /**
   * The batch just bought becomes the one an undated lookup prices the
   * ingredient with: the unit cost is its cost over its quantity; the other
   * ingredients keep their unit cost.
   */
  lemma NewBatchPricesUndated(state: AppState, f: BatchForm, id: string, other: string)
    requires BatchAccepted(f) && other != f.ingredientId
    ensures var s' := state.(ingredientBatches := state.ingredientBatches + [NewBatch(state, f, id).value]);
      IngredientUnitCost(s', f.ingredientId, None) == CostRatio(f.cost.value, f.qty.value) &&
      IngredientUnitCost(s', other, None) == IngredientUnitCost(state, other, None)
  {
    var b := NewBatch(state, f, id).value;
    var s' := state.(ingredientBatches := state.ingredientBatches + [b]);
    BatchesOfAppend(state.ingredientBatches, b, f.ingredientId);
    BatchesOfAppend(state.ingredientBatches, b, other);
    var bs := BatchesOf(s'.ingredientBatches, f.ingredientId);
    assert bs != [] && bs[|bs| - 1] == b;
    assert IngredientUnitCost(s', f.ingredientId, None) == BatchRatio(b);
    assert BatchesOf(s'.ingredientBatches, other) == BatchesOf(state.ingredientBatches, other);
  }

  // ------------------------------------------------------------------
  // A strawberry batch
  // ------------------------------------------------------------------

  /** The strawberry form: weight in kg, cost and average weight parsed, `NaN` when empty. */
  datatype StrawberryForm = StrawberryForm(
    name: string,
    date: Date,
    dateText: string,
    weightKg: Parsed<real>,
    cost: Parsed<real>,
    avgWeight: Parsed<real>)

  /** The form is refused when any of the three figures does not parse. */
  predicate StrawberryAccepted(f: StrawberryForm) {
    f.weightKg.Value? && f.cost.Value? && f.avgWeight.Value?
  }

  /** What `handleAddStrawberryBatch` passes to the store, if the form is accepted. */
  function StrawberryDraft(f: StrawberryForm): (r: Option<AppStore.StrawberryBatchDraft>)
    ensures r.Some? <==> StrawberryAccepted(f)
    ensures r.Some? ==> r.value.name == (if f.name != "" then f.name else "Batch - " + f.dateText)
    ensures r.Some? ==> r.value.date == f.date && r.value.bulkWeightKg == f.weightKg.v
    ensures r.Some? ==> r.value.bulkWeightG == 1000.0 * r.value.bulkWeightKg
    ensures r.Some? ==> r.value.bulkCost == f.cost.v && r.value.avgWeightPerStrawberry == f.avgWeight.v
  {
    if !StrawberryAccepted(f) then None
    else
      Some(AppStore.StrawberryBatchDraft(if f.name != "" then f.name else "Batch - " + f.dateText,
        f.date, f.weightKg.v, f.weightKg.v * 1000.0, f.cost.v, f.avgWeight.v))
  }

  /** `handleAddStrawberryBatch`: appends the batch, or does nothing. */
  method HandleAddStrawberryBatch(store: AppStore.Store, f: StrawberryForm, id: string) returns (added: bool)
    modifies store
    ensures added <==> StrawberryAccepted(f)
    ensures !added ==> store.Snapshot() == old(store.Snapshot())
    ensures added ==> store.Snapshot() == old(store.Snapshot()).(strawberryBatches :=
      old(store.strawberryBatches) + [AppStore.NewStrawberryBatch(id, StrawberryDraft(f).value)])
    ensures old(store.Valid()) ==> store.Valid()
  {
    if f.weightKg.NaN? || f.cost.NaN? || f.avgWeight.NaN? {
      return false;
    }
    var weightKg := f.weightKg.v;
    var name := if f.name != "" then f.name else "Batch - " + f.dateText;
    store.AddStrawberryBatch(id, AppStore.StrawberryBatchDraft(name, f.date, weightKg, weightKg * 1000.0,
      f.cost.v, f.avgWeight.v));
    added := true;
  }

  /**
   * The batch just added is the active one: waste and undated costing use
   * it, and with a positive weight one gram costs the batch cost over
   * 1000 times the weight in kg.
   */
  lemma NewStrawberryBatchActive(batches: seq<StrawberryBatch>, f: StrawberryForm, id: string)
    requires StrawberryAccepted(f)
    ensures var b := AppStore.NewStrawberryBatch(id, StrawberryDraft(f).value);
      ActiveStrawberryBatch(batches + [b]) == Some(b) &&
      (f.weightKg.v > 0.0 ==> b.costPerGram * (1000.0 * f.weightKg.v) == f.cost.v) &&
      (f.weightKg.v <= 0.0 ==> b.costPerGram == 0.0) &&
      b.costPerStrawberry == b.costPerGram * f.avgWeight.v
  {
    var b := AppStore.NewStrawberryBatch(id, StrawberryDraft(f).value);
    assert AppStore.CostsDerived(b);
    if f.weightKg.v > 0.0 {
      assert b.bulkWeightG > 0.0;
    } else {
      assert b.bulkWeightG <= 0.0;
    }
  }

  // ------------------------------------------------------------------
  // The active batch, built-in ingredients, stock warnings
  // ------------------------------------------------------------------

  /** The row marked Active: the last one. */
  predicate IsActiveRow(batches: seq<StrawberryBatch>, index: int) {
    index == |batches| - 1
  }

  /** Exactly one row is marked when there are batches, and it is the batch the costing uses. */
  lemma ActiveRowIsActiveBatch(batches: seq<StrawberryBatch>)
    ensures batches != [] ==> IsActiveRow(batches, |batches| - 1)
    ensures forall i, j :: 0 <= i < |batches| && 0 <= j < |batches| && IsActiveRow(batches, i) && IsActiveRow(batches, j) ==> i == j
    ensures forall i :: 0 <= i < |batches| && IsActiveRow(batches, i) ==> ActiveStrawberryBatch(batches) == Some(batches[i])
  {
  }

  /** The "cost per unit" column of the batch and default tables: 0 for a quantity that is not positive. */
  function DisplayedCostPerUnit(cost: real, qty: real): real {
    if qty > 0.0 then cost / qty else 0.0
  }

  /**
   * The figure a table row shows is the one the costing charges: the newest
   * batch's for an undated lookup, the default's for an ingredient never
   * bought.
   */
  lemma DisplayedCostIsChargedCost(state: AppState, id: string)
    ensures var bs := BatchesOf(state.ingredientBatches, id);
      bs != [] ==>
        IngredientUnitCost(state, id, None) == DisplayedCostPerUnit(bs[|bs| - 1].bulkCost, bs[|bs| - 1].bulkQty)
    ensures var bs := BatchesOf(state.ingredientBatches, id);
      bs == [] && HasKey(state.ingredients, id) ==>
        var ing := Get(state.ingredients, id).value;
        IngredientUnitCost(state, id, None) == DisplayedCostPerUnit(ing.defaultBulkCost, ing.defaultBulkQty)
  {
  }

  /** The ingredients the kiosk ships with never get a delete action. */
  predicate IsBuiltInIngredient(id: string) {
    id == "cup" || id == "chocolate" || id == "kunafa" || id == "sticks" || id == "strawberry"
  }

  /** The built-in ingredients are exactly the default ones. */
  lemma BuiltInsAreDefaults(id: string)
    ensures IsBuiltInIngredient(id) <==> HasKey(DefaultIngredients, id)
  {
    if HasKey(DefaultIngredients, id) {
      var i :| 0 <= i < |DefaultIngredients| && DefaultIngredients[i].key == id;
      assert i < 5;
    }
    if IsBuiltInIngredient(id) {
      if id == "cup" { assert DefaultIngredients[0].key == id; }
      else if id == "chocolate" { assert DefaultIngredients[1].key == id; }
      else if id == "kunafa" { assert DefaultIngredients[2].key == id; }
      else if id == "sticks" { assert DefaultIngredients[3].key == id; }
      else { assert DefaultIngredients[4].key == id; }
    }
  }

  /** The card warning: negative stock first, then low stock (which here includes negatives). */
  function CardStatus(row: IngredientInventory): (r: DashboardOverview.StockStatus)
    ensures r == DashboardOverview.Negative <==> row.remaining < 0.0
    ensures r == DashboardOverview.Low <==> 0.0 <= row.remaining < row.totalPurchased * 0.2
    ensures r == DashboardOverview.Plenty <==> row.remaining >= 0.0 && row.remaining >= row.totalPurchased * 0.2
  {
    var isLow := row.remaining < row.totalPurchased * 0.2;
    var isNegative := row.remaining < 0.0;
    if isNegative then DashboardOverview.Negative else if isLow then DashboardOverview.Low else DashboardOverview.Plenty
  }

  /**
   * The ingredients page and the dashboard disagree on exactly one kind of
   * row: one with nothing left of a positive purchase, low here and not
   * flagged there.
   */
  lemma CardStatusAgreesWithDashboard(row: IngredientInventory)
    ensures CardStatus(row) != DashboardOverview.Status(row) <==> row.remaining == 0.0 && row.totalPurchased > 0.0
    ensures CardStatus(row) != DashboardOverview.Status(row) ==>
      CardStatus(row) == DashboardOverview.Low && DashboardOverview.Status(row) == DashboardOverview.Plenty
  {
  }
}
