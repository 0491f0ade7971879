/** The inventory projection of the state hook: one row per ingredient. */
module Inventory {
  import opened Wrappers
  import opened Records
  import opened Folds
  import opened Types
  import opened Costing
  import opened Usage

  function WasteOf(waste: seq<WasteEntry>, id: string): seq<WasteEntry> {
    Filter(waste, (w: WasteEntry) => w.ingredientId == id)
  }

  function WastedQty(waste: seq<WasteEntry>, id: string): real {
    Sum(WasteOf(waste, id), (w: WasteEntry) => w.qty)
  }

  function StrawberryPurchasedG(batches: seq<StrawberryBatch>): real {
    Sum(batches, (b: StrawberryBatch) => b.bulkWeightG)
  }

  function StrawberryCost(batches: seq<StrawberryBatch>): real {
    Sum(batches, (b: StrawberryBatch) => b.bulkCost)
  }

  function PurchasedQty(batches: seq<IngredientBatch>, id: string): real {
    Sum(BatchesOf(batches, id), (b: IngredientBatch) => b.bulkQty)
  }

  function PurchaseCost(batches: seq<IngredientBatch>, id: string): real {
    Sum(BatchesOf(batches, id), (b: IngredientBatch) => b.bulkCost)
  }

  /** The remaining quantity: the manual figure when one is recorded, else purchased − used − wasted. */
  function Remaining(adjustments: map<string, real>, id: string, purchased: real, used: real, wasted: real): real {
    if id in adjustments then adjustments[id] else purchased - used - wasted
  }

  /** The usage figure for an ingredient id; 0 for ingredients no recipe mentions. */
  function UsedOf(usage: IngredientUsage, id: string): (r: real)
    ensures id !in {"chocolate", "kunafa", "cup", "sticks"} ==> r == 0.0
  {
    if id == "chocolate" then usage.chocolateG
    else if id == "kunafa" then usage.kunafaG
    else if id == "cup" then usage.cupsUsed
    else if id == "sticks" then usage.sticksUsed
    else 0.0
  }

  /** The strawberry row: weights and costs come from the strawberry batches. */
  function StrawberryRow(state: AppState, usage: IngredientUsage): (r: IngredientInventory)
    ensures r.ingredientId == "strawberry" && r.name == "Strawberry" && r.unit == Grams
    ensures r.totalPurchased == StrawberryPurchasedG(state.strawberryBatches)
    ensures r.totalCost == StrawberryCost(state.strawberryBatches)
    ensures r.totalWasted == WastedQty(state.wasteEntries, "strawberry")
    ensures r.totalUsed == usage.strawberriesG
    ensures "strawberry" in state.manualInventoryAdjustments ==>
      r.remaining == state.manualInventoryAdjustments["strawberry"]
    ensures "strawberry" !in state.manualInventoryAdjustments ==>
      r.remaining == r.totalPurchased - r.totalUsed - r.totalWasted
  {
    var purchased := StrawberryPurchasedG(state.strawberryBatches);
    var wasted := WastedQty(state.wasteEntries, "strawberry");
    var cost := StrawberryCost(state.strawberryBatches);
    var ing := Get(state.ingredients, "strawberry");
    var costPerUnit := if purchased > 0.0 then cost / purchased
      else if ing.Some? then DefaultRatio(ing.value) else 0.0;
    IngredientInventory("strawberry", "Strawberry", purchased, usage.strawberriesG, wasted,
      Remaining(state.manualInventoryAdjustments, "strawberry", purchased, usage.strawberriesG, wasted),
      Grams, cost, costPerUnit)
  }

  /** The row of any other ingredient: quantities and costs come from its purchase batches. */
  function IngredientRow(state: AppState, usage: IngredientUsage, id: string, ing: Ingredient): (r: IngredientInventory)
    ensures r.ingredientId == id && r.name == ing.name && r.unit == ing.unit
    ensures r.totalPurchased == PurchasedQty(state.ingredientBatches, id)
    ensures r.totalCost == PurchaseCost(state.ingredientBatches, id)
    ensures r.totalWasted == WastedQty(state.wasteEntries, id)
    ensures r.totalUsed == UsedOf(usage, id)
    ensures id in state.manualInventoryAdjustments ==> r.remaining == state.manualInventoryAdjustments[id]
    ensures id !in state.manualInventoryAdjustments ==> r.remaining == r.totalPurchased - r.totalUsed - r.totalWasted
  {
    var purchased := PurchasedQty(state.ingredientBatches, id);
    var cost := PurchaseCost(state.ingredientBatches, id);
    var wasted := WastedQty(state.wasteEntries, id);
    var used := UsedOf(usage, id);
    var costPerUnit := if purchased > 0.0 then cost / purchased else DefaultRatio(ing);
    IngredientInventory(id, ing.name, purchased, used, wasted,
      Remaining(state.manualInventoryAdjustments, id, purchased, used, wasted), ing.unit, cost, costPerUnit)
  }

  /** The ingredient entries that get a row of their own: all but `strawberry`, in order. */
  function OtherEntries(d: Dict<Ingredient>): Dict<Ingredient> {
    if d == [] then []
    else OtherEntries(d[..|d| - 1]) + (if d[|d| - 1].key != "strawberry" then [d[|d| - 1]] else [])
  }

  /** One row per entry, in order. */
  function RowsOf(state: AppState, usage: IngredientUsage, es: Dict<Ingredient>): (rows: seq<IngredientInventory>)
    ensures |rows| == |es|
  {
    if es == [] then []
    else
      var last := es[|es| - 1];
      RowsOf(state, usage, es[..|es| - 1]) + [IngredientRow(state, usage, last.key, last.value)]
  }

  /** The projection: the strawberry row first, then the other ingredients' rows. */
  function InventoryOf(state: AppState, usage: IngredientUsage): seq<IngredientInventory> {
    [StrawberryRow(state, usage)] + RowsOf(state, usage, OtherEntries(state.ingredients))
  }

  /** The hook's inventory builder: computes the usage, pushes the strawberry row, then one row per other ingredient. */
  method CalculateInventory(state: AppState) returns (inventory: seq<IngredientInventory>)
    ensures inventory == InventoryOf(state, UsageOf(state, state.sales))
  {
    var usage := CalculateIngredientUsage(state);
    inventory := BuildInventory(state, usage);
  }

  /** The pushes of the inventory builder, for a usage already computed. */
  method BuildInventory(state: AppState, usage: IngredientUsage) returns (inventory: seq<IngredientInventory>)
    ensures inventory == InventoryOf(state, usage)
  {
    var strawberryRow := StrawberryRow(state, usage);
    inventory := [strawberryRow];
    var entries := state.ingredients;
    var i := 0;
    assert entries[..0] == [];
    while i < |entries|
      invariant 0 <= i <= |entries|
      invariant inventory == [strawberryRow] + RowsOf(state, usage, OtherEntries(entries[..i]))
    {
      inventory := PushRow(state, usage, entries, i, [strawberryRow], inventory);
      i := i + 1;
    }
    assert entries[..|entries|] == entries;
  }

  /** One step of the builder: the entry at `i` adds its row unless it is the strawberry entry. */
  method PushRow(state: AppState, usage: IngredientUsage, entries: Dict<Ingredient>, i: nat,
                 ghost head: seq<IngredientInventory>, inventory: seq<IngredientInventory>)
    returns (next: seq<IngredientInventory>)
    requires i < |entries|
    requires inventory == head + RowsOf(state, usage, OtherEntries(entries[..i]))
    ensures next == head + RowsOf(state, usage, OtherEntries(entries[..i + 1]))
  {
    InventoryStep(state, usage, entries, i);
    if entries[i].key != "strawberry" {
      var row := IngredientRow(state, usage, entries[i].key, entries[i].value);
      next := inventory + [row];
    } else {
      next := inventory;
    }
  }

  lemma InventoryStep(state: AppState, usage: IngredientUsage, d: Dict<Ingredient>, i: nat)
    requires i < |d|
    ensures d[i].key != "strawberry" ==>
      RowsOf(state, usage, OtherEntries(d[..i + 1])) ==
        RowsOf(state, usage, OtherEntries(d[..i])) + [IngredientRow(state, usage, d[i].key, d[i].value)]
    ensures d[i].key == "strawberry" ==> RowsOf(state, usage, OtherEntries(d[..i + 1])) == RowsOf(state, usage, OtherEntries(d[..i]))
  {
    OtherEntriesStep(d, i);
    if d[i].key != "strawberry" {
      RowsOfSnoc(state, usage, OtherEntries(d[..i]), d[i]);
    } else {
      assert OtherEntries(d[..i + 1]) == OtherEntries(d[..i]) + [];
      assert OtherEntries(d[..i]) + [] == OtherEntries(d[..i]);
    }
  }

  lemma OtherEntriesStep(d: Dict<Ingredient>, i: nat)
    requires i < |d|
    ensures OtherEntries(d[..i + 1]) == OtherEntries(d[..i]) + (if d[i].key != "strawberry" then [d[i]] else [])
  {
    assert d[..i + 1][..i] == d[..i];
  }

  lemma {:induction false} RowsOfAt(state: AppState, usage: IngredientUsage, es: Dict<Ingredient>, i: nat)
    requires i < |es|
    ensures RowsOf(state, usage, es)[i].ingredientId == es[i].key
  {
    if i < |es| - 1 {
      RowsOfAt(state, usage, es[..|es| - 1], i);
    }
  }

  lemma RowsOfSnoc(state: AppState, usage: IngredientUsage, es: Dict<Ingredient>, e: Entry<Ingredient>)
    ensures RowsOf(state, usage, es + [e]) == RowsOf(state, usage, es) + [IngredientRow(state, usage, e.key, e.value)]
  {
    assert (es + [e])[..|es|] == es;
  }

  /** The entries kept are exactly the non-strawberry entries, and keep unique keys unique. */
  lemma OtherEntriesSpec(d: Dict<Ingredient>)
    ensures var es := OtherEntries(d);
      (forall i :: 0 <= i < |es| ==> es[i] in d && es[i].key != "strawberry") &&
      (forall k :: 0 <= k < |d| && d[k].key != "strawberry" ==> d[k] in es) &&
      (UniqueKeys(d) ==> UniqueKeys(es))
  {
    OtherEntriesSound(d);
    OtherEntriesComplete(d);
    if UniqueKeys(d) {
      OtherEntriesUnique(d);
    }
  }

  lemma {:induction false} OtherEntriesSound(d: Dict<Ingredient>)
    ensures forall i :: 0 <= i < |OtherEntries(d)| ==> OtherEntries(d)[i] in d && OtherEntries(d)[i].key != "strawberry"
  {
    if d != [] {
      var init := d[..|d| - 1];
      OtherEntriesSound(init);
      var rest, es := OtherEntries(init), OtherEntries(d);
      forall i | 0 <= i < |es| ensures es[i] in d && es[i].key != "strawberry" {
        if i < |rest| {
          assert es[i] == rest[i];
          assert rest[i] in init;
        } else {
          assert es[i] == d[|d| - 1];
        }
      }
    }
  }

  lemma {:induction false} OtherEntriesComplete(d: Dict<Ingredient>)
    ensures forall k :: 0 <= k < |d| && d[k].key != "strawberry" ==> d[k] in OtherEntries(d)
  {
    if d != [] {
      var init := d[..|d| - 1];
      OtherEntriesComplete(init);
      var rest, es := OtherEntries(init), OtherEntries(d);
      forall k | 0 <= k < |d| && d[k].key != "strawberry" ensures d[k] in es {
        if k < |init| {
          assert d[k] == init[k];
          var j :| 0 <= j < |rest| && rest[j] == d[k];
          assert es[j] == rest[j];
        } else {
          assert es[|es| - 1] == d[k];
        }
      }
    }
  }

  lemma {:induction false} OtherEntriesUnique(d: Dict<Ingredient>)
    requires UniqueKeys(d)
    ensures UniqueKeys(OtherEntries(d))
  {
    if d != [] {
      var init := d[..|d| - 1];
      var last := d[|d| - 1];
      assert UniqueKeys(init) by {
        forall i, j | 0 <= i < j < |init| ensures init[i].key != init[j].key {
          assert init[i] == d[i] && init[j] == d[j];
        }
      }
      OtherEntriesUnique(init);
      OtherEntriesSound(init);
      var rest := OtherEntries(init);
      if last.key != "strawberry" {
        forall i | 0 <= i < |rest| ensures rest[i].key != last.key {
          var k :| 0 <= k < |init| && init[k] == rest[i];
          assert d[k].key != d[|d| - 1].key;
        }
        UniqueSnoc(rest, last);
      } else {
        assert OtherEntries(d) == rest + [];
        assert rest + [] == rest;
      }
    }
  }

  lemma UniqueSnoc(es: Dict<Ingredient>, e: Entry<Ingredient>)
    requires UniqueKeys(es)
    requires forall i :: 0 <= i < |es| ==> es[i].key != e.key
    ensures UniqueKeys(es + [e])
  {
    var t := es + [e];
    forall i, j | 0 <= i < j < |t| ensures t[i].key != t[j].key {
      if j < |es| {
        assert t[i] == es[i] && t[j] == es[j];
      } else {
        assert t[i] == es[i] && t[j] == e;
      }
    }
  }

  /** Row `i` (after the strawberry row) belongs to the `i`-th kept entry. */
  lemma InventoryRowId(state: AppState, usage: IngredientUsage, i: nat)
    requires 1 <= i < |InventoryOf(state, usage)|
    ensures InventoryOf(state, usage)[i].ingredientId == OtherEntries(state.ingredients)[i - 1].key
  {
    RowsOfAt(state, usage, OtherEntries(state.ingredients), i - 1);
  }

  /** The projection starts with the strawberry row, and every later row is a non-strawberry ingredient's. */
  lemma InventoryRowsSound(state: AppState, usage: IngredientUsage)
    ensures var rows := InventoryOf(state, usage);
      rows[0].ingredientId == "strawberry" &&
      forall i :: 1 <= i < |rows| ==> rows[i].ingredientId != "strawberry" && HasKey(state.ingredients, rows[i].ingredientId)
  {
    var d := state.ingredients;
    var es := OtherEntries(d);
    var rows := InventoryOf(state, usage);
    OtherEntriesSpec(d);
    forall i | 1 <= i < |rows|
      ensures rows[i].ingredientId != "strawberry" && HasKey(d, rows[i].ingredientId)
    {
      InventoryRowId(state, usage, i);
      var k :| 0 <= k < |d| && d[k] == es[i - 1];
    }
  }

  /** Every ingredient other than strawberry has a row. */
  lemma InventoryRowsComplete(state: AppState, usage: IngredientUsage)
    ensures var rows := InventoryOf(state, usage);
      forall k :: 0 <= k < |state.ingredients| && state.ingredients[k].key != "strawberry" ==>
        exists i :: 1 <= i < |rows| && rows[i].ingredientId == state.ingredients[k].key
  {
    var d := state.ingredients;
    var es := OtherEntries(d);
    var rows := InventoryOf(state, usage);
    OtherEntriesSpec(d);
    forall k | 0 <= k < |d| && d[k].key != "strawberry"
      ensures exists i :: 1 <= i < |rows| && rows[i].ingredientId == d[k].key
    {
      var j :| 0 <= j < |es| && es[j] == d[k];
      InventoryRowId(state, usage, j + 1);
    }
  }

  /** With unique ingredient ids, no ingredient has two rows. */
  lemma InventoryRowsDistinct(state: AppState, usage: IngredientUsage)
    requires UniqueKeys(state.ingredients)
    ensures var rows := InventoryOf(state, usage);
      forall i, j :: 0 <= i < j < |rows| ==> rows[i].ingredientId != rows[j].ingredientId
  {
    var d := state.ingredients;
    var es := OtherEntries(d);
    var rows := InventoryOf(state, usage);
    OtherEntriesSpec(d);
    forall i, j | 0 <= i < j < |rows| ensures rows[i].ingredientId != rows[j].ingredientId {
      InventoryRowId(state, usage, j);
      if i > 0 {
        InventoryRowId(state, usage, i);
      }
    }
  }

  /** A row's unit cost is its purchase cost over its purchased quantity, or the default ratio when nothing was bought. */
  lemma RowCostPerUnit(state: AppState, usage: IngredientUsage, id: string, ing: Ingredient)
    ensures var r := IngredientRow(state, usage, id, ing);
      (r.totalPurchased > 0.0 ==> r.costPerUnit * r.totalPurchased == r.totalCost) &&
      (r.totalPurchased <= 0.0 ==> r.costPerUnit == DefaultRatio(ing))
  {
  }

  /** The strawberry row's unit cost: batch cost over batch grams, else the strawberry ingredient's default ratio, else 0. */
  lemma StrawberryCostPerUnit(state: AppState, usage: IngredientUsage)
    ensures var r := StrawberryRow(state, usage);
      (r.totalPurchased > 0.0 ==> r.costPerUnit * r.totalPurchased == r.totalCost) &&
      (r.totalPurchased <= 0.0 && HasKey(state.ingredients, "strawberry") ==>
         r.costPerUnit == DefaultRatio(Get(state.ingredients, "strawberry").value)) &&
      (r.totalPurchased <= 0.0 && !HasKey(state.ingredients, "strawberry") ==> r.costPerUnit == 0.0)
  {
  }

  /** No clamping: an ingredient used beyond its purchases, with no override, shows a negative remainder. */
  lemma RemainingMayBeNegative(state: AppState, usage: IngredientUsage, id: string, ing: Ingredient)
    requires id !in state.manualInventoryAdjustments
    requires BatchesOf(state.ingredientBatches, id) == [] && WasteOf(state.wasteEntries, id) == []
    requires UsedOf(usage, id) > 0.0
    ensures IngredientRow(state, usage, id, ing).remaining == -UsedOf(usage, id) < 0.0
  {
  }
}
