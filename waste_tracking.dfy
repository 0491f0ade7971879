/**
 * The waste log: validating and pricing a waste entry before it is
 * stored, the total cost of waste, and the per-ingredient summary.
 */
module WasteTracking {
  import opened Wrappers
  import opened Records
  import opened Folds
  import opened Text
  import opened Types
  import opened Costing
  import DashboardStats
  import AppStore

  // ------------------------------------------------------------------
  // Recording waste
  // ------------------------------------------------------------------

  /** The submitted form: `qty` is the parsed quantity, `ingredientId` empty when none is chosen. */
  datatype WasteForm = WasteForm(date: Date, ingredientId: string, qty: Parsed<real>, reason: string)

  /** The form is refused without an ingredient or with a quantity that is `NaN` or not positive. */
  predicate Accepted(f: WasteForm) {
    f.ingredientId != "" && f.qty.Value? && f.qty.v > 0.0
  }

  const DefaultReason := "Spoiled/Expired"

  /** `reason.trim() || 'Spoiled/Expired'`. */
  function WasteReason(reason: string): (r: string)
    ensures r != []
    ensures IsBlank(reason) ==> r == DefaultReason
    ensures !IsBlank(reason) ==> r == Trim(reason)
  {
    var t := Trim(reason);
    if t == "" then DefaultReason else t
  }

  /**
   * The price of one unit of waste: strawberries at the active (last)
   * batch's cost per gram, 0 without a batch; any other ingredient at its
   * undated unit cost.
   */
  function WasteUnitCost(state: AppState, ingredientId: string): (r: real)
    ensures ingredientId == "strawberry" && state.strawberryBatches == [] ==> r == 0.0
    ensures ingredientId == "strawberry" && state.strawberryBatches != [] ==>
      r == state.strawberryBatches[|state.strawberryBatches| - 1].costPerGram
    ensures ingredientId != "strawberry" ==> r == IngredientUnitCost(state, ingredientId, None)
  {
    if ingredientId == "strawberry" then
      match ActiveStrawberryBatch(state.strawberryBatches)
      case None => 0.0
      case Some(b) => b.costPerGram
    else IngredientUnitCost(state, ingredientId, None)
  }

  /** The entry a form records, if it is accepted. */
  function SubmittedWaste(state: AppState, f: WasteForm, id: string): (r: Option<WasteEntry>)
    ensures r.Some? <==> Accepted(f)
    ensures r.Some? ==> r.value.id == id && r.value.date == f.date && r.value.ingredientId == f.ingredientId
    ensures r.Some? ==> r.value.qty == f.qty.v && r.value.qty > 0.0
    ensures r.Some? ==> r.value.reason == WasteReason(f.reason)
    ensures r.Some? ==> r.value.estimatedCost == f.qty.v * WasteUnitCost(state, f.ingredientId)
  {
    if Accepted(f) then
      Some(WasteEntry(id, f.date, f.ingredientId, f.qty.v, WasteReason(f.reason),
        f.qty.v * WasteUnitCost(state, f.ingredientId)))
    else None
  }

  /** A non-strawberry ingredient's waste is never priced below zero. */
  lemma IngredientWasteCostNonNegative(state: AppState, f: WasteForm, id: string)
    requires Accepted(f) && f.ingredientId != "strawberry"
    requires forall i :: 0 <= i < |state.ingredientBatches| ==> state.ingredientBatches[i].bulkCost >= 0.0
    requires forall i :: 0 <= i < |state.ingredients| ==> state.ingredients[i].value.defaultBulkCost >= 0.0
    ensures SubmittedWaste(state, f, id).value.estimatedCost >= 0.0
  {
    UnitCostNonNegative(state, f.ingredientId, None);
    ProductNonNegative(f.qty.v, WasteUnitCost(state, f.ingredientId));
  }

  lemma ProductNonNegative(q: real, c: real)
    requires q >= 0.0 && c >= 0.0
    ensures q * c >= 0.0
  {
  }

  /** `handleSubmit`: records the waste entry, or does nothing when the form is refused. */
  method HandleSubmit(store: AppStore.Store, f: WasteForm, id: string) returns (recorded: bool)
    modifies store
    ensures recorded <==> Accepted(f)
    ensures !recorded ==> store.Snapshot() == old(store.Snapshot())
    ensures recorded ==> store.Snapshot() == old(store.Snapshot()).(wasteEntries :=
      old(store.wasteEntries) + [SubmittedWaste(old(store.Snapshot()), f, id).value])
    ensures old(store.Valid()) ==> store.Valid()
  {
    if f.ingredientId == "" || f.qty.NaN? || f.qty.v <= 0.0 {
      return false;
    }
    var qtyNum := f.qty.v;
    var costPerUnit := 0.0;
    if f.ingredientId == "strawberry" {
      var active := ActiveStrawberryBatch(store.strawberryBatches);
      costPerUnit := if active.Some? then active.value.costPerGram else 0.0;
    } else {
      costPerUnit := IngredientUnitCost(store.Snapshot(), f.ingredientId, None);
    }
    assert costPerUnit == WasteUnitCost(store.Snapshot(), f.ingredientId);
    var entry := WasteEntry("", f.date, f.ingredientId, qtyNum, WasteReason(f.reason), qtyNum * costPerUnit);
    assert entry.(id := id) == SubmittedWaste(store.Snapshot(), f, id).value;
    store.AddWasteEntry(id, entry);
    recorded := true;
  }

  // ------------------------------------------------------------------
  // Total waste cost
  // ------------------------------------------------------------------

  /** Recording one more entry adds exactly its cost to the total. */
  lemma TotalWasteCostAppend(entries: seq<WasteEntry>, w: WasteEntry)
    ensures DashboardStats.TotalWasteCost(entries + [w]) == DashboardStats.TotalWasteCost(entries) + w.estimatedCost
  {
    assert (entries + [w])[..|entries|] == entries;
  }

  /** Deleting an entry takes exactly its cost off the total. */
  lemma TotalWasteCostDelete(entries: seq<WasteEntry>, i: nat)
    requires i < |entries|
    requires forall j :: 0 <= j < |entries| && j != i ==> entries[j].id != entries[i].id
    ensures DashboardStats.TotalWasteCost(AppStore.DropId(entries, AppStore.WasteEntryId, entries[i].id)) ==
      DashboardStats.TotalWasteCost(entries) - entries[i].estimatedCost
  {
    AppStore.DropIdOnly(entries, AppStore.WasteEntryId, i);
    SumRemove(entries, i, (w: WasteEntry) => w.estimatedCost);
  }

  // ------------------------------------------------------------------
  // Waste by ingredient
  // ------------------------------------------------------------------

  datatype WasteTotals = WasteTotals(qty: real, cost: real)

  function GroupCost(e: Entry<WasteTotals>): real { e.value.cost }

  /** One step of the reduce: open the ingredient's group at zero if needed, then add the entry. */
  function AddWaste(g: Dict<WasteTotals>, w: WasteEntry): Dict<WasteTotals> {
    var t := Get(g, w.ingredientId).GetOr(WasteTotals(0.0, 0.0));
    Put(g, w.ingredientId, WasteTotals(t.qty + w.qty, t.cost + w.estimatedCost))
  }

  /** `wasteByIngredient`: groups in order of the ingredient's first entry. */
  function WasteGroups(entries: seq<WasteEntry>): Dict<WasteTotals> {
    if entries == [] then [] else AddWaste(WasteGroups(entries[..|entries| - 1]), entries[|entries| - 1])
  }

  /** One step of the reduce, in place: `if (!acc[key]) acc[key] = {qty: 0, cost: 0}`, then add. */
  method AccumulateWaste(acc: Dict<WasteTotals>, w: WasteEntry) returns (next: Dict<WasteTotals>)
    ensures next == AddWaste(acc, w)
  {
    var key := w.ingredientId;
    next := acc;
    if Get(next, key).None? {
      next := Put(next, key, WasteTotals(0.0, 0.0));
      PutGet(acc, key, WasteTotals(0.0, 0.0), key);
    }
    var t := Get(next, key).value;
    next := Put(next, key, WasteTotals(t.qty + w.qty, t.cost + w.estimatedCost));
    if Get(acc, key).None? {
      PutPut(acc, key, WasteTotals(0.0, 0.0), WasteTotals(t.qty + w.qty, t.cost + w.estimatedCost));
    }
  }

  /** The reduce over all entries. */
  method WasteByIngredient(entries: seq<WasteEntry>) returns (acc: Dict<WasteTotals>)
    ensures acc == WasteGroups(entries)
  {
    acc := [];
    assert entries[..0] == [];
    for i := 0 to |entries|
      invariant acc == WasteGroups(entries[..i])
    {
      acc := AccumulateWaste(acc, entries[i]);
      assert entries[..i + 1][..i] == entries[..i];
    }
    assert entries[..|entries|] == entries;
  }

  /** No ingredient has two groups. */
  lemma {:induction false} WasteGroupsUnique(entries: seq<WasteEntry>)
    ensures UniqueKeys(WasteGroups(entries))
  {
    if entries != [] {
      var init := entries[..|entries| - 1];
      var w := entries[|entries| - 1];
      var g := WasteGroups(init);
      WasteGroupsUnique(init);
      var t := Get(g, w.ingredientId).GetOr(WasteTotals(0.0, 0.0));
      PutKeepsUnique(g, w.ingredientId, WasteTotals(t.qty + w.qty, t.cost + w.estimatedCost));
    }
  }

  /** One reduce step opens the entry's group and no other. */
  lemma HasKeyAfterAddWaste(g: Dict<WasteTotals>, w: WasteEntry, k: string)
    ensures HasKey(AddWaste(g, w), k) <==> HasKey(g, k) || k == w.ingredientId
  {
    var key := w.ingredientId;
    var t := Get(g, key).GetOr(WasteTotals(0.0, 0.0));
    var nv := WasteTotals(t.qty + w.qty, t.cost + w.estimatedCost);
    assert AddWaste(g, w) == Put(g, key, nv);
    PutGet(g, key, nv, k);
  }

  /** One group per ingredient that has waste, and no other. */
  lemma {:induction false} WasteGroupsKeys(entries: seq<WasteEntry>, k: string)
    ensures HasKey(WasteGroups(entries), k) <==> exists i :: 0 <= i < |entries| && entries[i].ingredientId == k
  {
    if entries != [] {
      var init := entries[..|entries| - 1];
      var w := entries[|entries| - 1];
      WasteGroupsKeys(init, k);
      HasKeyAfterAddWaste(WasteGroups(init), w, k);
      if exists i :: 0 <= i < |init| && init[i].ingredientId == k {
        var i :| 0 <= i < |init| && init[i].ingredientId == k;
        assert entries[i] == init[i];
      }
      if exists i :: 0 <= i < |entries| && entries[i].ingredientId == k {
        var i :| 0 <= i < |entries| && entries[i].ingredientId == k;
        if i < |init| { assert init[i] == entries[i]; }
      }
    }
  }

  function CostOf(k: string): WasteEntry -> real { (w: WasteEntry) => if w.ingredientId == k then w.estimatedCost else 0.0 }
  function QtyOf(k: string): WasteEntry -> real { (w: WasteEntry) => if w.ingredientId == k then w.qty else 0.0 }

  /** One reduce step, seen through one ingredient's group. */
  lemma GetAfterAddWaste(g: Dict<WasteTotals>, w: WasteEntry, k: string)
    ensures k == w.ingredientId ==>
      Get(AddWaste(g, w), k) ==
        Some(WasteTotals(Get(g, k).GetOr(WasteTotals(0.0, 0.0)).qty + w.qty,
                         Get(g, k).GetOr(WasteTotals(0.0, 0.0)).cost + w.estimatedCost))
    ensures k != w.ingredientId ==> Get(AddWaste(g, w), k) == Get(g, k)
  {
    var key := w.ingredientId;
    var t := Get(g, key).GetOr(WasteTotals(0.0, 0.0));
    var nv := WasteTotals(t.qty + w.qty, t.cost + w.estimatedCost);
    assert AddWaste(g, w) == Put(g, key, nv);
    PutGet(g, key, nv, k);
    if k == key {
      assert Get(AddWaste(g, w), k) == Some(nv);
    }
  }

  /** Each ingredient's group sums the quantities and costs of exactly its entries. */
  lemma {:induction false} WasteGroupsGet(entries: seq<WasteEntry>, k: string)
    ensures Get(WasteGroups(entries), k).GetOr(WasteTotals(0.0, 0.0)) ==
      WasteTotals(Sum(entries, QtyOf(k)), Sum(entries, CostOf(k)))
  {
    if entries != [] {
      var init := entries[..|entries| - 1];
      WasteGroupsGet(init, k);
      GetAfterAddWaste(WasteGroups(init), entries[|entries| - 1], k);
    }
  }

  /** One reduce step adds the entry's cost to the groups' total. */
  lemma SumAfterAddWaste(g: Dict<WasteTotals>, w: WasteEntry)
    ensures Sum(AddWaste(g, w), GroupCost) == Sum(g, GroupCost) + w.estimatedCost
  {
    var k := w.ingredientId;
    var t := Get(g, k).GetOr(WasteTotals(0.0, 0.0));
    var e := Entry(k, WasteTotals(t.qty + w.qty, t.cost + w.estimatedCost));
    assert AddWaste(g, w) == Put(g, k, e.value);
    if HasKey(g, k) {
      var idx := IndexOf(g, k);
      assert Put(g, k, e.value) == g[idx := e];
      SumUpdate(g, idx, e, GroupCost);
    } else {
      SumAppend(g, [e], GroupCost);
      assert Sum([e], GroupCost) == e.value.cost by { assert [e][..0] == []; }
    }
  }

  /** The per-ingredient costs add up to the total waste cost. */
  lemma {:induction false} WasteGroupsTotal(entries: seq<WasteEntry>)
    ensures Sum(WasteGroups(entries), GroupCost) == DashboardStats.TotalWasteCost(entries)
  {
    if entries != [] {
      var init := entries[..|entries| - 1];
      WasteGroupsTotal(init);
      SumAfterAddWaste(WasteGroups(init), entries[|entries| - 1]);
    }
  }
}
