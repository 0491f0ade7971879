/**
 * The fixed-costs view: adding a cost, the in-place edit of one row
 * (start, save, cancel), the total, each row's share of it, and the
 * largest expense.
 */
module FixedCostsView {
  import opened Wrappers
  import opened Folds
  import opened Text
  import opened Types
  import AppStore
  import DashboardStats

  // ------------------------------------------------------------------
  // Adding a cost
  // ------------------------------------------------------------------

  /** The add form; the amount is parsed, `NaN` when empty. */
  datatype FixedCostForm = FixedCostForm(name: string, amount: Parsed<real>)

  /** The form is refused for a blank name or an amount that does not parse. */
  predicate CostAccepted(f: FixedCostForm) {
    Trim(f.name) != "" && f.amount.Value?
  }

  /** The cost `handleSubmit` passes to the store, if the form is accepted. */
  function NewFixedCost(f: FixedCostForm, id: string): (r: Option<FixedCost>)
    ensures r.Some? <==> CostAccepted(f)
    ensures r.Some? ==> r.value.id == id && r.value.name == Trim(f.name) && r.value.name != ""
    ensures r.Some? ==> r.value.amount == f.amount.v
  {
    if !CostAccepted(f) then None else Some(FixedCost(id, Trim(f.name), f.amount.v))
  }

  /** `handleSubmit`: appends one cost, or does nothing. */
  method HandleSubmit(store: AppStore.Store, f: FixedCostForm, id: string) returns (added: bool)
    modifies store
    ensures added <==> CostAccepted(f)
    ensures !added ==> store.Snapshot() == old(store.Snapshot())
    ensures added ==> store.Snapshot() == old(store.Snapshot()).(fixedCosts :=
      old(store.fixedCosts) + [NewFixedCost(f, id).value])
    ensures old(store.Valid()) ==> store.Valid()
  {
    var name := Trim(f.name);
    if name == "" || f.amount.NaN? {
      return false;
    }
    store.AddFixedCost(id, FixedCost("", name, f.amount.v));
    added := true;
  }

  // ------------------------------------------------------------------
  // The total and the shares
  // ------------------------------------------------------------------

  /** `totalFixedCosts`: the sum of the amounts. */
  function TotalFixedCosts(costs: seq<FixedCost>): real {
    Sum(costs, AppStore.Amount)
  }

  /** The page's total is the fixed total the dashboard subtracts. */
  lemma TotalIsDashboardFixedTotal(costs: seq<FixedCost>)
    ensures TotalFixedCosts(costs) == DashboardStats.FixedTotal(costs)
  {
    SumCongruent(costs, AppStore.Amount, (c: FixedCost) => c.amount);
  }

  /** An accepted form adds exactly its amount to the total. */
  lemma SubmitRaisesTotal(costs: seq<FixedCost>, f: FixedCostForm, id: string)
    requires CostAccepted(f)
    ensures TotalFixedCosts(costs + [NewFixedCost(f, id).value]) == TotalFixedCosts(costs) + f.amount.v
  {
    AppStore.AddFixedCostTotal(costs, NewFixedCost(f, id).value);
  }

  /** A row's share of the total in percent, 0 when the total is not positive (display rounding left out). */
  function Percentage(amount: real, total: real): (r: real)
    ensures total <= 0.0 ==> r == 0.0
    ensures total > 0.0 ==> r * total == amount * 100.0
  {
    if total > 0.0 then amount / total * 100.0 else 0.0
  }

  function ShareOf(total: real): FixedCost -> real {
    (c: FixedCost) => Percentage(c.amount, total)
  }

  lemma Distribute(x: real, y: real, t: real)
    ensures (x + y) * t == x * t + y * t
  {
  }

  lemma CancelFactor(x: real, y: real, t: real)
    requires t != 0.0 && x * t == y * t
    ensures x == y
  {
    assert (x - y) * t == 0.0;
  }

  /** Against a positive `total`, the shares of a list scale its sum of amounts. */
  lemma {:induction false} SharesScale(costs: seq<FixedCost>, total: real)
    requires total > 0.0
    ensures Sum(costs, ShareOf(total)) * total == Sum(costs, AppStore.Amount) * 100.0
  {
    if costs != [] {
      var init := costs[..|costs| - 1];
      var last := costs[|costs| - 1];
      SharesScale(init, total);
      Distribute(Sum(init, ShareOf(total)), Percentage(last.amount, total), total);
      assert Percentage(last.amount, total) * total == last.amount * 100.0;
      Distribute(Sum(init, AppStore.Amount), last.amount, 100.0);
    }
  }

  /** With a positive total, the shares of all rows add up to 100%. */
  lemma SharesAddUpToHundred(costs: seq<FixedCost>)
    requires TotalFixedCosts(costs) > 0.0
    ensures Sum(costs, ShareOf(TotalFixedCosts(costs))) == 100.0
  {
    var total := TotalFixedCosts(costs);
    SharesScale(costs, total);
    CancelFactor(Sum(costs, ShareOf(total)), 100.0, total);
  }

  // ------------------------------------------------------------------
  // The largest expense
  // ------------------------------------------------------------------

  /** `Math.max(...costs.map(c => c.amount))` over a non-empty list. */
  function MaxAmount(costs: seq<FixedCost>): (m: real)
    requires costs != []
    ensures forall i :: 0 <= i < |costs| ==> costs[i].amount <= m
    ensures exists i :: 0 <= i < |costs| && costs[i].amount == m
  {
    if |costs| == 1 then costs[0].amount
    else
      var init := costs[..|costs| - 1];
      var m := MaxAmount(init);
      assert forall i :: 0 <= i < |init| ==> init[i] == costs[i];
      var last := costs[|costs| - 1].amount;
      if m >= last then m else last
  }

  /** The position `costs.find(c => c.amount === m)` stops at: the first index carrying `m`, -1 if none does. */
  function FindAmount(costs: seq<FixedCost>, m: real): (i: int)
    ensures -1 <= i < |costs|
    ensures i >= 0 ==> costs[i].amount == m && forall j :: 0 <= j < i ==> costs[j].amount != m
    ensures i < 0 ==> forall j :: 0 <= j < |costs| ==> costs[j].amount != m
  {
    if costs == [] then -1
    else if costs[0].amount == m then 0
    else
      var k := FindAmount(costs[1..], m);
      assert forall j :: 1 <= j < |costs| ==> costs[1..][j - 1] == costs[j];
      if k < 0 then -1 else k + 1
  }

  /** The Largest Expense card: the amount and the name of the cost showing it. */
  datatype Largest = Largest(amount: real, name: string)

  /** The card, none ("No costs yet") for an empty list; the name is that of the first cost with the maximum amount. */
  function LargestExpense(costs: seq<FixedCost>): (r: Option<Largest>)
    ensures r.None? <==> costs == []
    ensures r.Some? ==> forall j :: 0 <= j < |costs| ==> costs[j].amount <= r.value.amount
    ensures r.Some? ==> exists i :: (0 <= i < |costs| && costs[i].amount == r.value.amount &&
      costs[i].name == r.value.name && forall j :: 0 <= j < i ==> costs[j].amount < r.value.amount)
  {
    if costs == [] then None
    else
      var m := MaxAmount(costs);
      var i := FindAmount(costs, m);
      Some(Largest(m, costs[i].name))
  }

  // ------------------------------------------------------------------
  // Editing a row
  // ------------------------------------------------------------------

  /**
   * The edit fields: the row in edit mode (none when no row is), and the
   * name and amount typed there; the amount is held as `parseFloat` reads
   * the field.
   */
  datatype EditState = EditState(editingId: Option<string>, editName: string, editAmount: Parsed<real>)

  /** Whether the row of `id` shows its edit inputs. */
  predicate IsEditing(e: EditState, id: string) {
    e.editingId == Some(id)
  }

  /** `startEditing`: the chosen row goes into edit mode with its current name and amount. */
  function StartEditing(c: FixedCost): (e: EditState)
    ensures IsEditing(e, c.id) && forall id :: id != c.id ==> !IsEditing(e, id)
    ensures e.editName == c.name && e.editAmount == Value(c.amount)
  {
    EditState(Some(c.id), c.name, Value(c.amount))
  }

  /** `cancelEdit`: no row in edit mode and both fields cleared. */
  function CancelEdit(e: EditState): (r: EditState)
    ensures forall id :: !IsEditing(r, id)
    ensures r.editName == "" && r.editAmount.NaN?
  {
    EditState(None, "", NaN)
  }

  /** The update `saveEdit` makes: none for a blank name or an amount that does not parse. */
  function SavePatch(e: EditState): (r: Option<AppStore.FixedCostPatch>)
    ensures r.Some? <==> Trim(e.editName) != "" && e.editAmount.Value?
    ensures r.Some? ==> r.value.name == Some(Trim(e.editName)) && r.value.amount == Some(e.editAmount.v)
  {
    if Trim(e.editName) == "" || e.editAmount.NaN? then None
    else Some(AppStore.FixedCostPatch(Some(Trim(e.editName)), Some(e.editAmount.v)))
  }

  /**
   * `saveEdit`: with invalid input nothing changes and the row stays in
   * edit mode; otherwise the cost under `costId` is updated and edit mode
   * ends (the typed fields are kept).
   */
  method SaveEdit(store: AppStore.Store, e: EditState, costId: string) returns (next: EditState, saved: bool)
    modifies store
    ensures saved <==> SavePatch(e).Some?
    ensures !saved ==> next == e && store.Snapshot() == old(store.Snapshot())
    ensures saved ==> next == e.(editingId := None)
    ensures saved ==> store.Snapshot() == old(store.Snapshot()).(fixedCosts :=
      AppStore.UpdateWhere(old(store.fixedCosts), AppStore.FixedCostId, costId, AppStore.PatchFixedCostFn(SavePatch(e).value)))
    ensures old(store.Valid()) ==> store.Valid()
  {
    var name := Trim(e.editName);
    if name == "" || e.editAmount.NaN? {
      return e, false;
    }
    store.UpdateFixedCost(costId, AppStore.FixedCostPatch(Some(name), Some(e.editAmount.v)));
    next := e.(editingId := None);
    saved := true;
  }

  /**
   * Saving straight after starting to edit a cost whose name is already
   * trimmed leaves the list as it was.
   */
  lemma SaveUntouchedEditKeepsCosts(costs: seq<FixedCost>, i: nat)
    requires i < |costs| && Trim(costs[i].name) == costs[i].name && costs[i].name != ""
    requires forall j :: 0 <= j < |costs| && j != i ==> costs[j].id != costs[i].id
    ensures SavePatch(StartEditing(costs[i])).Some?
    ensures AppStore.UpdateWhere(costs, AppStore.FixedCostId, costs[i].id,
      AppStore.PatchFixedCostFn(SavePatch(StartEditing(costs[i])).value)) == costs
  {
    var c := costs[i];
    assert SavePatch(StartEditing(c)) == Some(AppStore.FixedCostPatch(Some(c.name), Some(c.amount)));
    UpdateWithOwnFields(costs, i);
  }

  /** Writing a cost's own name and amount back over it, under its unique id, changes no record. */
  lemma UpdateWithOwnFields(costs: seq<FixedCost>, i: nat)
    requires i < |costs|
    requires forall j :: 0 <= j < |costs| && j != i ==> costs[j].id != costs[i].id
    ensures AppStore.UpdateWhere(costs, AppStore.FixedCostId, costs[i].id,
      AppStore.PatchFixedCostFn(AppStore.FixedCostPatch(Some(costs[i].name), Some(costs[i].amount)))) == costs
  {
    var c := costs[i];
    var u := AppStore.FixedCostPatch(Some(c.name), Some(c.amount));
    assert AppStore.PatchFixedCost(c, u) == FixedCost(c.id, c.name, c.amount);
    var f := AppStore.PatchFixedCostFn(u);
    assert f(c) == AppStore.PatchFixedCost(c, u);
    var r := AppStore.UpdateWhere(costs, AppStore.FixedCostId, c.id, f);
    forall k | 0 <= k < |costs|
      ensures r[k] == costs[k]
    {
      if k != i {
        assert AppStore.FixedCostId(costs[k]) != c.id;
      }
    }
  }

  /** Saving an edit of the one cost under an id moves the total by the change of that cost's amount. */
  lemma SaveEditMovesTotal(costs: seq<FixedCost>, e: EditState, i: nat)
    requires SavePatch(e).Some?
    requires i < |costs| && forall j :: 0 <= j < |costs| && j != i ==> costs[j].id != costs[i].id
    ensures TotalFixedCosts(AppStore.UpdateWhere(costs, AppStore.FixedCostId, costs[i].id,
      AppStore.PatchFixedCostFn(SavePatch(e).value))) == TotalFixedCosts(costs) - costs[i].amount + e.editAmount.v
  {
    AppStore.UpdateFixedCostTotal(costs, costs[i].id, SavePatch(e).value, i);
  }
}
