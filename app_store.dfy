/**
 * The mutators of the state hook. Each one replaces one collection or
 * setting of the bookkeeping state and leaves the rest as it was. The
 * store keeps an invariant: dictionary entries are stored under their own
 * id, with no key twice, and every strawberry batch carries the per-gram
 * and per-strawberry costs derived from its weight, cost and average
 * strawberry weight. Under it the inventory rows are distinct
 * (InvariantRowsDistinct) and cups price strawberries at the derived cost
 * (InvariantPiecePrice).
 *
 * Fresh ids (`'s' + Date.now() + random`) are parameters of the methods.
 */
module AppStore {
  import opened Wrappers
  import opened Records
  import opened Folds
  import opened Types
  import opened Costing
  import opened Inventory

  function FixedCostId(c: FixedCost): string { c.id }
  function SaleId(s: Sale): string { s.id }
  function IngredientBatchId(b: IngredientBatch): string { b.id }
  function StrawberryBatchId(b: StrawberryBatch): string { b.id }
  function WasteEntryId(w: WasteEntry): string { w.id }

  /** `xs.filter(x => idOf(x) !== id)`. */
  function DropId<T>(xs: seq<T>, idOf: T -> string, id: string): (r: seq<T>)
    ensures |r| <= |xs|
    ensures forall i :: 0 <= i < |r| ==> idOf(r[i]) != id
    ensures (forall i :: 0 <= i < |xs| ==> idOf(xs[i]) != id) ==> r == xs
  {
    if xs == [] then []
    else
      var init := DropId(xs[..|xs| - 1], idOf, id);
      assert xs == xs[..|xs| - 1] + [xs[|xs| - 1]];
      if idOf(xs[|xs| - 1]) == id then init else init + [xs[|xs| - 1]]
  }

  /** What is kept comes from the input, and every element without the id is kept. */
  lemma {:induction false} DropIdMembers<T>(xs: seq<T>, idOf: T -> string, id: string)
    ensures forall i :: 0 <= i < |DropId(xs, idOf, id)| ==> DropId(xs, idOf, id)[i] in xs
    ensures forall i :: 0 <= i < |xs| && idOf(xs[i]) != id ==> xs[i] in DropId(xs, idOf, id)
  {
    if xs != [] {
      var init := xs[..|xs| - 1];
      DropIdMembers(init, idOf, id);
      assert forall i :: 0 <= i < |init| ==> init[i] == xs[i];
    }
  }

  /** Dropping distributes over concatenation, so what is kept keeps its order. */
  lemma {:induction false} DropIdAppend<T>(a: seq<T>, b: seq<T>, idOf: T -> string, id: string)
    ensures DropId(a + b, idOf, id) == DropId(a, idOf, id) + DropId(b, idOf, id)
  {
    if b == [] {
      assert a + b == a;
    } else {
      var b' := b[..|b| - 1];
      assert (a + b)[..|a + b| - 1] == a + b';
      DropIdAppend(a, b', idOf, id);
    }
  }

  /** Dropping the id of the only element that carries it removes exactly that element. */
  lemma {:induction false} DropIdOnly<T>(xs: seq<T>, idOf: T -> string, i: nat)
    requires i < |xs|
    requires forall j :: 0 <= j < |xs| && j != i ==> idOf(xs[j]) != idOf(xs[i])
    ensures DropId(xs, idOf, idOf(xs[i])) == xs[..i] + xs[i + 1..]
  {
    var init := xs[..|xs| - 1];
    assert forall j :: 0 <= j < |init| && j != i ==> idOf(init[j]) != idOf(xs[i]) by {
      forall j | 0 <= j < |init| && j != i ensures idOf(init[j]) != idOf(xs[i]) { assert init[j] == xs[j]; }
    }
    if i == |xs| - 1 {
      assert xs[..i] + xs[i + 1..] == init;
    } else {
      DropIdOnly(init, idOf, i);
      DropIdStep(xs, idOf, idOf(xs[i]));
      assert xs[..i] + xs[i + 1..] == init[..i] + init[i + 1..] + [xs[|xs| - 1]];
    }
  }

  lemma DropIdStep<T>(xs: seq<T>, idOf: T -> string, id: string)
    requires xs != [] && idOf(xs[|xs| - 1]) != id
    ensures DropId(xs, idOf, id) == DropId(xs[..|xs| - 1], idOf, id) + [xs[|xs| - 1]]
  {
  }

  /** A value summed over the kept records is the full sum less the dropped records' share. */
  lemma {:induction false} DropIdSum<T>(xs: seq<T>, idOf: T -> string, id: string, f: T -> real)
    ensures Sum(DropId(xs, idOf, id), f) == Sum(xs, f) - Sum(xs, (x: T) => if idOf(x) == id then f(x) else 0.0)
  {
    if xs != [] {
      var init := xs[..|xs| - 1];
      var last := xs[|xs| - 1];
      DropIdSum(init, idOf, id, f);
      if idOf(last) != id {
        SumAppend(DropId(init, idOf, id), [last], f);
      }
    }
  }

  /** `xs.map(x => idOf(x) === id ? f(x) : x)`. */
  function UpdateWhere<T>(xs: seq<T>, idOf: T -> string, id: string, f: T -> T): (r: seq<T>)
    ensures |r| == |xs|
    ensures forall i :: 0 <= i < |xs| ==> r[i] == if idOf(xs[i]) == id then f(xs[i]) else xs[i]
  {
    if xs == [] then []
    else
      var last := xs[|xs| - 1];
      UpdateWhere(xs[..|xs| - 1], idOf, id, f) + [if idOf(last) == id then f(last) else last]
  }

  /** When exactly one record carries the id, the map replaces just that one. */
  lemma UpdateWhereSingle<T>(xs: seq<T>, idOf: T -> string, id: string, f: T -> T, i: nat)
    requires i < |xs| && idOf(xs[i]) == id
    requires forall j :: 0 <= j < |xs| && j != i ==> idOf(xs[j]) != id
    ensures UpdateWhere(xs, idOf, id, f) == xs[i := f(xs[i])]
  {
  }

  // ------------------------------------------------------------------
  // Partial updates: `{ ...record, ...updates }`
  // ------------------------------------------------------------------

  datatype ProductPatch = ProductPatch(
    name: Option<string>,
    price: Option<real>,
    manualCostPerCup: Option<real>,
    useManualCost: Option<bool>,
    strawberriesPerCup: Option<real>,
    chocolatePerCup: Option<real>,
    kunafaPerCup: Option<real>,
    cupsPerCup: Option<real>,
    sticksPerCup: Option<real>)

  const NoProductChange := ProductPatch(None, None, None, None, None, None, None, None, None)

  /** The product with the patch's fields laid over it: the id stays, every set field wins, every unset field keeps its value. */
  function PatchProduct(p: Product, u: ProductPatch): (r: Product)
    ensures r.id == p.id
    ensures u == NoProductChange ==> r == p
    ensures r.name == u.name.GetOr(p.name)
    ensures u.price.Some? ==> r.price == u.price.value
    ensures u.price.None? ==> r.price == p.price
    ensures u.manualCostPerCup.Some? ==> r.manualCostPerCup == u.manualCostPerCup
    ensures u.manualCostPerCup.None? ==> r.manualCostPerCup == p.manualCostPerCup
    ensures u.useManualCost.Some? ==> r.useManualCost == u.useManualCost.value
    ensures u.useManualCost.None? ==> r.useManualCost == p.useManualCost
    ensures r.strawberriesPerCup == u.strawberriesPerCup.GetOr(p.strawberriesPerCup)
    ensures r.chocolatePerCup == u.chocolatePerCup.GetOr(p.chocolatePerCup)
    ensures r.kunafaPerCup == u.kunafaPerCup.GetOr(p.kunafaPerCup)
    ensures r.cupsPerCup == u.cupsPerCup.GetOr(p.cupsPerCup)
    ensures r.sticksPerCup == u.sticksPerCup.GetOr(p.sticksPerCup)
  {
    Product(
      p.id,
      u.name.GetOr(p.name),
      u.price.GetOr(p.price),
      if u.manualCostPerCup.Some? then u.manualCostPerCup else p.manualCostPerCup,
      u.useManualCost.GetOr(p.useManualCost),
      u.strawberriesPerCup.GetOr(p.strawberriesPerCup),
      u.chocolatePerCup.GetOr(p.chocolatePerCup),
      u.kunafaPerCup.GetOr(p.kunafaPerCup),
      u.cupsPerCup.GetOr(p.cupsPerCup),
      u.sticksPerCup.GetOr(p.sticksPerCup))
  }

  datatype IngredientPatch = IngredientPatch(
    name: Option<string>,
    unit: Option<Unit>,
    defaultBulkQty: Option<real>,
    defaultBulkCost: Option<real>)

  function PatchIngredient(g: Ingredient, u: IngredientPatch): (r: Ingredient)
    ensures r.id == g.id
    ensures u == IngredientPatch(None, None, None, None) ==> r == g
    ensures r.name == u.name.GetOr(g.name) && r.unit == u.unit.GetOr(g.unit)
    ensures r.defaultBulkQty == u.defaultBulkQty.GetOr(g.defaultBulkQty)
    ensures r.defaultBulkCost == u.defaultBulkCost.GetOr(g.defaultBulkCost)
  {
    Ingredient(g.id, u.name.GetOr(g.name), u.unit.GetOr(g.unit),
      u.defaultBulkQty.GetOr(g.defaultBulkQty), u.defaultBulkCost.GetOr(g.defaultBulkCost))
  }

  datatype FixedCostPatch = FixedCostPatch(name: Option<string>, amount: Option<real>)

  function PatchFixedCost(c: FixedCost, u: FixedCostPatch): (r: FixedCost)
    ensures r.id == c.id
    ensures r.amount == u.amount.GetOr(c.amount)
    ensures r.name == u.name.GetOr(c.name)
  {
    FixedCost(c.id, u.name.GetOr(c.name), u.amount.GetOr(c.amount))
  }

  function PatchFixedCostFn(u: FixedCostPatch): FixedCost -> FixedCost {
    c => PatchFixedCost(c, u)
  }

  datatype StrawberryBatchPatch = StrawberryBatchPatch(
    name: Option<string>,
    date: Option<Date>,
    bulkWeightKg: Option<real>,
    bulkWeightG: Option<real>,
    bulkCost: Option<real>,
    avgWeightPerStrawberry: Option<real>)

  function PatchStrawberryBatch(b: StrawberryBatch, u: StrawberryBatchPatch): (r: StrawberryBatch)
    ensures r.id == b.id
    ensures u == StrawberryBatchPatch(None, None, None, None, None, None) ==> r == b
    ensures r.name == u.name.GetOr(b.name) && r.date == u.date.GetOr(b.date)
    ensures r.bulkWeightKg == u.bulkWeightKg.GetOr(b.bulkWeightKg)
    ensures r.bulkWeightG == u.bulkWeightG.GetOr(b.bulkWeightG)
    ensures r.bulkCost == u.bulkCost.GetOr(b.bulkCost)
    ensures r.avgWeightPerStrawberry == u.avgWeightPerStrawberry.GetOr(b.avgWeightPerStrawberry)
    ensures r.costPerGram == b.costPerGram && r.costPerStrawberry == b.costPerStrawberry
  {
    b.(name := u.name.GetOr(b.name),
       date := u.date.GetOr(b.date),
       bulkWeightKg := u.bulkWeightKg.GetOr(b.bulkWeightKg),
       bulkWeightG := u.bulkWeightG.GetOr(b.bulkWeightG),
       bulkCost := u.bulkCost.GetOr(b.bulkCost),
       avgWeightPerStrawberry := u.avgWeightPerStrawberry.GetOr(b.avgWeightPerStrawberry))
  }

  // ------------------------------------------------------------------
  // Derived strawberry costs
  // ------------------------------------------------------------------

  /**
   * A batch's cost per gram spreads its cost over its weight (0 for a batch
   * with no weight), and its cost per strawberry is that times the average
   * strawberry weight.
   */
  predicate CostsDerived(b: StrawberryBatch) {
    (if b.bulkWeightG > 0.0 then b.costPerGram * b.bulkWeightG == b.bulkCost else b.costPerGram == 0.0) &&
    b.costPerStrawberry == b.costPerGram * b.avgWeightPerStrawberry
  }

  /** The batch with its two cost fields recomputed and everything else as it was. */
  function DeriveCosts(b: StrawberryBatch): (r: StrawberryBatch)
    ensures CostsDerived(r)
    ensures r == b.(costPerGram := r.costPerGram, costPerStrawberry := r.costPerStrawberry)
  {
    var perGram := if b.bulkWeightG > 0.0 then b.bulkCost / b.bulkWeightG else 0.0;
    b.(costPerGram := perGram, costPerStrawberry := perGram * b.avgWeightPerStrawberry)
  }

  /** Recomputing the costs of a batch that already carries them changes nothing. */
  lemma DeriveCostsIdempotent(b: StrawberryBatch)
    requires CostsDerived(b)
    ensures DeriveCosts(b) == b
  {
    if b.bulkWeightG > 0.0 {
      assert b.costPerGram == b.bulkCost / b.bulkWeightG;
    }
  }

  /** The body of the `updateStrawberryBatch` map for a matching batch. */
  function RecostFn(u: StrawberryBatchPatch): StrawberryBatch -> StrawberryBatch {
    b => DeriveCosts(PatchStrawberryBatch(b, u))
  }

  // ------------------------------------------------------------------
  // New records
  // ------------------------------------------------------------------

  /** The argument of `addSale`: a sale without an id, whose source and checkout id may be missing. */
  datatype SaleDraft = SaleDraft(
    date: Date,
    productId: string,
    qty: int,
    unitPrice: real,
    source: Option<SaleSource>,
    transactionId: Option<string>)

  /** The stored sale: a missing source is manual, and an empty checkout id is dropped. */
  function NewSale(id: string, d: SaleDraft): (s: Sale)
    ensures s.id == id && s.date == d.date && s.productId == d.productId
    ensures s.qty == d.qty && s.unitPrice == d.unitPrice
    ensures d.source.Some? ==> s.source == d.source.value
    ensures d.source.None? ==> s.source == Manual
    ensures s.transactionId.Some? <==> d.transactionId.Some? && d.transactionId.value != ""
    ensures s.transactionId.Some? ==> s.transactionId == d.transactionId
  {
    Sale(id, d.date, d.productId, d.qty, d.unitPrice, d.source.GetOr(Manual),
      if d.transactionId.Some? && d.transactionId.value != "" then d.transactionId else None)
  }

  /** The stored sales: the k-th draft gets the k-th fresh id. */
  function NewSales(ids: seq<string>, ds: seq<SaleDraft>): (r: seq<Sale>)
    requires |ids| >= |ds|
    ensures |r| == |ds|
    ensures forall k :: 0 <= k < |ds| ==> r[k] == NewSale(ids[k], ds[k])
  {
    if ds == [] then [] else NewSales(ids, ds[..|ds| - 1]) + [NewSale(ids[|ds| - 1], ds[|ds| - 1])]
  }

  lemma NewSalesAppend(ids: seq<string>, ds: seq<SaleDraft>, d: SaleDraft)
    requires |ids| > |ds|
    ensures NewSales(ids, ds + [d]) == NewSales(ids, ds) + [NewSale(ids[|ds|], d)]
  {
    assert (ds + [d])[..|ds|] == ds;
  }

  function DraftQty(d: SaleDraft): int { d.qty }
  function DraftRevenue(d: SaleDraft): real { d.qty as real * d.unitPrice }

  /** The argument of `addStrawberryBatch`: a batch without id and derived costs. */
  datatype StrawberryBatchDraft = StrawberryBatchDraft(
    name: string,
    date: Date,
    bulkWeightKg: real,
    bulkWeightG: real,
    bulkCost: real,
    avgWeightPerStrawberry: real)

  function NewStrawberryBatch(id: string, d: StrawberryBatchDraft): (b: StrawberryBatch)
    ensures b.id == id && b.name == d.name && b.date == d.date
    ensures b.bulkWeightKg == d.bulkWeightKg && b.bulkWeightG == d.bulkWeightG
    ensures b.bulkCost == d.bulkCost && b.avgWeightPerStrawberry == d.avgWeightPerStrawberry
    ensures CostsDerived(b)
  {
    DeriveCosts(StrawberryBatch(id, d.name, d.date, d.bulkWeightKg, d.bulkWeightG, d.bulkCost,
      d.avgWeightPerStrawberry, 0.0, 0.0))
  }

  /** A manual inventory figure set (`Some`) or cleared (`None`) for one ingredient; the other figures stay. */
  function SetAdjustment(adj: map<string, real>, id: string, remaining: Option<real>): (r: map<string, real>)
    ensures remaining.None? ==> id !in r
    ensures remaining.Some? ==> id in r && r[id] == remaining.value
    ensures forall k :: k != id ==> (k in r <==> k in adj)
    ensures forall k :: k != id && k in adj ==> r[k] == adj[k]
  {
    if remaining.None? then adj - {id} else adj[id := remaining.value]
  }

  /** With a figure set, the inventory reports it as the remaining quantity; once cleared, it reports purchased − used − wasted again. */
  lemma AdjustmentDecidesRemaining(adj: map<string, real>, id: string, remaining: Option<real>,
                                   purchased: real, used: real, wasted: real, other: string)
    requires other != id
    ensures Remaining(SetAdjustment(adj, id, remaining), id, purchased, used, wasted) ==
      if remaining.Some? then remaining.value else purchased - used - wasted
    ensures Remaining(SetAdjustment(adj, id, remaining), other, purchased, used, wasted) ==
      Remaining(adj, other, purchased, used, wasted)
  {
  }

  // ------------------------------------------------------------------
  // The store invariant
  // ------------------------------------------------------------------

  /** Every entry of a product dictionary is stored under its own id, once. */
  predicate ProductsKeyed(d: Dict<Product>) {
    UniqueKeys(d) && forall i :: 0 <= i < |d| ==> d[i].value.id == d[i].key
  }

  predicate IngredientsKeyed(d: Dict<Ingredient>) {
    UniqueKeys(d) && forall i :: 0 <= i < |d| ==> d[i].value.id == d[i].key
  }

  predicate StateInvariant(s: AppState) {
    ProductsKeyed(s.products) && IngredientsKeyed(s.ingredients) &&
    forall i :: 0 <= i < |s.strawberryBatches| ==> CostsDerived(s.strawberryBatches[i])
  }

  /** The invariant does not look at the sales log. */
  lemma InvariantIgnoresSales(s: AppState, sales: seq<Sale>)
    ensures StateInvariant(s.(sales := sales)) == StateInvariant(s)
  {
  }

  lemma DefaultStateInvariant()
    ensures StateInvariant(DefaultState)
  {
  }

  /** Storing a product under its own id keeps the dictionary keyed. */
  lemma PutProductKeyed(d: Dict<Product>, p: Product)
    requires ProductsKeyed(d)
    ensures ProductsKeyed(Put(d, p.id, p))
  {
    PutKeepsUnique(d, p.id, p);
  }

  lemma RemoveProductKeyed(d: Dict<Product>, k: string)
    requires ProductsKeyed(d)
    ensures ProductsKeyed(Remove(d, k))
  {
    RemoveKeepsUnique(d, k);
  }

  lemma PutIngredientKeyed(d: Dict<Ingredient>, g: Ingredient)
    requires IngredientsKeyed(d)
    ensures IngredientsKeyed(Put(d, g.id, g))
  {
    PutKeepsUnique(d, g.id, g);
  }

  lemma RemoveIngredientKeyed(d: Dict<Ingredient>, k: string)
    requires IngredientsKeyed(d)
    ensures IngredientsKeyed(Remove(d, k))
  {
    RemoveKeepsUnique(d, k);
  }

  /** The batch an update touches carries freshly derived costs, and every batch that carried them still does. */
  lemma UpdateStrawberryKeepsCosts(bs: seq<StrawberryBatch>, id: string, u: StrawberryBatchPatch)
    ensures var r := UpdateWhere(bs, StrawberryBatchId, id, RecostFn(u));
      forall i :: 0 <= i < |bs| && bs[i].id == id ==> CostsDerived(r[i]) && r[i].id == id
    ensures var r := UpdateWhere(bs, StrawberryBatchId, id, RecostFn(u));
      forall i :: 0 <= i < |bs| && bs[i].id != id ==> r[i] == bs[i]
  {
  }

  /** Under the invariant, no two inventory rows share an ingredient id. */
  lemma InvariantRowsDistinct(s: AppState, usage: IngredientUsage)
    requires StateInvariant(s)
    ensures var rows := InventoryOf(s, usage);
      forall i, j :: 0 <= i < j < |rows| ==> rows[i].ingredientId != rows[j].ingredientId
  {
    InventoryRowsDistinct(s, usage);
  }

  /**
   * Under the invariant, the strawberries of a cup are priced at the pricing
   * batch's cost spread over its weight, times its average strawberry weight.
   */
  lemma InvariantPiecePrice(s: AppState, forDate: Option<Date>)
    requires StateInvariant(s)
    ensures var b := PricingBatch(s, forDate);
      b.Some? ==> (CostPerStrawberry(b) ==
        (if b.value.bulkWeightG > 0.0 then b.value.bulkCost / b.value.bulkWeightG else 0.0) * b.value.avgWeightPerStrawberry)
  {
    var b := PricingBatch(s, forDate);
    PricingBatchStored(s, forDate);
    if b.Some? {
      var k :| 0 <= k < |s.strawberryBatches| && s.strawberryBatches[k] == b.value;
      CostPerGramIsRatio(b.value);
    }
  }

  lemma PricingBatchStored(s: AppState, forDate: Option<Date>)
    ensures var b := PricingBatch(s, forDate); b.Some? ==> b.value in s.strawberryBatches
  {
  }

  lemma CostPerGramIsRatio(b: StrawberryBatch)
    requires CostsDerived(b)
    ensures b.costPerGram == if b.bulkWeightG > 0.0 then b.bulkCost / b.bulkWeightG else 0.0
  {
  }

  // ------------------------------------------------------------------
  // Effect on the fixed-cost total
  // ------------------------------------------------------------------

  function Amount(c: FixedCost): real { c.amount }

  lemma AddFixedCostTotal(costs: seq<FixedCost>, c: FixedCost)
    ensures Sum(costs + [c], Amount) == Sum(costs, Amount) + c.amount
  {
    assert (costs + [c])[..|costs + [c]| - 1] == costs;
  }

  /** Dropping an id takes exactly the amounts recorded under it off the total. */
  lemma DeleteFixedCostTotal(costs: seq<FixedCost>, id: string)
    ensures Sum(DropId(costs, FixedCostId, id), Amount) ==
      Sum(costs, Amount) - Sum(costs, (c: FixedCost) => if FixedCostId(c) == id then Amount(c) else 0.0)
  {
    DropIdSum(costs, FixedCostId, id, Amount);
  }

  /** Updating the one cost under an id moves the total by the change of that amount. */
  lemma UpdateFixedCostTotal(costs: seq<FixedCost>, id: string, u: FixedCostPatch, i: nat)
    requires i < |costs| && costs[i].id == id
    requires forall j :: 0 <= j < |costs| && j != i ==> costs[j].id != id
    ensures Sum(UpdateWhere(costs, FixedCostId, id, PatchFixedCostFn(u)), Amount) ==
      Sum(costs, Amount) - costs[i].amount + u.amount.GetOr(costs[i].amount)
  {
    UpdateWhereSingle(costs, FixedCostId, id, PatchFixedCostFn(u), i);
    SumUpdate(costs, i, PatchFixedCost(costs[i], u), Amount);
  }

  // ------------------------------------------------------------------
  // The store
  // ------------------------------------------------------------------

  class Store {
    var posFeePercent: real
    var posFeeManual: real
    var useManualPosFee: bool
    var products: Dict<Product>
    var sales: seq<Sale>
    var fixedCosts: seq<FixedCost>
    var ingredients: Dict<Ingredient>
    var ingredientBatches: seq<IngredientBatch>
    var strawberryBatches: seq<StrawberryBatch>
    var wasteEntries: seq<WasteEntry>
    var manualInventoryAdjustments: map<string, real>

    /** The bookkeeping state the projections read. */
    function Snapshot(): AppState
      reads this
    {
      AppState(posFeePercent, posFeeManual, useManualPosFee, products, sales, fixedCosts,
        ingredients, ingredientBatches, strawberryBatches, wasteEntries, manualInventoryAdjustments)
    }

    predicate Valid()
      reads this
    {
      StateInvariant(Snapshot())
    }

    /** The hook starts from the default state. */
    constructor()
      ensures Snapshot() == DefaultState
      ensures Valid()
    {
      posFeePercent, posFeeManual, useManualPosFee := 0.0, 0.0, false;
      products, sales, fixedCosts := DefaultProducts, [], DefaultFixedCosts;
      ingredients, ingredientBatches, strawberryBatches := DefaultIngredients, [], [];
      wasteEntries, manualInventoryAdjustments := [], map[];
      DefaultStateInvariant();
    }

    method UpdatePosFeePercent(percent: real)
      modifies this
      ensures Snapshot() == old(Snapshot()).(posFeePercent := percent)
      ensures old(Valid()) ==> Valid()
    {
      posFeePercent := percent;
    }

    method UpdatePosFeeManual(amount: real)
      modifies this
      ensures Snapshot() == old(Snapshot()).(posFeeManual := amount)
      ensures old(Valid()) ==> Valid()
    {
      posFeeManual := amount;
    }

    method UpdateUseManualPosFee(useManual: bool)
      modifies this
      ensures Snapshot() == old(Snapshot()).(useManualPosFee := useManual)
      ensures old(Valid()) ==> Valid()
    {
      useManualPosFee := useManual;
    }

    /** Lays the patch over the product stored under the id, in its place. */
    method UpdateProduct(productId: string, updates: ProductPatch)
      requires HasKey(products, productId)
      modifies this
      ensures Snapshot() == old(Snapshot()).(products :=
        Put(old(products), productId, PatchProduct(Get(old(products), productId).value, updates)))
      ensures old(Valid()) ==> Valid()
    {
      var p := Get(products, productId).value;
      if Valid() {
        assert p.id == productId;
        PutProductKeyed(products, PatchProduct(p, updates));
      }
      products := Put(products, productId, PatchProduct(p, updates));
    }

    /** Stores the product under a fresh id, at the end. */
    method AddProduct(id: string, product: Product)
      modifies this
      ensures Snapshot() == old(Snapshot()).(products := Put(old(products), id, product.(id := id)))
      ensures old(Valid()) ==> Valid()
    {
      if Valid() {
        PutProductKeyed(products, product.(id := id));
      }
      products := Put(products, id, product.(id := id));
    }

    method DeleteProduct(productId: string)
      modifies this
      ensures Snapshot() == old(Snapshot()).(products := Remove(old(products), productId))
      ensures old(Valid()) ==> Valid()
    {
      if Valid() {
        RemoveProductKeyed(products, productId);
      }
      products := Remove(products, productId);
    }

    method AddSale(id: string, sale: SaleDraft)
      modifies this
      ensures Snapshot() == old(Snapshot()).(sales := old(sales) + [NewSale(id, sale)])
      ensures old(Valid()) ==> Valid()
    {
      sales := sales + [NewSale(id, sale)];
    }

    method DeleteSale(saleId: string)
      modifies this
      ensures Snapshot() == old(Snapshot()).(sales := DropId(old(sales), SaleId, saleId))
      ensures old(Valid()) ==> Valid()
    {
      sales := DropId(sales, SaleId, saleId);
    }

    method AddFixedCost(id: string, cost: FixedCost)
      modifies this
      ensures Snapshot() == old(Snapshot()).(fixedCosts := old(fixedCosts) + [cost.(id := id)])
      ensures old(Valid()) ==> Valid()
    {
      fixedCosts := fixedCosts + [cost.(id := id)];
    }

    method DeleteFixedCost(costId: string)
      modifies this
      ensures Snapshot() == old(Snapshot()).(fixedCosts := DropId(old(fixedCosts), FixedCostId, costId))
      ensures old(Valid()) ==> Valid()
    {
      fixedCosts := DropId(fixedCosts, FixedCostId, costId);
    }

    method UpdateFixedCost(costId: string, updates: FixedCostPatch)
      modifies this
      ensures Snapshot() == old(Snapshot()).(fixedCosts :=
        UpdateWhere(old(fixedCosts), FixedCostId, costId, PatchFixedCostFn(updates)))
      ensures old(Valid()) ==> Valid()
    {
      fixedCosts := UpdateWhere(fixedCosts, FixedCostId, costId, PatchFixedCostFn(updates));
    }

    method UpdateIngredient(ingredientId: string, updates: IngredientPatch)
      requires HasKey(ingredients, ingredientId)
      modifies this
      ensures Snapshot() == old(Snapshot()).(ingredients :=
        Put(old(ingredients), ingredientId, PatchIngredient(Get(old(ingredients), ingredientId).value, updates)))
      ensures old(Valid()) ==> Valid()
    {
      var g := Get(ingredients, ingredientId).value;
      if Valid() {
        assert g.id == ingredientId;
        PutIngredientKeyed(ingredients, PatchIngredient(g, updates));
      }
      ingredients := Put(ingredients, ingredientId, PatchIngredient(g, updates));
    }

    method AddIngredient(id: string, ingredient: Ingredient)
      modifies this
      ensures Snapshot() == old(Snapshot()).(ingredients := Put(old(ingredients), id, ingredient.(id := id)))
      ensures old(Valid()) ==> Valid()
    {
      if Valid() {
        PutIngredientKeyed(ingredients, ingredient.(id := id));
      }
      ingredients := Put(ingredients, id, ingredient.(id := id));
    }

    method DeleteIngredient(ingredientId: string)
      modifies this
      ensures Snapshot() == old(Snapshot()).(ingredients := Remove(old(ingredients), ingredientId))
      ensures old(Valid()) ==> Valid()
    {
      if Valid() {
        RemoveIngredientKeyed(ingredients, ingredientId);
      }
      ingredients := Remove(ingredients, ingredientId);
    }

    method AddIngredientBatch(id: string, batch: IngredientBatch)
      modifies this
      ensures Snapshot() == old(Snapshot()).(ingredientBatches := old(ingredientBatches) + [batch.(id := id)])
      ensures old(Valid()) ==> Valid()
    {
      ingredientBatches := ingredientBatches + [batch.(id := id)];
    }

    method DeleteIngredientBatch(batchId: string)
      modifies this
      ensures Snapshot() == old(Snapshot()).(ingredientBatches :=
        DropId(old(ingredientBatches), IngredientBatchId, batchId))
      ensures old(Valid()) ==> Valid()
    {
      ingredientBatches := DropId(ingredientBatches, IngredientBatchId, batchId);
    }

    method AddStrawberryBatch(id: string, batch: StrawberryBatchDraft)
      modifies this
      ensures Snapshot() == old(Snapshot()).(strawberryBatches :=
        old(strawberryBatches) + [NewStrawberryBatch(id, batch)])
      ensures old(Valid()) ==> Valid()
    {
      strawberryBatches := strawberryBatches + [NewStrawberryBatch(id, batch)];
    }

    method DeleteStrawberryBatch(batchId: string)
      modifies this
      ensures Snapshot() == old(Snapshot()).(strawberryBatches :=
        DropId(old(strawberryBatches), StrawberryBatchId, batchId))
      ensures old(Valid()) ==> Valid()
    {
      var kept := DropId(strawberryBatches, StrawberryBatchId, batchId);
      DropIdMembers(strawberryBatches, StrawberryBatchId, batchId);
      forall i | 0 <= i < |kept| ensures CostsDerived(kept[i]) || !Valid() {
        assert kept[i] in strawberryBatches;
      }
      strawberryBatches := kept;
    }

    /** Lays the patch over every batch with the id and recomputes its costs; other batches stay. */
    method UpdateStrawberryBatch(batchId: string, updates: StrawberryBatchPatch)
      modifies this
      ensures Snapshot() == old(Snapshot()).(strawberryBatches :=
        UpdateWhere(old(strawberryBatches), StrawberryBatchId, batchId, RecostFn(updates)))
      ensures old(Valid()) ==> Valid()
    {
      UpdateStrawberryKeepsCosts(strawberryBatches, batchId, updates);
      strawberryBatches := UpdateWhere(strawberryBatches, StrawberryBatchId, batchId, RecostFn(updates));
    }

    method AddWasteEntry(id: string, entry: WasteEntry)
      modifies this
      ensures Snapshot() == old(Snapshot()).(wasteEntries := old(wasteEntries) + [entry.(id := id)])
      ensures old(Valid()) ==> Valid()
    {
      wasteEntries := wasteEntries + [entry.(id := id)];
    }

    method DeleteWasteEntry(entryId: string)
      modifies this
      ensures Snapshot() == old(Snapshot()).(wasteEntries := DropId(old(wasteEntries), WasteEntryId, entryId))
      ensures old(Valid()) ==> Valid()
    {
      wasteEntries := DropId(wasteEntries, WasteEntryId, entryId);
    }

    method ResetAllData()
      modifies this
      ensures Snapshot() == DefaultState
      ensures Valid()
    {
      Load(DefaultState);
      DefaultStateInvariant();
    }

    /** Sets every field from a state value. */
    method Load(s: AppState)
      modifies this
      ensures Snapshot() == s
    {
      posFeePercent, posFeeManual, useManualPosFee := s.posFeePercent, s.posFeeManual, s.useManualPosFee;
      products, sales, fixedCosts := s.products, s.sales, s.fixedCosts;
      ingredients, ingredientBatches, strawberryBatches := s.ingredients, s.ingredientBatches, s.strawberryBatches;
      wasteEntries, manualInventoryAdjustments := s.wasteEntries, s.manualInventoryAdjustments;
    }

    /** Sets (`Some`) or clears (`None`) the manual remaining figure of one ingredient. */
    method UpdateManualInventory(ingredientId: string, remaining: Option<real>)
      modifies this
      ensures Snapshot() == old(Snapshot()).(manualInventoryAdjustments :=
        SetAdjustment(old(manualInventoryAdjustments), ingredientId, remaining))
      ensures old(Valid()) ==> Valid()
    {
      manualInventoryAdjustments := SetAdjustment(manualInventoryAdjustments, ingredientId, remaining);
    }
  }
}
