/**
 * The point-of-sale cart, shared by the kiosk page and the worker tab (both
 * hold the same code). An order is a list of lines, one per product, each
 * with a quantity and the unit price taken when the product was first
 * added. Submitting books one sale per line, dated today, and empties the
 * order.
 *
 * Each cart operation is a function on the order (the state update the
 * page passes to `setOrder`); the class `Cart` holds the order and applies
 * them. Today's date and the fresh sale ids are parameters.
 */
module PosCart {
  import opened Wrappers
  import opened Records
  import opened Folds
  import opened Types
  import AppStore

  datatype OrderItem = OrderItem(productId: string, productName: string, qty: int, unitPrice: real)

  function ItemId(item: OrderItem): string { item.productId }
  function ItemQty(item: OrderItem): int { item.qty }
  function ItemAmount(item: OrderItem): real { item.qty as real * item.unitPrice }

  /** No product has two lines, and every line holds at least one unit. */
  predicate WellFormed(order: seq<OrderItem>) {
    (forall i, j :: 0 <= i < j < |order| ==> order[i].productId != order[j].productId) &&
    (forall i :: 0 <= i < |order| ==> order[i].qty >= 1)
  }

  predicate HasLine(order: seq<OrderItem>, productId: string) {
    exists i :: 0 <= i < |order| && order[i].productId == productId
  }

  // ------------------------------------------------------------------
  // Sellable products
  // ------------------------------------------------------------------

  function NotTips(p: Product): bool { p.id != "tips" }

  /** Every product but the tips entry, in dictionary order. */
  function SellableProducts(products: Dict<Product>): (r: seq<Product>)
    ensures forall i :: 0 <= i < |r| ==> r[i].id != "tips" && r[i] in Values(products)
    ensures forall i :: 0 <= i < |products| && products[i].value.id != "tips" ==> products[i].value in r
  {
    var vs := Values(products);
    assert forall i :: 0 <= i < |products| ==> vs[i] == products[i].value;
    Filter(vs, NotTips)
  }

  /** The sellable products of two runs of entries are those of the first, then those of the second. */
  lemma SellableAppend(a: Dict<Product>, b: Dict<Product>)
    ensures SellableProducts(a + b) == SellableProducts(a) + SellableProducts(b)
  {
    assert Values(a + b) == Values(a) + Values(b);
    FilterAppend(Values(a), Values(b), NotTips);
  }

  // ------------------------------------------------------------------
  // Order-line operations
  // ------------------------------------------------------------------

  function Increment(item: OrderItem): OrderItem { item.(qty := item.qty + 1) }

  /**
   * `addToOrder`: an unknown product is ignored, a product already in the
   * order gets one more unit, and a new product is appended with one unit
   * at its current price.
   */
  function AddedToOrder(order: seq<OrderItem>, products: Dict<Product>, productId: string): (r: seq<OrderItem>)
    ensures !HasKey(products, productId) ==> r == order
    ensures HasKey(products, productId) && HasLine(order, productId) ==>
      |r| == |order| &&
      forall i :: 0 <= i < |order| ==>
        r[i] == if order[i].productId == productId then order[i].(qty := order[i].qty + 1) else order[i]
    ensures HasKey(products, productId) && !HasLine(order, productId) ==>
      r == order + [OrderItem(productId, Get(products, productId).value.name, 1,
                              Get(products, productId).value.price)]
  {
    match Get(products, productId)
    case None => order
    case Some(p) =>
      if HasLine(order, productId) then AppStore.UpdateWhere(order, ItemId, productId, Increment)
      else order + [OrderItem(productId, p.name, 1, p.price)]
  }

  function Adjust(delta: int): OrderItem -> OrderItem {
    (item: OrderItem) => if item.qty + delta > 0 then item.(qty := item.qty + delta) else item
  }

  function Positive(item: OrderItem): bool { item.qty > 0 }

  /**
   * `updateQty`: the product's line takes `qty + delta` when that is
   * positive and is otherwise left as it was; lines without units are then
   * dropped.
   */
  function QtyUpdated(order: seq<OrderItem>, productId: string, delta: int): (r: seq<OrderItem>)
    ensures forall i :: 0 <= i < |r| ==> r[i].qty > 0
  {
    Filter(AppStore.UpdateWhere(order, ItemId, productId, Adjust(delta)), Positive)
  }

  /** `removeFromOrder`: every line of the product goes, the rest keep their order. */
  function RemovedFromOrder(order: seq<OrderItem>, productId: string): (r: seq<OrderItem>)
    ensures forall i :: 0 <= i < |r| ==> r[i] in order && r[i].productId != productId
    ensures forall i :: 0 <= i < |order| && order[i].productId != productId ==> order[i] in r
    ensures !HasLine(order, productId) ==> r == order
  {
    AppStore.DropIdMembers(order, ItemId, productId);
    AppStore.DropId(order, ItemId, productId)
  }

  function TotalAmount(order: seq<OrderItem>): real { Sum(order, ItemAmount) }
  function TotalItems(order: seq<OrderItem>): int { SumInt(order, ItemQty) }

  // ------------------------------------------------------------------
  // What the operations preserve and how they move the totals
  // ------------------------------------------------------------------

  /** In a well-formed order the product's line is the only one with its id. */
  lemma OnlyLine(order: seq<OrderItem>, i: nat)
    requires WellFormed(order) && i < |order|
    ensures forall j :: 0 <= j < |order| && j != i ==> order[j].productId != order[i].productId
  {
    forall j | 0 <= j < |order| && j != i
      ensures order[j].productId != order[i].productId
    {
      if j < i { assert order[j].productId != order[i].productId; }
      else { assert order[i].productId != order[j].productId; }
    }
  }

  lemma AddedToOrderWellFormed(order: seq<OrderItem>, products: Dict<Product>, productId: string)
    requires WellFormed(order)
    ensures WellFormed(AddedToOrder(order, products, productId))
  {
  }

  /**
   * Adding a known product adds one unit, and adds the price of the line it
   * lands on: the price stored in the order for a product already there,
   * the current price otherwise.
   */
  lemma {:induction false} AddedToOrderTotals(order: seq<OrderItem>, products: Dict<Product>, productId: string, i: nat)
    requires WellFormed(order) && HasKey(products, productId)
    requires i < |order| && order[i].productId == productId
    ensures TotalItems(AddedToOrder(order, products, productId)) == TotalItems(order) + 1
    ensures TotalAmount(AddedToOrder(order, products, productId)) == TotalAmount(order) + order[i].unitPrice
  {
    OnlyLine(order, i);
    AppStore.UpdateWhereSingle(order, ItemId, productId, Increment, i);
    assert HasLine(order, productId);
    assert AddedToOrder(order, products, productId) == order[i := Increment(order[i])];
    SumIntUpdate(order, i, Increment(order[i]), ItemQty);
    SumUpdate(order, i, Increment(order[i]), ItemAmount);
    AmountStep(order[i], 1);
  }

  /** A line with `delta` more units is worth `delta` more unit prices. */
  lemma AmountStep(item: OrderItem, delta: int)
    ensures ItemAmount(item.(qty := item.qty + delta)) == ItemAmount(item) + delta as real * item.unitPrice
  {
    assert (item.qty + delta) as real == item.qty as real + delta as real;
  }

  lemma {:induction false} AddedNewProductTotals(order: seq<OrderItem>, products: Dict<Product>, productId: string)
    requires HasKey(products, productId) && !HasLine(order, productId)
    ensures TotalItems(AddedToOrder(order, products, productId)) == TotalItems(order) + 1
    ensures TotalAmount(AddedToOrder(order, products, productId)) ==
      TotalAmount(order) + Get(products, productId).value.price
  {
    var p := Get(products, productId).value;
    var line := OrderItem(productId, p.name, 1, p.price);
    SumIntAppend(order, [line], ItemQty);
    SumAppend(order, [line], ItemAmount);
    assert [line][..0] == [];
  }

  /**
   * On a well-formed order `updateQty` never drops a line: the filter only
   * ever sees positive quantities, so the step changes at most the
   * product's quantity.
   */
  lemma QtyUpdatedLines(order: seq<OrderItem>, productId: string, delta: int)
    requires WellFormed(order)
    ensures QtyUpdated(order, productId, delta) == AppStore.UpdateWhere(order, ItemId, productId, Adjust(delta))
    ensures |QtyUpdated(order, productId, delta)| == |order|
    ensures forall i :: 0 <= i < |order| ==>
      QtyUpdated(order, productId, delta)[i] ==
        if order[i].productId == productId && order[i].qty + delta > 0 then order[i].(qty := order[i].qty + delta)
        else order[i]
    ensures WellFormed(QtyUpdated(order, productId, delta))
  {
    FilterKeepsUpdatedLines(order, productId, delta);
    UpdatedLinesWellFormed(order, productId, delta);
  }

  lemma FilterKeepsUpdatedLines(order: seq<OrderItem>, productId: string, delta: int)
    requires forall i :: 0 <= i < |order| ==> order[i].qty >= 1
    ensures QtyUpdated(order, productId, delta) == AppStore.UpdateWhere(order, ItemId, productId, Adjust(delta))
  {
    var u := AppStore.UpdateWhere(order, ItemId, productId, Adjust(delta));
    forall i | 0 <= i < |u| ensures Positive(u[i]) {
      assert u[i] == if order[i].productId == productId then Adjust(delta)(order[i]) else order[i];
    }
    FilterAll(u, Positive);
  }

  lemma UpdatedLinesWellFormed(order: seq<OrderItem>, productId: string, delta: int)
    requires WellFormed(order)
    ensures WellFormed(AppStore.UpdateWhere(order, ItemId, productId, Adjust(delta)))
  {
    var u := AppStore.UpdateWhere(order, ItemId, productId, Adjust(delta));
    forall i | 0 <= i < |u| ensures u[i].productId == order[i].productId && u[i].qty >= 1 {
      assert u[i] == if order[i].productId == productId then Adjust(delta)(order[i]) else order[i];
    }
  }

  /** Decrementing a single-unit line leaves the order exactly as it was. */
  lemma DecrementLastUnitKeepsLine(order: seq<OrderItem>, i: nat)
    requires WellFormed(order) && i < |order| && order[i].qty == 1
    ensures QtyUpdated(order, order[i].productId, -1) == order
  {
    var id := order[i].productId;
    OnlyLine(order, i);
    QtyUpdatedLines(order, id, -1);
  }

  /** A step that would leave no unit changes nothing. */
  lemma QtyUpdatedNoOp(order: seq<OrderItem>, i: nat, delta: int)
    requires WellFormed(order) && i < |order| && order[i].qty + delta <= 0
    ensures QtyUpdated(order, order[i].productId, delta) == order
  {
    QtyUpdatedOneLine(order, i, delta);
  }

  /** A step that applies moves the item count by `delta` and the amount by `delta` unit prices. */
  lemma {:induction false} QtyUpdatedTotals(order: seq<OrderItem>, i: nat, delta: int)
    requires WellFormed(order) && i < |order| && order[i].qty + delta > 0
    ensures TotalItems(QtyUpdated(order, order[i].productId, delta)) == TotalItems(order) + delta
    ensures TotalAmount(QtyUpdated(order, order[i].productId, delta)) ==
      TotalAmount(order) + delta as real * order[i].unitPrice
  {
    var x := order[i].(qty := order[i].qty + delta);
    QtyUpdatedOneLine(order, i, delta);
    assert Adjust(delta)(order[i]) == x;
    SumIntUpdate(order, i, x, ItemQty);
    UpdatedLineAmount(order, i, delta);
  }

  lemma UpdatedLineAmount(order: seq<OrderItem>, i: nat, delta: int)
    requires i < |order|
    ensures TotalAmount(order[i := order[i].(qty := order[i].qty + delta)]) ==
      TotalAmount(order) + delta as real * order[i].unitPrice
  {
    var x := order[i].(qty := order[i].qty + delta);
    SumUpdate(order, i, x, ItemAmount);
    AmountStep(order[i], delta);
  }

  lemma QtyUpdatedOneLine(order: seq<OrderItem>, i: nat, delta: int)
    requires WellFormed(order) && i < |order|
    ensures QtyUpdated(order, order[i].productId, delta) == order[i := Adjust(delta)(order[i])]
  {
    var id := order[i].productId;
    OnlyLine(order, i);
    QtyUpdatedLines(order, id, delta);
    AppStore.UpdateWhereSingle(order, ItemId, id, Adjust(delta), i);
  }

  /** Removing a product that is in the order takes out exactly its line. */
  lemma RemovedFromOrderExact(order: seq<OrderItem>, i: nat)
    requires WellFormed(order) && i < |order|
    ensures RemovedFromOrder(order, order[i].productId) == order[..i] + order[i + 1..]
    ensures WellFormed(RemovedFromOrder(order, order[i].productId))
    ensures TotalItems(RemovedFromOrder(order, order[i].productId)) == TotalItems(order) - order[i].qty
    ensures TotalAmount(RemovedFromOrder(order, order[i].productId)) ==
      TotalAmount(order) - ItemAmount(order[i])
  {
    OnlyLine(order, i);
    AppStore.DropIdOnly(order, ItemId, i);
    WithoutLineWellFormed(order, i);
    SumIntRemove(order, i, ItemQty);
    SumRemove(order, i, ItemAmount);
  }

  lemma WithoutLineWellFormed(order: seq<OrderItem>, i: nat)
    requires WellFormed(order) && i < |order|
    ensures WellFormed(order[..i] + order[i + 1..])
  {
    var r := order[..i] + order[i + 1..];
    forall p, q | 0 <= p < q < |r| ensures r[p].productId != r[q].productId {
      var p' := if p < i then p else p + 1;
      var q' := if q < i then q else q + 1;
      assert r[p] == order[p'] && r[q] == order[q'];
    }
    forall p | 0 <= p < |r| ensures r[p].qty >= 1 {
      assert r[p] == order[if p < i then p else p + 1];
    }
  }

  lemma RemovedFromOrderWellFormed(order: seq<OrderItem>, productId: string)
    requires WellFormed(order)
    ensures WellFormed(RemovedFromOrder(order, productId))
  {
    if HasLine(order, productId) {
      var i :| 0 <= i < |order| && order[i].productId == productId;
      RemovedFromOrderExact(order, i);
    }
  }

  /** Every line holds a unit, so an order has at least as many items as lines. */
  lemma {:induction false} TotalItemsAtLeastLines(order: seq<OrderItem>)
    requires forall i :: 0 <= i < |order| ==> order[i].qty >= 1
    ensures TotalItems(order) >= |order|
    ensures TotalItems(order) == 0 <==> order == []
  {
    if order != [] {
      TotalItemsAtLeastLines(order[..|order| - 1]);
    }
  }

  // ------------------------------------------------------------------
  // Submitting
  // ------------------------------------------------------------------

  /** The `addSale` argument of each line: today's date, its product, quantity and price, no source. */
  function OrderDrafts(order: seq<OrderItem>, today: Date): (r: seq<AppStore.SaleDraft>)
    ensures |r| == |order|
    ensures forall k :: 0 <= k < |order| ==>
      r[k] == AppStore.SaleDraft(today, order[k].productId, order[k].qty, order[k].unitPrice, None, None)
  {
    if order == [] then []
    else
      var last := order[|order| - 1];
      OrderDrafts(order[..|order| - 1], today) +
        [AppStore.SaleDraft(today, last.productId, last.qty, last.unitPrice, None, None)]
  }

  /** The booked sales carry the order's item count and amount. */
  lemma {:induction false} OrderDraftsTotals(order: seq<OrderItem>, today: Date)
    ensures SumInt(OrderDrafts(order, today), AppStore.DraftQty) == TotalItems(order)
    ensures Sum(OrderDrafts(order, today), AppStore.DraftRevenue) == TotalAmount(order)
  {
    if order != [] {
      var init := order[..|order| - 1];
      var last := order[|order| - 1];
      var d := AppStore.SaleDraft(today, last.productId, last.qty, last.unitPrice, None, None);
      OrderDraftsTotals(init, today);
      assert OrderDrafts(order, today) == OrderDrafts(init, today) + [d];
      SumIntAppend(OrderDrafts(init, today), [d], AppStore.DraftQty);
      SumAppend(OrderDrafts(init, today), [d], AppStore.DraftRevenue);
      assert [d][..0] == [];
    }
  }

  /** Every booked sale is a manual one without checkout id, dated today. */
  lemma OrderSalesAreManual(order: seq<OrderItem>, today: Date, ids: seq<string>, k: nat)
    requires |ids| >= |order| && k < |order|
    ensures var s := AppStore.NewSales(ids, OrderDrafts(order, today))[k];
      s.id == ids[k] && s.date == today && s.source == Manual && s.transactionId.None? &&
      s.productId == order[k].productId && s.qty == order[k].qty && s.unitPrice == order[k].unitPrice
  {
  }

  lemma OrderDraftsPrefixStep(order: seq<OrderItem>, i: nat, today: Date)
    requires i < |order|
    ensures OrderDrafts(order[..i + 1], today) ==
      OrderDrafts(order[..i], today) +
        [AppStore.SaleDraft(today, order[i].productId, order[i].qty, order[i].unitPrice, None, None)]
  {
    assert order[..i + 1][..i] == order[..i];
  }

  /** The loop of `submitOrder`: one `addSale` per line, in order. */
  method BookLines(store: AppStore.Store, order: seq<OrderItem>, today: Date, ids: seq<string>)
    requires |ids| >= |order|
    modifies store
    ensures store.Snapshot() == old(store.Snapshot()).(sales := store.sales)
    ensures store.sales == old(store.sales) + AppStore.NewSales(ids, OrderDrafts(order, today))
    ensures old(store.Valid()) ==> store.Valid()
  {
    ghost var base := store.sales;
    BookedNone(base, order, today, ids);
    var i := 0;
    while i < |order|
      invariant 0 <= i <= |order|
      invariant store.Snapshot() == old(store.Snapshot()).(sales := store.sales)
      invariant store.sales == base + AppStore.NewSales(ids, OrderDrafts(order[..i], today))
      invariant old(store.Valid()) ==> store.Valid()
    {
      BookLine(store, order, i, today, ids, base);
      i := i + 1;
    }
    BookedAll(base, order, i, today, ids);
  }

  /** After the last line the whole order is booked. */
  lemma BookedAll(base: seq<Sale>, order: seq<OrderItem>, i: nat, today: Date, ids: seq<string>)
    requires i == |order| <= |ids|
    ensures base + AppStore.NewSales(ids, OrderDrafts(order[..i], today)) ==
      base + AppStore.NewSales(ids, OrderDrafts(order, today))
  {
    assert order[..i] == order;
  }

  /** Before the first line nothing is booked. */
  lemma BookedNone(base: seq<Sale>, order: seq<OrderItem>, today: Date, ids: seq<string>)
    requires |ids| >= |order|
    ensures base + AppStore.NewSales(ids, OrderDrafts(order[..0], today)) == base
  {
    assert order[..0] == [];
  }

  /** One pass of that loop: line `i` is booked with the `i`-th fresh id. */
  method BookLine(store: AppStore.Store, order: seq<OrderItem>, i: nat, today: Date, ids: seq<string>,
                  ghost base: seq<Sale>)
    requires i < |order| <= |ids|
    requires store.sales == base + AppStore.NewSales(ids, OrderDrafts(order[..i], today))
    modifies store
    ensures store.Snapshot() == old(store.Snapshot()).(sales := store.sales)
    ensures store.sales == base + AppStore.NewSales(ids, OrderDrafts(order[..i + 1], today))
    ensures old(store.Valid()) ==> store.Valid()
  {
    var item := order[i];
    var d := AppStore.SaleDraft(today, item.productId, item.qty, item.unitPrice, None, None);
    BookedStep(base, order, i, today, ids);
    store.AddSale(ids[i], d);
  }

  /** The sales booked for the first `i + 1` lines: those for the first `i`, then line `i`'s. */
  lemma BookedStep(base: seq<Sale>, order: seq<OrderItem>, i: nat, today: Date, ids: seq<string>)
    requires i < |order| <= |ids|
    ensures base + AppStore.NewSales(ids, OrderDrafts(order[..i + 1], today)) ==
      (base + AppStore.NewSales(ids, OrderDrafts(order[..i], today))) +
        [AppStore.NewSale(ids[i], AppStore.SaleDraft(today, order[i].productId, order[i].qty, order[i].unitPrice, None, None))]
  {
    var d := AppStore.SaleDraft(today, order[i].productId, order[i].qty, order[i].unitPrice, None, None);
    var booked := AppStore.NewSales(ids, OrderDrafts(order[..i], today));
    OrderDraftsPrefixStep(order, i, today);
    AppStore.NewSalesAppend(ids, OrderDrafts(order[..i], today), d);
    assert (base + booked) + [AppStore.NewSale(ids[i], d)] == base + (booked + [AppStore.NewSale(ids[i], d)]);
  }

  // ------------------------------------------------------------------
  // The cart
  // ------------------------------------------------------------------

  class Cart {
    var order: seq<OrderItem>

    predicate Valid()
      reads this
    {
      WellFormed(order)
    }

    constructor()
      ensures order == [] && Valid()
    {
      order := [];
    }

    method AddToOrder(products: Dict<Product>, productId: string)
      modifies this
      ensures order == AddedToOrder(old(order), products, productId)
      ensures old(Valid()) ==> Valid()
    {
      if old(Valid()) { AddedToOrderWellFormed(order, products, productId); }
      order := AddedToOrder(order, products, productId);
    }

    method UpdateQty(productId: string, delta: int)
      modifies this
      ensures order == QtyUpdated(old(order), productId, delta)
      ensures old(Valid()) ==> Valid()
    {
      if old(Valid()) { QtyUpdatedLines(order, productId, delta); }
      order := QtyUpdated(order, productId, delta);
    }

    method RemoveFromOrder(productId: string)
      modifies this
      ensures order == RemovedFromOrder(old(order), productId)
      ensures old(Valid()) ==> Valid()
    {
      if old(Valid()) { RemovedFromOrderWellFormed(order, productId); }
      order := RemovedFromOrder(order, productId);
    }

    method ClearOrder()
      modifies this
      ensures order == [] && Valid()
    {
      order := [];
    }

    /**
     * `submitOrder`: an empty order is refused and books nothing; otherwise
     * each line becomes a sale and the order is cleared.
     */
    method SubmitOrder(store: AppStore.Store, today: Date, ids: seq<string>) returns (submitted: bool)
      requires |ids| >= |order|
      modifies this, store
      ensures submitted <==> old(order) != []
      ensures !submitted ==> order == old(order) && store.Snapshot() == old(store.Snapshot())
      ensures submitted ==> order == [] && store.Snapshot() == old(store.Snapshot()).(sales :=
        old(store.sales) + AppStore.NewSales(ids, OrderDrafts(old(order), today)))
      ensures old(store.Valid()) ==> store.Valid()
      ensures old(Valid()) ==> Valid()
    {
      if order == [] {
        return false;
      }
      BookLines(store, order, today, ids);
      order := [];
      submitted := true;
    }
  }
}
