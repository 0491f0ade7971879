/**
 * The products and costs view: saving the checkout fee settings, editing a
 * product's fields in place, adding a product from the form, and the
 * profit and margin shown per product.
 */
module ProductsCosts {
  import opened Wrappers
  import opened Records
  import opened Text
  import opened Types
  import opened Costing
  import AppStore

  // ------------------------------------------------------------------
  // Checkout fee settings
  // ------------------------------------------------------------------

  /** `!isNaN(value) && value >= 0 ? value : 0`. */
  function FeeValue(input: Parsed<real>): (r: real)
    ensures r >= 0.0
    ensures input.Value? && input.v >= 0.0 ==> r == input.v
    ensures input.NaN? || input.v < 0.0 ==> r == 0.0
  {
    if input.Value? && input.v >= 0.0 then input.v else 0.0
  }

  /** Saving a saved fee again changes nothing. */
  lemma FeeValueIdempotent(input: Parsed<real>)
    ensures FeeValue(Value(FeeValue(input))) == FeeValue(input)
  {
  }

  /** `handleSavePosFee`: stores the normalised percentage. */
  method SavePosFee(store: AppStore.Store, input: Parsed<real>)
    modifies store
    ensures store.Snapshot() == old(store.Snapshot()).(posFeePercent := FeeValue(input))
    ensures store.posFeePercent >= 0.0
    ensures old(store.Valid()) ==> store.Valid()
  {
    store.UpdatePosFeePercent(if input.Value? && input.v >= 0.0 then input.v else 0.0);
  }

  /** `handleSaveManualPosFee`: stores the normalised manual amount. */
  method SaveManualPosFee(store: AppStore.Store, input: Parsed<real>)
    modifies store
    ensures store.Snapshot() == old(store.Snapshot()).(posFeeManual := FeeValue(input))
    ensures store.posFeeManual >= 0.0
    ensures old(store.Valid()) ==> store.Valid()
  {
    store.UpdatePosFeeManual(if input.Value? && input.v >= 0.0 then input.v else 0.0);
  }

  // ------------------------------------------------------------------
  // Editing a product
  // ------------------------------------------------------------------

  /** The numeric columns of the product table. */
  datatype NumericField = Price | ManualCostPerCup | StrawberriesPerCup | ChocolatePerCup
                        | KunafaPerCup | CupsPerCup | SticksPerCup

  /** What the table hands over: the manual-cost toggle, or the text of a numeric cell, parsed. */
  datatype ProductEdit = ToggleManualCost(useManual: bool) | SetNumber(field: NumericField, input: Parsed<real>)

  /** `{ [field]: value }` for a numeric field. */
  function NumberPatch(field: NumericField, v: real): AppStore.ProductPatch {
    var n := AppStore.NoProductChange;
    match field
    case Price => n.(price := Some(v))
    case ManualCostPerCup => n.(manualCostPerCup := Some(v))
    case StrawberriesPerCup => n.(strawberriesPerCup := Some(v))
    case ChocolatePerCup => n.(chocolatePerCup := Some(v))
    case KunafaPerCup => n.(kunafaPerCup := Some(v))
    case CupsPerCup => n.(cupsPerCup := Some(v))
    case SticksPerCup => n.(sticksPerCup := Some(v))
  }

  /** The update an edit makes, none when the typed number does not parse. */
  function EditPatch(e: ProductEdit): (r: Option<AppStore.ProductPatch>)
    ensures r.None? <==> e.SetNumber? && e.input.NaN?
    ensures e.ToggleManualCost? ==> r == Some(AppStore.NoProductChange.(useManualCost := Some(e.useManual)))
    ensures e.SetNumber? && e.input.Value? ==> r == Some(NumberPatch(e.field, e.input.v))
  {
    match e
    case ToggleManualCost(b) => Some(AppStore.NoProductChange.(useManualCost := Some(b)))
    case SetNumber(field, input) => if input.NaN? then None else Some(NumberPatch(field, input.v))
  }

  /** A product's numeric column; the manual cost is optional on the record. */
  function FieldOf(p: Product, field: NumericField): Option<real> {
    match field
    case Price => Some(p.price)
    case ManualCostPerCup => p.manualCostPerCup
    case StrawberriesPerCup => Some(p.strawberriesPerCup)
    case ChocolatePerCup => Some(p.chocolatePerCup)
    case KunafaPerCup => Some(p.kunafaPerCup)
    case CupsPerCup => Some(p.cupsPerCup)
    case SticksPerCup => Some(p.sticksPerCup)
  }

  /** Editing one numeric cell sets that column and leaves every other column, the name and the toggle alone. */
  lemma NumberEditTouchesOneField(p: Product, field: NumericField, v: real)
    ensures var r := AppStore.PatchProduct(p, NumberPatch(field, v));
      FieldOf(r, field) == Some(v) &&
      (forall g :: g != field ==> FieldOf(r, g) == FieldOf(p, g)) &&
      r.id == p.id && r.name == p.name && r.useManualCost == p.useManualCost
  {
  }

  /** Flipping the toggle changes only the toggle. */
  lemma ToggleTouchesOnlyToggle(p: Product, b: bool)
    ensures AppStore.PatchProduct(p, AppStore.NoProductChange.(useManualCost := Some(b))) == p.(useManualCost := b)
  {
  }

  /** Once the toggle is on, the cup costs its manual figure, recipe or not. */
  lemma ToggleOnUsesManualCost(state: AppState, p: Product, forDate: Option<Date>)
    ensures CostPerCup(state, p.(useManualCost := true), forDate) == p.manualCostPerCup.GetOr(0.0)
  {
  }

  /**
   * `handleProductChange`, called from the row of a listed product: applies
   * the update, or does nothing when the typed number does not parse.
   */
  method HandleProductChange(store: AppStore.Store, productId: string, e: ProductEdit) returns (updated: bool)
    requires HasKey(store.products, productId)
    modifies store
    ensures updated <==> EditPatch(e).Some?
    ensures !updated ==> store.Snapshot() == old(store.Snapshot())
    ensures updated ==> store.Snapshot() == old(store.Snapshot()).(products :=
      Put(old(store.products), productId,
        AppStore.PatchProduct(Get(old(store.products), productId).value, EditPatch(e).value)))
    ensures old(store.Valid()) ==> store.Valid()
  {
    match e {
      case ToggleManualCost(b) =>
        store.UpdateProduct(productId, AppStore.NoProductChange.(useManualCost := Some(b)));
        updated := true;
      case SetNumber(field, input) =>
        if input.NaN? {
          updated := false;
        } else {
          store.UpdateProduct(productId, NumberPatch(field, input.v));
          updated := true;
        }
    }
  }

  // ------------------------------------------------------------------
  // Adding a product
  // ------------------------------------------------------------------

  /**
   * The new-product form. `price` is absent when its field is empty (a
   * number field hands over only valid numbers); the other numeric fields
   * are parsed, `NaN` when empty.
   */
  datatype ProductForm = ProductForm(
    name: string,
    price: Option<real>,
    useManual: bool,
    manualCost: Parsed<real>,
    strawberries: Parsed<real>,
    chocolate: Parsed<real>,
    kunafa: Parsed<real>,
    cups: Parsed<real>,
    sticks: Parsed<real>)

  /** The form is refused when the trimmed name or the price is empty. */
  predicate AddAccepted(f: ProductForm) {
    Trim(f.name) != "" && f.price.Some?
  }

  /** A recipe amount: 0 for a manual-cost product, else the parsed amount or 0. */
  function RecipeAmount(useManual: bool, input: Parsed<real>): (r: real)
    ensures useManual ==> r == 0.0
    ensures !useManual ==> r == OrZero(input)
  {
    if useManual then 0.0 else OrZero(input)
  }

  /** The product `handleAddProduct` passes to the store, if the form is accepted. */
  function NewProduct(f: ProductForm, id: string): (r: Option<Product>)
    ensures r.Some? <==> AddAccepted(f)
    ensures r.Some? ==> r.value.id == id && r.value.name == Trim(f.name) && r.value.name != ""
    ensures r.Some? ==> r.value.price == f.price.value && r.value.useManualCost == f.useManual
    ensures r.Some? ==> r.value.manualCostPerCup == Some(OrZero(f.manualCost))
    ensures r.Some? && f.useManual ==>
      r.value.strawberriesPerCup == 0.0 && r.value.chocolatePerCup == 0.0 && r.value.kunafaPerCup == 0.0 &&
      r.value.cupsPerCup == 0.0 && r.value.sticksPerCup == 0.0
    ensures r.Some? && !f.useManual ==>
      r.value.strawberriesPerCup == OrZero(f.strawberries) && r.value.chocolatePerCup == OrZero(f.chocolate) &&
      r.value.kunafaPerCup == OrZero(f.kunafa) && r.value.cupsPerCup == OrZero(f.cups) &&
      r.value.sticksPerCup == OrZero(f.sticks)
  {
    if !AddAccepted(f) then None
    else
      Some(Product(id, Trim(f.name), f.price.value, Some(OrZero(f.manualCost)), f.useManual,
        RecipeAmount(f.useManual, f.strawberries), RecipeAmount(f.useManual, f.chocolate),
        RecipeAmount(f.useManual, f.kunafa), RecipeAmount(f.useManual, f.cups),
        RecipeAmount(f.useManual, f.sticks)))
  }

  /** A manual-cost product costs exactly its manual figure, whatever was typed into the recipe. */
  lemma NewManualProductCost(state: AppState, f: ProductForm, id: string, forDate: Option<Date>)
    requires AddAccepted(f) && f.useManual
    ensures CostPerCup(state, NewProduct(f, id).value, forDate) == OrZero(f.manualCost)
  {
  }

  /** `handleAddProduct`: stores the new product under a fresh id, or does nothing. */
  method HandleAddProduct(store: AppStore.Store, f: ProductForm, id: string) returns (added: bool)
    modifies store
    ensures added <==> AddAccepted(f)
    ensures !added ==> store.Snapshot() == old(store.Snapshot())
    ensures added ==> store.Snapshot() == old(store.Snapshot()).(products :=
      Put(old(store.products), id, NewProduct(f, id).value))
    ensures old(store.Valid()) ==> store.Valid()
  {
    var name := Trim(f.name);
    if name == "" || f.price.None? {
      return false;
    }
    var product := Product("", name, f.price.value, Some(OrZero(f.manualCost)), f.useManual,
      RecipeAmount(f.useManual, f.strawberries), RecipeAmount(f.useManual, f.chocolate),
      RecipeAmount(f.useManual, f.kunafa), RecipeAmount(f.useManual, f.cups),
      RecipeAmount(f.useManual, f.sticks));
    store.AddProduct(id, product);
    added := true;
  }

  // ------------------------------------------------------------------
  // Profit and margin
  // ------------------------------------------------------------------

  /** The profit of one cup at the current price and today's costs. */
  function ProfitPerCup(state: AppState, p: Product): (r: real)
    ensures r + CostPerCup(state, p, None) == p.price
  {
    p.price - CostPerCup(state, p, None)
  }

  /** The margin in percent, 0 for a product priced at 0 or less (display rounding left out). */
  function Margin(price: real, profit: real): (r: real)
    ensures price <= 0.0 ==> r == 0.0
    ensures price > 0.0 ==> r * price == profit * 100.0
  {
    if price > 0.0 then profit / price * 100.0 else 0.0
  }

  /** A product that costs nothing has a 100% margin; a positive cost keeps it below 100%. */
  lemma MarginBelowHundred(price: real, cost: real)
    requires price > 0.0
    ensures cost == 0.0 ==> Margin(price, price - cost) == 100.0
    ensures cost > 0.0 ==> Margin(price, price - cost) < 100.0
    ensures cost >= price ==> Margin(price, price - cost) <= 0.0
  {
    var m := Margin(price, price - cost);
    assert m * price == (price - cost) * 100.0;
    if cost > 0.0 {
      CancelPositive(m, 100.0, price);
    }
    if cost >= price {
      CancelPositive(m, 0.0, price);
    }
    if cost == 0.0 {
      assert (m - 100.0) * price == 0.0;
    }
  }

  /** Dividing both sides of `a * c <= b * c` by a positive `c`. */
  lemma CancelPositive(a: real, b: real, c: real)
    requires c > 0.0
    ensures a * c < b * c ==> a < b
    ensures a * c <= b * c ==> a <= b
  {
  }

  datatype MarginBadge = Good | Fair | Poor

  /** The margin badge: at least 50% good, at least 25% fair, else poor. */
  function Badge(margin: real): (b: MarginBadge)
    ensures b == Good <==> margin >= 50.0
    ensures b == Fair <==> 25.0 <= margin < 50.0
    ensures b == Poor <==> margin < 25.0
  {
    if margin >= 50.0 then Good else if margin >= 25.0 then Fair else Poor
  }

  // ------------------------------------------------------------------
  // Built-in products
  // ------------------------------------------------------------------

  /** The products the kiosk ships with never get a delete action. */
  predicate IsBuiltInProduct(id: string) {
    id == "normal" || id == "kunafa" || id == "rocky" || id == "tips" || id == "cookies"
  }

  predicate Deletable(id: string) { !IsBuiltInProduct(id) }

  /** Every default product is built in, so none of them can be deleted from the table. */
  lemma DefaultProductsNotDeletable()
    ensures forall i :: 0 <= i < |DefaultProducts| ==> !Deletable(DefaultProducts[i].key)
    ensures forall i :: 0 <= i < |DefaultProducts| ==> !Deletable(DefaultProducts[i].value.id)
  {
  }
}
