/**
 * The records of the kiosk's bookkeeping state. Dates are day numbers;
 * `Record<string, T>` collections are insertion-ordered dictionaries.
 * A sale also carries its origin and optional checkout-group id, and the
 * state carries the manual inventory overrides, as the state hook uses them.
 */
module Types {
  import opened Wrappers
  import opened Records

  /** A calendar day, as a comparable day number. */
  type Date = int

  datatype Product = Product(
    id: string,
    name: string,
    price: real,
    manualCostPerCup: Option<real>,
    useManualCost: bool,
    strawberriesPerCup: real,  // pieces
    chocolatePerCup: real,     // grams
    kunafaPerCup: real,        // grams
    cupsPerCup: real,          // packaging cups
    sticksPerCup: real)        // sticks

  datatype SaleSource = Pos | Manual

  datatype Sale = Sale(
    id: string,
    date: Date,
    productId: string,
    qty: int,
    unitPrice: real,
    source: SaleSource,
    transactionId: Option<string>)

  datatype FixedCost = FixedCost(id: string, name: string, amount: real)

  datatype Unit = Grams | Pieces | Units

  datatype Ingredient = Ingredient(
    id: string,
    name: string,
    unit: Unit,
    defaultBulkQty: real,
    defaultBulkCost: real)

  datatype IngredientBatch = IngredientBatch(
    id: string,
    ingredientId: string,
    name: string,
    date: Date,
    bulkQty: real,
    bulkCost: real,
    avgWeightPerPiece: Option<real>)

  datatype StrawberryBatch = StrawberryBatch(
    id: string,
    name: string,
    date: Date,
    bulkWeightKg: real,
    bulkWeightG: real,
    bulkCost: real,
    avgWeightPerStrawberry: real,
    costPerGram: real,
    costPerStrawberry: real)

  datatype WasteEntry = WasteEntry(
    id: string,
    date: Date,
    ingredientId: string,
    qty: real,
    reason: string,
    estimatedCost: real)

  datatype AppState = AppState(
    posFeePercent: real,
    posFeeManual: real,
    useManualPosFee: bool,
    products: Dict<Product>,
    sales: seq<Sale>,
    fixedCosts: seq<FixedCost>,
    ingredients: Dict<Ingredient>,
    ingredientBatches: seq<IngredientBatch>,
    strawberryBatches: seq<StrawberryBatch>,
    wasteEntries: seq<WasteEntry>,
    manualInventoryAdjustments: map<string, real>)

  datatype ProductCombo = ProductCombo(rocky: nat, strawberry: nat, dubai: nat, cookies: nat)

  datatype Transaction = Transaction(amount: int, combo: ProductCombo)

  datatype IngredientUsage = IngredientUsage(
    strawberriesG: real,
    strawberriesPcs: real,
    chocolateG: real,
    kunafaG: real,
    cupsUsed: real,
    sticksUsed: real)

  datatype IngredientInventory = IngredientInventory(
    ingredientId: string,
    name: string,
    totalPurchased: real,
    totalUsed: real,
    totalWasted: real,
    remaining: real,
    unit: Unit,
    totalCost: real,
    costPerUnit: real)

  datatype DashboardStats = DashboardStats(
    grossRevenue: real,
    totalRevenue: real,
    totalRevenueExcludingRocky: real,
    tipsRevenue: real,
    rockyDeduction: real,
    totalVarCost: real,
    posFees: real,
    autoPosFees: real,
    profitBeforeFixed: real,
    fixedTotal: real,
    netAfterFixed: real,
    totalCups: int,
    remainingToBreakeven: real,
    usage: IngredientUsage,
    strawberryRemainingG: real,
    chocolateRemainingG: real,
    kunafaRemainingG: real,
    cupsRemaining: real,
    sticksRemaining: real,
    totalWasteCost: real)

  function SaleDate(s: Sale): Date { s.date }
  function StrawberryBatchDate(b: StrawberryBatch): Date { b.date }
  function IngredientBatchDate(b: IngredientBatch): Date { b.date }

  /** `state.products[id]`. */
  function ProductOf(state: AppState, id: string): Option<Product> {
    Get(state.products, id)
  }

  /** A sale's revenue, `qty × unitPrice`. */
  function Revenue(s: Sale): real {
    s.qty as real * s.unitPrice
  }

  const DefaultIngredients: Dict<Ingredient> := [
    Entry("cup", Ingredient("cup", "Cup", Units, 50.0, 61.5)),
    Entry("chocolate", Ingredient("chocolate", "Chocolate", Grams, 1000.0, 78.5)),
    Entry("kunafa", Ingredient("kunafa", "Pistachio Kunafa", Grams, 2000.0, 130.0)),
    Entry("sticks", Ingredient("sticks", "Sticks", Units, 100.0, 21.0)),
    Entry("strawberry", Ingredient("strawberry", "Strawberry", Grams, 1000.0, 40.0))
  ]

  const DefaultProducts: Dict<Product> := [
    Entry("normal", Product("normal", "Strawberry Chocolate", 30.0, Some(0.0), false, 8.0, 60.0, 0.0, 1.0, 1.0)),
    Entry("kunafa", Product("kunafa", "Dubai Chocolate Strawberry", 35.0, Some(0.0), false, 8.0, 60.0, 30.0, 1.0, 1.0)),
    Entry("rocky", Product("rocky", "Rocky Road", 55.0, Some(50.0), true, 0.0, 0.0, 0.0, 0.0, 0.0)),
    Entry("tips", Product("tips", "Tips", 1.0, Some(0.0), true, 0.0, 0.0, 0.0, 0.0, 0.0)),
    Entry("cookies", Product("cookies", "Cookies", 15.0, Some(7.67), true, 0.0, 0.0, 0.0, 0.0, 0.0))
  ]

  const DefaultFixedCosts: seq<FixedCost> := [
    FixedCost("fc1", "Kiosk / Booth", 5650.0),
    FixedCost("fc2", "Fridge", 1100.0),
    FixedCost("fc3", "Machinery / Equipment", 3150.0),
    FixedCost("fc4", "Kiosk Delivery", 450.0)
  ]

  const DefaultState: AppState := AppState(
    0.0, 0.0, false, DefaultProducts, [], DefaultFixedCosts,
    DefaultIngredients, [], [], [], map[])
}
