# Berrylicious kiosk bookkeeping, modelled in Dafny

Berrylicious is a point-of-sale and bookkeeping app for one dessert kiosk. Staff ring up orders at a POS cart. Sales can also be entered by hand, or recovered from card-terminal amounts by splitting each amount into the product counts that add up to it. The owner records ingredient purchases, strawberry batches, waste and fixed costs. A state hook derives everything on top of those records:

- what one unit of an ingredient and one cup of a product cost on a date;
- how much stock the sales used up and what remains;
- revenue after POS fees;
- profit and the distance to break-even.

This project models that calculation engine and the state it works on. It also models the view logic that validates forms, builds records and derives figures for display. Properties of each part are proved.

Modelling choices that hold throughout:

- Money and ingredient quantities are exact `real`s. Sale, order and combination quantities are integers.
- A date is an integer day number. Ordering by the `yyyy-MM-dd` text is ordering by day. Where a view builds a default name from the date text, the text is passed alongside.
- A `Record<string, T>` object and a JavaScript `Map` are both insertion-ordered dictionaries (`Records.Dict`). The manual inventory overrides are a Dafny `map`.
- The result of `parseFloat` or `parseInt` arrives already parsed, as `Wrappers.Parsed` (a number or `NaN`). A number field whose emptiness the code tests arrives as an `Option`.
- Record ids, today's date and the current time are parameters.
- The one state store is the class `AppStore.Store`. Its mutator methods replace exactly one collection or setting. Every view handler that changes state does so by calling those methods.
- The kiosk POS page (`src/app/pos/page.tsx`) and the worker POS tab (`src/components/views/worker-pos.tsx`) contain the same cart code. The single `PosCart` module models both. Its value functions cite the page and its `Cart` class cites the tab.
- The view handlers that only delete a record by id call the store's delete mutators. Those mutators are modelled in `AppStore`.

Modules, leaf first:

- `Wrappers`, `Records`, `Folds`, `Text`: optional values, dictionaries, sums and filters, and `trim`/`join`.
- `Types`: the records and the default products and ingredients.
- `DateOrder`: the stable sort by date and the as-of-date choice.
- `Costing`: batch lookup, unit cost and cup cost.
- `Usage`: the ingredient-usage fold.
- `Inventory`: the stock projection.
- `Grouping`: grouping POS sales into checkouts.
- `DashboardStats`: revenue, fees, costs and break-even.
- `AppStore`: the state store and its mutators.
- `Classifier`: the transaction classifier.
- `PosCart`: the POS cart.
- One module per remaining view: `SalesLog`, `DashboardOverview`, `WasteTracking`, `ProductsCosts`, `IngredientsView` and `FixedCostsView`.

## Model

| member | source | states |
|---|---|---|
| Records.Keys | src/components/views/ingredients.tsx:753 | `Object.keys`: the keys of the record, in insertion order |
| Records.Values | src/components/views/products-costs.tsx:456 | `Object.values`: the values of the record, in insertion order |
| Records.Get | src/hooks/use-app-state.ts:218 | a lookup `record[id]`: absent iff no entry has the key, otherwise the value stored under it |
| Records.Put | src/hooks/use-app-state.ts:238-241 | `{ ...record, [id]: value }`: an existing key keeps its position and gets the new value; a new key is appended |
| Records.PutGet | src/hooks/use-app-state.ts:223-226 | after a write, the written key reads back the new value and every other key reads as before |
| Records.PutKeepsUnique | src/hooks/use-app-state.ts:238-241 | a write never makes a key occur twice |
| Records.Remove | src/hooks/use-app-state.ts:251 | `const { [id]: _, ...rest }`: every other entry survives, that key's entries are gone |
| Records.RemoveAppend | src/hooks/use-app-state.ts:251 | removal distributes over concatenation, so the surviving entries keep their order |
| Records.RemoveGet | src/hooks/use-app-state.ts:251 | after a removal, the removed key reads as absent and every other key reads as before |
| Text.Trim | src/components/views/fixed-costs.tsx:49-52 | `trim()`: the result is empty iff the text is all whitespace, otherwise neither starts nor ends with whitespace, and it is never longer than the text |
| Text.TrimIsSlice | src/components/views/fixed-costs.tsx:49-52 | `trim()` only removes ends: the result is the slice of the text between a blank prefix (the leading whitespace) and a blank suffix |
| Text.NatToString | src/components/views/transaction-classifier.tsx:82-85 | the decimal text of a count: one or more digits whose decimal value is the count, with no leading zero except for 0 itself |
| Text.Join | src/components/views/transaction-classifier.tsx:86 | `join`: empty for no parts, the part itself for one part, otherwise it starts with the first part |
| Text.JoinPartAt | src/components/views/transaction-classifier.tsx:86 | every part stands in the joined text at its offset, the earlier parts each followed by the separator |
| Text.JoinSepAt | src/components/views/transaction-classifier.tsx:86 | every part but the last is followed by the separator, and the next part starts right after it |
| Text.JoinLength | src/components/views/transaction-classifier.tsx:86 | the joined text ends with its last part |
| Text.JoinAround | src/components/views/transaction-classifier.tsx:86 | for a joined text: part i at its offset, the separator and the next part after it unless it is the last, the last part at the end |
| Wrappers.OrZero | src/components/views/ingredients.tsx:91-92 | `parseFloat(x) \|\| 0`: the parsed number, or 0 when it is `NaN` |
| DateOrder.Insert | src/hooks/use-app-state.ts:523-525 | inserting a record after every record dated on or before it adds one element, brings in nothing new and keeps a date-sorted list sorted |
| DateOrder.InsertPermutes | src/hooks/use-app-state.ts:523-525 | the insertion adds exactly the new record to the multiset of records |
| DateOrder.SortByDate | src/hooks/use-app-state.ts:523-525 | the stable sort by date is a permutation of its input and is sorted by date |
| DateOrder.LastAtOrBefore | src/hooks/use-app-state.ts:530-537 | the last record dated on or before the target exists iff some record is; when found it is one of the records and is dated on or before the target |
| DateOrder.LatestAsOfIndex | src/hooks/use-app-state.ts:520-544 | insertion-order reference for the as-of choice: -1 iff every record is later than the target; otherwise that record is on or before the target, no qualifying record is dated later, and every later-inserted qualifying record is dated strictly earlier (the later insertion wins ties) |
| DateOrder.EarliestIndex | src/hooks/use-app-state.ts:539-541 | insertion-order reference for the fallback: -1 iff there are no records; otherwise the earliest-dated record, every earlier insertion being dated strictly later |
| DateOrder.AsOfOrEarliest | src/hooks/use-app-state.ts:520-544 | none iff there are no records; the pick is one of the records; when some record is on or before the target, the pick is on or before it and no qualifying record is later; otherwise the pick is an earliest-dated record |
| DateOrder.LastAtOrBeforeInsert | src/hooks/use-app-state.ts:523-537 | walking a sorted list with one record inserted equals one more step of the insertion-order choice on the walk without it |
| DateOrder.LastOfSortedIsLatestAsOf | src/hooks/use-app-state.ts:523-537 | the walk over the stably sorted records finds exactly the insertion-order as-of record |
| DateOrder.FirstOfInsert | src/hooks/use-app-state.ts:539-541 | the head of a sorted list after insertion is the new record iff it is dated strictly before the old head |
| DateOrder.FirstOfSortedIsEarliest | src/hooks/use-app-state.ts:539-541 | the first of the stably sorted records is the earliest-dated, first-inserted record |
| DateOrder.LastAtOrBeforeStops | src/hooks/use-app-state.ts:535 | on sorted records, stopping at the first record later than the target loses nothing: the last qualifying record lies before it |
| Costing.ActiveStrawberryBatch | src/hooks/use-app-state.ts:515-518 | none iff there are no strawberry batches; otherwise the last batch recorded |
| Costing.StrawberryBatchForDate | src/hooks/use-app-state.ts:520-544 | the sort-and-walk returns none for no batches, else the latest batch on or before the sale date, the later insertion winning ties, else the earliest batch (via DateOrder.AsOfOrEarliest) |
| Costing.WalkStrawberryBatches | src/hooks/use-app-state.ts:527-537 | the loop with its early break over date-sorted batches ends holding the last batch on or before the sale date, none when there is none |
| Costing.CostRatio | src/hooks/use-app-state.ts:546-573 | a guarded division: times a positive quantity it gives back the cost; 0 when the quantity is not positive; never negative for a non-negative cost |
| Costing.BatchesOf | src/hooks/use-app-state.ts:547 | the filter keeps exactly the batches of the given ingredient |
| Costing.IngredientBatchForDate | src/hooks/use-app-state.ts:555-567 | the dated lookup starting from the earliest sorted batch settles on the as-of batch, or the earliest when none qualifies |
| Costing.WalkToDate | src/hooks/use-app-state.ts:559-567 | the walk keeps the first sorted batch when none is on or before the date, else ends on the last one that is |
| Costing.IngredientCostPerUnit | src/hooks/use-app-state.ts:546-573 | the hook's unit-cost lookup computes the unit-cost function of the state (its cases are Costing.UnitCostCases) |
| Costing.UnitCostCases | src/hooks/use-app-state.ts:546-573 | unknown ingredient without batches: 0; known without batches: the default bulk ratio; with batches: the ratio of one of that ingredient's batches, the last inserted when no date is given |
| Costing.DatedUnitCostIsAsOfBatch | src/hooks/use-app-state.ts:554-569 | a dated lookup uses a batch of that ingredient dated on or before the date with no qualifying batch later; when all are later, an earliest one |
| Costing.UnitCostNonNegative | src/hooks/use-app-state.ts:546-573 | with non-negative bulk costs every unit cost is at least 0 |
| Costing.CostPerCup | src/hooks/use-app-state.ts:575-597 | a manual-cost product costs its manual figure, 0 when unset; any other product costs its recipe priced with strawberries at the pricing batch's cost per strawberry and each other ingredient at its unit cost for the date |
| Costing.ManualCostIgnoresRecipe | src/hooks/use-app-state.ts:576-578 | two manual-cost products with the same manual figure cost the same whatever their recipes |
| Costing.NoBatchNoStrawberryCost | src/hooks/use-app-state.ts:580-583 | without strawberry batches a recipe is priced with strawberries at 0 a piece and the other unit costs as resolved for the date |
| Costing.RecipeCostNonNegative | src/hooks/use-app-state.ts:590-596 | a recipe of non-negative amounts at non-negative unit costs costs at least 0 |
| Costing.CostPerCupNonNegative | src/hooks/use-app-state.ts:575-597 | with non-negative bulk costs, piece costs and recipe amounts, a computed cup cost is at least 0 |
| Usage.CalculateIngredientUsage | src/hooks/use-app-state.ts:599-625 | the accumulating loop over the sales ends with every usage field equal to its sum over all sales |
| Usage.AddSaleUsage | src/hooks/use-app-state.ts:609-622 | one step adds exactly what the sale consumes: nothing for a missing or manual-cost product, else quantity times each recipe amount, grams by the date's batch weight |
| Usage.UsageOfStep | src/hooks/use-app-state.ts:609-622 | the usage of one more sale is the previous usage plus that sale's consumption |
| Usage.UsageOrderIndependent | src/hooks/use-app-state.ts:609-622 | the usage does not depend on the order in which the sales were recorded |
| Usage.UsageAppend | src/hooks/use-app-state.ts:609-622 | the usage of two runs of sales is the fieldwise sum of their usages |
| Usage.SumSkipsNoRecipe | src/hooks/use-app-state.ts:611 | a per-sale figure that is 0 for sales without a recipe sums the same with those sales dropped |
| Usage.UsageSkipsNoRecipe | src/hooks/use-app-state.ts:610-611 | sales of missing or manual-cost products consume nothing: dropping them leaves the usage unchanged |
| Usage.GramsFromPieces | src/hooks/use-app-state.ts:613-617 | strawberry grams are the pieces times the average weight of the batch for the sale date, 20 g each when there are no batches |
| Inventory.UsedOf | src/hooks/use-app-state.ts:660-675 | the usage figure of an ingredient no recipe field names is 0 |
| Inventory.StrawberryRow | src/hooks/use-app-state.ts:631-659 | the strawberry row is in grams; purchased is the strawberry batches' total weight, cost their total cost, wasted the strawberry waste entries' total; its usage is the strawberry grams, and its remainder is the manual figure when one is recorded, else purchased − used − wasted |
| Inventory.IngredientRow | src/hooks/use-app-state.ts:667-700 | a row carries the ingredient's id, name and unit, the quantity and cost summed over that ingredient's batches, the quantity summed over its waste entries, and its usage figure; its remainder is the manual figure when recorded, else purchased − used − wasted |
| Inventory.RowsOf | src/hooks/use-app-state.ts:667-700 | one row per entry |
| Inventory.CalculateInventory | src/hooks/use-app-state.ts:627-703 | the builder computes the usage of all sales and returns the inventory projection for it |
| Inventory.BuildInventory | src/hooks/use-app-state.ts:649-700 | the pushes yield the strawberry row followed by one row per non-strawberry ingredient, in insertion order |
| Inventory.InventoryStep | src/hooks/use-app-state.ts:667-668 | visiting one more ingredient adds its row when it is not strawberry and nothing when it is |
| Inventory.OtherEntriesStep | src/hooks/use-app-state.ts:668 | one more entry is kept iff its key is not strawberry |
| Inventory.RowsOfAt | src/hooks/use-app-state.ts:690 | row i belongs to entry i |
| Inventory.RowsOfSnoc | src/hooks/use-app-state.ts:689 | rows of one more entry are the old rows plus its row |
| Inventory.OtherEntriesSpec | src/hooks/use-app-state.ts:667-668 | the kept entries are exactly the ingredient entries other than strawberry, and unique keys stay unique |
| Inventory.OtherEntriesSound | src/hooks/use-app-state.ts:668 | every kept entry is an ingredient entry and is not strawberry |
| Inventory.OtherEntriesComplete | src/hooks/use-app-state.ts:667-668 | every non-strawberry ingredient entry is kept |
| Inventory.OtherEntriesUnique | src/hooks/use-app-state.ts:667-668 | with unique ingredient ids the kept entries have unique ids |
| Inventory.UniqueSnoc | src/hooks/use-app-state.ts:667-668 | adding an entry with a new key to entries with unique keys keeps them unique |
| Inventory.InventoryRowId | src/hooks/use-app-state.ts:649-700 | row i after the strawberry row belongs to the i-th non-strawberry ingredient |
| Inventory.InventoryRowsSound | src/hooks/use-app-state.ts:649-700 | the first row is the strawberry row and every later row is a non-strawberry ingredient's |
| Inventory.InventoryRowsComplete | src/hooks/use-app-state.ts:667-700 | every ingredient other than strawberry has a row after the first |
| Inventory.InventoryRowsDistinct | src/hooks/use-app-state.ts:649-700 | with unique ingredient ids no two rows share an ingredient id (the strawberry row included) |
| Inventory.RowCostPerUnit | src/hooks/use-app-state.ts:677-680 | a row's unit cost times its positive purchased quantity is its purchase cost; with nothing bought it is the default ratio |
| Inventory.StrawberryCostPerUnit | src/hooks/use-app-state.ts:640-642 | the strawberry unit cost is batch cost over batch grams, else the strawberry ingredient's default ratio, else 0 |
| Inventory.RemainingMayBeNegative | src/hooks/use-app-state.ts:682 | the remainder is not clamped: an ingredient used with nothing bought or wasted and no override shows minus its usage |
| Grouping.GroupSumsUnique | src/hooks/use-app-state.ts:742-747 | the checkout map never holds a key twice |
| Grouping.AddToGet | src/hooks/use-app-state.ts:745-746 | one `get`-then-`set` step grows the stepped group by the value (from 0 when new) and leaves every other group as it was |
| Grouping.AddToHasKey | src/hooks/use-app-state.ts:745-746 | after one step the groups are the old ones plus the stepped key |
| Grouping.AddToTotal | src/hooks/use-app-state.ts:745-746 | one step adds exactly the value to the total over the groups |
| Grouping.GroupSumsKeysSound | src/hooks/use-app-state.ts:742-747 | a group exists only for the key of some kept element |
| Grouping.GroupSumsKeysComplete | src/hooks/use-app-state.ts:742-747 | every kept element's key has a group |
| Grouping.GroupSumsGet | src/hooks/use-app-state.ts:742-747 | a group holds the sum of the values of exactly the kept elements with its key |
| Grouping.GroupSumsTotal | src/hooks/use-app-state.ts:742-747 | grouping neither creates nor loses value: the groups add up to the kept elements' total |
| DashboardStats.PosFees | src/hooks/use-app-state.ts:758-760 | the settings fee is the manual amount when manual fees are on, else the percentage of gross revenue |
| DashboardStats.RemainingToBreakeven | src/hooks/use-app-state.ts:772 | the shortfall is never negative, is 0 iff the net is not negative (exactly 0 included), and otherwise cancels the net |
| DashboardStats.FindRemaining | src/hooks/use-app-state.ts:776-780 | `find(...)?.remaining \|\| 0`: 0 when no row has the id, else the remainder of the first row that has it |
| DashboardStats.Assemble | src/hooks/use-app-state.ts:758-772 | gross, tips, rocky deduction and cups are the sale totals; the fees are the settings fee of gross and the automatic fees; variable cost sums the inventory rows' costs, fixed total the fixed costs, waste the waste entries; the net excluding Rocky Road takes its proportional share of the settings fee; the five remaining figures are the inventory lookups; total revenue is gross − settings fees − automatic fees − the rocky deduction; profit before fixed costs subtracts the variable cost; the net subtracts the fixed costs; the break-even shortfall is 0 iff the net is not negative and −net otherwise |
| DashboardStats.TotalsStep | src/hooks/use-app-state.ts:722-748 | the totals of one more sale are one step of the accumulation on the totals so far |
| DashboardStats.AccumulateSales | src/hooks/use-app-state.ts:722-748 | the `forEach` ends with gross, rocky-excluded, tips and rocky-deduction sums, the cup count and the checkout groups of all sales of existing products |
| DashboardStats.AddSale | src/hooks/use-app-state.ts:723-747 | a sale of a missing product changes nothing; otherwise it adds its revenue to gross, tips or rocky-excluded revenue as its product says, 50 per unit to the rocky deduction, its quantity to the cups, and a till sale's revenue to its checkout's group |
| DashboardStats.SumAutoPosFees | src/hooks/use-app-state.ts:752-755 | the loop over the checkout groups ends with the sum of 1 + 2.6% of each group's revenue |
| DashboardStats.CalculateDashboardStats | src/hooks/use-app-state.ts:705-809 | the hook's computation yields the dashboard figures of the state, whose arithmetic is DashboardStats.Assemble |
| DashboardStats.AutoFeesSplit | src/hooks/use-app-state.ts:752-755 | the automatic fees are 1 per checkout plus 2.6% of the grouped revenue |
| DashboardStats.PosGroupsUnique | src/hooks/use-app-state.ts:742-747 | each checkout appears once among the groups |
| DashboardStats.PosGroupsKeys | src/hooks/use-app-state.ts:742-747 | there is a group for a checkout iff some till sale of an existing product belongs to it, keyed by its transaction id or else its own id |
| DashboardStats.PosGroupsGet | src/hooks/use-app-state.ts:742-747 | a checkout's group holds the revenue of exactly its till sales of existing products |
| DashboardStats.AutoPosFeesFormula | src/hooks/use-app-state.ts:742-755 | each checkout pays its fee once: the automatic fees equal the number of checkouts plus 2.6% of the revenue of all counted till sales |
| DashboardStats.GrossSkipsMissingProducts | src/hooks/use-app-state.ts:723-728 | gross revenue is the revenue of the sales whose product exists, the others adding nothing |
| AppStore.DropId | src/hooks/use-app-state.ts:292 | the `filter` by id keeps no record with that id, never grows the list, and is the identity when no record has the id |
| AppStore.DropIdMembers | src/hooks/use-app-state.ts:292 | every kept record comes from the list, and every record with another id is kept |
| AppStore.DropIdAppend | src/hooks/use-app-state.ts:292 | dropping distributes over concatenation, so the kept records keep their order |
| AppStore.DropIdOnly | src/hooks/use-app-state.ts:292 | when one record alone carries the id, deleting removes exactly that record and keeps the rest in order |
| AppStore.DropIdStep | src/hooks/use-app-state.ts:292 | a last record with another id is kept at the end |
| AppStore.DropIdSum | src/hooks/use-app-state.ts:321 | a figure summed over the kept records is the full sum less the share of the records with the id |
| AppStore.UpdateWhere | src/hooks/use-app-state.ts:332-334 | the `map` by id keeps the length and replaces each record with the id by its update, every other record staying as it was |
| AppStore.UpdateWhereSingle | src/hooks/use-app-state.ts:332-334 | when exactly one record carries the id, the map replaces just that one |
| AppStore.PatchProduct | src/hooks/use-app-state.ts:218 | the spread of a partial product over the stored one keeps the id; an empty patch changes nothing; each set field (name, price, manual cost, manual switch and the five recipe amounts) wins and each unset field keeps its value |
| AppStore.PatchIngredient | src/hooks/use-app-state.ts:348 | the spread keeps the id; name, unit, default quantity and default cost come from the patch where set and are kept otherwise; an empty patch changes nothing |
| AppStore.PatchFixedCost | src/hooks/use-app-state.ts:333 | the spread keeps the id and takes the name and amount from the patch where set |
| AppStore.PatchStrawberryBatch | src/hooks/use-app-state.ts:461 | the spread keeps the id; name, date, weights, cost and average weight come from the patch where set and are kept otherwise; the derived costs are left for the recosting; an empty patch changes nothing |
| AppStore.DeriveCosts | src/hooks/use-app-state.ts:462-463 | the recomputed batch satisfies costPerGram = bulkCost / bulkWeightG (0 when the weight is not positive) and costPerStrawberry = costPerGram × average weight, and differs from the input in those two fields only |
| AppStore.DeriveCostsIdempotent | src/hooks/use-app-state.ts:462-463 | recomputing the costs of a batch that already carries them changes nothing |
| AppStore.NewSale | src/hooks/use-app-state.ts:264-272 | the stored sale keeps date, product, quantity and price; a missing source becomes manual; an empty checkout id is dropped, any other is kept |
| AppStore.NewSales | src/app/pos/page.tsx:92-99 | one stored sale per draft, the k-th draft getting the k-th fresh id |
| AppStore.NewSalesAppend | src/app/pos/page.tsx:92-99 | storing one more draft appends its sale |
| AppStore.NewStrawberryBatch | src/hooks/use-app-state.ts:423-433 | a new batch keeps every given field and carries the derived costs |
| AppStore.SetAdjustment | src/hooks/use-app-state.ts:822-845 | clearing removes the ingredient's figure, setting stores the given figure, and every other ingredient's figure is untouched |
| AppStore.AdjustmentDecidesRemaining | src/hooks/use-app-state.ts:822-845 | after setting a figure the inventory reports it as the remainder; after clearing it reports purchased − used − wasted; other ingredients report as before |
| AppStore.InvariantIgnoresSales | src/hooks/use-app-state.ts:274-293 | the state invariant does not depend on the sales log |
| AppStore.DefaultStateInvariant | src/hooks/use-app-state.ts:22-110 | the default state keys every product and ingredient under its own id, once, and its strawberry batches carry derived costs |
| AppStore.PutProductKeyed | src/hooks/use-app-state.ts:236-242 | storing a product under its own id keeps the product dictionary keyed |
| AppStore.RemoveProductKeyed | src/hooks/use-app-state.ts:250-253 | removing a key keeps the product dictionary keyed |
| AppStore.PutIngredientKeyed | src/hooks/use-app-state.ts:366-372 | storing an ingredient under its own id keeps the ingredient dictionary keyed |
| AppStore.RemoveIngredientKeyed | src/hooks/use-app-state.ts:380-383 | removing a key keeps the ingredient dictionary keyed |
| AppStore.InvariantRowsDistinct | src/hooks/use-app-state.ts:627-704 | in a state keeping the store invariant, no two inventory rows share an ingredient id |
| AppStore.InvariantPiecePrice | src/hooks/use-app-state.ts:580-583 | in a state keeping the store invariant, the strawberries of a cup are priced at the pricing batch's cost over its weight times its average strawberry weight |
| AppStore.UpdateStrawberryKeepsCosts | src/hooks/use-app-state.ts:456-471 | every batch the update touches keeps its id and carries freshly derived costs; every other batch is unchanged |
| AppStore.AddFixedCostTotal | src/hooks/use-app-state.ts:304-316 | adding a cost raises the fixed total by its amount |
| AppStore.DeleteFixedCostTotal | src/hooks/use-app-state.ts:318-327 | deleting an id takes exactly the amounts recorded under it off the fixed total |
| AppStore.UpdateFixedCostTotal | src/hooks/use-app-state.ts:329-340 | updating the one cost under an id moves the fixed total by the change of that amount |
| AppStore.Store.constructor | src/hooks/use-app-state.ts:93-113 | the store starts from the default state, which satisfies the invariant |
| AppStore.Store.UpdatePosFeePercent | src/hooks/use-app-state.ts:191-196 | sets the fee percentage and nothing else |
| AppStore.Store.UpdatePosFeeManual | src/hooks/use-app-state.ts:198-203 | sets the manual fee amount and nothing else |
| AppStore.Store.UpdateUseManualPosFee | src/hooks/use-app-state.ts:205-210 | sets the manual-fee switch and nothing else |
| AppStore.Store.UpdateProduct | src/hooks/use-app-state.ts:216-230 | the existing product is replaced in its place by the patched one; nothing else changes and the invariant is kept |
| AppStore.Store.AddProduct | src/hooks/use-app-state.ts:232-247 | the product is stored under the fresh id, which it carries; nothing else changes and the invariant is kept |
| AppStore.Store.DeleteProduct | src/hooks/use-app-state.ts:249-258 | the product key is removed; nothing else changes and the invariant is kept |
| AppStore.Store.AddSale | src/hooks/use-app-state.ts:264-287 | exactly one normalised sale is appended with the fresh id; nothing else changes |
| AppStore.Store.DeleteSale | src/hooks/use-app-state.ts:289-298 | the sales with the id are dropped, the rest kept in order; nothing else changes |
| AppStore.Store.AddFixedCost | src/hooks/use-app-state.ts:304-316 | one cost is appended with the fresh id; nothing else changes |
| AppStore.Store.DeleteFixedCost | src/hooks/use-app-state.ts:318-327 | the costs with the id are dropped, the rest kept in order; nothing else changes |
| AppStore.Store.UpdateFixedCost | src/hooks/use-app-state.ts:329-340 | only the costs with the id are patched; nothing else changes |
| AppStore.Store.UpdateIngredient | src/hooks/use-app-state.ts:346-360 | the existing ingredient is replaced in its place by the patched one; the invariant is kept |
| AppStore.Store.AddIngredient | src/hooks/use-app-state.ts:362-377 | the ingredient is stored under the fresh id; the invariant is kept |
| AppStore.Store.DeleteIngredient | src/hooks/use-app-state.ts:379-388 | the ingredient key is removed; the invariant is kept |
| AppStore.Store.AddIngredientBatch | src/hooks/use-app-state.ts:394-406 | one batch is appended with the fresh id; nothing else changes |
| AppStore.Store.DeleteIngredientBatch | src/hooks/use-app-state.ts:408-417 | the batches with the id are dropped, the rest kept in order |
| AppStore.Store.AddStrawberryBatch | src/hooks/use-app-state.ts:423-443 | one batch with derived costs is appended; the invariant is kept |
| AppStore.Store.DeleteStrawberryBatch | src/hooks/use-app-state.ts:445-454 | the batches with the id are dropped, the rest kept in order; the invariant is kept |
| AppStore.Store.UpdateStrawberryBatch | src/hooks/use-app-state.ts:456-471 | every batch with the id is patched and recosted, the others untouched; the invariant is kept |
| AppStore.Store.AddWasteEntry | src/hooks/use-app-state.ts:477-489 | one waste entry is appended with the fresh id; nothing else changes |
| AppStore.Store.DeleteWasteEntry | src/hooks/use-app-state.ts:491-500 | the waste entries with the id are dropped, the rest kept in order |
| AppStore.Store.ResetAllData | src/hooks/use-app-state.ts:506-509 | the store holds the default state again, which satisfies the invariant |
| AppStore.Store.Load | src/hooks/use-app-state.ts:507 | the store holds exactly the given state |
| AppStore.Store.UpdateManualInventory | src/hooks/use-app-state.ts:822-845 | the adjustment map is set or cleared for the one ingredient as in AppStore.SetAdjustment; nothing else changes |
| Classifier.FindCombinations | src/components/views/transaction-classifier.tsx:43-77 | the three nested loops and the final filter return exactly the search's list of combinations (its properties are the lemmas below) |
| Classifier.DubaiLoop | src/components/views/transaction-classifier.tsx:50-72 | the Dubai loop for one Rocky Road count appends that count's row of combinations |
| Classifier.StrawberryLoop | src/components/views/transaction-classifier.tsx:54-71 | the strawberry loop, with its two `continue`s, appends the column of combinations for one Rocky Road and Dubai count |
| Classifier.ColumnStep | src/components/views/transaction-classifier.tsx:58-70 | one more strawberry iteration pushes the combination whose cookie count makes up the rest, exactly when the rest is a non-negative multiple of 15 |
| Classifier.CellMembers | src/components/views/transaction-classifier.tsx:58-70 | a combination is pushed by one inner iteration iff it has those counts and makes up the amount |
| Classifier.ColumnMembers | src/components/views/transaction-classifier.tsx:57-71 | a combination is in a column iff it makes up the amount with that Rocky Road and Dubai count and fewer strawberries than iterations |
| Classifier.StrawberryInRange | src/components/views/transaction-classifier.tsx:55-57 | every combination of the amount has few enough strawberries for the loop bound to reach it |
| Classifier.DubaiInRange | src/components/views/transaction-classifier.tsx:51-53 | every combination of the amount has few enough Dubai for the loop bound to reach it |
| Classifier.RockyInRange | src/components/views/transaction-classifier.tsx:47-49 | every combination of the amount has few enough Rocky Road for the loop bound to reach it |
| Classifier.RowMembers | src/components/views/transaction-classifier.tsx:53-72 | a combination is in a row iff it makes up the amount with that Rocky Road count and fewer Dubai than iterations |
| Classifier.GridMembers | src/components/views/transaction-classifier.tsx:49-73 | a combination is pushed by the first r outer iterations iff it makes up the amount with fewer than r Rocky Road |
| Classifier.AppendOrdered | src/components/views/transaction-classifier.tsx:49-73 | two ordered runs, the first wholly before the second, concatenate into an ordered run |
| Classifier.BeforeTransitive | src/components/views/transaction-classifier.tsx:49-57 | the (Rocky Road, Dubai, strawberry) order is transitive |
| Classifier.ChainedLast | src/components/views/transaction-classifier.tsx:49-73 | in a run ordered pair by pair, every element comes before the last |
| Classifier.ChainedOrdered | src/components/views/transaction-classifier.tsx:49-73 | a run ordered pair by pair is ordered pairwise |
| Classifier.AppendChained | src/components/views/transaction-classifier.tsx:49-73 | two runs ordered pair by pair, the last of the first before the head of the second, concatenate into such a run |
| Classifier.GridRocky | src/components/views/transaction-classifier.tsx:49 | the first r outer iterations push only combinations with fewer than r Rocky Road |
| Classifier.RowRocky | src/components/views/transaction-classifier.tsx:53 | a row holds its Rocky Road count and fewer Dubai than its iterations |
| Classifier.ColumnDubai | src/components/views/transaction-classifier.tsx:57 | a column holds its Rocky Road and Dubai counts and fewer strawberries than its iterations |
| Classifier.ColumnJoin | src/components/views/transaction-classifier.tsx:57-71 | one more inner iteration's push comes after everything the column pushed before |
| Classifier.ColumnChained | src/components/views/transaction-classifier.tsx:57-71 | each column comes out in increasing strawberry order |
| Classifier.RowJoin | src/components/views/transaction-classifier.tsx:53-72 | one more Dubai iteration's column comes after everything the row pushed before |
| Classifier.RowChained | src/components/views/transaction-classifier.tsx:53-72 | each row comes out in (Dubai, strawberry) order |
| Classifier.GridJoin | src/components/views/transaction-classifier.tsx:49-73 | one more Rocky Road iteration's row comes after everything pushed before |
| Classifier.GridChained | src/components/views/transaction-classifier.tsx:49-73 | the outer loop pushes in (Rocky Road, Dubai, strawberry) order, pair by pair |
| Classifier.GridOrdered | src/components/views/transaction-classifier.tsx:49-73 | everything the loops push is strictly ordered by (Rocky Road, Dubai, strawberry) |
| Classifier.FilterOrdered | src/components/views/transaction-classifier.tsx:76 | dropping the empty combination keeps the order |
| Classifier.CombinationWorth | src/components/views/transaction-classifier.tsx:47-76 | the combination at any index of the result makes up the amount |
| Classifier.CombinationsSound | src/components/views/transaction-classifier.tsx:47-76 | every combination returned makes up the amount at 55/35/30/15 and holds at least one product |
| Classifier.CombinationsComplete | src/components/views/transaction-classifier.tsx:49-76 | every non-empty non-negative solution of 55 R + 35 D + 30 S + 15 C = amount is returned |
| Classifier.CombinationsOrdered | src/components/views/transaction-classifier.tsx:49-76 | the result is strictly ordered by (Rocky Road, Dubai, strawberry), so no combination appears twice |
| Classifier.NoCombinationsBelowCookiePrice | src/components/views/transaction-classifier.tsx:119-121 | no amount below 15 has a combination |
| Classifier.TotalsAppend | src/components/views/transaction-classifier.tsx:147-155 | the totals of two runs of transactions are the componentwise sum of their totals |
| Classifier.PlusZero | src/components/views/transaction-classifier.tsx:94 | adding the zero totals changes nothing |
| Classifier.PlusAssoc | src/components/views/transaction-classifier.tsx:149-154 | adding combinations componentwise is associative |
| Classifier.TotalsRemove | src/components/views/transaction-classifier.tsx:171-181 | the totals of the list without transaction i, plus its combination, are the totals of the whole list |
| Classifier.SplitAround | src/components/views/transaction-classifier.tsx:174 | a list is the part before index i, element i, and the part after |
| Classifier.TotalsSingle | src/components/views/transaction-classifier.tsx:149-154 | the totals of one transaction are its combination |
| Classifier.PlusSwap | src/components/views/transaction-classifier.tsx:176-179 | adding two combinations to the totals in either order gives the same totals |
| Classifier.PriceOr | src/components/views/transaction-classifier.tsx:255-258 | `price \|\| listPrice`: the stored price of an existing product priced other than 0, else the list price |
| Classifier.MissingProductsUseListPrices | src/components/views/transaction-classifier.tsx:255-258 | with the four products missing or priced at 0, the screen prices at 55, 30, 35 and 15 |
| Classifier.DeleteClassified | src/components/views/transaction-classifier.tsx:174 | deleting a transaction keeps every remaining combination equal in worth to its amount |
| Classifier.AmountIsWorthOfTotals | src/components/views/transaction-classifier.tsx:250 | when every combination makes up its transaction's amount, the total taken equals the worth of the totals |
| Classifier.BalancedAtListPrices | src/components/views/transaction-classifier.tsx:250-260 | for transactions classified by the search, the displayed difference at list prices is 0 |
| Classifier.DifferenceOfWorth | src/components/views/transaction-classifier.tsx:254-260 | the difference at list prices is 0 whenever the total taken equals the totals' worth |
| Classifier.ListPriceRevenue | src/components/views/transaction-classifier.tsx:254-258 | at 55/30/35/15 the expected revenue of a combination is its worth |
| Classifier.SalesDraftsShape | src/components/views/transaction-classifier.tsx:197-237 | at most four sales, each with a positive quantity, dated today, no source or checkout id, no product twice; none iff the totals are all zero |
| Classifier.BookingTotals | src/components/views/transaction-classifier.tsx:202-210 | one product's booking carries its whole total at its price, nothing for a zero total |
| Classifier.SalesDraftsUnits | src/components/views/transaction-classifier.tsx:197-237 | the sales booked carry every classified unit |
| Classifier.SalesDraftsRevenue | src/components/views/transaction-classifier.tsx:197-237 | the sales booked are worth exactly the expected revenue at the same prices |
| Classifier.RevenueOfFour | src/components/views/transaction-classifier.tsx:202-237 | the revenue of the four bookings in sequence is the sum of their revenues |
| Classifier.BookTotal | src/components/views/transaction-classifier.tsx:202-210 | a positive total is booked as one sale with the next fresh id and bumps the count; a zero total books nothing; only the store's sales change |
| Classifier.BookTotals | src/components/views/transaction-classifier.tsx:202-237 | the four bookings append exactly the drafts for Rocky Road, strawberry, Dubai and cookies, in that order |
| Classifier.TransactionClassifier.constructor | src/components/views/transaction-classifier.tsx:92-100 | the screen starts with no transactions, zero totals, empty fields and no pending choice |
| Classifier.TransactionClassifier.AddTransaction | src/components/views/transaction-classifier.tsx:141-160 | appends the transaction and adds its combination to the totals; the invariant is kept for a combination worth the amount |
| Classifier.TransactionClassifier.HandleAddTransaction | src/components/views/transaction-classifier.tsx:106-139 | an unreadable or non-positive amount sets the invalid-amount error; no combination sets the no-combination error with nothing added; one combination is added at once and clears the field; several go pending and nothing is added; the invariant is kept |
| Classifier.TransactionClassifier.SelectCombo | src/components/views/transaction-classifier.tsx:162-169 | without a pending choice or with an index out of range nothing changes; otherwise the chosen combination is added and choosing ends |
| Classifier.TransactionClassifier.HandleDeleteTransaction | src/components/views/transaction-classifier.tsx:171-184 | removes exactly the transaction at the index, keeps the rest in order, takes its combination off the totals and keeps the invariant |
| Classifier.TransactionClassifier.HandleClearAll | src/components/views/transaction-classifier.tsx:186-195 | empties the list, zeroes the totals and drops a pending choice; the invariant holds |
| Classifier.TransactionClassifier.HandleAddToSales | src/components/views/transaction-classifier.tsx:197-248 | appends one sale per product with a positive total at the current price, then empties the list and zeroes the totals |
| Classifier.ComboParts | src/components/views/transaction-classifier.tsx:80-85 | one part per non-zero count, in the order Rocky Road, Strawberry, Dubai Chocolate, Cookies: each non-zero count's part sits right after the parts of the non-zero counts ranked before it; empty iff all counts are 0 |
| Classifier.PartInjective | src/components/views/transaction-classifier.tsx:82-85 | two parts are equal only for the same count and the same label |
| Classifier.ComboPartsMembers | src/components/views/transaction-classifier.tsx:82-85 | each product's part is listed exactly when its count is not zero |
| Classifier.ComboToText | src/components/views/transaction-classifier.tsx:80-87 | "No products" exactly for the empty combination; otherwise the parts joined by ", " |
| Classifier.ComboTextLists | src/components/views/transaction-classifier.tsx:80-87 | the text of a non-empty combination has every part at its place, each followed by ", " up to the last, and ends with the last part |
| PosCart.SellableProducts | src/app/pos/page.tsx:36 | every product except the one with id `tips` is offered, and nothing else |
| PosCart.SellableAppend | src/app/pos/page.tsx:36 | the offer for two runs of entries is the first run's offer followed by the second's, so dictionary order is kept |
| PosCart.AddedToOrder | src/app/pos/page.tsx:38-58 | an unknown product leaves the order unchanged; an existing line gets one more unit and the other lines stay; otherwise one line is appended with one unit at the product's current price |
| PosCart.QtyUpdated | src/app/pos/page.tsx:60-70 | no line of the result is without units |
| PosCart.RemovedFromOrder | src/app/pos/page.tsx:72-74 | every line of the product goes, every other line stays, and an order without the product is unchanged |
| PosCart.OnlyLine | src/app/pos/page.tsx:38-74 | in a well-formed order a product's line is the only one with its id |
| PosCart.AddedToOrderWellFormed | src/app/pos/page.tsx:38-58 | adding keeps product ids unique and every quantity at least 1 |
| PosCart.AddedToOrderTotals | src/app/pos/page.tsx:44-49 | one more unit of a product in the order adds 1 to the item count and its unit price to the amount |
| PosCart.AmountStep | src/app/pos/page.tsx:80 | a line with delta more units is worth delta more unit prices |
| PosCart.AddedNewProductTotals | src/app/pos/page.tsx:51-56 | a new line adds 1 to the item count and the product's price to the amount |
| PosCart.QtyUpdatedLines | src/app/pos/page.tsx:60-70 | on a well-formed order the filter drops nothing: the length stays, the product's line takes qty + delta only when that is positive and is otherwise unchanged, and the order stays well formed |
| PosCart.FilterKeepsUpdatedLines | src/app/pos/page.tsx:62-68 | when every line holds a unit, the `filter` after the `map` removes nothing |
| PosCart.UpdatedLinesWellFormed | src/app/pos/page.tsx:62-67 | the `map` keeps product ids and quantities of at least 1 |
| PosCart.DecrementLastUnitKeepsLine | src/app/pos/page.tsx:64-65 | decrementing a single-unit line leaves the order exactly as it was |
| PosCart.QtyUpdatedNoOp | src/app/pos/page.tsx:64-65 | a step that would leave no unit changes nothing |
| PosCart.QtyUpdatedTotals | src/app/pos/page.tsx:60-70 | a step that applies moves the item count by delta and the amount by delta unit prices |
| PosCart.UpdatedLineAmount | src/app/pos/page.tsx:80 | changing one line's quantity by delta moves the amount by delta of its unit price |
| PosCart.QtyUpdatedOneLine | src/app/pos/page.tsx:60-70 | on a well-formed order the update touches only the product's line |
| PosCart.RemovedFromOrderExact | src/app/pos/page.tsx:72-74 | removing a product in the order takes out exactly its line, keeps the rest in order and well formed, and lowers item count and amount by that line's |
| PosCart.WithoutLineWellFormed | src/app/pos/page.tsx:72-74 | an order without one of its lines stays well formed |
| PosCart.RemovedFromOrderWellFormed | src/app/pos/page.tsx:72-74 | removing keeps the order well formed |
| PosCart.TotalItemsAtLeastLines | src/app/pos/page.tsx:81-84 | an order of lines with units has at least as many items as lines, and no items iff no lines |
| PosCart.OrderDrafts | src/app/pos/page.tsx:92-99 | one `addSale` argument per line, in order, with today's date and the line's product, quantity and price, and no source |
| PosCart.OrderDraftsTotals | src/app/pos/page.tsx:92-99 | the booked sales carry the order's item count and amount |
| PosCart.OrderSalesAreManual | src/app/pos/page.tsx:93-98 | the k-th booked sale has the k-th fresh id, is dated today, is stored as manual without a checkout id, and carries the line's product, quantity and price |
| PosCart.OrderDraftsPrefixStep | src/app/pos/page.tsx:92-99 | the drafts for one more line are those before plus that line's |
| PosCart.BookLines | src/app/pos/page.tsx:92-99 | the loop appends one sale per line in order and changes nothing else in the store |
| PosCart.BookedAll | src/app/pos/page.tsx:92-99 | after the last line the whole order is booked |
| PosCart.BookedNone | src/app/pos/page.tsx:92 | before the first line nothing is booked |
| PosCart.BookLine | src/app/pos/page.tsx:93-98 | one pass books line i with the i-th fresh id |
| PosCart.BookedStep | src/app/pos/page.tsx:92-99 | the sales for the first i + 1 lines are those for the first i, then line i's |
| PosCart.Cart.constructor | src/components/views/worker-pos.tsx:21 | the cart starts empty and well formed |
| PosCart.Cart.AddToOrder | src/components/views/worker-pos.tsx:30-50 | the order becomes the add result (PosCart.AddedToOrder) and stays well formed |
| PosCart.Cart.UpdateQty | src/components/views/worker-pos.tsx:52-62 | the order becomes the update result (PosCart.QtyUpdated) and stays well formed |
| PosCart.Cart.RemoveFromOrder | src/components/views/worker-pos.tsx:64-66 | the order loses exactly the product's line and stays well formed |
| PosCart.Cart.ClearOrder | src/components/views/worker-pos.tsx:68-70 | the order becomes empty |
| PosCart.Cart.SubmitOrder | src/components/views/worker-pos.tsx:75-98 | an empty order books nothing and stays; otherwise one sale per line is appended in order and the order is cleared |
| SalesLog.NaNQuantityAccepted | src/components/views/sales-log.tsx:68-71 | the guard as written accepts a form whose quantity text `.5e1` (the number 5, within the field's `min`/`step`) parses to `NaN`, because `NaN <= 0` is false |
| SalesLog.AcceptedIsAsWrittenWithNumber | src/components/views/sales-log.tsx:68-71 | the corrected guard accepts a form iff the written guard does and the quantity parsed to a number |
| SalesLog.SubmittedSale | src/components/views/sales-log.tsx:64-82 | a sale is produced iff date, product, quantity text, a positive quantity and a numeric price are all present; it carries exactly those fields, no source and no checkout id |
| SalesLog.HandleSubmit | src/components/views/sales-log.tsx:64-91 | with the guard corrected as in ## Findings (a quantity that does not parse is refused): a refused form reports the fixed error message and leaves the store unchanged; an accepted one appends exactly one sale built from the form, and the store invariant is kept |
| SalesLog.SalesWithCalculations | src/components/views/sales-log.tsx:141-194 | one row per sale; row `k` is the `k`-th date-sorted sale with its revenue, cost, and running revenue and profit summed over the first `k + 1` sorted sales |
| SalesLog.AppendRow | src/components/views/sales-log.tsx:146-194 | appending the next sorted sale's row keeps every row equal to its specification |
| SalesLog.RowsAreSortedSales | src/components/views/sales-log.tsx:141-178 | the rows are in ascending date order, their sales are a permutation of the recorded sales, and each row's index is its 1-based position |
| SalesLog.RowBreakeven | src/components/views/sales-log.tsx:157-159 | a row breaks even iff its cumulative profit covers the fixed costs; then nothing remains, otherwise the fixed costs less the cumulative profit remain |
| SalesLog.RunningTotalsStep | src/components/views/sales-log.tsx:154-155 | each row's running revenue and profit exceed the previous row's by exactly this sale's revenue and profit |
| SalesLog.SummaryTotals | src/components/views/sales-log.tsx:143-155 | the last row's running totals (0 for an empty log) equal the revenue and profit summed over all sales in any order |
| SalesLog.BreakevenCardTotals | src/components/views/sales-log.tsx:476-525 | the card, rendered only once there is a sale, shows break-even reached iff the profit of all sales covers the fixed costs, and otherwise the fixed costs less that profit |
| SalesLog.MissingProductCountsFullRevenue | src/components/views/sales-log.tsx:147-152 | a sale of a product that no longer exists costs 0 per cup, its profit is its whole revenue, and the dashboard does not count it |
| SalesLog.RowGramsMatchUsage | src/components/views/sales-log.tsx:162-174 | the strawberry, chocolate and kunafa grams a row shows are exactly what the state hook's usage fold charges for that sale |
| SalesLog.GramsMatchUsage | src/components/views/sales-log.tsx:162-174 | for any sale, the logged grams equal the grams of the stock consumption of that sale |
| SalesLog.Reverse | src/components/views/sales-log.tsx:197 | the reversed list has the same length and element `k` is element `n - 1 - k` of the original |
| SalesLog.DisplayNewestFirst | src/components/views/sales-log.tsx:196-197 | reversing date-ascending rows lists them in descending date order |
| DashboardOverview.SaleCost | src/components/dashboard/dashboard-overview.tsx:29-33 | a sale of a product that no longer exists adds no cost to the strawberry figures |
| DashboardOverview.AverageProfit | src/components/dashboard/dashboard-overview.tsx:34-35 | 0 when no strawberry cup was sold; otherwise the average times the cups sold is exactly revenue less cost |
| DashboardOverview.OtherSalesIgnored | src/components/dashboard/dashboard-overview.tsx:25-26 | a sale of a product other than the plain and kunafa cups leaves cups, revenue and cost unchanged |
| DashboardOverview.StrawberrySaleCounted | src/components/dashboard/dashboard-overview.tsx:26-33 | a strawberry-cup sale adds exactly its quantity, its revenue and its cost at its date |
| DashboardOverview.Ceil | src/components/dashboard/dashboard-overview.tsx:207 | `Math.ceil`: the least integer not below its argument |
| DashboardOverview.CupsToBreakeven | src/components/dashboard/dashboard-overview.tsx:205-207 | an estimate exists iff something remains and the average profit is positive; it is the fewest cups (at least 1) whose average profit covers what remains |
| DashboardOverview.NoEstimateWhenBrokenEven | src/components/dashboard/dashboard-overview.tsx:202-207 | once the net result is not negative, no cups-to-go estimate is shown |
| DashboardOverview.TotalCostsSeparateRevenueFromNet | src/components/dashboard/dashboard-overview.tsx:170-172 | the total costs card (fixed plus variable) equals net revenue less the net result |
| DashboardOverview.ProductEntries | src/components/dashboard/dashboard-overview.tsx:85-94 | one entry per product, in order, each with the product's units sold and their value at its current price |
| DashboardOverview.SalesByProduct | src/components/dashboard/dashboard-overview.tsx:85-95 | every entry is some product's entry with units sold; every product with units sold has its entry |
| DashboardOverview.ChartRevenueAtCurrentPrice | src/components/dashboard/dashboard-overview.tsx:93 | the chart values units at today's price: two cups booked at 25 chart as 60 at a price of 30, though they brought in 50 |
| DashboardOverview.FindDay | src/components/dashboard/dashboard-overview.tsx:100 | `find`: -1 iff no entry has the date, otherwise the first entry with that date |
| DashboardOverview.AddToDayFind | src/components/dashboard/dashboard-overview.tsx:100-112 | one reduce step leaves other days where and as they were, adds the sale to its day, or opens that day at the end |
| DashboardOverview.SalesOverTime | src/components/dashboard/dashboard-overview.tsx:97-115 | the loop builds precisely the daily reduce of the sales, then sorts it by date |
| DashboardOverview.DailyTotalsDistinct | src/components/dashboard/dashboard-overview.tsx:100-112 | the reduce never opens the same day twice |
| DashboardOverview.DailyTotalsDays | src/components/dashboard/dashboard-overview.tsx:97-112 | a day has an entry iff some sale is on that day |
| DashboardOverview.DailyTotalsOff | src/components/dashboard/dashboard-overview.tsx:97-112 | a day without an entry has no revenue and no units among the sales |
| DashboardOverview.DailyTotalsEntry | src/components/dashboard/dashboard-overview.tsx:97-112 | each day's entry holds exactly the revenue and units of the sales on that day |
| DashboardOverview.AddToDayRevenue | src/components/dashboard/dashboard-overview.tsx:101-111 | one reduce step adds exactly the sale's revenue to the days' total revenue |
| DashboardOverview.AddToDayUnits | src/components/dashboard/dashboard-overview.tsx:105-110 | one reduce step adds exactly the sale's units to the days' total units |
| DashboardOverview.DailyRevenueTotal | src/components/dashboard/dashboard-overview.tsx:97-114 | the days together carry the revenue of all sales |
| DashboardOverview.DailyUnitsTotal | src/components/dashboard/dashboard-overview.tsx:97-114 | the days together carry the units of all sales |
| DashboardOverview.SalesOverTimeShape | src/components/dashboard/dashboard-overview.tsx:97-115 | the chart's days are strictly increasing in date and carry all revenue and all units |
| DashboardOverview.DistinctAfterPermutation | src/components/dashboard/dashboard-overview.tsx:115 | sorting the days cannot make two of them share a date |
| DashboardOverview.Status | src/components/dashboard/dashboard-overview.tsx:511-525 | red iff stock is negative; amber iff stock is positive and under a fifth of what was bought; green otherwise |
| DashboardOverview.FlagsExclusive | src/components/dashboard/dashboard-overview.tsx:511-522 | the two warnings never show together, and a low warning implies some stock was bought |
| WasteTracking.WasteReason | src/components/views/waste-tracking.tsx:83 | the stored reason is never empty: the trimmed text, or "Spoiled/Expired" when the text is blank |
| WasteTracking.WasteUnitCost | src/components/views/waste-tracking.tsx:68-73 | strawberries cost the active (last) batch's cost per gram, 0 without a batch; any other ingredient its current unit cost |
| WasteTracking.SubmittedWaste | src/components/views/waste-tracking.tsx:65-85 | an entry is produced iff an ingredient is chosen and the quantity is a positive number; it carries the form's date, ingredient and quantity, the defaulted reason and quantity times unit cost |
| WasteTracking.IngredientWasteCostNonNegative | src/components/views/waste-tracking.tsx:72-84 | with non-negative bulk costs, a non-strawberry waste entry is never priced below zero |
| WasteTracking.HandleSubmit | src/components/views/waste-tracking.tsx:63-85 | a refused form leaves the store unchanged; an accepted one appends exactly the priced entry, and the store invariant is kept |
| WasteTracking.TotalWasteCostAppend | src/components/views/waste-tracking.tsx:133 | recording an entry raises the total waste cost by exactly its estimated cost |
| WasteTracking.TotalWasteCostDelete | src/components/views/waste-tracking.tsx:133 | deleting an entry with a unique id lowers the total waste cost by exactly its estimated cost |
| WasteTracking.AccumulateWaste | src/components/views/waste-tracking.tsx:137-143 | the in-place step (open the group at zero, then add) is one step of the grouping reduce |
| WasteTracking.WasteByIngredient | src/components/views/waste-tracking.tsx:136-144 | the loop builds precisely the grouping of all entries |
| WasteTracking.WasteGroupsUnique | src/components/views/waste-tracking.tsx:136-144 | no ingredient has two groups |
| WasteTracking.HasKeyAfterAddWaste | src/components/views/waste-tracking.tsx:138-140 | one step opens the entry's ingredient group and no other |
| WasteTracking.WasteGroupsKeys | src/components/views/waste-tracking.tsx:136-144 | there is a group for an ingredient iff some entry is for that ingredient |
| WasteTracking.GetAfterAddWaste | src/components/views/waste-tracking.tsx:137-143 | one step adds the entry's quantity and cost to its own group and leaves every other group alone |
| WasteTracking.WasteGroupsGet | src/components/views/waste-tracking.tsx:136-144 | each ingredient's group holds the quantities and costs summed over exactly its entries |
| WasteTracking.SumAfterAddWaste | src/components/views/waste-tracking.tsx:141-142 | one step raises the groups' total cost by exactly the entry's cost |
| WasteTracking.WasteGroupsTotal | src/components/views/waste-tracking.tsx:133-144 | the per-ingredient costs add up to the total waste cost |
| ProductsCosts.FeeValue | src/components/views/products-costs.tsx:70-71 | the stored fee is never negative: the parsed value when it is a number and at least 0, otherwise 0 |
| ProductsCosts.FeeValueIdempotent | src/components/views/products-costs.tsx:70-71 | normalising an already stored fee gives it back unchanged |
| ProductsCosts.SavePosFee | src/components/views/products-costs.tsx:69-75 | only the fee percentage changes, to the normalised value, and the store invariant is kept |
| ProductsCosts.SaveManualPosFee | src/components/views/products-costs.tsx:77-83 | only the manual fee amount changes, to the normalised value, and the store invariant is kept |
| ProductsCosts.EditPatch | src/components/views/products-costs.tsx:85-94 | no update iff a typed number does not parse; a toggle updates only the manual-cost flag, a number only its own column |
| ProductsCosts.NumberEditTouchesOneField | src/components/views/products-costs.tsx:89-91 | a numeric edit sets its one column and leaves every other column, the id, the name and the flag as they were |
| ProductsCosts.ToggleTouchesOnlyToggle | src/components/views/products-costs.tsx:86-87 | flipping the manual-cost flag changes the product in that flag alone |
| ProductsCosts.ToggleOnUsesManualCost | src/components/views/products-costs.tsx:86-87 | with the flag on, the cup costs its manual figure (0 when unset), whatever the recipe says |
| ProductsCosts.HandleProductChange | src/components/views/products-costs.tsx:85-94 | an unparsable number leaves the store unchanged; otherwise only that product is patched and the store invariant is kept |
| ProductsCosts.RecipeAmount | src/components/views/products-costs.tsx:112-116 | a recipe amount is 0 for a manual-cost product, otherwise the parsed amount with `NaN` as 0 |
| ProductsCosts.NewProduct | src/components/views/products-costs.tsx:103-117 | a product is built iff the trimmed name and the price are non-empty; it has the trimmed name, the price, the flag, the manual cost or 0, and zero recipe amounts for a manual-cost product |
| ProductsCosts.NewManualProductCost | src/components/views/products-costs.tsx:110-116 | a new manual-cost product costs exactly its manual figure at any date |
| ProductsCosts.HandleAddProduct | src/components/views/products-costs.tsx:103-117 | a refused form leaves the store unchanged; an accepted one adds exactly the built product under the new id, and the store invariant is kept |
| ProductsCosts.ProfitPerCup | src/components/views/products-costs.tsx:457-458 | profit plus today's cost per cup is the price |
| ProductsCosts.Margin | src/components/views/products-costs.tsx:459-461 | 0 when the price is not positive, otherwise the margin times the price is 100 times the profit |
| ProductsCosts.MarginBelowHundred | src/components/views/products-costs.tsx:457-461 | a free product has a 100% margin, any positive cost keeps it under 100%, and a cost at or above the price makes it non-positive |
| ProductsCosts.Badge | src/components/views/products-costs.tsx:572-578 | green iff the margin is at least 50, yellow iff between 25 and 50, red iff under 25 |
| ProductsCosts.DefaultProductsNotDeletable | src/components/views/products-costs.tsx:462 | none of the products the kiosk ships with gets a delete action |
| IngredientsView.NewIngredient | src/components/views/ingredients.tsx:84-93 | an ingredient is built iff the trimmed name is non-empty; it has that name, the chosen unit, and the parsed bulk quantity and cost with `NaN` as 0 |
| IngredientsView.HandleAddIngredient | src/components/views/ingredients.tsx:84-93 | a blank name leaves the store unchanged; otherwise exactly the built ingredient is added under the new id, and the store invariant is kept |
| IngredientsView.NewIngredientCostedAtDefault | src/components/views/ingredients.tsx:88-93 | until a batch of it is bought, a new ingredient costs its default bulk cost over its default bulk quantity on any date |
| IngredientsView.IngredientName | src/components/views/ingredients.tsx:116-119 | the ingredient's name, or empty text when the id is not an ingredient |
| IngredientsView.BatchName | src/components/views/ingredients.tsx:119 | the typed name, or "<ingredient name> - <date>" when none was typed |
| IngredientsView.NewBatch | src/components/views/ingredients.tsx:112-123 | a batch is built iff an ingredient is chosen and quantity and cost are given; it carries them, the date and the defaulted name, and no piece weight |
| IngredientsView.HandleAddBatch | src/components/views/ingredients.tsx:112-123 | a refused form leaves the store unchanged; an accepted one appends exactly the built batch, and the store invariant is kept |
| IngredientsView.BatchesOfAppend | src/components/views/ingredients.tsx:117-123 | a new batch joins the end of its own ingredient's batches and no other's |
| IngredientsView.NewBatchPricesUndated | src/components/views/ingredients.tsx:117-123 | after a purchase the ingredient's undated unit cost is that batch's cost over its quantity; other ingredients keep theirs |
| IngredientsView.StrawberryDraft | src/components/views/ingredients.tsx:142-157 | a batch is built iff weight, cost and average weight all parse; its weight in grams is 1000 times the weight in kg and its name defaults to "Batch - <date>" |
| IngredientsView.HandleAddStrawberryBatch | src/components/views/ingredients.tsx:142-157 | a refused form leaves the store unchanged; an accepted one appends exactly the built batch, and the store invariant is kept |
| IngredientsView.NewStrawberryBatchActive | src/components/views/ingredients.tsx:150-157 | the batch just added is the active one; with a positive weight its cost per gram times the grams is its cost, otherwise 0; a strawberry costs a gram times the average weight |
| IngredientsView.ActiveRowIsActiveBatch | src/components/views/ingredients.tsx:452 | with batches, exactly one row is marked active, and it is the batch the costing treats as active |
| IngredientsView.DisplayedCostIsChargedCost | src/components/views/ingredients.tsx:624 | the cost per unit the tables show is the one the costing charges: the newest batch's for an undated lookup, the default's for an ingredient never bought |
| IngredientsView.BuiltInsAreDefaults | src/components/views/ingredients.tsx:771 | the ingredients without a delete action are exactly the five the kiosk ships with |
| IngredientsView.CardStatus | src/components/views/ingredients.tsx:265-274 | red iff stock is negative; amber iff stock is not negative and under a fifth of what was bought; plain otherwise |
| IngredientsView.CardStatusAgreesWithDashboard | src/components/views/ingredients.tsx:265-266 | this page and the dashboard flag a row differently iff nothing is left of a positive purchase, which shows as low here and unflagged there |
| FixedCostsView.NewFixedCost | src/components/views/fixed-costs.tsx:45-54 | a cost is built iff the trimmed name is non-empty and the amount parses; it has the trimmed name and the amount |
| FixedCostsView.HandleSubmit | src/components/views/fixed-costs.tsx:45-62 | a refused form leaves the store unchanged; an accepted one appends exactly the built cost, and the store invariant is kept |
| FixedCostsView.TotalIsDashboardFixedTotal | src/components/views/fixed-costs.tsx:104 | the page's total is the fixed total the dashboard statistics subtract |
| FixedCostsView.SubmitRaisesTotal | src/components/views/fixed-costs.tsx:51-54 | an accepted form raises the total by exactly its amount |
| FixedCostsView.Percentage | src/components/views/fixed-costs.tsx:200-202 | 0 when the total is not positive, otherwise the share times the total is 100 times the amount |
| FixedCostsView.SharesScale | src/components/views/fixed-costs.tsx:199-202 | against a positive total, the rows' shares sum to 100 times their amounts over that total |
| FixedCostsView.SharesAddUpToHundred | src/components/views/fixed-costs.tsx:199-202 | with a positive total, the shares of all rows add up to 100% |
| FixedCostsView.MaxAmount | src/components/views/fixed-costs.tsx:336 | the maximum: no amount exceeds it and some cost has it |
| FixedCostsView.FindAmount | src/components/views/fixed-costs.tsx:339-341 | the first cost with the given amount, -1 iff none has it |
| FixedCostsView.LargestExpense | src/components/views/fixed-costs.tsx:333-345 | no card iff there are no costs; otherwise the largest amount and the name of the first cost that has it |
| FixedCostsView.StartEditing | src/components/views/fixed-costs.tsx:71-75 | exactly the chosen row is in edit mode, with its current name and amount loaded |
| FixedCostsView.CancelEdit | src/components/views/fixed-costs.tsx:98-102 | no row is in edit mode and both fields are cleared |
| FixedCostsView.SavePatch | src/components/views/fixed-costs.tsx:77-89 | an update exists iff the trimmed name is non-empty and the amount parses; it sets the trimmed name and the amount |
| FixedCostsView.SaveEdit | src/components/views/fixed-costs.tsx:77-96 | invalid input changes neither the store nor the edit state; a valid one updates only the costs under that id and ends edit mode, keeping the store invariant |
| FixedCostsView.SaveUntouchedEditKeepsCosts | src/components/views/fixed-costs.tsx:71-96 | saving right after starting to edit a cost with an already trimmed name leaves the list as it was |
| FixedCostsView.UpdateWithOwnFields | src/components/views/fixed-costs.tsx:86-89 | writing a cost's own name and amount back under its unique id changes no record |
| FixedCostsView.SaveEditMovesTotal | src/components/views/fixed-costs.tsx:86-89 | saving an edit of the one cost under an id moves the total by exactly the change of its amount |

## Left out

- Persistence is not modelled. This covers the hosted database adapter (`src/lib/database.ts`, `src/lib/supabase.ts`) and the local-storage load, merge and save in the state hook. The adapter drops a sale's checkout id when it writes a sale, and that loss is not modelled either. These are storage and network I/O.
- Asynchronous ordering is not modelled. The store's methods apply their change at once, so the optimistic writes and `await`s of the hook have no counterpart.
- Authentication, routing, theming, layout, charts, toasts and JSX rendering are left out. They are presentation and browser I/O.
- The sales log's rule that its summary cards are rendered only when there is at least one sale (`sortedSales.length > 0`) is not modelled. `SalesLog.BreakevenCardOf` also gives a figure for an empty log, which the page never shows.
- CSV export is left out because it is browser I/O.
- `toFixed`, `Intl.NumberFormat` and IEEE-754 rounding are left out. Amounts are exact reals and no rounding behaviour is stated.
- `ProductsCosts.Margin`, `FixedCostsView.Percentage`: these return the exact ratio. The `toFixed(1)` text the page shows, and then parses back for the badge, is not modelled.
- Date parsing, `new Date()` and `format` are library calls and are left out. Dates are day numbers, and "today" is a parameter.
- Id generation from `Date.now()` and `Math.random()` is nondeterministic. Fresh ids are parameters: a method that adds several sales takes one id per sale.
- `AppStore.Store.UpdateProduct`, `AppStore.Store.UpdateIngredient`, `ProductsCosts.HandleProductChange`: these require the id to be present. For a missing id the code would spread `undefined` into a partial record. No caller does that, since every edit comes from a listed row.
- `Classifier.TransactionClassifier.HandleDeleteTransaction`: this requires an index inside the list, because the code reads `transactions[index]` before filtering. The delete button of a listed row is the only caller.
- `FixedCostsView.StartEditing`: the amount field holds `cost.amount.toString()`, which `parseFloat` reads back. The model holds the parsed number directly and assumes that text round-trips.
- The products page's summary cards are not part of this model: highest price, best margin and average price (`src/components/views/products-costs.tsx:631-675`). They are display statistics outside the calculation engine.
- The sales log's cost preview for the selected product is not part of this model (`src/components/views/sales-log.tsx:199-203`). It is the cup cost already modelled, shown for the date chosen in the form.
- `SalesLog.HandleSubmit`, `FixedCostsView.HandleSubmit`, `WasteTracking.HandleSubmit`, `ProductsCosts.HandleAddProduct`, `IngredientsView.HandleAddIngredient`, `IngredientsView.HandleAddBatch` and `IngredientsView.HandleAddStrawberryBatch`: these take the form's fields as a parameter, so the clearing of the form fields after a successful submit (for example `src/components/views/sales-log.tsx:88-90`, `src/components/views/fixed-costs.tsx:60-61`) is not modelled. The fields are component state with no effect on the bookkeeping state.
- `Classifier.TransactionClassifier.HandleAddTransaction`: the classifier holds its `amount` field and clears it as the page does. The `parseInt` of that field, however, arrives as the `parsed` parameter and is not tied to the field's text.
- Whitespace for `trim()` is restricted to the ASCII spaces. JavaScript also strips Unicode spaces, and the model does not.

## Findings

| source | as written | input that shows it | evidently intended | confidence | as-written member | corrected member |
|---|---|---|---|---|---|---|
| src/components/views/sales-log.tsx:68-71 | the guard refuses a quantity only when `qtyNum <= 0`, and every comparison with `NaN` is false | quantity text `.5e1`, the number 5, which meets the field's `min="1" step="1"` constraints: `parseInt` gives `NaN`, the guard passes and a sale with quantity `NaN` is stored | only a positive whole quantity is accepted | not executed | SalesLog.NaNQuantityAccepted | SalesLog.SubmittedSale |
