# Roastery inventory and ledger engine, modelled in Dafny

This project models the engine of a coffee-roastery bookkeeping app. Every business action
takes a whole snapshot of the records and returns either a new snapshot or an error with no
snapshot at all. The snapshot holds:

- the green-bean warehouse;
- the roasting batches and the roasted inventory;
- the store inventory;
- the sales invoices and the purchase invoices;
- the ledger transactions;
- the assets and the settings.

The modelled actions are:

- purchase intake at a weighted-average cost, and its clamped reversal;
- creating, updating and deleting a purchase invoice (update and delete rebuild the
  warehouse from the invoices);
- roasting;
- transfer of whole roasted stock into the store;
- sales, with stock checks and revenue and cost-of-goods entries;
- blending;
- manual stock entry, and editing and deleting a store item;
- assets, expenses and bank accounts;
- the settings merge.

Two derived views are modelled as well:

- **The refresh.** Account balances are seeded from the initial capital and the banks'
  opening balances, then every ledger entry is posted. The refresh also computes the current
  balance and the next `INV-###` sales number, defaults missing collections and sorts four
  collections newest first.
- **The balance sheet (neraca).** It rolls up cash, bank balances, receivables, inventory,
  non-stock current assets and fixed assets at book value. An equity plug makes assets equal
  liabilities plus equity.

Modules:

| file | module | models |
|---|---|---|
| `definitions.dfy` | `Definitions` | the records of the snapshot, `Result`, the stock invariant "at rest" (value = stock × unit cost) |
| `seqs.dfy` | `Seqs` | sums over sequences, prefix test |
| `warehouse.dfy` | `Warehouse` | `applyItemsToWarehouse`, `revertItemsFromWarehouse`, the rebuild loop |
| `purchases.dfy` | `Purchases` | `createPurchase`, `createNewPurchase`, `updatePurchase`, `deletePurchase` |
| `roasting.dfy` | `Roasting` | `createRoastingBatch` |
| `store.dfy` | `Store` | arrival of stock into the store, `addManualStock`, `updateStoreItem`, `deleteStoreItem` |
| `transfer.dfy` | `Transfer` | `transferToStore` |
| `sales.dfy` | `Sales` | `createSale` |
| `blending.dfy` | `Blending` | `createBlend` |
| `ledger.dfy` | `Ledger` | `createAsset`, `createExpense`, `createBankAccount`, `saveSettings` |
| `accounts.dfy` | `Accounts` | the account-balance fold of `getRefreshedData` |
| `refresh.dfy` | `Refresh` | the rest of `getRefreshedData`: next ids, defaults, sorts |
| `balance_sheet.dfy` | `BalanceSheet` | the `neraca` computation |
| `flows.dfy` | `Flows` | how each action moves the derived balances and the balance sheet |

Source loops become methods with `while` loops, and each method is proved equal to a
specification function. Examples are `Warehouse.ApplyItemsToWarehouse`,
`Sales.CreateSale`, `Accounts.PostLedger` and `BalanceSheet.FixedAssetsValue`. The source
also has pure expressions built with spread, `map`, `filter` and `reduce`; these become
functions. The lemmas state what the source promises about those functions.

Time is a parameter. `now` is the `Date.now()` stamp that goes into generated ids, `today`
is the ISO date of "now", `stamp` is the refresh's timestamp, and `yearsHeld` maps an
acquisition date to the years elapsed.

### Behaviour kept as written

- **The rebuild forgets roasting.** Purchase update and delete rebuild the warehouse from
  the invoices alone (`src/lib/actions.ts:462-465`, `510-513`). Green beans already
  consumed by roasting therefore reappear. `Purchases.UpdateDeleteReflect` proves the
  rebuilt warehouse depends on the invoice list only, whatever the warehouse held before.
- **The roasting unit cost comes from the caller.** The roasted output is booked at the
  unit cost the caller passes in (`src/lib/actions.ts:153`). The form computes it at
  `src/components/sections/roasting-form.tsx:69-72`.
  - For any unit cost, `Roasting.ConsumeValue` and `Roasting.TakeInRoastValue` give the
    value change: the warehouse loses input × average cost, and the roasted inventory gains
    output × the given unit cost.
  - `Roasting.RoastingConservesValue` proves that no value is created or lost only when the
    caller passes the form's `Roasting.ClientHppPerKg`.
- **Sales post to `cash`.** The revenue and cost-of-goods entries always use account
  `cash` (`src/lib/actions.ts:300`, `328`). This is shown by `Sales.SalePostsToCash`. The
  cost-of-goods entry is a credit to cash, while the same cost also leaves the store
  inventory. So a sale changes the balance sheet's total assets by the invoice total less
  twice the cost of goods (`Flows.SaleAssetsChange`).

## Model

| member | source | states |
|---|---|---|
| Definitions.AverageCost | src/lib/actions.ts:53 | the weighted-average unit cost is value / stock when the stock is positive, and 0 otherwise |
| Definitions.AccumulateKeepsOk | src/lib/actions.ts:49-53 | adding q units at price p to a record at rest leaves a record at rest: new average × new stock = new value |
| Warehouse.FindBean | src/lib/actions.ts:42 | `findIndex` by bean name: the first index holding the name, None iff no record has it |
| Warehouse.Accumulate | src/lib/actions.ts:47-54 | an existing record gains the line's quantity and value; the average is recomputed; Last_Update becomes the date; id and name stay |
| Warehouse.ApplyItemsToWarehouse | src/lib/actions.ts:39-67 | the in-place loop equals the intake fold over the lines |
| Warehouse.IntakeLine | src/lib/actions.ts:41-65 | one pass of the loop equals `Intake`: the bean's record accumulates the line, else a new record is appended |
| Warehouse.Intake | src/lib/actions.ts:42-64 | definition of one purchase line's intake (no contract of its own): the first record of the bean accumulates the line, otherwise a new record is appended; `IntakeTotals`, `IntakeKeepsOk` and `RevertUndoesIntake` state its effect |
| Warehouse.NewBeanRecord | src/lib/actions.ts:55-64 | definition of the record for a bean not yet held (no contract of its own); `IntakeTotals` and `IntakeKeepsOk` state the stock and value it adds and that it is at rest |
| Warehouse.ApplyItems | src/lib/actions.ts:39-67 | definition of one invoice's lines taken in, in order (no contract of its own); `ApplyItemsToWarehouse`, `ApplyItemsTotals`, `ApplyItemsKeepsOk` and `ApplyItemsIgnoresIds` state the loop, the totals, rest and the role of the clock |
| Warehouse.IntakeKeepsOk | src/lib/actions.ts:41-65 | intake of a non-negative line keeps every warehouse record at rest |
| Warehouse.AccumulateOk | src/lib/actions.ts:47-54 | a record at rest that accumulates a non-negative line stays at rest |
| Warehouse.ApplyItemsKeepsOk | src/lib/actions.ts:39-67 | intake of a whole invoice keeps the warehouse at rest |
| Warehouse.IntakeTotals | src/lib/actions.ts:41-65 | one line adds exactly its quantity to the total stock and qty × price to the total value |
| Warehouse.ApplyItemsTotals | src/lib/actions.ts:39-67 | a whole invoice adds exactly its quantities and its total to the warehouse |
| Warehouse.Clamp | src/lib/actions.ts:31-32 | the reversal floors a figure at 0: the result is non-negative, and equals x when x is non-negative |
| Warehouse.Deduct | src/lib/actions.ts:24-33 | a reverted record: stock and value drop by the line, floored at 0; the average is recomputed; id, name and date stay |
| Warehouse.RevertItemsFromWarehouse | src/lib/actions.ts:19-37 | the in-place reversal loop equals the reversal fold; an unknown bean is skipped |
| Warehouse.Revert | src/lib/actions.ts:22-34 | definition of one line's reversal (no contract of its own): an unknown bean is skipped, otherwise the bean's first record is `Deduct`ed; `RevertUndoesIntake` and `RevertLeavesEmptyRecord` state when it undoes an intake |
| Warehouse.RevertItems | src/lib/actions.ts:19-37 | definition of an invoice's lines reverted in order (no contract of its own); `RevertItemsFromWarehouse` and `RevertItemsShape` state the loop and what the reversal keeps |
| Warehouse.RevertItemsShape | src/lib/actions.ts:19-37 | reverting keeps every record with its id, name and Last_Update, and leaves no negative stock or value where there was none |
| Warehouse.DeductUndoesAccumulate | src/lib/actions.ts:19-67 | reverting the line just bought restores a record at rest with positive stock, all but its Last_Update |
| Warehouse.RevertUndoesIntake | src/lib/actions.ts:19-67 | reverting a line just taken in restores the stock, value and average of a bean already held with positive stock |
| Warehouse.RevertLeavesEmptyRecord | src/lib/actions.ts:19-67 | for a bean not held before, revert after intake leaves an empty record behind: revert is not an inverse |
| Warehouse.AverageOfRestingRecord | src/lib/actions.ts:33 | a record at rest with positive stock has average value / stock |
| Warehouse.RebuildWarehouse | src/lib/actions.ts:462-465 | the rebuild loop equals the fold of intake over the invoices, starting from an empty warehouse |
| Warehouse.Rebuild | src/lib/actions.ts:462-465 | definition of the rebuilt warehouse (no contract of its own): intake of every invoice in list order, starting empty; `RebuildOk` and `RebuildIsDeterministic` state that it is at rest and that the clock only changes new records' ids |
| Warehouse.RebuildFrom | src/lib/actions.ts:462-465 | definition of intake invoice by invoice from a given start (no contract of its own); `RebuildFromKeepsOk`, `RebuildFromIgnoresIds` and `Purchases.RebuildFromAppend` state rest, the role of the clock and concatenation |
| Warehouse.RebuildOk | src/lib/actions.ts:462-465 | a rebuilt warehouse is at rest whatever it replaced |
| Warehouse.RebuildFromKeepsOk | src/lib/actions.ts:462-465 | a rebuild from a warehouse at rest over non-negative invoices stays at rest |
| Warehouse.FindBeanIgnoresIds | src/lib/actions.ts:42 | the search by name does not depend on the records' ids |
| Warehouse.IntakeIgnoresIds | src/lib/actions.ts:39-67 | the clock only reaches the ids of new records: intake commutes with forgetting ids |
| Warehouse.ApplyItemsIgnoresIds | src/lib/actions.ts:39-67 | the same for a whole invoice |
| Warehouse.RebuildFromIgnoresIds | src/lib/actions.ts:510-513 | the same for a rebuild from any start |
| Warehouse.RebuildIsDeterministic | src/lib/actions.ts:462-465 | two rebuilds of the same invoice list at different times agree, except for record ids |
| Warehouse.WithoutIds | src/lib/actions.ts:57 | forgetting ids keeps the length and every other field |
| Purchases.FindInvoice | src/lib/actions.ts:456 | `find` by id: the first invoice with the id, None iff none has it |
| Purchases.RemoveInvoice | src/lib/actions.ts:459 | `filter` by id: exactly the invoices with other ids remain |
| Purchases.ReplaceInvoice | src/lib/actions.ts:507 | `map`: every invoice with the id is replaced, the others stay, same length |
| Purchases.KeepUnreferenced | src/lib/actions.ts:470 | `filter` by reference: exactly the entries whose reference is not among the given numbers remain |
| Purchases.PurchaseCreated | src/lib/actions.ts:78-121 | one invoice (id, number, supplier, date, lines, payment source of the form, total Σ qty × price, status "Completed") and one credit entry dated the form's date (debit 0, credit the total, referencing the invoice number, on the payment source) are appended; the lines are taken into the warehouse; nothing else changes |
| Purchases.InvoiceOf | src/lib/actions.ts:84-95 | definition of the invoice a form describes (no contract of its own): number, supplier, date, lines and payment source from the form, total Σ qty × price, status "Completed"; `PurchaseCreated` states the fields of the appended invoice |
| Purchases.PurchaseEntry | src/lib/actions.ts:102-111 | definition of a purchase's ledger entry (no contract of its own): a credit of the invoice total on its payment source, referencing its number; `PurchaseCreated`, `UpdateLeavesOneEntry` and `Flows.PurchaseLowersPaymentSource` state its fields and its effect on the balance |
| Purchases.PurchaseDeleted | src/lib/actions.ts:451-480 | fails exactly when no invoice has the id; otherwise the invoice list is `RemoveInvoice` of it (order kept), the ledger is `KeepUnreferenced` of the entries referencing the number of the first invoice with the id, and the warehouse is rebuilt from the remaining invoices; nothing else changes |
| Purchases.PurchaseUpdated | src/lib/actions.ts:483-536 | fails with no id or an unknown id; otherwise every invoice with the id becomes the form's invoice (`ReplaceInvoice`, order kept), the entries referencing the old or the new number are dropped with the others kept in order and one fresh credit appended, and the warehouse is rebuilt; nothing else changes |
| Purchases.DeletePurchase | src/lib/actions.ts:451-480 | the method with the rebuild loop equals `PurchaseDeleted` |
| Purchases.UpdatePurchase | src/lib/actions.ts:483-536 | the method with the rebuild loop equals `PurchaseUpdated` |
| Purchases.CreatePurchase | src/lib/actions.ts:70-76 | a form with an invoice id updates, one without creates |
| Purchases.PurchaseSubmitted | src/lib/actions.ts:70-76 | definition of createPurchase's dispatch (no contract of its own); `CreatePurchase` states that a form with an invoice id updates and one without creates |
| Purchases.PurchaseTotal | src/lib/actions.ts:84 | definition of Total_Faktur, Σ qty × price (no contract of its own); `PurchaseCreated`, `CreateBooksTotal` and `Flows.PurchaseLowersPaymentSource` state that the invoice carries it, the warehouse gains it and the payment source is credited it |
| Purchases.CreateKeepsReflection | src/lib/actions.ts:97 | a warehouse equal to the rebuild of the invoices stays so after a new purchase (ids aside) |
| Purchases.UpdateDeleteReflect | src/lib/actions.ts:462-465 | after update or delete the warehouse is the rebuild of the new invoice list, whatever it held before |
| Purchases.CreateBooksTotal | src/lib/actions.ts:84-112 | a new purchase adds its total to the warehouse value and credits the same total to the payment source |
| Purchases.PurchasesKeepOk | src/lib/actions.ts:78-536 | create, update and delete keep the warehouse at rest for non-negative lines |
| Purchases.UpdateLeavesOneEntry | src/lib/actions.ts:518-526 | after an update the last entry is the fresh one, crediting the new total to the new payment source; no earlier entry references the new or the old number; every entry referencing neither is kept |
| Purchases.DeleteUndoesCreate | src/lib/actions.ts:78-121 | deleting an invoice just created under a fresh id restores the invoices and the ledger and, ids aside, a reflecting warehouse |
| Purchases.RemoveInvoiceAppend | src/lib/actions.ts:459 | the filter distributes over concatenation |
| Purchases.KeepUnreferencedAppend | src/lib/actions.ts:470 | the reference filter distributes over concatenation |
| Purchases.RebuildFromAppend | src/lib/actions.ts:462-465 | rebuilding from a ++ b is rebuilding from a, then continuing with b |
| Purchases.RemoveAppended | src/lib/actions.ts:459 | removing the id of an invoice just appended, when no earlier invoice has it, restores the list |
| Purchases.FindAppended | src/lib/actions.ts:456 | an invoice just appended under an id no earlier invoice has is the one found by that id |
| Purchases.KeepAppended | src/lib/actions.ts:470 | dropping the number of an entry just appended, when no earlier entry has it, restores the ledger |
| Roasting.ClientHppPerKg | src/components/sections/roasting-form.tsx:69-72 | the form's unit cost: Avg_HPP × input / output when the output is positive, else 0 |
| Roasting.FindRoastedProduct | src/lib/actions.ts:165 | `findIndex` by product name: first match, None iff absent |
| Roasting.FindRoastedId | src/lib/actions.ts:220 | `findIndex` by id: first match, None iff absent |
| Roasting.AccumulateRoast | src/lib/actions.ts:167-175 | a roasted item gains the output and output × unit cost in value; its unit cost becomes value / stock |
| Roasting.RoastingDone | src/lib/actions.ts:124-199 | fails iff the bean is unknown or holds less than the input; otherwise consumes from the bean, takes in the output, appends one batch, nothing else changes |
| Roasting.Consume | src/lib/actions.ts:159-161 | definition of the green-bean record after a roast (no contract of its own): stock less the input, value recomputed at the unchanged average; `ConsumeValue` and `ConsumeKeepsOk` state the value drop and that the warehouse stays at rest |
| Roasting.TakeInRoast | src/lib/actions.ts:164-186 | definition of the roasted inventory after a roast (no contract of its own): the first item of the product accumulates the output, otherwise a new item is appended; `TakeInRoastValue`, `TakeInRoastKeepsOk` and `RoastingTakesInOutput` state its effect |
| Roasting.BatchOf | src/lib/actions.ts:144-156 | definition of the batch record (no contract of its own): form fields, output input × yield / 100, selling price 0, status "Completed"; `RoastingDone` states that exactly this batch is appended |
| Roasting.OutputKg | src/lib/actions.ts:141-142 | definition of Output_Kg, input × yield / 100 (no contract of its own); `OutputNonNegative` and `RoastingTakesInOutput` state its sign and that it is what the roasted inventory gains |
| Roasting.NewRoastedItem | src/lib/actions.ts:176-185 | definition of the roasted item a first roast of a product creates (no contract of its own); `RoastingTakesInOutput` states its fields |
| Roasting.RoastingConsumesBeans | src/lib/actions.ts:130-161 | the bean's first record loses exactly the input, keeps its id and average, has value stock × average and Last_Update the batch date; no other record changes |
| Roasting.RoastingTakesInOutput | src/lib/actions.ts:142-191 | Output = input × yield / 100 goes into "<bean> - <profile>": an existing item keeps its id, category and sell price and accumulates it, otherwise exactly one item is appended |
| Roasting.RoastingParts | src/lib/actions.ts:130-191 | a roast that goes through had enough stock in the bean's first record; its warehouse is that record consumed and its roasted inventory is the output taken in |
| Roasting.ConsumeValue | src/lib/actions.ts:159-160 | consuming the input from a record at rest lowers the warehouse value by input × the record's average cost |
| Roasting.TakeInRoastValue | src/lib/actions.ts:164-186 | taking the output in raises the roasted value by output × the given unit cost, whether an item accumulates it or a new one is appended |
| Roasting.PartsConserveValue | src/lib/actions.ts:153-186 | with the form's unit cost and some output, consuming the input and taking the output in leave the value of the two inventories unchanged |
| Roasting.ConsumeKeepsOk | src/lib/actions.ts:137-161 | consuming no more than the record holds keeps the warehouse at rest |
| Roasting.OutputNonNegative | src/lib/actions.ts:142 | a non-negative input and yield give a non-negative output |
| Roasting.AccumulateRoastOk | src/lib/actions.ts:167-175 | a roasted item at rest stays at rest after a non-negative output at a non-negative unit cost |
| Roasting.TakeInRoastKeepsOk | src/lib/actions.ts:164-186 | taking in such an output keeps the roasted inventory at rest |
| Roasting.RoastingConservesValue | src/lib/actions.ts:153 | with the form's unit cost and some output, roasting neither creates nor loses value |
| Roasting.RoastingKeepsOk | src/lib/actions.ts:159-186 | roasting keeps both inventories at rest for a non-negative input, yield and unit cost |
| Store.FindProduct | src/lib/actions.ts:227 | `findIndex` by product name: first match, None iff absent |
| Store.FindStoreId | src/lib/actions.ts:571 | `find` by id: first match, None iff absent |
| Store.Receive | src/lib/actions.ts:232-239 | a store item gains quantity and value; its unit cost is recomputed; a positive sell price stays, else it becomes 1.5 × the arriving unit cost |
| Store.ReceiveKeepsOk | src/lib/actions.ts:232-239 | receiving stock at a non-negative unit cost keeps an item at rest |
| Store.ManualStockAdded | src/lib/actions.ts:342-377 | the first item of the name takes the entered stock, cost, price and category, with value stock × cost; otherwise one such item is appended |
| Store.ManualStockOverwrites | src/lib/actions.ts:354-369 | after a manual entry the product holds exactly the entered figures, whatever it held before |
| Store.FindProductAt | src/lib/actions.ts:357 | `findIndex` by name finds the first item carrying the name |
| Store.ManualStockKeepsOk | src/lib/actions.ts:354-369 | a non-negative entry keeps the store at rest |
| Store.StoreItemUpdated | src/lib/actions.ts:540-564 | every item with the id takes the new name, category and price; stock, cost, value and the other items stay |
| Store.StoreItemUpdateKeepsTotals | src/lib/actions.ts:546-556 | an edit changes neither the stock nor the value held in the store |
| Store.RemoveStoreItem | src/lib/actions.ts:575 | `filter` by id: exactly the items with other ids remain, and a list without the id is returned unchanged |
| Store.RemoveStoreItemAppend | src/lib/actions.ts:575 | the filter distributes over concatenation, so order and multiplicity of the kept items are those of the store |
| Store.StoreItemDeleted | src/lib/actions.ts:566-581 | fails iff no item has the id (not found) or the first one holds positive stock; otherwise the store is `RemoveStoreItem` of the id: every item with the id goes, the others stay in order |
| Store.RemoveKeepsTotals | src/lib/actions.ts:573-575 | deleting an empty item loses no stock, and no value when every matching item is empty and at rest |
| Transfer.Transferred | src/lib/actions.ts:203-262 | an empty selection fails; otherwise the selected items are moved one after another and only the two inventories change |
| Transfer.StoreAfter | src/lib/actions.ts:227-250 | definition of the store after one roasted item arrives (no contract of its own); `StoreAfterReceives`, `StoreAfterTotals` and `StoreAfterOk` state which item receives what, the totals and that the store stays at rest |
| Transfer.NewStoreItemFrom | src/lib/actions.ts:241-249 | definition of the store item a transfer creates (no contract of its own); `StoreAfterReceives` states its fields |
| Transfer.TransferOne | src/lib/actions.ts:220-253 | definition of one selected id's transfer (no contract of its own); `TransferMovesWholeStock` and `TransferOneConserves` state the skip rules, the emptied item and conservation |
| Transfer.TransferAll | src/lib/actions.ts:219-254 | definition of the whole selection moved in order (no contract of its own); `TransferAllConserves` states that quantity, and at rest value, are conserved |
| Transfer.TransferToStore | src/lib/actions.ts:219-254 | the in-place loop equals `Transferred` |
| Transfer.StoreAfterReceives | src/lib/actions.ts:227-250 | the store item of the product's name keeps its id and category, receives the whole stock at its unit cost, takes value / stock as its unit cost (0 without stock) and keeps a positive sell price (else 1.5 × unit cost); else a new one in the roasted item's category is appended; no other item changes |
| Transfer.TransferMovesWholeStock | src/lib/actions.ts:220-253 | an unknown id or an item without positive stock is skipped; otherwise the roasted item ends with stock and value 0 |
| Transfer.StoreAfterTotals | src/lib/actions.ts:232-250 | the store gains exactly the moved stock and value |
| Transfer.StoreAfterOk | src/lib/actions.ts:232-250 | the store stays at rest |
| Transfer.EmptiedTotals | src/lib/actions.ts:252-253 | emptying one roasted item lowers the roasted totals by its stock and value |
| Transfer.TransferOneConserves | src/lib/actions.ts:220-253 | one selection conserves quantity, conserves value for items at rest, keeps both inventories at rest |
| Transfer.TransferAllConserves | src/lib/actions.ts:219-254 | the whole transfer conserves quantity and, at rest, value |
| Sales.SaleMade | src/lib/actions.ts:265-338 | fails as the lines fail; otherwise appends the invoice, appends the sale's entries and leaves every store item as `AfterSaleAt` describes: the first item of each product the lines name is depleted by all their quantities, every other item is as it was; nothing else changes |
| Sales.SellAll | src/lib/actions.ts:304-317 | definition of the line-by-line sale with its running cost of goods (no contract of its own); `SellAllStore` and `SaleItemEffect` state each item's result, and `SaleMovesStock`, `SaleKeepsStoreOk` and `SaleSucceedsIffAvailable` state its totals, its cost and exactly when it fails |
| Sales.SellOne | src/lib/actions.ts:306-316 | definition of the sale of one line (no contract of its own); `SellOneRecord` states that the first record of the name loses the quantity at its unchanged unit cost with its value recomputed and that no other record changes, and `SellOneStock` and `SellOneValue` state the effect on the store's totals |
| Sales.SellOneRecord | src/lib/actions.ts:306-316 | the first record of the name loses the line's quantity, keeps its unit cost and every other field, and is valued at its new stock × that cost; the store keeps its length and every other record |
| Sales.Deplete | src/lib/actions.ts:313-316 | definition of a store record after a sale from it (no contract of its own); `DepleteValue` states its stock, unit cost and value |
| Sales.DepleteValue | src/lib/actions.ts:313-316 | a depleted record has its stock less the quantity, the same unit cost and value, and value = new stock × unit cost; no other field changes |
| Sales.DepleteTwice | src/lib/actions.ts:305-316 | two sales from one record are one sale of the two quantities together |
| Sales.NamesOf | src/lib/actions.ts:305-306 | definition of the set of product names the lines use (no contract of its own); `SaleItemEffect` uses it to tell the items a sale touches |
| Sales.QtyFor | src/lib/actions.ts:305-316 | Σ of the quantities of the lines naming a product; 0 for a product no line names |
| Sales.AfterSaleAt | src/lib/actions.ts:305-316 | definition of one store item after a whole sale (no contract of its own); `AfterSaleAtEffect`, `SellAllStore` and `SaleItemEffect` state that it is what the sale leaves |
| Sales.AfterSaleAtEffect | src/lib/actions.ts:305-316 | the first item of a product the lines name is depleted by all their quantities; an item whose product no line names, or that is not the first of its name, is unchanged; only stock and value ever change |
| Sales.AfterSaleCons | src/lib/actions.ts:305-316 | selling the first line from its product's first item, then the rest, leaves each item as the whole sale does |
| Sales.SellAllStore | src/lib/actions.ts:304-317 | a sale that goes through keeps the store's length and leaves every item as `AfterSaleAt` describes |
| Sales.SaleItemEffect | src/lib/actions.ts:304-317 | item by item: the first item of each product named loses the total quantity of the lines naming it, at its unchanged unit cost; every other item is unchanged |
| Sales.SaleTotal | src/lib/actions.ts:270 | definition of Total_Invoice, Σ qty × price (no contract of its own); `SalePostsToCash` and `Flows.SaleAssetsChange` state that the revenue entry debits it to cash and how it moves the assets |
| Sales.SaleInvoiceOf | src/lib/actions.ts:273-282 | definition of the invoice a sale appends (no contract of its own); `SaleMade` states that exactly it is appended |
| Sales.RevenueEntry | src/lib/actions.ts:291-301 | definition of the revenue entry (no contract of its own); `SalePostsToCash` states that it debits the invoice total to cash, references the invoice number and is made exactly when the sale is Paid or Lunas |
| Sales.CogsEntry | src/lib/actions.ts:318-330 | definition of the cost-of-goods entry (no contract of its own); `SalePostsToCash` states that it credits the cost to cash, references the invoice number and is made exactly when the cost is positive |
| Sales.SaleEntries | src/lib/actions.ts:291-330 | definition of the sale's ledger entries (no contract of its own); `SalePostsToCash` and `Flows.SaleEntriesFlow` state when each entry is made and how cash moves |
| Sales.CreateSale | src/lib/actions.ts:304-317 | the in-place loop with the running cost of goods equals `SaleMade` |
| Sales.FindProductSameName | src/lib/actions.ts:306 | replacing a record by one of the same name leaves every search by name unchanged |
| Sales.AvailableCons | src/lib/actions.ts:305-311 | availability of the lines splits into the first line and the rest |
| Sales.AvailableAfterDeplete | src/lib/actions.ts:315-316 | selling from one record keeps what is available to lines for other products |
| Sales.DistinctTail | src/lib/actions.ts:305 | distinct product names stay distinct in the tail |
| Sales.SaleSucceedsIffAvailable | src/lib/actions.ts:305-311 | with distinct products, a sale goes through iff every product is in the store with enough stock |
| Sales.CostAtDeplete | src/lib/actions.ts:313-314 | the cost of the other lines does not change when one record is sold from |
| Sales.SellLine | src/lib/actions.ts:306-316 | one pass of the loop equals the sale of one line `SellOne`: unknown product and short stock fail, otherwise the record is depleted and its cost added |
| Sales.SellAllStep | src/lib/actions.ts:305-317 | the rest of the sale from line i is line i followed by the lines after it |
| Sales.SellAllHead | src/lib/actions.ts:305-317 | a sale of at least one line is its first line followed by the rest |
| Sales.SellOneStock | src/lib/actions.ts:313-316 | one line lowers the store's stock by its quantity, adds its cost at the item's unit cost, and changes the cost of no later line |
| Sales.SellOneValue | src/lib/actions.ts:313-316 | from a store at rest one line lowers the store's value by its cost and leaves it at rest |
| Sales.SaleMovesStock | src/lib/actions.ts:304-317 | the store's total stock falls by exactly the sum of the lines' quantities (each item's share is stated by `SaleItemEffect`), and the cost of goods is the lines' cost at the unit costs of the items they name |
| Sales.SaleKeepsStoreOk | src/lib/actions.ts:304-317 | from a store at rest, a sale lowers its value by exactly the cost of goods and leaves it at rest |
| Sales.SellBoundary | src/lib/actions.ts:311 | selling exactly the stock leaves it at 0; asking for more fails |
| Sales.SellWholeStock | src/lib/actions.ts:311-316 | selling exactly the stock goes through and leaves stock and value 0 |
| Sales.SellBeyondStock | src/lib/actions.ts:311 | asking for more than the stock fails with the short-stock error |
| Sales.SalePostsToCash | src/lib/actions.ts:291-330 | a revenue debit of the total only when Paid or Lunas, a credit of the cost only when it is positive, both on "cash" and referencing the invoice number |
| Blending.NeedTotalIsShare | src/lib/actions.ts:657-671 | the components' needs add up to totalQty × Σ% / 100; with a total that rounds to 100 this is within half a percent of totalQty |
| Blending.BlendHpp | src/lib/actions.ts:685 | the blend's unit cost is cost / totalQty for a positive quantity, else 0 |
| Blending.Blended | src/lib/actions.ts:642-716 | fails on no name, qty ≤ 0 or no component, on a total not rounding to 100, on an unknown or short component; otherwise every roasted record is as `AfterDrawAt` describes, the store has the blend at `DrawCostOf` / totalQty per kg, one zero entry is appended, and nothing else changes |
| Blending.DrawAll | src/lib/actions.ts:669-683 | definition of the components drawn in order with the running cost (no contract of its own); `DrawAllRoasted` states each record's result, `DrawAllCost` the cost, and `DrawAllStock`, `DrawAllValue` and `DrawAllCostGrows` the totals |
| Blending.DrawOne | src/lib/actions.ts:671-682 | definition of the draw of one component (no contract of its own); `DrawOneRecord` states which record loses what and the cost added; `DrawOneStock`, `DrawOneValue` and `DrawOneCost` state the totals |
| Blending.DrawOneRecord | src/lib/actions.ts:671-682 | one component: the first record of its id had enough stock and loses the need at its unchanged unit cost, its value recomputed and its other fields kept; the cost grows by need × unit cost; no other record changes |
| Blending.Need | src/lib/actions.ts:671 | definition of a component's need, totalQty × percentage / 100 (no contract of its own); `DrawOneRecord`, `DrawOneStock` and `NeedTotalIsShare` state what is drawn and how the needs add up |
| Blending.RoundsTo100 | src/lib/actions.ts:657-658 | definition of `Math.round(total) === 100` on reals (no contract of its own); `Blended` states that a total outside it fails with that total |
| Blending.Draw | src/lib/actions.ts:679-680 | definition of a roasted record after a draw (no contract of its own); `DrawItem` states its stock, unit cost and value |
| Blending.DrawItem | src/lib/actions.ts:679-680 | a drawn record has its stock less the quantity, the same unit cost, value = new stock × unit cost; no other field changes |
| Blending.DrawTwice | src/lib/actions.ts:670-682 | two draws from one record are one draw of both quantities |
| Blending.IdsOf | src/lib/actions.ts:670-672 | definition of the set of ids the components name (no contract of its own); `BlendQuantities` uses it to tell the records a blend touches |
| Blending.NeedFor | src/lib/actions.ts:670-680 | Σ of the needs of the components naming an id; 0 for an id no component names |
| Blending.AfterDrawAt | src/lib/actions.ts:670-682 | definition of one roasted record after all the draws (no contract of its own); `DrawAllRoasted` states that it is what the draws leave |
| Blending.DrawCostOf | src/lib/actions.ts:669-682 | definition of Σ need × unit cost over the components at the records before the blend (no contract of its own); `DrawAllCost` states that it is the cost the draws add |
| Blending.FindRoastedIdSameId | src/lib/actions.ts:672 | replacing a record by one with the same id leaves every search by id unchanged |
| Blending.AfterDrawCons | src/lib/actions.ts:670-682 | drawing the first component from its record, then the rest, leaves each record as the whole draw does |
| Blending.DrawAllRoasted | src/lib/actions.ts:669-683 | draws that go through keep the inventory's length and leave each roasted record as `AfterDrawAt` describes: the first record of each id named loses all those components' needs at its unit cost, every other record is unchanged |
| Blending.DrawCostOfDraw | src/lib/actions.ts:679-681 | a draw keeps every id and unit cost, so the cost later components add is unchanged |
| Blending.DrawAllCost | src/lib/actions.ts:669-683 | the cost the draws add is exactly Σ need × unit cost over the components, at the unit costs before the blend |
| Blending.BlendIntoStore | src/lib/actions.ts:686-703 | definition of the store after the blend arrives (no contract of its own); `BlendIntoStoreStock`, `BlendIntoStoreValue` and `BlendIntoStoreOk` state its totals and that the store stays at rest |
| Blending.BlendEntry | src/lib/actions.ts:705-709 | definition of the blend's ledger entry (no contract of its own): debit 0, credit 0 on "cash"; `Flows.BlendKeepsBalances` states that it moves no balance |
| Blending.CreateBlend | src/lib/actions.ts:669-683 | the in-place loop with the running cost equals `Blended` |
| Blending.DrawComponent | src/lib/actions.ts:671-682 | one pass of the loop equals the draw of one component `DrawOne`: unknown id and short stock fail, otherwise the record is drawn and its cost added |
| Blending.DrawAllStep | src/lib/actions.ts:670-683 | the rest of the draw from component i is component i followed by those after it |
| Blending.DrawAllHead | src/lib/actions.ts:670-683 | a draw of at least one component is its first component followed by the rest |
| Blending.DrawStock | src/lib/actions.ts:680 | one draw lowers the roasted stock by its quantity |
| Blending.DrawValue | src/lib/actions.ts:680-682 | one draw from a record at rest lowers the roasted value by its cost and leaves the inventory at rest |
| Blending.DrawOneStock | src/lib/actions.ts:671-680 | one component takes its need out of the roasted stock |
| Blending.DrawOneValue | src/lib/actions.ts:671-682 | one component drawn from an inventory at rest takes the cost it adds out of the value and leaves it at rest |
| Blending.DrawOneCost | src/lib/actions.ts:682 | a component with a non-negative share adds no negative cost |
| Blending.DrawAllStock | src/lib/actions.ts:670-683 | the roasted stock in total loses exactly the sum of the components' needs (each record's loss is stated by `DrawAllRoasted`) |
| Blending.DrawAllValue | src/lib/actions.ts:670-683 | from an inventory at rest the value falls by exactly the drawn cost and the inventory stays at rest |
| Blending.DrawAllCostGrows | src/lib/actions.ts:682 | with non-negative shares from an inventory at rest, the drawn cost does not decrease |
| Blending.BlendIntoStoreStock | src/lib/actions.ts:687-703 | the store gains exactly totalQty |
| Blending.BlendIntoStoreValue | src/lib/actions.ts:686-703 | the store gains exactly totalQty × the blend's unit cost in value |
| Blending.BlendIntoStoreOk | src/lib/actions.ts:689-703 | with a non-negative quantity and unit cost the store stays at rest |
| Blending.StoreGainsCost | src/lib/actions.ts:685-703 | the blend arriving at the drawn cost adds exactly that cost to the store's value |
| Blending.NeedTotalBounds | src/lib/actions.ts:657-671 | with a total that rounds to 100, the needs lie within half a percent of totalQty |
| Blending.BlendedParts | src/lib/actions.ts:653-703 | a blend that goes through has a positive quantity and percentages rounding to 100; its roasted inventory is the draw and its store has the blend at the drawn cost per kg |
| Blending.BlendQuantities | src/lib/actions.ts:657-703 | the roasted stock in total drops by exactly the needs, within half a percent of totalQty; the first record of each id named loses the needs of all the components naming it at its unit cost, records of other ids are unchanged; the store gains totalQty |
| Blending.BlendValues | src/lib/actions.ts:669-703 | with non-negative shares and inventories at rest, the value of the two inventories is conserved and both stay at rest |
| Ledger.AssetCreated | src/lib/actions.ts:380-416 | exactly the asset ("asset-<now>", name, category, date, value, depreciation per year) of the form is appended, and one entry dated the form's date crediting its value to "cash" and referencing it; nothing else changes |
| Ledger.ExpenseCreated | src/lib/actions.ts:585-605 | one operating-expense credit of the amount on the chosen account goes in front of the ledger; nothing else changes |
| Ledger.BankAccountCreated | src/lib/actions.ts:608-639 | the bank account is appended to the settings' accounts (absent read as empty) and a current "Bank: …" asset worth the opening balance without depreciation to the assets |
| Ledger.MergeSettings | src/lib/actions.ts:439 | the required fields are replaced, each optional field only when given, the bank accounts stay |
| Ledger.SettingsSaved | src/lib/actions.ts:419-448 | fails with InvalidSettings iff the name is empty or a number is negative; otherwise merges and changes nothing else |
| Ledger.SaveSettingsIdempotent | src/lib/actions.ts:439 | saving the same form twice is saving it once |
| Accounts.FindBank | src/lib/data.ts:27 | `find` by id: first match, None iff absent |
| Accounts.SeedBankAccounts | src/lib/data.ts:19-22 | the seeding loop equals the fold that sets each bank's balance in turn |
| Accounts.SeedAll | src/lib/data.ts:20-22 | definition of the seeding fold (no contract of its own); `SeedAllShape`, `SeedAllElsewhere`, `SeedAllLast`, `SeedAllEffect` and `SeedAllTotal` state its result |
| Accounts.PostLedger | src/lib/data.ts:24-31 | the posting loop equals the fold that adds debit − credit to each entry's account |
| Accounts.PostEntry | src/lib/data.ts:25-30 | the loop body for one entry equals `PostOne`: a missing account is first seeded from its bank (0 if none), then debit − credit is added |
| Accounts.PostOne | src/lib/data.ts:25-30 | definition of one entry's posting (no contract of its own); `PostOneEffect` states that only its account moves, by debit − credit, after seeding |
| Accounts.PostAll | src/lib/data.ts:24-31 | definition of the ledger posted entry by entry (no contract of its own); `PostLedger` and `PostAllEffect` state the loop and each account's and the total's result |
| Accounts.Total | src/lib/data.ts:33 | definition of currentBalance, Σ of the dictionary's amounts (no contract of its own); `PostAllEffect`, `CurrentBalanceIsOpeningPlusNet` and `CurrentBalanceClosedForm` state its value |
| Accounts.ComputeAccountBalances | src/lib/data.ts:17-31 | the two loops together compute `AccountBalancesOf` |
| Accounts.AccountBalancesOf | src/lib/data.ts:17-31 | definition of the refreshed balance dictionary (no contract of its own); `AccountBalance`, `CashBalance`, `BankBalance` and `CurrentBalanceClosedForm` state each balance and the total |
| Accounts.SetEffect | src/lib/data.ts:21 | writing a key keeps the dictionary well formed, changes only that key and moves the total by new − old |
| Accounts.SeedAllShape | src/lib/data.ts:19-22 | the bank loop keeps the dictionary well formed, keeps every key and gives every bank id an entry |
| Accounts.SeedAllElsewhere | src/lib/data.ts:19-22 | an id no bank has keeps its entry and its presence |
| Accounts.SeedAllLast | src/lib/data.ts:19-22 | an id reads the balance of the last bank with it |
| Accounts.SeedAllEffect | src/lib/data.ts:19-22 | seeding covers every bank; an id no bank has keeps its balance; an id gets the balance of the last bank with it |
| Accounts.SeedAllTotal | src/lib/data.ts:19-22 | with distinct fresh ids, seeding adds Σ bank balances to the total |
| Accounts.NetFlowAppend | src/lib/data.ts:24-31 | the net flow of a ledger is additive over concatenation |
| Accounts.BankLookupFindsNothing | src/lib/data.ts:26-28 | once every bank is seeded, the bank lookup for a missing key finds nothing: a new account starts at 0 |
| Accounts.PostOneEffect | src/lib/data.ts:25-30 | one entry adds debit − credit to its account ("" read as "cash") and nothing to the others; the total moves by the same |
| Accounts.PostAllEffect | src/lib/data.ts:24-31 | the ledger adds to each account its net flow, and to the total Σ (debit − credit) |
| Accounts.AccountBalance | src/lib/data.ts:17-31 | every account's balance is its seeded balance plus its net flow, and the dictionary lists each key once and holds an amount for exactly the listed keys |
| Accounts.CashBalance | src/lib/data.ts:17-31 | cash is the initial capital (0 if absent) plus its net flow |
| Accounts.BankBalance | src/lib/data.ts:17-31 | a bank's balance is its opening balance (the last bank with the id) plus its net flow |
| Accounts.CurrentBalanceClosedForm | src/lib/data.ts:33 | with distinct bank ids other than "cash", the current balance is capital + Σ bank balances + Σ (debit − credit) |
| Accounts.CurrentBalanceIsOpeningPlusNet | src/lib/data.ts:33 | the current balance is the seeded total plus the ledger's net |
| Accounts.LedgerGrows | src/lib/data.ts:24-33 | appending or prepending entries adds their net flow to each account and their net to the total |
| Accounts.SeedAllAppend | src/lib/data.ts:20-22 | seeding one more bank is one more write |
| Accounts.NewBankAccountBalances | src/lib/data.ts:17-33 | a new bank with a fresh id gets its opening balance plus its flow; the others keep theirs; the total rises by the opening balance |
| Refresh.EarlierAsymmetric | src/lib/data.ts:70-73 | the date order is asymmetric |
| Refresh.NotEarlierTransitive | src/lib/data.ts:70-73 | "not earlier" is transitive |
| Refresh.Insert | src/lib/data.ts:70-73 | insertion adds exactly the element and keeps a newest-first list newest first |
| Refresh.SortNewestFirst | src/lib/data.ts:70-73 | the sort is a permutation and newest first |
| Refresh.DigitChar | src/lib/data.ts:48 | a digit under 10 renders as a digit character that reads back as itself |
| Refresh.UntilDash | src/lib/data.ts:39 | `split('-')[1]` stops at the next dash: a dash-free prefix |
| Refresh.LeadingDigits | src/lib/data.ts:39 | `parseInt` reads the digit prefix |
| Refresh.LastInvoiceSeq | src/lib/data.ts:36-46 | no INV number exceeds the result, and a positive result is one of them |
| Refresh.NatToString | src/lib/data.ts:48 | `String(n)` is a non-empty digit string |
| Refresh.Zeros | src/lib/data.ts:48 | k zero characters |
| Refresh.PadStart3 | src/lib/data.ts:48 | `padStart(3, '0')`: at least 3 characters, zeros in front, the string at the end |
| Refresh.DigitsOfNat | src/lib/data.ts:46-48 | reading the rendering of n gives n |
| Refresh.LeadingZeroIgnored | src/lib/data.ts:39 | a leading zero does not change the value |
| Refresh.ZerosIgnored | src/lib/data.ts:39 | padding zeros do not change the value |
| Refresh.AllDigitsLead | src/lib/data.ts:39 | a digit string is its own digit prefix and dash-free prefix |
| Refresh.ReadBackInvoiceNumber | src/lib/data.ts:39-48 | the number INV-<n padded> reads back as n |
| Refresh.NextSalesInvoiceIdIsFresh | src/lib/data.ts:36-48 | the next number reads as the last + 1, and differs from every existing invoice number |
| Refresh.NextSalesInvoiceId | src/lib/data.ts:36-48 | definition of the next sales invoice number (no contract of its own); `NextSalesInvoiceIdIsFresh` states that it reads as the last + 1 and is new |
| Refresh.Normalize | src/lib/data.ts:56-66 | each missing collection becomes empty, missing settings become `{ bankAccounts: [] }`, present ones stay |
| Refresh.RefreshAsWritten | src/lib/data.ts:16-78 | as written: fails iff settings are missing (read at line 17 before the default at 65) |
| Refresh.RefreshOfEmptyStore | src/lib/data.ts:16-78 | the empty store fails as written; corrected, it gives balance 0, only "cash", and INV-001 |
| Refresh.RefreshAgreesWithSettings | src/lib/data.ts:16-78 | with settings present the two agree |
| Refresh.RefreshReorders | src/lib/data.ts:68-73 | the four collections are permutations of the normalized ones, newest first; everything else is the normalized snapshot |
| Refresh.RefreshedBalance | src/lib/data.ts:33-54 | the current balance is the total of the balances; the sales id is the next INV number |
| Refresh.RefreshData | src/lib/data.ts:16-78 | the method equals the corrected refresh |
| Refresh.RefreshOf | src/lib/data.ts:17-54 | definition of the refreshed view of a defaulted snapshot (no contract of its own); `RefreshReorders` and `RefreshedBalance` state its contents |
| Refresh.Refreshes | src/lib/data.ts:56-77 | definition of the corrected refresh, settings defaulted before they are read (no contract of its own); `RefreshOfEmptyStore`, `RefreshAgreesWithSettings`, `RefreshReorders` and `RefreshedBalance` state its behaviour |
| BalanceSheet.Lower | src/components/sections/balance-sheet.tsx:31 | the lower-cased string has the same length, character by character |
| BalanceSheet.BankDetails | src/components/sections/balance-sheet.tsx:24-27 | one line per bank with the name "<bank> (<account>)" and the account's balance |
| BalanceSheet.CurrentAssetsNonStock | src/components/sections/balance-sheet.tsx:30-36 | the accumulating loop sums the value of "current" assets not named "Bank:…" |
| BalanceSheet.FixedAssetsValue | src/components/sections/balance-sheet.tsx:40-57 | the accumulating map computes the fixed total and the detail lines |
| BalanceSheet.AddFixedAsset | src/components/sections/balance-sheet.tsx:42-57 | one asset: a fixed one adds its book value to the total and its line to the details; any other adds nothing |
| BalanceSheet.AssetBookValue | src/components/sections/balance-sheet.tsx:43-54 | the loop's book value equals `BookValue` |
| BalanceSheet.BookValue | src/components/sections/balance-sheet.tsx:43-54 | definition of one fixed asset's book value (no contract of its own); `BookValueBounds` states 0 ≤ book value ≤ cost |
| BalanceSheet.ComputeNeraca | src/components/sections/balance-sheet.tsx:15-75 | the method equals the statement `NeracaOf` |
| BalanceSheet.NeracaOf | src/components/sections/balance-sheet.tsx:15-75 | definition of the statement (no contract of its own); `StatementBalances` states that it balances and how total assets break down |
| BalanceSheet.StatementBalances | src/components/sections/balance-sheet.tsx:38-68 | liabilities + equity = total assets; retained earnings = assets − capital; assets = cash + banks + receivables + inventory + non-stock current + fixed |
| BalanceSheet.ReceivablesSplit | src/components/sections/balance-sheet.tsx:18 | receivables (neither Paid nor Lunas) and collected invoices add up to all invoice totals |
| BalanceSheet.Receivables | src/components/sections/balance-sheet.tsx:18 | definition of `piutang` (no contract of its own); `ReceivablesSplit` states that it and the collected totals add up to all invoice totals |
| BalanceSheet.InventoryValue | src/components/sections/balance-sheet.tsx:19-21 | definition of `persediaan` (no contract of its own); the `Flows` lemmas on inventory value state how each action moves it |
| BalanceSheet.NonStockCurrent | src/components/sections/balance-sheet.tsx:30-36 | definition of currentAssetsNonStock (no contract of its own); `CurrentAssetsNonStock`, `NonStockCurrentAppend` and `BankAssetNotCounted` state the loop, additivity and that bank assets are left out |
| BalanceSheet.FixedValue | src/components/sections/balance-sheet.tsx:40-57 | definition of fixedAssetsValue (no contract of its own); `FixedAssetsValue`, `FixedValueBounds` and `FixedValueAppend` state the loop, its bounds and additivity |
| BalanceSheet.BankTotal | src/components/sections/balance-sheet.tsx:23-28 | definition of totalBankBalance (no contract of its own); `Flows.BankTotalSame` and `Flows.BankTotalAppend` state when it stays and how a new bank adds to it |
| BalanceSheet.BookValueBounds | src/components/sections/balance-sheet.tsx:43-54 | no depreciation: the cost; otherwise never negative, and at most the cost for positive depreciation and years |
| BalanceSheet.FixedValueBounds | src/components/sections/balance-sheet.tsx:40-57 | the fixed assets lie between 0 and their cost |
| BalanceSheet.NonStockCurrentAppend | src/components/sections/balance-sheet.tsx:30-36 | non-stock current assets add over concatenation |
| BalanceSheet.FixedValueAppend | src/components/sections/balance-sheet.tsx:40-57 | fixed assets add over concatenation |
| BalanceSheet.BankAssetNotCounted | src/components/sections/balance-sheet.tsx:32-34 | a current "Bank:…" asset adds nothing to the current or fixed assets |
| Flows.OneEntry | src/lib/data.ts:30 | a single entry's flow and net |
| Flows.ExpenseLowersAccount | src/lib/actions.ts:585-605 | an expense lowers its account (blank read as "cash") by the amount and the current balance by the same |
| Flows.AssetLowersCash | src/lib/actions.ts:399-408 | a new asset lowers cash and the current balance by its value |
| Flows.PurchaseLowersPaymentSource | src/lib/actions.ts:102-111 | a purchase lowers its payment source and the current balance by its total |
| Flows.SaleEntriesFlow | src/lib/actions.ts:291-330 | a sale's entries move only "cash", by the paid total less the positive cost |
| Flows.SaleMovesCash | src/lib/actions.ts:291-330 | after a sale, cash and the current balance move by exactly that amount; other accounts stay |
| Flows.BlendKeepsBalances | src/lib/actions.ts:705-709 | a blend moves no account balance |
| Flows.TransferKeepsInventoryValue | src/lib/actions.ts:219-254 | a transfer from inventories at rest keeps the inventory value |
| Flows.BlendKeepsInventoryValue | src/lib/actions.ts:669-703 | a blend of non-negative shares from inventories at rest keeps the inventory value |
| Flows.RoastingKeepsInventoryValue | src/lib/actions.ts:153-186 | with the form's unit cost and some output, roasting keeps the inventory value |
| Flows.PurchaseAddsInventoryValue | src/lib/actions.ts:97 | a purchase adds its total to the inventory value |
| Flows.BankTotalSame | src/components/sections/balance-sheet.tsx:28 | the bank total depends only on the banks' balances |
| Flows.BankTotalAppend | src/components/sections/balance-sheet.tsx:28 | one more bank adds its balance |
| Flows.AssetsTrackCashAndInventory | src/components/sections/balance-sheet.tsx:38-59 | snapshots differing in ledger and inventories only, with the same bank balances, differ in total assets by the change in cash plus inventory |
| Flows.CashPurchaseKeepsAssets | src/lib/actions.ts:102-112 | a purchase paid from cash leaves the total assets unchanged |
| Flows.SaleAssetsChange | src/lib/actions.ts:319-330 | a sale changes the total assets by its total less twice the (positive) cost of goods |
| Flows.BankAccountCountedOnce | src/lib/actions.ts:608-639 | a new bank raises the total assets by its balance plus its entries' flow, once: the synthetic "Bank:" asset adds nothing; the current balance rises by the opening balance |

## Left out

- Form decoding (`FormData`, `JSON.parse`, `safeParseFloat`'s NaN-to-0 rule), zod error messages, `revalidatePath` and logging: each action receives already decoded, typed fields, and every failure is an error value without a message text.
- Persistence, the local-storage layer, import and export, Firebase and rendering: these are I/O and not part of this model.
- The clock: `Date.now()` and `new Date()` are the parameters `now`, `today` and `stamp`; the three next ids use one stamp.
- Names in generated ids are not slugged (`replace(/\s+/g, '-').toLowerCase()`): a new record's id is prefix + name + "-" + now.
- Floating point: money and quantities are exact reals, so rounding of JavaScript doubles is not modelled; `Math.round(Σ%) === 100` is the exact test 99.5 ≤ Σ < 100.5.
- `Yield_Persen` is kept as the number itself, not as the string "<yield>%".
- Refresh.LastInvoiceSeq: `parseInt` on a suffix with leading spaces or a sign is not modelled; a suffix without leading digits reads as 0 and the largest number is taken, while the source's comparator returns NaN for it and the order is then engine dependent.
- Refresh.SortNewestFirst: dates compare as strings (lexicographic, right for ISO dates), not through `new Date`; invalid dates are not modelled; the model's insertion sort is stable but the contract does not state stability.
- The in-place `.sort` of the default-filled arrays also reorders the caller's arrays; the model works on values, so this aliasing is not captured.
- BalanceSheet.Lower: lower-cases ASCII letters only, not the Unicode case mapping of `toLowerCase`.
- BalanceSheet.FixedAssetsValue: the years held are the parameter `yearsHeld` (acquisition date to years); the 365.25-day arithmetic of line 52 is not modelled.
- Transactions with a missing `Debit` or `Kredit` (`Number(…) || 0`) are not modelled: every entry carries both figures.

## Findings

| source | as written | input that shows it | evidently intended | confidence | as-written member | corrected member |
|---|---|---|---|---|---|---|
| src/lib/data.ts:17, 65 | `settings.modal_awal` and `settings.bankAccounts` are read at lines 17-27, before line 65 defaults missing settings to `{ bankAccounts: [] }`, so a snapshot without settings throws | a stored snapshot with no settings and no collections (`Refresh.EmptyStore`) | default the settings first, then refresh: balance 0, only `cash`, next invoice INV-001 | not executed | Refresh.RefreshAsWritten (with Refresh.RefreshOfEmptyStore) | Refresh.Refreshes |
