# ERP-POS order core in Dafny

This project models the core of the ERP-POS restaurant point-of-sale front end and proves properties of the model.

- **The per-table order store.** A map from table id to the ordered lines of that table. Each line snapshots a menu item and carries a line id, a quantity and a `new`/`sent` status.
- **The order screen of one table.** The lines still to be sent, the bill, and the display order by category. It also covers the selection of lines for the kitchen, the dispatch to the kitchen, the gating of the buttons and the hand-over to billing.
- **The sales dashboard.** Key figures, revenue per menu category and the most recent transactions, all computed over the ledger of completed orders.
- **The static catalog.** Tables, menu categories and menu items.
- **The text of the kitchen order ticket and its file name.**
- **The earlier order screen.** A status-less list keyed by menu item, used before the shared store existed.

Modules, one per source component:

- `Collections`: option type, filter, sum and a stable insertion sort by an integer key, with their laws.
- `Catalog`: the record types and constants of `src/lib/data.ts`, plus the line record `OrderItem`.
- `Pricing`: the 10% tax summary that both order screens compute.
- `TableOrder`: the pure per-table transforms behind each store operation, and the line invariants they keep.
- `OrderStore`: the store as a class. Each method replaces one table's entry by a `TableOrder` transform.
- `OrderScreen`: the store-backed order screen. Its derived values are functions. Its selection and sending flag live in a class that holds a reference to the store.
- `SalesDashboard`: the dashboard aggregates. Revenue per category is a method whose nested loops fill a record keyed by category name.
- `KitchenTicket`: the ticket text built line by line, the file name, and the result of saving.
- `SimpleOrder`: the earlier, status-less order screen.

Line invariants, kept by every store operation:

- line ids are distinct within a table;
- every quantity is at least 1;
- each menu item has at most one `new` line.

Store invariant: every line id was drawn from the store's id counter. Because of this, the id given to a new line is provably fresh.

Selection invariant: the selection only holds ids of the table's `new` lines.

Money is exact (`real`). Quantities are unbounded integers.

Two facts about the kitchen ticket that the model keeps as the code has them:

- The ticket lists the items in the order it receives them, without grouping them by category (`src/lib/actions.ts:35-38`).
- The quantity is padded on the right, by `padEnd(3)` (`src/lib/actions.ts:36`).

## Model

| member | source | states |
|---|---|---|
| Catalog.CategoryIds | home/sumdher/ERP-POS/src/components/order-interface.tsx:132 | one id per menu category, in catalog order |
| Catalog.IndexOf | home/sumdher/ERP-POS/src/components/order-interface.tsx:136-137 | -1 exactly when the id is absent, otherwise the first position holding it |
| Catalog.FindCategory | src/components/sales-dashboard.tsx:31 | a found category is in the catalog and has the id; nothing is found exactly when no category has the id |
| Catalog.CategoryOrder | src/lib/data.ts:37-42 | the category order is appetizers, main-courses, desserts, beverages; ids and names are pairwise distinct |
| Catalog.FindCategoryOwnId | src/components/sales-dashboard.tsx:31 | with distinct ids, looking up a category's id finds that category |
| Catalog.MenuItemsWellFormed | src/lib/data.ts:44-60 | 15 menu items with ids 1..15, each in a catalog category, each with a positive price |
| Catalog.TablesWellFormed | src/lib/data.ts:22-35 | 12 tables with ids 1..12 |
| Pricing.TotalsOf | home/sumdher/ERP-POS/src/components/order-interface.tsx:80-85 | the total is 110% of the subtotal, the tax is the difference, and both are non-negative for a non-negative subtotal |
| TableOrder.FindNewLine | src/context/order-context.tsx:27 | the first position holding a `new` line of the menu item; none exactly when no such line exists |
| TableOrder.AddItem | src/context/order-context.tsx:24-45 | afterwards the item has a `new` line; the length is unchanged on a merge and one more on an append; the line ids are unchanged or gain the fresh id; no `new` line is lost |
| TableOrder.AddItemMerges | src/context/order-context.tsx:30-33 | a merge raises the found line's quantity by one and leaves every other line and the length unchanged |
| TableOrder.AddItemAppends | src/context/order-context.tsx:34-41 | when every line of the item is `sent`, exactly one line is appended at the end: the item, the fresh id, quantity 1, `new` |
| TableOrder.AddItemPreservesWellFormed | src/context/order-context.tsx:24-45 | with a fresh id, adding keeps the line invariants |
| TableOrder.UpdateQuantity | src/context/order-context.tsx:47-60 | at zero or below, exactly that id leaves the line ids and the new ids; above zero, the length and all ids stay and only the matching line's quantity becomes the new one |
| TableOrder.RemoveAbsentId | src/context/order-context.tsx:51 | filtering out an id that does not occur keeps the order |
| TableOrder.RemoveLineKeepsRest | src/context/order-context.tsx:50-52 | removing a line, whatever its status, leaves exactly the other lines in their order |
| TableOrder.UpdateQuantityAbsentId | src/context/order-context.tsx:47-60 | an id that does not occur leaves the order unchanged, whatever the quantity |
| TableOrder.FilterPreservesWellFormed | src/context/order-context.tsx:51 | filtering keeps the line invariants |
| TableOrder.UpdateQuantityPreservesWellFormed | src/context/order-context.tsx:47-60 | every quantity update keeps the line invariants |
| TableOrder.MarkSent | src/context/order-context.tsx:62-70 | the length stays; only the status may change; a line is `sent` afterwards exactly when its id is listed or it was already `sent` |
| TableOrder.MarkSentIdempotent | src/context/order-context.tsx:62-70 | marking twice is marking once |
| TableOrder.MarkSentIgnoresUnknownIds | src/context/order-context.tsx:66 | listed ids that name no line have no effect |
| TableOrder.MarkSentNewIds | src/context/order-context.tsx:62-70 | the line ids stay and the new ids lose exactly the listed ones |
| TableOrder.MarkSentPreservesWellFormed | src/context/order-context.tsx:62-70 | marking keeps the line invariants |
| OrderStore.Store.constructor | src/context/order-context.tsx:18 | an empty store satisfies the store invariant |
| OrderStore.Store.GetOrderByTableId | src/context/order-context.tsx:20-22 | the stored lines of the table, or no lines for a table without an entry; a valid store yields well-formed lines |
| OrderStore.Store.AddItemToOrder | src/context/order-context.tsx:24-45 | only the table's entry changes, to the result of adding the item with an id the table does not use; the id counter advances only when a line is appended; the ledger is unchanged; the invariant is kept |
| OrderStore.Store.UpdateOrderItemQuantity | src/context/order-context.tsx:47-60 | only the table's entry changes, to the updated lines; an absent table gets an empty entry; the invariant is kept |
| OrderStore.Store.UpdateOrderStatus | src/context/order-context.tsx:62-70 | only the table's entry changes, to the marked lines; an absent table gets an empty entry; the invariant is kept |
| OrderStore.Store.ClearOrder | src/context/order-context.tsx:72-78 | exactly the table's key is deleted |
| OrderStore.Store.CompleteOrder | src/components/payment-dialog.tsx:38-52 | after successful billing, one record is put at the head of the ledger, the order id counter advances and the table's key is deleted; after a failure nothing changes |
| OrderScreen.NewItems | home/sumdher/ERP-POS/src/components/order-interface.tsx:70 | holds only `new` lines of the order, and every `new` line of the order |
| OrderScreen.NewItemsAppend | home/sumdher/ERP-POS/src/components/order-interface.tsx:70 | the new lines of a concatenation are those of each part, in order |
| OrderScreen.NewItemIds | home/sumdher/ERP-POS/src/components/order-interface.tsx:76 | the ids that select-all collects are exactly the ids of the `new` lines |
| OrderScreen.NewIdsCount | home/sumdher/ERP-POS/src/components/order-interface.tsx:130 | in a well-formed order there are as many new ids as new lines |
| OrderScreen.Subtotal | home/sumdher/ERP-POS/src/components/order-interface.tsx:81 | zero for an empty order, and never negative when no price or quantity is negative |
| OrderScreen.OrderTotals | home/sumdher/ERP-POS/src/components/order-interface.tsx:80-85 | the subtotal sums price times quantity over all lines, the tax is a tenth of it, and the total is their sum |
| OrderScreen.SubtotalIgnoresStatus | home/sumdher/ERP-POS/src/components/order-interface.tsx:81 | sending lines to the kitchen does not change the subtotal |
| OrderScreen.SubtotalAfterMerge | src/context/order-context.tsx:30-33 | merging raises the subtotal by the unit price of the merged line's snapshot |
| OrderScreen.SubtotalAfterAdd | src/context/order-context.tsx:27-41 | adding raises the subtotal by one unit price: the merged line's, or the item's for a new line |
| OrderScreen.CategoryRank | home/sumdher/ERP-POS/src/components/order-interface.tsx:136-137 | the first catalog position of the line's category id, or -1 exactly when no category has that id |
| OrderScreen.SortedOrderItems | home/sumdher/ERP-POS/src/components/order-interface.tsx:134-140 | a permutation of the order, non-decreasing in category index |
| OrderScreen.SortedOrderItemsStable | home/sumdher/ERP-POS/src/components/order-interface.tsx:134-140 | lines of the same category index keep their store order |
| OrderScreen.ToggleSelection | home/sumdher/ERP-POS/src/components/order-interface.tsx:58-68 | the id's membership flips and no other id changes |
| OrderScreen.ToggleTwice | home/sumdher/ERP-POS/src/components/order-interface.tsx:58-68 | toggling twice restores the selection |
| OrderScreen.SelectAll | home/sumdher/ERP-POS/src/components/order-interface.tsx:72-78 | the result is empty or exactly the new ids |
| OrderScreen.AllNewSelected | home/sumdher/ERP-POS/src/components/order-interface.tsx:130 | the select-all test holds only with at least one new line and a non-empty selection |
| OrderScreen.AllNewSelectedMeaning | home/sumdher/ERP-POS/src/components/order-interface.tsx:130 | under the selection invariant, the size comparison holds exactly when every new line is selected and there is one |
| OrderScreen.SelectAllMeaning | home/sumdher/ERP-POS/src/components/order-interface.tsx:72-78 | select-all empties a selection that holds every new line, and otherwise selects exactly the new lines |
| OrderScreen.ItemsToSend | home/sumdher/ERP-POS/src/components/order-interface.tsx:88-89 | holds only lines of the order with a selected id, and every such line |
| OrderScreen.ItemsToSendEmpty | home/sumdher/ERP-POS/src/components/order-interface.tsx:91-98 | under the selection invariant, "No Items Selected" happens exactly for an empty selection |
| OrderScreen.NoNewItems | home/sumdher/ERP-POS/src/components/order-interface.tsx:274 | there are no new lines exactly when every line is `sent` |
| OrderScreen.CanBill | home/sumdher/ERP-POS/src/components/order-interface.tsx:252-277 | Bill & Pay is available exactly for a non-empty order whose lines are all `sent` |
| OrderScreen.EnabledControlsKeepSentLines | home/sumdher/ERP-POS/src/components/order-interface.tsx:235-245 | a `sent` line survives any quantity change made through the enabled controls |
| OrderScreen.LineControlsEnabled | home/sumdher/ERP-POS/src/components/order-interface.tsx:235-243 | the -, + and delete controls of a line are enabled exactly when the line is not `sent` |
| OrderScreen.KitchenButtonEnabled | home/sumdher/ERP-POS/src/components/order-interface.tsx:252-270 | To Kitchen is disabled while a send is in flight, and under the selection invariant an enabled button always has lines to send |
| OrderScreen.BillingScenario | home/sumdher/ERP-POS/src/components/order-interface.tsx:80-85 | one item at 10.00 added twice merges into one line for 22.00; after it is sent a third add opens a new line; billing waits for that line's dispatch; the bill is 33.00 |
| OrderScreen.OrderInterface.constructor | home/sumdher/ERP-POS/src/components/order-interface.tsx:29-31 | the selection starts empty and nothing is in flight |
| OrderScreen.OrderInterface.HandleAddItem | home/sumdher/ERP-POS/src/components/order-interface.tsx:41-43 | the store adds the item to this table, every other table, the ledger and its id counter are unchanged, and the selection invariant is kept |
| OrderScreen.OrderInterface.HandleUpdateQuantity | home/sumdher/ERP-POS/src/components/order-interface.tsx:45-56 | at zero or below, the line is removed and its id leaves the selection; otherwise only the quantity is set; other tables, the ledger and both id counters are unchanged |
| OrderScreen.OrderInterface.HandleToggleSelectItem | home/sumdher/ERP-POS/src/components/order-interface.tsx:58-68 | the selection becomes the toggled set and stays within the new lines |
| OrderScreen.OrderInterface.HandleToggleSelectAll | home/sumdher/ERP-POS/src/components/order-interface.tsx:72-78 | the selection becomes the select-all result |
| OrderScreen.OrderInterface.BeginSendToKitchen | home/sumdher/ERP-POS/src/components/order-interface.tsx:87-100 | refused exactly for an empty selection, changing nothing; otherwise the screen is sending and the request carries the selected ids and the selected lines in store order |
| OrderScreen.OrderInterface.FinishSendToKitchen | home/sumdher/ERP-POS/src/components/order-interface.tsx:101-127 | nothing is in flight afterwards; on success the sent ids are marked in this table only and the selection empties; otherwise the orders and the selection are unchanged; the ledger and both id counters never change |
| OrderScreen.OrderInterface.HandlePayment | src/components/payment-dialog.tsx:27-52 | after successful billing, the table's lines and total are put at the head of the ledger, the order id counter advances, and only this table's entry is removed; after a failure nothing changes |
| SalesDashboard.SalesKpis | src/components/sales-dashboard.tsx:14-22 | all three figures are zero for an empty ledger; otherwise the count is the length, the revenue is the sum of totals, and the average times the count is the revenue |
| SalesDashboard.Revenue | src/components/sales-dashboard.tsx:19 | zero for an empty ledger, and never negative when no order total is negative |
| SalesDashboard.KpisAfterCompletion | src/components/sales-dashboard.tsx:15-19 | a completed order adds one to the count and its total to the revenue |
| SalesDashboard.RevenueBounded | src/components/sales-dashboard.tsx:19 | with totals between zero and m, the revenue lies between zero and m times the count |
| SalesDashboard.AverageBounded | src/components/sales-dashboard.tsx:20 | with totals between zero and m, the average lies between zero and m |
| SalesDashboard.FoundCategory | src/components/sales-dashboard.tsx:31-33 | a line's lookup names category i exactly when the line carries category i's id |
| SalesDashboard.ZeroRecord | src/components/sales-dashboard.tsx:25-27 | every category name is keyed to zero, with the keys in catalog order |
| SalesDashboard.LineStep | src/components/sales-dashboard.tsx:31-34 | one line adds its amount to its own category and nothing to the others |
| SalesDashboard.AddLine | src/components/sales-dashboard.tsx:31-34 | adding one line keeps the record's keys and adds the line's amount to its own category only, skipping an unknown category |
| SalesDashboard.AddOrderLines | src/components/sales-dashboard.tsx:30-35 | each category grows by the amount of that order's lines in the category |
| SalesDashboard.RevenueByCategory | src/components/sales-dashboard.tsx:24-39 | one entry per category in catalog order, each holding the sum over the ledger of the amounts of that category's lines; all zero for an empty ledger |
| SalesDashboard.Entries | src/components/sales-dashboard.tsx:38 | one name/revenue pair per key, in key order |
| SalesDashboard.RevenueOfAfterCompletion | src/components/sales-dashboard.tsx:29-36 | a completed order adds its lines' amounts to each category |
| SalesDashboard.UnknownCategorySkipped | src/components/sales-dashboard.tsx:31-32 | a line whose category is not in the catalog adds to no category |
| SalesDashboard.LineSplitsOverCategories | src/components/sales-dashboard.tsx:31-33 | a line of a catalog category is counted once, in full |
| SalesDashboard.CategoriesPartitionAmount | src/components/sales-dashboard.tsx:29-36 | for lines of catalog categories, the category revenues add up to the sum of price times quantity |
| SalesDashboard.RecentTransactions | src/components/sales-dashboard.tsx:117 | at most seven records, all of them when there are fewer, each at its ledger position |
| SalesDashboard.RecentAfterCompletion | src/components/sales-dashboard.tsx:117 | a completed order heads the recent list and pushes the others down by one |
| KitchenTicket.NatToString | src/lib/actions.ts:36 | at least one decimal digit, with no leading zero |
| KitchenTicket.NatToStringRoundTrip | src/lib/actions.ts:36 | reading the digits back gives the number |
| KitchenTicket.IntToString | src/lib/actions.ts:36 | a minus sign exactly for a negative quantity, digits otherwise |
| KitchenTicket.IntToStringInjective | src/lib/actions.ts:36 | different quantities print differently |
| KitchenTicket.PadEnd | src/lib/actions.ts:36 | the text is kept whole and followed by spaces up to width 3; longer text is not cut |
| KitchenTicket.SanitizeTimestamp | src/lib/actions.ts:22 | same length; every `:` and `.` becomes `-`, every other character stays; no `:` or `.` remains |
| KitchenTicket.SanitizeIdempotent | src/lib/actions.ts:22 | sanitising twice is sanitising once |
| KitchenTicket.FileName | src/lib/actions.ts:23 | starts with `kot-table-`, ends with `.txt`, and has the length of its parts |
| KitchenTicket.FileNameDeterminesTimestamp | src/lib/actions.ts:23 | for one table, equal file names mean equal sanitised timestamps |
| KitchenTicket.TicketLine | src/lib/actions.ts:36-37 | a space, the quantity, padding up to three characters, a bar between two spaces, the name and a line break |
| KitchenTicket.Header | src/lib/actions.ts:26-33 | the header opens with the banner title and closes with a dashed rule |
| KitchenTicket.TicketLines | src/lib/actions.ts:35-38 | empty exactly for no items; at least eight characters per item; ends in a line break when there are items |
| KitchenTicket.TicketContent | src/lib/actions.ts:26-40 | the header, then exactly the item lines, then the closing rule, with nothing else |
| KitchenTicket.TicketFrame | src/lib/actions.ts:26-40 | the ticket opens with the banner title, holds `Table: <id>` on its own line, and ends with the closing rule |
| KitchenTicket.TicketLinesAppend | src/lib/actions.ts:35-38 | the lines of two item lists are those of each, in order |
| KitchenTicket.TicketLineIsOneLine | src/lib/actions.ts:37 | an item line has exactly one line break when the name has none |
| KitchenTicket.TicketLinesCount | src/lib/actions.ts:35-38 | one line of text per item |
| KitchenTicket.SaveKotToFile | src/lib/actions.ts:14-54 | an empty list gives "Order is empty." and no file; otherwise the named file holds the ticket text and the result is success, or "Failed to save KOT file." with no file when the write fails |
| SimpleOrder.AddMenuItem | src/components/order-interface.tsx:26-36 | afterwards the item is present; the length is unchanged when it was present and one more otherwise; the item ids gain the item; lines of other items are unchanged |
| SimpleOrder.AddMenuItemMerges | src/components/order-interface.tsx:28-33 | an item already present gets one more unit on its single line |
| SimpleOrder.AddMenuItemAppends | src/components/order-interface.tsx:34 | an absent item is appended with quantity 1 |
| SimpleOrder.AddMenuItemPreservesWellFormed | src/components/order-interface.tsx:26-36 | each item at most once and quantities of at least one are kept |
| SimpleOrder.SetItemQuantity | src/components/order-interface.tsx:38-46 | at zero or below, exactly that item's id leaves the list; otherwise the length and ids stay and only that item's quantity becomes the new one |
| SimpleOrder.RemoveItemKeepsRest | src/components/order-interface.tsx:39-40 | removing an item leaves exactly the other lines in their order |
| SimpleOrder.SetItemQuantityPreservesWellFormed | src/components/order-interface.tsx:38-46 | quantity updates keep the list invariants |
| SimpleOrder.SimpleTotals | src/components/order-interface.tsx:48-53 | the subtotal is the sum of price times quantity, the tax a tenth of it, and the total their sum |
| SimpleOrder.SubtotalAfterAppend | src/components/order-interface.tsx:34 | appending a new item raises the subtotal by its price |
| SimpleOrder.SimpleOrderInterface.constructor | src/components/order-interface.tsx:22 | the list starts empty |
| SimpleOrder.SimpleOrderInterface.HandleAddItem | src/components/order-interface.tsx:26-36 | the list becomes the result of adding the item and keeps its invariants |
| SimpleOrder.SimpleOrderInterface.HandleUpdateQuantity | src/components/order-interface.tsx:38-46 | the list becomes the updated list and keeps its invariants |
| SimpleOrder.SimpleOrderInterface.HandleSendToKitchen | src/components/order-interface.tsx:55-68 | an empty list is refused, anything else is announced for this table, and the list is never changed |

## Left out

- The ERP calls (`src/lib/erpnext.ts`) are HTTP requests. Billing is a boolean outcome given to `CompleteOrder` and `HandlePayment`.
- The payment dialog's own UI state (`isProcessing`, the toasts, the navigation) is not modelled. Its one decision, to complete the order only on success, is part of `HandlePayment`.
- `completeOrder` and `completedOrders` are not defined in `src/context/order-context.tsx`. They are modelled from their uses: the record holds the fields the dashboard reads, the ledger is newest first, and the table entry is deleted as `clearOrder` does.
- The `OrderItem` type is not in `src/lib/data.ts`. Its shape is taken from the line built at `src/context/order-context.tsx:35-40`. The menu item's fields are kept as a nested snapshot instead of being spread into the line.
- Line ids come from `Date.now()` and `Math.random()` in the source. The model draws them from a counter, so they are numbers and provably fresh. Completed-order ids come from a second counter.
- `updateOrderStatus` receives the ids as an array and only asks whether it includes an id. The model passes a set. Its constant status argument `'sent'` is fixed.
- The file-system work of `saveKotToFile` (`mkdir`, `writeFile`, `console.log`, the directory path) is replaced by a boolean write outcome and the returned file name and text.
- The clock is a parameter, read as an ISO timestamp for the file name and as a locale date for the ticket. `toLocaleString` and `toLocaleTimeString` formatting is not modelled.
- Floating-point arithmetic and `toFixed(2)` display rounding are not modelled. Money is exact.
- Rendering, routing, images, the category-name map used for display, toast wording, and the `useOrders` provider check are not modelled.
- React's asynchronous state updates are taken as sequential calls. The send to the kitchen is split into `BeginSendToKitchen` and `FinishSendToKitchen` around the awaited ticket call. An exception from that call and an unsuccessful result are the same outcome here.
- OrderScreen.OrderInterface.HandleToggleSelectItem: requires the id to be a `new` line of the table, because the checkbox is rendered only for such lines; the handler itself does not check.
- OrderScreen.OrderInterface.HandlePayment: requires Bill & Pay to be enabled, because the dialog is only reachable through that button.
- `Array.prototype.sort` is modelled as a stable insertion sort. Only the result that a stable sort with that comparator must give is claimed, not the engine's algorithm.
