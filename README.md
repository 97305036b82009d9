# Restaurant stock analytics, ordering cart and table reservations

This project models three parts of a restaurant management system.

- **Stock analytics (isc-sys).** The system keeps an inventory, deductions and
  wastage entries. A deduction is stock consumed by an order. A wastage entry
  is stock thrown away, with a reason. Four screens derive figures from these:
  - The dashboard shows stock value, today's usage, low and zero stock, and a
    six-item alert panel.
  - The inventory page shows the 7-day usage estimate, restock suggestions
    sized to 14 days of cover, and a category or low-stock filter.
  - The reports page has a reporting period and the wastage section (waste
    percentage, monthly projection, top five wasted items, loss by reason).
    It also has the "Truth Table" ledger per item, the low-stock triage with
    reorder quantities, and the movement log.
  - The stock badge classifies an item as ZERO, CRITICAL, LOW or OK.
- **Ordering cart (qr-sys).** Cart lines are keyed by menu item. Adding bumps
  the quantity of a line or appends a new one. Setting a quantity of zero or
  less removes the line. The cart has a total and an item count.
- **Table reservations (isc-sys).** Creating a reservation rejects an unknown
  table or a time overlap with a confirmed reservation of the same table and
  date. There are status patches, cancellation, a date-ordered listing, a
  per-table upcoming list, the current-or-next lookup for a table and today's
  counts.

Dates are `YYYYMMDD` integers and clock times are minutes after midnight.
Both keep the order of the source's fixed-width ISO strings, which the source
compares as strings. Quantities and money are exact `real`s. The current date,
time and 7-day cutoff are parameters.

Modules, one per file:

| file | module | content |
|---|---|---|
| `seqs.dfy` | `Seqs` | filter, map, sum and stable sort, with their lemmas |
| `records.dfy` | `Records` | inventory items, deductions, wastage entries |
| `stock.dfy` | `Stock` | stock value, low and zero stock, days left |
| `usage.dfy` | `Usage` | the 7-day usage dictionary |
| `periods.dfy` | `Periods` | the reporting period and the filters on it |
| `dashboard.dfy` | `Dashboard` | today's usage and the alert panel |
| `restock.dfy` | `Restock` | restock suggestions and the inventory filter |
| `badge.dfy` | `StockBadge` | the stock badge |
| `wastage.dfy` | `WastageReport` | the wastage section |
| `ledger.dfy` | `TruthTable` | the per-item ledger |
| `danger.dfy` | `LowStockDanger` | the low-stock triage |
| `movements.dfy` | `MovementLog` | the movement log |
| `cart.dfy` | `Cart` | the ordering cart |
| `reservations.dfy` | `Reservations` | table reservations |

Code that builds a dictionary in a loop is modelled as a `method` with a
`while` loop, proved against a specification function. The `usageStats`,
`stats`, `byItem`, `byReason` and `all` builders are of this kind. Filter, map
and reduce chains are functions. JavaScript's stable `Array.prototype.sort` is
modelled by a stable insertion sort, `Seqs.SortBy`. The cart state and the
reservations table are classes whose methods overwrite their one field.

## Model

| member | source | states |
|---|---|---|
| Stock.StockValue | isc-sys/app/page.js:40 | the stock value of an empty inventory is 0 |
| Stock.StockValueNonNegative | isc-sys/app/reports/page.js:43 | with non-negative quantities and unit costs, the stock value is non-negative |
| Stock.LowStock | isc-sys/app/page.js:41 | exactly the items whose quantity is at or below the minimum, in inventory order |
| Stock.ZeroStock | isc-sys/app/page.js:42 | exactly the items whose quantity is 0, in inventory order |
| Stock.ZeroStockIsLowStock | isc-sys/app/reports/page.js:47-48 | with a non-negative minimum, every zero-stock item is also a low-stock item |
| Stock.DaysLeft | isc-sys/app/inventory/page.js:52 | with positive usage, days left times daily usage is the quantity, non-negative for non-negative stock; with no usage it is the 999 sentinel |
| Usage.WeeklyUsage | isc-sys/app/reports/page.js:353-359 | one key per item with a deduction on or after the cutoff, holding the total deducted quantity |
| Usage.UsageStats | isc-sys/app/inventory/page.js:28-43 | the dictionary is keyed by the items with an in-window deduction and holds their total over 7 |
| Usage.NoWindowDeductionMeansZero | isc-sys/app/page.js:25-28 | an item with no deduction in the window has window total 0 |
| Usage.DailyUsageIsAverage | isc-sys/app/inventory/page.js:51 | reading the dictionary with a zero default gives the 7-day average for every id, listed or not |
| Usage.WeeklyTotalOverSevenIsAverage | isc-sys/app/reports/page.js:364-365 | the triage's weekly total over 7 equals the same 7-day average |
| Usage.NoHistoryNoUsage | isc-sys/app/page.js:20-34 | with no deductions every item's usage is 0 |
| Periods.DateFilters | isc-sys/app/reports/page.js:22-31 | each range's bounds: today; yesterday for both bounds; the week start or the month start up to today; custom with today for an unset bound; today for an unknown range; start <= end for the fixed ranges |
| Periods.PeriodDeductions | isc-sys/app/reports/page.js:38 | exactly the deductions dated within both inclusive bounds, in order; none for an inverted period |
| Periods.PeriodWastage | isc-sys/app/reports/page.js:39 | exactly the wastage entries dated within both inclusive bounds, in order; none for an inverted period |
| Periods.MonthWastage | isc-sys/app/reports/page.js:40 | exactly the wastage entries dated on or after the month start |
| Periods.MonthPeriodIsMonthToDate | isc-sys/app/reports/page.js:27 | the "This Month" period keeps exactly the month-to-date entries up to today |
| Dashboard.TodayDeductions | isc-sys/app/page.js:43 | exactly the deductions dated today, in order |
| Dashboard.TodayUsageBounds | isc-sys/app/page.js:44 | today's usage is 0 when nothing was deducted today; with non-negative costs it lies between 0 and the cost of all deductions |
| Dashboard.AlertPanel | isc-sys/app/page.js:70 | the first min(6, n) low-stock items, in order |
| Dashboard.ViewAllIffPanelTruncated | isc-sys/app/page.js:86 | the "View all" link shows exactly when the panel leaves an item out |
| Restock.Ceil | isc-sys/app/inventory/page.js:54 | the least integer not below its argument |
| Restock.SuggestedQty | isc-sys/app/inventory/page.js:53-54 | the least non-negative integer that covers 14 days of usage over current stock; 0 exactly when stock already covers it |
| Restock.Suggest | isc-sys/app/inventory/page.js:50-65 | the projection keeps its item and carries the item's daily usage, the days left at that usage, the suggested quantity, that quantity times the unit cost, and needs restock exactly when the stock is at or below its minimum or at most 7 days are left |
| Restock.ProjectionsOfItems | isc-sys/app/inventory/page.js:50-65 | the projections of the items are exactly the projections of some inventory item |
| Restock.RestockSuggestions | isc-sys/app/inventory/page.js:46-68 | a reordering of exactly the items' projections that need restock and suggest a positive quantity, each kept as often as it occurs, soonest to run out first |
| Restock.RestockMembership | isc-sys/app/inventory/page.js:63-66 | an inventory item is listed iff it is at or below its minimum or has at most 7 days left, and the suggested quantity is positive |
| Restock.NoUsageNeverSuggested | isc-sys/app/inventory/page.js:53-54 | an item with no recorded usage and non-negative stock is never suggested |
| Restock.OilExample | isc-sys/app/inventory/page.js:51-63 | 10 units, minimum 5 and usage 2 a day give 5 days left, a suggestion of 18 and a restock flag |
| Restock.TotalRestockCost | isc-sys/app/inventory/page.js:70 | the empty list costs 0 |
| Restock.TotalRestockCostNonNegative | isc-sys/app/inventory/page.js:70 | with non-negative unit costs the total restock cost is non-negative |
| Restock.SuggestedCostNonNegative | isc-sys/app/inventory/page.js:55 | with a non-negative unit cost a suggestion's cost is non-negative |
| Restock.FilteredItems | isc-sys/app/inventory/page.js:74-76 | 'all' keeps every item, 'low' exactly the low-stock items, any other value exactly that category, in order |
| Restock.FilteredValueAtMostTotal | isc-sys/app/inventory/page.js:78 | with non-negative quantities and costs, the filtered value lies between 0 and the whole stock value |
| StockBadge.Classify | isc-sys/app/components/StockBadge.js:1-12 | ZERO at quantity 0; CRITICAL at or below half the minimum; LOW up to the minimum; OK exactly above it for a non-negative minimum |
| StockBadge.BadgeAgreesWithLowStock | isc-sys/app/components/StockBadge.js:8-11 | with a non-negative minimum, the badge is not OK exactly for the low-stock items |
| StockBadge.SeverityNeverRisesWithStock | isc-sys/app/components/StockBadge.js:2-11 | with a fixed non-negative minimum, more stock never gives a more alarming badge |
| WastageReport.WastagePercent | isc-sys/app/reports/page.js:127 | waste as a share of used plus wasted, times 100; 0 when there is no consumption; within [0, 100] for non-negative inputs; 100 when nothing was used |
| WastageReport.WastagePercentOfPeriod | isc-sys/app/reports/page.js:124-127 | with non-negative costs the period's percentage lies in [0, 100], and it is 0 without wastage |
| WastageReport.ProjectedMonthlyLoss | isc-sys/app/reports/page.js:133 | the loss so far scaled by days in month over days passed; 0 with no day passed; unchanged on the last day |
| WastageReport.ProjectionAtLeastLossSoFar | isc-sys/app/reports/page.js:133 | part-way through the month the projection is never below the non-negative loss so far |
| WastageReport.NameTotalsStep | isc-sys/app/reports/page.js:137-140 | one more entry adds its item name to the names seen and its cost and quantity to that name's totals |
| WastageReport.BumpItemGroup | isc-sys/app/reports/page.js:139-140 | an entry whose name already has a group keeps the grouping correct by adding to that group |
| WastageReport.NewItemGroup | isc-sys/app/reports/page.js:138 | an entry with a new name keeps the grouping correct by opening a group with its cost and quantity |
| WastageReport.GroupByItem | isc-sys/app/reports/page.js:136-141 | one group per item name, which is there exactly when some entry has that name, holding that name's total cost and quantity; as many groups as distinct names |
| WastageReport.TopWasted | isc-sys/app/reports/page.js:142 | the 5 costliest item names, or all of them when fewer, each once with its correct totals, in descending cost; empty exactly without entries; every item left off costs no more than each listed one |
| WastageReport.GroupNamesCount | isc-sys/app/reports/page.js:136-141 | groups with distinct names carry as many names as there are groups |
| WastageReport.GroupNamesAreItemNames | isc-sys/app/reports/page.js:136-141 | groups present exactly for the names the entries mention carry exactly those names |
| WastageReport.ReorderedGroupsDistinctReasons | isc-sys/app/reports/page.js:181 | sorting the reason entries keeps their reasons distinct |
| WastageReport.ReorderedGroupsDistinctNames | isc-sys/app/reports/page.js:142 | sorting the groups keeps their names distinct |
| WastageReport.LeftOffCostsNoMore | isc-sys/app/reports/page.js:142 | in a list sorted by descending cost, an entry cut off after five costs no more than every kept one |
| WastageReport.ReasonTotalsStep | isc-sys/app/reports/page.js:146-148 | one more entry adds its reason to the reasons seen and its cost to that reason's total and to the whole |
| WastageReport.BumpReasonGroup | isc-sys/app/reports/page.js:148 | an entry whose reason already has a group keeps the grouping and its sum correct by adding to that group |
| WastageReport.NewReasonGroup | isc-sys/app/reports/page.js:147 | an entry with a new reason keeps the grouping and its sum correct by opening a group with its cost |
| WastageReport.GroupByReason | isc-sys/app/reports/page.js:145-149 | one group per reason that occurs, with that reason's total cost; the groups add up to the total wasted |
| WastageReport.LossByReason | isc-sys/app/reports/page.js:181 | the reason groups in descending cost, one entry per reason with its correct total, adding up to the total wasted |
| TruthTable.LastItem | isc-sys/app/reports/page.js:248-262 | the record kept for an id is an inventory record with that id |
| TruthTable.OpeningStats | isc-sys/app/reports/page.js:248-262 | one entry per inventory id, without duplicates, holding the last record's opening entry |
| TruthTable.AddDeductions | isc-sys/app/reports/page.js:264-269 | the ids are unchanged, and each entry's use and opening stock grow by that item's deducted quantity |
| TruthTable.AddWastage | isc-sys/app/reports/page.js:271-276 | the ids are unchanged, and each entry's waste and opening stock grow by that item's wasted quantity |
| TruthTable.UsedQtyStep | isc-sys/app/reports/page.js:264-267 | one more deduction adds its quantity to its own item's total use and to no other |
| TruthTable.WastedQtyStep | isc-sys/app/reports/page.js:271-274 | one more wastage entry adds its quantity to its own item's total waste and to no other |
| TruthTable.DeductStep | isc-sys/app/reports/page.js:264-269 | one pass of the deduction loop keeps every entry equal to the opening entry plus the deductions seen; a deduction of an unknown item changes nothing |
| TruthTable.WasteStep | isc-sys/app/reports/page.js:271-276 | one pass of the wastage loop keeps every entry equal to the opening entry plus the wastage seen; an entry of an unknown item changes nothing |
| TruthTable.ItemStats | isc-sys/app/reports/page.js:246-276 | one entry per inventory id, holding that item's expected ledger entry for the period |
| TruthTable.ReorderedRowsAreExpected | isc-sys/app/reports/page.js:278-284 | any reordering of the priced dictionary entries holds only expected rows of inventory ids, no id twice |
| TruthTable.ReorderedRowsCoverItems | isc-sys/app/reports/page.js:278-284 | any reordering of the priced dictionary entries has a row for every inventory record |
| TruthTable.BuildTruthTable | isc-sys/app/reports/page.js:278-284 | exactly one row per inventory id, each its expected priced entry, sorted by wastage cost then money burned, both descending |
| TruthTable.DisplayedRows | isc-sys/app/reports/page.js:309 | exactly the rows with some use or some waste, kept in their order, so a table sorted by loss stays sorted |
| TruthTable.UsedQtyNonNegative | isc-sys/app/reports/page.js:264-269 | non-negative deduction quantities give a non-negative total use |
| TruthTable.WastedQtyNonNegative | isc-sys/app/reports/page.js:271-276 | non-negative wastage quantities give a non-negative total waste |
| TruthTable.LedgerIdentity | isc-sys/app/reports/page.js:246-276 | every row has closing = current stock, opening = closing + used + wasted, used and wasted = the period's totals for the item, purchased = 0 |
| TruthTable.WastageCostAtMostMoneyBurned | isc-sys/app/reports/page.js:281-282 | with non-negative use and unit cost, a row's wastage cost is part of its money burned |
| TruthTable.TotalsOverDisplayedRows | isc-sys/app/reports/page.js:287-288 | with non-negative quantities, the footer totals over all rows equal the totals over the displayed rows |
| TruthTable.SingleDeductionRow | isc-sys/app/reports/page.js:246-284 | one deduction of q units gives opening stock = current stock + q, money burned = q times the unit cost, and no wastage cost |
| LowStockDanger.ReorderQty | isc-sys/app/reports/page.js:367 | at least the minimum and at least twice the minimum less stock, equal to one of them; a low item refilled by it reaches twice its minimum |
| LowStockDanger.DangerRowFor | isc-sys/app/reports/page.js:363-379 | the row keeps its item and carries the weekly usage over 7 days, the days left at that usage, the reorder quantity, that quantity times the unit cost, zero stock exactly when the quantity is 0, and critical exactly when at most 2 days are left |
| LowStockDanger.DangerItems | isc-sys/app/reports/page.js:361-380 | one row per low-stock item, exactly those items' rows, soonest to run out first |
| LowStockDanger.TotalReorderCostOverLowStock | isc-sys/app/reports/page.js:382 | the total reorder cost is the reorder cost summed over the low-stock items, whatever the usage |
| LowStockDanger.ReorderRefillsToTwiceMinimum | isc-sys/app/reports/page.js:367 | every listed item reordered as suggested reaches exactly twice its minimum, and the reorder is at least the minimum |
| LowStockDanger.CriticalRowsComeFirst | isc-sys/app/reports/page.js:377-380 | critical rows (at most 2 days left) form the head of the list |
| LowStockDanger.EmptyItemCriticalIffUsed | isc-sys/app/reports/page.js:366-377 | an empty item is flagged zero, and is critical exactly when it has some usage |
| LowStockDanger.DangerUsageIsAverage | isc-sys/app/reports/page.js:353-365 | a row's daily usage is the same 7-day average the inventory page uses |
| LowStockDanger.RunsOutNoLaterIsTotalPreorder | isc-sys/app/reports/page.js:380 | the days-left comparator is a total preorder, so the stable sort is well defined |
| MovementLog.FromDeduction | isc-sys/app/reports/page.js:453-467 | a deduction becomes a USED record with its creation time and total cost |
| MovementLog.FromWastage | isc-sys/app/reports/page.js:469-483 | a wastage entry becomes a WASTED record with its creation time and cost loss |
| MovementLog.Movements | isc-sys/app/reports/page.js:450-486 | one record per deduction and per wastage entry, as a multiset, newest first |
| MovementLog.LogMembership | isc-sys/app/reports/page.js:450-486 | a record is in the log exactly when it comes from a deduction or a wastage entry of the period |
| MovementLog.LogCostIsUsedPlusWasted | isc-sys/app/reports/page.js:464-480 | the log's costs add up to the period's usage cost plus its wastage cost |
| MovementLog.DisplayMovements | isc-sys/app/reports/page.js:488 | expanded shows everything; collapsed shows the first min(10, n) records, in order |
| MovementLog.ToggleIffCollapsedHides | isc-sys/app/reports/page.js:537 | the expand button shows exactly when the collapsed view hides a record |
| Cart.Add | qr-sys/lib/cart.js:9-19 | the length is unchanged for an item already in the cart and grows by one otherwise |
| Cart.Remove | qr-sys/lib/cart.js:21-23 | exactly the lines of other items remain, in their order |
| Cart.SetQuantity | qr-sys/lib/cart.js:25-33 | a positive quantity keeps the number of lines |
| Cart.CountAppend | qr-sys/lib/cart.js:38 | appending a line adds its quantity to the count |
| Cart.CountUpdate | qr-sys/lib/cart.js:38 | replacing a line moves the count by the quantity difference |
| Cart.AddNewItem | qr-sys/lib/cart.js:17 | adding an item the cart lacks keeps every line and appends one with its id, its price and quantity 1 |
| Cart.AddExistingItem | qr-sys/lib/cart.js:11-15 | adding an item the cart holds raises that line's quantity by one and changes nothing else |
| Cart.AddRaisesCountByOne | qr-sys/lib/cart.js:9-19 | adding anything raises the count by exactly one |
| Cart.LineTotalBump | qr-sys/lib/cart.js:37 | one more unit of a line adds its price to that line's total |
| Cart.AddRaisesTotalByPrice | qr-sys/lib/cart.js:13-15 | adding an item already in the cart raises the total by that line's price |
| Cart.AddPreservesValid | qr-sys/lib/cart.js:9-19 | adding keeps one line per item with positive quantities |
| Cart.RemoveAbsentIsNoOp | qr-sys/lib/cart.js:22 | removing an id no line carries leaves the cart unchanged |
| Cart.RemovePreservesValid | qr-sys/lib/cart.js:21-23 | removing keeps one line per item with positive quantities |
| Cart.SetQuantityTouchesOnlyThatItem | qr-sys/lib/cart.js:30-32 | a positive quantity changes only that item's quantity; every line keeps its position, id, name and price |
| Cart.SetNonPositiveQuantityRemoves | qr-sys/lib/cart.js:26-29 | a quantity of zero or less removes exactly that item's lines |
| Cart.SetQuantityAdjustsCount | qr-sys/lib/cart.js:30-32 | setting a held item's quantity moves the count by the difference |
| Cart.SetQuantityPreservesValid | qr-sys/lib/cart.js:25-33 | setting a quantity keeps one line per item with positive quantities |
| Cart.EmptyCartTotals | qr-sys/lib/cart.js:35-38 | the empty cart totals 0 and counts 0 |
| Cart.CartState.constructor | qr-sys/lib/cart.js:7 | the cart starts empty |
| Cart.CartState.AddToCart | qr-sys/lib/cart.js:9-19 | the lines become the added cart; a valid cart stays valid and its count grows by one |
| Cart.CartState.RemoveFromCart | qr-sys/lib/cart.js:21-23 | the lines become the cart without the item; validity is kept |
| Cart.CartState.UpdateQuantity | qr-sys/lib/cart.js:25-33 | the lines become the updated cart, with removal for a quantity of zero or less; validity is kept |
| Cart.CartState.ClearCart | qr-sys/lib/cart.js:35 | the cart is empty, with total 0 and count 0 |
| Reservations.OverlapIsIntersection | isc-sys/convex/reservations.ts:112-116 | for well-formed intervals the three-clause test is half-open interval intersection |
| Reservations.OverlapIsSymmetric | isc-sys/convex/reservations.ts:112-116 | for well-formed intervals it does not matter which interval is the new one |
| Reservations.BackToBackNeverConflicts | isc-sys/convex/reservations.ts:113-114 | a booking that starts when another ends, or ends when it starts, does not conflict |
| Reservations.TableById | isc-sys/convex/reservations.ts:99-100 | a found table is stored with that id; none is found exactly when no table has it |
| Reservations.Existing | isc-sys/convex/reservations.ts:103-108 | exactly the confirmed reservations of the booking's table and date, in storage order |
| Reservations.FindConflict | isc-sys/convex/reservations.ts:110-119 | none exactly when nothing clashes; otherwise the first clashing reservation |
| Reservations.InsertKeepsNoDoubleBooking | isc-sys/convex/reservations.ts:110-132 | inserting a booking that passed the check keeps the store free of double bookings |
| Reservations.NoDoubleBookingMeansDisjoint | isc-sys/convex/reservations.ts:110-119 | with well-formed intervals, two confirmed reservations of one table and date never share a minute |
| Reservations.Patched | isc-sys/convex/reservations.ts:143 | a patch keeps every reservation in place, gives the one with that id the new status and leaves every other field of it and every other reservation unchanged |
| Reservations.UnconfirmingKeepsNoDoubleBooking | isc-sys/convex/reservations.ts:137-153 | any status other than confirmed, cancelling included, keeps the store free of double bookings |
| Reservations.ReconfirmingCanDoubleBook | isc-sys/convex/reservations.ts:137-145 | re-confirming a cancelled reservation can create a double booking |
| Reservations.ReservationStore.constructor | isc-sys/convex/reservations.ts:121 | the store starts empty |
| Reservations.ReservationStore.Create | isc-sys/convex/reservations.ts:98-133 | "Table not found" for an unknown table and "already reserved" with the first clash's times, both storing nothing; otherwise exactly one confirmed reservation with the table's number is appended; the store stays free of double bookings |
| Reservations.ReservationStore.Cancel | isc-sys/convex/reservations.ts:148-153 | the reservation becomes cancelled, and the store stays free of double bookings |
| Reservations.ReservationStore.UpdateStatus | isc-sys/convex/reservations.ts:137-145 | the reservation gets the given status unchecked; only a non-confirmed status keeps the store free of double bookings |
| Reservations.EarlierSlotIsTotalPreorder | isc-sys/convex/reservations.ts:26-29 | ordering by date then start time is a total preorder |
| Reservations.List | isc-sys/convex/reservations.ts:5-31 | exactly the reservations of the date (all when none is given), each with its table, as a multiset, ordered by date then start time |
| Reservations.JoinMembership | isc-sys/convex/reservations.ts:19-24 | a joined record is there exactly when its reservation is kept and its table is that reservation's table |
| Reservations.GetByTable | isc-sys/convex/reservations.ts:34-49 | exactly the table's reservations from today on that are not cancelled, as a multiset, ordered by date then start time |
| Reservations.TableByNumber | isc-sys/convex/reservations.ts:56-58 | a found table has that number; none is found exactly when no table has it |
| Reservations.FirstQualifyingIsFirst | isc-sys/convex/reservations.ts:72-82 | the scan finds nothing exactly when no reservation is ongoing or later; otherwise the first one that is, flagged current iff ongoing |
| Reservations.ScanTodays | isc-sys/convex/reservations.ts:72-82 | the loop returns the first qualifying reservation |
| Reservations.GetCurrentForTable | isc-sys/convex/reservations.ts:52-84 | nothing for an unknown table number; otherwise the scan over that table's confirmed reservations today |
| Reservations.ScanCanMissOngoingReservation | isc-sys/convex/reservations.ts:72-80 | an evening booking stored before an ongoing lunch booking hides it |
| Reservations.CurrentOrNext | isc-sys/convex/reservations.ts:71-82 | an ongoing reservation whenever one exists; otherwise the soonest later one; nothing exactly when none qualifies |
| Reservations.GetTodayStats | isc-sys/convex/reservations.ts:156-172 | total counts today's confirmed reservations and upcoming counts those of them that start after now; upcoming is at most total, which is at most the number of stored reservations |
| Reservations.TodayStatsSplit | isc-sys/convex/reservations.ts:165-170 | total minus upcoming is exactly the number of today's confirmed reservations that started by now |

## Left out

- Rendering, layout, navigation links and the `toFixed`/`toLocaleString` number formatting are not modelled.
- The clock is a parameter: today, yesterday, week and month start, the 7-day cutoff, now, days passed and days in month. The date arithmetic that produces them from `Date.now()` is not modelled.
- Floating point: every quantity and amount is an exact real, so rounding in sums and divisions is not modelled.
- The database is not modelled: queries, indexes, `Promise.all`, concurrency and the generation of new ids. A new reservation's id is a parameter of `Create`.
- A patch on a missing id throws in the database. The model leaves such a patch as a no-op.
- JavaScript orders integer-like object keys numerically before the other keys. The model keeps every dictionary in first-insertion order, so it assumes no item name, reason or id is an integer-like string. Item names and reasons are free text, so a name such as "2" is possible; the source would list it first, which changes which of two equally costly items comes first in `WastageReport.TopWasted` (and so which one the cut to five keeps) and the tie order of `WastageReport.LossByReason`. An integer-like inventory id would likewise change the tie order of `TruthTable.BuildTruthTable`.
- `MovementLog.Movement` omits the display-only `time` field.
- `Reservations.List` models the source's "empty-string date means no filter" with `Option`.
- `Reservations.GetTodayStats` reads one `now`, while the source reads the clock once per reservation.
- The three-clause overlap test is symmetric and equals interval intersection only when start < end. `create` does not check this, so for malformed intervals a booking can pass one way and fail the other. `Reservations.OverlapIsSymmetric` and `Reservations.OverlapIsIntersection` require start < end.
- `Reservations.ReservationStore.UpdateStatus` does not re-run the conflict check, exactly like the source. `Reservations.ReconfirmingCanDoubleBook` shows that re-confirming can double-book.
- TruthTable.LedgerIdentity: states the quantity identities only; money burned and wastage cost are defined by `ToRow` and are not restated as products in the lemma.
- Cart quantities are integers. `updateQuantity` accepts any number, but its callers pass the current quantity plus or minus one, or 0 (qr-sys/app/cart/[tableId]/page.js:418-425 and qr-sys/app/menu/[tableId]/page.js:82-121).
- Cart.Add: states only the line count; the line contents are stated by `Cart.AddNewItem` and `Cart.AddExistingItem` under the cart's own invariant.
- Cart.SetQuantity: states only the line count; the contents are stated by `Cart.SetQuantityTouchesOnlyThatItem` and `Cart.SetNonPositiveQuantityRemoves`.

## Findings

| source | as written | input that shows it | evidently intended | confidence | as-written member | corrected member |
|---|---|---|---|---|---|---|
| isc-sys/convex/reservations.ts:72-82 | returns the first of today's confirmed reservations, in storage order, that is ongoing or starts later | stored evening 18:00-20:00, then lunch 12:00-14:00, now 13:00: returns the evening booking as not current | return the ongoing reservation if any, else the soonest upcoming one | not executed | Reservations.ScanCanMissOngoingReservation | Reservations.CurrentOrNext |
