/** The reports page's low-stock triage: every item at or below its minimum,
    with its daily usage (the weekly total over 7), days of stock left, a
    reorder quantity that refills it to twice the minimum, and what that
    costs; the list runs from the soonest to run out, and the page totals
    the reorder cost. */
module LowStockDanger {
  import opened Records
  import opened Seqs
  import opened Stock
  import opened Usage

  /** Rows with at most this many days left are flagged critical. */
  const CriticalDays: real := 2.0

  /** `Math.max(minStock * 2 - quantity, minStock)`. */
  function ReorderQty(quantity: real, minStock: real): (r: real)
    ensures r >= minStock && r >= minStock * 2.0 - quantity
    ensures r == minStock || r == minStock * 2.0 - quantity
    ensures quantity <= minStock ==> quantity + r == minStock * 2.0
  {
    if minStock * 2.0 - quantity > minStock then minStock * 2.0 - quantity else minStock
  }

  datatype DangerRow = DangerRow(
    item: InventoryItem,
    dailyUsage: real,
    daysLeft: real,
    reorderQty: real,
    reorderCost: real,
    isZero: bool,
    isCritical: bool)

  /** The `.map` step for one item, given the weekly usage totals. */
  function DangerRowFor(item: InventoryItem, weekly: map<Id, real>): (row: DangerRow)
    ensures row.item == item
    ensures row.dailyUsage == DailyUsage(weekly, item.id) / WindowDays
    ensures row.daysLeft == DaysLeft(item.quantity, row.dailyUsage)
    ensures row.reorderQty == ReorderQty(item.quantity, item.minStock)
    ensures row.reorderCost == row.reorderQty * item.costPerUnit
    ensures row.isZero <==> item.quantity == 0.0
    ensures row.isCritical <==> row.daysLeft <= CriticalDays
  {
    var u := DailyUsage(weekly, item.id) / WindowDays;
    var left := DaysLeft(item.quantity, u);
    var qty := ReorderQty(item.quantity, item.minStock);
    DangerRow(item, u, left, qty, qty * item.costPerUnit, item.quantity == 0.0, left <= CriticalDays)
  }

  function RowFor(weekly: map<Id, real>): InventoryItem -> DangerRow
  {
    (item: InventoryItem) => DangerRowFor(item, weekly)
  }

  /** The `.sort((a, b) => a.daysLeft - b.daysLeft)` order. */
  predicate RunsOutNoLater(a: DangerRow, b: DangerRow) { a.daysLeft <= b.daysLeft }

  lemma RunsOutNoLaterIsTotalPreorder()
    ensures TotalPreorder(RunsOutNoLater)
  {
  }

  /** `dangerItems`: one row per low-stock item, soonest to run out first. */
  function DangerItems(items: seq<InventoryItem>, weekly: map<Id, real>): (rows: seq<DangerRow>)
    ensures |rows| == |LowStock(items)|
    ensures forall row :: row in rows <==> row.item in items && row.item.quantity <= row.item.minStock && row == DangerRowFor(row.item, weekly)
    ensures forall i, j :: 0 <= i < j < |rows| ==> rows[i].daysLeft <= rows[j].daysLeft
  {
    var low := LowStock(items);
    var mapped := MapSeq(low, RowFor(weekly));
    RunsOutNoLaterIsTotalPreorder();
    var rows := SortBy(mapped, RunsOutNoLater);
    assert forall row :: row in rows <==> row in mapped by {
      forall row ensures row in rows <==> row in mapped {
        assert row in rows <==> row in multiset(rows);
      }
    }
    forall row: DangerRow | row.item in low && row == DangerRowFor(row.item, weekly) ensures row in mapped {
      var k :| 0 <= k < |low| && low[k] == row.item;
      assert mapped[k] == row;
    }
    rows
  }

  function ReorderCostOf(row: DangerRow): real { row.reorderCost }

  /** `dangerItems.reduce((sum, i) => sum + i.reorderCost, 0)`. */
  function TotalReorderCost(rows: seq<DangerRow>): real { SumOf(rows, ReorderCostOf) }

  /** What reordering one item costs. */
  function ItemReorderCost(item: InventoryItem): real
  {
    ReorderQty(item.quantity, item.minStock) * item.costPerUnit
  }

  /** Sorting does not change the total: it is the reorder cost summed over
      the low-stock items, independent of usage. */
  lemma TotalReorderCostOverLowStock(items: seq<InventoryItem>, weekly: map<Id, real>)
    ensures TotalReorderCost(DangerItems(items, weekly)) == SumOf(LowStock(items), ItemReorderCost)
  {
    var low := LowStock(items);
    var mapped := MapSeq(low, RowFor(weekly));
    RunsOutNoLaterIsTotalPreorder();
    assert DangerItems(items, weekly) == SortBy(mapped, RunsOutNoLater);
    SumOfPermutation(DangerItems(items, weekly), mapped, ReorderCostOf);
    SumOfMapSeq(low, RowFor(weekly), ReorderCostOf, ItemReorderCost);
  }

  /** Reordering the suggested quantity refills every listed item to exactly
      twice its minimum, and never orders less than the minimum. */
  lemma ReorderRefillsToTwiceMinimum(items: seq<InventoryItem>, weekly: map<Id, real>, row: DangerRow)
    requires row in DangerItems(items, weekly)
    ensures row.item.quantity + row.reorderQty == row.item.minStock * 2.0
    ensures row.reorderQty >= row.item.minStock
  {
  }

  /** The critical rows (at most 2 days left) form the head of the list. */
  lemma CriticalRowsComeFirst(items: seq<InventoryItem>, weekly: map<Id, real>, i: nat, j: nat)
    requires i < j < |DangerItems(items, weekly)|
    requires DangerItems(items, weekly)[j].isCritical
    ensures DangerItems(items, weekly)[i].isCritical
  {
    var rows := DangerItems(items, weekly);
    assert rows[j] == DangerRowFor(rows[j].item, weekly);
    assert rows[i] == DangerRowFor(rows[i].item, weekly);
  }

  /** An empty item that is still being used has no days left and is critical;
      one with no recorded usage gets the 999-day sentinel and is not. */
  lemma EmptyItemCriticalIffUsed(item: InventoryItem, weekly: map<Id, real>)
    requires item.quantity == 0.0 && DailyUsage(weekly, item.id) >= 0.0
    ensures DangerRowFor(item, weekly).isZero
    ensures DangerRowFor(item, weekly).isCritical <==> DailyUsage(weekly, item.id) > 0.0
  {
    var u := DailyUsage(weekly, item.id) / WindowDays;
    if u > 0.0 {
      assert DaysLeft(0.0, u) * u == 0.0;
    }
  }

  /** With the weekly totals built from the deductions, the row's daily usage
      is the same 7-day average the inventory page uses. */
  lemma DangerUsageIsAverage(items: seq<InventoryItem>, weekly: map<Id, real>, ds: seq<Deduction>, cutoff: Date, row: DangerRow)
    requires forall k :: k in weekly <==> HasWindowDeduction(ds, cutoff, k)
    requires forall k :: k in weekly ==> weekly[k] == WindowTotal(ds, cutoff, k)
    requires row in DangerItems(items, weekly)
    ensures row.dailyUsage == AverageDailyUsage(ds, cutoff, row.item.id)
  {
    WeeklyTotalOverSevenIsAverage(weekly, ds, cutoff, row.item.id);
  }
}
