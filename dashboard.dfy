/** The dashboard's derived figures: today's deductions and their cost, and
    the low-stock alert panel that shows at most six items. Stock value and
    the low/zero-stock lists are those of module Stock. */
module Dashboard {
  import opened Records
  import opened Seqs
  import opened Stock

  /** `deductions.filter(d => d.date === today)`. */
  function TodayDeductions(ds: seq<Deduction>, today: Date): (r: seq<Deduction>)
    ensures forall d :: d in r <==> d in ds && d.date == today
    ensures SubseqOf(r, ds)
  {
    FilterIsSubsequence(ds, DatedOn(today));
    Filter(ds, DatedOn(today))
  }

  function DatedOn(day: Date): Deduction -> bool
  {
    (d: Deduction) => d.date == day
  }

  /** `todayDeductions.reduce((sum, d) => sum + d.totalCost, 0)`. */
  function TodayUsage(ds: seq<Deduction>, today: Date): real
  {
    SumOf(TodayDeductions(ds, today), TotalCostOf)
  }

  /** Today's usage is zero when nothing was deducted today, and with
      non-negative costs lies between zero and the cost of all deductions. */
  lemma TodayUsageBounds(ds: seq<Deduction>, today: Date)
    ensures (forall d :: d in ds ==> d.date != today) ==> TodayUsage(ds, today) == 0.0
    ensures (forall d :: d in ds ==> d.totalCost >= 0.0) ==>
      0.0 <= TodayUsage(ds, today) <= SumOf(ds, TotalCostOf)
  {
    if forall d :: d in ds ==> d.date != today {
      FilterNone(ds, DatedOn(today));
    }
    if forall d :: d in ds ==> d.totalCost >= 0.0 {
      SumOfFilterAtMost(ds, DatedOn(today), TotalCostOf);
      SumOfNonNegative(TodayDeductions(ds, today), TotalCostOf);
    }
  }

  /** Number of low-stock items the alert panel shows. */
  const AlertPanelSize: nat := 6

  /** `lowStockItems.slice(0, 6)`. */
  function AlertPanel(low: seq<InventoryItem>): (shown: seq<InventoryItem>)
    ensures |shown| == if |low| < AlertPanelSize then |low| else AlertPanelSize
    ensures forall k :: 0 <= k < |shown| ==> shown[k] == low[k]
  {
    Prefix(low, AlertPanelSize)
  }

  /** The "View all" link: `lowStockItems.length > 6`. */
  predicate ShowViewAll(low: seq<InventoryItem>) { |low| > AlertPanelSize }

  /** The link appears exactly when the panel leaves some low-stock item out. */
  lemma ViewAllIffPanelTruncated(low: seq<InventoryItem>)
    ensures ShowViewAll(low) <==> |AlertPanel(low)| < |low|
  {
  }
}
