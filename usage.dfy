/** The 7-day rolling usage estimate. Three pages build it with the same loop:
    the deductions dated on or after a cutoff (seven days before now) are
    summed per item into a dictionary, and every entry is then divided by a
    fixed 7, whatever the number of days with activity. Items without such a
    deduction have no entry and read as 0. The low-stock report keeps the
    undivided weekly totals and divides per item. */
module Usage {
  import opened Records

  /** The fixed divisor: the window length in days. */
  const WindowDays: real := 7.0

  /** An in-window deduction of item `id` exists. */
  predicate HasWindowDeduction(ds: seq<Deduction>, cutoff: Date, id: Id)
  {
    exists d :: d in ds && d.itemId == id && d.date >= cutoff
  }

  /** Total quantity of item `id` deducted on or after `cutoff`. */
  function WindowTotal(ds: seq<Deduction>, cutoff: Date, id: Id): real
    decreases |ds|
  {
    if ds == [] then 0.0
    else
      var d := ds[|ds| - 1];
      WindowTotal(ds[..|ds| - 1], cutoff, id) + (if d.itemId == id && d.date >= cutoff then d.quantity else 0.0)
  }

  /** The specified average daily usage of item `id`. */
  function AverageDailyUsage(ds: seq<Deduction>, cutoff: Date, id: Id): real
  {
    WindowTotal(ds, cutoff, id) / WindowDays
  }

  /** `usageStats[id] || 0`: a missing entry reads as zero. */
  function DailyUsage(stats: map<Id, real>, id: Id): real
  {
    if id in stats then stats[id] else 0.0
  }

  /** `stats` is the usage dictionary the pages build from `ds` and `cutoff`. */
  ghost predicate IsUsageStats(stats: map<Id, real>, ds: seq<Deduction>, cutoff: Date)
  {
    && (forall id :: id in stats <==> HasWindowDeduction(ds, cutoff, id))
    && (forall id :: id in stats ==> stats[id] == AverageDailyUsage(ds, cutoff, id))
  }

  /** The weekly totals: the first loop of `usageStats`, and all of `usageByItem`. */
  method WeeklyUsage(ds: seq<Deduction>, cutoff: Date) returns (totals: map<Id, real>)
    ensures forall id :: id in totals <==> HasWindowDeduction(ds, cutoff, id)
    ensures forall id :: id in totals ==> totals[id] == WindowTotal(ds, cutoff, id)
  {
    totals := map[];
    var i := 0;
    while i < |ds|
      invariant 0 <= i <= |ds|
      invariant forall id :: id in totals <==> HasWindowDeduction(ds[..i], cutoff, id)
      invariant forall id :: id in totals ==> totals[id] == WindowTotal(ds[..i], cutoff, id)
    {
      var d := ds[i];
      assert ds[..i + 1] == ds[..i] + [d];
      assert ds[..i + 1][..i] == ds[..i];
      assert forall id ::
        WindowTotal(ds[..i + 1], cutoff, id)
        == WindowTotal(ds[..i], cutoff, id) + (if d.itemId == id && d.date >= cutoff then d.quantity else 0.0);
      if d.date >= cutoff {
        if d.itemId !in totals {
          NoWindowDeductionMeansZero(ds[..i], cutoff, d.itemId);
          totals := totals[d.itemId := 0.0];
        }
        totals := totals[d.itemId := totals[d.itemId] + d.quantity];
      }
      i := i + 1;
    }
    assert ds[..|ds|] == ds;
  }

  /** `usageStats`: the weekly totals, then every entry divided by 7. */
  method UsageStats(ds: seq<Deduction>, cutoff: Date) returns (stats: map<Id, real>)
    ensures IsUsageStats(stats, ds, cutoff)
  {
    var totals := WeeklyUsage(ds, cutoff);
    stats := totals;
    var pending := totals.Keys;
    while pending != {}
      invariant pending <= totals.Keys
      invariant stats.Keys == totals.Keys
      invariant forall id :: id in stats ==> stats[id] == if id in pending then totals[id] else totals[id] / WindowDays
      decreases pending
    {
      var id :| id in pending;
      stats := stats[id := stats[id] / WindowDays];
      pending := pending - {id};
    }
  }

  /** Without an in-window deduction an item's window total is zero. */
  lemma {:induction false} NoWindowDeductionMeansZero(ds: seq<Deduction>, cutoff: Date, id: Id)
    requires !HasWindowDeduction(ds, cutoff, id)
    ensures WindowTotal(ds, cutoff, id) == 0.0
    decreases |ds|
  {
    if ds != [] {
      var init := ds[..|ds| - 1];
      assert ds[|ds| - 1] in ds;
      assert !HasWindowDeduction(init, cutoff, id) by {
        forall d | d in init ensures !(d.itemId == id && d.date >= cutoff) {
          assert d in ds;
        }
      }
      NoWindowDeductionMeansZero(init, cutoff, id);
    }
  }

  /** Reading the dictionary with the zero default gives the specified average
      for every item, present or not. */
  lemma DailyUsageIsAverage(stats: map<Id, real>, ds: seq<Deduction>, cutoff: Date, id: Id)
    requires IsUsageStats(stats, ds, cutoff)
    ensures DailyUsage(stats, id) == AverageDailyUsage(ds, cutoff, id)
  {
    if id !in stats {
      NoWindowDeductionMeansZero(ds, cutoff, id);
    }
  }

  /** Dividing a weekly total read with the zero default by 7, as the low-stock
      report does, gives the same average. */
  lemma WeeklyTotalOverSevenIsAverage(totals: map<Id, real>, ds: seq<Deduction>, cutoff: Date, id: Id)
    requires forall k :: k in totals <==> HasWindowDeduction(ds, cutoff, k)
    requires forall k :: k in totals ==> totals[k] == WindowTotal(ds, cutoff, k)
    ensures DailyUsage(totals, id) / WindowDays == AverageDailyUsage(ds, cutoff, id)
  {
    if id !in totals {
      NoWindowDeductionMeansZero(ds, cutoff, id);
    }
  }

  /** With no deductions at all every item's usage is zero. */
  lemma NoHistoryNoUsage(stats: map<Id, real>, cutoff: Date, id: Id)
    requires IsUsageStats(stats, [], cutoff)
    ensures DailyUsage(stats, id) == 0.0
  {
  }
}
