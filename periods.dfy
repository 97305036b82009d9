/** The reports page's reporting period: the choice of range, the inclusive
    date filter applied to deductions and wastage, and the month-to-date
    wastage filter. The clock readings the page takes (today, yesterday, seven
    days ago, the first of the month) are passed in as a `Clock`. */
module Periods {
  import opened Records
  import opened Seqs

  datatype Clock = Clock(today: Date, yesterday: Date, weekStart: Date, monthStart: Date)

  datatype DateFilter = DateFilter(start: Date, end: Date, caption: string)

  /** The period for the selected range. An unset custom bound (the empty
      date input) falls back to today; an unknown range means today. */
  function DateFilters(range: string, customStart: Option<Date>, customEnd: Option<Date>, c: Clock): (f: DateFilter)
    ensures range == "custom" ==> f.start == (if customStart.Some? then customStart.value else c.today)
    ensures range == "custom" ==> f.end == (if customEnd.Some? then customEnd.value else c.today)
    ensures range != "custom" && range != "yesterday" ==> f.end == c.today
    ensures range == "yesterday" ==> f.start == f.end == c.yesterday
    ensures range == "week" ==> f.start == c.weekStart
    ensures range == "month" ==> f.start == c.monthStart
    ensures range !in {"yesterday", "week", "month", "custom"} ==> f.start == f.end == c.today
    ensures range != "custom" && c.weekStart <= c.today && c.monthStart <= c.today ==> f.start <= f.end
  {
    match range
    case "today" => DateFilter(c.today, c.today, "Today")
    case "yesterday" => DateFilter(c.yesterday, c.yesterday, "Yesterday")
    case "week" => DateFilter(c.weekStart, c.today, "This Week")
    case "month" => DateFilter(c.monthStart, c.today, "This Month")
    case "custom" =>
      DateFilter(
        if customStart.Some? then customStart.value else c.today,
        if customEnd.Some? then customEnd.value else c.today,
        "Custom")
    case _ => DateFilter(c.today, c.today, "Today")
  }

  /** Both bounds are inclusive. */
  predicate InPeriod(date: Date, f: DateFilter) { f.start <= date <= f.end }

  /** `allDeductions.filter(d => d.date >= start && d.date <= end)`. */
  function PeriodDeductions(ds: seq<Deduction>, f: DateFilter): (r: seq<Deduction>)
    ensures forall d :: d in r <==> d in ds && f.start <= d.date <= f.end
    ensures SubseqOf(r, ds)
    ensures f.start > f.end ==> r == []
  {
    var keep := (d: Deduction) => InPeriod(d.date, f);
    FilterIsSubsequence(ds, keep);
    Filter(ds, keep)
  }

  /** `allWastage.entries.filter(w => w.date >= start && w.date <= end)`. */
  function PeriodWastage(ws: seq<WastageEntry>, f: DateFilter): (r: seq<WastageEntry>)
    ensures forall w :: w in r <==> w in ws && f.start <= w.date <= f.end
    ensures SubseqOf(r, ws)
    ensures f.start > f.end ==> r == []
  {
    var keep := (w: WastageEntry) => InPeriod(w.date, f);
    FilterIsSubsequence(ws, keep);
    Filter(ws, keep)
  }

  /** `allWastage.entries.filter(w => w.date >= monthStart)`. */
  function MonthWastage(ws: seq<WastageEntry>, monthStart: Date): (r: seq<WastageEntry>)
    ensures forall w :: w in r <==> w in ws && w.date >= monthStart
    ensures SubseqOf(r, ws)
  {
    var keep := (w: WastageEntry) => w.date >= monthStart;
    FilterIsSubsequence(ws, keep);
    Filter(ws, keep)
  }

  /** The "This Month" period keeps exactly the month-to-date entries dated up to today. */
  lemma MonthPeriodIsMonthToDate(ws: seq<WastageEntry>, c: Clock, w: WastageEntry)
    ensures w in PeriodWastage(ws, DateFilters("month", None, None, c))
        <==> w in MonthWastage(ws, c.monthStart) && w.date <= c.today
  {
  }
}
