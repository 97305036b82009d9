/** The reports page's movement log: every deduction (tagged USED) and every
    wastage entry (tagged WASTED) of the period, pushed into one list and
    sorted newest first by creation time; the collapsed view shows the
    first ten. */
module MovementLog {
  import opened Records
  import opened Seqs

  datatype Kind = Used | Wasted

  datatype Movement = Movement(
    id: Id,
    kind: Kind,
    date: Date,
    timestamp: int,
    item: string,
    itemId: Id,
    qty: real,
    unit: string,
    cost: real,
    ref: string)

  /** The record a deduction pushes: cost is its total cost, the reference its order. */
  function FromDeduction(d: Deduction): (m: Movement)
    ensures m.kind == Used && m.timestamp == d.creationTime && m.cost == d.totalCost
  {
    Movement(d.id, Used, d.date, d.creationTime, d.itemName, d.itemId, d.quantity, d.unit, d.totalCost, d.orderId)
  }

  /** The record a wastage entry pushes: cost is its loss, the reference its
      reason, and the unit is left empty. */
  function FromWastage(w: WastageEntry): (m: Movement)
    ensures m.kind == Wasted && m.timestamp == w.creationTime && m.cost == w.costLoss
  {
    Movement(w.id, Wasted, w.date, w.creationTime, w.itemName, w.itemId, w.quantity, "", w.costLoss, w.reason)
  }

  /** The `(a, b) => b.timestamp - a.timestamp` order. */
  predicate NewerOrSame(a: Movement, b: Movement) { a.timestamp >= b.timestamp }

  lemma NewerOrSameIsTotalPreorder()
    ensures TotalPreorder(NewerOrSame)
  {
  }

  /** `movements`: the two `forEach` loops that push into `all`, then the sort. */
  method Movements(ds: seq<Deduction>, ws: seq<WastageEntry>) returns (log: seq<Movement>)
    ensures |log| == |ds| + |ws|
    ensures multiset(log) == multiset(MapSeq(ds, FromDeduction)) + multiset(MapSeq(ws, FromWastage))
    ensures forall i, j :: 0 <= i < j < |log| ==> log[i].timestamp >= log[j].timestamp
  {
    var all: seq<Movement> := [];
    var i := 0;
    while i < |ds|
      invariant 0 <= i <= |ds|
      invariant all == MapSeq(ds[..i], FromDeduction)
    {
      assert ds[..i + 1][..i] == ds[..i];
      all := all + [FromDeduction(ds[i])];
      i := i + 1;
    }
    assert ds[..|ds|] == ds;
    var j := 0;
    while j < |ws|
      invariant 0 <= j <= |ws|
      invariant all == MapSeq(ds, FromDeduction) + MapSeq(ws[..j], FromWastage)
    {
      assert ws[..j + 1][..j] == ws[..j];
      all := all + [FromWastage(ws[j])];
      j := j + 1;
    }
    assert ws[..|ws|] == ws;
    NewerOrSameIsTotalPreorder();
    log := SortBy(all, NewerOrSame);
  }

  /** Every deduction and every wastage entry has its movement in the log,
      and the log holds nothing else. */
  lemma LogMembership(ds: seq<Deduction>, ws: seq<WastageEntry>, log: seq<Movement>, m: Movement)
    requires multiset(log) == multiset(MapSeq(ds, FromDeduction)) + multiset(MapSeq(ws, FromWastage))
    ensures m in log <==> (exists d :: d in ds && m == FromDeduction(d)) || (exists w :: w in ws && m == FromWastage(w))
  {
    assert m in log <==> m in multiset(log);
    var used, wasted := MapSeq(ds, FromDeduction), MapSeq(ws, FromWastage);
    assert m in multiset(log) <==> m in used || m in wasted;
    if m in used {
      var k :| 0 <= k < |used| && used[k] == m;
      assert ds[k] in ds;
    }
    if m in wasted {
      var k :| 0 <= k < |wasted| && wasted[k] == m;
      assert ws[k] in ws;
    }
    if d :| d in ds && m == FromDeduction(d) {
      var k :| 0 <= k < |ds| && ds[k] == d;
      assert used[k] == m;
    }
    if w :| w in ws && m == FromWastage(w) {
      var k :| 0 <= k < |ws| && ws[k] == w;
      assert wasted[k] == m;
    }
  }

  function CostOf(m: Movement): real { m.cost }

  /** The costs in the log add up to the period's usage cost plus its wastage cost. */
  lemma LogCostIsUsedPlusWasted(ds: seq<Deduction>, ws: seq<WastageEntry>, log: seq<Movement>)
    requires multiset(log) == multiset(MapSeq(ds, FromDeduction)) + multiset(MapSeq(ws, FromWastage))
    ensures SumOf(log, CostOf) == SumOf(ds, TotalCostOf) + SumOf(ws, CostLossOf)
  {
    var used, wasted := MapSeq(ds, FromDeduction), MapSeq(ws, FromWastage);
    assert multiset(log) == multiset(used + wasted);
    SumOfPermutation(log, used + wasted, CostOf);
    SumOfAppend(used, wasted, CostOf);
    SumOfMapSeq(ds, FromDeduction, CostOf, TotalCostOf);
    SumOfMapSeq(ws, FromWastage, CostOf, CostLossOf);
  }

  /** Number of movements the collapsed log shows. */
  const CollapsedSize: nat := 10

  /** `expanded ? movements : movements.slice(0, 10)`. */
  function DisplayMovements(log: seq<Movement>, expanded: bool): (shown: seq<Movement>)
    ensures expanded ==> shown == log
    ensures !expanded ==> |shown| == (if |log| < CollapsedSize then |log| else CollapsedSize)
    ensures forall k :: 0 <= k < |shown| ==> shown[k] == log[k]
  {
    if expanded then log else Prefix(log, CollapsedSize)
  }

  /** The expand/collapse button: `movements.length > 10`. */
  predicate ShowToggle(log: seq<Movement>) { |log| > CollapsedSize }

  /** The button appears exactly when the collapsed view hides some movement. */
  lemma ToggleIffCollapsedHides(log: seq<Movement>)
    ensures ShowToggle(log) <==> |DisplayMovements(log, false)| < |log|
  {
  }
}
