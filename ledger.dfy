/** The reports page's "Truth Table": a per-item ledger for the reporting
    period. The current quantity is the closing stock; the opening stock is
    rebuilt by adding back what was used and wasted in the period (no
    purchases are recorded, so `purchased` is always 0). Rows are ordered by
    wastage cost, then by money burned, both descending; the table shows the
    rows with any activity and totals money burned and wastage cost. */
module TruthTable {
  import opened Records
  import opened Seqs
  import opened Usage

  datatype ItemStat = ItemStat(
    id: Id,
    name: string,
    category: string,
    unit: string,
    costPerUnit: real,
    closingStock: real,
    openingStock: real,
    purchased: real,
    used: real,
    wasted: real,
    avgDaily: real)

  datatype LedgerRow = LedgerRow(stat: ItemStat, moneyBurned: real, wastageCost: real)

  /** Total quantity of item `id` deducted in the given events. */
  function UsedQty(ds: seq<Deduction>, id: Id): real
    decreases |ds|
  {
    if ds == [] then 0.0
    else
      var d := ds[|ds| - 1];
      UsedQty(ds[..|ds| - 1], id) + (if d.itemId == id then d.quantity else 0.0)
  }

  /** Total quantity of item `id` wasted in the given entries. */
  function WastedQty(ws: seq<WastageEntry>, id: Id): real
    decreases |ws|
  {
    if ws == [] then 0.0
    else
      var w := ws[|ws| - 1];
      WastedQty(ws[..|ws| - 1], id) + (if w.itemId == id then w.quantity else 0.0)
  }

  predicate HasItem(items: seq<InventoryItem>, id: Id)
  {
    exists i :: i in items && i.id == id
  }

  /** The inventory record a dictionary keyed by id keeps for `id`: the last one. */
  function LastItem(items: seq<InventoryItem>, id: Id): (i: InventoryItem)
    requires HasItem(items, id)
    ensures i in items && i.id == id
    decreases |items|
  {
    var last := items[|items| - 1];
    if last.id == id then last
    else
      var init := items[..|items| - 1];
      assert HasItem(init, id) by {
        var j :| j in items && j.id == id;
        assert items == init + [last];
      }
      LastItem(init, id)
  }

  /** The entry the first loop stores for an item. */
  function Opening(item: InventoryItem, usage: map<Id, real>): ItemStat
  {
    ItemStat(item.id, item.name, item.category, item.unit, item.costPerUnit,
      item.quantity, item.quantity, 0.0, 0.0, 0.0, DailyUsage(usage, item.id))
  }

  /** An entry once `used` and `wasted` are known: opening = closing + used + wasted. */
  function WithEvents(s: ItemStat, used: real, wasted: real): ItemStat
  {
    s.(used := used, wasted := wasted, openingStock := s.closingStock + used + wasted)
  }

  /** The ledger entry of an item, from its record and the period's events. */
  function ExpectedStat(item: InventoryItem, usage: map<Id, real>, ds: seq<Deduction>, ws: seq<WastageEntry>): ItemStat
  {
    WithEvents(Opening(item, usage), UsedQty(ds, item.id), WastedQty(ws, item.id))
  }

  /** The first `forEach`: one entry per inventory id; a later record with
      the same id overwrites the entry, while the key keeps its first position. */
  method OpeningStats(items: seq<InventoryItem>, usage: map<Id, real>)
    returns (order: seq<Id>, stats: map<Id, ItemStat>)
    ensures Distinct(order)
    ensures forall id :: id in order <==> id in stats
    ensures forall id :: id in stats <==> HasItem(items, id)
    ensures forall id :: id in stats ==> stats[id] == Opening(LastItem(items, id), usage)
  {
    order, stats := [], map[];
    var k := 0;
    while k < |items|
      invariant 0 <= k <= |items|
      invariant Distinct(order)
      invariant forall id :: id in order <==> id in stats
      invariant forall id :: id in stats <==> HasItem(items[..k], id)
      invariant forall id :: id in stats ==> stats[id] == Opening(LastItem(items[..k], id), usage)
    {
      var item := items[k];
      assert items[..k + 1][..k] == items[..k];
      forall id ensures HasItem(items[..k + 1], id) <==> HasItem(items[..k], id) || item.id == id {
        if HasItem(items[..k + 1], id) && item.id != id {
          var j :| j in items[..k + 1] && j.id == id;
          assert items[..k + 1] == items[..k] + [item];
          assert j in items[..k];
        }
        if item.id == id {
          assert item in items[..k + 1];
        }
      }
      if item.id !in stats {
        order := order + [item.id];
      }
      stats := stats[item.id := Opening(item, usage)];
      k := k + 1;
    }
    assert items[..|items|] == items;
  }

  /** One more deduction adds its quantity to its item's total use. */
  lemma UsedQtyStep(seen: seq<Deduction>, d: Deduction, id: Id)
    ensures UsedQty(seen + [d], id) == UsedQty(seen, id) + (if d.itemId == id then d.quantity else 0.0)
  {
    assert (seen + [d])[..|seen|] == seen;
  }

  /** One more wastage entry adds its quantity to its item's total waste. */
  lemma WastedQtyStep(seen: seq<WastageEntry>, w: WastageEntry, id: Id)
    ensures WastedQty(seen + [w], id) == WastedQty(seen, id) + (if w.itemId == id then w.quantity else 0.0)
  {
    assert (seen + [w])[..|seen|] == seen;
  }

  /** `stats` is `stats0` once the deductions `seen` are added. */
  ghost predicate DeductedFrom(stats: map<Id, ItemStat>, stats0: map<Id, ItemStat>, seen: seq<Deduction>)
  {
    && (forall id :: id in stats <==> id in stats0)
    && forall id :: id in stats ==> stats[id] == WithEvents(stats0[id], stats0[id].used + UsedQty(seen, id), stats0[id].wasted)
  }

  /** The loop body of the second `forEach` keeps `DeductedFrom`. */
  lemma DeductStep(stats: map<Id, ItemStat>, stats0: map<Id, ItemStat>, seen: seq<Deduction>, d: Deduction)
    requires DeductedFrom(stats, stats0, seen)
    ensures d.itemId in stats ==>
      var s := stats[d.itemId];
      DeductedFrom(stats[d.itemId := s.(used := s.used + d.quantity, openingStock := s.openingStock + d.quantity)], stats0, seen + [d])
    ensures d.itemId !in stats ==> DeductedFrom(stats, stats0, seen + [d])
  {
    forall id {
      UsedQtyStep(seen, d, id);
    }
  }

  /** The second `forEach`: each deduction of a known item adds its quantity
      to `used` and to the opening stock; other deductions are ignored. */
  method AddDeductions(stats0: map<Id, ItemStat>, ds: seq<Deduction>) returns (stats: map<Id, ItemStat>)
    requires forall id :: id in stats0 ==> stats0[id].openingStock == stats0[id].closingStock + stats0[id].used + stats0[id].wasted
    ensures stats.Keys == stats0.Keys
    ensures forall id :: id in stats ==> stats[id] == WithEvents(stats0[id], stats0[id].used + UsedQty(ds, id), stats0[id].wasted)
  {
    stats := stats0;
    var k := 0;
    while k < |ds|
      invariant 0 <= k <= |ds|
      invariant DeductedFrom(stats, stats0, ds[..k])
    {
      var d := ds[k];
      assert ds[..k + 1] == ds[..k] + [d];
      DeductStep(stats, stats0, ds[..k], d);
      if d.itemId in stats {
        var s := stats[d.itemId];
        stats := stats[d.itemId := s.(used := s.used + d.quantity, openingStock := s.openingStock + d.quantity)];
      }
      k := k + 1;
    }
    assert ds[..|ds|] == ds;
  }

  /** `stats` is `stats0` once the wastage entries `seen` are added. */
  ghost predicate WastedFrom(stats: map<Id, ItemStat>, stats0: map<Id, ItemStat>, seen: seq<WastageEntry>)
  {
    && (forall id :: id in stats <==> id in stats0)
    && forall id :: id in stats ==> stats[id] == WithEvents(stats0[id], stats0[id].used, stats0[id].wasted + WastedQty(seen, id))
  }

  /** The loop body of the third `forEach` keeps `WastedFrom`. */
  lemma WasteStep(stats: map<Id, ItemStat>, stats0: map<Id, ItemStat>, seen: seq<WastageEntry>, w: WastageEntry)
    requires WastedFrom(stats, stats0, seen)
    ensures w.itemId in stats ==>
      var s := stats[w.itemId];
      WastedFrom(stats[w.itemId := s.(wasted := s.wasted + w.quantity, openingStock := s.openingStock + w.quantity)], stats0, seen + [w])
    ensures w.itemId !in stats ==> WastedFrom(stats, stats0, seen + [w])
  {
    forall id {
      WastedQtyStep(seen, w, id);
    }
  }

  /** The third `forEach`: each wastage entry of a known item adds its
      quantity to `wasted` and to the opening stock; other entries are ignored. */
  method AddWastage(stats0: map<Id, ItemStat>, ws: seq<WastageEntry>) returns (stats: map<Id, ItemStat>)
    requires forall id :: id in stats0 ==> stats0[id].openingStock == stats0[id].closingStock + stats0[id].used + stats0[id].wasted
    ensures stats.Keys == stats0.Keys
    ensures forall id :: id in stats ==> stats[id] == WithEvents(stats0[id], stats0[id].used, stats0[id].wasted + WastedQty(ws, id))
  {
    stats := stats0;
    var k := 0;
    while k < |ws|
      invariant 0 <= k <= |ws|
      invariant WastedFrom(stats, stats0, ws[..k])
    {
      var w := ws[k];
      assert ws[..k + 1] == ws[..k] + [w];
      WasteStep(stats, stats0, ws[..k], w);
      if w.itemId in stats {
        var s := stats[w.itemId];
        stats := stats[w.itemId := s.(wasted := s.wasted + w.quantity, openingStock := s.openingStock + w.quantity)];
      }
      k := k + 1;
    }
    assert ws[..|ws|] == ws;
  }

  /** The `stats` dictionary of the Truth Table: the three loops in sequence.
      Every inventory id has the entry of its last record, with `used` and
      `wasted` the period's totals and opening = closing + used + wasted. */
  method ItemStats(items: seq<InventoryItem>, ds: seq<Deduction>, ws: seq<WastageEntry>, usage: map<Id, real>)
    returns (order: seq<Id>, stats: map<Id, ItemStat>)
    ensures Distinct(order)
    ensures forall id :: id in order <==> id in stats
    ensures forall id :: id in stats <==> HasItem(items, id)
    ensures forall id :: id in stats ==> stats[id] == ExpectedStat(LastItem(items, id), usage, ds, ws)
  {
    var opening;
    order, opening := OpeningStats(items, usage);
    var used := AddDeductions(opening, ds);
    stats := AddWastage(used, ws);
  }

  /** The `.map` step: money burned is (used + wasted) at cost, wastage cost is wasted at cost. */
  function ToRow(s: ItemStat): LedgerRow
  {
    LedgerRow(s, (s.used + s.wasted) * s.costPerUnit, s.wasted * s.costPerUnit)
  }

  /** The `.sort` comparator `b.wastageCost - a.wastageCost || b.moneyBurned - a.moneyBurned`. */
  predicate HigherLoss(a: LedgerRow, b: LedgerRow)
  {
    a.wastageCost > b.wastageCost || (a.wastageCost == b.wastageCost && a.moneyBurned >= b.moneyBurned)
  }

  lemma HigherLossIsTotalPreorder()
    ensures TotalPreorder(HigherLoss)
  {
  }

  /** What the table holds: sorted by loss, exactly one row for every
      inventory id, and every row the expected ledger row of its item. */
  ghost predicate IsTruthTable(rows: seq<LedgerRow>, items: seq<InventoryItem>, ds: seq<Deduction>, ws: seq<WastageEntry>, usage: map<Id, real>)
  {
    && SortedBy(rows, HigherLoss)
    && (forall r :: r in rows ==> HasItem(items, r.stat.id) && r == ToRow(ExpectedStat(LastItem(items, r.stat.id), usage, ds, ws)))
    && (forall i :: i in items ==> exists r :: r in rows && r.stat.id == i.id)
    && (forall i, j :: 0 <= i < j < |rows| ==> rows[i].stat.id != rows[j].stat.id)
  }

  /** What `ItemStats` promises of its dictionary and key order. */
  ghost predicate IsItemStats(order: seq<Id>, stats: map<Id, ItemStat>, items: seq<InventoryItem>, ds: seq<Deduction>, ws: seq<WastageEntry>, usage: map<Id, real>)
  {
    && Distinct(order)
    && (forall id :: id in order <==> id in stats)
    && (forall id :: id in stats <==> HasItem(items, id))
    && (forall id :: id in stats ==> stats[id] == ExpectedStat(LastItem(items, id), usage, ds, ws))
  }

  /** `values` prices the dictionary's entries in key order. */
  ghost predicate PricedInOrder(values: seq<LedgerRow>, order: seq<Id>, stats: map<Id, ItemStat>)
  {
    && |values| == |order|
    && forall k :: 0 <= k < |order| ==> order[k] in stats && values[k] == ToRow(stats[order[k]])
  }

  /** Any reordering of the priced entries holds each item's expected row,
      and no id twice. */
  lemma ReorderedRowsAreExpected(order: seq<Id>, stats: map<Id, ItemStat>, items: seq<InventoryItem>, ds: seq<Deduction>,
                                 ws: seq<WastageEntry>, usage: map<Id, real>, values: seq<LedgerRow>, rows: seq<LedgerRow>)
    requires IsItemStats(order, stats, items, ds, ws, usage) && PricedInOrder(values, order, stats)
    requires multiset(rows) == multiset(values)
    ensures forall r :: r in rows ==> HasItem(items, r.stat.id) && r == ToRow(ExpectedStat(LastItem(items, r.stat.id), usage, ds, ws))
    ensures forall i, j :: 0 <= i < j < |rows| ==> rows[i].stat.id != rows[j].stat.id
  {
    forall r | r in rows
      ensures HasItem(items, r.stat.id) && r == ToRow(ExpectedStat(LastItem(items, r.stat.id), usage, ds, ws))
    {
      assert r in multiset(values);
      var k :| 0 <= k < |values| && values[k] == r;
      assert order[k] in stats && r == ToRow(stats[order[k]]);
    }
    forall k1, k2 | 0 <= k1 < k2 < |values| ensures values[k1] != values[k2] {
      assert values[k1].stat.id == order[k1] && values[k2].stat.id == order[k2];
    }
    PermutationKeepsDistinct(rows, values);
    forall i, j | 0 <= i < j < |rows| ensures rows[i].stat.id != rows[j].stat.id {
      assert rows[i] in rows && rows[j] in rows;
      assert rows[i] != rows[j];
    }
  }

  /** Any reordering of the priced entries has a row for every inventory record. */
  lemma ReorderedRowsCoverItems(order: seq<Id>, stats: map<Id, ItemStat>, items: seq<InventoryItem>, ds: seq<Deduction>,
                                ws: seq<WastageEntry>, usage: map<Id, real>, values: seq<LedgerRow>, rows: seq<LedgerRow>)
    requires IsItemStats(order, stats, items, ds, ws, usage) && PricedInOrder(values, order, stats)
    requires multiset(rows) == multiset(values)
    ensures forall i :: i in items ==> exists r :: r in rows && r.stat.id == i.id
  {
    forall i | i in items ensures exists r :: r in rows && r.stat.id == i.id {
      assert HasItem(items, i.id);
      var k :| 0 <= k < |order| && order[k] == i.id;
      assert values[k] in multiset(rows);
      assert values[k] in rows && values[k].stat.id == i.id;
    }
  }

  /** `itemStats`: the dictionary's entries in key order, priced, and sorted. */
  method BuildTruthTable(items: seq<InventoryItem>, ds: seq<Deduction>, ws: seq<WastageEntry>, usage: map<Id, real>)
    returns (rows: seq<LedgerRow>)
    ensures IsTruthTable(rows, items, ds, ws, usage)
    ensures forall i, j :: 0 <= i < j < |rows| ==>
      rows[i].wastageCost > rows[j].wastageCost
      || (rows[i].wastageCost == rows[j].wastageCost && rows[i].moneyBurned >= rows[j].moneyBurned)
  {
    var order, stats := ItemStats(items, ds, ws, usage);
    var values := seq(|order|, k requires 0 <= k < |order| => ToRow(stats[order[k]]));
    HigherLossIsTotalPreorder();
    rows := SortBy(values, HigherLoss);
    ReorderedRowsAreExpected(order, stats, items, ds, ws, usage, values, rows);
    ReorderedRowsCoverItems(order, stats, items, ds, ws, usage, values, rows);
  }

  function MoneyBurnedOf(r: LedgerRow): real { r.moneyBurned }
  function WastageCostOf(r: LedgerRow): real { r.wastageCost }

  /** The footer totals, summed over all rows. */
  function TotalMoneyBurned(rows: seq<LedgerRow>): real { SumOf(rows, MoneyBurnedOf) }
  function TotalWastageCost(rows: seq<LedgerRow>): real { SumOf(rows, WastageCostOf) }

  /** A row the table displays: some use or some waste in the period. */
  predicate IsActive(r: LedgerRow) { r.stat.used > 0.0 || r.stat.wasted > 0.0 }

  /** `itemStats.filter(i => i.used > 0 || i.wasted > 0)`. */
  function DisplayedRows(rows: seq<LedgerRow>): (shown: seq<LedgerRow>)
    ensures forall r :: r in shown <==> r in rows && (r.stat.used > 0.0 || r.stat.wasted > 0.0)
    ensures SubseqOf(shown, rows)
    ensures SortedBy(rows, HigherLoss) ==> SortedBy(shown, HigherLoss)
  {
    FilterIsSubsequence(rows, IsActive);
    SubseqKeepsSorted(Filter(rows, IsActive), rows, HigherLoss);
    Filter(rows, IsActive)
  }

  lemma {:induction false} UsedQtyNonNegative(ds: seq<Deduction>, id: Id)
    requires forall d :: d in ds ==> d.quantity >= 0.0
    ensures UsedQty(ds, id) >= 0.0
    decreases |ds|
  {
    if ds != [] {
      assert ds[|ds| - 1] in ds;
      UsedQtyNonNegative(ds[..|ds| - 1], id);
    }
  }

  lemma {:induction false} WastedQtyNonNegative(ws: seq<WastageEntry>, id: Id)
    requires forall w :: w in ws ==> w.quantity >= 0.0
    ensures WastedQty(ws, id) >= 0.0
    decreases |ws|
  {
    if ws != [] {
      assert ws[|ws| - 1] in ws;
      WastedQtyNonNegative(ws[..|ws| - 1], id);
    }
  }

  /** Every row satisfies the ledger identity opening = closing + used + wasted,
      with closing the item's current quantity and nothing purchased. */
  lemma LedgerIdentity(rows: seq<LedgerRow>, items: seq<InventoryItem>, ds: seq<Deduction>, ws: seq<WastageEntry>, usage: map<Id, real>, r: LedgerRow)
    requires IsTruthTable(rows, items, ds, ws, usage)
    requires r in rows
    ensures r.stat.closingStock == LastItem(items, r.stat.id).quantity
    ensures r.stat.openingStock == r.stat.closingStock + r.stat.used + r.stat.wasted
    ensures r.stat.used == UsedQty(ds, r.stat.id) && r.stat.wasted == WastedQty(ws, r.stat.id)
    ensures r.stat.purchased == 0.0
  {
    var item := LastItem(items, r.stat.id);
    var s := ExpectedStat(item, usage, ds, ws);
    assert r == ToRow(s);
    assert r.stat == s && item.id == r.stat.id;
  }

  /** With non-negative use and unit cost, the wastage cost of a row is part
      of its money burned. */
  lemma WastageCostAtMostMoneyBurned(s: ItemStat)
    requires s.used >= 0.0 && s.costPerUnit >= 0.0
    ensures ToRow(s).wastageCost <= ToRow(s).moneyBurned
  {
    assert (s.used + s.wasted) * s.costPerUnit == s.used * s.costPerUnit + s.wasted * s.costPerUnit;
    ProductNonNegative(s.used, s.costPerUnit);
  }

  /** With non-negative event quantities, rows without activity contribute
      nothing, so the totals over all rows equal the totals over the rows the
      table displays. */
  lemma TotalsOverDisplayedRows(rows: seq<LedgerRow>, items: seq<InventoryItem>, ds: seq<Deduction>, ws: seq<WastageEntry>, usage: map<Id, real>)
    requires IsTruthTable(rows, items, ds, ws, usage)
    requires forall d :: d in ds ==> d.quantity >= 0.0
    requires forall w :: w in ws ==> w.quantity >= 0.0
    ensures TotalMoneyBurned(DisplayedRows(rows)) == TotalMoneyBurned(rows)
    ensures TotalWastageCost(DisplayedRows(rows)) == TotalWastageCost(rows)
  {
    forall r | r in rows && !IsActive(r)
      ensures MoneyBurnedOf(r) == 0.0 && WastageCostOf(r) == 0.0
    {
      UsedQtyNonNegative(ds, r.stat.id);
      WastedQtyNonNegative(ws, r.stat.id);
      assert r.stat.used == 0.0 && r.stat.wasted == 0.0;
    }
    SumOfFilterDropsZeros(rows, IsActive, MoneyBurnedOf);
    SumOfFilterDropsZeros(rows, IsActive, WastageCostOf);
  }

  /** A single deduction of `q` units of an item costing `c` per unit burns
      exactly `q * c`, and the item's opening stock is its quantity plus `q`. */
  lemma SingleDeductionRow(item: InventoryItem, d: Deduction, usage: map<Id, real>)
    requires d.itemId == item.id
    ensures var s := ExpectedStat(item, usage, [d], []);
      ToRow(s).moneyBurned == d.quantity * item.costPerUnit
      && ToRow(s).wastageCost == 0.0
      && s.openingStock == item.quantity + d.quantity
  {
    assert UsedQty([d], item.id) == d.quantity by {
      assert [d][..0] == [];
    }
  }
}
