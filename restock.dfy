/** The inventory page: restock suggestions sized to a 14-day coverage target,
    their total cost, and the category filter with the value of what it shows. */
module Restock {
  import opened Records
  import opened Seqs
  import opened Stock
  import opened Usage

  /** Days of usage a restock should cover. */
  const TargetDays: real := 14.0
  /** An item running out within this many days needs restocking. */
  const RestockHorizon: real := 7.0

  /** `Math.ceil` on an exact real. */
  function Ceil(x: real): (n: int)
    ensures n as real >= x
    ensures (n as real) - 1.0 < x
  {
    -((-x).Floor)
  }

  /** `Math.max(0, Math.ceil(dailyUsage * 14 - quantity))`: the smallest
      whole quantity that brings the stock up to 14 days of usage. */
  function SuggestedQty(dailyUsage: real, quantity: real): (q: int)
    ensures q >= 0
    ensures q as real >= dailyUsage * TargetDays - quantity
    ensures q > 0 ==> (q as real) - 1.0 < dailyUsage * TargetDays - quantity
    ensures q == 0 <==> dailyUsage * TargetDays - quantity <= 0.0
  {
    var c := Ceil(dailyUsage * TargetDays - quantity);
    if c > 0 then c else 0
  }

  /** `quantity <= minStock || daysLeft <= 7`. */
  predicate NeedsRestock(quantity: real, minStock: real, daysLeft: real)
  {
    quantity <= minStock || daysLeft <= RestockHorizon
  }

  datatype Suggestion = Suggestion(
    item: InventoryItem,
    dailyUsage: real,
    daysLeft: real,
    suggestedQty: int,
    suggestedCost: real,
    needsRestock: bool)

  /** The per-item projection of the `restockSuggestions` pipeline. */
  function Suggest(item: InventoryItem, stats: map<Id, real>): (s: Suggestion)
    ensures s.item == item
    ensures s.dailyUsage == DailyUsage(stats, item.id)
    ensures s.daysLeft == DaysLeft(item.quantity, s.dailyUsage)
    ensures s.suggestedQty == SuggestedQty(s.dailyUsage, item.quantity)
    ensures s.suggestedCost == s.suggestedQty as real * item.costPerUnit
    ensures s.needsRestock <==> item.quantity <= item.minStock || s.daysLeft <= RestockHorizon
  {
    var u := DailyUsage(stats, item.id);
    var left := DaysLeft(item.quantity, u);
    var qty := SuggestedQty(u, item.quantity);
    Suggestion(item, u, left, qty, qty as real * item.costPerUnit, NeedsRestock(item.quantity, item.minStock, left))
  }

  function SuggestFor(stats: map<Id, real>): InventoryItem -> Suggestion
  {
    (item: InventoryItem) => Suggest(item, stats)
  }

  /** The `.filter(i => i.needsRestock && i.suggestedQty > 0)` step. */
  predicate Listed(s: Suggestion) { s.needsRestock && s.suggestedQty > 0 }

  /** The `.sort((a, b) => a.daysLeft - b.daysLeft)` order. */
  predicate RunsOutNoLater(a: Suggestion, b: Suggestion) { a.daysLeft <= b.daysLeft }

  lemma RunsOutNoLaterIsTotalPreorder()
    ensures TotalPreorder(RunsOutNoLater)
  {
  }

  /** `restockSuggestions`: every item's projection, kept when it needs
      restocking and something is to be bought, soonest to run out first. */
  function RestockSuggestions(items: seq<InventoryItem>, stats: map<Id, real>): (r: seq<Suggestion>)
    ensures forall s :: s in r <==> s.item in items && s == Suggest(s.item, stats) && s.needsRestock && s.suggestedQty > 0
    ensures forall i, j :: 0 <= i < j < |r| ==> r[i].daysLeft <= r[j].daysLeft
    ensures multiset(r) == multiset(Filter(MapSeq(items, SuggestFor(stats)), Listed))
  {
    RunsOutNoLaterIsTotalPreorder();
    ProjectionsOfItems(items, stats);
    var kept := Filter(MapSeq(items, SuggestFor(stats)), Listed);
    var r := SortBy(kept, RunsOutNoLater);
    SameElements(r, kept);
    r
  }

  /** The projections of the items are exactly the projections of some item. */
  lemma ProjectionsOfItems(items: seq<InventoryItem>, stats: map<Id, real>)
    ensures forall s :: s in MapSeq(items, SuggestFor(stats)) <==> s.item in items && s == Suggest(s.item, stats)
  {
    var all := MapSeq(items, SuggestFor(stats));
    forall s ensures s in all <==> s.item in items && s == Suggest(s.item, stats) {
      if s.item in items && s == Suggest(s.item, stats) {
        var k :| 0 <= k < |items| && items[k] == s.item;
        assert all[k] == s;
      }
    }
  }

  /** An item of the inventory is on the restock list exactly when it needs
      restocking (at or below its minimum, or at most 7 days left) and its
      suggested quantity is positive. */
  lemma RestockMembership(items: seq<InventoryItem>, stats: map<Id, real>, item: InventoryItem)
    requires item in items
    ensures (exists s :: s in RestockSuggestions(items, stats) && s.item == item)
        <==> (var u := DailyUsage(stats, item.id);
              NeedsRestock(item.quantity, item.minStock, DaysLeft(item.quantity, u))
              && SuggestedQty(u, item.quantity) > 0)
  {
    var r := RestockSuggestions(items, stats);
    var s := Suggest(item, stats);
    if Listed(s) {
      assert s in r;
    }
  }

  /** An item without recorded usage and with non-negative stock is never suggested. */
  lemma NoUsageNeverSuggested(items: seq<InventoryItem>, stats: map<Id, real>, item: InventoryItem)
    requires DailyUsage(stats, item.id) == 0.0 && item.quantity >= 0.0
    ensures forall s :: s in RestockSuggestions(items, stats) ==> s.item != item
  {
    assert SuggestedQty(0.0, item.quantity) == 0;
  }

  /** The worked example: 10 units, minimum 5, using 2 a day, leaves 5 days
      of stock, needs restocking, and 18 units reach the 14-day target. */
  lemma OilExample(item: InventoryItem, stats: map<Id, real>)
    requires item.quantity == 10.0 && item.minStock == 5.0
    requires item.id in stats && stats[item.id] == 2.0
    ensures var s := Suggest(item, stats);
      s.daysLeft == 5.0 && s.needsRestock && s.suggestedQty == 18 && Listed(s)
  {
    assert DaysLeft(10.0, 2.0) == 5.0;
    assert Ceil(18.0) == 18;
  }

  function SuggestedCostOf(s: Suggestion): real { s.suggestedCost }

  /** `restockSuggestions.reduce((sum, i) => sum + i.suggestedCost, 0)`. */
  function TotalRestockCost(r: seq<Suggestion>): (total: real)
    ensures r == [] ==> total == 0.0
  {
    SumOf(r, SuggestedCostOf)
  }

  /** With non-negative unit costs the total restock cost is non-negative. */
  lemma TotalRestockCostNonNegative(items: seq<InventoryItem>, stats: map<Id, real>)
    requires forall i :: i in items ==> i.costPerUnit >= 0.0
    ensures TotalRestockCost(RestockSuggestions(items, stats)) >= 0.0
  {
    var r := RestockSuggestions(items, stats);
    forall s | s in r ensures SuggestedCostOf(s) >= 0.0 {
      SuggestedCostNonNegative(s.item, stats);
    }
    SumOfNonNegative(r, SuggestedCostOf);
  }

  lemma SuggestedCostNonNegative(item: InventoryItem, stats: map<Id, real>)
    requires item.costPerUnit >= 0.0
    ensures Suggest(item, stats).suggestedCost >= 0.0
  {
    var s := Suggest(item, stats);
    assert s.suggestedQty >= 0;
    ProductNonNegative(s.suggestedQty as real, item.costPerUnit);
  }

  function InCategory(category: string): InventoryItem -> bool
  {
    (i: InventoryItem) => i.category == category
  }

  /** `filteredItems`: everything for 'all', the low-stock items for 'low',
      otherwise the items of that category; input order is kept. */
  function FilteredItems(items: seq<InventoryItem>, filter: string): (r: seq<InventoryItem>)
    ensures filter == "all" ==> r == items
    ensures filter == "low" ==> forall i :: i in r <==> i in items && i.quantity <= i.minStock
    ensures filter != "all" && filter != "low" ==> forall i :: i in r <==> i in items && i.category == filter
    ensures SubseqOf(r, items)
  {
    if filter == "all" then
      assert SubseqOf(items, items) by { SubseqOfSelf(items); }
      items
    else if filter == "low" then LowStock(items)
    else
      FilterIsSubsequence(items, InCategory(filter));
      Filter(items, InCategory(filter))
  }

  /** `totalValue`: the stock value of what the filter shows. */
  function FilteredValue(items: seq<InventoryItem>, filter: string): real
  {
    StockValue(FilteredItems(items, filter))
  }

  /** With non-negative quantities and costs, any filter shows at most the
      value of the whole inventory. */
  lemma FilteredValueAtMostTotal(items: seq<InventoryItem>, filter: string)
    requires forall i :: i in items ==> i.quantity >= 0.0 && i.costPerUnit >= 0.0
    ensures 0.0 <= FilteredValue(items, filter) <= StockValue(items)
  {
    forall i | i in items ensures ItemValue(i) >= 0.0 {
      assert i.quantity >= 0.0 && i.costPerUnit >= 0.0;
    }
    if filter == "low" {
      SumOfFilterAtMost(items, IsLow, ItemValue);
    } else if filter != "all" {
      SumOfFilterAtMost(items, InCategory(filter), ItemValue);
    }
    StockValueNonNegative(FilteredItems(items, filter));
  }
}
