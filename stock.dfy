/** Per-item stock derivations shared by the dashboard, the inventory page and
    the reports page: stock value, the low-stock and zero-stock tests, and the
    days-of-stock-left projection. */
module Stock {
  import opened Records
  import opened Seqs

  /** Value of an item's stock: quantity times cost per unit. */
  function ItemValue(i: InventoryItem): real { i.quantity * i.costPerUnit }

  /** `items.reduce((sum, i) => sum + i.quantity * i.costPerUnit, 0)`. */
  function StockValue(items: seq<InventoryItem>): (v: real)
    ensures items == [] ==> v == 0.0
  {
    SumOf(items, ItemValue)
  }

  lemma StockValueNonNegative(items: seq<InventoryItem>)
    requires forall i :: i in items ==> i.quantity >= 0.0 && i.costPerUnit >= 0.0
    ensures StockValue(items) >= 0.0
  {
    forall i | i in items ensures ItemValue(i) >= 0.0 {
      assert i.quantity >= 0.0 && i.costPerUnit >= 0.0;
    }
    SumOfNonNegative(items, ItemValue);
  }

  /** The low-stock test used by every page: quantity at or below the minimum. */
  predicate IsLow(i: InventoryItem) { i.quantity <= i.minStock }

  predicate IsZero(i: InventoryItem) { i.quantity == 0.0 }

  /** `items.filter(i => i.quantity <= i.minStock)`. */
  function LowStock(items: seq<InventoryItem>): (r: seq<InventoryItem>)
    ensures forall i :: i in r <==> i in items && i.quantity <= i.minStock
    ensures SubseqOf(r, items)
  {
    FilterIsSubsequence(items, IsLow);
    Filter(items, IsLow)
  }

  /** `items.filter(i => i.quantity === 0)`. */
  function ZeroStock(items: seq<InventoryItem>): (r: seq<InventoryItem>)
    ensures forall i :: i in r <==> i in items && i.quantity == 0.0
    ensures SubseqOf(r, items)
  {
    FilterIsSubsequence(items, IsZero);
    Filter(items, IsZero)
  }

  /** An item with no stock is a low-stock item whenever its minimum is not negative. */
  lemma ZeroStockIsLowStock(items: seq<InventoryItem>, i: InventoryItem)
    requires i.minStock >= 0.0
    ensures i in ZeroStock(items) ==> i in LowStock(items)
  {
  }

  /** Days of stock reported when an item has no recorded usage. */
  const NoUsageDaysLeft: real := 999.0

  /** `dailyUsage > 0 ? quantity / dailyUsage : 999`. */
  function DaysLeft(quantity: real, dailyUsage: real): (d: real)
    ensures dailyUsage > 0.0 ==> d * dailyUsage == quantity
    ensures dailyUsage > 0.0 && quantity >= 0.0 ==> d >= 0.0
    ensures dailyUsage <= 0.0 ==> d == NoUsageDaysLeft
  {
    if dailyUsage > 0.0 then quantity / dailyUsage else NoUsageDaysLeft
  }
}
