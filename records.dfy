/** The stored records the inventory analytics read: inventory items, stock
    deductions (stock leaving through order fulfilment) and wastage entries.

    Calendar dates are `YYYY-MM-DD` strings and the pages compare them as
    strings. For well-formed zero-padded dates string order is calendar order,
    so a date is modelled by an integer that preserves that order (for
    instance YYYYMMDD). Times of day (`HH:MM`) are likewise integers (minutes
    since midnight). */
module Records {

  type Date = int
  type Time = int
  type Id = string

  datatype Option<T> = None | Some(value: T)

  datatype InventoryItem = InventoryItem(
    id: Id,
    name: string,
    unit: string,
    quantity: real,
    minStock: real,
    costPerUnit: real,
    category: string)

  /** A deduction: `quantity` units of item `itemId` used for order `orderId`
      on `date`, valued at `totalCost`. `creationTime` is the storage's
      creation timestamp in milliseconds. */
  datatype Deduction = Deduction(
    id: Id,
    itemId: Id,
    itemName: string,
    quantity: real,
    unit: string,
    totalCost: real,
    orderId: string,
    date: Date,
    time: string,
    creationTime: int)

  /** A wastage entry: `quantity` units of item `itemId` lost for `reason`
      on `date`, valued at `costLoss`. */
  datatype WastageEntry = WastageEntry(
    id: Id,
    itemId: Id,
    itemName: string,
    quantity: real,
    reason: string,
    date: Date,
    costLoss: real,
    creationTime: int)

  function TotalCostOf(d: Deduction): real { d.totalCost }
  function CostLossOf(w: WastageEntry): real { w.costLoss }
}
