/** The stock badge: a four-way classification of an item's quantity against
    its minimum stock, tested in the order ZERO, CRITICAL (at most half the
    minimum), LOW (at most the minimum), OK. */
module StockBadge {

  datatype Badge = Zero | Critical | Low | Ok

  /** How alarming a badge is: ZERO is the worst, OK the mildest. */
  function Severity(b: Badge): nat
  {
    match b
    case Zero => 3
    case Critical => 2
    case Low => 1
    case Ok => 0
  }

  function Classify(quantity: real, minStock: real): (b: Badge)
    ensures quantity == 0.0 ==> b == Zero
    ensures quantity != 0.0 && quantity <= minStock * 0.5 ==> b == Critical
    ensures minStock * 0.5 < quantity <= minStock ==> b == Low
    ensures minStock >= 0.0 ==> (b == Ok <==> quantity > minStock)
  {
    if quantity == 0.0 then Zero
    else if quantity <= minStock * 0.5 then Critical
    else if quantity <= minStock then Low
    else Ok
  }

  /** For a non-negative minimum, any badge other than OK marks exactly the
      items the pages list as low stock (quantity at or below the minimum). */
  lemma BadgeAgreesWithLowStock(quantity: real, minStock: real)
    requires minStock >= 0.0
    ensures Classify(quantity, minStock) != Ok <==> quantity <= minStock
  {
  }

  /** For a fixed non-negative minimum, more stock never makes the badge more alarming. */
  lemma SeverityNeverRisesWithStock(minStock: real, q1: real, q2: real)
    requires minStock >= 0.0 && 0.0 <= q1 <= q2
    ensures Severity(Classify(q2, minStock)) <= Severity(Classify(q1, minStock))
  {
  }
}
