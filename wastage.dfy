/** The reports page's wastage section: the share of consumption that is
    waste, the month's projected loss at the current run rate, the five items
    that lost the most money, and the loss per reason. The two groupings are
    JavaScript objects filled by a loop; their keys iterate in insertion
    order, so each is modelled as an association list with distinct keys. */
module WastageReport {
  import opened Records
  import opened Seqs

  /** `wastage.reduce((sum, w) => sum + w.costLoss, 0)`. */
  function TotalWasted(ws: seq<WastageEntry>): real { SumOf(ws, CostLossOf) }

  /** `deductions.reduce((sum, d) => sum + d.totalCost, 0)`. */
  function TotalUsed(ds: seq<Deduction>): real { SumOf(ds, TotalCostOf) }

  /** Waste as a percentage of all consumption (used plus wasted), 0 when
      there was no consumption. */
  function WastagePercent(totalUsed: real, totalWasted: real): (p: real)
    ensures totalUsed + totalWasted > 0.0 ==> p * (totalUsed + totalWasted) == totalWasted * 100.0
    ensures totalUsed + totalWasted <= 0.0 ==> p == 0.0
    ensures totalUsed >= 0.0 && totalWasted >= 0.0 ==> 0.0 <= p <= 100.0
    ensures totalUsed == 0.0 && totalWasted > 0.0 ==> p == 100.0
  {
    var consumed := totalUsed + totalWasted;
    if consumed > 0.0 then
      var share := totalWasted / consumed;
      assert share * consumed == totalWasted;
      assert totalUsed >= 0.0 && totalWasted >= 0.0 ==> 0.0 <= share <= 1.0;
      share * 100.0
    else 0.0
  }

  /** With non-negative costs the period's wastage percentage lies in [0, 100]. */
  lemma WastagePercentOfPeriod(ds: seq<Deduction>, ws: seq<WastageEntry>)
    requires forall d :: d in ds ==> d.totalCost >= 0.0
    requires forall w :: w in ws ==> w.costLoss >= 0.0
    ensures 0.0 <= WastagePercent(TotalUsed(ds), TotalWasted(ws)) <= 100.0
    ensures ws == [] ==> WastagePercent(TotalUsed(ds), TotalWasted(ws)) == 0.0
  {
    SumOfNonNegative(ds, TotalCostOf);
    SumOfNonNegative(ws, CostLossOf);
  }

  /** The month's wastage extrapolated from the days passed to the whole
      month, 0 when no day has passed. */
  function ProjectedMonthlyLoss(monthlyWastage: real, daysPassed: int, daysInMonth: int): (loss: real)
    ensures daysPassed > 0 ==> loss * daysPassed as real == monthlyWastage * daysInMonth as real
    ensures daysPassed <= 0 ==> loss == 0.0
    ensures daysPassed > 0 && daysPassed == daysInMonth ==> loss == monthlyWastage
  {
    if daysPassed > 0 then
      var rate := monthlyWastage / daysPassed as real;
      assert rate * daysPassed as real == monthlyWastage;
      rate * daysInMonth as real
    else 0.0
  }

  /** Part-way through the month, a non-negative loss so far is never
      projected below itself. */
  lemma ProjectionAtLeastLossSoFar(monthlyWastage: real, daysPassed: int, daysInMonth: int)
    requires monthlyWastage >= 0.0 && 0 < daysPassed <= daysInMonth
    ensures ProjectedMonthlyLoss(monthlyWastage, daysPassed, daysInMonth) >= monthlyWastage
  {
    var rate := monthlyWastage / daysPassed as real;
    assert rate * daysPassed as real == monthlyWastage;
    assert rate >= 0.0;
    assert rate * daysInMonth as real >= rate * daysPassed as real by {
      ProductNonNegative(rate, (daysInMonth - daysPassed) as real);
    }
  }

  /** The loss of one item name: the `byItem` entry. */
  datatype ItemLoss = ItemLoss(name: string, cost: real, qty: real)

  /** Some wastage entry names this item. */
  predicate HasName(ws: seq<WastageEntry>, name: string)
  {
    exists w :: w in ws && w.itemName == name
  }

  /** Total cost lost on entries with this item name. */
  function NameCost(ws: seq<WastageEntry>, name: string): real
    decreases |ws|
  {
    if ws == [] then 0.0
    else
      var w := ws[|ws| - 1];
      NameCost(ws[..|ws| - 1], name) + (if w.itemName == name then w.costLoss else 0.0)
  }

  /** Total quantity wasted on entries with this item name. */
  function NameQty(ws: seq<WastageEntry>, name: string): real
    decreases |ws|
  {
    if ws == [] then 0.0
    else
      var w := ws[|ws| - 1];
      NameQty(ws[..|ws| - 1], name) + (if w.itemName == name then w.quantity else 0.0)
  }

  predicate DistinctNames(groups: seq<ItemLoss>)
  {
    forall i, j :: 0 <= i < j < |groups| ==> groups[i].name != groups[j].name
  }

  /** The item names the entries mention. */
  function ItemNames(ws: seq<WastageEntry>): set<string>
  {
    set w | w in ws :: w.itemName
  }

  /** The names the groups carry. */
  function GroupNames(groups: seq<ItemLoss>): set<string>
  {
    set g | g in groups :: g.name
  }

  /** Groups with distinct names carry as many names as there are groups. */
  lemma {:induction false} GroupNamesCount(groups: seq<ItemLoss>)
    requires DistinctNames(groups)
    ensures |GroupNames(groups)| == |groups|
    decreases |groups|
  {
    if groups != [] {
      var init := groups[..|groups| - 1];
      var last := groups[|groups| - 1];
      assert groups == init + [last];
      GroupNamesCount(init);
      assert GroupNames(groups) == GroupNames(init) + {last.name};
      assert last.name !in GroupNames(init);
    }
  }

  /** `groups` is `byItem` once the entries `seen` are added: distinct names,
      each with its name's totals, one for every name that occurs. */
  ghost predicate ItemGroupsOf(groups: seq<ItemLoss>, seen: seq<WastageEntry>)
  {
    && DistinctNames(groups)
    && (forall i :: 0 <= i < |groups| ==>
          groups[i].cost == NameCost(seen, groups[i].name) && groups[i].qty == NameQty(seen, groups[i].name))
    && (forall name :: HasName(seen, name) <==> exists i :: 0 <= i < |groups| && groups[i].name == name)
    && (forall name :: !HasName(seen, name) ==> NameCost(seen, name) == 0.0 && NameQty(seen, name) == 0.0)
  }

  /** One more entry: the totals of its name grow by its cost and quantity. */
  lemma NameTotalsStep(seen: seq<WastageEntry>, w: WastageEntry, name: string)
    ensures HasName(seen + [w], name) <==> HasName(seen, name) || w.itemName == name
    ensures NameCost(seen + [w], name) == NameCost(seen, name) + (if w.itemName == name then w.costLoss else 0.0)
    ensures NameQty(seen + [w], name) == NameQty(seen, name) + (if w.itemName == name then w.quantity else 0.0)
  {
    assert (seen + [w])[..|seen|] == seen;
  }

  /** An entry whose name already has a group adds to that group's totals. */
  lemma BumpItemGroup(groups: seq<ItemLoss>, seen: seq<WastageEntry>, w: WastageEntry, i: nat)
    requires ItemGroupsOf(groups, seen)
    requires i < |groups| && groups[i].name == w.itemName
    ensures ItemGroupsOf(groups[i := ItemLoss(w.itemName, groups[i].cost + w.costLoss, groups[i].qty + w.quantity)], seen + [w])
  {
    var after := groups[i := ItemLoss(w.itemName, groups[i].cost + w.costLoss, groups[i].qty + w.quantity)];
    forall name ensures HasName(seen + [w], name) <==> HasName(seen, name) || w.itemName == name {
      NameTotalsStep(seen, w, name);
    }
    forall j | 0 <= j < |after|
      ensures after[j].cost == NameCost(seen + [w], after[j].name) && after[j].qty == NameQty(seen + [w], after[j].name)
    {
      NameTotalsStep(seen, w, after[j].name);
    }
    forall name | !HasName(seen + [w], name)
      ensures NameCost(seen + [w], name) == 0.0 && NameQty(seen + [w], name) == 0.0
    {
      NameTotalsStep(seen, w, name);
    }
    forall name ensures HasName(seen + [w], name) <==> exists j :: 0 <= j < |after| && after[j].name == name {
      if j :| 0 <= j < |groups| && groups[j].name == name {
        assert after[j].name == name;
      }
    }
  }

  /** An entry with a new name opens a group holding its cost and quantity. */
  lemma NewItemGroup(groups: seq<ItemLoss>, seen: seq<WastageEntry>, w: WastageEntry)
    requires ItemGroupsOf(groups, seen)
    requires forall i :: 0 <= i < |groups| ==> groups[i].name != w.itemName
    ensures ItemGroupsOf(groups + [ItemLoss(w.itemName, w.costLoss, w.quantity)], seen + [w])
  {
    var after := groups + [ItemLoss(w.itemName, w.costLoss, w.quantity)];
    forall name ensures HasName(seen + [w], name) <==> HasName(seen, name) || w.itemName == name {
      NameTotalsStep(seen, w, name);
    }
    forall j | 0 <= j < |after|
      ensures after[j].cost == NameCost(seen + [w], after[j].name) && after[j].qty == NameQty(seen + [w], after[j].name)
    {
      NameTotalsStep(seen, w, after[j].name);
    }
    forall name | !HasName(seen + [w], name)
      ensures NameCost(seen + [w], name) == 0.0 && NameQty(seen + [w], name) == 0.0
    {
      NameTotalsStep(seen, w, name);
    }
    forall name ensures HasName(seen + [w], name) <==> exists j :: 0 <= j < |after| && after[j].name == name {
      if j :| 0 <= j < |groups| && groups[j].name == name {
        assert after[j].name == name;
      }
      if name == w.itemName {
        assert after[|groups|].name == name;
      }
    }
  }

  /** `byItem`: one entry per item name in order of first appearance, holding
      the cost and quantity summed over that name's entries. */
  method GroupByItem(ws: seq<WastageEntry>) returns (groups: seq<ItemLoss>)
    ensures DistinctNames(groups)
    ensures forall g :: g in groups ==> g.cost == NameCost(ws, g.name) && g.qty == NameQty(ws, g.name)
    ensures forall name :: HasName(ws, name) <==> exists g :: g in groups && g.name == name
    ensures |groups| == |ItemNames(ws)|
  {
    groups := [];
    var k := 0;
    while k < |ws|
      invariant 0 <= k <= |ws|
      invariant ItemGroupsOf(groups, ws[..k])
    {
      var w := ws[k];
      assert ws[..k + 1] == ws[..k] + [w];
      if i :| 0 <= i < |groups| && groups[i].name == w.itemName {
        BumpItemGroup(groups, ws[..k], w, i);
        groups := groups[i := ItemLoss(w.itemName, groups[i].cost + w.costLoss, groups[i].qty + w.quantity)];
      } else {
        NewItemGroup(groups, ws[..k], w);
        groups := groups + [ItemLoss(w.itemName, w.costLoss, w.quantity)];
      }
      k := k + 1;
    }
    assert ws[..|ws|] == ws;
    forall name | HasName(ws, name) ensures exists g :: g in groups && g.name == name {
      var i :| 0 <= i < |groups| && groups[i].name == name;
      assert groups[i] in groups;
    }
    GroupNamesAreItemNames(ws, groups);
    GroupNamesCount(groups);
  }

  /** Number of items the "top money burners" list shows. */
  const TopCount: nat := 5

  /** The `(a, b) => b.cost - a.cost` order. */
  predicate CostsNoLess(a: ItemLoss, b: ItemLoss) { a.cost >= b.cost }

  lemma CostsNoLessIsTotalPreorder()
    ensures TotalPreorder(CostsNoLess)
  {
  }

  /** `topWasted`: the groups by descending cost, cut to five. An item left
      off the list lost no more than any item on it. */
  method TopWasted(ws: seq<WastageEntry>) returns (top: seq<ItemLoss>)
    ensures |top| == if |ItemNames(ws)| < TopCount then |ItemNames(ws)| else TopCount
    ensures top == [] <==> ws == []
    ensures DistinctNames(top)
    ensures forall i, j :: 0 <= i < j < |top| ==> top[i].cost >= top[j].cost
    ensures forall g :: g in top ==> HasName(ws, g.name) && g.cost == NameCost(ws, g.name) && g.qty == NameQty(ws, g.name)
    ensures forall name :: HasName(ws, name) ==>
      (exists g :: g in top && g.name == name) || (forall g :: g in top ==> g.cost >= NameCost(ws, name))
  {
    var groups := GroupByItem(ws);
    CostsNoLessIsTotalPreorder();
    var sorted := SortBy(groups, CostsNoLess);
    top := Prefix(sorted, TopCount);
    ReorderedGroupsDistinctNames(ws, groups, sorted);
    assert forall g :: g in sorted <==> g in groups by {
      forall g ensures g in sorted <==> g in groups {
        assert g in sorted <==> g in multiset(sorted);
      }
    }
    forall g | g in top ensures g in sorted {
      var i :| 0 <= i < |top| && top[i] == g;
    }
    if ws != [] {
      assert ws[0] in ws;
      assert HasName(ws, ws[0].itemName);
      assert |sorted| > 0;
    }
    assert ws == [] ==> groups == [] by {
      if groups != [] {
        assert groups[0] in groups;
        assert HasName(ws, groups[0].name);
      }
    }
    forall name | HasName(ws, name)
      ensures (exists g :: g in top && g.name == name) || (forall g :: g in top ==> g.cost >= NameCost(ws, name))
    {
      var g :| g in groups && g.name == name;
      if g !in top {
        LeftOffCostsNoMore(sorted, g);
      }
    }
  }

  /** Groups with a group for exactly the names the entries mention carry
      exactly those names. */
  lemma GroupNamesAreItemNames(ws: seq<WastageEntry>, groups: seq<ItemLoss>)
    requires forall name :: HasName(ws, name) <==> exists g :: g in groups && g.name == name
    ensures GroupNames(groups) == ItemNames(ws)
  {
    forall name ensures name in GroupNames(groups) <==> name in ItemNames(ws) {
      if name in GroupNames(groups) {
        var g :| g in groups && g.name == name;
        assert HasName(ws, name);
        var w :| w in ws && w.itemName == name;
        assert w.itemName in ItemNames(ws);
      }
      if name in ItemNames(ws) {
        var w :| w in ws && w.itemName == name;
        assert HasName(ws, name);
        var g :| g in groups && g.name == name;
        assert g.name in GroupNames(groups);
      }
    }
  }

  /** Reordering the groups keeps their names distinct: two groups with one
      name hold that name's totals, so they would be the same group twice. */
  lemma ReorderedGroupsDistinctNames(ws: seq<WastageEntry>, groups: seq<ItemLoss>, sorted: seq<ItemLoss>)
    requires DistinctNames(groups)
    requires forall g :: g in groups ==> g.cost == NameCost(ws, g.name) && g.qty == NameQty(ws, g.name)
    requires multiset(sorted) == multiset(groups)
    ensures DistinctNames(sorted)
  {
    PermutationKeepsDistinct(sorted, groups);
    SameElements(sorted, groups);
    forall i, j | 0 <= i < j < |sorted| ensures sorted[i].name != sorted[j].name {
      assert sorted[i] in groups && sorted[j] in groups;
      assert sorted[i] != sorted[j];
    }
  }

  /** A group of the sorted list that the cut leaves out costs no more than
      any group it keeps. */
  lemma LeftOffCostsNoMore(sorted: seq<ItemLoss>, g: ItemLoss)
    requires SortedBy(sorted, CostsNoLess)
    requires g in sorted && g !in Prefix(sorted, TopCount)
    ensures forall t :: t in Prefix(sorted, TopCount) ==> t.cost >= g.cost
  {
    var top := Prefix(sorted, TopCount);
    var j :| 0 <= j < |sorted| && sorted[j] == g;
    assert forall k :: 0 <= k < |top| ==> sorted[k] != g by {
      forall k | 0 <= k < |top| ensures sorted[k] != g {
        assert top[k] in top;
      }
    }
    forall t | t in top ensures t.cost >= g.cost {
      var i :| 0 <= i < |top| && top[i] == t;
      assert CostsNoLess(sorted[i], sorted[j]);
    }
  }

  /** The loss of one reason: a `byReason` entry. */
  datatype ReasonLoss = ReasonLoss(reason: string, cost: real)

  function ReasonCostOf(r: ReasonLoss): real { r.cost }

  predicate HasReason(ws: seq<WastageEntry>, reason: string)
  {
    exists w :: w in ws && w.reason == reason
  }

  /** Total cost lost on entries with this reason. */
  function ReasonCost(ws: seq<WastageEntry>, reason: string): real
    decreases |ws|
  {
    if ws == [] then 0.0
    else
      var w := ws[|ws| - 1];
      ReasonCost(ws[..|ws| - 1], reason) + (if w.reason == reason then w.costLoss else 0.0)
  }

  predicate DistinctReasons(groups: seq<ReasonLoss>)
  {
    forall i, j :: 0 <= i < j < |groups| ==> groups[i].reason != groups[j].reason
  }

  /** `groups` is `byReason` once the entries `seen` are added: distinct
      reasons, each with its reason's total, one for every reason that
      occurs, and together the whole cost of `seen`. */
  ghost predicate ReasonGroupsOf(groups: seq<ReasonLoss>, seen: seq<WastageEntry>)
  {
    && DistinctReasons(groups)
    && (forall i :: 0 <= i < |groups| ==> groups[i].cost == ReasonCost(seen, groups[i].reason))
    && (forall reason :: HasReason(seen, reason) <==> exists i :: 0 <= i < |groups| && groups[i].reason == reason)
    && (forall reason :: !HasReason(seen, reason) ==> ReasonCost(seen, reason) == 0.0)
    && SumOf(groups, ReasonCostOf) == SumOf(seen, CostLossOf)
  }

  /** One more entry: its reason's total grows by its cost, and so does the whole. */
  lemma ReasonTotalsStep(seen: seq<WastageEntry>, w: WastageEntry, reason: string)
    ensures HasReason(seen + [w], reason) <==> HasReason(seen, reason) || w.reason == reason
    ensures ReasonCost(seen + [w], reason) == ReasonCost(seen, reason) + (if w.reason == reason then w.costLoss else 0.0)
    ensures SumOf(seen + [w], CostLossOf) == SumOf(seen, CostLossOf) + w.costLoss
  {
    assert (seen + [w])[..|seen|] == seen;
  }

  /** An entry whose reason already has a group adds to that group's total. */
  lemma BumpReasonGroup(groups: seq<ReasonLoss>, seen: seq<WastageEntry>, w: WastageEntry, i: nat)
    requires ReasonGroupsOf(groups, seen)
    requires i < |groups| && groups[i].reason == w.reason
    ensures ReasonGroupsOf(groups[i := ReasonLoss(w.reason, groups[i].cost + w.costLoss)], seen + [w])
  {
    var after := groups[i := ReasonLoss(w.reason, groups[i].cost + w.costLoss)];
    ReasonTotalsStep(seen, w, w.reason);
    SumOfUpdate(groups, i, after[i], ReasonCostOf);
    forall j | 0 <= j < |after| ensures after[j].cost == ReasonCost(seen + [w], after[j].reason) {
      ReasonTotalsStep(seen, w, after[j].reason);
    }
    forall reason | !HasReason(seen + [w], reason) ensures ReasonCost(seen + [w], reason) == 0.0 {
      ReasonTotalsStep(seen, w, reason);
    }
    forall reason ensures HasReason(seen + [w], reason) <==> exists j :: 0 <= j < |after| && after[j].reason == reason {
      ReasonTotalsStep(seen, w, reason);
      if j :| 0 <= j < |groups| && groups[j].reason == reason {
        assert after[j].reason == reason;
      }
    }
  }

  /** An entry with a new reason opens a group holding its cost. */
  lemma NewReasonGroup(groups: seq<ReasonLoss>, seen: seq<WastageEntry>, w: WastageEntry)
    requires ReasonGroupsOf(groups, seen)
    requires forall i :: 0 <= i < |groups| ==> groups[i].reason != w.reason
    ensures ReasonGroupsOf(groups + [ReasonLoss(w.reason, w.costLoss)], seen + [w])
  {
    var entry := ReasonLoss(w.reason, w.costLoss);
    var after := groups + [entry];
    ReasonTotalsStep(seen, w, w.reason);
    assert after[..|groups|] == groups;
    forall j | 0 <= j < |after| ensures after[j].cost == ReasonCost(seen + [w], after[j].reason) {
      ReasonTotalsStep(seen, w, after[j].reason);
    }
    forall reason | !HasReason(seen + [w], reason) ensures ReasonCost(seen + [w], reason) == 0.0 {
      ReasonTotalsStep(seen, w, reason);
    }
    forall reason ensures HasReason(seen + [w], reason) <==> exists j :: 0 <= j < |after| && after[j].reason == reason {
      ReasonTotalsStep(seen, w, reason);
      if j :| 0 <= j < |groups| && groups[j].reason == reason {
        assert after[j].reason == reason;
      }
      if reason == w.reason {
        assert after[|groups|].reason == reason;
      }
    }
  }

  /** `byReason`: one entry per reason in order of first appearance, holding
      the cost summed over that reason's entries; together the entries
      account for the whole wastage cost. */
  method GroupByReason(ws: seq<WastageEntry>) returns (groups: seq<ReasonLoss>)
    ensures DistinctReasons(groups)
    ensures forall g :: g in groups ==> g.cost == ReasonCost(ws, g.reason)
    ensures forall reason :: HasReason(ws, reason) <==> exists g :: g in groups && g.reason == reason
    ensures SumOf(groups, ReasonCostOf) == TotalWasted(ws)
  {
    groups := [];
    var k := 0;
    while k < |ws|
      invariant 0 <= k <= |ws|
      invariant ReasonGroupsOf(groups, ws[..k])
    {
      var w := ws[k];
      assert ws[..k + 1] == ws[..k] + [w];
      if i :| 0 <= i < |groups| && groups[i].reason == w.reason {
        BumpReasonGroup(groups, ws[..k], w, i);
        groups := groups[i := ReasonLoss(w.reason, groups[i].cost + w.costLoss)];
      } else {
        NewReasonGroup(groups, ws[..k], w);
        groups := groups + [ReasonLoss(w.reason, w.costLoss)];
      }
      k := k + 1;
    }
    assert ws[..|ws|] == ws;
    forall reason | HasReason(ws, reason) ensures exists g :: g in groups && g.reason == reason {
      var i :| 0 <= i < |groups| && groups[i].reason == reason;
      assert groups[i] in groups;
    }
  }

  /** Reordering the reason entries keeps their reasons distinct: two entries
      with one reason hold that reason's total, so they would be the same
      entry twice. */
  lemma ReorderedGroupsDistinctReasons(ws: seq<WastageEntry>, groups: seq<ReasonLoss>, sorted: seq<ReasonLoss>)
    requires DistinctReasons(groups)
    requires forall g :: g in groups ==> g.cost == ReasonCost(ws, g.reason)
    requires multiset(sorted) == multiset(groups)
    ensures DistinctReasons(sorted)
  {
    PermutationKeepsDistinct(sorted, groups);
    SameElements(sorted, groups);
    forall i, j | 0 <= i < j < |sorted| ensures sorted[i].reason != sorted[j].reason {
      assert sorted[i] in groups && sorted[j] in groups;
      assert sorted[i] != sorted[j];
    }
  }

  /** The `(a, b) => b[1] - a[1]` order of the reason entries. */
  predicate LossNoLess(a: ReasonLoss, b: ReasonLoss) { a.cost >= b.cost }

  lemma LossNoLessIsTotalPreorder()
    ensures TotalPreorder(LossNoLess)
  {
  }

  /** The "loss by reason" list: the reason entries by descending cost. The
      list still accounts for the whole wastage cost. */
  method LossByReason(ws: seq<WastageEntry>) returns (entries: seq<ReasonLoss>)
    ensures forall i, j :: 0 <= i < j < |entries| ==> entries[i].cost >= entries[j].cost
    ensures forall g :: g in entries ==> HasReason(ws, g.reason) && g.cost == ReasonCost(ws, g.reason)
    ensures forall reason :: HasReason(ws, reason) <==> exists g :: g in entries && g.reason == reason
    ensures DistinctReasons(entries)
    ensures SumOf(entries, ReasonCostOf) == TotalWasted(ws)
  {
    var groups := GroupByReason(ws);
    LossNoLessIsTotalPreorder();
    entries := SortBy(groups, LossNoLess);
    ReorderedGroupsDistinctReasons(ws, groups, entries);
    assert forall g :: g in entries <==> g in groups by {
      forall g ensures g in entries <==> g in groups {
        assert g in entries <==> g in multiset(entries);
      }
    }
    SumOfPermutation(entries, groups, ReasonCostOf);
  }
}
