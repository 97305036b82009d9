/** Table reservations. Creating one looks the table up, rejects the booking
    when it overlaps a confirmed reservation of the same table on the same
    day, and otherwise stores it as confirmed; cancelling and updating the
    status patch the status of a stored reservation. The queries list
    reservations by date and start time, find the current or next
    reservation of a table, and count today's confirmed reservations.

    Dates and times are the order-preserving integers of module Records. The
    stored reservations are a sequence in storage order; queries take it as
    a parameter and the store is a class whose field the mutations reassign. */
module Reservations {
  import opened Records
  import opened Seqs

  datatype Table = Table(id: Id, name: string, number: int)

  datatype Reservation = Reservation(
    id: Id,
    tableId: Id,
    tableNumber: int,
    customerName: string,
    customerPhone: Option<string>,
    date: Date,
    startTime: Time,
    endTime: Time,
    partySize: int,
    status: string,
    notes: Option<string>)

  /** The arguments of `create`. */
  datatype Booking = Booking(
    tableId: Id,
    customerName: string,
    customerPhone: Option<string>,
    date: Date,
    startTime: Time,
    endTime: Time,
    partySize: int,
    notes: Option<string>)

  const Confirmed: string := "confirmed"
  const Cancelled: string := "cancelled"

  // ---------------------------------------------------------------- overlap

  /** The three-clause conflict test of `create` between a new interval
      [s, e) and an existing one [rs, re). */
  predicate Overlaps(s: Time, e: Time, rs: Time, re: Time)
  {
    (s >= rs && s < re) || (e > rs && e <= re) || (s <= rs && e >= re)
  }

  /** For well-formed intervals the test is plain interval intersection. */
  lemma OverlapIsIntersection(s: Time, e: Time, rs: Time, re: Time)
    requires s < e && rs < re
    ensures Overlaps(s, e, rs, re) <==> s < re && rs < e
  {
  }

  /** ... and so it does not matter which interval is the new one. */
  lemma OverlapIsSymmetric(s: Time, e: Time, rs: Time, re: Time)
    requires s < e && rs < re
    ensures Overlaps(s, e, rs, re) <==> Overlaps(rs, re, s, e)
  {
    OverlapIsIntersection(s, e, rs, re);
    OverlapIsIntersection(rs, re, s, e);
  }

  /** A booking that starts when another ends, or ends when another starts,
      never conflicts with it. */
  lemma BackToBackNeverConflicts(s: Time, e: Time, rs: Time, re: Time)
    requires s < e && rs < re
    requires s == re || e == rs
    ensures !Overlaps(s, e, rs, re)
  {
    OverlapIsIntersection(s, e, rs, re);
  }

  // ----------------------------------------------------------------- create

  /** `ctx.db.get(tableId)`. */
  function TableById(tables: seq<Table>, id: Id): (r: Option<Table>)
    ensures r.Some? ==> r.value in tables && r.value.id == id
    ensures r.None? <==> forall t :: t in tables ==> t.id != id
  {
    if tables == [] then None
    else if tables[0].id == id then Some(tables[0])
    else
      var r := TableById(tables[1..], id);
      assert tables == [tables[0]] + tables[1..];
      r
  }

  /** A reservation the conflict check compares against: confirmed, on that
      table, on that date. */
  predicate InSlot(r: Reservation, tableId: Id, date: Date)
  {
    r.tableId == tableId && r.date == date && r.status == Confirmed
  }

  function SlotOf(tableId: Id, date: Date): Reservation -> bool
  {
    (r: Reservation) => InSlot(r, tableId, date)
  }

  /** `existing`: the booking's table and date, confirmed only, in storage order. */
  function Existing(rows: seq<Reservation>, b: Booking): (r: seq<Reservation>)
    ensures forall x :: x in r <==> x in rows && InSlot(x, b.tableId, b.date)
    ensures SubseqOf(r, rows)
  {
    FilterIsSubsequence(rows, SlotOf(b.tableId, b.date));
    Filter(rows, SlotOf(b.tableId, b.date))
  }

  predicate ClashesWith(b: Booking, r: Reservation)
  {
    Overlaps(b.startTime, b.endTime, r.startTime, r.endTime)
  }

  /** The `for (const res of existing)` loop: the first reservation the
      booking overlaps, if any. */
  method FindConflict(existing: seq<Reservation>, b: Booking) returns (c: Option<Reservation>)
    ensures c.None? <==> forall r :: r in existing ==> !ClashesWith(b, r)
    ensures c.Some? ==>
      exists k :: 0 <= k < |existing| && existing[k] == c.value && ClashesWith(b, c.value)
                  && forall j :: 0 <= j < k ==> !ClashesWith(b, existing[j])
  {
    var k := 0;
    while k < |existing|
      invariant 0 <= k <= |existing|
      invariant forall j :: 0 <= j < k ==> !ClashesWith(b, existing[j])
    {
      if ClashesWith(b, existing[k]) {
        return Some(existing[k]);
      }
      k := k + 1;
    }
    return None;
  }

  datatype CreateError = TableNotFound | AlreadyReserved(from: Time, to: Time)

  datatype CreateOutcome = Created(id: Id) | Rejected(error: CreateError)

  /** The record `create` inserts: confirmed, with the table's number. */
  function NewReservation(b: Booking, table: Table, id: Id): Reservation
  {
    Reservation(id, b.tableId, table.number, b.customerName, b.customerPhone,
      b.date, b.startTime, b.endTime, b.partySize, Confirmed, b.notes)
  }

  /** No confirmed reservation overlaps an earlier-stored confirmed
      reservation of the same table and day, in the direction `create` checks. */
  predicate NoDoubleBooking(rows: seq<Reservation>)
  {
    forall i, j :: 0 <= i < j < |rows| && InSlot(rows[i], rows[j].tableId, rows[j].date) && rows[j].status == Confirmed ==>
      !Overlaps(rows[j].startTime, rows[j].endTime, rows[i].startTime, rows[i].endTime)
  }

  /** Storing a confirmed reservation that passed the check keeps the store
      free of double bookings. */
  lemma InsertKeepsNoDoubleBooking(rows: seq<Reservation>, b: Booking, r: Reservation)
    requires NoDoubleBooking(rows)
    requires forall x :: x in Existing(rows, b) ==> !ClashesWith(b, x)
    requires r.tableId == b.tableId && r.date == b.date && r.startTime == b.startTime && r.endTime == b.endTime
    ensures NoDoubleBooking(rows + [r])
  {
    var after := rows + [r];
    forall i, j | 0 <= i < j < |after| && InSlot(after[i], after[j].tableId, after[j].date) && after[j].status == Confirmed
      ensures !Overlaps(after[j].startTime, after[j].endTime, after[i].startTime, after[i].endTime)
    {
      if j == |rows| {
        assert after[i] == rows[i] && rows[i] in rows;
        assert rows[i] in Existing(rows, b);
      }
    }
  }

  /** With well-formed intervals, a store free of double bookings has no two
      confirmed reservations of a table and day whose times intersect. */
  lemma NoDoubleBookingMeansDisjoint(rows: seq<Reservation>, i: nat, j: nat)
    requires NoDoubleBooking(rows)
    requires forall r :: r in rows ==> r.startTime < r.endTime
    requires i < |rows| && j < |rows| && i != j
    requires InSlot(rows[i], rows[j].tableId, rows[j].date) && rows[j].status == Confirmed
    ensures rows[i].endTime <= rows[j].startTime || rows[j].endTime <= rows[i].startTime
  {
    assert rows[i] in rows && rows[j] in rows;
    if i < j {
      OverlapIsIntersection(rows[j].startTime, rows[j].endTime, rows[i].startTime, rows[i].endTime);
    } else {
      OverlapIsIntersection(rows[i].startTime, rows[i].endTime, rows[j].startTime, rows[j].endTime);
    }
  }

  // -------------------------------------------------------- status patches

  function WithStatus(id: Id, status: string): Reservation -> Reservation
  {
    (r: Reservation) => if r.id == id then r.(status := status) else r
  }

  /** `ctx.db.patch(id, { status })` on the stored reservations. */
  function Patched(rows: seq<Reservation>, id: Id, status: string): (r: seq<Reservation>)
    ensures |r| == |rows|
    ensures forall k :: 0 <= k < |rows| ==> r[k].(status := rows[k].status) == rows[k]
    ensures forall k :: 0 <= k < |rows| && rows[k].id == id ==> r[k].status == status
    ensures forall k :: 0 <= k < |rows| && rows[k].id != id ==> r[k] == rows[k]
  {
    MapSeq(rows, WithStatus(id, status))
  }

  /** Setting any status other than confirmed (cancelling in particular)
      cannot create a double booking. */
  lemma UnconfirmingKeepsNoDoubleBooking(rows: seq<Reservation>, id: Id, status: string)
    requires NoDoubleBooking(rows) && status != Confirmed
    ensures NoDoubleBooking(Patched(rows, id, status))
  {
    var after := Patched(rows, id, status);
    forall i, j | 0 <= i < j < |after| && InSlot(after[i], after[j].tableId, after[j].date) && after[j].status == Confirmed
      ensures !Overlaps(after[j].startTime, after[j].endTime, after[i].startTime, after[i].endTime)
    {
      assert after[i] == rows[i] && after[j] == rows[j];
    }
  }

  /** `updateStatus` does not re-run the conflict check: re-confirming a
      cancelled reservation can double-book a table. */
  lemma ReconfirmingCanDoubleBook()
    ensures var a := Reservation("a", "t1", 1, "A", None, 20240101, 720, 840, 2, Confirmed, None);
      var b := Reservation("b", "t1", 1, "B", None, 20240101, 780, 900, 2, Cancelled, None);
      NoDoubleBooking([a, b]) && !NoDoubleBooking(Patched([a, b], "b", Confirmed))
  {
    var a := Reservation("a", "t1", 1, "A", None, 20240101, 720, 840, 2, Confirmed, None);
    var b := Reservation("b", "t1", 1, "B", None, 20240101, 780, 900, 2, Cancelled, None);
    var after := Patched([a, b], "b", Confirmed);
    assert after[0] == a && after[1] == b.(status := Confirmed);
  }

  /** The stored reservations and the mutations that change them. */
  class ReservationStore {
    var rows: seq<Reservation>

    constructor()
      ensures rows == []
    {
      rows := [];
    }

    /** `create`: "Table not found" for an unknown table; "already reserved"
        with the times of the first clashing reservation; otherwise one new
        confirmed reservation at the end of the store. */
    method Create(tables: seq<Table>, b: Booking, newId: Id) returns (outcome: CreateOutcome)
      modifies this
      ensures TableById(tables, b.tableId).None? ==> outcome == Rejected(TableNotFound) && rows == old(rows)
      ensures TableById(tables, b.tableId).Some? && (exists r :: r in Existing(old(rows), b) && ClashesWith(b, r)) ==>
        rows == old(rows)
        && exists k :: 0 <= k < |Existing(old(rows), b)|
                       && ClashesWith(b, Existing(old(rows), b)[k])
                       && (forall j :: 0 <= j < k ==> !ClashesWith(b, Existing(old(rows), b)[j]))
                       && outcome == Rejected(AlreadyReserved(Existing(old(rows), b)[k].startTime, Existing(old(rows), b)[k].endTime))
      ensures TableById(tables, b.tableId).Some? && (forall r :: r in Existing(old(rows), b) ==> !ClashesWith(b, r)) ==>
        outcome == Created(newId) && rows == old(rows) + [NewReservation(b, TableById(tables, b.tableId).value, newId)]
      ensures NoDoubleBooking(old(rows)) ==> NoDoubleBooking(rows)
    {
      var table := TableById(tables, b.tableId);
      if table.None? {
        return Rejected(TableNotFound);
      }
      var conflict := FindConflict(Existing(rows, b), b);
      if conflict.Some? {
        return Rejected(AlreadyReserved(conflict.value.startTime, conflict.value.endTime));
      }
      var r := NewReservation(b, table.value, newId);
      if NoDoubleBooking(rows) {
        InsertKeepsNoDoubleBooking(rows, b, r);
      }
      rows := rows + [r];
      return Created(newId);
    }

    /** `cancel`: the reservation's status becomes "cancelled". */
    method Cancel(id: Id)
      modifies this
      ensures rows == Patched(old(rows), id, Cancelled)
      ensures NoDoubleBooking(old(rows)) ==> NoDoubleBooking(rows)
    {
      if NoDoubleBooking(rows) {
        UnconfirmingKeepsNoDoubleBooking(rows, id, Cancelled);
      }
      rows := Patched(rows, id, Cancelled);
    }

    /** `updateStatus`: the reservation gets the given status, unchecked. */
    method UpdateStatus(id: Id, status: string)
      modifies this
      ensures rows == Patched(old(rows), id, status)
      ensures NoDoubleBooking(old(rows)) && status != Confirmed ==> NoDoubleBooking(rows)
    {
      if NoDoubleBooking(rows) && status != Confirmed {
        UnconfirmingKeepsNoDoubleBooking(rows, id, status);
      }
      rows := Patched(rows, id, status);
    }
  }

  // ---------------------------------------------------------------- queries

  /** The listing order: by date, then by start time. */
  predicate EarlierSlot(a: Reservation, b: Reservation)
  {
    a.date < b.date || (a.date == b.date && a.startTime <= b.startTime)
  }

  lemma EarlierSlotIsTotalPreorder()
    ensures TotalPreorder(EarlierSlot)
  {
  }

  /** A listed reservation with its table (absent when the table is gone). */
  datatype Listed = Listed(res: Reservation, table: Option<Table>)

  predicate ListedEarlier(a: Listed, b: Listed) { EarlierSlot(a.res, b.res) }

  lemma ListedEarlierIsTotalPreorder()
    ensures TotalPreorder(ListedEarlier)
  {
  }

  function OnDate(date: Option<Date>): Reservation -> bool
  {
    (r: Reservation) => date.None? || r.date == date.value
  }

  function Join(tables: seq<Table>): Reservation -> Listed
  {
    (r: Reservation) => Listed(r, TableById(tables, r.tableId))
  }

  /** `list`: the reservations (of one date when given) with their tables,
      by date and start time. */
  function List(rows: seq<Reservation>, tables: seq<Table>, date: Option<Date>): (r: seq<Listed>)
    ensures multiset(r) == multiset(MapSeq(Filter(rows, OnDate(date)), Join(tables)))
    ensures forall x :: x in r <==> x.res in rows && (date.Some? ==> x.res.date == date.value) && x.table == TableById(tables, x.res.tableId)
    ensures forall i, j :: 0 <= i < j < |r| ==>
      r[i].res.date < r[j].res.date || (r[i].res.date == r[j].res.date && r[i].res.startTime <= r[j].res.startTime)
  {
    var kept := Filter(rows, OnDate(date));
    var joined := MapSeq(kept, Join(tables));
    ListedEarlierIsTotalPreorder();
    var r := SortBy(joined, ListedEarlier);
    forall x ensures x in r <==> x in joined {
      assert x in r <==> x in multiset(r);
    }
    JoinMembership(kept, tables);
    assert forall res :: res in kept <==> res in rows && (date.Some? ==> res.date == date.value);
    r
  }

  lemma JoinMembership(kept: seq<Reservation>, tables: seq<Table>)
    ensures forall x :: x in MapSeq(kept, Join(tables)) <==> x.res in kept && x.table == TableById(tables, x.res.tableId)
  {
    var joined := MapSeq(kept, Join(tables));
    forall x: Listed | x.res in kept && x.table == TableById(tables, x.res.tableId) ensures x in joined {
      var k :| 0 <= k < |kept| && kept[k] == x.res;
      assert joined[k] == x;
    }
  }

  /** The `getByTable` filters: that table, from today on, not cancelled. */
  predicate Upcoming(r: Reservation, tableId: Id, today: Date)
  {
    r.tableId == tableId && r.date >= today && r.status != Cancelled
  }

  function UpcomingFor(tableId: Id, today: Date): Reservation -> bool
  {
    (r: Reservation) => Upcoming(r, tableId, today)
  }

  /** `getByTable`: the table's reservations from today on that are not
      cancelled, by date and start time. */
  function GetByTable(rows: seq<Reservation>, tableId: Id, today: Date): (r: seq<Reservation>)
    ensures multiset(r) == multiset(Filter(rows, UpcomingFor(tableId, today)))
    ensures forall x :: x in r <==> x in rows && x.tableId == tableId && x.date >= today && x.status != Cancelled
    ensures forall i, j :: 0 <= i < j < |r| ==>
      r[i].date < r[j].date || (r[i].date == r[j].date && r[i].startTime <= r[j].startTime)
  {
    var kept := Filter(rows, UpcomingFor(tableId, today));
    EarlierSlotIsTotalPreorder();
    var r := SortBy(kept, EarlierSlot);
    forall x ensures x in r <==> x in kept {
      assert x in r <==> x in multiset(r);
    }
    r
  }

  /** `tables.find(t => t.number === tableNumber)`. */
  function TableByNumber(tables: seq<Table>, n: int): (r: Option<Table>)
    ensures r.Some? ==> r.value in tables && r.value.number == n
    ensures r.None? <==> forall t :: t in tables ==> t.number != n
  {
    if tables == [] then None
    else if tables[0].number == n then Some(tables[0])
    else
      assert tables == [tables[0]] + tables[1..];
      TableByNumber(tables[1..], n)
  }

  /** Today's confirmed reservations of a table, in storage order. */
  function TodayFor(tableId: Id, today: Date): Reservation -> bool
  {
    (r: Reservation) => r.tableId == tableId && r.date == today && r.status == Confirmed
  }

  predicate IsOngoing(r: Reservation, now: Time) { now >= r.startTime && now <= r.endTime }

  /** A reservation the scan stops at: ongoing, or starting later. */
  predicate Qualifies(r: Reservation, now: Time) { IsOngoing(r, now) || now < r.startTime }

  datatype Current = Current(res: Reservation, isCurrent: bool)

  /** The scan of `getCurrentForTable` as written: the first reservation in
      storage order that is ongoing or still to start. */
  function FirstQualifying(todays: seq<Reservation>, now: Time): Option<Current>
  {
    if todays == [] then None
    else if IsOngoing(todays[0], now) then Some(Current(todays[0], true))
    else if now < todays[0].startTime then Some(Current(todays[0], false))
    else FirstQualifying(todays[1..], now)
  }

  /** What the scan finds: the first qualifying reservation, flagged current
      exactly when it is ongoing; nothing when none qualifies. */
  lemma {:induction false} FirstQualifyingIsFirst(todays: seq<Reservation>, now: Time)
    ensures FirstQualifying(todays, now).None? <==> forall x :: x in todays ==> !Qualifies(x, now)
    ensures FirstQualifying(todays, now).Some? ==>
      var c := FirstQualifying(todays, now).value;
      c.isCurrent == IsOngoing(c.res, now)
      && exists k :: 0 <= k < |todays| && todays[k] == c.res && Qualifies(c.res, now)
                     && forall j :: 0 <= j < k ==> !Qualifies(todays[j], now)
    decreases |todays|
  {
    if todays != [] && !Qualifies(todays[0], now) {
      FirstQualifyingIsFirst(todays[1..], now);
      assert todays == [todays[0]] + todays[1..];
      if FirstQualifying(todays, now).Some? {
        var c := FirstQualifying(todays, now).value;
        var k :| 0 <= k < |todays[1..]| && todays[1..][k] == c.res && Qualifies(c.res, now)
          && forall j :: 0 <= j < k ==> !Qualifies(todays[1..][j], now);
        assert todays[k + 1] == c.res;
        assert forall j :: 1 <= j < k + 1 ==> todays[j] == todays[1..][j - 1];
      }
    }
  }

  /** The `for (const res of reservations)` loop with its early returns. */
  method ScanTodays(todays: seq<Reservation>, now: Time) returns (r: Option<Current>)
    ensures r == FirstQualifying(todays, now)
  {
    var k := 0;
    while k < |todays|
      invariant 0 <= k <= |todays|
      invariant FirstQualifying(todays[k..], now) == FirstQualifying(todays, now)
    {
      var res := todays[k];
      if now >= res.startTime && now <= res.endTime {
        return Some(Current(res, true));
      }
      if now < res.startTime {
        return Some(Current(res, false));
      }
      assert todays[k..][1..] == todays[k + 1..];
      k := k + 1;
    }
    return None;
  }

  /** `getCurrentForTable`: nothing for an unknown table number, otherwise the
      scan over that table's confirmed reservations of today. */
  method GetCurrentForTable(tables: seq<Table>, rows: seq<Reservation>, tableNumber: int, today: Date, now: Time)
    returns (r: Option<Current>)
    ensures TableByNumber(tables, tableNumber).None? ==> r.None?
    ensures TableByNumber(tables, tableNumber).Some? ==>
      r == FirstQualifying(Filter(rows, TodayFor(TableByNumber(tables, tableNumber).value.id, today)), now)
  {
    var table := TableByNumber(tables, tableNumber);
    if table.None? {
      return None;
    }
    var todays := Filter(rows, TodayFor(table.value.id, today));
    r := ScanTodays(todays, now);
  }

  /** Storage order is creation order, not start-time order: a reservation
      stored earlier for the evening hides one that is in progress. */
  lemma ScanCanMissOngoingReservation()
    ensures var evening := Reservation("e", "t1", 1, "E", None, 20240101, 1080, 1200, 2, Confirmed, None);
      var lunch := Reservation("l", "t1", 1, "L", None, 20240101, 720, 840, 2, Confirmed, None);
      IsOngoing(lunch, 780) && FirstQualifying([evening, lunch], 780) == Some(Current(evening, false))
  {
  }

  /** The current-or-next lookup the scan is meant to perform: an ongoing
      reservation if there is one, otherwise the one that starts soonest. */
  method CurrentOrNext(todays: seq<Reservation>, now: Time) returns (r: Option<Current>)
    ensures r.Some? ==> r.value.res in todays && r.value.isCurrent == IsOngoing(r.value.res, now)
    ensures (exists x :: x in todays && IsOngoing(x, now)) ==> r.Some? && r.value.isCurrent
    ensures r.None? <==> forall x :: x in todays ==> !Qualifies(x, now)
    ensures r.Some? && !r.value.isCurrent ==>
      now < r.value.res.startTime
      && forall x :: x in todays && now < x.startTime ==> r.value.res.startTime <= x.startTime
  {
    var ongoing: Option<Reservation> := None;
    var next: Option<Reservation> := None;
    var k := 0;
    while k < |todays|
      invariant 0 <= k <= |todays|
      invariant ongoing.Some? ==> ongoing.value in todays && IsOngoing(ongoing.value, now)
      invariant ongoing.None? ==> forall j :: 0 <= j < k ==> !IsOngoing(todays[j], now)
      invariant next.Some? ==> next.value in todays && now < next.value.startTime
      invariant next.None? ==> forall j :: 0 <= j < k ==> !(now < todays[j].startTime)
      invariant next.Some? ==> forall j :: 0 <= j < k && now < todays[j].startTime ==> next.value.startTime <= todays[j].startTime
    {
      var res := todays[k];
      if IsOngoing(res, now) && ongoing.None? {
        ongoing := Some(res);
      }
      if now < res.startTime && (next.None? || res.startTime < next.value.startTime) {
        next := Some(res);
      }
      k := k + 1;
    }
    if ongoing.Some? {
      return Some(Current(ongoing.value, true));
    }
    if next.Some? {
      return Some(Current(next.value, false));
    }
    return None;
  }

  // ------------------------------------------------------------ today stats

  datatype TodayStats = TodayStats(total: nat, upcoming: nat)

  function ConfirmedOn(today: Date): Reservation -> bool
  {
    (r: Reservation) => r.date == today && r.status == Confirmed
  }

  function StartsAfter(now: Time): Reservation -> bool
  {
    (r: Reservation) => r.startTime > now
  }

  function StartedBy(now: Time): Reservation -> bool
  {
    (r: Reservation) => r.startTime <= now
  }

  /** `getTodayStats`: today's confirmed reservations, and how many of them
      start after now. */
  function GetTodayStats(rows: seq<Reservation>, today: Date, now: Time): (s: TodayStats)
    ensures s.upcoming <= s.total <= |rows|
    ensures s.total == |Filter(rows, ConfirmedOn(today))|
    ensures s.upcoming == |Filter(Filter(rows, ConfirmedOn(today)), StartsAfter(now))|
  {
    var todays := Filter(rows, ConfirmedOn(today));
    TodayStats(|todays|, |Filter(todays, StartsAfter(now))|)
  }

  /** The reservations today that are not upcoming are exactly those that
      have already started. */
  lemma TodayStatsSplit(rows: seq<Reservation>, today: Date, now: Time)
    ensures var s := GetTodayStats(rows, today, now);
      s.total - s.upcoming == |Filter(Filter(rows, ConfirmedOn(today)), StartedBy(now))|
  {
    FilterSplitsLength(Filter(rows, ConfirmedOn(today)), StartsAfter(now), StartedBy(now));
  }
}
