/**
 * The analytics dashboard (`app/admin/dashboard/page.tsx`): today's and this month's
 * appointments, the month's revenue, the pending list, the seven-day series and the
 * revenue per service. The clock and the calendar are parameters: `today` and `dayKey(i)`
 * are ISO 8601 dates (`dayKey(i)` is i days before today), `inThisMonth` says whether a
 * date falls in the current month and year, and `dayName(i)` is the chart label of that day.
 */
module AdminDashboard {
  import opened Wrappers
  import opened Seqs
  import opened Text
  import opened Records
  import opened Listings

  /** `appointmentDate.split('T')[0]`: the date part of an ISO 8601 timestamp. */
  function DayPart(iso: string): (r: string)
    ensures 'T' !in r && r <= iso
  {
    Before(iso, 'T')
  }

  function OnDay(day: string): Listing -> bool
  {
    (a: Listing) => DayPart(a.appointmentDate) == day
  }

  /** The appointments whose date part is `day`, in list order. */
  function AppointmentsOn(rows: seq<Listing>, day: string): (r: seq<Listing>)
    ensures IsSubsequence(r, rows)
    ensures forall a :: a in r <==> a in rows && DayPart(a.appointmentDate) == day
  {
    FilterIsSubsequence(rows, OnDay(day));
    Filter(rows, OnDay(day))
  }

  /** A timestamp on `day` counts for it whatever its time of day. */
  lemma TimestampOnDay(day: string, clock: string)
    requires 'T' !in day
    ensures DayPart(day + "T" + clock) == day
  {
    var iso := day + "T" + clock;
    assert iso[..|day|] == day && iso[|day|] == 'T';
    assert IndexOf(iso, 'T') == Some(|day|);
  }

  function Price(): Listing -> int
  {
    (a: Listing) => a.servicePrice
  }

  function InMonth(inThisMonth: string -> bool): Listing -> bool
  {
    (a: Listing) => inThisMonth(a.appointmentDate)
  }

  /** `monthlyRevenue`: the service prices of this month's appointments, whatever their status. */
  function MonthlyRevenue(rows: seq<Listing>, inThisMonth: string -> bool): (total: int)
    ensures total >= 0
  {
    NonNegativePrices(Filter(rows, InMonth(inThisMonth)));
    Sum(Filter(rows, InMonth(inThisMonth)), Price())
  }

  lemma {:induction false} NonNegativePrices(rows: seq<Listing>)
    ensures Sum(rows, Price()) >= 0
  {
    if rows != [] {
      NonNegativePrices(rows[1..]);
    }
  }

  /** Changing statuses never changes the monthly revenue. */
  lemma {:induction false} MonthlyRevenueIgnoresStatus(rows: seq<Listing>, other: seq<Listing>, inThisMonth: string -> bool)
    requires |other| == |rows|
    requires forall i :: 0 <= i < |rows| ==> other[i] == rows[i].(status := other[i].status)
    ensures MonthlyRevenue(other, inThisMonth) == MonthlyRevenue(rows, inThisMonth)
    decreases |rows|
  {
    if rows != [] {
      var inMonth := InMonth(inThisMonth);
      MonthlyRevenueIgnoresStatus(rows[1..], other[1..], inThisMonth);
      assert other[0] == rows[0].(status := other[0].status);
      var head := if inMonth(rows[0]) then [rows[0]] else [];
      var otherHead := if inMonth(other[0]) then [other[0]] else [];
      assert Filter(rows, inMonth) == head + Filter(rows[1..], inMonth);
      assert Filter(other, inMonth) == otherHead + Filter(other[1..], inMonth);
      SumAppend(head, Filter(rows[1..], inMonth), Price());
      SumAppend(otherHead, Filter(other[1..], inMonth), Price());
    }
  }

  /** `pendingAppointments`. */
  function PendingAppointments(rows: seq<Listing>): (r: seq<Listing>)
    ensures |r| == StatusCount(rows, Pending)
    ensures forall a :: a in r <==> a in rows && a.status == Pending
  {
    Filter(rows, StatusIs(Pending))
  }

  /** The table of recent appointments: the first ten rows of the list. */
  function RecentAppointments(rows: seq<Listing>): (r: seq<Listing>)
    ensures |r| == if |rows| < 10 then |rows| else 10
    ensures r <= rows
  {
    Take(rows, 10)
  }

  /** A point of the seven-day chart. */
  datatype DayCount = DayCount(name: string, appointments: nat)

  /** `getLast7DaysData`: for i = 6 down to 0, the label of the day i days ago and how many appointments fall on it. */
  method Last7Days(rows: seq<Listing>, dayKey: nat -> string, dayName: nat -> string) returns (data: seq<DayCount>)
    ensures |data| == 7
    ensures forall k :: 0 <= k < 7 ==> data[k] == DayCount(dayName(6 - k), |AppointmentsOn(rows, dayKey(6 - k))|)
  {
    data := [];
    var i: int := 6;
    while i >= 0
      invariant -1 <= i <= 6
      invariant |data| == 6 - i
      invariant forall k :: 0 <= k < |data| ==> data[k] == DayCount(dayName(6 - k), |AppointmentsOn(rows, dayKey(6 - k))|)
    {
      var dateStr := dayKey(i);
      var count := |Filter(rows, OnDay(dateStr))|;
      data := data + [DayCount(dayName(i), count)];
      i := i - 1;
    }
  }

  // ---------------------------------------------------------------------------
  // Revenue per service name.

  /** A bar of the service revenue chart. */
  datatype ServiceTotal = ServiceTotal(name: string, revenue: int)

  /** The distinct service names in order of first appearance (a `Map`'s insertion order). */
  function Names(rows: seq<Listing>): (r: seq<string>)
    ensures forall i, j :: 0 <= i < j < |r| ==> r[i] != r[j]
    decreases |rows|
  {
    if rows == [] then []
    else
      var init := rows[..|rows| - 1];
      var prior := Names(init);
      if rows[|rows| - 1].serviceName in prior then prior else prior + [rows[|rows| - 1].serviceName]
  }

  lemma NamesSnoc(rows: seq<Listing>, a: Listing)
    ensures Names(rows + [a]) == if a.serviceName in Names(rows) then Names(rows) else Names(rows) + [a.serviceName]
  {
    assert (rows + [a])[..|rows|] == rows;
  }

  /** Every row's service name is listed. */
  lemma {:induction false} NamesCover(rows: seq<Listing>)
    ensures forall i :: 0 <= i < |rows| ==> rows[i].serviceName in Names(rows)
    decreases |rows|
  {
    if rows != [] {
      var init := rows[..|rows| - 1];
      var a := rows[|rows| - 1];
      assert rows == init + [a];
      NamesCover(init);
      NamesSnoc(init, a);
      assert forall i :: 0 <= i < |init| ==> rows[i] == init[i];
    }
  }

  /** Every listed name is some row's service name. */
  lemma {:induction false} NamesFromRows(rows: seq<Listing>)
    ensures forall n :: n in Names(rows) ==> exists i :: 0 <= i < |rows| && rows[i].serviceName == n
    decreases |rows|
  {
    if rows != [] {
      var init := rows[..|rows| - 1];
      var a := rows[|rows| - 1];
      assert rows == init + [a];
      NamesFromRows(init);
      NamesSnoc(init, a);
      forall n | n in Names(rows) ensures exists i :: 0 <= i < |rows| && rows[i].serviceName == n {
        if n in Names(init) {
          var i :| 0 <= i < |init| && init[i].serviceName == n;
          assert rows[i] == init[i];
        } else {
          assert rows[|rows| - 1].serviceName == n;
        }
      }
    }
  }

  /** The sum of the prices of the appointments for one service name, accumulated row by row. */
  function Revenue(rows: seq<Listing>, name: string): int
    decreases |rows|
  {
    if rows == [] then 0
    else
      var last := rows[|rows| - 1];
      Revenue(rows[..|rows| - 1], name) + (if last.serviceName == name then last.servicePrice else 0)
  }

  lemma RevenueSnoc(rows: seq<Listing>, a: Listing, name: string)
    ensures Revenue(rows + [a], name) == Revenue(rows, name) + (if a.serviceName == name then a.servicePrice else 0)
  {
    assert (rows + [a])[..|rows|] == rows;
  }

  lemma {:induction false} RevenueAbsent(rows: seq<Listing>, name: string)
    requires forall i :: 0 <= i < |rows| ==> rows[i].serviceName != name
    ensures Revenue(rows, name) == 0
    decreases |rows|
  {
    if rows != [] {
      RevenueAbsent(rows[..|rows| - 1], name);
    }
  }

  /** `getServiceRevenueData`: one entry per service name, in order of first appearance, with its revenue. */
  method ServiceRevenueData(rows: seq<Listing>) returns (data: seq<ServiceTotal>)
    ensures |data| == |Names(rows)|
    ensures forall k :: 0 <= k < |data| ==> data[k] == ServiceTotal(Names(rows)[k], Revenue(rows, Names(rows)[k]))
  {
    var names: seq<string> := [];
    var totals: map<string, int> := map[];
    var i := 0;
    while i < |rows|
      invariant 0 <= i <= |rows|
      invariant Tallied(rows[..i], names, totals)
    {
      var a := rows[i];
      assert rows[..i + 1] == rows[..i] + [a];
      var current := if a.serviceName in totals then totals[a.serviceName] else 0;
      TallyStep(rows[..i], a, names, totals);
      totals := totals[a.serviceName := current + a.servicePrice];
      if a.serviceName !in names {
        names := names + [a.serviceName];
      }
      i := i + 1;
    }
    assert rows[..i] == rows;
    data := seq(|names|, k requires 0 <= k < |names| => ServiceTotal(names[k], totals[names[k]]));
  }

  /** The loop state of `ServiceRevenueData` after the rows `seen`: the names met so far, each with its running total. */
  ghost predicate Tallied(seen: seq<Listing>, names: seq<string>, totals: map<string, int>)
  {
    && names == Names(seen)
    && (forall n :: n in totals <==> n in names)
    && (forall n :: n in names ==> totals[n] == Revenue(seen, n))
  }


  /** One row more: its price goes to its name's total, and a new name is appended. */
  lemma TallyStep(seen: seq<Listing>, a: Listing, names: seq<string>, totals: map<string, int>)
    requires Tallied(seen, names, totals)
    ensures
      var current := if a.serviceName in totals then totals[a.serviceName] else 0;
      Tallied(seen + [a], if a.serviceName in names then names else names + [a.serviceName],
              totals[a.serviceName := current + a.servicePrice])
  {
    var name := a.serviceName;
    var current := if name in totals then totals[name] else 0;
    var names' := if name in names then names else names + [name];
    var totals' := totals[name := current + a.servicePrice];
    NamesSnoc(seen, a);
    if name !in names {
      NamesCover(seen);
      RevenueAbsent(seen, name);
    }
    assert forall n :: n in totals' <==> n in names';
    forall n | n in names'
      ensures totals'[n] == Revenue(seen + [a], n)
    {
      RevenueSnoc(seen, a, n);
      if n == name {
        assert current == Revenue(seen, n);
      } else {
        assert n in names && totals'[n] == totals[n];
      }
    }
  }

  /** The revenues of a list of names, added up. */
  function Tally(names: seq<string>, rows: seq<Listing>): int
  {
    if names == [] then 0 else Revenue(rows, names[0]) + Tally(names[1..], rows)
  }

  lemma {:induction false} TallySnocName(names: seq<string>, name: string, rows: seq<Listing>)
    ensures Tally(names + [name], rows) == Tally(names, rows) + Revenue(rows, name)
  {
    if names != [] {
      assert (names + [name])[1..] == names[1..] + [name];
      TallySnocName(names[1..], name, rows);
    }
  }

  lemma {:induction false} TallySnocRow(names: seq<string>, rows: seq<Listing>, a: Listing)
    requires forall i, j :: 0 <= i < j < |names| ==> names[i] != names[j]
    ensures Tally(names, rows + [a]) == Tally(names, rows) + (if a.serviceName in names then a.servicePrice else 0)
  {
    if names != [] {
      RevenueSnoc(rows, a, names[0]);
      TallySnocRow(names[1..], rows, a);
      assert a.serviceName in names <==> a.serviceName == names[0] || a.serviceName in names[1..];
      assert names[0] !in names[1..];
    }
  }

  /** The service bars add up to the sum of all prices on the list. */
  lemma {:induction false} ServiceTotalsAddUp(rows: seq<Listing>)
    ensures Tally(Names(rows), rows) == Sum(rows, Price())
    decreases |rows|
  {
    if rows != [] {
      var init := rows[..|rows| - 1];
      var a := rows[|rows| - 1];
      assert rows == init + [a];
      ServiceTotalsAddUp(init);
      SumAppend(init, [a], Price());
      TallySnocRow(Names(init), init, a);
      if a.serviceName !in Names(init) {
        NamesCover(init);
        TallySnocName(Names(init), a.serviceName, rows);
        RevenueSnoc(init, a, a.serviceName);
        RevenueAbsent(init, a.serviceName);
      }
    }
  }
}
