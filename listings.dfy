/**
 * What the admin pages share: an appointment as the list endpoint delivers it to the
 * browser, the row actions, and how the rows split by status.
 */
module Listings {
  import opened Wrappers
  import opened Seqs
  import opened Records

  /** An appointment with its service's name and price joined in; the date is ISO 8601 text. */
  datatype Listing = Listing(
    id: string,
    patientName: string,
    patientEmail: string,
    patientPhone: string,
    appointmentDate: string,
    appointmentTime: string,
    status: string,
    serviceName: string,
    servicePrice: nat)

  /** The buttons of an appointment row. */
  datatype Action = Confirm | Complete | Cancel | View | Delete

  /** The status an action's button sends to the status update, for the buttons that send one. */
  function TargetStatus(a: Action): (s: Option<string>)
    ensures s.Some? ==> s.value in ValidStatuses
    ensures s.None? <==> a == View || a == Delete
  {
    match a
    case Confirm => Some(Confirmed)
    case Complete => Some(Completed)
    case Cancel => Some(Cancelled)
    case View => None
    case Delete => None
  }

  function StatusIs(status: string): Listing -> bool
  {
    (a: Listing) => a.status == status
  }

  /** `filter === 'all' || a.status === filter`. */
  function StatusOrAll(filter: string): Listing -> bool
  {
    (a: Listing) => filter == "all" || a.status == filter
  }

  /** A status outside the four the status update accepts (such as `CONFIRMED`). */
  function Unlisted(): Listing -> bool
  {
    (a: Listing) => a.status !in ValidStatuses
  }

  /** `rows.filter(a => a.status === status).length`. */
  function StatusCount(rows: seq<Listing>, status: string): (n: nat)
    ensures n <= |rows|
  {
    Count(rows, StatusIs(status))
  }

  /** Counting the first row separately from the rest. */
  lemma CountCons<T>(s: seq<T>, p: T -> bool)
    requires s != []
    ensures Count(s, p) == (if p(s[0]) then 1 else 0) + Count(s[1..], p)
  {
  }

  /** Every row has one of the four statuses or none of them. */
  lemma {:induction false} StatusCountsPartition(rows: seq<Listing>)
    ensures StatusCount(rows, Pending) + StatusCount(rows, Confirmed) + StatusCount(rows, Cancelled)
      + StatusCount(rows, Completed) + Count(rows, Unlisted()) == |rows|
  {
    if rows != [] {
      StatusCountsPartition(rows[1..]);
      CountCons(rows, StatusIs(Pending));
      CountCons(rows, StatusIs(Confirmed));
      CountCons(rows, StatusIs(Cancelled));
      CountCons(rows, StatusIs(Completed));
      CountCons(rows, Unlisted());
    }
  }

  /** A count is zero exactly when no element satisfies the predicate. */
  lemma CountZero<T>(s: seq<T>, p: T -> bool)
    ensures Count(s, p) == 0 <==> forall i :: 0 <= i < |s| ==> !p(s[i])
  {
    if Count(s, p) != 0 {
      var r := Filter(s, p);
      assert p(r[0]) && r[0] in s;
    }
  }
}
