/**
 * The appointments management page (`app/admin/appointments/page.tsx`): the status and
 * search filter, the summary counts, and which row actions each status offers.
 */
module AdminAppointmentsPage {
  import opened Seqs
  import opened Text
  import opened Records
  import opened Listings

  /** Name, e-mail or service name contains the query, ignoring case. */
  function QueryMatches(query: string): Listing -> bool
  {
    (a: Listing) =>
      Contains(Lower(a.patientName), Lower(query))
      || Contains(Lower(a.patientEmail), Lower(query))
      || Contains(Lower(a.serviceName), Lower(query))
  }

  /** `filterAppointments`: the status filter unless it is `all`, then the search unless the query is empty. */
  function FilterAppointments(rows: seq<Listing>, statusFilter: string, query: string): (r: seq<Listing>)
    ensures IsSubsequence(r, rows)
    ensures forall a :: a in r ==> statusFilter == "all" || a.status == statusFilter
    ensures statusFilter == "all" && query == "" ==> r == rows
  {
    var byStatus := if statusFilter != "all" then Filter(rows, StatusIs(statusFilter)) else rows;
    var byQuery := if query != "" then Filter(byStatus, QueryMatches(query)) else byStatus;
    assert IsSubsequence(byStatus, rows) by {
      FilterIsSubsequence(rows, StatusIs(statusFilter));
      SubsequenceOfSelf(rows);
    }
    assert IsSubsequence(byQuery, rows) by {
      FilterIsSubsequence(byStatus, QueryMatches(query));
      SubsequenceOfSelf(byStatus);
      SubsequenceTransitive(byQuery, byStatus, rows);
    }
    byQuery
  }

  /** The empty query matches every row, since every text contains the empty text. */
  lemma EmptyQueryMatchesAll(a: Listing)
    ensures QueryMatches("")(a)
  {
    ContainsEmpty(Lower(a.patientName));
  }

  /** The result is exactly the rows that pass both the status test and the search. */
  lemma FilterAppointmentsIsConjunction(rows: seq<Listing>, statusFilter: string, query: string)
    ensures FilterAppointments(rows, statusFilter, query)
         == Filter(rows, Both(StatusOrAll(statusFilter), QueryMatches(query)))
  {
    var both := Both(StatusOrAll(statusFilter), QueryMatches(query));
    forall a ensures QueryMatches("")(a) { EmptyQueryMatchesAll(a); }
    if statusFilter != "all" {
      var byStatus := Filter(rows, StatusIs(statusFilter));
      FilterFilter(rows, StatusIs(statusFilter), QueryMatches(query));
      FilterAgree(rows, Both(StatusIs(statusFilter), QueryMatches(query)), both);
      if query == "" {
        FilterKeepsAll(byStatus, QueryMatches(query));
      }
    } else {
      FilterAgree(rows, QueryMatches(query), both);
      if query == "" {
        FilterKeepsAll(rows, QueryMatches(query));
      }
    }
  }

  /**
   * The Confirmed, Pending and Completed cards together never exceed the Total card:
   * cancelled rows and rows with any other status are in none of them.
   */
  lemma SummaryCountsBounded(rows: seq<Listing>)
    ensures StatusCount(rows, Confirmed) + StatusCount(rows, Pending) + StatusCount(rows, Completed)
         == |rows| - StatusCount(rows, Cancelled) - Count(rows, Unlisted())
  {
    StatusCountsPartition(rows);
  }

  /** The buttons of a row: Confirm for `pending`, Complete for `confirmed`, Cancel unless `cancelled`, View and Delete always. */
  function RowActions(status: string): (r: set<Action>)
    ensures View in r && Delete in r
    ensures Confirm in r <==> status == Pending
    ensures Complete in r <==> status == Confirmed
    ensures Cancel in r <==> status != Cancelled
  {
    (if status == Pending then {Confirm} else {})
    + (if status == Confirmed then {Complete} else {})
    + (if status != Cancelled then {Cancel} else {})
    + {View, Delete}
  }
}
