/**
 * The admin dashboard table (`app/admin/page.tsx`): the statistics cards, the filtered
 * list, and the row actions.
 */
module AdminPage {
  import opened Seqs
  import opened Text
  import opened Records
  import opened Listings

  datatype Stats = Stats(total: nat, pending: nat, confirmed: nat, cancelled: nat, completed: nat)

  /** `stats`: the row count and one count per lower-case status. */
  function StatsOf(rows: seq<Listing>): (s: Stats)
    ensures s.total == |rows|
    ensures s.pending <= s.total && s.confirmed <= s.total && s.cancelled <= s.total && s.completed <= s.total
  {
    Stats(|rows|, StatusCount(rows, Pending), StatusCount(rows, Confirmed),
          StatusCount(rows, Cancelled), StatusCount(rows, Completed))
  }

  /** The four status cards add up to the total exactly when every status is one of the four values. */
  lemma StatsAddUp(rows: seq<Listing>)
    ensures StatsOf(rows).pending + StatsOf(rows).confirmed + StatsOf(rows).cancelled + StatsOf(rows).completed
         == StatsOf(rows).total
        <==> forall i :: 0 <= i < |rows| ==> rows[i].status in ValidStatuses
  {
    StatusCountsPartition(rows);
    CountZero(rows, Unlisted());
  }

  /** Name and e-mail contain the term ignoring case; the phone number must contain it exactly. */
  function SearchMatches(term: string): Listing -> bool
  {
    (a: Listing) =>
      Contains(Lower(a.patientName), Lower(term))
      || Contains(Lower(a.patientEmail), Lower(term))
      || Contains(a.patientPhone, term)
  }

  /** `filteredAppointments`: the status filter, then the search, both always applied. */
  function FilteredAppointments(rows: seq<Listing>, filter: string, term: string): (r: seq<Listing>)
    ensures IsSubsequence(r, rows)
    ensures forall a :: a in r <==> a in rows && (filter == "all" || a.status == filter) && SearchMatches(term)(a)
  {
    var byStatus := Filter(rows, StatusOrAll(filter));
    FilterIsSubsequence(rows, StatusOrAll(filter));
    FilterIsSubsequence(byStatus, SearchMatches(term));
    SubsequenceTransitive(Filter(byStatus, SearchMatches(term)), byStatus, rows);
    Filter(byStatus, SearchMatches(term))
  }

  /** With filter `all` and an empty search term every row is listed, in order. */
  lemma EmptySearchKeepsAll(rows: seq<Listing>)
    ensures FilteredAppointments(rows, "all", "") == rows
  {
    FilterKeepsAll(rows, StatusOrAll("all"));
    forall i | 0 <= i < |rows| ensures SearchMatches("")(rows[i]) {
      ContainsEmpty(Lower(rows[i].patientName));
    }
    FilterKeepsAll(rows, SearchMatches(""));
  }

  /** An upper-case term finds a lower-case e-mail, but not a lower-case phone extension. */
  lemma PhoneSearchIsCaseSensitive()
    ensures SearchMatches("AB")(Listing("", "", "ab", "", "", "", Pending, "", 0))
    ensures !SearchMatches("AB")(Listing("", "", "", "ab", "", "", Pending, "", 0))
  {
    assert Lower("AB") == "ab";
    assert Lower("ab") == "ab";
    assert Contains("ab", "ab") by { ContainsSelf("ab"); }
    assert Lower("") == "";
    assert !Contains("ab", "AB") by { MissingCharNotContained("ab", "AB", 0); }
    assert !Contains("", "ab") by { MissingCharNotContained("", "ab", 0); }
  }

  /** The buttons of a row: `pending` offers confirm and cancel, `confirmed` only complete, delete always. */
  function RowActions(status: string): (r: set<Action>)
    ensures Delete in r && View !in r
    ensures Confirm in r <==> status == Pending
    ensures Cancel in r <==> status == Pending
    ensures Complete in r <==> status == Confirmed
  {
    if status == Pending then {Confirm, Cancel, Delete}
    else if status == Confirmed then {Complete, Delete}
    else {Delete}
  }
}
