/**
 * `routes/doctor.roures.ts`: the doctor list by rating, and an availability query over nine
 * hourly labels that ignores only bookings whose status is the upper-case `CANCELLED`.
 */
module DoctorRoutes {
  import opened Wrappers
  import opened Seqs
  import opened Records
  import opened SlotLabels

  /** The status spelling this router treats as released. */
  const UpperCancelled: string := "CANCELLED"

  /** The nine hourly labels, 09:00 to 17:00. */
  const HourlySlots: seq<string> := [
    "09:00", "10:00", "11:00", "12:00",
    "13:00", "14:00", "15:00", "16:00", "17:00"]

  /** The k-th hourly label is k hours after 09:00. */
  lemma HourlySlotsTimes()
    ensures |HourlySlots| == 9
    ensures forall k :: 0 <= k < 9 ==> Clock(HourlySlots[k]) == Some(540 + 60 * k)
  {
  }

  /** So the list is ascending, on the hour, and holds no half-hour label. */
  lemma HourlySlotsAscending()
    ensures StrictlyAscending(HourlySlots) && OnHalfHours(HourlySlots)
    ensures HourlySlots[0] == "09:00" && HourlySlots[8] == "17:00"
    ensures forall t :: Clock(t).Some? && Clock(t).value % 60 == 30 ==> t !in HourlySlots
  {
    HourlySlotsTimes();
    EvenlySpacedAscending(HourlySlots, 540, 60);
    forall t, k | Clock(t).Some? && Clock(t).value % 60 == 30 && 0 <= k < 9 ensures HourlySlots[k] != t {
      assert Clock(HourlySlots[k]).value % 60 == 0;
    }
  }

  function HigherRated(): (Doctor, Doctor) -> bool
  {
    (a: Doctor, b: Doctor) => a.rating >= b.rating
  }

  /** `GET /`: every doctor, best rating first. */
  function ListByRating(doctors: seq<Doctor>): (r: seq<Doctor>)
    ensures multiset(r) == multiset(doctors)
    ensures forall i, j :: 0 <= i < j < |r| ==> r[i].rating >= r[j].rating
  {
    SortBySorted(doctors, HigherRated());
    SortBy(doctors, HigherRated())
  }

  /**
   * `GET /:id/availability`. The doctor is never looked up and the date never checked:
   * `dayOf` stands for `new Date(date)`, and a missing or unreadable date makes the query
   * throw (500). Bookings block their slot unless their status is exactly `CANCELLED`.
   */
  function Availability(rows: seq<Appointment>, id: string, date: Option<string>, dayOf: string -> Option<int>)
    : (r: Reply<seq<string>>)
    ensures r.Error? <==> date.None? || dayOf(date.value).None?
    ensures r.Error? ==> r == Error(500, "Failed to fetch availability")
    ensures r.Reply? ==> r.code == 200 && IsSubsequence(r.body, HourlySlots)
    ensures r.Reply? ==> forall t :: t in r.body <==>
      t in HourlySlots && !SlotTaken(rows, id, dayOf(date.value).value, t, UpperCancelled)
  {
    if date.None? || dayOf(date.value).None? then Error(500, "Failed to fetch availability")
    else Reply(200, RemoveBooked(HourlySlots, BookedTimes(rows, id, dayOf(date.value).value, UpperCancelled)))
  }

  /** A booking set to lower-case `cancelled`, as the status update stores it, still blocks its slot. */
  lemma LowercaseCancelledStillBlocks(rows: seq<Appointment>, i: nat, date: string, dayOf: string -> Option<int>)
    requires i < |rows| && rows[i].status == Cancelled
    requires rows[i].time in HourlySlots && dayOf(date) == Some(rows[i].date)
    ensures Availability(rows, rows[i].doctorId, Some(date), dayOf).Reply?
    ensures rows[i].time !in Availability(rows, rows[i].doctorId, Some(date), dayOf).body
  {
    assert Occupies(rows[i], UpperCancelled);
  }

  /** A booking at a half-hour time such as 09:30 never changes the list. */
  lemma HalfHourBookingIgnored(rows: seq<Appointment>, a: Appointment, id: string, date: string,
                               dayOf: string -> Option<int>)
    requires Clock(a.time).Some? && Clock(a.time).value % 60 == 30
    ensures Availability([a] + rows, id, Some(date), dayOf) == Availability(rows, id, Some(date), dayOf)
  {
    if dayOf(date).Some? {
      var day := dayOf(date).value;
      HourlySlotsAscending();
      var b := BookedTimes(rows, id, day, UpperCancelled);
      assert ([a] + rows)[1..] == rows;
      if Occupies(a, UpperCancelled) && a.doctorId == id && a.date == day {
        assert BookedTimes([a] + rows, id, day, UpperCancelled) == [a.time] + b;
        RemoveBookedBySet(HourlySlots, [a.time] + b, b + [a.time]);
        RemoveBookedIgnoresNonCandidates(HourlySlots, b, [a.time]);
      } else {
        assert BookedTimes([a] + rows, id, day, UpperCancelled) == b;
      }
    }
  }

  /** Nothing checks that the doctor exists: an id no booking names gets all nine labels. */
  lemma UnknownDoctorFullList(rows: seq<Appointment>, id: string, date: string, dayOf: string -> Option<int>)
    requires forall a :: a in rows ==> a.doctorId != id
    requires dayOf(date).Some?
    ensures Availability(rows, id, Some(date), dayOf) == Reply(200, HourlySlots)
  {
    var b := BookedTimes(rows, id, dayOf(date).value, UpperCancelled);
    forall k | 0 <= k < |rows| ensures rows[k].doctorId != id {
      assert rows[k] in rows;
    }
    RemoveBookedBySet(HourlySlots, b, []);
    RemoveNothing(HourlySlots);
  }
}
