/**
 * The running server's appointment handlers: available slots, create with a
 * slot-conflict check, status update, delete, the active-services list and the
 * date-ordered appointment list.
 */
module Server {
  import opened Wrappers
  import opened Seqs
  import opened Records
  import opened SlotLabels

  /** The server's candidate labels: half-hourly from 09:00 to 17:00, both included. */
  const AllSlots: seq<string> := [
    "09:00", "09:30", "10:00", "10:30", "11:00", "11:30",
    "12:00", "12:30", "13:00", "13:30", "14:00", "14:30",
    "15:00", "15:30", "16:00", "16:30", "17:00"]

  /** The seventeen labels are 09:00 plus k half hours, for k = 0 .. 16. */
  lemma AllSlotsTimes()
    ensures |AllSlots| == 17
    ensures forall k :: 0 <= k < 17 ==> Clock(AllSlots[k]) == Some(540 + 30 * k)
  {
    forall k | 0 <= k < 17 ensures Clock(AllSlots[k]) == Some(540 + 30 * k) {
      if k < 9 {
        MorningSlots(k);
      } else {
        AfternoonSlots(k);
      }
    }
  }

  lemma MorningSlots(k: nat)
    requires k < 9
    ensures Clock(AllSlots[k]) == Some(540 + 30 * k)
  {
  }

  lemma AfternoonSlots(k: nat)
    requires 9 <= k < 17
    ensures Clock(AllSlots[k]) == Some(540 + 30 * k)
  {
  }

  /** Hence they run from 09:00 to 17:00, ascending, on the half hour. */
  lemma AllSlotsAscending()
    ensures StrictlyAscending(AllSlots) && OnHalfHours(AllSlots)
    ensures AllSlots[0] == "09:00" && AllSlots[16] == "17:00"
  {
    AllSlotsTimes();
  }

  /**
   * `GET /api/appointments/available-slots`: all seventeen labels when the doctor or the
   * date is missing or empty; a 500 when the date text is one `new Date` (here `dayOf`)
   * cannot read, since the store refuses the query; otherwise the labels not held by a
   * non-cancelled booking of that doctor on that day.
   */
  function AvailableSlots(rows: seq<Appointment>, doctorId: Option<string>, date: Option<string>,
                          dayOf: string -> Option<int>): (r: Reply<seq<string>>)
    ensures !Given(doctorId) || !Given(date) ==> r == Reply(200, AllSlots)
    ensures Given(doctorId) && Given(date) && dayOf(date.value).None? ==>
      r == Error(500, "Failed to fetch available slots")
    ensures Given(doctorId) && Given(date) && dayOf(date.value).Some? ==>
      r.Reply? && r.code == 200 && IsSubsequence(r.body, AllSlots)
      && forall t :: t in r.body <==> t in AllSlots && !SlotTaken(rows, doctorId.value, dayOf(date.value).value, t, Cancelled)
  {
    if !Given(doctorId) || !Given(date) then
      Reply(200, AllSlots)
    else if dayOf(date.value).None? then
      Error(500, "Failed to fetch available slots")
    else
      Reply(200, RemoveBooked(AllSlots, BookedTimes(rows, doctorId.value, dayOf(date.value).value, Cancelled)))
  }

  /** Cancelled bookings never take a slot away. */
  lemma CancelledBookingFreesSlot(rows: seq<Appointment>, a: Appointment, date: Option<string>,
                                  dayOf: string -> Option<int>)
    requires a.status == Cancelled
    ensures AvailableSlots(rows + [a], Some(a.doctorId), date, dayOf)
         == AvailableSlots(rows, Some(a.doctorId), date, dayOf)
  {
    if a.doctorId != "" && Given(date) && dayOf(date.value).Some? {
      CancelledRowBooksNothing(AllSlots, rows, a, dayOf(date.value).value);
    }
  }

  lemma CancelledRowBooksNothing(candidates: seq<string>, rows: seq<Appointment>, a: Appointment, date: int)
    requires a.status == Cancelled
    ensures RemoveBooked(candidates, BookedTimes(rows + [a], a.doctorId, date, Cancelled))
         == RemoveBooked(candidates, BookedTimes(rows, a.doctorId, date, Cancelled))
  {
    var d := a.doctorId;
    forall t ensures SlotTaken(rows + [a], d, date, t, Cancelled) <==> SlotTaken(rows, d, date, t, Cancelled) {
      if SlotTaken(rows + [a], d, date, t, Cancelled) {
        var i :| 0 <= i < |rows + [a]| && Occupies((rows + [a])[i], Cancelled)
          && (rows + [a])[i].doctorId == d && (rows + [a])[i].date == date && (rows + [a])[i].time == t;
        assert i < |rows| && (rows + [a])[i] == rows[i];
      }
      if SlotTaken(rows, d, date, t, Cancelled) {
        var i :| 0 <= i < |rows| && Occupies(rows[i], Cancelled)
          && rows[i].doctorId == d && rows[i].date == date && rows[i].time == t;
        assert (rows + [a])[i] == rows[i];
      }
    }
    RemoveBookedBySet(candidates, BookedTimes(rows + [a], d, date, Cancelled), BookedTimes(rows, d, date, Cancelled));
  }

  function IsActive(): Service -> bool
  {
    (s: Service) => s.isActive
  }

  /** `GET /api/services`: the active services, in table order. */
  function ActiveServices(services: seq<Service>): (r: seq<Service>)
    ensures IsSubsequence(r, services)
    ensures forall s :: s in r <==> s in services && s.isActive
  {
    FilterIsSubsequence(services, IsActive());
    Filter(services, IsActive())
  }

  /**
   * `findFirst` for a row holding (doctorId, date, time) whose status is not `cancelled`:
   * the first such row in table order, if any.
   */
  method FindSlotHolder(rows: seq<Appointment>, doctorId: string, date: int, time: string)
    returns (holder: Option<Appointment>)
    ensures holder.None? <==> !SlotTaken(rows, doctorId, date, time, Cancelled)
    ensures holder.Some? ==>
      exists i :: 0 <= i < |rows| && rows[i] == holder.value && !SlotTaken(rows[..i], doctorId, date, time, Cancelled)
    ensures holder.Some? ==>
      Occupies(holder.value, Cancelled) && holder.value.doctorId == doctorId && holder.value.date == date && holder.value.time == time
  {
    var i := 0;
    while i < |rows|
      invariant 0 <= i <= |rows|
      invariant !SlotTaken(rows[..i], doctorId, date, time, Cancelled)
    {
      var a := rows[i];
      if Occupies(a, Cancelled) && a.doctorId == doctorId && a.date == date && a.time == time {
        return Some(a);
      }
      assert rows[..i + 1] == rows[..i] + [a];
      i := i + 1;
    }
    assert rows[..i] == rows;
    return None;
  }

  /** Inserting a row into a free slot keeps every slot held by at most one booking. */
  lemma InsertIntoFreeSlot(rows: seq<Appointment>, a: Appointment)
    requires NoDoubleBooking(rows)
    requires !SlotTaken(rows, a.doctorId, a.date, a.time, Cancelled)
    ensures NoDoubleBooking(rows + [a])
  {
    var r := rows + [a];
    forall i, j | 0 <= i < j < |r| && Occupies(r[i], Cancelled) && Occupies(r[j], Cancelled)
      ensures !SameSlot(r[i], r[j])
    {
      if j == |rows| {
        assert r[i] == rows[i];
      } else {
        assert r[i] == rows[i] && r[j] == rows[j];
      }
    }
  }

  /** A status update may re-open a cancelled booking whose slot was taken again. */
  lemma ReopeningCanDoubleBook()
    ensures exists rows: seq<Appointment>, id: string ::
      UniqueIds(rows) && HasId(rows, id) && NoDoubleBooking(rows)
      && !NoDoubleBooking(WithStatus(rows, id, Pending))
  {
    var first := Appointment("a1", "Ann", "ann@x.com", "1", "s1", "d1", 10, "09:00", "", Cancelled);
    var second := Appointment("a2", "Bob", "bob@x.com", "2", "s1", "d1", 10, "09:00", "", Pending);
    var rows := [first, second];
    assert HasId(rows, "a1") by { assert rows[0].id == "a1"; }
    var after := WithStatus(rows, "a1", Pending);
    assert after[0] == first.(status := Pending) && after[1] == second;
    assert Occupies(after[0], Cancelled) && Occupies(after[1], Cancelled) && SameSlot(after[0], after[1]);
  }

  /** Deleting an existing id from a table with unique ids removes exactly that row. */
  lemma {:induction false} DeleteRemovesOne(rows: seq<Appointment>, id: string)
    requires UniqueIds(rows) && HasId(rows, id)
    ensures |WithoutId(rows, id)| == |rows| - 1
    ensures UniqueIds(WithoutId(rows, id))
  {
    var p := IdIsNot(id);
    if rows[0].id == id {
      assert forall i :: 0 <= i < |rows[1..]| ==> p(rows[1..][i]) by {
        forall i | 0 <= i < |rows[1..]| ensures p(rows[1..][i]) {
          assert rows[1..][i] == rows[i + 1];
        }
      }
      FilterKeepsAll(rows[1..], p);
    } else {
      assert HasId(rows[1..], id) by {
        var i :| 0 <= i < |rows| && rows[i].id == id;
        assert rows[1..][i - 1] == rows[i];
      }
      assert UniqueIds(rows[1..]) by {
        forall i, j | 0 <= i < j < |rows[1..]| ensures rows[1..][i].id != rows[1..][j].id {
          assert rows[1..][i] == rows[i + 1] && rows[1..][j] == rows[j + 1];
        }
      }
      DeleteRemovesOne(rows[1..], id);
    }
    SubsequenceUnique(WithoutId(rows, id), rows);
  }

  /** A subsequence of a table with unique ids has unique ids. */
  lemma {:induction false} SubsequenceUnique(sub: seq<Appointment>, rows: seq<Appointment>)
    requires IsSubsequence(sub, rows) && UniqueIds(rows)
    ensures UniqueIds(sub)
  {
    SubsequenceKeepsSorted(sub, rows, DistinctIds());
  }

  function DistinctIds(): (Appointment, Appointment) -> bool
  {
    (a: Appointment, b: Appointment) => a.id != b.id
  }

  /**
   * The server's appointment table. `services` and `doctors` are the rows the foreign
   * keys of a new appointment must reference.
   */
  class AppointmentTable {
    const services: seq<Service>
    const doctors: seq<Doctor>
    var rows: seq<Appointment>

    ghost predicate Valid()
      reads this
    {
      UniqueIds(rows)
    }

    constructor (services: seq<Service>, doctors: seq<Doctor>, rows: seq<Appointment>)
      requires UniqueIds(rows)
      ensures Valid()
      ensures this.services == services && this.doctors == doctors && this.rows == rows
    {
      this.services := services;
      this.doctors := doctors;
      this.rows := rows;
    }

    /**
     * `POST /api/appointments`. 400 when a required field is missing or empty; 500 when
     * the date text is one `new Date` (here `dayOf`) cannot read, as the slot query then
     * throws; 400 when a non-cancelled booking holds the slot; 500 when a foreign key or
     * the generated id is rejected by the store; otherwise 201 with the inserted pending row.
     */
    method Create(req: BookingRequest, dayOf: string -> Option<int>, newId: string) returns (res: Reply<Appointment>)
      requires Valid()
      modifies this
      ensures Valid()
      ensures !Complete(req) ==>
        res == Error(400, "All required fields must be filled") && rows == old(rows)
      ensures Complete(req) && RequestDay(req, dayOf).None? ==>
        res == Error(500, "Failed to create appointment") && rows == old(rows)
      ensures Complete(req) && RequestDay(req, dayOf).Some? ==>
        var day := RequestDay(req, dayOf).value;
        (SlotTaken(old(rows), req.doctorId.value, day, req.appointmentTime.value, Cancelled) ==>
           res == Error(400, "This time slot is already booked") && rows == old(rows))
        && (!SlotTaken(old(rows), req.doctorId.value, day, req.appointmentTime.value, Cancelled)
            && (!References(req, services, doctors) || HasId(old(rows), newId)) ==>
           res == Error(500, "Failed to create appointment") && rows == old(rows))
        && (!SlotTaken(old(rows), req.doctorId.value, day, req.appointmentTime.value, Cancelled)
            && References(req, services, doctors) && !HasId(old(rows), newId) ==>
           res == Reply(201, NewAppointment(req, day, newId)) && rows == old(rows) + [NewAppointment(req, day, newId)])
    {
      if !Complete(req) {
        return Error(400, "All required fields must be filled");
      }
      var day := RequestDay(req, dayOf);
      if day.None? {
        return Error(500, "Failed to create appointment");
      }
      var holder := FindSlotHolder(rows, req.doctorId.value, day.value, req.appointmentTime.value);
      if holder.Some? {
        return Error(400, "This time slot is already booked");
      }
      if !References(req, services, doctors) || FindById(rows, newId).Some? {
        return Error(500, "Failed to create appointment");
      }
      var a := NewAppointment(req, day.value, newId);
      AppendFreshId(rows, a);
      rows := rows + [a];
      return Reply(201, a);
    }

    /**
     * `PATCH /api/appointments/:id`. 400 unless the status is one of the four lower-case
     * values; 500 (the store's error, not 404) for an unknown id; otherwise only that
     * row's status changes. No slot check is made.
     */
    method UpdateStatus(id: string, status: Option<string>) returns (res: Reply<Appointment>)
      requires Valid()
      modifies this
      ensures Valid()
      ensures (status.None? || status.value !in ValidStatuses) ==>
        res == Error(400, "Invalid status") && rows == old(rows)
      ensures status.Some? && status.value in ValidStatuses && !HasId(old(rows), id) ==>
        res == Error(500, "Failed to update appointment") && rows == old(rows)
      ensures status.Some? && status.value in ValidStatuses && HasId(old(rows), id) ==>
        rows == WithStatus(old(rows), id, status.value)
        && res == Reply(200, FindById(old(rows), id).value.(status := status.value))
    {
      if status.None? || status.value !in ValidStatuses {
        return Error(400, "Invalid status");
      }
      var found := FindById(rows, id);
      if found.None? {
        return Error(500, "Failed to update appointment");
      }
      WithStatusKeepsIds(rows, id, status.value);
      rows := WithStatus(rows, id, status.value);
      return Reply(200, found.value.(status := status.value));
    }

    /** `DELETE /api/appointments/:id`: removes that row; an unknown id is a 500. */
    method Delete(id: string) returns (res: Reply<string>)
      requires Valid()
      modifies this
      ensures Valid()
      ensures !HasId(old(rows), id) ==> res == Error(500, "Failed to delete appointment") && rows == old(rows)
      ensures HasId(old(rows), id) ==>
        res == Reply(200, "Appointment deleted successfully") && rows == WithoutId(old(rows), id)
        && |rows| == |old(rows)| - 1
    {
      if FindById(rows, id).None? {
        return Error(500, "Failed to delete appointment");
      }
      DeleteRemovesOne(rows, id);
      rows := WithoutId(rows, id);
      return Reply(200, "Appointment deleted successfully");
    }
  }
}
