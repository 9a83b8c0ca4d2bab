/**
 * Where the parts of the system disagree with each other: the three slot lists, the two
 * spellings of a cancelled or confirmed status, and the two create handlers' slot checks.
 */
module Divergences {
  import opened Wrappers
  import opened Records
  import opened SlotLabels
  import Server
  import DoctorRoutes
  import BookingForm
  import PaymentRoutes
  import Listings
  import AdminPage
  import AdminAppointmentsPage

  /**
   * The doctors' availability handler offers 09:00 to 16:00, the dialog 09:00 to 16:30 and
   * the server 09:00 to 17:00, each list a prefix of the next; the hourly router offers the
   * whole hours of the server's list only.
   */
  lemma SlotListsNest()
    ensures HalfHourLabels(15) == BookingForm.DefaultSlots[..15]
    ensures BookingForm.DefaultSlots == Server.AllSlots[..16]
    ensures "16:30" in BookingForm.DefaultSlots && "16:30" !in HalfHourLabels(15)
    ensures "17:00" in Server.AllSlots && "17:00" !in BookingForm.DefaultSlots
    ensures forall t :: t in DoctorRoutes.HourlySlots ==> t in Server.AllSlots
    ensures "09:30" in Server.AllSlots && "09:30" !in DoctorRoutes.HourlySlots
  {
    HourlySlotsInServerList();
    BookingForm.DefaultSlotsAreHalfHours();
    HalfHourLabelsPrefix(15, 16);
    BookingForm.DefaultSlotsAreServerPrefix();
    DoctorRoutesCandidates();
    assert Server.AllSlots[15] == "16:30";
  }

  lemma HourlySlotsInServerList()
    ensures forall t :: t in DoctorRoutes.HourlySlots ==> t in Server.AllSlots
  {
    forall k | 0 <= k < 9 ensures DoctorRoutes.HourlySlots[k] == Server.AllSlots[2 * k] {
    }
  }

  lemma DoctorRoutesCandidates()
    ensures "16:30" !in HalfHourLabels(15)
  {
    HalfHourLabelsTimes(15);
    assert Clock("16:30") == Some(990);
  }

  /**
   * A booking set to lower-case `cancelled` by the status update frees its slot in the
   * server's list, yet still takes it away in the hourly router's list.
   */
  lemma CancelledSpellingsDisagree(a: Appointment, date: string, dayOf: string -> Option<int>)
    requires a.status == Cancelled && a.doctorId != ""
    requires a.time in DoctorRoutes.HourlySlots && date != "" && dayOf(date) == Some(a.date)
    ensures Server.AvailableSlots([a], Some(a.doctorId), Some(date), dayOf).Reply?
    ensures a.time in Server.AvailableSlots([a], Some(a.doctorId), Some(date), dayOf).body
    ensures DoctorRoutes.Availability([a], a.doctorId, Some(date), dayOf).Reply?
    ensures a.time !in DoctorRoutes.Availability([a], a.doctorId, Some(date), dayOf).body
  {
    HourlySlotsInServerList();
    ServerFreesCancelled(a, date, dayOf);
    DoctorRoutes.LowercaseCancelledStillBlocks([a], 0, date, dayOf);
  }

  lemma ServerFreesCancelled(a: Appointment, date: string, dayOf: string -> Option<int>)
    requires a.status == Cancelled && a.doctorId != "" && a.time in Server.AllSlots
    requires date != "" && dayOf(date) == Some(a.date)
    ensures Server.AvailableSlots([a], Some(a.doctorId), Some(date), dayOf).Reply?
    ensures a.time in Server.AvailableSlots([a], Some(a.doctorId), Some(date), dayOf).body
  {
    assert !SlotTaken([a], a.doctorId, a.date, a.time, Cancelled);
  }

  /**
   * A payment confirmation stores `CONFIRMED`, which the status update would refuse as input,
   * which no statistics card counts, and for which neither admin page offers Complete.
   */
  lemma PaymentConfirmationStrandsRow(row: Listings.Listing)
    requires row.status == PaymentRoutes.UpperConfirmed
    ensures PaymentRoutes.UpperConfirmed !in ValidStatuses
    ensures var s := AdminPage.StatsOf([row]); s.total == 1 && s.pending + s.confirmed + s.cancelled + s.completed == 0
    ensures AdminPage.RowActions(PaymentRoutes.UpperConfirmed) == {Listings.Delete}
    ensures Listings.Complete !in AdminAppointmentsPage.RowActions(PaymentRoutes.UpperConfirmed)
    ensures Listings.Confirm !in AdminAppointmentsPage.RowActions(PaymentRoutes.UpperConfirmed)
  {
  }

  /**
   * The appointments router inserts without looking for a holder of the slot, so a request
   * for a taken slot breaks the one-booking-per-slot invariant the server's handler keeps.
   */
  lemma RouteCreateCanDoubleBook(rows: seq<Appointment>, req: BookingRequest, day: int, id: string)
    requires Present(req)
    requires SlotTaken(rows, req.doctorId.value, day, req.appointmentTime.value, Cancelled)
    ensures !NoDoubleBooking(rows + [NewAppointment(req, day, id)])
  {
    var a := NewAppointment(req, day, id);
    var i :| 0 <= i < |rows| && Occupies(rows[i], Cancelled)
      && rows[i].doctorId == a.doctorId && rows[i].date == a.date && rows[i].time == a.time;
    var r := rows + [a];
    assert r[i] == rows[i] && r[|rows|] == a;
    assert Occupies(r[i], Cancelled) && Occupies(r[|rows|], Cancelled) && SameSlot(r[i], r[|rows|]);
  }
}
