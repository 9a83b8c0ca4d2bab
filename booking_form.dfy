/**
 * The booking dialog (`components/Booking.tsx`): the time slots it offers once a doctor and
 * a date are chosen, and the body it posts to the create endpoint.
 */
module BookingForm {
  import opened Wrappers
  import opened Records
  import opened SlotLabels
  import Server

  /** The sixteen labels the dialog offers, whatever the doctor's bookings. */
  const DefaultSlots: seq<string> := [
    "09:00", "09:30", "10:00", "10:30", "11:00", "11:30",
    "12:00", "12:30", "13:00", "13:30", "14:00", "14:30",
    "15:00", "15:30", "16:00", "16:30"]

  /** They are the server's list without its last label, 17:00. */
  lemma DefaultSlotsAreServerPrefix()
    ensures DefaultSlots == Server.AllSlots[..16]
    ensures Server.AllSlots[16] !in DefaultSlots && Server.AllSlots[16] == "17:00"
  {
  }

  /** The same sixteen labels the doctors' availability handler builds, plus 16:30. */
  lemma DefaultSlotsAreHalfHours()
    ensures DefaultSlots == HalfHourLabels(16)
  {
    TwoDigitTexts();
    forall k | 0 <= k < 16 ensures HalfHourLabels(16)[k] == DefaultSlots[k] {
      if k < 8 {
        MorningLabel(k);
      } else {
        AfternoonLabel(k);
      }
    }
  }

  /** Label k is the hour 9 + k / 2 and the minute k % 2 * 30, each as two digits. */
  lemma MorningLabel(k: nat)
    requires k < 8
    requires Pad2(0) == "00" && Pad2(30) == "30"
    requires Pad2(9) == "09" && Pad2(10) == "10" && Pad2(11) == "11" && Pad2(12) == "12"
    ensures HalfHourLabels(16)[k] == DefaultSlots[k]
  {
    assert HalfHourLabels(16)[k] == Pad2(9 + k / 2) + ":" + Pad2(k % 2 * 30);
  }

  lemma AfternoonLabel(k: nat)
    requires 8 <= k < 16
    requires Pad2(0) == "00" && Pad2(30) == "30"
    requires Pad2(13) == "13" && Pad2(14) == "14" && Pad2(15) == "15" && Pad2(16) == "16"
    ensures HalfHourLabels(16)[k] == DefaultSlots[k]
  {
    assert HalfHourLabels(16)[k] == Pad2(9 + k / 2) + ":" + Pad2(k % 2 * 30);
  }

  lemma TwoDigitTexts()
    ensures Pad2(0) == "00" && Pad2(30) == "30"
    ensures Pad2(9) == "09" && Pad2(10) == "10" && Pad2(11) == "11" && Pad2(12) == "12"
    ensures Pad2(13) == "13" && Pad2(14) == "14" && Pad2(15) == "15" && Pad2(16) == "16"
  {
  }

  /** Hence the sixteen half hours from 09:00 to 16:30, ascending. */
  lemma DefaultSlotsAscending()
    ensures forall k :: 0 <= k < |DefaultSlots| ==> Clock(DefaultSlots[k]) == Some(540 + 30 * k)
    ensures StrictlyAscending(DefaultSlots) && OnHalfHours(DefaultSlots)
  {
    DefaultSlotsAreServerPrefix();
    Server.AllSlotsTimes();
    EvenlySpacedAscending(DefaultSlots, 540, 30);
  }

  /** The slots effect: the default list once both a doctor and a date are chosen, none before. */
  function SlotList(doctorId: Option<string>, date: Option<string>): (r: seq<string>)
    ensures Given(doctorId) && Given(date) ==> r == DefaultSlots
    ensures !(Given(doctorId) && Given(date)) ==> r == []
  {
    if Given(doctorId) && Given(date) then DefaultSlots else []
  }

  /** Which doctor and which day are chosen never changes the offer: only whether both are. */
  lemma SlotListIgnoresChoice(d1: Option<string>, t1: Option<string>, d2: Option<string>, t2: Option<string>)
    requires Given(d1) && Given(t1) && Given(d2) && Given(t2)
    ensures SlotList(d1, t1) == SlotList(d2, t2) && |SlotList(d1, t1)| == 16
  {
  }

  /** The dialog's fields; `notes` may be left out. The date is the picker's `YYYY-MM-DD` text. */
  datatype FormData = FormData(
    patientName: string,
    patientEmail: string,
    patientPhone: string,
    serviceId: string,
    doctorId: string,
    date: string,
    time: string,
    notes: Option<string>)

  /** The JSON body of the create request. */
  datatype Payload = Payload(
    patientName: string,
    patientEmail: string,
    patientPhone: string,
    serviceId: string,
    doctorId: string,
    appointmentDate: string,
    appointmentTime: string,
    notes: string)

  /** `onSubmit`: `date` and `time` are sent as `appointmentDate` and `appointmentTime`, notes as `notes || ''`. */
  function ToPayload(f: FormData): (p: Payload)
    ensures p.appointmentDate == f.date && p.appointmentTime == f.time
    ensures Given(f.notes) ==> p.notes == f.notes.value
    ensures !Given(f.notes) ==> p.notes == ""
  {
    Payload(f.patientName, f.patientEmail, f.patientPhone, f.serviceId, f.doctorId, f.date, f.time,
      if Given(f.notes) then f.notes.value else "")
  }

  /**
   * How the server reads that body: every field present with the payload's text; the day
   * is then what the calendar `dayOf` reads from the date text.
   */
  function RequestOf(p: Payload): (req: BookingRequest)
    ensures Present(req)
    ensures req.appointmentDate == Some(p.appointmentDate) && req.appointmentTime == Some(p.appointmentTime)
    ensures req.notes == Some(p.notes)
    ensures forall dayOf: string -> Option<int> :: RequestDay(req, dayOf) == dayOf(p.appointmentDate)
  {
    BookingRequest(Some(p.patientName), Some(p.patientEmail), Some(p.patientPhone), Some(p.serviceId),
      Some(p.doctorId), Some(p.appointmentDate), Some(p.appointmentTime), Some(p.notes))
  }

  /**
   * A submitted dialog becomes the row the form describes: its fields, the chosen time,
   * the notes or "" when none were written, and status `pending`.
   */
  lemma SubmittedFormBecomesRow(f: FormData, dayOf: string -> Option<int>, id: string)
    requires dayOf(f.date).Some?
    ensures RequestDay(RequestOf(ToPayload(f)), dayOf) == dayOf(f.date)
    ensures NewAppointment(RequestOf(ToPayload(f)), dayOf(f.date).value, id)
         == Appointment(id, f.patientName, f.patientEmail, f.patientPhone, f.serviceId, f.doctorId,
              dayOf(f.date).value, f.time, if Given(f.notes) then f.notes.value else "", Pending)
  {
  }

  /** A form with a blank required field still passes the presence test, but not the completeness test. */
  lemma BlankFieldOnlyFailsCompleteness(f: FormData)
    requires f.patientName == ""
    ensures Present(RequestOf(ToPayload(f)))
    ensures !Complete(RequestOf(ToPayload(f)))
  {
  }
}
