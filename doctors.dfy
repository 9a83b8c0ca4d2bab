/**
 * The availability handler of `routes/doctors.ts`: 400 without a date, 404 for an unknown
 * doctor, then fifteen half-hour candidates built by a loop, minus the times held by that
 * doctor's bookings on that day whose status is not `cancelled`.
 */
module DoctorsFragment {
  import opened Wrappers
  import opened Seqs
  import opened Text
  import opened Records
  import opened SlotLabels

  /** The `for (hour = 9; hour <= 16; hour++)` loop: `HH:00` for each hour, `HH:30` below 16. */
  method CandidateSlots() returns (slots: seq<string>)
    ensures slots == HalfHourLabels(15)
  {
    slots := [];
    var hour := 9;
    while hour <= 16
      invariant 9 <= hour <= 17
      invariant slots == HalfHourLabels(if hour <= 16 then 2 * (hour - 9) else 15)
    {
      var hh := PadStart2(NatText(hour));
      PadStartIsPad2(hour);
      OnTheHour(hour);
      slots := slots + [hh + ":00"];
      if hour < 16 {
        OnTheHalfHour(hour);
        slots := slots + [hh + ":30"];
      }
      hour := hour + 1;
    }
  }

  /** Appending `HH:00` extends the run of labels by the next one. */
  lemma OnTheHour(hour: nat)
    requires 9 <= hour <= 16
    ensures HalfHourLabels(2 * (hour - 9)) + [Pad2(hour) + ":00"] == HalfHourLabels(2 * (hour - 9) + 1)
  {
    assert Pad2(0) == "00";
    assert Label(hour, 0) == Pad2(hour) + ":00";
  }

  /** Appending `HH:30` after `HH:00` extends it by the next one again. */
  lemma OnTheHalfHour(hour: nat)
    requires 9 <= hour < 16
    ensures HalfHourLabels(2 * (hour - 9) + 1) + [Pad2(hour) + ":30"] == HalfHourLabels(2 * (hour - 9) + 2)
  {
    assert Pad2(30) == "30";
    assert Label(hour, 30) == Pad2(hour) + ":30";
  }

  /** The fifteen candidates run from 09:00 to 16:00; 16:30 and 17:00 are not among them. */
  lemma CandidatesSpan()
    ensures |HalfHourLabels(15)| == 15
    ensures StrictlyAscending(HalfHourLabels(15)) && OnHalfHours(HalfHourLabels(15))
    ensures HalfHourLabels(15)[0] == "09:00" && HalfHourLabels(15)[14] == "16:00"
    ensures "16:30" !in HalfHourLabels(15) && "17:00" !in HalfHourLabels(15)
  {
    HalfHourLabelsAscending(15);
    HalfHourLabelsTimes(15);
    assert Pad2(9) == "09" && Pad2(0) == "00" && Pad2(16) == "16";
    assert Clock("16:30") == Some(990) && Clock("17:00") == Some(1020);
  }

  /**
   * `GET /:id/availability`. The doctor lookup comes before the bookings query; `dayOf`
   * stands for `new Date(date)`, and a day it cannot read makes the query throw (500).
   */
  method Availability(rows: seq<Appointment>, doctors: seq<Doctor>, id: string, date: Option<string>,
                      dayOf: string -> Option<int>)
    returns (res: Reply<seq<string>>)
    ensures !Given(date) ==> res == Error(400, "Date is required")
    ensures Given(date) && FindDoctor(doctors, id).None? ==> res == Error(404, "Doctor not found")
    ensures Given(date) && FindDoctor(doctors, id).Some? && dayOf(date.value).None? ==>
      res == Error(500, "Failed to fetch availability")
    ensures Given(date) && FindDoctor(doctors, id).Some? && dayOf(date.value).Some? ==>
      res.Reply? && res.code == 200 && IsSubsequence(res.body, HalfHourLabels(15))
      && forall t :: t in res.body <==> t in HalfHourLabels(15) && !SlotTaken(rows, id, dayOf(date.value).value, t, Cancelled)
  {
    if !Given(date) {
      return Error(400, "Date is required");
    }
    if FindDoctor(doctors, id).None? {
      return Error(404, "Doctor not found");
    }
    var day := dayOf(date.value);
    if day.None? {
      return Error(500, "Failed to fetch availability");
    }
    var booked := BookedTimes(rows, id, day.value, Cancelled);
    var candidates := CandidateSlots();
    return Reply(200, RemoveBooked(candidates, booked));
  }
}
