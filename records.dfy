/**
 * The rows of the clinic's record store (appointments, services, doctors) and the
 * queries over the appointment table that several handlers share.
 */
module Records {
  import opened Wrappers
  import opened Seqs

  /**
   * An appointment row. `date` is the stored date as a number: whatever `dayOf` reads from
   * the date text, so two date texts name the same stored date exactly when `dayOf` maps
   * them to the same value. `time` is a slot label such as "09:30", `status` free text.
   */
  datatype Appointment = Appointment(
    id: string,
    patientName: string,
    patientEmail: string,
    patientPhone: string,
    serviceId: string,
    doctorId: string,
    date: int,
    time: string,
    notes: string,
    status: string)

  /** A service row; `price` is in whole dollars. */
  datatype Service = Service(
    id: string,
    name: string,
    description: string,
    price: nat,
    duration: nat,
    isActive: bool)

  /** A doctor row; `rating` is in tenths (49 stands for 4.9). */
  datatype Doctor = Doctor(
    id: string,
    firstName: string,
    lastName: string,
    specialization: string,
    bio: string,
    yearsOfExperience: nat,
    rating: nat)

  const Pending: string := "pending"
  const Confirmed: string := "confirmed"
  const Cancelled: string := "cancelled"
  const Completed: string := "completed"

  /** The statuses the status-update handlers accept, all lower-case. */
  const ValidStatuses: seq<string> := [Pending, Confirmed, Cancelled, Completed]

  predicate HasId(rows: seq<Appointment>, id: string)
  {
    exists i :: 0 <= i < |rows| && rows[i].id == id
  }

  predicate UniqueIds(rows: seq<Appointment>)
  {
    forall i, j :: 0 <= i < j < |rows| ==> rows[i].id != rows[j].id
  }

  /** `findUnique({ where: { id } })`. */
  function FindById(rows: seq<Appointment>, id: string): (r: Option<Appointment>)
    ensures r.Some? <==> HasId(rows, id)
    ensures r.Some? ==> r.value in rows && r.value.id == id
  {
    if rows == [] then None
    else if rows[0].id == id then Some(rows[0])
    else
      var r := FindById(rows[1..], id);
      assert HasId(rows, id) ==> HasId(rows[1..], id) by {
        if HasId(rows, id) {
          var i :| 0 <= i < |rows| && rows[i].id == id;
          assert i > 0 && rows[1..][i - 1].id == id;
        }
      }
      assert HasId(rows[1..], id) ==> HasId(rows, id) by {
        if HasId(rows[1..], id) {
          var i :| 0 <= i < |rows[1..]| && rows[1..][i].id == id;
          assert rows[i + 1].id == id;
        }
      }
      r
  }

  /** `service.findUnique({ where: { id } })`. */
  function FindService(services: seq<Service>, id: string): (r: Option<Service>)
    ensures r.None? <==> forall s :: s in services ==> s.id != id
    ensures r.Some? ==> r.value in services && r.value.id == id
  {
    if services == [] then None
    else if services[0].id == id then Some(services[0])
    else FindService(services[1..], id)
  }

  /** `doctor.findUnique({ where: { id } })`. */
  function FindDoctor(doctors: seq<Doctor>, id: string): (r: Option<Doctor>)
    ensures r.None? <==> forall d :: d in doctors ==> d.id != id
    ensures r.Some? ==> r.value in doctors && r.value.id == id
  {
    if doctors == [] then None
    else if doctors[0].id == id then Some(doctors[0])
    else FindDoctor(doctors[1..], id)
  }

  /** The store's foreign keys: every row names an existing service and doctor. */
  predicate Linked(rows: seq<Appointment>, services: seq<Service>, doctors: seq<Doctor>)
  {
    forall a :: a in rows ==> FindService(services, a.serviceId).Some? && FindDoctor(doctors, a.doctorId).Some?
  }

  /** Whether two rows name the same doctor, day and time label. */
  predicate SameSlot(a: Appointment, b: Appointment)
  {
    a.doctorId == b.doctorId && a.date == b.date && a.time == b.time
  }

  /** A row occupies its slot unless its status is literally `released` (the handler's cancelled spelling). */
  predicate Occupies(a: Appointment, released: string)
  {
    a.status != released
  }

  /** Some row occupying (doctorId, date, time), counting every status except `released`. */
  predicate SlotTaken(rows: seq<Appointment>, doctorId: string, date: int, time: string, released: string)
  {
    exists i :: 0 <= i < |rows| && Occupies(rows[i], released)
      && rows[i].doctorId == doctorId && rows[i].date == date && rows[i].time == time
  }

  /** The slot invariant: no two rows that are not `cancelled` share a slot. */
  predicate NoDoubleBooking(rows: seq<Appointment>)
  {
    forall i, j :: 0 <= i < j < |rows| && Occupies(rows[i], Cancelled) && Occupies(rows[j], Cancelled)
      ==> !SameSlot(rows[i], rows[j])
  }

  /**
   * The times of the rows for (doctorId, date) whose status is not `released`, in table order
   * (`findMany` with `status: { not: released }`, then `map(apt => apt.appointmentTime)`).
   */
  function BookedTimes(rows: seq<Appointment>, doctorId: string, date: int, released: string): (r: seq<string>)
    ensures forall t :: t in r <==> SlotTaken(rows, doctorId, date, t, released)
    ensures |r| <= |rows|
  {
    if rows == [] then []
    else
      var a := rows[0];
      var rest := BookedTimes(rows[1..], doctorId, date, released);
      assert forall t :: SlotTaken(rows, doctorId, date, t, released) <==>
        (Occupies(a, released) && a.doctorId == doctorId && a.date == date && a.time == t)
        || SlotTaken(rows[1..], doctorId, date, t, released) by {
        forall t ensures SlotTaken(rows, doctorId, date, t, released) ==>
          (Occupies(a, released) && a.doctorId == doctorId && a.date == date && a.time == t)
          || SlotTaken(rows[1..], doctorId, date, t, released) {
          if SlotTaken(rows, doctorId, date, t, released) {
            var i :| 0 <= i < |rows| && Occupies(rows[i], released)
              && rows[i].doctorId == doctorId && rows[i].date == date && rows[i].time == t;
            if i > 0 { assert rows[1..][i - 1] == rows[i]; }
          }
        }
        forall t | SlotTaken(rows[1..], doctorId, date, t, released)
          ensures SlotTaken(rows, doctorId, date, t, released) {
          var i :| 0 <= i < |rows[1..]| && Occupies(rows[1..][i], released)
            && rows[1..][i].doctorId == doctorId && rows[1..][i].date == date && rows[1..][i].time == t;
          assert rows[i + 1] == rows[1..][i];
        }
      }
      if Occupies(a, released) && a.doctorId == doctorId && a.date == date then [a.time] + rest else rest
  }

  /** `update({ where: { id }, data: { status } })`: the row with that id takes the new status. */
  function WithStatus(rows: seq<Appointment>, id: string, status: string): (r: seq<Appointment>)
    ensures |r| == |rows|
    ensures forall i :: 0 <= i < |rows| ==>
      r[i] == if rows[i].id == id then rows[i].(status := status) else rows[i]
  {
    if rows == [] then []
    else [if rows[0].id == id then rows[0].(status := status) else rows[0]] + WithStatus(rows[1..], id, status)
  }

  /** `delete({ where: { id } })`: the table without the row with that id. */
  function WithoutId(rows: seq<Appointment>, id: string): (r: seq<Appointment>)
    ensures IsSubsequence(r, rows)
    ensures forall a :: a in r <==> a in rows && a.id != id
    ensures HasId(rows, id) ==> |r| < |rows|
  {
    FilterIsSubsequence(rows, IdIsNot(id));
    FilterDrops(rows, IdIsNot(id));
    Filter(rows, IdIsNot(id))
  }

  function IdIsNot(id: string): Appointment -> bool
  {
    (a: Appointment) => a.id != id
  }


  /** The store's `orderBy: { appointmentDate: 'desc' }` comparison. */
  function LaterOrSameDay(): (Appointment, Appointment) -> bool
  {
    (a: Appointment, b: Appointment) => a.date >= b.date
  }

  /**
   * The whole table newest day first. Rows on the same day keep table order; the store
   * itself leaves their order unspecified.
   */
  function NewestFirst(rows: seq<Appointment>): (r: seq<Appointment>)
    ensures multiset(r) == multiset(rows)
    ensures forall a :: a in r <==> a in rows
    ensures forall i, j :: 0 <= i < j < |r| ==> r[i].date >= r[j].date
  {
    SortBySorted(rows, LaterOrSameDay());
    SameMembers(SortBy(rows, LaterOrSameDay()), rows);
    SortBy(rows, LaterOrSameDay())
  }

  /**
   * The body of a booking request. `None` is a field the client left out; the date is the
   * text as sent, which the handlers read with `new Date` (see `RequestDay`).
   */
  datatype BookingRequest = BookingRequest(
    patientName: Option<string>,
    patientEmail: Option<string>,
    patientPhone: Option<string>,
    serviceId: Option<string>,
    doctorId: Option<string>,
    appointmentDate: Option<string>,
    appointmentTime: Option<string>,
    notes: Option<string>)

  /** A text field that is present and not empty (JavaScript truthiness). */
  predicate Given(p: Option<string>)
  {
    p.Some? && p.value != ""
  }

  /** Every required field is present, possibly empty. */
  predicate Present(req: BookingRequest)
  {
    req.patientName.Some? && req.patientEmail.Some? && req.patientPhone.Some? && req.serviceId.Some?
    && req.doctorId.Some? && req.appointmentDate.Some? && req.appointmentTime.Some?
  }

  /** Every required field is present and not empty. */
  predicate Complete(req: BookingRequest)
  {
    Given(req.patientName) && Given(req.patientEmail) && Given(req.patientPhone) && Given(req.serviceId)
    && Given(req.doctorId) && Given(req.appointmentDate) && Given(req.appointmentTime)
  }

  /** `notes || ''`. */
  function NotesOrEmpty(notes: Option<string>): (r: string)
    ensures notes.Some? ==> r == notes.value
    ensures notes.None? ==> r == ""
  {
    if notes.Some? then notes.value else ""
  }

  /**
   * `new Date(appointmentDate)` as the store receives it: the day the date text names, or
   * `None` when the text is missing or `dayOf` (the calendar) cannot read it, in which
   * case the store refuses the query.
   */
  function RequestDay(req: BookingRequest, dayOf: string -> Option<int>): (d: Option<int>)
    ensures d.Some? <==> req.appointmentDate.Some? && dayOf(req.appointmentDate.value).Some?
  {
    if req.appointmentDate.None? then None else dayOf(req.appointmentDate.value)
  }

  /** The row a create inserts on `day`: the request's fields, the notes or "", status `pending`. */
  function NewAppointment(req: BookingRequest, day: int, id: string): (a: Appointment)
    requires Present(req)
    ensures a.id == id && a.status == Pending && a.notes == NotesOrEmpty(req.notes)
    ensures a.patientName == req.patientName.value && a.patientEmail == req.patientEmail.value
    ensures a.patientPhone == req.patientPhone.value && a.serviceId == req.serviceId.value
    ensures a.doctorId == req.doctorId.value && a.date == day
    ensures a.time == req.appointmentTime.value
  {
    Appointment(id, req.patientName.value, req.patientEmail.value, req.patientPhone.value, req.serviceId.value,
      req.doctorId.value, day, req.appointmentTime.value, NotesOrEmpty(req.notes), Pending)
  }

  /** Every field the store requires of a new row refers to an existing service and doctor. */
  predicate References(req: BookingRequest, services: seq<Service>, doctors: seq<Doctor>)
    requires Present(req)
  {
    (exists s :: s in services && s.id == req.serviceId.value) && (exists d :: d in doctors && d.id == req.doctorId.value)
  }

  /** Appending a row whose id is new keeps the ids unique. */
  lemma AppendFreshId(rows: seq<Appointment>, a: Appointment)
    requires UniqueIds(rows) && !HasId(rows, a.id)
    ensures UniqueIds(rows + [a])
  {
    var r := rows + [a];
    forall i, j | 0 <= i < j < |r| ensures r[i].id != r[j].id {
      assert r[i] == rows[i];
      if j < |rows| {
        assert r[j] == rows[j];
      }
    }
  }

  /** Changing a status keeps the ids unique. */
  lemma WithStatusKeepsIds(rows: seq<Appointment>, id: string, status: string)
    requires UniqueIds(rows)
    ensures UniqueIds(WithStatus(rows, id, status))
  {
  }
}
