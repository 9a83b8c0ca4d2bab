/**
 * The appointments router (`routes/appointments.ts`): create without any slot check, status
 * changes that pick a notification mail, delete, and the three read-only queries.
 */
module AppointmentsRoute {
  import opened Wrappers
  import opened Seqs
  import opened Records
  import opened EmailService
  import AuthMiddleware
  import Server

  /** A row with its service and doctor, as `include: { service: true, doctor: true }` returns it. */
  function Joined(a: Appointment, services: seq<Service>, doctors: seq<Doctor>): (b: Booking)
    requires FindService(services, a.serviceId).Some? && FindDoctor(doctors, a.doctorId).Some?
    ensures b.appointment == a && b.service in services && b.doctor in doctors
    ensures b.service.id == a.serviceId && b.doctor.id == a.doctorId
  {
    Booking(a, FindService(services, a.serviceId).value, FindDoctor(doctors, a.doctorId).value)
  }

  /** The mail a status change sends: one for `confirmed`, one for `cancelled`, none otherwise. */
  function StatusNotices(status: string, b: Booking): (r: seq<Notice>)
    ensures r != [] <==> status == Confirmed || status == Cancelled
    ensures |r| <= 1
    ensures forall n :: n in r ==> n.booking == b && Recipient(n.template, b) == b.appointment.patientEmail
    ensures status == Confirmed ==> r == [Notice(AppointmentConfirmed, b)]
    ensures status == Cancelled ==> r == [Notice(AppointmentCancelled, b)]
  {
    if status == Confirmed then [Notice(AppointmentConfirmed, b)]
    else if status == Cancelled then [Notice(AppointmentCancelled, b)]
    else []
  }

  /** `GET /:id`: the row, or 404. */
  function GetById(rows: seq<Appointment>, id: string): (r: Reply<Appointment>)
    ensures r.Reply? <==> HasId(rows, id)
    ensures r.Reply? ==> r.code == 200 && r.body in rows && r.body.id == id
    ensures r.Error? ==> r == Error(404, "Appointment not found")
  {
    match FindById(rows, id)
    case None => Error(404, "Appointment not found")
    case Some(a) => Reply(200, a)
  }

  function EmailIs(email: string): Appointment -> bool
  {
    (a: Appointment) => a.patientEmail == email
  }

  /**
   * `GET /my/appointments` as written: 401 without a user id; otherwise the rows whose patient
   * e-mail is the token's, newest day first. A payload without `email` leaves the filter
   * undefined, and the store then applies no filter at all.
   */
  function MyAppointments(rows: seq<Appointment>, user: AuthMiddleware.Claims): (r: Reply<seq<Appointment>>)
    ensures r.Error? <==> !Given(user.userId)
    ensures r.Error? ==> r == Error(401, "Unauthorized")
    ensures r.Reply? ==> r.code == 200 && multiset(r.body) <= multiset(rows)
    ensures r.Reply? ==> forall i, j :: 0 <= i < j < |r.body| ==> r.body[i].date >= r.body[j].date
    ensures r.Reply? ==> forall a :: a in r.body <==> a in rows && (user.email.None? || a.patientEmail == user.email.value)
  {
    if !Given(user.userId) then Error(401, "Unauthorized")
    else if user.email.None? then Reply(200, NewestFirst(rows))
    else
      var mine := Filter(rows, EmailIs(user.email.value));
      FilterIsSubsequence(rows, EmailIs(user.email.value));
      SubsequenceMultiset(mine, rows);
      Reply(200, NewestFirst(mine))
  }

  /** A subsequence takes no element more often than the sequence has it. */
  lemma {:induction false} SubsequenceMultiset(sub: seq<Appointment>, s: seq<Appointment>)
    requires IsSubsequence(sub, s)
    ensures multiset(sub) <= multiset(s)
    decreases |s|
  {
    if sub != [] {
      assert s == [s[0]] + s[1..];
      if sub[0] == s[0] && IsSubsequence(sub[1..], s[1..]) {
        SubsequenceMultiset(sub[1..], s[1..]);
        assert sub == [sub[0]] + sub[1..];
      } else {
        SubsequenceMultiset(sub, s[1..]);
      }
    }
  }

  /** A signed-in user whose token carries no e-mail is shown every patient's appointments. */
  lemma MissingEmailListsEveryone(rows: seq<Appointment>, userId: string)
    requires userId != ""
    ensures MyAppointments(rows, AuthMiddleware.Claims(Some(userId), None, None)) == Reply(200, NewestFirst(rows))
  {
  }

  /** The intended query: only the user's own rows, and none when the token names no e-mail. */
  function OwnAppointments(rows: seq<Appointment>, user: AuthMiddleware.Claims): (r: Reply<seq<Appointment>>)
    ensures r.Error? <==> !Given(user.userId)
    ensures r.Error? ==> r == Error(401, "Unauthorized")
    ensures r.Reply? ==> forall a :: a in r.body <==> a in rows && user.email.Some? && a.patientEmail == user.email.value
    ensures r.Reply? && user.email.Some? ==> r == MyAppointments(rows, user)
  {
    if !Given(user.userId) then Error(401, "Unauthorized")
    else if user.email.None? then Reply(200, [])
    else MyAppointments(rows, user)
  }

  /** The appointment table behind the router, with the services and doctors it refers to. */
  class AppointmentStore {
    const services: seq<Service>
    const doctors: seq<Doctor>
    var rows: seq<Appointment>

    /** Ids are unique and every row names an existing service and doctor. */
    ghost predicate Valid()
      reads this
    {
      UniqueIds(rows) && Linked(rows, services, doctors)
    }

    constructor (services: seq<Service>, doctors: seq<Doctor>, rows: seq<Appointment>)
      requires UniqueIds(rows) && Linked(rows, services, doctors)
      ensures Valid()
      ensures this.services == services && this.doctors == doctors && this.rows == rows
    {
      this.services := services;
      this.doctors := doctors;
      this.rows := rows;
    }

    /**
     * `POST /`. The validators' results are never read, so nothing is rejected before the
     * insert: the store itself refuses a missing field, a date `dayOf` cannot read, an
     * unknown service or doctor, and a used id (500). Empty strings are stored as given and
     * no slot is checked. On success the booking confirmation and then the admin notification are sent; their
     * results are not read, so they never change the reply or the table.
     */
    method Create(req: BookingRequest, dayOf: string -> Option<int>, newId: string)
      returns (res: Reply<Appointment>, sent: seq<Notice>)
      requires Valid()
      modifies this
      ensures Valid()
      ensures !Present(req) || RequestDay(req, dayOf).None? || !References(req, services, doctors)
              || HasId(old(rows), newId) ==>
        res == Error(500, "Failed to create appointment") && sent == [] && rows == old(rows)
      ensures Present(req) && RequestDay(req, dayOf).Some? && References(req, services, doctors)
              && !HasId(old(rows), newId) ==>
        var a := NewAppointment(req, RequestDay(req, dayOf).value, newId);
        res == Reply(201, a) && rows == old(rows) + [a]
        && sent == [Notice(BookingConfirmation, Joined(a, services, doctors)), Notice(AdminNotification, Joined(a, services, doctors))]
    {
      var day := RequestDay(req, dayOf);
      if !Present(req) || day.None? {
        return Error(500, "Failed to create appointment"), [];
      }
      var service := FindService(services, req.serviceId.value);
      var doctor := FindDoctor(doctors, req.doctorId.value);
      if service.None? || doctor.None? || FindById(rows, newId).Some? {
        return Error(500, "Failed to create appointment"), [];
      }
      var a := NewAppointment(req, day.value, newId);
      AppendFreshId(rows, a);
      rows := rows + [a];
      var b := Booking(a, service.value, doctor.value);
      res := Reply(201, a);
      sent := [Notice(BookingConfirmation, b), Notice(AdminNotification, b)];
    }

    /**
     * `PATCH /:id`. 400 "Status is required" for a missing or empty status, 400 "Invalid
     * status" outside the four lower-case values, 500 for an unknown id; otherwise only that
     * row's status changes and the confirmed or cancelled mail goes out.
     */
    method UpdateStatus(id: string, status: Option<string>) returns (res: Reply<Appointment>, sent: seq<Notice>)
      requires Valid()
      modifies this
      ensures Valid()
      ensures !Given(status) ==> res == Error(400, "Status is required") && sent == [] && rows == old(rows)
      ensures Given(status) && status.value !in ValidStatuses ==>
        res == Error(400, "Invalid status") && sent == [] && rows == old(rows)
      ensures Given(status) && status.value in ValidStatuses && !HasId(old(rows), id) ==>
        res == Error(500, "Failed to update appointment") && sent == [] && rows == old(rows)
      ensures Given(status) && status.value in ValidStatuses && HasId(old(rows), id) ==>
        var a := FindById(old(rows), id).value.(status := status.value);
        rows == WithStatus(old(rows), id, status.value) && res == Reply(200, a)
        && sent == StatusNotices(status.value, Joined(a, services, doctors))
    {
      if !Given(status) {
        return Error(400, "Status is required"), [];
      }
      if status.value !in ValidStatuses {
        return Error(400, "Invalid status"), [];
      }
      var found := FindById(rows, id);
      if found.None? {
        return Error(500, "Failed to update appointment"), [];
      }
      var a := found.value.(status := status.value);
      WithStatusKeepsIds(rows, id, status.value);
      WithStatusKeepsLinks(rows, id, status.value, services, doctors);
      rows := WithStatus(rows, id, status.value);
      res := Reply(200, a);
      sent := StatusNotices(status.value, Joined(a, services, doctors));
    }

    /** `DELETE /:id`: removes that row; an unknown id is a 500. */
    method Delete(id: string) returns (res: Reply<string>)
      requires Valid()
      modifies this
      ensures Valid()
      ensures !HasId(old(rows), id) ==> res == Error(500, "Failed to delete appointment") && rows == old(rows)
      ensures HasId(old(rows), id) ==>
        res == Reply(200, "Appointment deleted successfully") && rows == WithoutId(old(rows), id)
    {
      if FindById(rows, id).None? {
        return Error(500, "Failed to delete appointment");
      }
      Server.SubsequenceUnique(WithoutId(rows, id), rows);
      rows := WithoutId(rows, id);
      return Reply(200, "Appointment deleted successfully");
    }
  }

  /** A status change keeps every row's service and doctor. */
  lemma WithStatusKeepsLinks(rows: seq<Appointment>, id: string, status: string, services: seq<Service>, doctors: seq<Doctor>)
    requires Linked(rows, services, doctors)
    ensures Linked(WithStatus(rows, id, status), services, doctors)
  {
    var r := WithStatus(rows, id, status);
    forall a | a in r ensures FindService(services, a.serviceId).Some? && FindDoctor(doctors, a.doctorId).Some? {
      var i :| 0 <= i < |r| && r[i] == a;
      assert rows[i] in rows;
    }
  }
}
