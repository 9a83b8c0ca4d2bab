/**
 * `routes/payment.routes.ts`: behind the authentication middleware, `create-intent` charges
 * the appointment's service price and records a pending payment; `confirm` marks the
 * payments of a succeeded intent completed and the first one's appointment `CONFIRMED`.
 * The payment processor is a parameter: what it answers to a charge request, and the
 * state it reports for an intent.
 */
module PaymentRoutes {
  import opened Wrappers
  import opened Records
  import opened AuthMiddleware

  const PaymentPending: string := "PENDING"
  const PaymentCompleted: string := "COMPLETED"
  const UpperConfirmed: string := "CONFIRMED"
  const Succeeded: string := "succeeded"

  /** A Payment row. `amount` is in whole currency units, like the service price. */
  datatype Payment = Payment(
    appointmentId: string,
    userId: Option<string>,
    amount: nat,
    currency: string,
    status: string,
    processorId: string,
    paymentMethod: Option<string>)

  /** What `paymentIntents.create` is asked for: the amount in minor units, the currency, the metadata. */
  datatype Charge = Charge(amount: nat, currency: string, appointmentId: string, userId: Option<string>)

  /** A created intent: its id and its client secret. */
  datatype Intent = Intent(id: string, clientSecret: Option<string>)

  /** A retrieved intent: its status and its payment method types. */
  datatype IntentState = IntentState(status: string, methodTypes: seq<string>)

  /** `{ clientSecret, amount }`. */
  datatype IntentReply = IntentReply(clientSecret: Option<string>, amount: nat)

  /** The charge for a service price, in minor units (cents). */
  function MinorUnits(price: nat): (cents: nat)
    ensures cents / 100 == price && cents % 100 == 0
  {
    price * 100
  }

  /** `payment_method_types[0]`; an empty list gives `undefined`, which leaves the field as it was. */
  function FirstMethod(types: seq<string>): (m: Option<string>)
    ensures m.Some? <==> types != []
    ensures m.Some? ==> m.value == types[0]
  {
    if types == [] then None else Some(types[0])
  }

  /** `updateMany` on the payments of one intent: status `COMPLETED`, and the method when one is given. */
  function CompleteAll(payments: seq<Payment>, processorId: string, chosen: Option<string>): (r: seq<Payment>)
    ensures |r| == |payments|
    ensures forall i :: 0 <= i < |r| && payments[i].processorId != processorId ==> r[i] == payments[i]
    ensures forall i :: 0 <= i < |r| && payments[i].processorId == processorId ==>
      r[i].status == PaymentCompleted
      && r[i].paymentMethod == (if chosen.Some? then chosen else payments[i].paymentMethod)
      && r[i] == payments[i].(status := r[i].status, paymentMethod := r[i].paymentMethod)
  {
    seq(|payments|, i requires 0 <= i < |payments| =>
      if payments[i].processorId != processorId then payments[i]
      else payments[i].(status := PaymentCompleted,
                        paymentMethod := if chosen.Some? then chosen else payments[i].paymentMethod))
  }

  /** Completing the same intent twice is completing it once. */
  lemma CompleteAllIdempotent(payments: seq<Payment>, processorId: string, chosen: Option<string>)
    ensures CompleteAll(CompleteAll(payments, processorId, chosen), processorId, chosen)
         == CompleteAll(payments, processorId, chosen)
  {
  }

  /** `findFirst` by processor id: the first payment of that intent in table order. */
  function FirstOfIntent(payments: seq<Payment>, processorId: string): (r: Option<Payment>)
    ensures r.None? <==> forall p :: p in payments ==> p.processorId != processorId
    ensures r.Some? ==> r.value in payments && r.value.processorId == processorId
    ensures r.Some? ==>
      exists i :: 0 <= i < |payments| && payments[i] == r.value
               && forall j :: 0 <= j < i ==> payments[j].processorId != processorId
  {
    if payments == [] then None
    else if payments[0].processorId == processorId then Some(payments[0])
    else FirstOfIntent(payments[1..], processorId)
  }

  /** Completing an intent's payments keeps which appointment its first payment belongs to. */
  lemma {:induction false} CompleteAllKeepsFirst(payments: seq<Payment>, processorId: string, chosen: Option<string>)
    ensures FirstOfIntent(CompleteAll(payments, processorId, chosen), processorId).Some?
        <==> FirstOfIntent(payments, processorId).Some?
    ensures FirstOfIntent(payments, processorId).Some? ==>
      FirstOfIntent(CompleteAll(payments, processorId, chosen), processorId).value.appointmentId
        == FirstOfIntent(payments, processorId).value.appointmentId
    decreases |payments|
  {
    if payments != [] {
      var r := CompleteAll(payments, processorId, chosen);
      assert r[1..] == CompleteAll(payments[1..], processorId, chosen);
      CompleteAllKeepsFirst(payments[1..], processorId, chosen);
    }
  }

  /** The two tables `confirm` writes. */
  datatype Tables = Tables(payments: seq<Payment>, appointments: seq<Appointment>)

  /**
   * What a succeeded `confirm` does to them: the intent's payments are completed, then the
   * appointment of the first of them, if there is one, is set to `CONFIRMED`.
   */
  function ConfirmEffect(t: Tables, processorId: string, chosen: Option<string>): (r: Tables)
    ensures r.payments == CompleteAll(t.payments, processorId, chosen)
    ensures |r.appointments| == |t.appointments|
    ensures FirstOfIntent(t.payments, processorId).None? ==> r.appointments == t.appointments
    ensures FirstOfIntent(t.payments, processorId).Some? ==>
      r.appointments == WithStatus(t.appointments, FirstOfIntent(t.payments, processorId).value.appointmentId, UpperConfirmed)
  {
    var payments := CompleteAll(t.payments, processorId, chosen);
    CompleteAllKeepsFirst(t.payments, processorId, chosen);
    match FirstOfIntent(payments, processorId)
    case None => Tables(payments, t.appointments)
    case Some(p) => Tables(payments, WithStatus(t.appointments, p.appointmentId, UpperConfirmed))
  }

  /** Confirming a succeeded intent a second time changes nothing more. */
  lemma ConfirmIdempotent(t: Tables, processorId: string, chosen: Option<string>)
    ensures ConfirmEffect(ConfirmEffect(t, processorId, chosen), processorId, chosen)
         == ConfirmEffect(t, processorId, chosen)
  {
    var once := ConfirmEffect(t, processorId, chosen);
    CompleteAllIdempotent(t.payments, processorId, chosen);
    CompleteAllKeepsFirst(t.payments, processorId, chosen);
    CompleteAllKeepsFirst(once.payments, processorId, chosen);
    match FirstOfIntent(once.payments, processorId)
    case None =>
    case Some(p) =>
      WithStatusIdempotent(t.appointments, p.appointmentId, UpperConfirmed);
  }

  lemma WithStatusIdempotent(rows: seq<Appointment>, id: string, status: string)
    ensures WithStatus(WithStatus(rows, id, status), id, status) == WithStatus(rows, id, status)
  {
  }

  /** `CONFIRMED` is not one of the statuses the status update accepts. */
  lemma ConfirmedSpellingRejected()
    ensures UpperConfirmed !in ValidStatuses
  {
  }

  /** The payments and appointments the router reads and writes. */
  class PaymentDesk {
    const services: seq<Service>
    var appointments: seq<Appointment>
    var payments: seq<Payment>

    constructor (services: seq<Service>, appointments: seq<Appointment>, payments: seq<Payment>)
      ensures this.services == services && this.appointments == appointments && this.payments == payments
    {
      this.services := services;
      this.appointments := appointments;
      this.payments := payments;
    }

    /**
     * `POST /create-intent`. After the token check: a body without `appointmentId` makes the
     * lookup throw (500); 404 for an unknown appointment; the processor is asked to charge
     * the service price in cents; a failed call (or a service that cannot be joined) is a
     * 500; otherwise one PENDING payment in USD is recorded.
     */
    method CreateIntent(header: Option<string>, verify: string -> Option<Claims>, appointmentId: Option<string>,
                        processor: Charge -> Option<Intent>)
      returns (res: Reply<IntentReply>, charge: Option<Charge>)
      modifies this
      ensures appointments == old(appointments)
      ensures Authenticate(header, verify).Refuse? ==>
        res == Error(Authenticate(header, verify).code, Authenticate(header, verify).error)
        && charge.None? && payments == old(payments)
      ensures Authenticate(header, verify).Next? && appointmentId.None? ==>
        res == Error(500, "Failed to create payment intent") && charge.None? && payments == old(payments)
      ensures Authenticate(header, verify).Next? && appointmentId.Some? && !HasId(appointments, appointmentId.value) ==>
        res == Error(404, "Appointment not found") && charge.None? && payments == old(payments)
      ensures (Authenticate(header, verify).Next? && appointmentId.Some? && HasId(appointments, appointmentId.value)
               && FindService(services, FindById(appointments, appointmentId.value).value.serviceId).None?) ==>
        res == Error(500, "Failed to create payment intent") && charge.None? && payments == old(payments)
      ensures (Authenticate(header, verify).Next? && appointmentId.Some? && HasId(appointments, appointmentId.value)
               && FindService(services, FindById(appointments, appointmentId.value).value.serviceId).Some?) ==>
        var id := appointmentId.value;
        var price := FindService(services, FindById(appointments, id).value.serviceId).value.price;
        var userId := Authenticate(header, verify).user.userId;
        charge == Some(Charge(MinorUnits(price), "usd", id, userId))
        && (processor(charge.value).None? ==>
              res == Error(500, "Failed to create payment intent") && payments == old(payments))
        && (processor(charge.value).Some? ==>
              var intent := processor(charge.value).value;
              res == Reply(200, IntentReply(intent.clientSecret, price))
              && payments == old(payments) + [Payment(id, userId, price, "USD", PaymentPending, intent.id, None)])
    {
      var gate := Authenticate(header, verify);
      if gate.Refuse? {
        return Error(gate.code, gate.error), None;
      }
      if appointmentId.None? {
        return Error(500, "Failed to create payment intent"), None;
      }
      var id := appointmentId.value;
      var appointment := FindById(appointments, id);
      if appointment.None? {
        return Error(404, "Appointment not found"), None;
      }
      var service := FindService(services, appointment.value.serviceId);
      if service.None? {
        return Error(500, "Failed to create payment intent"), None;
      }
      var price := service.value.price;
      var userId := gate.user.userId;
      charge := Some(Charge(MinorUnits(price), "usd", id, userId));
      var intent := processor(charge.value);
      if intent.None? {
        return Error(500, "Failed to create payment intent"), charge;
      }
      payments := payments + [Payment(id, userId, price, "USD", PaymentPending, intent.value.id, None)];
      res := Reply(200, IntentReply(intent.value.clientSecret, price));
    }

    /**
     * `POST /confirm`. After the token check: a body without `paymentIntentId` makes the
     * retrieval throw, and a failed retrieval is a 500; any status but `succeeded` is a 400
     * with nothing written; otherwise the tables take `ConfirmEffect`, except that a first
     * payment naming a missing appointment makes the appointment update throw (500) after
     * the payments were completed.
     */
    method Confirm(header: Option<string>, verify: string -> Option<Claims>, processorId: Option<string>,
                   retrieve: string -> Option<IntentState>)
      returns (res: Reply<string>)
      modifies this
      ensures Authenticate(header, verify).Refuse? ==>
        res == Error(Authenticate(header, verify).code, Authenticate(header, verify).error)
        && payments == old(payments) && appointments == old(appointments)
      ensures Authenticate(header, verify).Next? && (processorId.None? || retrieve(processorId.value).None?) ==>
        res == Error(500, "Failed to confirm payment") && payments == old(payments) && appointments == old(appointments)
      ensures (Authenticate(header, verify).Next? && processorId.Some? && retrieve(processorId.value).Some?
               && retrieve(processorId.value).value.status != Succeeded) ==>
        res == Error(400, "Payment not completed") && payments == old(payments) && appointments == old(appointments)
      ensures (Authenticate(header, verify).Next? && processorId.Some? && retrieve(processorId.value).Some?
               && retrieve(processorId.value).value.status == Succeeded) ==>
        var pid := processorId.value;
        var chosen := FirstMethod(retrieve(pid).value.methodTypes);
        var first := FirstOfIntent(old(payments), pid);
        payments == CompleteAll(old(payments), pid, chosen)
        && (first.Some? && !HasId(old(appointments), first.value.appointmentId) ==>
              res == Error(500, "Failed to confirm payment") && appointments == old(appointments))
        && (first.None? || HasId(old(appointments), first.value.appointmentId) ==>
              res == Reply(200, "Payment confirmed successfully")
              && Tables(payments, appointments) == ConfirmEffect(Tables(old(payments), old(appointments)), pid, chosen))
        && (first.Some? && HasId(old(appointments), first.value.appointmentId) ==>
              appointments == WithStatus(old(appointments), first.value.appointmentId, UpperConfirmed))
        && (first.None? ==> appointments == old(appointments))
    {
      var gate := Authenticate(header, verify);
      if gate.Refuse? {
        return Error(gate.code, gate.error);
      }
      if processorId.None? {
        return Error(500, "Failed to confirm payment");
      }
      var pid := processorId.value;
      var state := retrieve(pid);
      if state.None? {
        return Error(500, "Failed to confirm payment");
      }
      if state.value.status != Succeeded {
        return Error(400, "Payment not completed");
      }
      var chosen := FirstMethod(state.value.methodTypes);
      CompleteAllKeepsFirst(payments, pid, chosen);
      payments := CompleteAll(payments, pid, chosen);
      var first := FirstOfIntent(payments, pid);
      if first.Some? {
        if FindById(appointments, first.value.appointmentId).None? {
          return Error(500, "Failed to confirm payment");
        }
        appointments := WithStatus(appointments, first.value.appointmentId, UpperConfirmed);
      }
      res := Reply(200, "Payment confirmed successfully");
    }
  }
}
