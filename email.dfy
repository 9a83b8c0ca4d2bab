/**
 * Notification mail: four templates chosen by what happened to a booking, the address each
 * one goes to, and `sendEmail`, which hands the mail to the transport and turns its answer
 * into a result without ever failing itself.
 */
module EmailService {
  import opened Wrappers
  import opened Text
  import opened Records

  datatype Template = BookingConfirmation | AppointmentConfirmed | AppointmentCancelled | AdminNotification

  /** An appointment as the templates see it: the row with its service and doctor joined in. */
  datatype Booking = Booking(appointment: Appointment, service: Service, doctor: Doctor)

  /** A mail to send: which template, for which booking. */
  datatype Notice = Notice(template: Template, booking: Booking)

  /** The part of a template's content the model keeps: its subject and the notes block. */
  datatype Content = Content(subject: string, notesBlock: string)

  /** What `sendMail` is given. */
  datatype MailOptions = MailOptions(from: string, to: string, content: Content)

  /** The transport's answer: the mail was accepted with an id, or it failed with a message. */
  datatype TransportAnswer = Accepted(messageId: string) | Failed(message: string)

  /** `{ success, messageId }` or `{ success: false, error }`. */
  datatype SendResult = SendResult(success: bool, messageId: Option<string>, error: Option<string>)

  const AdminAddress: string := "admin@smilecare.com"
  const Sender: string := "\"SmileCare Dental Clinic\" <noreply@smilecare.com>"

  /** The fixed subject line of each template. */
  function Subject(t: Template): string
  {
    match t
    case BookingConfirmation => "✅ Booking Confirmation - SmileCare Dental Clinic"
    case AppointmentConfirmed => "✅ Appointment Confirmed - SmileCare Dental Clinic"
    case AppointmentCancelled => "❌ Appointment Cancelled - SmileCare Dental Clinic"
    case AdminNotification => "🔔 New Appointment Booking - SmileCare Admin"
  }

  /** `${appointment.notes ? `...Notes:...${notes}...` : ''}` in the admin template. */
  function NotesBlock(notes: string): (r: string)
    ensures r == "" <==> notes == ""
    ensures notes != "" ==> Contains(r, notes)
  {
    if notes == "" then ""
    else
      var open := "<div style=\"margin-top: 15px;\"><strong>Notes:</strong><br/>";
      ContainsSelf(notes);
      ContainsWithin(open, notes, "</div>", notes);
      open + notes + "</div>"
  }

  /** Only the admin template shows the notes. */
  function ContentOf(t: Template, b: Booking): (c: Content)
    ensures c.notesBlock != "" <==> t == AdminNotification && b.appointment.notes != ""
  {
    Content(Subject(t), if t == AdminNotification then NotesBlock(b.appointment.notes) else "")
  }

  /** The address of each `send*` function: the admin mailbox, or the patient. */
  function Recipient(t: Template, b: Booking): (to: string)
  {
    if t == AdminNotification then AdminAddress else b.appointment.patientEmail
  }

  /** The mail options a notice becomes. */
  function Envelope(n: Notice): (m: MailOptions)
    ensures m.from == Sender
    ensures m.content.subject == Subject(n.template)
    ensures n.template == AdminNotification ==> m.to == AdminAddress
    ensures n.template != AdminNotification ==> m.to == n.booking.appointment.patientEmail
  {
    MailOptions(Sender, Recipient(n.template, n.booking), ContentOf(n.template, n.booking))
  }

  /** `sendEmail`: never throws; the result reports what the transport answered. */
  function SendEmail(to: string, content: Content, transport: MailOptions -> TransportAnswer): (r: SendResult)
    ensures r.success <==> transport(MailOptions(Sender, to, content)).Accepted?
    ensures r.success ==> r.messageId == Some(transport(MailOptions(Sender, to, content)).messageId) && r.error.None?
    ensures !r.success ==> r.error == Some(transport(MailOptions(Sender, to, content)).message) && r.messageId.None?
  {
    match transport(MailOptions(Sender, to, content))
    case Accepted(id) => SendResult(true, Some(id), None)
    case Failed(message) => SendResult(false, None, Some(message))
  }

  /** `sendBookingConfirmation`, `sendAppointmentConfirmed`, `sendAppointmentCancelled`, `sendAdminNotification`. */
  function Send(n: Notice, transport: MailOptions -> TransportAnswer): (r: SendResult)
    ensures r.success <==> transport(Envelope(n)).Accepted?
  {
    SendEmail(Recipient(n.template, n.booking), ContentOf(n.template, n.booking), transport)
  }

  /** The admin notification goes to the same mailbox whoever booked. */
  lemma AdminMailboxFixed(b1: Booking, b2: Booking)
    ensures Envelope(Notice(AdminNotification, b1)).to == Envelope(Notice(AdminNotification, b2)).to
  {
  }
}
