# SmileCare dental clinic: the appointment core in Dafny

This project models the booking logic of the SmileCare dental clinic's web application and proves properties of it. The application is an Express and Prisma backend with a Next.js admin frontend. The model covers:

- the appointment table, keyed by id;
- the slot lists that each handler offers, and the removal of booked slots from them;
- booking creation, with and without a slot-conflict check;
- status updates and hard deletes;
- the rules around these: payment confirmation, the chat-history window, bearer-token extraction and role gating, notification routing, the keyword chatbot, and the admin pages' filters, counts and aggregates.

Each source file is modelled as its own module, because the files disagree with each other:

- `backend/src/server.ts` is the server that runs, and it mounts none of the `routes/*.ts` routers.
- The four slot generators produce 17, 15, 9 and 16 labels.
- One create handler checks for a conflicting booking and the other does not.
- Two routers write upper-case status strings that the status update refuses.

The module `Divergences` proves these disagreements.

Tables are sequences of records. A handler that changes a table is a method of a class that holds the table: `Server.AppointmentTable`, `AppointmentsRoute.AppointmentStore`, `PaymentRoutes.PaymentDesk` and `ChatController.ChatLog`. Each such method's `ensures` states the reply and the whole new state for every branch. The read-only queries are functions. Loops in the source are `while` loops with invariants:

- the chatbot's `forEach` accumulation;
- the slot loop in `routes/doctors.ts`;
- the dashboard's seven-day and revenue loops.

Each of these loops is proved equal to a specification function, and the properties of that function are proved as lemmas.

Foreign calls and inputs the model cannot see are parameters:

- **Calendar:** `dayOf` reads a date text as the number the store compares (the `Date` that `new Date` gives). It fails where `new Date` gives an Invalid Date, and the store then refuses the query, so the handler answers 500.
- **Token verifier:** `verify` plays the part of `jwt.verify`.
- **Payment processor:** `processor` and `retrieve` play the part of Stripe.
- **Language model:** `model` plays the part of OpenAI.
- **Mail transport:** `transport`.
- **Dashboard clock:** `today`, `dayKey`, `dayName` and `inThisMonth`.
- **New-row id:** the id the store generates for a new row is an argument of the create methods.
- **Fixed texts:** the chatbot's long reply texts are gathered in a `Script` value. The bucket logic is proved for any script, and `SmileCare()` is the server's own.

Stored appointment dates in the backend are numbers: whatever `dayOf` reads from the date text, so two texts match exactly when `dayOf` maps them to the same value. Request dates are the text the client sent, read through `dayOf` by each handler. The admin pages receive ISO 8601 text.

## Model

| member | source | states |
|---|---|---|
| Server.AllSlotsTimes | backend/src/server.ts:129-137 | the k-th of the 17 candidate labels reads back as 09:00 plus k half hours |
| Server.AllSlotsAscending | backend/src/server.ts:129-137 | the candidates are strictly ascending on the half hour, from "09:00" to "17:00" |
| Server.AvailableSlots | backend/src/server.ts:125-156 | with the doctor or date missing or empty, all 17 labels; 500 when the date text is unreadable; otherwise an order-keeping subsequence of the 17 holding exactly the labels no non-cancelled booking of that doctor and day holds |
| Server.CancelledBookingFreesSlot | backend/src/server.ts:139-148 | adding a cancelled booking never changes the reply, for any date text |
| Server.CancelledRowBooksNothing | backend/src/server.ts:139-146 | a cancelled row adds nothing to the booked times that are removed |
| Server.ActiveServices | backend/src/server.ts:99-103 | the services list is the active services, in table order |
| Server.FindSlotHolder | backend/src/server.ts:264-272 | no holder exactly when no non-cancelled row holds the slot; otherwise the first such row |
| Server.InsertIntoFreeSlot | backend/src/server.ts:264-294 | inserting only into a free slot keeps every slot held by at most one active booking |
| Server.ReopeningCanDoubleBook | backend/src/server.ts:315-331 | a status update back to `pending` can leave two active bookings in one slot |
| Server.DeleteRemovesOne | backend/src/server.ts:342-351 | deleting an existing id removes exactly one row and keeps the ids unique |
| Server.SubsequenceUnique | backend/src/server.ts:342-351 | a table with some rows removed keeps unique ids |
| Server.AppointmentTable.Create | backend/src/server.ts:245-311 | 400 for a missing or empty field; 500 for a date text `dayOf` cannot read; 400 for a taken slot; 500 for a bad reference or id; otherwise 201 and exactly the new pending row, on the day the text names, appended; ids stay unique |
| Server.AppointmentTable.UpdateStatus | backend/src/server.ts:315-339 | 400 for a status outside the four; 500 for an unknown id; otherwise only that row's status changes |
| Server.AppointmentTable.Delete | backend/src/server.ts:342-351 | 500 for an unknown id with no change; otherwise the table without that row |
| Records.BookedTimes | backend/src/server.ts:139-146 | a time is booked exactly when some row of that doctor and day, not released, holds it |
| Records.NewAppointment | backend/src/server.ts:278-294 | the new row echoes the request on the given day, has status `pending` and notes defaulting to "" |
| Records.WithStatus | backend/src/server.ts:324-327 | same length; the rows with that id get the status, and every other row is unchanged |
| Records.WithoutId | backend/src/server.ts:344-346 | an order-keeping subsequence holding exactly the rows with another id; shorter when the id exists |
| Records.NewestFirst | backend/src/routes/appointments.ts:115-123 | a permutation of the rows, ordered by date descending |
| Records.AppendFreshId | backend/src/server.ts:278-294 | appending a row with a new id keeps ids unique |
| ServerChatbot.FirstBucketIsFirstMentioned | backend/src/server.ts:366-516 | the chosen bucket is the fallback exactly when no bucket's keyword occurs; otherwise it is the first bucket mentioned, in the handler's order |
| ServerChatbot.TopicOfIsFirstMentioned | backend/src/server.ts:358-516 | the same, on the lower-cased message |
| ServerChatbot.RatingText | backend/src/server.ts:423 | a rating in tenths prints as an integer or with one decimal |
| ServerChatbot.FindNamed | backend/src/server.ts:385-402 | no match exactly when no service name, lower-cased, contains the key; otherwise the first match |
| ServerChatbot.AppendEach | backend/src/server.ts:373-375 | the `forEach` loop yields the prefix followed by every element's text in order |
| ServerChatbot.BuildServicesMenu | backend/src/server.ts:372-376 | the loop builds exactly the services menu |
| ServerChatbot.BuildPriceList | backend/src/server.ts:405-409 | the loop builds exactly the price list |
| ServerChatbot.BuildTeamList | backend/src/server.ts:419-427 | the loop builds exactly the doctors list |
| ServerChatbot.RespondPrices | backend/src/server.ts:378-410 | a named treatment's sentence, else the price list |
| ServerChatbot.Respond | backend/src/server.ts:366-516 | each bucket's reply equals its specification |
| ServerChatbot.Chat | backend/src/server.ts:355-530 | a missing message is the 500 apology; otherwise the answer for the chosen bucket over the active services |
| ServerChatbot.ServicesMenuNamesEvery | backend/src/server.ts:372-376 | every active service's name appears in the menu |
| ServerChatbot.ServiceKeywordWins | backend/src/server.ts:366-371 | a message containing "service" always gets the services menu |
| ServerChatbot.FirstMentioned | backend/src/server.ts:366-516 | the k-th bucket wins when it is mentioned and no earlier bucket is |
| ServerChatbot.HoursQuestionTopic | backend/src/server.ts:428-442 | "What are your hours?" falls into the working-hours bucket |
| ServerChatbot.HoursQuestion | backend/src/server.ts:428-442 | that question gets the working-hours reply, whatever the service and doctor tables hold |
| ServerChatbot.WeekdayHoursListed | backend/src/server.ts:438 | the hours reply contains "Monday - Friday: 8:00 AM - 6:00 PM" |
| ServerChatbot.HiInsideAWordGreets | backend/src/server.ts:489-493 | "hi" matches inside words, so "this" gets the greeting |
| AppointmentsRoute.Joined | backend/src/routes/appointments.ts:181-197 | the created row with its own service and doctor joined in |
| AppointmentsRoute.StatusNotices | backend/src/routes/appointments.ts:242-249 | `confirmed` and `cancelled` send their mail to the patient; other statuses send none |
| AppointmentsRoute.GetById | backend/src/routes/appointments.ts:133-154 | the row with that id, or 404 "Appointment not found" |
| AppointmentsRoute.MyAppointments | backend/src/routes/appointments.ts:84-110 | 401 without a user id; otherwise the rows matching the token's email, newest first, and every row when the token has no email |
| AppointmentsRoute.SubsequenceMultiset | backend/src/routes/appointments.ts:92-103 | a filtered list is a sub-multiset of the table |
| AppointmentsRoute.MissingEmailListsEveryone | backend/src/routes/appointments.ts:92-95 | a token without an email lists every patient's appointments |
| AppointmentsRoute.OwnAppointments | backend/src/routes/appointments.ts:84-110 | corrected: only rows whose email equals the token's email; agrees with the route whenever an email is present |
| AppointmentsRoute.AppointmentStore.Create | backend/src/routes/appointments.ts:157-216 | no conflict check; 500 only for a missing field, a date text `dayOf` cannot read, a bad reference or a used id; otherwise 201, the new pending row appended, then the booking and admin mails |
| AppointmentsRoute.AppointmentStore.UpdateStatus | backend/src/routes/appointments.ts:219-262 | 400 "Status is required"; 400 "Invalid status"; 500 for an unknown id; otherwise only that status changes and the matching mail is chosen |
| AppointmentsRoute.AppointmentStore.Delete | backend/src/routes/appointments.ts:265-278 | 500 for an unknown id with no change; otherwise the table without that row |
| AppointmentsRoute.WithStatusKeepsLinks | backend/src/routes/appointments.ts:233-240 | a status update keeps every row's service and doctor references valid |
| DoctorsFragment.CandidateSlots | backend/src/routes/doctors.ts:33-37 | the `for` loop pushes exactly the 15 half-hour labels from 09:00 |
| DoctorsFragment.OnTheHour | backend/src/routes/doctors.ts:35 | pushing `HH:00` extends the half-hour list by one |
| DoctorsFragment.OnTheHalfHour | backend/src/routes/doctors.ts:36 | pushing `HH:30` below 16 extends it by one |
| DoctorsFragment.CandidatesSpan | backend/src/routes/doctors.ts:33-37 | 15 strictly ascending labels from "09:00" to "16:00"; "16:30" and "17:00" are not among them |
| DoctorsFragment.Availability | backend/src/routes/doctors.ts:1-47 | 400 without a date before any lookup; 404 for an unknown doctor; 500 for an unreadable date; otherwise a subsequence of the candidates holding exactly the ones not booked |
| DoctorRoutes.HourlySlotsTimes | backend/src/routes/doctor.roures.ts:37-40 | the k-th of the nine labels is 09:00 plus k hours |
| DoctorRoutes.HourlySlotsAscending | backend/src/routes/doctor.roures.ts:37-40 | strictly ascending from "09:00" to "17:00", with no half-hour label |
| DoctorRoutes.ListByRating | backend/src/routes/doctor.roures.ts:8-17 | a permutation of the doctors, ordered by rating descending |
| DoctorRoutes.Availability | backend/src/routes/doctor.roures.ts:20-48 | 500 for a missing or unreadable date; otherwise the hourly labels not held by a row whose status is not `CANCELLED` |
| DoctorRoutes.LowercaseCancelledStillBlocks | backend/src/routes/doctor.roures.ts:29 | a lower-case `cancelled` booking still takes its slot |
| DoctorRoutes.HalfHourBookingIgnored | backend/src/routes/doctor.roures.ts:34-42 | a half-hour booking never changes the list |
| DoctorRoutes.UnknownDoctorFullList | backend/src/routes/doctor.roures.ts:25-44 | an id no booking names gets all nine labels |
| ServiceRoutes.ByNameTotalPreorder | backend/src/routes/service.routes.ts:12 | ordering by name is total and transitive |
| ServiceRoutes.ListActive | backend/src/routes/service.routes.ts:8-17 | exactly the active services, the same multiset as the server's list, ordered by name |
| ServiceRoutes.GetById | backend/src/routes/service.routes.ts:21-33 | the service with that id, active or not, or 404 "Service not found" |
| ServiceRoutes.RetiredServiceStillFound | backend/src/routes/service.routes.ts:10-28 | an inactive service is missing from the list yet found by id |
| PaymentRoutes.MinorUnits | backend/src/routes/payment.routes.ts:31 | the charge is the price times 100 |
| PaymentRoutes.FirstMethod | backend/src/routes/payment.routes.ts:74 | the first payment method type, if any |
| PaymentRoutes.CompleteAll | backend/src/routes/payment.routes.ts:70-76 | every payment of the intent becomes `COMPLETED` with the method; the others are unchanged |
| PaymentRoutes.CompleteAllIdempotent | backend/src/routes/payment.routes.ts:70-76 | completing twice is completing once |
| PaymentRoutes.FirstOfIntent | backend/src/routes/payment.routes.ts:79-81 | none exactly when no payment carries the intent's id; otherwise the payment at the first index that carries it, every earlier one carrying another id |
| PaymentRoutes.CompleteAllKeepsFirst | backend/src/routes/payment.routes.ts:70-81 | completing keeps which payment comes first and its appointment |
| PaymentRoutes.ConfirmEffect | backend/src/routes/payment.routes.ts:70-88 | payments completed; with a matching payment, the appointments are the old ones with the first payment's appointment set to `CONFIRMED` and every other row unchanged; without one, nothing else changes |
| PaymentRoutes.ConfirmIdempotent | backend/src/routes/payment.routes.ts:70-88 | repeating a successful confirm leaves both tables unchanged |
| PaymentRoutes.WithStatusIdempotent | backend/src/routes/payment.routes.ts:83-86 | setting a status twice is setting it once |
| PaymentRoutes.ConfirmedSpellingRejected | backend/src/routes/payment.routes.ts:85 | `CONFIRMED` is not one of the four statuses the status update accepts |
| PaymentRoutes.PaymentDesk.CreateIntent | backend/src/routes/payment.routes.ts:12-59 | the token refusal; 500 when the body has no `appointmentId`; 404 for an unknown appointment; 500 for a failed charge; otherwise exactly one pending USD payment of the service price |
| PaymentRoutes.PaymentDesk.Confirm | backend/src/routes/payment.routes.ts:62-98 | the token refusal; 500 when the body has no `paymentIntentId` or the retrieval fails; 400 unless `succeeded`, with nothing written; otherwise the intent's payments are completed, and the first one's appointment is set to `CONFIRMED` (500 after the completion when that appointment does not exist); 200 with the tables of the confirm effect |
| ChatController.SessionMessages | backend/src/controllers/chatbot.controller.ts:35-39 | the session's messages in log order |
| ChatController.History | backend/src/controllers/chatbot.controller.ts:35-39 | at most ten, a prefix of the session's messages (the oldest ten), all of them when there are ten or fewer |
| ChatController.RoleOf | backend/src/controllers/chatbot.controller.ts:44-47 | `user` maps to `user`; every other sender maps to `assistant` |
| ChatController.Prompt | backend/src/controllers/chatbot.controller.ts:42-48 | the system entry, then one entry per history message with its role and text |
| ChatController.PromptBounded | backend/src/controllers/chatbot.controller.ts:35-48 | at most eleven entries, and only the first is a system entry |
| ChatController.ReplyText | backend/src/controllers/chatbot.controller.ts:58 | a missing or empty reply becomes the apology |
| ChatController.ChatLog.Chat | backend/src/controllers/chatbot.controller.ts:21-77 | the user message is logged before the history is read; on failure 500 with only it logged; otherwise the bot reply is logged too and returned |
| ChatController.NewMessageInHistory | backend/src/controllers/chatbot.controller.ts:26-39 | below ten session messages, the message just logged is in the history |
| ChatController.HistoryIsOldestTen | backend/src/controllers/chatbot.controller.ts:35-39 | once ten exist, later messages never reach the history |
| ChatController.OtherSessionsUnchanged | backend/src/controllers/chatbot.controller.ts:26-32 | appending to one session leaves every other session's messages unchanged |
| EmailService.NotesBlock | backend/src/services/emailService.ts:294 | the notes block is empty exactly when the notes are, and otherwise shows them |
| EmailService.ContentOf | backend/src/services/emailService.ts:32-294 | only the admin template shows the notes |
| EmailService.Envelope | backend/src/services/emailService.ts:311-349 | the fixed sender; the template's subject; the admin mailbox for the admin notice, the patient otherwise |
| EmailService.SendEmail | backend/src/services/emailService.ts:311-327 | never fails: success with the message id, or failure with the error message |
| EmailService.Send | backend/src/services/emailService.ts:330-349 | success exactly when the transport accepts the envelope |
| EmailService.AdminMailboxFixed | backend/src/services/emailService.ts:345-349 | the admin notification's address does not depend on the booking |
| AuthMiddleware.SecondPiece | backend/src/middleware/auth.middleware.ts:12-13 | no second piece exactly when the header has no space; the piece has no space |
| AuthMiddleware.SecondPieceOfBearer | backend/src/middleware/auth.middleware.ts:12-13 | for any scheme word, the token after the first space is the second piece |
| AuthMiddleware.SecondPieceSplits | backend/src/middleware/auth.middleware.ts:12-13 | every second piece comes from a scheme, a space, the piece and the rest |
| AuthMiddleware.ExtractToken | backend/src/middleware/auth.middleware.ts:12-17 | a token is non-empty and has no space; no header gives none |
| AuthMiddleware.Authenticate | backend/src/middleware/auth.middleware.ts:6-30 | `next` with the verified user exactly when a token is present and verifies; otherwise 401 without a token or 403 |
| AuthMiddleware.BearerTokenAdmits | backend/src/middleware/auth.middleware.ts:12-25 | a well-formed header with a good token passes |
| AuthMiddleware.SchemeNotChecked | backend/src/middleware/auth.middleware.ts:12-13 | the scheme word never changes the outcome |
| AuthMiddleware.BareTokenRefused | backend/src/middleware/auth.middleware.ts:12-17 | a header without a scheme word gets 401 |
| AuthMiddleware.AuthorizeRole | backend/src/middleware/auth.middleware.ts:32-41 | `next` exactly when the user's role is listed; otherwise 403 |
| AuthMiddleware.NoRolesRefusesEveryone | backend/src/middleware/auth.middleware.ts:36-38 | with no roles listed everyone is refused |
| Listings.TargetStatus | frontend/src/app/admin/appointments/page.tsx:273-313 | the status each action button sends is one of the four accepted ones |
| Listings.StatusCount | frontend/src/app/admin/page.tsx:65-69 | a status count never exceeds the row count |
| Listings.StatusCountsPartition | frontend/src/app/admin/page.tsx:63-69 | the four status counts plus the unlisted rows make the total |
| Listings.CountZero | frontend/src/app/admin/page.tsx:63-69 | a count is zero exactly when no row qualifies |
| AdminAppointmentsPage.FilterAppointments | frontend/src/app/admin/appointments/page.tsx:63-82 | an order-keeping subsequence, status-matched unless `all`; `all` with no query keeps everything |
| AdminAppointmentsPage.EmptyQueryMatchesAll | frontend/src/app/admin/appointments/page.tsx:72-79 | the empty query matches every row |
| AdminAppointmentsPage.FilterAppointmentsIsConjunction | frontend/src/app/admin/appointments/page.tsx:66-79 | the result is the rows passing both the status test and the search |
| AdminAppointmentsPage.SummaryCountsBounded | frontend/src/app/admin/appointments/page.tsx:149-167 | the confirmed, pending and completed cards add up to the total less cancelled and unlisted rows |
| AdminAppointmentsPage.RowActions | frontend/src/app/admin/appointments/page.tsx:273-313 | Confirm only for `pending`; Complete only for `confirmed`; Cancel unless `cancelled`; View and Delete always |
| AdminPage.StatsOf | frontend/src/app/admin/page.tsx:63-69 | the total is the row count, and each card is at most that |
| AdminPage.StatsAddUp | frontend/src/app/admin/page.tsx:63-69 | the four cards add up to the total exactly when every status is one of the four |
| AdminPage.FilteredAppointments | frontend/src/app/admin/page.tsx:73-79 | an order-keeping subsequence holding exactly the rows passing the filter and the search |
| AdminPage.EmptySearchKeepsAll | frontend/src/app/admin/page.tsx:73-79 | `all` with an empty term keeps every row in order |
| AdminPage.PhoneSearchIsCaseSensitive | frontend/src/app/admin/page.tsx:75-79 | name and email match ignoring case; the phone does not |
| AdminPage.RowActions | frontend/src/app/admin/page.tsx:220-253 | confirm and cancel for `pending`; complete only for `confirmed`; delete always |
| AdminDashboard.DayPart | frontend/src/app/admin/dashboard/page.tsx:68-71 | the date part has no `T` and is a prefix of the timestamp |
| AdminDashboard.AppointmentsOn | frontend/src/app/admin/dashboard/page.tsx:68-71 | an order-keeping subsequence holding exactly the rows whose date part is the day |
| AdminDashboard.TimestampOnDay | frontend/src/app/admin/dashboard/page.tsx:68-71 | a timestamp counts for its day whatever its time |
| AdminDashboard.MonthlyRevenue | frontend/src/app/admin/dashboard/page.tsx:73-83 | the month's revenue is never negative |
| AdminDashboard.MonthlyRevenueIgnoresStatus | frontend/src/app/admin/dashboard/page.tsx:73-83 | changing statuses never changes the monthly revenue |
| AdminDashboard.PendingAppointments | frontend/src/app/admin/dashboard/page.tsx:85-87 | exactly the `pending` rows, as many as the pending count |
| AdminDashboard.RecentAppointments | frontend/src/app/admin/dashboard/page.tsx:258 | the first ten rows, or all when fewer |
| AdminDashboard.Last7Days | frontend/src/app/admin/dashboard/page.tsx:90-108 | seven entries, oldest first, entry k counting the rows on the day 6 - k days ago |
| AdminDashboard.NamesCover | frontend/src/app/admin/dashboard/page.tsx:111-117 | every row's service name gets an entry |
| AdminDashboard.NamesFromRows | frontend/src/app/admin/dashboard/page.tsx:111-117 | every entry's name is some row's service name |
| AdminDashboard.ServiceRevenueData | frontend/src/app/admin/dashboard/page.tsx:111-123 | one entry per distinct name, in first-appearance order, each with that name's revenue |
| AdminDashboard.TallyStep | frontend/src/app/admin/dashboard/page.tsx:113-116 | one more row adds its price to its name's total, and appends the name if it is new |
| AdminDashboard.ServiceTotalsAddUp | frontend/src/app/admin/dashboard/page.tsx:111-123 | the entries add up to the sum of all prices |
| BookingForm.DefaultSlotsAreServerPrefix | frontend/src/components/Booking.tsx:84-88 | the dialog's 16 labels are the server's list without 17:00 |
| BookingForm.DefaultSlotsAreHalfHours | frontend/src/components/Booking.tsx:84-88 | they are the first 16 half-hour labels from 09:00 |
| BookingForm.DefaultSlotsAscending | frontend/src/components/Booking.tsx:84-88 | strictly ascending on the half hour, 09:00 to 16:30 |
| BookingForm.SlotList | frontend/src/components/Booking.tsx:83-95 | the 16 labels when both a doctor and a date are chosen, none otherwise |
| BookingForm.SlotListIgnoresChoice | frontend/src/components/Booking.tsx:83-95 | which doctor and date are chosen never changes the offer |
| BookingForm.ToPayload | frontend/src/components/Booking.tsx:59-68 | `date` goes to `appointmentDate`, `time` to `appointmentTime`, `notes` defaults to "" |
| BookingForm.RequestOf | frontend/src/components/Booking.tsx:59-68 | the server sees every field present, with the payload's date text, so the day it reads is the calendar's reading of the form's date |
| BookingForm.SubmittedFormBecomesRow | frontend/src/components/Booking.tsx:59-68 | a submitted dialog becomes the pending row with its fields, time and notes |
| BookingForm.BlankFieldOnlyFailsCompleteness | frontend/src/components/Booking.tsx:59-68 | a blank name passes the router's presence test but not the server's completeness test |
| Divergences.SlotListsNest | backend/src/routes/doctors.ts:33-37 | the 15 labels are a prefix of the dialog's 16, which are a prefix of the server's 17; the hourly labels lie inside the server's list, and "09:30" is not among them |
| Divergences.CancelledSpellingsDisagree | backend/src/routes/doctor.roures.ts:29 | a lower-case cancelled booking frees its slot on the server and blocks it in the hourly router |
| Divergences.PaymentConfirmationStrandsRow | backend/src/routes/payment.routes.ts:83-86 | a `CONFIRMED` row is refused as a status, counted on no card, and offered neither Confirm nor Complete |
| Divergences.RouteCreateCanDoubleBook | backend/src/routes/appointments.ts:181-197 | the router's insert into a taken slot breaks the one-booking-per-slot invariant |

## Left out

- Express, Prisma and HTTP plumbing. Tables are sequences, replies are `Reply`/`Error` values, and a Prisma failure on a missing row is its handler's 500 branch.
- Concurrency: the check-then-insert race in `server.ts` create. Each request runs alone.
- The mail transport: `verify`, `sendMail`, `sendConfirmationEmail` in `server.ts`, and the test-email endpoints.
- The HTML and CSS of the templates, beyond the notes block.
- EmailService.Subject: the four subject lines are a plain table with no lemma of their own. Only `Envelope` states that a mail carries its template's subject.
- The `try`/`catch` 401 "Authentication failed" in `auth.middleware.ts`. A verifier failure is a `None` answer, so no exception is left to catch.
- Floating point. Prices are whole dollars, so `Math.round(price * 100)` is `price * 100`. Doctor ratings are whole tenths (49 is 4.9), so a rating with two or more decimals cannot be held; `DoctorRoutes.ListByRating` and `ServerChatbot.RatingText` are stated for tenths only.
- Date parsing, time zones and `toLocaleDateString`. These are the `dayOf`, `dayKey`, `dayName` and `inThisMonth` parameters.
- Text.Lower: lower-cases ASCII letters only. JavaScript's `toLowerCase` also maps other letters (`É` to `é`, the Kelvin sign to `k`, `İ` to two characters), so `ServerChatbot.TopicOf`, `ServerChatbot.FindNamed`, `AdminAppointmentsPage.QueryMatches` and `AdminPage.SearchMatches` can differ from the source on non-ASCII text.
- Timestamps. The chat log's order is the order of writing.
- Prisma's collation. Service names are ordered by character code (`StrLe`).
- The controller's handling of a request body without `sessionId` or `message`.
- Server.AvailableSlots: its order is not in its own `ensures`. It is proved in two steps: `AllSlotsAscending`, then `SlotLabels.RemoveBookedAscending`.
- ServiceRoutes.ListActive: states the order by name and the same multiset as the server's list. It does not state the order among services with equal names, which the database leaves open.
- React state, effects, animation and modals. The static pages and the login page's fixed credential check are also left out.
- `frontend/src/lib/api.ts`, `backend/src/routes/auth.routes.ts` and `backend/prisma/seed.ts`. They hold no booking logic.
- The chatbot's emoji-laden texts appear only through the `Script` value. Their exact wording is kept in `SmileCare()`, and only the weekday hours line is proved to be in it.

## Findings

| source | as written | input that shows it | evidently intended | confidence | as-written member | corrected member |
|---|---|---|---|---|---|---|
| backend/src/routes/appointments.ts:92-95 | `where: { patientEmail: req.user?.email }` with no email in the token leaves the filter undefined, which Prisma drops, so every appointment is returned | a valid token whose payload has `userId` but no `email` | only the caller's own appointments, none when the token has no email | high (not executed) | AppointmentsRoute.MissingEmailListsEveryone | AppointmentsRoute.OwnAppointments |
