# demo-clinic booking back end, modelled in Dafny

This project models the booking back end of a dental clinic's WhatsApp assistant:

- **Intake gate.** Gateway events are filtered. Repeated message ids are dropped for five minutes. Phones whose conversation is with a human are held back. Quick successive texts from one phone are collected into one turn.
- **Agent turn.** It is a bounded loop of model calls and the tool calls they ask for. A `register_patient` call may switch the acting patient for the rest of the turn. The last successful booking is tracked, and the reply is never empty.
- **Tools.** Booking, cancelling, rescheduling, slot search, patient registration and hand-over, together with the stage-based tool subsets and the deterministic intent and stage classifiers.
- **Availability engine.** It walks a 30-minute grid over a working window. A multi-day scan stops after five days that have slots.
- **Appointment lifecycle.** Booking, cancelling (the row is deleted), rescheduling (patch, or create-then-delete of the calendar event), and the completion sweep.
- **Reminder job.** Three set-once notice flags and a completion pass, each sub-task isolated from the others.
- **Patient identity.** A phone's primary patient is its oldest record. Dependants are new records on the same phone, and CPFs are stored as digits only.
- **CPF validation.** The Brazilian mod-11 check-digit algorithm.

Conventions:

- **Time** is integer minutes, with day 0 = 1970-01-01, a Thursday. The gate's timers are in milliseconds.
- **Ids** are natural numbers drawn from one counter. Database tables are maps from id to row, held by the class `Store.Database`.
- **Outside services are parameters.** This covers the language model, which is a script of answers where `None` means a failed call, and the calendar's free/busy, insert and patch answers. It also covers the current time and the day a `YYYY-MM-DD` text denotes.
- **Calendar requests** a booking operation makes are returned as a list of `CalendarCall`s.

Modules, one per source file:

| module | file |
|---|---|
| `Common`, `Text` | shared helpers: optional values, sorting and filtering, and JavaScript string operations (`trim`, `toLowerCase`, `split`/`join`, `replace(/\D/g, '')`, `includes`, `/a.*b/`) |
| `Store` | the tables and their invariant |
| `Calendar` | `google-calendar.service.ts` |
| `AppointmentsRepository` | `appointments.repository.ts` |
| `AppointmentsService` | `appointments.service.ts` |
| `Reminders` | `reminders.job.ts` |
| `Patients` | `patients.repository.ts` |
| `Cpf` | `cpf.ts` |
| `Intent` | `intent-classifier.ts` |
| `Tools` | `tools/index.ts` |
| `AgentTools` | `executeToolCall` in `agent.service.ts` |
| `Agent` | `processMessage` in `agent.service.ts` |
| `Webhook` | `webhook.handler.ts` |

## Model

| member | source | states |
|---|---|---|
| Cpf.CheckDigit | src/utils/cpf.ts:20-21 | the check digit is `(sum·10) mod 11` with 10 read as 0, always a single digit |
| Cpf.ValidateCpf | src/utils/cpf.ts:9-32 | the loops that accumulate the two weighted sums decide exactly `IsValidCpf`: eleven digits after stripping non-digits, not all equal, and both check digits match |
| Cpf.FormattingIgnored | src/utils/cpf.ts:10 | a CPF is valid exactly when its digits alone are |
| Cpf.WrongLengthRejected | src/utils/cpf.ts:12 | any digit count other than eleven is rejected |
| Cpf.RepeatedDigitRejected | src/utils/cpf.ts:15 | eleven copies of one digit are rejected |
| Cpf.SecondCheckDigitDetermined | src/utils/cpf.ts:25-29 | changing the last digit of a valid CPF makes it invalid |
| Cpf.WeightedSumPrefix | src/utils/cpf.ts:19 | a weighted sum depends only on the digits it covers |
| Cpf.ExampleCheckDigits | src/utils/cpf.ts:3 | the check digits of 123456789-09 are 0 and 9 |
| Cpf.DocumentedExampleAccepted | src/utils/cpf.ts:3 | the documented example "123.456.789-09" is valid |
| Cpf.Dotted | src/modules/ai/agent.service.ts:399 | the dotted form has 14 characters, with '.', '.' and '-' at positions 3, 7 and 11 |
| Cpf.ExampleDotted | src/modules/ai/agent.service.ts:399 | 12345678909 is shown as 123.456.789-09 |
| Cpf.FormatCpfRoundTrip | src/modules/ai/agent.service.ts:397-400 | formatting eleven stored digits gives the dotted form, whose digits are the stored CPF again |
| Text.OnlyDigits | src/utils/cpf.ts:10 | `replace(/\D/g, '')` leaves only digits and never lengthens |
| Text.OnlyDigitsAppend | src/utils/cpf.ts:10 | stripping distributes over concatenation |
| Text.OnlyDigitsIdempotent | src/utils/cpf.ts:10 | stripping non-digits twice is stripping them once |
| Text.ToLower | src/modules/ai/intent-classifier.ts:17 | `toLowerCase()` keeps the length and lower-cases each character on its own |
| Text.ToLowerIdempotent | src/modules/ai/intent-classifier.ts:30 | lower-casing twice is lower-casing once |
| Text.Trim | src/modules/ai/intent-classifier.ts:13 | `trim()` never lengthens, and its result neither starts nor ends with JavaScript whitespace |
| Text.TrimAround | src/modules/ai/intent-classifier.ts:13 | `trim()` removes exactly the whitespace around a word with visible ends |
| Text.Utf16Length | src/modules/ai/intent-classifier.ts:15 | `length` counts UTF-16 units: between one and two per character |
| Text.BasicPlaneLength | src/modules/ai/intent-classifier.ts:15 | text without astral characters has as many UTF-16 units as characters |
| Text.ContainsIff | src/modules/ai/intent-classifier.ts:33 | an unanchored word pattern matches exactly when the word occurs at some position |
| Text.ThenOnSameLineIff | src/modules/ai/intent-classifier.ts:38 | `/a.*b/`, with `b` free of line breaks, matches exactly when `a` occurs and `b` occurs after it on the same line |
| Text.FindFrom | src/modules/whatsapp/webhook.handler.ts:139 | the first occurrence of the separator at or after a position, if any |
| Text.Split | src/modules/whatsapp/webhook.handler.ts:139 | `split` always yields at least one piece |
| Text.JoinSplit | src/modules/whatsapp/webhook.handler.ts:139 | joining the pieces of a split with the separator gives the string back |
| Text.SplitPiecesAvoidSeparator | src/modules/whatsapp/webhook.handler.ts:139 | no piece of a split contains the separator |
| Common.SortBy | src/modules/appointments/appointments.repository.ts:51 | Prisma's `orderBy`: the result is sorted by the key and is a permutation of the input |
| Common.Filter | src/modules/ai/tools/index.ts:36 | `filter` keeps exactly the passing elements, in their order, as a sub-list |
| Common.Rows | src/modules/appointments/appointments.repository.ts:41 | a table's rows: as many as there are ids, and exactly the stored rows |
| Calendar.GetAvailableSlots | src/modules/calendar/google-calendar.service.ts:52-127 | no working hours give no slots and no free/busy query; a failed query is an error; otherwise the loop returns exactly `AvailableSlots` of the window |
| Calendar.GridSlotsSound | src/modules/calendar/google-calendar.service.ts:91-124 | every slot ends `duration` after its start, lies in the window on the 30-minute grid, starts after now, and overlaps no busy period |
| Calendar.GridSlotsComplete | src/modules/calendar/google-calendar.service.ts:94-121 | every free future grid candidate that fits the window is produced |
| Calendar.GridSlotsAscending | src/modules/calendar/google-calendar.service.ts:91-123 | slot starts strictly increase |
| Calendar.AvailableSlotsIff | src/modules/calendar/google-calendar.service.ts:94-121 | a slot is offered exactly when it is on the grid, fits the window, starts after now and is free |
| Calendar.BusyPeriodExample | src/modules/calendar/google-calendar.service.ts:106-114 | a 60-minute procedure in 08:00–10:00 with 09:00–09:30 busy gets only 08:00; a half-open overlap that merely touches the busy period is kept |
| Calendar.FreeGridLength | src/modules/calendar/google-calendar.service.ts:94-123 | with nothing busy and a window that opens after now, the number of slots is the number of grid starts that fit, (close − duration − open) / 30 + 1 |
| Calendar.MondayMorningScenario | src/modules/calendar/google-calendar.service.ts:94-123 | Monday 08:00–12:00 with 30-minute slots, asked at 07:00, gives eight slots |
| Calendar.BusyNineScenario | src/modules/calendar/google-calendar.service.ts:106-114 | the same morning with 09:00–09:30 busy loses exactly the 09:00 slot |
| Calendar.NowIsNotOffered | src/modules/calendar/google-calendar.service.ts:100-103 | a start equal to now is not offered |
| Calendar.Weekday | src/modules/calendar/google-calendar.service.ts:255 | the weekday of a day number is in 0..6 (day 4, a Monday, gives 1) |
| Calendar.FindHours | src/modules/calendar/google-calendar.service.ts:257 | `find` returns an entry for the weekday, or none exactly when no entry has it |
| Calendar.GetAvailableSlotsForDays | src/modules/calendar/google-calendar.service.ts:244-276 | the `for` loop with its `continue` and `break` computes exactly `ScanDays` from day 0 |
| Calendar.ScanDaysEntries | src/modules/calendar/google-calendar.service.ts:253-273 | the scan keeps its invariant: at most five days, in strictly increasing order, each within the scanned range, with a working-hours entry and a non-empty slot list |
| Calendar.ForDaysResult | src/modules/calendar/google-calendar.service.ts:253-273 | the multi-day result has at most five days, ascending, each in range and with slots |
| Calendar.ScanDaysComplete | src/modules/calendar/google-calendar.service.ts:257-272 | a result with fewer than five days has missed no day in range that has hours and free slots |
| Calendar.ScanKeepsPrefix | src/modules/calendar/google-calendar.service.ts:267-269 | the scan only appends to what it has gathered |
| Calendar.NoDaysNoResults | src/modules/calendar/google-calendar.service.ts:253 | a scan over no days returns nothing |
| Calendar.EventIdOf | src/modules/calendar/google-calendar.service.ts:178-181 | an empty or missing event id becomes null |
| Store.Database.constructor | src/modules/ai/agent.service.ts:11 | a database with the given dentists and procedures and no other rows satisfies the invariant |
| Store.Database.FreshId | src/modules/patients/patients.repository.ts:13 | a new row's id is the counter, which then advances |
| Store.Database.AddMessage | src/modules/ai/agent.service.ts:64-71 | a stored message is appended; the invariant holds |
| Store.Database.SetLastMessageAt | src/modules/ai/agent.service.ts:74-77 | only that conversation's `lastMessageAt` changes |
| Store.Database.SetConversationPatient | src/modules/ai/agent.service.ts:561-564 | only that conversation's patient changes, to a stored patient |
| Patients.EarliestCreation | src/modules/patients/patients.repository.ts:10 | the least creation time among the ids is attained by one of them |
| Patients.PrimaryId | src/modules/patients/patients.repository.ts:8-11 | the phone's oldest patient, absent exactly when the phone has no patient |
| Patients.FindPatientByPhone | src/modules/patients/patients.repository.ts:42-47 | the phone's primary patient, absent exactly when the phone has none |
| Patients.PrimaryUnique | src/modules/patients/patients.repository.ts:10 | a phone has one primary patient |
| Patients.PrimaryKeptAfterDependant | src/modules/patients/patients.repository.ts:19-30 | adding a newer record on the same phone leaves the primary patient unchanged |
| Patients.FindOrCreatePatient | src/modules/patients/patients.repository.ts:7-14 | an existing primary patient is returned and nothing is created; otherwise exactly one patient with that phone is created; afterwards the lookup finds the returned patient, so a second call returns it again |
| Patients.StoredName | src/modules/patients/patients.repository.ts:26 | an empty name is stored as null |
| Patients.StoredCpf | src/modules/patients/patients.repository.ts:27 | a supplied CPF is stored as its digits; an absent or empty one as null |
| Patients.CreatePatientForPhone | src/modules/patients/patients.repository.ts:19-30 | always adds a new patient on the phone, even when the phone already has one; a CPF already stored is a unique-constraint error that changes nothing |
| Patients.UpdatedPatient | src/modules/patients/patients.repository.ts:36-39 | only the supplied fields change |
| Patients.UpdatePatientById | src/modules/patients/patients.repository.ts:32-40 | a missing id, or a CPF held by another patient, is an error that changes nothing; otherwise only that row changes, to `UpdatedPatient` |
| Patients.FindPatientByCpf | src/modules/patients/patients.repository.ts:49-52 | found exactly when some patient stores the CPF's digits |
| Patients.CpfLookupIgnoresFormatting | src/modules/patients/patients.repository.ts:50 | looking up a formatted CPF is looking up its digits |
| Patients.CpfLookupFindsHolder | src/modules/patients/patients.repository.ts:51 | under the unique constraint, the lookup returns the one holder |
| AppointmentsRepository.SortByMembers | src/modules/appointments/appointments.repository.ts:51 | sorting keeps exactly the elements it was given |
| AppointmentsRepository.GetUpcomingAppointmentsByPatient | src/modules/appointments/appointments.repository.ts:40-53 | exactly the patient's scheduled rows starting at or after now, ascending by start |
| AppointmentsRepository.GetDueForReminder24h | src/modules/appointments/appointments.repository.ts:105-118 | exactly the scheduled, not-yet-reminded rows starting within [now+23h, now+24h] |
| AppointmentsRepository.GetDueForReminder2h | src/modules/appointments/appointments.repository.ts:120-133 | exactly the scheduled, not-yet-reminded rows starting within [now+90min, now+2h] |
| AppointmentsRepository.GetDueForSurvey | src/modules/appointments/appointments.repository.ts:135-148 | exactly the completed, not-yet-surveyed rows ending within [now−6h, now−3h] |
| AppointmentsRepository.GetAllAppointments | src/modules/appointments/appointments.repository.ts:182-208 | exactly the rows passing the supplied filters, in descending order of start |
| AppointmentsRepository.NoFiltersListsAll | src/modules/appointments/appointments.repository.ts:188-200 | without filters every row is listed |
| AppointmentsRepository.CompletedAt | src/modules/appointments/appointments.repository.ts:171-180 | the same ids; exactly the scheduled rows that have ended become completed, and all other rows are unchanged |
| AppointmentsRepository.CompletedAtLeavesNoneDue | src/modules/appointments/appointments.repository.ts:171-180 | after the sweep no scheduled row has ended |
| AppointmentsRepository.CompletedAtIdempotent | src/modules/appointments/appointments.repository.ts:171-180 | a second sweep at the same time changes nothing |
| AppointmentsRepository.CompletedAtKeepsLinks | src/modules/appointments/appointments.repository.ts:173-179 | the sweep changes no row's id, patient, dentist, procedure or calendar event |
| AppointmentsRepository.MarkAppointmentsAsCompleted | src/modules/appointments/appointments.repository.ts:171-180 | the table becomes `CompletedAt`, and the count is the number of rows that were due |
| AppointmentsRepository.Rescheduled | src/modules/appointments/appointments.repository.ts:87-96 | new start and end, status scheduled, both reminder flags cleared, event id replaced only when one is given; owner, dentist, procedure, survey flag and notes untouched |
| AppointmentsRepository.RescheduledRemindedAgain | src/modules/appointments/appointments.repository.ts:94-95 | a rescheduled appointment in a reminder window is due for that reminder again |
| AppointmentsRepository.CreateAppointment | src/modules/appointments/appointments.repository.ts:4-21 | a new scheduled row, with no flag set, under a fresh id |
| AppointmentsRepository.RescheduleAppointment | src/modules/appointments/appointments.repository.ts:81-103 | that row becomes `Rescheduled(...)` and nothing else changes |
| AppointmentsRepository.DeleteAppointmentById | src/modules/appointments/appointments.service.ts:111 | exactly that row is removed |
| AppointmentsRepository.MarkReminderSent24h | src/modules/appointments/appointments.repository.ts:150-155 | sets only that flag of that row |
| AppointmentsRepository.MarkReminderSent2h | src/modules/appointments/appointments.repository.ts:157-162 | sets only that flag of that row |
| AppointmentsRepository.MarkSurveySent | src/modules/appointments/appointments.repository.ts:164-169 | sets only that flag of that row |
| AppointmentsService.ScheduleAppointment | src/modules/appointments/appointments.service.ts:24-80 | refuses, in order, a missing or inactive dentist, a missing or inactive procedure and a past start, changing nothing; otherwise it requests one event and stores a scheduled row ending `duration` after its start, without an event id when the calendar returned none |
| AppointmentsService.CancelAppointment | src/modules/appointments/appointments.service.ts:85-114 | refuses, in order, a missing appointment, another patient's, or a completed one, changing nothing; otherwise the row is deleted, and the event is deleted only when both an event id and a calendar id exist |
| AppointmentsService.RescheduleAppointment | src/modules/appointments/appointments.service.ts:119-192 | refuses, in order, missing, not owned, cancelled or completed, and a past start; otherwise the end is re-derived, and the event id is kept when the patch succeeds or there is no event, replaced with the old event deleted when the patch fails and creation succeeds, and kept when both fail |
| Reminders.DueMeansNotSent | src/jobs/reminders.job.ts:49-58 | a row due for a notice has not had it |
| Reminders.WithSent | src/jobs/reminders.job.ts:58 | sets the notice's flag and no other flag |
| Reminders.DueList | src/jobs/reminders.job.ts:49 | exactly the stored rows due for the notice |
| Reminders.SweptFlags | src/jobs/reminders.job.ts:51-63 | a pass sets its flag exactly on the rows that were due and whose send succeeded |
| Reminders.MarkSent | src/jobs/reminders.job.ts:58 | sets only that flag on that row |
| Reminders.WithSentTwice | src/jobs/reminders.job.ts:58 | flagging twice is flagging once |
| Reminders.ApplySends | src/jobs/reminders.job.ts:51-63 | sending to some rows keeps the table's ids |
| Reminders.ApplySendsPointwise | src/jobs/reminders.job.ts:51-63 | a row is flagged exactly when it was flagged already or is among the rows sent to with a successful send |
| Reminders.StoredUnderOwnId | src/jobs/reminders.job.ts:49 | the rows of a listing are stored under their own ids |
| Reminders.SendsToDueRowsSweep | src/jobs/reminders.job.ts:51-63 | sending, in any order, to a listing of exactly the due rows gives `Swept` |
| Reminders.SendToRows | src/jobs/reminders.job.ts:51-63 | the loop over the due rows flags exactly those whose send succeeded; a failed send does not stop the loop |
| Reminders.SendDueNotices | src/jobs/reminders.job.ts:44-110 | a failed query changes nothing; otherwise the table becomes `Swept` |
| Reminders.RunReminderJobs | src/jobs/reminders.job.ts:19-31 | the table after a run is `Sweep`: the completion pass and the three notice passes, each skipped only when it fails itself |
| Reminders.OtherPassKeepsFlag | src/jobs/reminders.job.ts:25-30 | another notice's pass leaves this notice's flags alone |
| Reminders.CompletionKeepsFlags | src/jobs/reminders.job.ts:33-42 | the completion pass keeps every row and flag |
| Reminders.BeforeKeepsFlag | src/jobs/reminders.job.ts:25-30 | a notice's flag as its pass finds it is the flag from before the run |
| Reminders.SweepFlag | src/jobs/reminders.job.ts:51-63 | after a run a flag is set exactly when it was set before or the notice was delivered; a delivery only reaches an unflagged row |
| Reminders.SweepCompletes | src/jobs/reminders.job.ts:33-42 | a run whose completion pass succeeded leaves no scheduled row that has ended |
| Reminders.DeliveredAtMostOnce | src/jobs/reminders.job.ts:49-58 | over any sequence of runs, each notice is delivered and marked at most once per row, and never if it was already flagged |
| Intent.StripTrailingMarks | src/modules/ai/intent-classifier.ts:17 | removes exactly the trailing run of `!?.…`, leaving a prefix that does not end in one |
| Intent.WordListsDisjoint | src/modules/ai/intent-classifier.ts:5-6 | no word is both a yes and a no |
| Intent.ClassifyIntent | src/modules/ai/intent-classifier.ts:12-22 | over 40 UTF-16 units gives unknown; otherwise confirm exactly when the cleaned text is a yes word, deny exactly when it is a no word, and unknown when neither |
| Intent.ClassifyIgnoresStage | src/modules/ai/intent-classifier.ts:12 | the stage never changes the reading |
| Intent.StripMarksAfter | src/modules/ai/intent-classifier.ts:17 | marks after a word are all that is stripped |
| Intent.CleanDecorated | src/modules/ai/intent-classifier.ts:13-17 | surrounding whitespace, letter case and trailing marks are removed from a listed word |
| Intent.DecoratedYesConfirms | src/modules/ai/intent-classifier.ts:5-19 | a yes word in any case with trailing marks and whitespace, e.g. "Sim!!", confirms |
| Intent.DecoratedNoDenies | src/modules/ai/intent-classifier.ts:6-20 | a no word decorated the same way denies |
| Intent.SimPorFavorUnknown | src/modules/ai/intent-classifier.ts:5-21 | the patterns are anchored: "sim por favor" is unknown |
| Intent.CleanUnchanged | src/modules/ai/intent-classifier.ts:13-17 | text of lower-case ASCII letters and inner spaces is its own cleaned form |
| Intent.YesWordsShaped | src/modules/ai/intent-classifier.ts:5 | every yes word has visible ends and no trailing mark, so it survives cleaning unchanged |
| Intent.NoWordsShaped | src/modules/ai/intent-classifier.ts:6 | every no word has visible ends and no trailing mark |
| Intent.WordsShort | src/modules/ai/intent-classifier.ts:5-6 | no listed word is longer than nine characters |
| Intent.ThenEach | src/modules/ai/intent-classifier.ts:53 | `a.*(b1\|…)` is the set of alternatives `a.*bj` |
| Intent.Pairs | src/modules/ai/intent-classifier.ts:53 | `(a1\|…).*(b1\|…)` is the set of alternatives `ai.*bj` |
| Intent.DetectStage | src/modules/ai/intent-classifier.ts:28-58 | "" is initial; a non-initial result's pattern matches the lower-cased text; and no earlier stage's pattern matches |
| Intent.FirstMatchWins | src/modules/ai/intent-classifier.ts:33-55 | a matching stage is never passed over for a later one |
| Intent.NoCueMeansInitial | src/modules/ai/intent-classifier.ts:57 | text matching no pattern is initial |
| Intent.StageIgnoresCase | src/modules/ai/intent-classifier.ts:30 | the stage depends only on the lower-cased text |
| Intent.ConfirmationQuestionWins | src/modules/ai/intent-classifier.ts:33-35 | a confirmation question anywhere, in any case, gives pre-confirmation |
| Intent.ConfirmationQuestionOffersBooking | src/modules/ai/tools/index.ts:18-20 | after a confirmation question, booking is among the tools selected |
| Tools.ToolNamed | src/modules/ai/tools/index.ts:39-264 | a name denotes a tool exactly when it is that tool's function name |
| Tools.AllToolsListed | src/modules/ai/tools/index.ts:39-264 | every tool is in the list |
| Tools.ToolsListedOnce | src/modules/ai/tools/index.ts:39-264 | ten tools, each listed once and found again by its name |
| Tools.PickTools | src/modules/ai/tools/index.ts:35-37 | `_tools`: a sub-list of the tool list, in its order, holding exactly the named tools |
| Tools.SelectTools | src/modules/ai/tools/index.ts:16-33 | a sub-list of the tool list, in its order, holding exactly the stage's tools |
| Tools.InitialOffersAll | src/modules/ai/tools/index.ts:29-31 | the initial stage offers all ten tools |
| Tools.EscalationAlwaysOffered | src/modules/ai/tools/index.ts:17-32 | the hand-over is offered in every stage |
| Tools.RegistrationPicksTwo | src/modules/ai/tools/index.ts:27-28 | registration offers exactly `escalate_to_human` and `register_patient`, in list order |
| Tools.SlotsOutsideRegistration | src/modules/ai/tools/index.ts:18-31 | every other stage offers the slot search |
| Tools.RegistrationOffersTwo | src/modules/ai/tools/index.ts:17-32 | exactly the registration stage yields those two tools |
| Tools.BookingOnlyWhenConfirming | src/modules/ai/tools/index.ts:18-31 | `create_appointment` is offered exactly in pre-confirmation and initial |
| Tools.CancelOnlyInCancelFlow | src/modules/ai/tools/index.ts:25-31 | cancel and reschedule are offered exactly in the cancellation flow and initial |
| AgentTools.CreateAppointmentTool | src/modules/ai/agent.service.ts:358-417 | a past start (an absent one reads as now) is refused before anything else; a patient without name or CPF must register; a missing or inactive dentist, then a missing or inactive procedure, is refused by the service; nothing is booked unless every check passed, and a booking is a new appointment of the acting patient at the requested start |
| AgentTools.CleanCpf | src/modules/ai/agent.service.ts:543 | a truthy CPF becomes its digits; otherwise it is absent |
| AgentTools.NotHeldByOther | src/modules/ai/agent.service.ts:546-551 | a CPF the lookup finds for no other patient violates no unique constraint on update |
| AgentTools.RegisterPatientTool | src/modules/ai/agent.service.ts:533-586 | needs a name or a CPF; refuses a CPF held by another patient with no change; with `createNew` adds a patient on the same phone and switches the conversation to it; otherwise updates only the supplied fields |
| AgentTools.RegisterNewPatient | src/modules/ai/agent.service.ts:554-573 | the new patient gets the current patient's phone (or '' if that patient is missing), and the conversation and the reported switch point at it |
| AgentTools.ActiveHours | src/modules/ai/agent.service.ts:295-301 | exactly the active working-hours entries |
| AgentTools.DaysToScan | src/modules/ai/agent.service.ts:281-342 | 14 days by default, never more than 30 |
| AgentTools.GetAvailableSlotsTool | src/modules/ai/agent.service.ts:280-356 | unknown dentist or procedure, malformed target date, closed weekday and failed query are reported; with a non-empty target date the slots of that day, otherwise (absent or empty) the days with slots over the scanned period |
| AgentTools.EscalateToHumanTool | src/modules/ai/agent.service.ts:514-531 | appends a pending escalation and marks the conversation escalated |
| AgentTools.ExecuteToolCall | src/modules/ai/agent.service.ts:225-598 | an unknown name changes nothing and is reported; only `create_appointment` books, adding one new appointment of the acting patient; outcomes other than a booking, cancellation or move leave the appointments alone; only `register_patient` with `createNew` switches the patient, and then the conversation's patient is the new one, otherwise it is unchanged; only `escalate_to_human` adds an escalation; messages, dentists and procedures are untouched |
| AgentTools.RunTool | src/modules/ai/agent.service.ts:233-591 | the listings only read; the same per-tool guarantees on appointments, escalations and the conversation's patient as the dispatcher |
| AgentTools.RunQueryTool | src/modules/ai/agent.service.ts:234-512 | listings are reported; `get_patient_appointments` gives the patient's upcoming appointments |
| AgentTools.RunAppointmentTool | src/modules/ai/agent.service.ts:358-476 | only `create_appointment` books, adding one new appointment of the acting patient; a refusal or failure changes no appointment; a cancellation reported done deleted exactly the patient's appointment; a reschedule reported done stored the moved appointment, at the requested start (now when absent), for the same patient |
| AgentTools.CancelAppointmentTool | src/modules/ai/agent.service.ts:440-447 | a missing id fails; an unknown or foreign appointment is refused and nothing changes; a cancellation reported done deleted exactly that appointment of the patient, which was not completed |
| AgentTools.RescheduleAppointmentTool | src/modules/ai/agent.service.ts:449-476 | a missing id fails; an unknown, foreign or past-start request is refused and nothing changes; a move reported done stored the patient's appointment at the requested start (now when absent) in place of the old one |
| AgentTools.RunPatientTool | src/modules/ai/agent.service.ts:514-586 | only the hand-over adds an escalation; only `register_patient` switches the patient, and the conversation then belongs to the new patient; otherwise its patient is unchanged |
| Agent.Rounds | src/modules/ai/agent.service.ts:116-144 | at least one and at most ten model calls |
| Agent.Reply | src/modules/ai/agent.service.ts:183-207 | never empty: the final text if non-empty, else the confirmation of a tracked booking, else the apology |
| Agent.Latest | src/modules/ai/agent.service.ts:47 | the conversation with the latest message among those given |
| Agent.ActiveConversation | src/modules/ai/agent.service.ts:35-48 | none exactly when the phone has no active conversation; otherwise an active one with the latest message |
| Agent.StartConversation | src/modules/ai/agent.service.ts:53-61 | a new active conversation under a fresh id |
| Agent.RecordInbound | src/modules/ai/agent.service.ts:63-77 | the inbound message is appended and the conversation's `lastMessageAt` updated |
| Agent.OpenTurn | src/modules/ai/agent.service.ts:34-77 | the conversation is chosen as in `ChooseConversation` (latest active one, else a new one for the primary or a new patient); one inbound message is stored and the conversation marked active now |
| Agent.ChooseConversation | src/modules/ai/agent.service.ts:34-61 | the phone's latest active conversation and its patient, with nothing changed; or, when none is active, a new conversation for the phone's primary patient, or for a newly created patient when the phone is unknown |
| Agent.NewConversation | src/modules/ai/agent.service.ts:51-61 | a new conversation for the patient `findOrCreatePatient` returns: the phone's existing primary patient, or a patient that did not exist before |
| Agent.AppendExecuted | src/modules/ai/agent.service.ts:147-165 | a call run for the acting patient extends the trace consistently |
| Agent.RunOne | src/modules/ai/agent.service.ts:147-165 | one tool call, which stores no message; a booking comes only from `create_appointment` and adds one new appointment of the acting patient; only a booking, cancellation or move changes the appointments; the conversation's patient changes exactly on a `register_patient` switch |
| Agent.RunToolCalls | src/modules/ai/agent.service.ts:147-180 | the calls run in order, each for the patient acting at that point; every booking of the trace belongs to the patient it ran for and stays stored unless a later call cancelled or moved an appointment; the conversation belongs to the acting patient |
| Agent.BookingsStoredStep | src/modules/ai/agent.service.ts:158-173 | a call that books one new appointment of the acting patient, cancels or moves one, or leaves the appointments alone keeps every earlier booking of the turn stored |
| Agent.LastBookingRan | src/modules/ai/agent.service.ts:167-173 | the tracked booking is the outcome of one of the turn's calls |
| Agent.ConfirmedBookingOwned | src/modules/ai/agent.service.ts:167-173 | when every booking of the turn belongs to the patient it ran for, so does the booking the turn confirms |
| Agent.Converse | src/modules/ai/agent.service.ts:109-181 | the model calls are `ModelCalls(script)`, the final text is `FinalText`, and the calls run are exactly those requested, in order; the bookings of the turn stay stored and the conversation ends on the acting patient |
| Agent.TrackBooking | src/modules/ai/agent.service.ts:167-173 | the tracked booking is the last successful `create_appointment` |
| Agent.Respond | src/modules/ai/agent.service.ts:183-217 | the reply is `Reply(...)` and non-empty, and exactly one outbound message holding it is stored |
| Agent.ProcessMessage | src/modules/ai/agent.service.ts:30-220 | the turn runs in the phone's latest active conversation, or a new one for its primary or a new patient; exactly one inbound then one outbound message; at most ten model calls; every requested tool call runs, in order, for the acting patient; each booking is stored for the patient it ran for; the confirmed booking is the outcome of a call of the turn and belongs to the patient that call ran for; the conversation ends on the acting patient; a non-empty reply |
| Agent.FailureEndsTurn | src/modules/ai/agent.service.ts:129-132 | a failed model call ends the loop at once, with no final text |
| Agent.EndlessToolsCutOff | src/modules/ai/agent.service.ts:116-117 | a model that keeps asking for tools is cut off after ten calls, with no final text |
| Agent.BookingSurvivesFailures | src/modules/ai/agent.service.ts:168-173 | later calls that book nothing, such as a failed `create_appointment`, leave the tracked booking |
| Agent.SwitchSticks | src/modules/ai/agent.service.ts:159-165 | after a switch every later call runs for the new patient until another switch |
| Webhook.ExtractMessageText | src/modules/whatsapp/webhook.handler.ts:170-181 | the first non-empty of the plain text, extended text and image caption, else none |
| Webhook.PhoneOf | src/modules/whatsapp/webhook.handler.ts:65 | the JID up to its first '@', or the whole JID without one |
| Webhook.AddNineIdempotent | src/modules/whatsapp/webhook.handler.ts:213-214 | inserting the '9' twice is inserting it once |
| Webhook.PhonesMatchIff | src/modules/whatsapp/webhook.handler.ts:211-216 | two numbers match exactly when they agree once the '9' is inserted |
| Webhook.PhonesMatchEquivalence | src/modules/whatsapp/webhook.handler.ts:211-216 | matching is reflexive, symmetric and transitive |
| Webhook.OldAndNewFormsMatch | src/modules/whatsapp/webhook.handler.ts:213-215 | a 12-digit `55…` number matches its 13-digit form with '9' after the area code |
| Webhook.OtherNumbersMatchExactly | src/modules/whatsapp/webhook.handler.ts:212-215 | other numbers match only themselves |
| Webhook.ReplyParts | src/modules/whatsapp/webhook.handler.ts:139 | every part is non-empty, trimmed and free of `[PAUSA]` |
| Webhook.KeptPiecesClean | src/modules/whatsapp/webhook.handler.ts:139 | the kept trimmed pieces are clean |
| Webhook.TrimEach | src/modules/whatsapp/webhook.handler.ts:139 | each piece trimmed, in order |
| Webhook.TrimKeepsOccurrences | src/modules/whatsapp/webhook.handler.ts:139 | trimming creates no occurrence of the marker |
| Webhook.UnmarkedReplyIsOnePart | src/modules/whatsapp/webhook.handler.ts:139 | a reply without the marker is sent whole, trimmed |
| Webhook.IntakeGate.constructor | src/modules/whatsapp/webhook.handler.ts:10-17 | no remembered ids and no queues |
| Webhook.IntakeGate.HandleWebhook | src/modules/whatsapp/webhook.handler.ts:42-130 | filtered events change nothing; a remembered id is a duplicate that changes nothing; a new id is remembered for five minutes before the text is read; a message without text gets the text-only notice, then an operator's message goes to the operator, then an escalated phone is held for the human; a text is queued exactly when none of these apply, appended to the phone's texts in arrival order with the timer reset; nothing else touches the queues |
| Webhook.IntakeGate.Fire | src/modules/whatsapp/webhook.handler.ts:122-127 | the phone's queue is removed and its texts, joined with '\n', form one non-empty turn |
| Webhook.IntakeGate.Forget | src/modules/whatsapp/webhook.handler.ts:62 | exactly the ids whose five minutes are up are forgotten |
| Webhook.JoinNonEmpty | src/modules/whatsapp/webhook.handler.ts:124 | joined texts whose first is not empty are not empty |
| Webhook.ProcessAndRespond | src/modules/whatsapp/webhook.handler.ts:132-146 | one agent turn on the collected text; the parts sent are exactly `ReplyParts` of the non-empty reply |

## Left out

- Time zones, locales and display strings: dates and the "HH:mm" and day names are integer minutes. The text of a booking's start is a parameter (`startText`), and the day a `YYYY-MM-DD` text denotes is `Env.dayOf`.
- The language model, the calendar, the WhatsApp gateway and the clock are parameters. The model is a fixed script of answers, one environment serves a whole turn, and the free/busy answer is a function of the day.
- Building the prompt and the history (`buildSystemPrompt`, the last 20 messages) and the clinic settings: they only shape the model's input, which the script stands for.
- Tool arguments are already parsed into `Args`. Unparsable arguments are `NoArgs()`, and tool names are the `Tool` datatype.
- Agent.ProcessMessage: `detectStage` and `selectTools` are modelled standalone, because the loop passes the full tool list.
- `get_dentists`, `get_procedures` and `search_faq` are reported as `Listed(tool)` without their contents: those are read-only queries of the administration tables.
- The `formatAppointmentForDisplay` summaries and the `summary` fields are display strings and are not modelled.
- `getAppointmentsByPatient` and `updateAppointmentStatus` are not modelled, because no modelled operation calls them.
- AgentTools.CreateAppointmentTool: an absent `startTime` is read as the single clock reading `now`, so it is never before `now`; the source's two separate `dayjs()` readings can call it past by a few milliseconds, which the model does not capture.
- AgentTools.RescheduleAppointmentTool: an absent `newStartTime` is likewise read as `now`, where the service's later clock reading may refuse it as past.
- AppointmentsService.ScheduleAppointment: requires the patient to exist. It is reached only after the registration check, which fails for a missing patient.
- Store: the `RESCHEDULED` status exists but no operation sets it. A start equal to now is accepted, as `isBefore` is strict.
- Ties in `orderBy` are broken by id.
- Reminders.RunReminderJobs: the four sub-tasks of `Promise.allSettled` run one after the other, completion first. The model does not capture interleaving.
- Reminders: the notification texts and sends are I/O; `delivered` stands for the send and the following `markReminderSent*` write both succeeding. A flag write that throws after a successful send is not modelled; in the source the next run would send that notice again, so "at most once" holds only while flag writes succeed.
- Webhook: timers are explicit `Fire` and `Forget` events, and no two turns for one phone run concurrently.
- Webhook: the typing delays and the sending of each part are I/O.
- Webhook: `notifyAttendant` and the operator command bot (`handleAdminCommand`) are out of scope; the gate only reports `ToOperator`.
- Webhook: the apology `processAndRespond` sends when the agent throws is not modelled, because the modelled agent does not throw.
- Webhook: messages without an id share the dedupe key `''`, as in the source.
- Text.ToLower covers ASCII and Latin-1 letters only.
- Agent.Converse: the booking is tracked over the finished trace, which gives the same result as the source's tracking inside the loop (`TrackBooking`).
