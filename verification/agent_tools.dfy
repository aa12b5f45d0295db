/** The tool side of the assistant: each function call the language model
    asks for is dispatched by name to the booking services, and its outcome
    is handed back to the model. Everything the services cannot decide for
    themselves (the current time, the calendar's answers, the date parser)
    comes in as an `Env`. */
module AgentTools {
  import opened Common
  import opened Text
  import opened Store
  import opened Calendar
  import opened Patients
  import opened AppointmentsService
  import AppointmentsRepository
  import Tools
  import Cpf

  /** The arguments of a call, as far as any tool reads them; arguments that
      do not parse leave every field absent (`NoArgs`). */
  datatype Args = Args(
    dentistId: Option<Id>,
    procedureId: Option<Id>,
    start: Option<int>,
    notes: Option<string>,
    daysAhead: Option<int>,
    targetDate: Option<string>,
    appointmentId: Option<Id>,
    newStart: Option<int>,
    reason: Option<string>,
    name: Option<string>,
    cpf: Option<string>,
    createNew: bool)

  /** What `JSON.parse` failing leaves: `{}`. */
  function NoArgs(): Args {
    Args(None, None, None, None, None, None, None, None, None, None, None, false)
  }

  /** The surroundings of a call: the current time and day, the free/busy
      answer for each day, the calendar's answers to a patch and an insert,
      and the day number a `YYYY-MM-DD` text denotes. */
  datatype Env = Env(
    now: int,
    today: int,
    freeBusy: int -> Option<seq<Interval>>,
    patchOk: bool,
    createResponse: Option<string>,
    dayOf: string -> int)

  /** What the confirmation of a booking shows. */
  datatype Booking = Booking(
    appointment: Appointment,
    patientName: string,
    patientCpf: string,
    dentistName: string,
    procedureName: string)

  /** The result handed back to the model. */
  datatype Outcome =
    | PastStart                                          // create_appointment in the past
    | RegistrationRequired(missingName: bool, missingCpf: bool)
    | Booked(booking: Booking)
    | Refused(error: BookingError)                       // refused by the appointment service
    | CancelledOk
    | RescheduledOk(appointment: Appointment)
    | Upcoming(appointments: seq<Appointment>)
    | NotFound                                           // dentist or procedure missing
    | BadTargetDate(text: string)
    | ClosedThatDay
    | SlotsOfDay(day: int, slots: seq<Slot>)
    | DaysWithSlots(days: seq<DaySlots>)
    | EscalationRecorded
    | NameOrCpfRequired
    | CpfTaken
    | Registered(name: Option<string>, cpf: Option<string>, switchedTo: Option<Id>)
    | Listed(tool: Tools.Tool)                           // read-only listings
    | UnknownTool(toolName: string)
    | Failed(failedTool: string)                             // an exception caught by the dispatcher

  /** What an outcome did to the appointments: a booking added one new
      appointment of the acting patient, and anything but a booking, a
      cancellation or a move left them alone. */
  predicate AppointmentsEffect(o: Outcome, patientId: Id, before: map<Id, Appointment>, after: map<Id, Appointment>) {
    && (!o.Booked? && !o.CancelledOk? && !o.RescheduledOk? ==> after == before)
    && (o.Booked? ==>
          var a := o.booking.appointment;
          a.patientId == patientId && a.id !in before && after == before[a.id := a])
  }

  /** The patient of the conversation after an outcome: the new patient of
      a `register_patient` switch, otherwise the one it had. */
  function PatientAfter(o: Outcome, before: Id): Id {
    if o.Registered? && o.switchedTo.Some? then o.switchedTo.value else before
  }

  // ---------------------------------------------------------- create_appointment

  /** `create_appointment`: a start before now is refused before anything
      else (an absent start is read by `dayjs` as the current instant); then
      a patient without a name or a CPF must register first (a missing
      patient row makes the check itself throw); only then is the
      appointment service asked to book, which refuses a missing or inactive
      dentist before it looks the procedure up. An absent dentist or
      procedure id makes that lookup throw. */
  method CreateAppointmentTool(db: Database, args: Args, patientId: Id, env: Env)
    returns (o: Outcome, calls: seq<CalendarCall>)
    requires db.Valid()
    modifies db`appointments, db`nextId
    ensures db.Valid()
    ensures o.Failed? || o.PastStart? || o.RegistrationRequired? || o.Refused? || o.Booked?
    ensures !o.Booked? ==> db.appointments == old(db.appointments) && db.nextId == old(db.nextId) && calls == []
    ensures args.start.GetOr(env.now) < env.now ==> o == PastStart
    ensures args.start.GetOr(env.now) >= env.now && patientId in db.patients
            && (!Truthy(db.patients[patientId].name) || !Truthy(db.patients[patientId].cpf)) ==>
      o == RegistrationRequired(!Truthy(db.patients[patientId].name), !Truthy(db.patients[patientId].cpf))
    // the service's refusals, dentist first
    ensures args.start.GetOr(env.now) >= env.now && patientId in db.patients
            && Truthy(db.patients[patientId].name) && Truthy(db.patients[patientId].cpf)
            && args.dentistId.Some? && !DentistAvailable(db.dentists, args.dentistId.value) ==>
      o == Refused(DentistUnavailable)
    ensures args.start.GetOr(env.now) >= env.now && patientId in db.patients
            && Truthy(db.patients[patientId].name) && Truthy(db.patients[patientId].cpf)
            && args.dentistId.Some? && DentistAvailable(db.dentists, args.dentistId.value)
            && args.procedureId.Some? && !ProcedureAvailable(db.procedures, args.procedureId.value) ==>
      o == Refused(ProcedureUnavailable)
    ensures o.Booked? ==>
      && args.start.GetOr(env.now) >= env.now
      && patientId in db.patients
      && var p := db.patients[patientId];
      && Truthy(p.name) && Truthy(p.cpf)
      && var a := o.booking.appointment;
      && a.id == old(db.nextId) && a.id !in old(db.appointments)
      && a.patientId == patientId && a.startTime == args.start.GetOr(env.now)
      && a.status == Scheduled && Some(a.dentistId) == args.dentistId && Some(a.procedureId) == args.procedureId
      && db.appointments == old(db.appointments)[a.id := a]
      && a.dentistId in db.dentists && a.procedureId in db.procedures
      && o.booking == Booking(a, p.name.value, Cpf.FormatCpf(p.cpf.value),
                              db.dentists[a.dentistId].name, db.procedures[a.procedureId].name)
  {
    calls := [];
    var start := args.start.GetOr(env.now);
    if start < env.now {
      return PastStart, calls;
    }
    if patientId !in db.patients {
      return Failed("create_appointment"), calls;
    }
    var patient := db.patients[patientId];
    if !Truthy(patient.name) || !Truthy(patient.cpf) {
      return RegistrationRequired(!Truthy(patient.name), !Truthy(patient.cpf)), calls;
    }
    if args.dentistId.None? {
      return Failed("create_appointment"), calls;
    }
    if !DentistAvailable(db.dentists, args.dentistId.value) {
      return Refused(DentistUnavailable), calls;
    }
    if args.procedureId.None? {
      return Failed("create_appointment"), calls;
    }
    var r;
    r, calls := ScheduleAppointment(db, patientId, args.dentistId.value, args.procedureId.value,
                                    start, args.notes, env.now, env.createResponse);
    if r.Err? {
      return Refused(r.error), calls;
    }
    var a := r.value;
    o := Booked(Booking(a, patient.name.value, Cpf.FormatCpf(patient.cpf.value),
                        db.dentists[a.dentistId].name, db.procedures[a.procedureId].name));
  }

  // ------------------------------------------------------------ register_patient

  /** `cpf ? cpf.replace(/\D/g, '') : undefined`. */
  function CleanCpf(cpf: Option<string>): (r: Option<string>)
    ensures r.Some? <==> Truthy(cpf)
    ensures r.Some? ==> r.value == OnlyDigits(cpf.value)
  {
    if Truthy(cpf) then Some(OnlyDigits(cpf.value)) else None
  }

  /** The CPF is already held by a patient other than `patientId`. */
  predicate HeldByOther(patients: map<Id, Patient>, cpf: string, patientId: Id) {
    var existing := FindPatientByCpf(patients, cpf);
    existing.Some? && existing.value.id != patientId
  }

  /** Under the unique constraint, a CPF the lookup does not find with
      another patient is held by no other patient. */
  lemma NotHeldByOther(patients: map<Id, Patient>, cpf: string, patientId: Id)
    requires forall k :: k in patients ==> patients[k].id == k
    requires UniqueCpfs(patients) && AllDigits(cpf)
    requires !HeldByOther(patients, cpf, patientId)
    ensures !CpfTakenBy(patients, cpf, Some(patientId))
  {
    OnlyDigitsKeepsDigits(cpf);
  }

  /** `register_patient`: needs a name or a CPF; refuses a CPF held by
      another patient; with `createNew` adds a new patient on the current
      patient's phone and switches the conversation, and every later tool
      call of the turn, to it; otherwise updates the supplied fields of the
      current patient. A database error is caught as a failure. */
  method RegisterPatientTool(db: Database, args: Args, patientId: Id, conversationId: Id, now: int)
    returns (o: Outcome)
    requires db.Valid() && conversationId in db.conversations
    modifies db`patients, db`nextId, db`conversations
    ensures db.Valid() && conversationId in db.conversations
    ensures db.conversations.Keys == old(db.conversations.Keys)
    ensures o.NameOrCpfRequired? || o.CpfTaken? || o.Failed? || o.Registered?
    ensures !Truthy(args.name) && !Truthy(args.cpf) ==> o == NameOrCpfRequired
    ensures (Truthy(args.name) || Truthy(args.cpf)) && Truthy(CleanCpf(args.cpf))
            && HeldByOther(old(db.patients), CleanCpf(args.cpf).value, patientId) ==>
      o == CpfTaken
    ensures !o.Registered? ==>
      db.patients == old(db.patients) && db.nextId == old(db.nextId) && db.conversations == old(db.conversations)
    ensures o.Registered? ==> Truthy(args.name) || Truthy(args.cpf)
    ensures o.Registered? && o.switchedTo.Some? ==> args.createNew && o.switchedTo.value in db.patients
    // a new patient on the same phone, now the conversation's patient
    ensures o.Registered? && args.createNew ==>
      && var phone := if patientId in old(db.patients) then old(db.patients)[patientId].phone else "";
      && var q := Patient(old(db.nextId), phone, StoredName(args.name), StoredCpf(CleanCpf(args.cpf)), None, now);
      && db.patients == old(db.patients)[q.id := q]
      && db.conversations == old(db.conversations)[conversationId := old(db.conversations)[conversationId].(patientId := q.id)]
      && o.switchedTo == Some(q.id)
    // only the supplied fields of the current patient
    ensures o.Registered? && !args.createNew ==>
      && patientId in old(db.patients)
      && var cpf := if Truthy(CleanCpf(args.cpf)) then CleanCpf(args.cpf) else None;
      && var name := if Truthy(args.name) then args.name else None;
      && db.patients == old(db.patients)[patientId := UpdatedPatient(old(db.patients)[patientId], name, cpf, None)]
      && db.conversations == old(db.conversations)
      && o.switchedTo == None
    ensures !args.createNew && patientId in old(db.patients) && (Truthy(args.name) || Truthy(args.cpf))
            && !(Truthy(CleanCpf(args.cpf)) && HeldByOther(old(db.patients), CleanCpf(args.cpf).value, patientId)) ==>
      o.Registered?
  {
    if !Truthy(args.name) && !Truthy(args.cpf) {
      return NameOrCpfRequired;
    }
    var cleanCpf := CleanCpf(args.cpf);
    if Truthy(cleanCpf) && HeldByOther(db.patients, cleanCpf.value, patientId) {
      return CpfTaken;
    }
    if args.createNew {
      o := RegisterNewPatient(db, args.name, cleanCpf, patientId, conversationId, now);
      return;
    }
    var name := if Truthy(args.name) then args.name else None;
    var cpf := if Truthy(cleanCpf) then cleanCpf else None;
    if cpf.Some? {
      NotHeldByOther(db.patients, cpf.value, patientId);
    }
    var updated := UpdatePatientById(db, patientId, name, cpf, None);
    if updated.Err? {
      return Failed("register_patient");
    }
    return Registered(name, cpf, None);
  }

  /** `register_patient` with `createNew`: a new patient on the current
      patient's phone (none when the current patient is missing), to whom the
      conversation is switched. */
  method RegisterNewPatient(db: Database, name: Option<string>, cleanCpf: Option<string>, patientId: Id,
                            conversationId: Id, now: int)
    returns (o: Outcome)
    requires db.Valid() && conversationId in db.conversations
    modifies db`patients, db`nextId, db`conversations
    ensures db.Valid() && conversationId in db.conversations
    ensures o.Failed? || o.Registered?
    ensures o.Failed? ==>
      db.patients == old(db.patients) && db.nextId == old(db.nextId) && db.conversations == old(db.conversations)
    ensures o.Registered? ==>
      && var phone := if patientId in old(db.patients) then old(db.patients)[patientId].phone else "";
      && var q := Patient(old(db.nextId), phone, StoredName(name), StoredCpf(cleanCpf), None, now);
      && db.patients == old(db.patients)[q.id := q]
      && db.conversations == old(db.conversations)[conversationId := old(db.conversations)[conversationId].(patientId := q.id)]
      && o.switchedTo == Some(q.id) && q.id in db.patients
  {
    var phone := if patientId in db.patients then db.patients[patientId].phone else "";
    var created := CreatePatientForPhone(db, phone, name, cleanCpf, now);
    if created.Err? {
      return Failed("register_patient");
    }
    var q := created.value;
    db.SetConversationPatient(conversationId, q.id);
    return Registered(q.name, cleanCpf, Some(q.id));
  }

  // --------------------------------------------------------- get_available_slots

  /** `/^\d{4}-\d{2}-\d{2}$/`: a `YYYY-MM-DD` text. */
  predicate WellFormedDate(t: string) {
    && |t| == 10
    && AllDigits(t[..4]) && t[4] == '-' && AllDigits(t[5..7]) && t[7] == '-' && AllDigits(t[8..])
  }

  /** The dentist's active working-hours entries, in their stored order. */
  function ActiveHours(hours: seq<WorkingHours>): (r: seq<DayHours>)
    ensures |r| <= |hours|
    ensures forall h :: h in r <==> exists w :: w in hours && w.active && h == DayHours(w.dayOfWeek, w.startTime, w.endTime)
  {
    if hours == [] then []
    else
      var w := hours[0];
      var rest := ActiveHours(hours[1..]);
      assert forall v :: v in hours <==> v == w || v in hours[1..];
      if w.active then [DayHours(w.dayOfWeek, w.startTime, w.endTime)] + rest else rest
  }

  /** `daysAhead = 14` by default, and never more than 30 days. */
  function DaysToScan(daysAhead: Option<int>): (n: int)
    ensures n <= 30
    ensures daysAhead.None? ==> n == 14
  {
    var d := daysAhead.GetOr(14);
    if d < 30 then d else 30
  }

  /** `get_available_slots`: an unknown dentist or procedure is reported;
      with a non-empty target day, a malformed date text is refused, a weekday without
      active hours is reported closed, and otherwise that day's free slots
      are listed; without one, the days with free slots in the scanned
      period are listed. A failed free/busy query throws and is caught as a
      failure. */
  method GetAvailableSlotsTool(db: Database, args: Args, env: Env) returns (o: Outcome)
    ensures o.Failed? || o.NotFound? || o.BadTargetDate? || o.ClosedThatDay? || o.SlotsOfDay? || o.DaysWithSlots?
    ensures args.dentistId.None? || args.procedureId.None? ==> o == Failed("get_available_slots")
    ensures args.dentistId.Some? && args.procedureId.Some?
            && (args.dentistId.value !in db.dentists || args.procedureId.value !in db.procedures) ==>
      o == NotFound
    ensures args.dentistId.Some? && args.procedureId.Some?
            && args.dentistId.value in db.dentists && args.procedureId.value in db.procedures ==>
      && var hours := ActiveHours(db.dentists[args.dentistId.value].workingHours);
      && var dur := db.procedures[args.procedureId.value].durationMinutes;
      // a chosen day: that day's slots
      && (Truthy(args.targetDate) ==>
            var t := args.targetDate.value;
            if !WellFormedDate(t) then o == BadTargetDate(t)
            else
              var day := env.dayOf(t);
              var wh := FindHours(hours, Weekday(day));
              if wh.None? then o == ClosedThatDay
              else if env.freeBusy(day).None? then o == Failed("get_available_slots")
              else o == SlotsOfDay(day, AvailableSlots(DayWindow(day, wh.value), dur, env.now, env.freeBusy(day).value)))
      // no day chosen yet: the days that have slots
      && (!Truthy(args.targetDate) ==>
            var scan := ScanDays(dur, hours, DaysToScan(args.daysAhead), env.today, env.now, env.freeBusy, 0, []);
            if scan.Err? then o == Failed("get_available_slots") else o == DaysWithSlots(scan.value))
  {
    if args.dentistId.None? || args.procedureId.None? {
      return Failed("get_available_slots");
    }
    if args.dentistId.value !in db.dentists || args.procedureId.value !in db.procedures {
      return NotFound;
    }
    var dentist := db.dentists[args.dentistId.value];
    var procedure := db.procedures[args.procedureId.value];
    var hours := ActiveHours(dentist.workingHours);
    if Truthy(args.targetDate) {
      var t := args.targetDate.value;
      if !WellFormedDate(t) {
        return BadTargetDate(t);
      }
      var day := env.dayOf(t);
      var wh := FindHours(hours, Weekday(day));
      if wh.None? {
        return ClosedThatDay;
      }
      var slots, _ := GetAvailableSlots(Some(DayWindow(day, wh.value)), procedure.durationMinutes, env.now, env.freeBusy(day));
      if slots.Err? {
        return Failed("get_available_slots");
      }
      return SlotsOfDay(day, slots.value);
    }
    var days := GetAvailableSlotsForDays(procedure.durationMinutes, hours, DaysToScan(args.daysAhead),
                                         env.today, env.now, env.freeBusy);
    if days.Err? {
      return Failed("get_available_slots");
    }
    return DaysWithSlots(days.value);
  }

  // ---------------------------------------------------------- escalate_to_human

  /** `escalate_to_human`: records a pending hand-over for the conversation
      and marks the conversation escalated. */
  method EscalateToHumanTool(db: Database, args: Args, conversationId: Id) returns (o: Outcome)
    requires db.Valid() && conversationId in db.conversations
    modifies db`escalations, db`conversations
    ensures db.Valid()
    ensures o == EscalationRecorded
    ensures db.escalations == old(db.escalations) + [Escalation(conversationId, args.reason, Pending)]
    ensures db.conversations == old(db.conversations)[conversationId := old(db.conversations)[conversationId].(status := Escalated)]
  {
    db.escalations := db.escalations + [Escalation(conversationId, args.reason, Pending)];
    db.conversations := db.conversations[conversationId := db.conversations[conversationId].(status := Escalated)];
    return EscalationRecorded;
  }

  // ------------------------------------------------------------------ dispatch

  /** `executeToolCall`: dispatches on the tool's name. An unknown name is
      reported without touching anything. */
  method ExecuteToolCall(db: Database, name: string, args: Args, patientId: Id, conversationId: Id, env: Env)
    returns (o: Outcome, calls: seq<CalendarCall>)
    requires db.Valid() && conversationId in db.conversations
    modifies db
    ensures db.Valid() && conversationId in db.conversations
    ensures db.messages == old(db.messages)
    ensures db.dentists == old(db.dentists) && db.procedures == old(db.procedures)
    ensures Tools.ToolNamed(name).None? ==> o == UnknownTool(name) && unchanged(db)
    ensures o.Booked? ==> Tools.ToolNamed(name) == Some(Tools.CreateAppointment)
    ensures o.Registered? && o.switchedTo.Some? ==>
      Tools.ToolNamed(name) == Some(Tools.RegisterPatient) && args.createNew && o.switchedTo.value in db.patients
    ensures Tools.ToolNamed(name) != Some(Tools.EscalateToHuman) ==> db.escalations == old(db.escalations)
    ensures AppointmentsEffect(o, patientId, old(db.appointments), db.appointments)
    ensures db.conversations[conversationId].patientId == PatientAfter(o, old(db.conversations[conversationId].patientId))
  {
    var tool := Tools.ToolNamed(name);
    if tool.None? {
      return UnknownTool(name), [];
    }
    o, calls := RunTool(db, tool.value, args, patientId, conversationId, env);
  }

  /** The switch of `executeToolCall` over the known tools. Listing tools
      only read; a missing argument makes the database lookup throw, which
      is caught as a failure of that tool. */
  method RunTool(db: Database, tool: Tools.Tool, args: Args, patientId: Id, conversationId: Id, env: Env)
    returns (o: Outcome, calls: seq<CalendarCall>)
    requires db.Valid() && conversationId in db.conversations
    modifies db
    ensures db.Valid() && conversationId in db.conversations
    ensures db.messages == old(db.messages)
    ensures db.dentists == old(db.dentists) && db.procedures == old(db.procedures)
    ensures tool in {Tools.GetDentists, Tools.GetProcedures, Tools.SearchFaq} ==> o == Listed(tool) && unchanged(db)
    ensures o.Booked? ==> tool == Tools.CreateAppointment
    ensures o.Registered? && o.switchedTo.Some? ==>
      tool == Tools.RegisterPatient && args.createNew && o.switchedTo.value in db.patients
    ensures tool != Tools.EscalateToHuman ==> db.escalations == old(db.escalations)
    ensures AppointmentsEffect(o, patientId, old(db.appointments), db.appointments)
    ensures db.conversations[conversationId].patientId == PatientAfter(o, old(db.conversations[conversationId].patientId))
  {
    match tool
    case GetDentists | GetProcedures | SearchFaq | GetAvailableSlots | GetPatientAppointments =>
      o := RunQueryTool(db, tool, args, patientId, env);
      calls := [];
    case CreateAppointment | CancelAppointment | RescheduleAppointment =>
      o, calls := RunAppointmentTool(db, tool, args, patientId, env);
    case EscalateToHuman | RegisterPatient =>
      o := RunPatientTool(db, tool, args, patientId, conversationId, env);
      calls := [];
  }

  /** The tools that only read: the listings, the free slots and the
      patient's upcoming appointments. */
  method RunQueryTool(db: Database, tool: Tools.Tool, args: Args, patientId: Id, env: Env) returns (o: Outcome)
    requires tool in {Tools.GetDentists, Tools.GetProcedures, Tools.SearchFaq, Tools.GetAvailableSlots,
                      Tools.GetPatientAppointments}
    ensures tool in {Tools.GetDentists, Tools.GetProcedures, Tools.SearchFaq} ==> o == Listed(tool)
    ensures tool == Tools.GetPatientAppointments ==>
      o == Upcoming(AppointmentsRepository.GetUpcomingAppointmentsByPatient(db.appointments, patientId, env.now))
    ensures !o.Booked? && !o.Registered?
  {
    match tool
    case GetAvailableSlots =>
      o := GetAvailableSlotsTool(db, args, env);
    case GetPatientAppointments =>
      o := Upcoming(AppointmentsRepository.GetUpcomingAppointmentsByPatient(db.appointments, patientId, env.now));
    case _ =>
      o := Listed(tool);
  }

  /** The tools that book, cancel or move an appointment. A missing
      appointment id makes the lookup throw, which is caught as a failure of
      that tool; a missing new start is read by `dayjs` as the current
      instant. */
  method RunAppointmentTool(db: Database, tool: Tools.Tool, args: Args, patientId: Id, env: Env)
    returns (o: Outcome, calls: seq<CalendarCall>)
    requires db.Valid()
    requires tool in {Tools.CreateAppointment, Tools.CancelAppointment, Tools.RescheduleAppointment}
    modifies db`appointments, db`nextId
    ensures db.Valid()
    ensures unchanged(db`dentists, db`procedures, db`patients, db`conversations, db`messages, db`escalations)
    ensures o.Booked? ==> tool == Tools.CreateAppointment
    ensures !o.Registered?
    ensures !o.Booked? && !o.CancelledOk? && !o.RescheduledOk? ==> db.nextId == old(db.nextId) && calls == []
    ensures AppointmentsEffect(o, patientId, old(db.appointments), db.appointments)
    ensures o == CancelledOk ==>
      && tool == Tools.CancelAppointment && args.appointmentId.Some?
      && var id := args.appointmentId.value;
      && id in old(db.appointments) && old(db.appointments)[id].patientId == patientId
      && db.appointments == old(db.appointments) - {id}
    ensures o.RescheduledOk? ==>
      && tool == Tools.RescheduleAppointment && args.appointmentId.Some?
      && o.appointment.startTime == args.newStart.GetOr(env.now) && o.appointment.patientId == patientId
      && db.appointments == old(db.appointments)[args.appointmentId.value := o.appointment]
  {
    match tool
    case CreateAppointment =>
      o, calls := CreateAppointmentTool(db, args, patientId, env);
    case CancelAppointment =>
      o, calls := CancelAppointmentTool(db, args, patientId);
    case RescheduleAppointment =>
      o, calls := RescheduleAppointmentTool(db, args, patientId, env);
  }

  /** `cancel_appointment`: the service's answer, passed on. A missing
      appointment id makes the lookup throw. */
  method CancelAppointmentTool(db: Database, args: Args, patientId: Id)
    returns (o: Outcome, calls: seq<CalendarCall>)
    requires db.Valid()
    modifies db`appointments
    ensures db.Valid()
    ensures o.Failed? || o.Refused? || o == CancelledOk
    ensures args.appointmentId.None? ==> o == Failed("cancel_appointment")
    ensures args.appointmentId.Some? && args.appointmentId.value !in old(db.appointments) ==>
      o == Refused(AppointmentNotFound)
    ensures args.appointmentId.Some? && args.appointmentId.value in old(db.appointments)
            && old(db.appointments)[args.appointmentId.value].patientId != patientId ==>
      o == Refused(NotOwner)
    ensures o != CancelledOk ==> db.appointments == old(db.appointments) && calls == []
    ensures o == CancelledOk ==>
      && args.appointmentId.Some?
      && var id := args.appointmentId.value;
      && id in old(db.appointments) && old(db.appointments)[id].patientId == patientId
      && old(db.appointments)[id].status != Completed
      && db.appointments == old(db.appointments) - {id}
  {
    calls := [];
    if args.appointmentId.None? {
      return Failed("cancel_appointment"), calls;
    }
    var r;
    r, calls := AppointmentsService.CancelAppointment(db, args.appointmentId.value, patientId);
    o := if r.Ok? then CancelledOk else Refused(r.error);
  }

  /** `reschedule_appointment`: the service's answer, passed on. A missing
      appointment id makes the lookup throw; a missing new start is read by
      `dayjs` as the current instant. */
  method RescheduleAppointmentTool(db: Database, args: Args, patientId: Id, env: Env)
    returns (o: Outcome, calls: seq<CalendarCall>)
    requires db.Valid()
    modifies db`appointments
    ensures db.Valid()
    ensures o.Failed? || o.Refused? || o.RescheduledOk?
    ensures args.appointmentId.None? ==> o == Failed("reschedule_appointment")
    ensures args.appointmentId.Some? && args.appointmentId.value !in old(db.appointments) ==>
      o == Refused(AppointmentNotFound)
    ensures args.appointmentId.Some? && args.appointmentId.value in old(db.appointments)
            && old(db.appointments)[args.appointmentId.value].patientId != patientId ==>
      o == Refused(NotOwner)
    ensures args.appointmentId.Some? && args.appointmentId.value in old(db.appointments)
            && old(db.appointments)[args.appointmentId.value].patientId == patientId
            && old(db.appointments)[args.appointmentId.value].status !in {Cancelled, Completed}
            && args.newStart.GetOr(env.now) < env.now ==>
      o == Refused(StartInPast)
    ensures !o.RescheduledOk? ==> db.appointments == old(db.appointments) && calls == []
    ensures o.RescheduledOk? ==>
      && args.appointmentId.Some?
      && var id := args.appointmentId.value;
      && id in old(db.appointments) && old(db.appointments)[id].patientId == patientId
      && o.appointment.startTime == args.newStart.GetOr(env.now) && o.appointment.patientId == patientId
      && db.appointments == old(db.appointments)[id := o.appointment]
  {
    calls := [];
    if args.appointmentId.None? {
      return Failed("reschedule_appointment"), calls;
    }
    var r;
    r, calls := AppointmentsService.RescheduleAppointment(db, args.appointmentId.value, patientId, args.newStart.GetOr(env.now),
                                                          env.now, env.patchOk, env.createResponse);
    o := if r.Ok? then RescheduledOk(r.value) else Refused(r.error);
  }

  /** The tools that change the patient or the conversation: the hand-over
      and the registration. */
  method RunPatientTool(db: Database, tool: Tools.Tool, args: Args, patientId: Id, conversationId: Id, env: Env)
    returns (o: Outcome)
    requires db.Valid() && conversationId in db.conversations
    requires tool == Tools.EscalateToHuman || tool == Tools.RegisterPatient
    modifies db`escalations, db`conversations, db`patients, db`nextId
    ensures db.Valid() && conversationId in db.conversations
    ensures !o.Booked?
    ensures unchanged(db`dentists, db`procedures, db`appointments, db`messages)
    ensures o.Registered? && o.switchedTo.Some? ==>
      tool == Tools.RegisterPatient && args.createNew && o.switchedTo.value in db.patients
    ensures tool != Tools.EscalateToHuman ==> db.escalations == old(db.escalations)
    ensures db.conversations[conversationId].patientId == PatientAfter(o, old(db.conversations[conversationId].patientId))
  {
    if tool == Tools.EscalateToHuman {
      o := EscalateToHumanTool(db, args, conversationId);
    } else {
      o := RegisterPatientTool(db, args, patientId, conversationId, env.now);
    }
  }
}
