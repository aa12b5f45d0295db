/** The appointment service: booking, cancelling and rescheduling, each
    validated in a fixed order and kept in step with the dentist's calendar
    on a best-effort basis. The calendar's answers are parameters (`patchOk`,
    `createResponse`), and the requests sent to it are returned as `calls`. */
module AppointmentsService {
  import opened Common
  import opened Store
  import opened Calendar
  import opened AppointmentsRepository

  /** Why a booking operation was refused. */
  datatype BookingError =
    | DentistUnavailable      // dentist missing or inactive
    | ProcedureUnavailable    // procedure missing or inactive
    | StartInPast             // requested start before now
    | AppointmentNotFound
    | NotOwner                // appointment of another patient
    | AlreadyCompleted        // completed appointments cannot be cancelled
    | NotReschedulable        // cancelled or completed appointments cannot move

  /** The dentist exists and is active. */
  predicate DentistAvailable(dentists: map<Id, Dentist>, id: Id) {
    id in dentists && dentists[id].active
  }

  /** The procedure exists and is active. */
  predicate ProcedureAvailable(procedures: map<Id, Procedure>, id: Id) {
    id in procedures && procedures[id].active
  }

  /** `scheduleAppointment`: refuses a missing or inactive dentist, then a
      missing or inactive procedure, then a start before now; otherwise asks
      the calendar for an event (its failure only leaves the appointment
      without one) and stores a scheduled appointment lasting the
      procedure's duration. */
  method ScheduleAppointment(db: Database, patientId: Id, dentistId: Id, procedureId: Id,
                             start: int, notes: Option<string>, now: int, createResponse: Option<string>)
    returns (r: Result<Appointment, BookingError>, calls: seq<CalendarCall>)
    requires db.Valid() && patientId in db.patients
    modifies db`appointments, db`nextId
    ensures db.Valid()
    ensures !DentistAvailable(db.dentists, dentistId) ==> r == Err(DentistUnavailable)
    ensures DentistAvailable(db.dentists, dentistId) && !ProcedureAvailable(db.procedures, procedureId) ==>
      r == Err(ProcedureUnavailable)
    ensures DentistAvailable(db.dentists, dentistId) && ProcedureAvailable(db.procedures, procedureId) && start < now ==>
      r == Err(StartInPast)
    ensures r.Err? ==> db.appointments == old(db.appointments) && db.nextId == old(db.nextId) && calls == []
    ensures r.Ok? ==>
      && DentistAvailable(db.dentists, dentistId) && ProcedureAvailable(db.procedures, procedureId) && start >= now
      && var end := start + db.procedures[procedureId].durationMinutes;
      && r.value == Appointment(old(db.nextId), patientId, dentistId, procedureId, start, end,
                                Scheduled, EventIdOf(createResponse), false, false, false, notes)
      && db.appointments == old(db.appointments)[r.value.id := r.value]
      && calls == [CreateEvent(db.dentists[dentistId].calendarId, start, end)]
  {
    calls := [];
    if dentistId !in db.dentists || !db.dentists[dentistId].active {
      return Err(DentistUnavailable), calls;
    }
    var dentist := db.dentists[dentistId];
    if procedureId !in db.procedures || !db.procedures[procedureId].active {
      return Err(ProcedureUnavailable), calls;
    }
    var procedure := db.procedures[procedureId];
    var end := start + procedure.durationMinutes;
    if start < now {
      return Err(StartInPast), calls;
    }
    calls := [CreateEvent(dentist.calendarId, start, end)];
    var googleEventId := EventIdOf(createResponse);
    var a := CreateAppointment(db, patientId, dentistId, procedureId, start, end, googleEventId, notes);
    return Ok(a), calls;
  }

  /** `cancelAppointment`: refuses, in this order, a missing appointment,
      one of another patient and a completed one; otherwise deletes the
      calendar event when there is one and the dentist has a calendar, and
      removes the appointment row (it is not kept as cancelled). */
  method CancelAppointment(db: Database, appointmentId: Id, patientId: Id)
    returns (r: Result<(), BookingError>, calls: seq<CalendarCall>)
    requires db.Valid()
    modifies db`appointments
    ensures db.Valid()
    ensures appointmentId !in old(db.appointments) ==> r == Err(AppointmentNotFound)
    ensures appointmentId in old(db.appointments) && old(db.appointments)[appointmentId].patientId != patientId ==>
      r == Err(NotOwner)
    ensures appointmentId in old(db.appointments) && old(db.appointments)[appointmentId].patientId == patientId
            && old(db.appointments)[appointmentId].status == Completed ==>
      r == Err(AlreadyCompleted)
    ensures r.Err? ==> db.appointments == old(db.appointments) && calls == []
    ensures r.Ok? ==>
      && appointmentId in old(db.appointments)
      && var a := old(db.appointments)[appointmentId];
      && a.patientId == patientId && a.status != Completed
      && db.appointments == old(db.appointments) - {appointmentId}
      && var calendarId := db.dentists[a.dentistId].calendarId;
      && calls == (if a.googleEventId.Some? && calendarId != "" then [DeleteEvent(calendarId, a.googleEventId.value)] else [])
  {
    calls := [];
    if appointmentId !in db.appointments {
      return Err(AppointmentNotFound), calls;
    }
    var appointment := db.appointments[appointmentId];
    if appointment.patientId != patientId {
      return Err(NotOwner), calls;
    }
    if appointment.status == Completed {
      return Err(AlreadyCompleted), calls;
    }
    var calendarId := db.dentists[appointment.dentistId].calendarId;
    if appointment.googleEventId.Some? && calendarId != "" {
      calls := [DeleteEvent(calendarId, appointment.googleEventId.value)];
    }
    DeleteAppointmentById(db, appointmentId);
    return Ok(()), calls;
  }

  /** `rescheduleAppointment`: refuses, in this order, a missing appointment,
      one of another patient, a cancelled or completed one and a new start
      before now. Otherwise the new end is the new start plus the
      procedure's duration; an existing event is patched, and when the patch
      fails a new event is created and, if that yields an id, the old event
      is deleted and the new id kept. The row is then moved, set back to
      scheduled and its reminder flags cleared. */
  method RescheduleAppointment(db: Database, appointmentId: Id, patientId: Id, newStart: int, now: int,
                               patchOk: bool, createResponse: Option<string>)
    returns (r: Result<Appointment, BookingError>, calls: seq<CalendarCall>)
    requires db.Valid()
    modifies db`appointments
    ensures db.Valid()
    ensures appointmentId !in old(db.appointments) ==> r == Err(AppointmentNotFound)
    ensures appointmentId in old(db.appointments) && old(db.appointments)[appointmentId].patientId != patientId ==>
      r == Err(NotOwner)
    ensures appointmentId in old(db.appointments) && old(db.appointments)[appointmentId].patientId == patientId
            && old(db.appointments)[appointmentId].status in {Cancelled, Completed} ==>
      r == Err(NotReschedulable)
    ensures appointmentId in old(db.appointments) && old(db.appointments)[appointmentId].patientId == patientId
            && old(db.appointments)[appointmentId].status !in {Cancelled, Completed} && newStart < now ==>
      r == Err(StartInPast)
    ensures r.Err? ==> db.appointments == old(db.appointments) && calls == []
    ensures r.Ok? ==>
      && appointmentId in old(db.appointments)
      && var a := old(db.appointments)[appointmentId];
      && a.patientId == patientId && a.status !in {Cancelled, Completed} && newStart >= now
      && var newEnd := newStart + db.procedures[a.procedureId].durationMinutes;
      && var calendarId := db.dentists[a.dentistId].calendarId;
      && db.appointments == old(db.appointments)[appointmentId := r.value]
      && r.value == AppointmentsRepository.Rescheduled(a, newStart, newEnd, r.value.googleEventId)
      // no event, or no calendar: nothing is sent and the id stays
      && ((a.googleEventId.None? || calendarId == "") ==>
            calls == [] && r.value.googleEventId == a.googleEventId)
      // the patch succeeds: the event keeps its id
      && ((a.googleEventId.Some? && calendarId != "" && patchOk) ==>
            && calls == [PatchEvent(calendarId, a.googleEventId.value, newStart, newEnd)]
            && r.value.googleEventId == a.googleEventId)
      // the patch fails and a new event is created: the old one is deleted
      && ((a.googleEventId.Some? && calendarId != "" && !patchOk && EventIdOf(createResponse).Some?) ==>
            && calls == [PatchEvent(calendarId, a.googleEventId.value, newStart, newEnd),
                         CreateEvent(calendarId, newStart, newEnd),
                         DeleteEvent(calendarId, a.googleEventId.value)]
            && r.value.googleEventId == EventIdOf(createResponse))
      // both fail: the old id stays
      && ((a.googleEventId.Some? && calendarId != "" && !patchOk && EventIdOf(createResponse).None?) ==>
            && calls == [PatchEvent(calendarId, a.googleEventId.value, newStart, newEnd),
                         CreateEvent(calendarId, newStart, newEnd)]
            && r.value.googleEventId == a.googleEventId)
  {
    calls := [];
    if appointmentId !in db.appointments {
      return Err(AppointmentNotFound), calls;
    }
    var appointment := db.appointments[appointmentId];
    if appointment.patientId != patientId {
      return Err(NotOwner), calls;
    }
    if appointment.status == Cancelled || appointment.status == Completed {
      return Err(NotReschedulable), calls;
    }
    var newEnd := newStart + db.procedures[appointment.procedureId].durationMinutes;
    if newStart < now {
      return Err(StartInPast), calls;
    }

    var newGoogleEventId := appointment.googleEventId;
    var calendarId := db.dentists[appointment.dentistId].calendarId;
    if appointment.googleEventId.Some? && calendarId != "" {
      calls := calls + [PatchEvent(calendarId, appointment.googleEventId.value, newStart, newEnd)];
      if !patchOk {
        calls := calls + [CreateEvent(calendarId, newStart, newEnd)];
        var newEventId := EventIdOf(createResponse);
        if newEventId.Some? {
          calls := calls + [DeleteEvent(calendarId, appointment.googleEventId.value)];
          newGoogleEventId := newEventId;
        }
      }
    }

    var updated := AppointmentsRepository.RescheduleAppointment(db, appointmentId, newStart, newEnd, newGoogleEventId);
    return Ok(updated), calls;
  }
}
