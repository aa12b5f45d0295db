/** The appointment repository: the queries over the appointment table and
    the in-place updates of its rows. Times are minutes. */
module AppointmentsRepository {
  import opened Common
  import opened Store

  /** Minutes in an hour. */
  const Hour := 60

  /** The sort key `startTime`. */
  function StartOf(a: Appointment): int {
    a.startTime
  }

  /** The sort key of `orderBy: { startTime: 'desc' }`. */
  function LatestFirst(a: Appointment): int {
    -a.startTime
  }

  /** The row is stored in the table. */
  predicate Stored(appts: map<Id, Appointment>, a: Appointment) {
    exists k :: k in appts && appts[k] == a
  }

  /** Sorting keeps exactly the elements it was given. */
  lemma SortByMembers<A>(xs: seq<A>, key: A -> int)
    ensures forall a :: a in SortBy(xs, key) <==> a in xs
  {
    var r := SortBy(xs, key);
    assert multiset(r) == multiset(xs);
    forall a
      ensures a in r <==> a in xs
    {
      assert a in r <==> a in multiset(r);
      assert a in xs <==> a in multiset(xs);
    }
  }

  // ----- queries -----

  /** A scheduled appointment of the patient that has not started yet. */
  predicate IsUpcomingFor(a: Appointment, patientId: Id, now: int) {
    a.patientId == patientId && a.status == Scheduled && a.startTime >= now
  }

  /** `getUpcomingAppointmentsByPatient`: the patient's scheduled
      appointments starting at or after `now`, earliest first. */
  function GetUpcomingAppointmentsByPatient(appts: map<Id, Appointment>, patientId: Id, now: int): (r: seq<Appointment>)
    ensures SortedBy(r, StartOf)
    ensures forall a :: a in r <==> Stored(appts, a) && IsUpcomingFor(a, patientId, now)
  {
    var rows := Filter(Rows(appts), UpcomingTest(patientId, now));
    var r := SortBy(rows, StartOf);
    SortByMembers(rows, StartOf);
    assert forall a :: a in r <==> a in rows;
    r
  }

  /** The `where` clause of the upcoming-appointments query. */
  function UpcomingTest(patientId: Id, now: int): Appointment -> bool {
    (a: Appointment) => IsUpcomingFor(a, patientId, now)
  }

  /** Due for the reminder a day ahead: scheduled, not yet reminded, and
      starting between 23 and 24 hours from now. */
  predicate IsDue24h(a: Appointment, now: int) {
    && a.status == Scheduled
    && !a.reminderSent24h
    && now + 23 * Hour <= a.startTime <= now + 24 * Hour
  }

  /** Due for the reminder two hours ahead: scheduled, not yet reminded, and
      starting between 90 and 120 minutes from now. */
  predicate IsDue2h(a: Appointment, now: int) {
    && a.status == Scheduled
    && !a.reminderSent2h
    && now + 90 <= a.startTime <= now + 2 * Hour
  }

  /** Due for the satisfaction survey: completed, not yet surveyed, and
      ended between six and three hours ago. */
  predicate IsDueSurvey(a: Appointment, now: int) {
    && a.status == Completed
    && !a.surveySent
    && now - 6 * Hour <= a.endTime <= now - 3 * Hour
  }

  /** `getAppointmentsDueForReminder24h`. */
  function GetDueForReminder24h(appts: map<Id, Appointment>, now: int): (r: seq<Appointment>)
    ensures forall a :: a in r <==> Stored(appts, a) && IsDue24h(a, now)
  {
    Filter(Rows(appts), (a: Appointment) => IsDue24h(a, now))
  }

  /** `getAppointmentsDueForReminder2h`. */
  function GetDueForReminder2h(appts: map<Id, Appointment>, now: int): (r: seq<Appointment>)
    ensures forall a :: a in r <==> Stored(appts, a) && IsDue2h(a, now)
  {
    Filter(Rows(appts), (a: Appointment) => IsDue2h(a, now))
  }

  /** `getAppointmentsDueForSurvey`. */
  function GetDueForSurvey(appts: map<Id, Appointment>, now: int): (r: seq<Appointment>)
    ensures forall a :: a in r <==> Stored(appts, a) && IsDueSurvey(a, now)
  {
    Filter(Rows(appts), (a: Appointment) => IsDueSurvey(a, now))
  }

  /** The optional filters of the administrative listing. */
  datatype Filters = Filters(startDate: Option<int>, endDate: Option<int>, dentistId: Option<Id>, status: Option<Status>)

  /** The row passes every filter that is supplied. */
  predicate MatchesFilters(a: Appointment, f: Filters) {
    && (f.dentistId.Some? ==> a.dentistId == f.dentistId.value)
    && (f.status.Some? ==> a.status == f.status.value)
    && (f.startDate.Some? ==> a.startTime >= f.startDate.value)
    && (f.endDate.Some? ==> a.startTime <= f.endDate.value)
  }

  /** `getAllAppointments`: the rows passing the supplied filters, latest
      start first. */
  function GetAllAppointments(appts: map<Id, Appointment>, f: Filters): (r: seq<Appointment>)
    ensures forall i, j :: 0 <= i < j < |r| ==> r[i].startTime >= r[j].startTime
    ensures forall a :: a in r <==> Stored(appts, a) && MatchesFilters(a, f)
  {
    var rows := Filter(Rows(appts), (a: Appointment) => MatchesFilters(a, f));
    SortByMembers(rows, LatestFirst);
    var r := SortBy(rows, LatestFirst);
    assert forall i, j :: 0 <= i < j < |r| ==> LatestFirst(r[i]) <= LatestFirst(r[j]);
    r
  }

  /** Without filters the listing holds every appointment. */
  lemma NoFiltersListsAll(appts: map<Id, Appointment>)
    ensures forall k :: k in appts ==> appts[k] in GetAllAppointments(appts, Filters(None, None, None, None))
  {
    var r := GetAllAppointments(appts, Filters(None, None, None, None));
    forall k | k in appts
      ensures appts[k] in r
    {
      assert Stored(appts, appts[k]);
    }
  }

  // ----- the completion sweep -----

  /** A scheduled appointment whose end has passed. */
  predicate DueForCompletion(a: Appointment, now: int) {
    a.status == Scheduled && a.endTime <= now
  }

  /** The table after `markAppointmentsAsCompleted`: exactly the scheduled
      rows that have ended become completed, and nothing else changes. */
  function CompletedAt(appts: map<Id, Appointment>, now: int): (r: map<Id, Appointment>)
    ensures r.Keys == appts.Keys
    ensures forall k :: k in appts ==>
      r[k] == (if DueForCompletion(appts[k], now) then appts[k].(status := Completed) else appts[k])
  {
    map k | k in appts :: if DueForCompletion(appts[k], now) then appts[k].(status := Completed) else appts[k]
  }

  /** After the sweep no scheduled appointment has ended. */
  lemma CompletedAtLeavesNoneDue(appts: map<Id, Appointment>, now: int)
    ensures forall k :: k in CompletedAt(appts, now) ==> !DueForCompletion(CompletedAt(appts, now)[k], now)
  {
  }

  /** Running the sweep twice at the same time is running it once. */
  lemma CompletedAtIdempotent(appts: map<Id, Appointment>, now: int)
    ensures CompletedAt(CompletedAt(appts, now), now) == CompletedAt(appts, now)
  {
    var once := CompletedAt(appts, now);
    assert forall k :: k in once ==> CompletedAt(once, now)[k] == once[k];
  }

  /** `markAppointmentsAsCompleted` (one `updateMany`); `count` is the number
      of rows it updated. */
  method MarkAppointmentsAsCompleted(db: Database, now: int) returns (count: nat)
    requires db.Valid()
    modifies db`appointments
    ensures db.Valid()
    ensures db.appointments == CompletedAt(old(db.appointments), now)
    ensures count == |set k | k in old(db.appointments) && DueForCompletion(old(db.appointments)[k], now)|
  {
    count := |set k | k in db.appointments && DueForCompletion(db.appointments[k], now)|;
    CompletedAtKeepsLinks(db.appointments, now);
    db.appointments := CompletedAt(db.appointments, now);
  }

  /** The sweep changes no row's id, links or calendar event. */
  lemma CompletedAtKeepsLinks(appts: map<Id, Appointment>, now: int)
    ensures forall k :: k in appts ==> SameLinks(CompletedAt(appts, now)[k], appts[k])
  {
  }

  /** Two rows agree on the id, the patient, the dentist, the procedure and
      the calendar event. */
  predicate SameLinks(a: Appointment, b: Appointment) {
    && a.id == b.id && a.patientId == b.patientId && a.dentistId == b.dentistId
    && a.procedureId == b.procedureId && a.googleEventId == b.googleEventId
  }

  // ----- row updates -----

  /** The row after `rescheduleAppointment`: new start and end, status back
      to scheduled, both reminder flags cleared, and the event id replaced
      only when one is given (`undefined` leaves the column alone). */
  function Rescheduled(a: Appointment, start: int, end: int, eventId: Option<string>): (b: Appointment)
    ensures b.startTime == start && b.endTime == end && b.status == Scheduled
    ensures !b.reminderSent24h && !b.reminderSent2h
    ensures b.googleEventId == (if eventId.Some? then eventId else a.googleEventId)
    ensures b.id == a.id && b.patientId == a.patientId && b.dentistId == a.dentistId
    ensures b.procedureId == a.procedureId && b.surveySent == a.surveySent && b.notes == a.notes
  {
    a.(startTime := start, endTime := end,
       googleEventId := if eventId.Some? then eventId else a.googleEventId,
       status := Scheduled, reminderSent24h := false, reminderSent2h := false)
  }

  /** A rescheduled appointment gets fresh reminders: whatever was sent for
      the old time, it is due again once its new start enters a window. */
  lemma RescheduledRemindedAgain(a: Appointment, start: int, end: int, eventId: Option<string>, now: int)
    ensures now + 23 * Hour <= start <= now + 24 * Hour ==> IsDue24h(Rescheduled(a, start, end, eventId), now)
    ensures now + 90 <= start <= now + 2 * Hour ==> IsDue2h(Rescheduled(a, start, end, eventId), now)
  {
  }

  /** `createAppointment`: a new scheduled row with no reminder sent. */
  method CreateAppointment(db: Database, patientId: Id, dentistId: Id, procedureId: Id,
                           start: int, end: int, eventId: Option<string>, notes: Option<string>)
    returns (a: Appointment)
    requires db.Valid()
    requires patientId in db.patients && dentistId in db.dentists && procedureId in db.procedures
    requires eventId.Some? ==> eventId.value != ""
    modifies db`appointments, db`nextId
    ensures db.Valid()
    ensures a == Appointment(old(db.nextId), patientId, dentistId, procedureId, start, end,
                             Scheduled, eventId, false, false, false, notes)
    ensures db.appointments == old(db.appointments)[a.id := a]
    ensures db.nextId == old(db.nextId) + 1
  {
    var id := db.FreshId();
    a := Appointment(id, patientId, dentistId, procedureId, start, end, Scheduled, eventId, false, false, false, notes);
    db.appointments := db.appointments[id := a];
  }

  /** `rescheduleAppointment` on an existing row. */
  method RescheduleAppointment(db: Database, id: Id, start: int, end: int, eventId: Option<string>)
    returns (a: Appointment)
    requires db.Valid() && id in db.appointments
    requires eventId.Some? ==> eventId.value != ""
    modifies db`appointments
    ensures db.Valid()
    ensures a == Rescheduled(old(db.appointments)[id], start, end, eventId)
    ensures db.appointments == old(db.appointments)[id := a]
  {
    a := Rescheduled(db.appointments[id], start, end, eventId);
    db.appointments := db.appointments[id := a];
  }

  /** Removes an existing row. */
  method DeleteAppointmentById(db: Database, id: Id)
    requires db.Valid() && id in db.appointments
    modifies db`appointments
    ensures db.Valid()
    ensures db.appointments == old(db.appointments) - {id}
  {
    db.appointments := db.appointments - {id};
  }

  /** `markReminderSent24h`: sets that one flag of that one row. */
  method MarkReminderSent24h(db: Database, id: Id)
    requires db.Valid() && id in db.appointments
    modifies db`appointments
    ensures db.Valid()
    ensures db.appointments == old(db.appointments)[id := old(db.appointments)[id].(reminderSent24h := true)]
  {
    db.appointments := db.appointments[id := db.appointments[id].(reminderSent24h := true)];
  }

  /** `markReminderSent2h`: sets that one flag of that one row. */
  method MarkReminderSent2h(db: Database, id: Id)
    requires db.Valid() && id in db.appointments
    modifies db`appointments
    ensures db.Valid()
    ensures db.appointments == old(db.appointments)[id := old(db.appointments)[id].(reminderSent2h := true)]
  {
    db.appointments := db.appointments[id := db.appointments[id].(reminderSent2h := true)];
  }

  /** `markSurveySent`: sets that one flag of that one row. */
  method MarkSurveySent(db: Database, id: Id)
    requires db.Valid() && id in db.appointments
    modifies db`appointments
    ensures db.Valid()
    ensures db.appointments == old(db.appointments)[id := old(db.appointments)[id].(surveySent := true)]
  {
    db.appointments := db.appointments[id := db.appointments[id].(surveySent := true)];
  }
}
