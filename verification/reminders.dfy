/** The reminder job, run every five minutes: the completion pass, then the
    24-hour reminders, the 2-hour reminders and the satisfaction surveys.
    Each notice pass selects the due rows, tries to send to each, and sets
    the row's set-once flag only after its send succeeded. Which sends
    succeed is a parameter (`delivered`), and so is which passes fail as a
    whole (`failed`: the query threw, and the pass changed nothing). */
module Reminders {
  import opened Common
  import opened Store
  import opened AppointmentsRepository

  /** The three notices, each guarded by its own flag. */
  datatype Notice = Reminder24h | Reminder2h | Survey

  /** The four sub-tasks of a run. */
  datatype Task = Completion | Notify(notice: Notice)

  /** One run of the job: its time, the sub-tasks whose query or update
      failed, and which sends succeed. */
  datatype Run = Run(now: int, failed: set<Task>, delivered: (Notice, Id) -> bool)

  /** The row is due for the notice. */
  predicate IsDue(n: Notice, a: Appointment, now: int) {
    match n
    case Reminder24h => IsDue24h(a, now)
    case Reminder2h => IsDue2h(a, now)
    case Survey => IsDueSurvey(a, now)
  }

  /** The notice's flag on the row. */
  predicate SentFlag(n: Notice, a: Appointment) {
    match n
    case Reminder24h => a.reminderSent24h
    case Reminder2h => a.reminderSent2h
    case Survey => a.surveySent
  }

  /** A row that is due for a notice has not had it yet. */
  lemma DueMeansNotSent(n: Notice, a: Appointment, now: int)
    ensures IsDue(n, a, now) ==> !SentFlag(n, a)
  {
    match n
    case Reminder24h =>
    case Reminder2h =>
    case Survey =>
  }

  /** The row after its notice was sent (`markReminderSent24h`,
      `markReminderSent2h`, `markSurveySent`): that flag is set, and the other
      flags, the status and the times are as they were. */
  function WithSent(n: Notice, a: Appointment): (b: Appointment)
    ensures SentFlag(n, b)
    ensures forall m :: m != n ==> SentFlag(m, b) == SentFlag(m, a)
    ensures b.id == a.id && b.status == a.status && b.startTime == a.startTime && b.endTime == a.endTime
  {
    match n
    case Reminder24h => a.(reminderSent24h := true)
    case Reminder2h => a.(reminderSent2h := true)
    case Survey => a.(surveySent := true)
  }

  /** The due query of the notice. */
  function DueList(n: Notice, appts: map<Id, Appointment>, now: int): (r: seq<Appointment>)
    ensures forall a :: a in r <==> Stored(appts, a) && IsDue(n, a, now)
  {
    match n
    case Reminder24h => GetDueForReminder24h(appts, now)
    case Reminder2h => GetDueForReminder2h(appts, now)
    case Survey => GetDueForSurvey(appts, now)
  }

  /** The table after a notice pass that ran: each row that was due and
      whose send succeeded has the notice's flag set. */
  function Swept(n: Notice, appts: map<Id, Appointment>, now: int, delivered: (Notice, Id) -> bool): map<Id, Appointment> {
    map k | k in appts :: if IsDue(n, appts[k], now) && delivered(n, k) then WithSent(n, appts[k]) else appts[k]
  }

  /** A notice pass sets its flag exactly on the rows that were due and
      whose send succeeded: a failed send leaves the row as it was, whatever
      happened to the other rows; no other flag, status or time changes. */
  lemma SweptFlags(n: Notice, appts: map<Id, Appointment>, now: int, delivered: (Notice, Id) -> bool, k: Id)
    requires k in appts
    ensures var r := Swept(n, appts, now, delivered);
      && r.Keys == appts.Keys
      && SentFlag(n, r[k]) == (SentFlag(n, appts[k]) || (IsDue(n, appts[k], now) && delivered(n, k)))
      && (forall m :: m != n ==> SentFlag(m, r[k]) == SentFlag(m, appts[k]))
      && r[k].status == appts[k].status && r[k].startTime == appts[k].startTime && r[k].endTime == appts[k].endTime
      && (!delivered(n, k) ==> r[k] == appts[k])
  {
  }

  /** Sets the notice's flag on one row. */
  method MarkSent(db: Database, n: Notice, id: Id)
    requires db.Valid() && id in db.appointments
    modifies db`appointments
    ensures db.Valid()
    ensures db.appointments == old(db.appointments)[id := WithSent(n, old(db.appointments)[id])]
  {
    match n
    case Reminder24h => MarkReminderSent24h(db, id);
    case Reminder2h => MarkReminderSent2h(db, id);
    case Survey => MarkSurveySent(db, id);
  }

  /** Flagging a row twice is flagging it once. */
  lemma WithSentTwice(n: Notice, a: Appointment)
    ensures WithSent(n, WithSent(n, a)) == WithSent(n, a)
  {
    match n
    case Reminder24h =>
    case Reminder2h =>
    case Survey =>
  }

  /** The table after the first `count` rows of `rows`, in order, were each
      sent the notice and, when that succeeded, flagged. */
  function ApplySends(n: Notice, appts: map<Id, Appointment>, delivered: (Notice, Id) -> bool,
                      rows: seq<Appointment>, count: nat): (r: map<Id, Appointment>)
    requires count <= |rows|
    requires forall j :: 0 <= j < |rows| ==> rows[j].id in appts
    ensures r.Keys == appts.Keys
  {
    if count == 0 then appts
    else
      var m := ApplySends(n, appts, delivered, rows, count - 1);
      var id := rows[count - 1].id;
      if delivered(n, id) then m[id := WithSent(n, m[id])] else m
  }

  /** After sending to some rows, a row is flagged exactly when it is among
      them and its send succeeded; the order and repetitions of the rows do
      not matter. */
  lemma {:induction false} ApplySendsPointwise(n: Notice, appts: map<Id, Appointment>, delivered: (Notice, Id) -> bool,
                                               rows: seq<Appointment>, count: nat, k: Id)
    requires count <= |rows|
    requires forall j :: 0 <= j < |rows| ==> rows[j].id in appts
    requires k in appts
    ensures ApplySends(n, appts, delivered, rows, count)[k] ==
      if (exists j :: 0 <= j < count && rows[j].id == k) && delivered(n, k) then WithSent(n, appts[k]) else appts[k]
  {
    if count > 0 {
      ApplySendsPointwise(n, appts, delivered, rows, count - 1, k);
      if rows[count - 1].id == k && delivered(n, k) {
        WithSentTwice(n, appts[k]);
      } else if rows[count - 1].id != k {
        assert (exists j :: 0 <= j < count && rows[j].id == k) ==> (exists j :: 0 <= j < count - 1 && rows[j].id == k);
      }
    }
  }

  /** The rows of a listing are stored under their own ids. */
  lemma StoredUnderOwnId(appts: map<Id, Appointment>, rows: seq<Appointment>)
    requires forall k :: k in appts ==> appts[k].id == k
    requires forall a :: a in rows ==> Stored(appts, a)
    ensures forall j :: 0 <= j < |rows| ==> rows[j].id in appts && appts[rows[j].id] == rows[j]
  {
    forall j | 0 <= j < |rows|
      ensures rows[j].id in appts && appts[rows[j].id] == rows[j]
    {
      assert rows[j] in rows;
      var k :| k in appts && appts[k] == rows[j];
    }
  }

  /** Sending, in any order, to a listing of exactly the due rows is the
      notice pass. */
  lemma SendsToDueRowsSweep(n: Notice, appts: map<Id, Appointment>, now: int, delivered: (Notice, Id) -> bool,
                            rows: seq<Appointment>)
    requires forall j :: 0 <= j < |rows| ==> rows[j].id in appts && appts[rows[j].id] == rows[j] && IsDue(n, rows[j], now)
    requires forall k :: k in appts && IsDue(n, appts[k], now) ==> exists j :: 0 <= j < |rows| && rows[j].id == k
    ensures ApplySends(n, appts, delivered, rows, |rows|) == Swept(n, appts, now, delivered)
  {
    forall k | k in appts
      ensures ApplySends(n, appts, delivered, rows, |rows|)[k] == Swept(n, appts, now, delivered)[k]
    {
      ApplySendsPointwise(n, appts, delivered, rows, |rows|, k);
    }
  }

  /** The loop of a notice pass over the due rows `rows`: each is sent its
      notice in turn and, only if that succeeded, flagged; a failed send
      does not stop the loop. */
  method SendToRows(db: Database, n: Notice, delivered: (Notice, Id) -> bool, rows: seq<Appointment>)
    requires db.Valid()
    requires forall j :: 0 <= j < |rows| ==> rows[j].id in db.appointments
    modifies db`appointments
    ensures db.Valid()
    ensures db.appointments == ApplySends(n, old(db.appointments), delivered, rows, |rows|)
  {
    ghost var before := db.appointments;
    for i := 0 to |rows|
      invariant db.Valid()
      invariant db.appointments == ApplySends(n, before, delivered, rows, i)
    {
      var appointment := rows[i];
      if delivered(n, appointment.id) {
        MarkSent(db, n, appointment.id);
      }
    }
  }

  /** `sendReminders24h`, `sendReminders2h` and `sendSatisfactionSurveys`:
      a failed query ends the pass with nothing changed; otherwise the due
      rows are handled in turn. */
  method SendDueNotices(db: Database, n: Notice, now: int, queryOk: bool, delivered: (Notice, Id) -> bool)
    requires db.Valid()
    modifies db`appointments
    ensures db.Valid()
    ensures !queryOk ==> db.appointments == old(db.appointments)
    ensures queryOk ==> db.appointments == Swept(n, old(db.appointments), now, delivered)
  {
    if !queryOk {
      return;
    }
    var appointments := DueList(n, db.appointments, now);
    ghost var before := db.appointments;
    assert forall k :: k in before ==> before[k].id == k;
    StoredUnderOwnId(before, appointments);
    forall k | k in before && IsDue(n, before[k], now)
      ensures exists j :: 0 <= j < |appointments| && appointments[j].id == k
    {
      assert Stored(before, before[k]);
      assert before[k] in appointments;
    }
    SendToRows(db, n, delivered, appointments);
    SendsToDueRowsSweep(n, before, now, delivered, appointments);
  }

  /** The completion pass as run by the job: nothing changes if it failed. */
  function CompletionPass(appts: map<Id, Appointment>, run: Run): map<Id, Appointment> {
    if Completion in run.failed then appts else CompletedAt(appts, run.now)
  }

  /** A notice pass as run by the job: nothing changes if its query failed. */
  function NoticePass(n: Notice, appts: map<Id, Appointment>, run: Run): map<Id, Appointment> {
    if Notify(n) in run.failed then appts else Swept(n, appts, run.now, run.delivered)
  }

  /** The table as the notice's pass finds it: after the completion pass and
      the notice passes listed before it. */
  function Before(n: Notice, appts: map<Id, Appointment>, run: Run): map<Id, Appointment> {
    var completed := CompletionPass(appts, run);
    match n
    case Reminder24h => completed
    case Reminder2h => NoticePass(Reminder24h, completed, run)
    case Survey => NoticePass(Reminder2h, NoticePass(Reminder24h, completed, run), run)
  }

  /** The table after a whole run. */
  function Sweep(appts: map<Id, Appointment>, run: Run): map<Id, Appointment> {
    NoticePass(Survey, Before(Survey, appts, run), run)
  }

  /** In the run, the notice was delivered to row `k` (and so flagged). */
  predicate DeliveredIn(n: Notice, appts: map<Id, Appointment>, run: Run, k: Id) {
    && Notify(n) !in run.failed
    && k in Before(n, appts, run)
    && IsDue(n, Before(n, appts, run)[k], run.now)
    && run.delivered(n, k)
  }

  /** `runReminderJobs`: the four sub-tasks, each isolated from the others'
      failures, run in the listed order. */
  method RunReminderJobs(db: Database, run: Run)
    requires db.Valid()
    modifies db`appointments
    ensures db.Valid()
    ensures db.appointments == Sweep(old(db.appointments), run)
  {
    if Completion !in run.failed {
      var _ := MarkAppointmentsAsCompleted(db, run.now);
    }
    SendDueNotices(db, Reminder24h, run.now, Notify(Reminder24h) !in run.failed, run.delivered);
    SendDueNotices(db, Reminder2h, run.now, Notify(Reminder2h) !in run.failed, run.delivered);
    SendDueNotices(db, Survey, run.now, Notify(Survey) !in run.failed, run.delivered);
  }

  /** A pass other than the notice's own leaves its flag on each row as it
      was, and keeps the rows. */
  lemma OtherPassKeepsFlag(n: Notice, m: Notice, appts: map<Id, Appointment>, run: Run, k: Id)
    requires m != n && k in appts
    ensures NoticePass(m, appts, run).Keys == appts.Keys
    ensures SentFlag(n, NoticePass(m, appts, run)[k]) == SentFlag(n, appts[k])
  {
    if Notify(m) !in run.failed {
      SweptFlags(m, appts, run.now, run.delivered, k);
    }
  }

  /** The completion pass keeps the rows and every flag. */
  lemma CompletionKeepsFlags(n: Notice, appts: map<Id, Appointment>, run: Run, k: Id)
    requires k in appts
    ensures CompletionPass(appts, run).Keys == appts.Keys
    ensures SentFlag(n, CompletionPass(appts, run)[k]) == SentFlag(n, appts[k])
  {
    match n
    case Reminder24h =>
    case Reminder2h =>
    case Survey =>
  }

  /** The notice's flag on a row as its pass finds it is the flag the run
      started with. */
  lemma BeforeKeepsFlag(n: Notice, appts: map<Id, Appointment>, run: Run, k: Id)
    requires k in appts
    ensures k in Before(n, appts, run)
    ensures SentFlag(n, Before(n, appts, run)[k]) == SentFlag(n, appts[k])
  {
    var completed := CompletionPass(appts, run);
    CompletionKeepsFlags(n, appts, run, k);
    match n
    case Reminder24h =>
    case Reminder2h =>
      OtherPassKeepsFlag(n, Reminder24h, completed, run, k);
    case Survey =>
      OtherPassKeepsFlag(n, Reminder24h, completed, run, k);
      OtherPassKeepsFlag(n, Reminder2h, NoticePass(Reminder24h, completed, run), run, k);
  }

  /** After a run a row's notice flag is set exactly when it was set before
      or the notice was delivered to it in this run; a notice is only
      delivered to a row whose flag was clear; every row is kept. */
  lemma SweepFlag(n: Notice, appts: map<Id, Appointment>, run: Run, k: Id)
    requires k in appts
    ensures k in Sweep(appts, run)
    ensures SentFlag(n, Sweep(appts, run)[k]) == (SentFlag(n, appts[k]) || DeliveredIn(n, appts, run, k))
    ensures DeliveredIn(n, appts, run, k) ==> !SentFlag(n, appts[k])
  {
    BeforeKeepsFlag(n, appts, run, k);
    var b := Before(n, appts, run);
    DueMeansNotSent(n, b[k], run.now);
    var completed := CompletionPass(appts, run);
    CompletionKeepsFlags(n, appts, run, k);
    match n
    case Reminder24h =>
      if Notify(n) !in run.failed {
        SweptFlags(n, b, run.now, run.delivered, k);
      }
      var after24 := NoticePass(Reminder24h, completed, run);
      OtherPassKeepsFlag(n, Reminder2h, after24, run, k);
      OtherPassKeepsFlag(n, Survey, NoticePass(Reminder2h, after24, run), run, k);
    case Reminder2h =>
      OtherPassKeepsFlag(n, Reminder24h, completed, run, k);
      if Notify(n) !in run.failed {
        SweptFlags(n, b, run.now, run.delivered, k);
      }
      OtherPassKeepsFlag(n, Survey, NoticePass(Reminder2h, b, run), run, k);
    case Survey =>
      OtherPassKeepsFlag(n, Reminder24h, completed, run, k);
      if Notify(n) !in run.failed {
        SweptFlags(n, b, run.now, run.delivered, k);
      }
  }

  /** A run whose completion pass succeeded leaves no scheduled appointment
      that has ended: the notice passes never change a status. */
  lemma SweepCompletes(appts: map<Id, Appointment>, run: Run, k: Id)
    requires Completion !in run.failed && k in appts
    ensures k in Sweep(appts, run) && !DueForCompletion(Sweep(appts, run)[k], run.now)
  {
    var completed := CompletionPass(appts, run);
    assert !DueForCompletion(completed[k], run.now);
    var a1 := NoticePass(Reminder24h, completed, run);
    if Notify(Reminder24h) !in run.failed {
      SweptFlags(Reminder24h, completed, run.now, run.delivered, k);
    }
    var a2 := NoticePass(Reminder2h, a1, run);
    if Notify(Reminder2h) !in run.failed {
      SweptFlags(Reminder2h, a1, run.now, run.delivered, k);
    }
    if Notify(Survey) !in run.failed {
      SweptFlags(Survey, a2, run.now, run.delivered, k);
    }
  }

  /** How many of the runs, applied one after the other, deliver the notice
      to row `k`. */
  function Deliveries(n: Notice, appts: map<Id, Appointment>, runs: seq<Run>, k: Id): nat
    decreases |runs|
  {
    if runs == [] then 0
    else (if DeliveredIn(n, appts, runs[0], k) then 1 else 0) + Deliveries(n, Sweep(appts, runs[0]), runs[1..], k)
  }

  /** Across any sequence of runs, each notice is delivered and marked at
      most once per row, and never if its flag was already set. A send
      whose flag write then fails is not counted here: `delivered` stands
      for both succeeding. */
  lemma {:induction false} DeliveredAtMostOnce(n: Notice, appts: map<Id, Appointment>, runs: seq<Run>, k: Id)
    requires k in appts
    ensures Deliveries(n, appts, runs, k) <= (if SentFlag(n, appts[k]) then 0 else 1)
    decreases |runs|
  {
    if runs != [] {
      SweepFlag(n, appts, runs[0], k);
      DeliveredAtMostOnce(n, Sweep(appts, runs[0]), runs[1..], k);
    }
  }
}
