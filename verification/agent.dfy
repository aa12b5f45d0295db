/** One turn of the assistant: the patient's message is stored, the
    language model is called at most ten times, the tool calls it asks for
    are run one after another, and exactly one reply is stored and
    returned. The model is an oracle: `script[k]` is its answer to the k-th
    call of the turn, `None` when the call throws. */
module Agent {
  import opened Common
  import opened Store
  import opened Patients
  import opened AgentTools

  /** `MAX_TOOL_ITERATIONS`. */
  const MaxToolIterations := 10

  /** A function call the model asks for; `args` is `None` when its
      argument text is not valid JSON, and the call then runs with no
      arguments. */
  datatype ToolCall = ToolCall(name: string, args: Option<Args>)

  /** An answer of the model: its text, and the tool calls it asks for. */
  datatype ModelReply = ModelReply(content: Option<string>, toolCalls: seq<ToolCall>)

  /** A tool call as it was run: the call, the patient it ran for and its outcome. */
  datatype Executed = Executed(call: ToolCall, patientId: Id, outcome: Outcome)

  /** The answer to the k-th model call; a call past the script fails. */
  function Answer(script: seq<Option<ModelReply>>, k: nat): Option<ModelReply> {
    if k < |script| then script[k] else None
  }

  // ------------------------------------------------------------- the loop, as values

  /** The number of model calls made from round `k` on: a failed call or an
      answer without tool calls ends the loop; otherwise the next round
      starts, until ten calls were made. */
  function Rounds(script: seq<Option<ModelReply>>, k: nat): (n: nat)
    ensures k <= MaxToolIterations ==> n <= MaxToolIterations - k
    ensures k < MaxToolIterations ==> n >= 1
    decreases MaxToolIterations - k
  {
    if k >= MaxToolIterations then 0
    else match Answer(script, k)
      case None => 1
      case Some(r) => if |r.toolCalls| == 0 then 1 else 1 + Rounds(script, k + 1)
  }

  /** The model calls of a turn. */
  function ModelCalls(script: seq<Option<ModelReply>>): nat {
    Rounds(script, 0)
  }

  /** The text of the answer that ended the loop (`content || ''`), or ""
      when the loop ended on a failure or ran out of rounds. */
  function FinalText(script: seq<Option<ModelReply>>, k: nat): string
    decreases MaxToolIterations - k
  {
    if k >= MaxToolIterations then ""
    else match Answer(script, k)
      case None => ""
      case Some(r) => if |r.toolCalls| == 0 then r.content.GetOr("") else FinalText(script, k + 1)
  }

  /** The tool calls asked for in the first `n` rounds, in order. */
  function Requested(script: seq<Option<ModelReply>>, n: nat): seq<ToolCall> {
    if n == 0 then []
    else Requested(script, n - 1) + match Answer(script, n - 1) case None => [] case Some(r) => r.toolCalls
  }

  /** The calls of a trace. */
  function CallsOf(trace: seq<Executed>): seq<ToolCall> {
    if trace == [] then [] else CallsOf(trace[..|trace| - 1]) + [trace[|trace| - 1].call]
  }

  /** The patient the next tool call runs for: the last patient a
      `register_patient` call switched to, or the turn's first patient. */
  function ActingAfter(first: Id, trace: seq<Executed>): Id {
    if trace == [] then first
    else
      var last := trace[|trace| - 1];
      if last.outcome.Registered? && last.outcome.switchedTo.Some? then last.outcome.switchedTo.value
      else ActingAfter(first, trace[..|trace| - 1])
  }

  /** The booking of the last successful `create_appointment` call. */
  function LastBooking(trace: seq<Executed>): Option<Booking> {
    if trace == [] then None
    else
      var last := trace[|trace| - 1];
      if last.call.name == "create_appointment" && last.outcome.Booked? then Some(last.outcome.booking)
      else LastBooking(trace[..|trace| - 1])
  }

  // ------------------------------------------------------------------ the reply

  /** The fixed apology sent when nothing else can be said. */
  function Apology(): (r: string)
    ensures |r| == 72
  {
    "Desculpe, tive um pequeno problema técnico. Pode repetir sua mensagem? \U{1F60A}"
  }

  /** The confirmation composed from a booking when the model gave no final
      text; `startText` is the start as the clinic's locale shows it. */
  function Confirmation(b: Booking, startText: string): (r: string)
    ensures |r| > 24
  {
    "\U{2705} *Consulta confirmada!*" + ConfirmationDetails(b, startText)
  }

  /** The lines of the confirmation after its heading. */
  function ConfirmationDetails(b: Booking, startText: string): string {
    "\n"
    + "" + "\n"
    + "\U{1F464} *Paciente:* " + b.patientName + "\n"
    + "\U{1FAAA} *CPF:* " + b.patientCpf + "\n"
    + "\U{1F4CB} *Procedimento:* " + b.procedureName + "\n"
    + "\U{1F468}\U{200D}\U{2695}\U{FE0F} *Dentista:* " + b.dentistName + "\n"
    + "\U{1F4C5} *Data e horário:* " + startText + "\n"
    + "" + "\n"
    + "_Chegue 10 minutos antes. Para cancelar ou reagendar, é só me avisar!_"
  }

  /** The reply of a turn: the model's final text when it is not empty;
      otherwise the confirmation of the turn's last booking, if any; else
      the apology. It is never empty. */
  function Reply(final: string, booking: Option<Booking>, startText: int -> string): (r: string)
    ensures |r| > 0
    ensures |final| > 0 ==> r == final
    ensures |final| == 0 && booking.Some? ==> r == Confirmation(booking.value, startText(booking.value.appointment.startTime))
    ensures |final| == 0 && booking.None? ==> r == Apology()
  {
    if |final| > 0 then final
    else if booking.Some? then
      Confirmation(booking.value, startText(booking.value.appointment.startTime))
    else
      Apology()
  }

  // ------------------------------------------------------------- conversations

  /** An active conversation of a patient on the phone. */
  predicate ActiveFor(conversations: map<Id, Conversation>, patients: map<Id, Patient>, phone: string, k: Id) {
    && k in conversations && conversations[k].status == Active
    && conversations[k].patientId in patients && patients[conversations[k].patientId].phone == phone
  }

  /** The conversation among `ids` with the latest message; among equally
      recent ones, the first in `ids`. */
  function Latest(conversations: map<Id, Conversation>, ids: seq<Id>): (k: Id)
    requires ids != [] && forall i :: 0 <= i < |ids| ==> ids[i] in conversations
    ensures k in ids
    ensures forall i :: 0 <= i < |ids| ==> conversations[ids[i]].lastMessageAt <= conversations[k].lastMessageAt
  {
    if |ids| == 1 then ids[0]
    else
      var rest := Latest(conversations, ids[1..]);
      assert forall i :: 1 <= i < |ids| ==> ids[i] == ids[1..][i - 1];
      if conversations[rest].lastMessageAt > conversations[ids[0]].lastMessageAt then rest else ids[0]
  }

  /** The phone's active conversation with the latest message, ties going
      to the earlier conversation. */
  function ActiveConversation(conversations: map<Id, Conversation>, patients: map<Id, Patient>, phone: string)
    : (r: Option<Id>)
    ensures r.None? <==> forall k :: !ActiveFor(conversations, patients, phone, k)
    ensures r.Some? ==>
      && ActiveFor(conversations, patients, phone, r.value)
      && forall k :: ActiveFor(conversations, patients, phone, k) ==>
           conversations[k].lastMessageAt <= conversations[r.value].lastMessageAt
  {
    var ids := set k | k in conversations && ActiveFor(conversations, patients, phone, k);
    if ids == {} then
      assert forall k :: ActiveFor(conversations, patients, phone, k) ==> k in ids;
      None
    else
      var candidates := SortedIds(ids);
      assert forall i :: 0 <= i < |candidates| ==> candidates[i] in ids;
      var k := Latest(conversations, candidates);
      assert forall j :: ActiveFor(conversations, patients, phone, j) ==>
        conversations[j].lastMessageAt <= conversations[k].lastMessageAt
      by {
        forall j | ActiveFor(conversations, patients, phone, j)
          ensures conversations[j].lastMessageAt <= conversations[k].lastMessageAt
        {
          assert j in candidates;
          var i :| 0 <= i < |candidates| && candidates[i] == j;
        }
      }
      Some(k)
  }

  /** A new active conversation of a patient, last active at `now`. */
  method StartConversation(db: Database, patientId: Id, now: int) returns (cid: Id)
    requires db.Valid() && patientId in db.patients
    modifies db`conversations, db`nextId
    ensures db.Valid()
    ensures cid !in old(db.conversations)
    ensures db.conversations == old(db.conversations)[cid := Conversation(cid, patientId, Active, now)]
  {
    cid := db.FreshId();
    db.conversations := db.conversations[cid := Conversation(cid, patientId, Active, now)];
  }

  /** Stores a message of a conversation and marks the conversation active
      at `now`. */
  method RecordInbound(db: Database, cid: Id, incoming: string, now: int)
    requires db.Valid() && cid in db.conversations
    modifies db`messages, db`conversations
    ensures db.Valid()
    ensures db.messages == old(db.messages) + [Message(cid, Inbound, User, incoming)]
    ensures db.conversations == old(db.conversations)[cid := old(db.conversations)[cid].(lastMessageAt := now)]
  {
    db.AddMessage(Message(cid, Inbound, User, incoming));
    db.SetLastMessageAt(cid, now);
  }

  /** The conversation a turn on a phone runs in: its active conversation
      with the latest message, or a new one. */
  ghost predicate ConversationChosen(conversations: map<Id, Conversation>, patients: map<Id, Patient>,
                                     phone: string, cid: Id, patientId: Id)
  {
    match ActiveConversation(conversations, patients, phone)
    case Some(k) => cid == k && patientId == conversations[k].patientId
    case None => cid !in conversations
  }

  /** The patient a new conversation of a phone is for: the phone's primary
      patient, or, for an unknown phone, a patient that did not exist. */
  predicate PrimaryOrNew(patients: map<Id, Patient>, phone: string, patientId: Id) {
    match FindPatientByPhone(patients, phone)
    case Some(p) => patientId == p.id
    case None => patientId !in patients
  }

  /** Steps 1-4 of `processMessage`: the turn's conversation is chosen,
      the patient's message stored in it and its last-message time set. */
  method OpenTurn(db: Database, phone: string, incoming: string, now: int) returns (cid: Id, patientId: Id)
    requires db.Valid()
    modifies db`patients, db`nextId, db`conversations, db`messages
    ensures db.Valid() && cid in db.conversations
    ensures db.conversations[cid].patientId == patientId && db.conversations[cid].lastMessageAt == now
    ensures db.messages == old(db.messages) + [Message(cid, Inbound, User, incoming)]
    ensures ConversationChosen(old(db.conversations), old(db.patients), phone, cid, patientId)
    ensures old(ActiveConversation(db.conversations, db.patients, phone)).None? ==>
      && PrimaryOrNew(old(db.patients), phone, patientId)
      && patientId in db.patients && FindPatientByPhone(db.patients, phone) == Some(db.patients[patientId])
  {
    cid, patientId := ChooseConversation(db, phone, now);
    RecordInbound(db, cid, incoming, now);
  }

  /** Steps 1-2 of `processMessage`: the phone's active conversation, or a
      new one for the phone's primary patient (created if need be). */
  method ChooseConversation(db: Database, phone: string, now: int) returns (cid: Id, patientId: Id)
    requires db.Valid()
    modifies db`patients, db`nextId, db`conversations
    ensures db.Valid() && cid in db.conversations && db.conversations[cid].patientId == patientId
    ensures ConversationChosen(old(db.conversations), old(db.patients), phone, cid, patientId)
    ensures old(ActiveConversation(db.conversations, db.patients, phone)).Some? ==>
      db.patients == old(db.patients) && db.conversations == old(db.conversations)
    ensures old(ActiveConversation(db.conversations, db.patients, phone)).None? ==>
      && PrimaryOrNew(old(db.patients), phone, patientId)
      && patientId in db.patients && FindPatientByPhone(db.patients, phone) == Some(db.patients[patientId])
  {
    var existing := ActiveConversation(db.conversations, db.patients, phone);
    if existing.Some? {
      cid := existing.value;
      patientId := db.conversations[cid].patientId;
    } else {
      cid, patientId := NewConversation(db, phone, now);
    }
  }

  /** A new conversation for the phone's primary patient, who is created
      when the phone is unknown. */
  method NewConversation(db: Database, phone: string, now: int) returns (cid: Id, patientId: Id)
    requires db.Valid()
    modifies db`patients, db`nextId, db`conversations
    ensures db.Valid() && cid !in old(db.conversations)
    ensures db.conversations == old(db.conversations)[cid := Conversation(cid, patientId, Active, now)]
    ensures patientId in db.patients && FindPatientByPhone(db.patients, phone) == Some(db.patients[patientId])
    ensures PrimaryOrNew(old(db.patients), phone, patientId)
  {
    var p := FindOrCreatePatient(db, phone, now);
    patientId := PatientKey(db.patients, phone, p);
    cid := StartConversation(db, patientId, now);
  }

  /** The key of the patient a phone lookup found. */
  function PatientKey(patients: map<Id, Patient>, phone: string, p: Patient): (k: Id)
    requires FindPatientByPhone(patients, phone) == Some(p)
    requires forall j :: j in patients ==> patients[j].id == j
    ensures k in patients && patients[k] == p && k == p.id
  {
    var k :| IsPrimary(patients, phone, k) && p == patients[k];
    k
  }

  // ------------------------------------------------------------------ the turn

  /** Each call of a trace ran for the patient acting at that point. */
  predicate RanForActing(first: Id, trace: seq<Executed>) {
    forall i :: 0 <= i < |trace| ==> trace[i].patientId == ActingAfter(first, trace[..i])
  }

  /** No call after entry `i` of a trace cancelled or moved an appointment. */
  predicate UntouchedAfter(trace: seq<Executed>, i: nat) {
    forall j :: i < j < |trace| ==> !trace[j].outcome.CancelledOk? && !trace[j].outcome.RescheduledOk?
  }

  /** Every booking of a trace came from `create_appointment`, belongs to
      the patient the call ran for, and is stored as booked unless a later
      call cancelled or moved an appointment. */
  predicate BookingsStored(appointments: map<Id, Appointment>, trace: seq<Executed>) {
    forall i :: 0 <= i < |trace| && trace[i].outcome.Booked? ==>
      && trace[i].call.name == "create_appointment"
      && trace[i].outcome.booking.appointment.patientId == trace[i].patientId
      && (UntouchedAfter(trace, i) ==>
            var a := trace[i].outcome.booking.appointment;
            a.id in appointments && appointments[a.id] == a)
  }

  /** A call that books one new appointment, cancels or moves one, or leaves
      the appointments alone keeps the bookings of a trace stored. */
  lemma {:induction false} BookingsStoredStep(before: map<Id, Appointment>, after: map<Id, Appointment>,
                                              trace: seq<Executed>, e: Executed)
    requires BookingsStored(before, trace)
    requires AppointmentsEffect(e.outcome, e.patientId, before, after)
    requires e.outcome.Booked? ==> e.call.name == "create_appointment"
    ensures BookingsStored(after, trace + [e])
  {
    var t := trace + [e];
    forall i | 0 <= i < |t| && t[i].outcome.Booked?
      ensures t[i].call.name == "create_appointment"
      ensures t[i].outcome.booking.appointment.patientId == t[i].patientId
      ensures UntouchedAfter(t, i) ==>
        var a := t[i].outcome.booking.appointment;
        a.id in after && after[a.id] == a
    {
      if i < |trace| && UntouchedAfter(t, i) {
        assert t[i] == trace[i];
        assert !e.outcome.CancelledOk? && !e.outcome.RescheduledOk? by {
          assert t[|trace|] == e;
        }
        assert UntouchedAfter(trace, i) by {
          forall j | i < j < |trace|
            ensures !trace[j].outcome.CancelledOk? && !trace[j].outcome.RescheduledOk?
          {
            assert t[j] == trace[j];
          }
        }
      }
    }
  }

  /** The booking a turn confirms is the outcome of one of its calls. */
  lemma {:induction false} LastBookingRan(trace: seq<Executed>)
    requires LastBooking(trace).Some?
    ensures exists i :: 0 <= i < |trace| && trace[i].outcome == Booked(LastBooking(trace).value)
    decreases |trace|
  {
    var last := trace[|trace| - 1];
    if last.call.name == "create_appointment" && last.outcome.Booked? {
      assert trace[|trace| - 1].outcome == Booked(LastBooking(trace).value);
    } else {
      var front := trace[..|trace| - 1];
      LastBookingRan(front);
      var i :| 0 <= i < |front| && front[i].outcome == Booked(LastBooking(front).value);
      assert trace[i] == front[i];
    }
  }

  /** The booking a turn confirms, if any, is the outcome of one of its
      calls and belongs to the patient that call ran for. */
  predicate ConfirmedForRunner(trace: seq<Executed>) {
    LastBooking(trace).Some? ==>
      exists i :: 0 <= i < |trace| && trace[i].outcome == Booked(LastBooking(trace).value)
                  && LastBooking(trace).value.appointment.patientId == trace[i].patientId
  }

  /** In a trace whose bookings belong to the patients they ran for, the
      confirmed booking does too. */
  lemma ConfirmedBookingOwned(appointments: map<Id, Appointment>, trace: seq<Executed>)
    requires BookingsStored(appointments, trace)
    ensures ConfirmedForRunner(trace)
  {
    if LastBooking(trace).Some? {
      LastBookingRan(trace);
    }
  }

  /** Appending a call that ran for the acting patient keeps a trace
      consistent, and adds that call to the trace's calls. */
  lemma AppendExecuted(first: Id, trace: seq<Executed>, e: Executed)
    requires RanForActing(first, trace) && e.patientId == ActingAfter(first, trace)
    ensures RanForActing(first, trace + [e])
    ensures CallsOf(trace + [e]) == CallsOf(trace) + [e.call]
    ensures ActingAfter(first, trace + [e]) ==
      if e.outcome.Registered? && e.outcome.switchedTo.Some? then e.outcome.switchedTo.value else e.patientId
  {
    var t := trace + [e];
    assert t[..|trace|] == trace;
    forall i | 0 <= i < |t|
      ensures t[i].patientId == ActingAfter(first, t[..i])
    {
      if i < |trace| {
        assert t[..i] == trace[..i];
      }
    }
  }

  /** One tool call, run for a patient in a conversation: only a booking,
      a cancellation or a move changes the appointments, a booking adds one
      new appointment of that patient, and only a `register_patient` switch
      changes the conversation's patient. */
  method RunOne(db: Database, call: ToolCall, acting: Id, cid: Id, env: Env) returns (o: Outcome)
    requires db.Valid() && cid in db.conversations
    modifies db
    ensures db.Valid() && cid in db.conversations
    ensures db.messages == old(db.messages)
    ensures o.Booked? ==> call.name == "create_appointment"
    ensures AppointmentsEffect(o, acting, old(db.appointments), db.appointments)
    ensures db.conversations[cid].patientId == PatientAfter(o, old(db.conversations[cid].patientId))
  {
    var calls;
    o, calls := ExecuteToolCall(db, call.name, call.args.GetOr(NoArgs()), acting, cid, env);
  }

  /** Extending a prefix of a sequence by its next element. */
  lemma PrefixStep<A>(front: seq<A>, xs: seq<A>, j: nat)
    requires j < |xs|
    ensures front + xs[..j] + [xs[j]] == front + xs[..j + 1]
  {
    assert xs[..j + 1] == xs[..j] + [xs[j]];
  }

  /** The tool calls of one answer, run in order: each runs for the current
      acting patient, and a `register_patient` that creates a new patient
      switches the acting patient for the calls after it. */
  method RunToolCalls(db: Database, calls: seq<ToolCall>, cid: Id, env: Env, first: Id,
                      trace0: seq<Executed>)
    returns (trace: seq<Executed>)
    requires db.Valid() && cid in db.conversations
    requires RanForActing(first, trace0)
    requires BookingsStored(db.appointments, trace0)
    requires db.conversations[cid].patientId == ActingAfter(first, trace0)
    modifies db
    ensures db.Valid() && cid in db.conversations
    ensures db.messages == old(db.messages)
    ensures CallsOf(trace) == CallsOf(trace0) + calls
    ensures RanForActing(first, trace)
    ensures BookingsStored(db.appointments, trace)
    ensures db.conversations[cid].patientId == ActingAfter(first, trace)
  {
    trace := trace0;
    var acting := ActingAfter(first, trace0);
    for j := 0 to |calls|
      invariant db.Valid() && cid in db.conversations
      invariant db.messages == old(db.messages)
      invariant CallsOf(trace) == CallsOf(trace0) + calls[..j]
      invariant acting == ActingAfter(first, trace)
      invariant RanForActing(first, trace)
      invariant BookingsStored(db.appointments, trace)
      invariant db.conversations[cid].patientId == acting
    {
      var call := calls[j];
      ghost var before := db.appointments;
      var o := RunOne(db, call, acting, cid, env);
      var e := Executed(call, acting, o);
      AppendExecuted(first, trace, e);
      BookingsStoredStep(before, db.appointments, trace, e);
      PrefixStep(CallsOf(trace0), calls, j);
      trace := trace + [e];
      if o.Registered? && o.switchedTo.Some? {
        acting := o.switchedTo.value;
      }
    }
    assert calls[..|calls|] == calls;
  }

  /** `processMessage`: opens the turn, then calls the model at most ten
      times. A failed call ends the loop at once; an answer without tool
      calls is the final text; otherwise its tool calls are run and the
      model is called again. The reply is the final text, or failing that
      the confirmation of the turn's last booking, or the apology; it is
      stored as the one outgoing message of the turn. */
  method ProcessMessage(db: Database, phone: string, incoming: string, script: seq<Option<ModelReply>>,
                        env: Env, startText: int -> string)
    returns (reply: string, cid: Id, patientId: Id, trace: seq<Executed>, modelCalls: nat)
    requires db.Valid()
    modifies db
    ensures db.Valid() && cid in db.conversations
    ensures db.messages == old(db.messages) + [Message(cid, Inbound, User, incoming)] + [Message(cid, Outbound, Assistant, reply)]
    ensures modelCalls == ModelCalls(script) && modelCalls <= MaxToolIterations
    ensures CallsOf(trace) == Requested(script, modelCalls)
    ensures RanForActing(patientId, trace)
    ensures BookingsStored(db.appointments, trace)
    ensures ConversationChosen(old(db.conversations), old(db.patients), phone, cid, patientId)
    ensures old(ActiveConversation(db.conversations, db.patients, phone)).None? ==> PrimaryOrNew(old(db.patients), phone, patientId)
    ensures db.conversations[cid].patientId == ActingAfter(patientId, trace)
    ensures ConfirmedForRunner(trace)
    ensures reply == Reply(FinalText(script, 0), LastBooking(trace), startText)
    ensures |reply| > 0
  {
    cid, patientId := OpenTurn(db, phone, incoming, env.now);
    var finalResponse: string;
    modelCalls, finalResponse, trace := Converse(db, script, cid, env, patientId);
    ConfirmedBookingOwned(db.appointments, trace);
    reply := Respond(db, cid, finalResponse, trace, startText);
  }

  /** The end of the turn: the reply is composed from the final text and
      the turn's last booking, and stored as the outgoing message. */
  method Respond(db: Database, cid: Id, finalResponse: string, trace: seq<Executed>, startText: int -> string)
    returns (reply: string)
    requires db.Valid() && cid in db.conversations
    modifies db`messages
    ensures db.Valid() && cid in db.conversations
    ensures reply == Reply(finalResponse, LastBooking(trace), startText) && |reply| > 0
    ensures db.messages == old(db.messages) + [Message(cid, Outbound, Assistant, reply)]
    ensures unchanged(db`appointments, db`conversations)
  {
    var created := TrackBooking([], trace, None);
    reply := Reply(finalResponse, created, startText);
    db.AddMessage(Message(cid, Outbound, Assistant, reply));
  }

  /** The loop of `processMessage`: model calls and the tool calls they ask
      for, until a failure, a final answer or the tenth call. */
  method Converse(db: Database, script: seq<Option<ModelReply>>, cid: Id, env: Env, patientId: Id)
    returns (modelCalls: nat, finalResponse: string, trace: seq<Executed>)
    requires db.Valid() && cid in db.conversations
    requires db.conversations[cid].patientId == patientId
    modifies db
    ensures db.Valid() && cid in db.conversations
    ensures db.messages == old(db.messages)
    ensures modelCalls == ModelCalls(script)
    ensures finalResponse == FinalText(script, 0)
    ensures CallsOf(trace) == Requested(script, modelCalls)
    ensures RanForActing(patientId, trace)
    ensures BookingsStored(db.appointments, trace)
    ensures db.conversations[cid].patientId == ActingAfter(patientId, trace)
  {
    var iterations := 0;
    finalResponse := "";
    trace := [];
    while iterations < MaxToolIterations
      invariant 0 <= iterations <= MaxToolIterations
      invariant db.Valid() && cid in db.conversations
      invariant db.messages == old(db.messages)
      invariant Rounds(script, 0) == iterations + Rounds(script, iterations)
      invariant FinalText(script, 0) == FinalText(script, iterations)
      invariant finalResponse == ""
      invariant CallsOf(trace) == Requested(script, iterations)
      invariant RanForActing(patientId, trace)
      invariant BookingsStored(db.appointments, trace)
      invariant db.conversations[cid].patientId == ActingAfter(patientId, trace)
      decreases MaxToolIterations - iterations
    {
      var k := iterations;
      iterations := iterations + 1;
      var answer := Answer(script, k);
      if answer.None? {
        assert Requested(script, iterations) == Requested(script, k) + [];
        break;
      }
      var r := answer.value;
      if |r.toolCalls| == 0 {
        finalResponse := r.content.GetOr("");
        assert Requested(script, iterations) == Requested(script, k) + [];
        break;
      }
      trace := RunToolCalls(db, r.toolCalls, cid, env, patientId, trace);
    }
    modelCalls := iterations;
  }

  /** The tracked booking after more calls ran: the last successful
      `create_appointment` among them, or the one tracked before. */
  method TrackBooking(before: seq<Executed>, after: seq<Executed>, created: Option<Booking>)
    returns (r: Option<Booking>)
    requires |before| <= |after| && after[..|before|] == before
    requires created == LastBooking(before)
    ensures r == LastBooking(after)
  {
    r := created;
    for i := |before| to |after|
      invariant r == LastBooking(after[..i])
    {
      assert after[..i + 1][..i] == after[..i];
      var e := after[i];
      if e.call.name == "create_appointment" && e.outcome.Booked? {
        r := Some(e.outcome.booking);
      }
    }
    assert after[..|after|] == after;
  }

  // ------------------------------------------------------------------ properties

  /** A failed model call ends the turn at once: with every earlier answer
      asking for tools, a failure at call `k` makes `k + 1` calls and leaves
      no final text. */
  lemma {:induction false} FailureEndsTurn(script: seq<Option<ModelReply>>, k: nat, j: nat)
    requires k < MaxToolIterations && j <= k
    requires forall i :: j <= i < k ==> Answer(script, i).Some? && |Answer(script, i).value.toolCalls| > 0
    requires Answer(script, k).None?
    ensures Rounds(script, j) == k - j + 1
    ensures FinalText(script, j) == ""
    decreases k - j
  {
    if j < k {
      FailureEndsTurn(script, k, j + 1);
    }
  }

  /** A model that keeps asking for tools is cut off after ten calls, and
      the turn then has no final text. */
  lemma {:induction false} EndlessToolsCutOff(script: seq<Option<ModelReply>>, j: nat)
    requires j <= MaxToolIterations
    requires forall i :: j <= i < MaxToolIterations ==> Answer(script, i).Some? && |Answer(script, i).value.toolCalls| > 0
    ensures Rounds(script, j) == MaxToolIterations - j
    ensures FinalText(script, j) == ""
    decreases MaxToolIterations - j
  {
    if j < MaxToolIterations {
      EndlessToolsCutOff(script, j + 1);
    }
  }

  /** A booking stays tracked through later calls that book nothing, such
      as a `create_appointment` that fails. */
  lemma {:induction false} BookingSurvivesFailures(trace: seq<Executed>, later: seq<Executed>)
    requires forall i :: 0 <= i < |later| ==> !later[i].outcome.Booked?
    ensures LastBooking(trace + later) == LastBooking(trace)
    decreases |later|
  {
    if later != [] {
      var shorter := later[..|later| - 1];
      assert (trace + later)[..|trace + later| - 1] == trace + shorter;
      BookingSurvivesFailures(trace, shorter);
    } else {
      assert trace + later == trace;
    }
  }

  /** After a `register_patient` switch, the calls that follow run for the
      new patient until another switch. */
  lemma {:induction false} SwitchSticks(first: Id, trace: seq<Executed>, e: Executed, later: seq<Executed>)
    requires e.outcome.Registered? && e.outcome.switchedTo.Some?
    requires forall i :: 0 <= i < |later| ==> !(later[i].outcome.Registered? && later[i].outcome.switchedTo.Some?)
    ensures ActingAfter(first, trace + [e] + later) == e.outcome.switchedTo.value
    decreases |later|
  {
    if later != [] {
      var shorter := later[..|later| - 1];
      assert (trace + [e] + later)[..|trace + [e] + later| - 1] == trace + [e] + shorter;
      SwitchSticks(first, trace, e, shorter);
    } else {
      assert (trace + [e] + later)[..|trace + [e] + later| - 1] == trace;
    }
  }
}
