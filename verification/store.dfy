/** The persistent state of the clinic back end: the rows of the patient,
    dentist, procedure, appointment, conversation, message and escalation
    tables. Each table is a map from a numeric id to its row; ids are drawn
    from one counter, standing in for the generated string ids. */
module Store {
  import opened Common
  import opened Text

  type Id = nat

  /** Appointment status. `Rescheduled` exists in the schema, but no
      modelled operation ever sets it. */
  datatype Status = Scheduled | Cancelled | Completed | Rescheduled

  /** A patient. Several patients may share a phone (dependants); the CPF,
      when present, is unique across patients. */
  datatype Patient = Patient(
    id: Id,
    phone: string,
    name: Option<string>,
    cpf: Option<string>,
    email: Option<string>,
    createdAt: int)

  /** One weekday of a dentist's schedule, times in minutes after midnight. */
  datatype WorkingHours = WorkingHours(dayOfWeek: int, startTime: int, endTime: int, active: bool)

  datatype Dentist = Dentist(
    id: Id,
    name: string,
    calendarId: string,
    active: bool,
    workingHours: seq<WorkingHours>)

  datatype Procedure = Procedure(id: Id, name: string, durationMinutes: int, active: bool)

  datatype Appointment = Appointment(
    id: Id,
    patientId: Id,
    dentistId: Id,
    procedureId: Id,
    startTime: int,
    endTime: int,
    status: Status,
    googleEventId: Option<string>,
    reminderSent24h: bool,
    reminderSent2h: bool,
    surveySent: bool,
    notes: Option<string>)

  datatype ConversationStatus = Active | Escalated

  /** A conversation; its patient may be switched during a turn. */
  datatype Conversation = Conversation(id: Id, patientId: Id, status: ConversationStatus, lastMessageAt: int)

  datatype Direction = Inbound | Outbound

  datatype Role = User | Assistant

  /** A stored message; messages are only ever appended. */
  datatype Message = Message(conversationId: Id, direction: Direction, role: Role, content: string)

  datatype EscalationStatus = Pending | Resolved

  /** A request for a human operator. */
  datatype Escalation = Escalation(conversationId: Id, reason: Option<string>, status: EscalationStatus)

  /** A database error that the source would raise as an exception. */
  datatype DbError = RecordNotFound | UniqueViolation

  /** The rows of a table are stored under their own ids, all below `bound`. */
  predicate KeyedBelow<A>(t: map<Id, A>, idOf: A -> Id, bound: nat) {
    forall k :: k in t ==> k < bound && idOf(t[k]) == k
  }

  /** No two patients hold the same CPF (the column's unique constraint). */
  predicate UniqueCpfs(patients: map<Id, Patient>) {
    forall a, b :: a in patients && b in patients && a != b && patients[a].cpf.Some? ==>
      patients[b].cpf != patients[a].cpf
  }

  /** The patient, other than `except`, whose stored CPF is `cpf`, if any. */
  predicate CpfTakenBy(patients: map<Id, Patient>, cpf: string, except: Option<Id>) {
    exists k :: k in patients && patients[k].cpf == Some(cpf) && Some(k) != except
  }

  /** The database. */
  class Database {
    var patients: map<Id, Patient>
    var dentists: map<Id, Dentist>
    var procedures: map<Id, Procedure>
    var appointments: map<Id, Appointment>
    var conversations: map<Id, Conversation>
    var messages: seq<Message>
    var escalations: seq<Escalation>
    var nextId: nat

    /** Keys match row ids and lie below the id counter; every reference
        points at an existing row; CPFs are unique; stored calendar event
        ids are non-empty. */
    predicate Valid()
      reads this
    {
      && KeyedBelow(patients, (p: Patient) => p.id, nextId)
      && KeyedBelow(dentists, (d: Dentist) => d.id, nextId)
      && KeyedBelow(procedures, (p: Procedure) => p.id, nextId)
      && KeyedBelow(appointments, (a: Appointment) => a.id, nextId)
      && KeyedBelow(conversations, (c: Conversation) => c.id, nextId)
      && (forall k :: k in appointments ==>
            && appointments[k].patientId in patients
            && appointments[k].dentistId in dentists
            && appointments[k].procedureId in procedures
            && (appointments[k].googleEventId.Some? ==> appointments[k].googleEventId.value != ""))
      && (forall k :: k in conversations ==> conversations[k].patientId in patients)
      && (forall i :: 0 <= i < |messages| ==> messages[i].conversationId in conversations)
      && (forall i :: 0 <= i < |escalations| ==> escalations[i].conversationId in conversations)
      && UniqueCpfs(patients)
    }

    /** A database holding the administrated dentists and procedures and
        nothing else. */
    constructor (dentists: map<Id, Dentist>, procedures: map<Id, Procedure>, firstId: nat)
      requires KeyedBelow(dentists, (d: Dentist) => d.id, firstId)
      requires KeyedBelow(procedures, (p: Procedure) => p.id, firstId)
      ensures Valid()
      ensures this.dentists == dentists && this.procedures == procedures
      ensures patients == map[] && appointments == map[] && conversations == map[]
      ensures messages == [] && escalations == [] && nextId == firstId
    {
      this.dentists := dentists;
      this.procedures := procedures;
      patients := map[];
      appointments := map[];
      conversations := map[];
      messages := [];
      escalations := [];
      nextId := firstId;
    }

    /** Draws a fresh id, above every id in use. */
    method FreshId() returns (id: Id)
      modifies this`nextId
      ensures id == old(nextId) && nextId == id + 1
    {
      id := nextId;
      nextId := nextId + 1;
    }

    /** `message.create`: a message of a stored conversation. */
    method AddMessage(m: Message)
      requires Valid() && m.conversationId in conversations
      modifies this`messages
      ensures Valid() && m.conversationId in conversations
      ensures messages == old(messages) + [m]
    {
      messages := messages + [m];
    }

    /** `conversation.update({ lastMessageAt })`. */
    method SetLastMessageAt(cid: Id, at: int)
      requires Valid() && cid in conversations
      modifies this`conversations
      ensures Valid()
      ensures conversations == old(conversations)[cid := old(conversations)[cid].(lastMessageAt := at)]
    {
      conversations := conversations[cid := conversations[cid].(lastMessageAt := at)];
    }

    /** `conversation.update({ patientId })`: the conversation now belongs to
        another stored patient. */
    method SetConversationPatient(cid: Id, pid: Id)
      requires Valid() && cid in conversations && pid in patients
      modifies this`conversations
      ensures Valid()
      ensures conversations == old(conversations)[cid := old(conversations)[cid].(patientId := pid)]
    {
      conversations := conversations[cid := conversations[cid].(patientId := pid)];
    }
  }
}
