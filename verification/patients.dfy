/** The patient repository. A phone is not unique among patients: a
    relative booked from the same phone is a patient of its own, and the
    phone's primary patient is its oldest record. */
module Patients {
  import opened Common
  import opened Text
  import opened Store

  /** `k` is the phone's primary patient: among the patients with that phone
      it has the earliest `createdAt`, ties going to the earlier record. */
  predicate IsPrimary(patients: map<Id, Patient>, phone: string, k: Id) {
    && k in patients && patients[k].phone == phone
    && forall j :: j in patients && patients[j].phone == phone ==>
         || patients[k].createdAt < patients[j].createdAt
         || (patients[k].createdAt == patients[j].createdAt && k <= j)
  }

  /** The earliest creation time among some patients. */
  function EarliestCreation(patients: map<Id, Patient>, ids: set<Id>): (t: int)
    requires ids != {} && ids <= patients.Keys
    ensures exists k :: k in ids && patients[k].createdAt == t
    ensures forall k :: k in ids ==> t <= patients[k].createdAt
  {
    var candidates := SortedIds(ids);
    var t := MinKey(candidates, (k: Id) => if k in patients then patients[k].createdAt else 0);
    assert forall m :: 0 <= m < |candidates| ==> candidates[m] in ids;
    assert forall k :: k in ids ==> t <= patients[k].createdAt by {
      forall k | k in ids ensures t <= patients[k].createdAt {
        var m :| 0 <= m < |candidates| && candidates[m] == k;
      }
    }
    t
  }

  /** The id of the phone's primary patient, if the phone has any patient. */
  function PrimaryId(patients: map<Id, Patient>, phone: string): (r: Option<Id>)
    ensures r.None? <==> forall k :: k in patients ==> patients[k].phone != phone
    ensures r.Some? ==> IsPrimary(patients, phone, r.value)
  {
    var ids := set k | k in patients && patients[k].phone == phone;
    if ids == {} then
      assert forall k :: k in patients && patients[k].phone == phone ==> k in ids;
      None
    else
      var t := EarliestCreation(patients, ids);
      var earliest := set k | k in ids && patients[k].createdAt == t;
      var w :| w in ids && patients[w].createdAt == t;
      assert w in earliest;
      var k := Least(earliest);
      assert forall j :: j in patients && patients[j].phone == phone ==> j in ids;
      assert forall j :: j in ids && patients[j].createdAt == t ==> j in earliest;
      Some(k)
  }

  /** `findPatientByPhone` (`findFirst` ordered by `createdAt`): the phone's
      primary patient. */
  function FindPatientByPhone(patients: map<Id, Patient>, phone: string): (r: Option<Patient>)
    ensures r.None? <==> forall k :: k in patients ==> patients[k].phone != phone
    ensures r.Some? ==> exists k :: IsPrimary(patients, phone, k) && r.value == patients[k]
  {
    match PrimaryId(patients, phone)
    case None => None
    case Some(k) => Some(patients[k])
  }

  /** A phone has one primary patient. */
  lemma PrimaryUnique(patients: map<Id, Patient>, phone: string, k1: Id, k2: Id)
    requires IsPrimary(patients, phone, k1) && IsPrimary(patients, phone, k2)
    ensures k1 == k2
  {
    assert patients[k2].phone == phone && patients[k1].phone == phone;
  }

  /** Registering a dependant (a newer record on the same phone) leaves the
      phone's primary patient as it was. */
  lemma PrimaryKeptAfterDependant(patients: map<Id, Patient>, phone: string, q: Patient)
    requires forall k :: k in patients ==> k < q.id
    requires PrimaryId(patients, phone).Some?
    requires q.createdAt >= patients[PrimaryId(patients, phone).value].createdAt
    ensures PrimaryId(patients[q.id := q], phone) == PrimaryId(patients, phone)
  {
    var k := PrimaryId(patients, phone).value;
    var after := patients[q.id := q];
    assert IsPrimary(after, phone, k) by {
      forall j | j in after && after[j].phone == phone
        ensures after[k].createdAt < after[j].createdAt
             || (after[k].createdAt == after[j].createdAt && k <= j)
      {
        if j != q.id {
          assert j in patients;
        }
      }
    }
    PrimaryUnique(after, phone, k, PrimaryId(after, phone).value);
  }

  /** `findOrCreatePatient`: the phone's primary patient if it has one, and
      nothing is created; otherwise a new patient with only the phone. Either
      way, the returned patient is then the phone's primary, so a second
      call returns it again. */
  method FindOrCreatePatient(db: Database, phone: string, now: int) returns (p: Patient)
    requires db.Valid()
    modifies db`patients, db`nextId
    ensures db.Valid()
    ensures old(FindPatientByPhone(db.patients, phone)).Some? ==>
      && p == old(FindPatientByPhone(db.patients, phone)).value
      && db.patients == old(db.patients) && db.nextId == old(db.nextId)
    ensures old(FindPatientByPhone(db.patients, phone)).None? ==>
      && p == Patient(old(db.nextId), phone, None, None, None, now)
      && db.patients == old(db.patients)[p.id := p] && db.nextId == old(db.nextId) + 1
    ensures FindPatientByPhone(db.patients, phone) == Some(p)
  {
    var existing := FindPatientByPhone(db.patients, phone);
    if existing.Some? {
      return existing.value;
    }
    var id := db.FreshId();
    p := Patient(id, phone, None, None, None, now);
    db.patients := db.patients[id := p];
    assert IsPrimary(db.patients, phone, id);
    var k := PrimaryId(db.patients, phone).value;
    PrimaryUnique(db.patients, phone, k, id);
  }

  /** `data.name || null`: an empty name is stored as null. */
  function StoredName(name: Option<string>): (r: Option<string>)
    ensures r.Some? <==> name.Some? && name.value != ""
    ensures r.Some? ==> r == name
  {
    if name.Some? && name.value != "" then name else None
  }

  /** `data.cpf ? data.cpf.replace(/\D/g, '') : null`: a supplied CPF is
      stored as its digits, an absent or empty one as null. */
  function StoredCpf(cpf: Option<string>): (r: Option<string>)
    ensures r.Some? <==> cpf.Some? && cpf.value != ""
    ensures r.Some? ==> r.value == OnlyDigits(cpf.value) && AllDigits(r.value)
  {
    if cpf.Some? && cpf.value != "" then Some(OnlyDigits(cpf.value)) else None
  }

  /** `createPatientForPhone`: always adds a new patient on the phone, even
      when the phone has patients already; a CPF already held by a patient
      violates the unique constraint and nothing is added. */
  method CreatePatientForPhone(db: Database, phone: string, name: Option<string>, cpf: Option<string>, now: int)
    returns (r: Result<Patient, DbError>)
    requires db.Valid()
    modifies db`patients, db`nextId
    ensures db.Valid()
    ensures r.Err? <==> StoredCpf(cpf).Some? && CpfTakenBy(old(db.patients), StoredCpf(cpf).value, None)
    ensures r.Err? ==> r.error == UniqueViolation && db.patients == old(db.patients) && db.nextId == old(db.nextId)
    ensures r.Ok? ==>
      && r.value == Patient(old(db.nextId), phone, StoredName(name), StoredCpf(cpf), None, now)
      && db.patients == old(db.patients)[r.value.id := r.value]
      && db.nextId == old(db.nextId) + 1
  {
    var storedCpf := StoredCpf(cpf);
    if storedCpf.Some? && CpfTakenBy(db.patients, storedCpf.value, None) {
      return Err(UniqueViolation);
    }
    var id := db.FreshId();
    var p := Patient(id, phone, StoredName(name), storedCpf, None, now);
    db.patients := db.patients[id := p];
    return Ok(p);
  }

  /** The row after `updatePatientById`: only the supplied fields change. */
  function UpdatedPatient(p: Patient, name: Option<string>, cpf: Option<string>, email: Option<string>): (q: Patient)
    ensures q.id == p.id && q.phone == p.phone && q.createdAt == p.createdAt
    ensures q.name == (if name.Some? then name else p.name)
    ensures q.cpf == (if cpf.Some? then cpf else p.cpf)
    ensures q.email == (if email.Some? then email else p.email)
  {
    p.(name := if name.Some? then name else p.name,
       cpf := if cpf.Some? then cpf else p.cpf,
       email := if email.Some? then email else p.email)
  }

  /** `updatePatientById`: a missing patient is an error, a CPF held by
      another patient violates the unique constraint, and otherwise only the
      supplied fields of that one patient change. */
  method UpdatePatientById(db: Database, id: Id, name: Option<string>, cpf: Option<string>, email: Option<string>)
    returns (r: Result<Patient, DbError>)
    requires db.Valid()
    modifies db`patients
    ensures db.Valid()
    ensures id !in old(db.patients) ==> r == Err(RecordNotFound)
    ensures id in old(db.patients) && cpf.Some? && CpfTakenBy(old(db.patients), cpf.value, Some(id)) ==>
      r == Err(UniqueViolation)
    ensures r.Ok? <==> id in old(db.patients) && !(cpf.Some? && CpfTakenBy(old(db.patients), cpf.value, Some(id)))
    ensures r.Err? ==> db.patients == old(db.patients)
    ensures r.Ok? ==>
      && id in old(db.patients)
      && r.value == UpdatedPatient(old(db.patients)[id], name, cpf, email)
      && db.patients == old(db.patients)[id := r.value]
  {
    if id !in db.patients {
      return Err(RecordNotFound);
    }
    if cpf.Some? && CpfTakenBy(db.patients, cpf.value, Some(id)) {
      return Err(UniqueViolation);
    }
    var p := UpdatedPatient(db.patients[id], name, cpf, email);
    db.patients := db.patients[id := p];
    return Ok(p);
  }

  /** `findPatientByCpf`: the patient holding the CPF's digits, if any. */
  function FindPatientByCpf(patients: map<Id, Patient>, cpf: string): (r: Option<Patient>)
    ensures r.Some? <==> CpfTakenBy(patients, OnlyDigits(cpf), None)
    ensures r.Some? ==> exists k :: k in patients && patients[k] == r.value && r.value.cpf == Some(OnlyDigits(cpf))
  {
    var digits := OnlyDigits(cpf);
    var ids := set k | k in patients && patients[k].cpf == Some(digits);
    if ids == {} then
      assert forall k :: k in patients && patients[k].cpf == Some(digits) ==> k in ids;
      None
    else
      var k := Least(ids);
      Some(patients[k])
  }

  /** The CPF lookup ignores formatting: "123.456.789-09" finds the patient
      stored as 12345678909. */
  lemma CpfLookupIgnoresFormatting(patients: map<Id, Patient>, cpf: string)
    ensures FindPatientByCpf(patients, cpf) == FindPatientByCpf(patients, OnlyDigits(cpf))
  {
    OnlyDigitsIdempotent(cpf);
  }

  /** Under the unique constraint the CPF lookup finds the one holder. */
  lemma CpfLookupFindsHolder(patients: map<Id, Patient>, k: Id)
    requires UniqueCpfs(patients)
    requires k in patients && patients[k].cpf.Some? && AllDigits(patients[k].cpf.value)
    ensures FindPatientByCpf(patients, patients[k].cpf.value) == Some(patients[k])
  {
    var c := patients[k].cpf.value;
    OnlyDigitsKeepsDigits(c);
    var r := FindPatientByCpf(patients, c);
    var j :| j in patients && patients[j] == r.value && r.value.cpf == Some(c);
    assert j == k;
  }
}
