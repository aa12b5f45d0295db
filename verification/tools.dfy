/** The tools offered to the language model, and the reduced subsets meant
    for each stage of a conversation. */
module Tools {
  import opened Common

  /** The ten tools, in the order of the tool list. */
  datatype Tool =
    | GetDentists | GetProcedures | GetAvailableSlots | CreateAppointment | GetPatientAppointments
    | CancelAppointment | RescheduleAppointment | SearchFaq | EscalateToHuman | RegisterPatient

  /** The tool at each position of the tool list. */
  function ToolAt(i: int): Tool {
    if i == 0 then GetDentists
    else if i == 1 then GetProcedures
    else if i == 2 then GetAvailableSlots
    else if i == 3 then CreateAppointment
    else if i == 4 then GetPatientAppointments
    else if i == 5 then CancelAppointment
    else if i == 6 then RescheduleAppointment
    else if i == 7 then SearchFaq
    else if i == 8 then EscalateToHuman
    else RegisterPatient
  }

  /** The tool list handed to the model (`aiTools`). */
  function AiTools(): seq<Tool> {
    seq(10, i => ToolAt(i))
  }

  /** The function name the model calls the tool by. */
  function NameOf(t: Tool): string {
    match t
    case GetDentists => "get_dentists"
    case GetProcedures => "get_procedures"
    case GetAvailableSlots => "get_available_slots"
    case CreateAppointment => "create_appointment"
    case GetPatientAppointments => "get_patient_appointments"
    case CancelAppointment => "cancel_appointment"
    case RescheduleAppointment => "reschedule_appointment"
    case SearchFaq => "search_faq"
    case EscalateToHuman => "escalate_to_human"
    case RegisterPatient => "register_patient"
  }

  /** The tool a function name denotes, if any. */
  function ToolNamed(name: string): (r: Option<Tool>)
    ensures r.Some? ==> NameOf(r.value) == name
    ensures r.None? <==> forall t :: NameOf(t) != name
  {
    if name == "get_dentists" then Some(GetDentists)
    else if name == "get_procedures" then Some(GetProcedures)
    else if name == "get_available_slots" then Some(GetAvailableSlots)
    else if name == "create_appointment" then Some(CreateAppointment)
    else if name == "get_patient_appointments" then Some(GetPatientAppointments)
    else if name == "cancel_appointment" then Some(CancelAppointment)
    else if name == "reschedule_appointment" then Some(RescheduleAppointment)
    else if name == "search_faq" then Some(SearchFaq)
    else if name == "escalate_to_human" then Some(EscalateToHuman)
    else if name == "register_patient" then Some(RegisterPatient)
    else None
  }

  /** Every tool is listed. */
  lemma AllToolsListed()
    ensures forall t :: t in AiTools()
  {
    forall t ensures t in AiTools() {
      match t
      case GetDentists => assert AiTools()[0] == t;
      case GetProcedures => assert AiTools()[1] == t;
      case GetAvailableSlots => assert AiTools()[2] == t;
      case CreateAppointment => assert AiTools()[3] == t;
      case GetPatientAppointments => assert AiTools()[4] == t;
      case CancelAppointment => assert AiTools()[5] == t;
      case RescheduleAppointment => assert AiTools()[6] == t;
      case SearchFaq => assert AiTools()[7] == t;
      case EscalateToHuman => assert AiTools()[8] == t;
      case RegisterPatient => assert AiTools()[9] == t;
    }
  }

  /** The tools are listed once each, and each is found again by its name. */
  lemma ToolsListedOnce(t: Tool)
    ensures ToolNamed(NameOf(t)) == Some(t)
    ensures |AiTools()| == 10 && forall i, j :: 0 <= i < j < |AiTools()| ==> AiTools()[i] != AiTools()[j]
  {
  }

  /** A stage of the conversation, as read from the assistant's last message. */
  datatype Stage = Initial | AwaitingDay | AwaitingTime | PreConfirmation | CancelFlow | Registration

  /** `_tools(names)`: the listed tools named in `names`, in list order.
      The names are given as the tools they denote (`ToolNamed` and
      `NameOf` are inverse). */
  function PickTools(names: seq<Tool>): (r: seq<Tool>)
    ensures Sublist(r, AiTools())
    ensures forall t :: t in r <==> t in names
  {
    AllToolsListed();
    Filter(AiTools(), Wanted(names))
  }

  /** The test `names.includes(...)`. */
  function Wanted(names: seq<Tool>): Tool -> bool {
    (t: Tool) => t in names
  }

  /** Filtering skips a prefix none of whose elements pass. */
  lemma {:induction false} FilterSkip(xs: seq<Tool>, p: Tool -> bool, k: nat)
    requires k <= |xs|
    requires forall i :: 0 <= i < k ==> !p(xs[i])
    ensures Filter(xs, p) == Filter(xs[k..], p)
  {
    if k > 0 {
      FilterSkip(xs[1..], p, k - 1);
      assert xs[1..][k - 1..] == xs[k..];
    }
  }

  /** The tool names `selectTools` asks for in each reduced stage; the
      initial stage (and any stage not recognised) asks for the whole list. */
  function StageNames(stage: Stage): seq<Tool> {
    match stage
    case PreConfirmation => [CreateAppointment, GetAvailableSlots, EscalateToHuman]
    case AwaitingTime => [GetAvailableSlots, EscalateToHuman, RegisterPatient]
    case AwaitingDay => [GetAvailableSlots, GetPatientAppointments, EscalateToHuman, RegisterPatient]
    case CancelFlow => [GetPatientAppointments, CancelAppointment, RescheduleAppointment, GetAvailableSlots, EscalateToHuman]
    case Registration => [RegisterPatient, EscalateToHuman]
    case Initial => AiTools()
  }

  /** `selectTools`: the tools offered in a stage, in list order. */
  function SelectTools(stage: Stage): (r: seq<Tool>)
    ensures Sublist(r, AiTools())
    ensures forall t :: t in r <==> t in StageNames(stage)
  {
    if stage == Initial then
      SublistRefl(AiTools());
      AiTools()
    else
      PickTools(StageNames(stage))
  }

  /** A list is a sub-list of itself. */
  lemma {:induction false} SublistRefl(xs: seq<Tool>)
    ensures Sublist(xs, xs)
    decreases |xs|
  {
    if xs != [] {
      SublistRefl(xs[1..]);
    }
  }

  /** The initial stage offers all ten tools. */
  lemma InitialOffersAll()
    ensures SelectTools(Initial) == AiTools() && |SelectTools(Initial)| == 10
  {
  }

  /** Handing over to a human is possible in every stage. */
  lemma EscalationAlwaysOffered(stage: Stage)
    ensures EscalateToHuman in SelectTools(stage)
  {
    if stage == Initial {
      assert AiTools()[8] == EscalateToHuman;
    }
  }

  /** The last two listed tools are the hand-over and the registration tool. */
  lemma ListTail()
    ensures AiTools()[8..] == [EscalateToHuman, RegisterPatient]
  {
  }

  /** Filtering a pair both of whose elements pass keeps the pair. */
  lemma FilterPair(x: Tool, y: Tool, p: Tool -> bool)
    requires p(x) && p(y)
    ensures Filter([x, y], p) == [x, y]
  {
    assert [x, y][1..] == [y] && [y][1..] == [];
  }

  /** The registration stage offers exactly the registration tool and the
      hand-over, in list order. */
  lemma RegistrationPicksTwo()
    ensures SelectTools(Registration) == [EscalateToHuman, RegisterPatient]
  {
    var p := Wanted(StageNames(Registration));
    forall i | 0 <= i < 8
      ensures !p(AiTools()[i])
    {
    }
    calc {
      SelectTools(Registration);
      Filter(AiTools(), p);
      { FilterSkip(AiTools(), p, 8); }
      Filter(AiTools()[8..], p);
      { ListTail(); }
      Filter([EscalateToHuman, RegisterPatient], p);
      { FilterPair(EscalateToHuman, RegisterPatient, p); }
      [EscalateToHuman, RegisterPatient];
    }
  }

  /** Every stage but registration offers the slot search. */
  lemma SlotsOutsideRegistration(stage: Stage)
    requires stage != Registration
    ensures GetAvailableSlots in SelectTools(stage)
  {
    if stage == Initial {
      assert AiTools()[2] == GetAvailableSlots;
    } else {
      assert GetAvailableSlots in StageNames(stage);
    }
  }

  /** The registration stage, and only it, offers exactly the registration
      tool and the hand-over, in list order. */
  lemma RegistrationOffersTwo(stage: Stage)
    ensures SelectTools(stage) == [EscalateToHuman, RegisterPatient] <==> stage == Registration
  {
    if stage == Registration {
      RegistrationPicksTwo();
    } else {
      SlotsOutsideRegistration(stage);
    }
  }

  /** Booking is offered only at the pre-confirmation and initial stages. */
  lemma BookingOnlyWhenConfirming(stage: Stage)
    ensures CreateAppointment in SelectTools(stage) <==> stage == PreConfirmation || stage == Initial
  {
    match stage
    case Initial => assert AiTools()[3] == CreateAppointment;
    case PreConfirmation => assert StageNames(stage)[0] == CreateAppointment;
    case _ => assert CreateAppointment !in StageNames(stage);
  }

  /** Cancelling and rescheduling are offered only in the cancellation flow
      and the initial stage. */
  lemma CancelOnlyInCancelFlow(stage: Stage)
    ensures CancelAppointment in SelectTools(stage) <==> stage == CancelFlow || stage == Initial
    ensures RescheduleAppointment in SelectTools(stage) <==> stage == CancelFlow || stage == Initial
  {
    match stage
    case Initial => assert AiTools()[5] == CancelAppointment && AiTools()[6] == RescheduleAppointment;
    case CancelFlow => assert StageNames(stage)[1] == CancelAppointment && StageNames(stage)[2] == RescheduleAppointment;
    case _ => assert CancelAppointment !in StageNames(stage) && RescheduleAppointment !in StageNames(stage);
  }
}
