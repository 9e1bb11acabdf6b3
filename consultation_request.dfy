/** The consultation request screen: the form that sends a request to an available
    professional, the status badge of a request and the display name of a professional
    type. */
module ConsultationRequest {
  import opened JsText
  import ConsultationContext

  // ------------------------------------------------------------------
  // Status badge and display name
  // ------------------------------------------------------------------

  /** The badge of a status: its label key, its variant and its text colour. */
  datatype Badge = Badge(labelKey: string, variant: string, color: string)

  const PendingBadge: Badge := Badge("consultationRequestFixes.status.pending", "outline", "text-orange-600")

  const StatusBadges: map<string, Badge> := map[
    "pending" := PendingBadge,
    "accepted" := Badge("consultationRequestFixes.status.accepted", "default", "text-green-600"),
    "rejected" := Badge("consultationRequestFixes.status.rejected", "destructive", "text-red-600"),
    "completed" := Badge("consultationRequestFixes.status.completed", "secondary", "text-blue-600")]

  /** getStatusBadge: the badge of the four known statuses, and the pending badge for any
      other status that is not a name every object inherits. */
  function StatusBadge(status: string): (badge: Lookup<Badge>)
    ensures status in StatusBadges ==> badge == Own(StatusBadges[status])
    ensures status !in StatusBadges && status !in InheritedKeys ==> badge == Own(PendingBadge)
    ensures status !in StatusBadges && status in InheritedKeys ==> badge == Builtin(status)
  {
    match LookUp(StatusBadges, status)
    case Own(badge) => Own(badge)
    case Builtin(key) => Builtin(key)
    case Missing => Own(PendingBadge)
  }

  /** The four statuses get four different badges. */
  lemma StatusBadgesDiffer(s1: string, s2: string)
    requires s1 in StatusBadges && s2 in StatusBadges && s1 != s2
    ensures StatusBadge(s1) != StatusBadge(s2)
  {
  }

  const DisplayNames: map<string, string> := map[
    "endocrinologist" := "consultationRequestFixes.professionals.endocrinologist",
    "general_practitioner" := "consultationRequestFixes.professionals.general_practitioner",
    "psychologist" := "consultationRequestFixes.professionals.psychologist",
    "nurse" := "consultationRequestFixes.professionals.nurse",
    "nutritionist" := "consultationRequestFixes.professionals.nutritionist"]

  /** getProfessionalDisplayName: the translated name of the five known types, and the raw
      type string for any other type that is not an inherited name. */
  function DisplayName(professionalType: string): (name: Lookup<string>)
    ensures professionalType in DisplayNames ==> name == Own(DisplayNames[professionalType])
    ensures professionalType !in DisplayNames && professionalType !in InheritedKeys ==> name == Own(professionalType)
    ensures professionalType !in DisplayNames && professionalType in InheritedKeys ==> name == Builtin(professionalType)
  {
    match LookUp(DisplayNames, professionalType)
    case Own(text) => if text != "" then Own(text) else Own(professionalType)
    case Builtin(key) => Builtin(key)
    case Missing => Own(professionalType)
  }

  /** The display names cover exactly the types the fee table prices. */
  lemma DisplayNamesMatchFeeTable(professionalType: string)
    ensures professionalType in DisplayNames <==> professionalType in ConsultationContext.Rates
  {
  }

  // ------------------------------------------------------------------
  // The request form
  // ------------------------------------------------------------------

  /** One call of submitRequest made by the form. */
  datatype Submission = Submission(professionalId: string, reason: string, message: string)

  datatype SubmitOutcome = FieldsRequired | Unavailable | Submitted

  /** The guard of the submit: a professional and a reason are chosen, and the chosen
      professional is listed and available. */
  function SubmitGuard(professionals: seq<ConsultationContext.Professional>, professionalId: string, reason: string): (outcome: SubmitOutcome)
    ensures outcome == FieldsRequired <==> professionalId == "" || reason == ""
    ensures outcome == Submitted <==>
              professionalId != "" && reason != "" &&
              ConsultationContext.FindProfessional(professionals, professionalId).Some? &&
              ConsultationContext.FindProfessional(professionals, professionalId).value.available
  {
    if professionalId == "" || reason == "" then FieldsRequired
    else
      var prof := ConsultationContext.FindProfessional(professionals, professionalId);
      if prof.None? || !prof.value.available then Unavailable else Submitted
  }

  /** A submission from the form never reaches the context's "professional not found"
      branch: the row it inserts is priced by the chosen professional's type. */
  lemma SubmittedProfessionalIsKnown(professionals: seq<ConsultationContext.Professional>, professionalId: string, reason: string,
                                     patientId: string, message: string)
    requires SubmitGuard(professionals, professionalId, reason) == Submitted
    ensures var p := ConsultationContext.FindProfessional(professionals, professionalId);
            p.Some? && p.value.id == professionalId && p.value.available &&
            ConsultationContext.NewRequestFor(patientId, p.value, reason, Some(message)).patientMessage == message &&
            ConsultationContext.NewRequestFor(patientId, p.value, reason, Some(message)).fee ==
              ConsultationContext.FeeAsWritten(p.value.professionalType)
  {
    var p := ConsultationContext.FindProfessional(professionals, professionalId);
    var i :| 0 <= i < |professionals| && professionals[i] == p.value && professionals[i].id == professionalId &&
             forall j :: 0 <= j < i ==> professionals[j].id != professionalId;
  }

  class RequestForm {
    var selectedProfessional: string
    var consultationReason: string
    var patientMessage: string
    /** The calls of submitRequest made so far, oldest first. */
    var submissions: seq<Submission>

    constructor ()
      ensures selectedProfessional == "" && consultationReason == "" && patientMessage == "" && submissions == []
    {
      selectedProfessional, consultationReason, patientMessage, submissions := "", "", "", [];
    }

    method SelectProfessional(id: string)
      modifies this
      ensures selectedProfessional == id && consultationReason == old(consultationReason)
      ensures patientMessage == old(patientMessage) && submissions == old(submissions)
    {
      selectedProfessional := id;
    }

    method SelectReason(reason: string)
      modifies this
      ensures consultationReason == reason && selectedProfessional == old(selectedProfessional)
      ensures patientMessage == old(patientMessage) && submissions == old(submissions)
    {
      consultationReason := reason;
    }

    method SetMessage(message: string)
      modifies this
      ensures patientMessage == message && selectedProfessional == old(selectedProfessional)
      ensures consultationReason == old(consultationReason) && submissions == old(submissions)
    {
      patientMessage := message;
    }

    /** handleSubmitRequest: a blocked submit changes nothing; otherwise submitRequest is
        called once with the three fields and then all three are cleared. */
    method HandleSubmit(professionals: seq<ConsultationContext.Professional>) returns (outcome: SubmitOutcome)
      modifies this
      ensures outcome == SubmitGuard(professionals, old(selectedProfessional), old(consultationReason))
      ensures outcome != Submitted ==>
                selectedProfessional == old(selectedProfessional) && consultationReason == old(consultationReason) &&
                patientMessage == old(patientMessage) && submissions == old(submissions)
      ensures outcome == Submitted ==>
                submissions == old(submissions) + [Submission(old(selectedProfessional), old(consultationReason), old(patientMessage))] &&
                selectedProfessional == "" && consultationReason == "" && patientMessage == ""
    {
      if selectedProfessional == "" || consultationReason == "" {
        return FieldsRequired;
      }
      var prof := ConsultationContext.FindProfessional(professionals, selectedProfessional);
      if prof.None? || !prof.value.available {
        return Unavailable;
      }
      submissions := submissions + [Submission(selectedProfessional, consultationReason, patientMessage)];
      selectedProfessional := "";
      consultationReason := "";
      patientMessage := "";
      return Submitted;
    }
  }
}
