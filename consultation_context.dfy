/** The consultation requests shared by the patient and professional screens: the list of
    approved professionals, the patient's own requests (newest first), the requests made
    to a professional joined with their patients' profiles, and the fee charged for a new
    request. */
module ConsultationContext {
  import opened JsText

  // ------------------------------------------------------------------
  // The fee table
  // ------------------------------------------------------------------

  /** The consultation rate of each professional type. */
  const Rates: map<string, int> := map[
    "endocrinologist" := 630,
    "general_practitioner" := 520,
    "psychologist" := 430,
    "nurse" := 120,
    "nutritionist" := 100]

  const DefaultFee: int := 500

  /** The value `rateInfo ? rateInfo.rate : 500` takes: a number, or undefined. */
  datatype FeeValue = Amount(amount: int) | Undefined

  /** The fee as written: `professionalRates[type]` on a plain object also finds the
      members every object inherits (a function, or the prototype itself), which are
      truthy and have no `rate`. */
  function FeeAsWritten(professionalType: string): (fee: FeeValue)
    ensures professionalType in Rates ==> fee == Amount(Rates[professionalType])
    ensures fee == Undefined <==> professionalType !in Rates && professionalType in InheritedKeys
    ensures professionalType !in Rates && professionalType !in InheritedKeys ==> fee == Amount(DefaultFee)
  {
    if professionalType in Rates then Amount(Rates[professionalType])
    else if professionalType in InheritedKeys then Undefined
    else Amount(DefaultFee)
  }

  /** A professional whose type is "constructor" (or any inherited name) gets no fee. */
  lemma InheritedTypeHasNoFee()
    ensures FeeAsWritten("constructor") == Undefined
    ensures FeeAsWritten("toString") == Undefined
  {
  }

  /** The fee: the table's rate for the five known types and 500 for every other type. */
  function Fee(professionalType: string): (fee: int)
    ensures professionalType in Rates ==> fee == Rates[professionalType]
    ensures professionalType !in Rates ==> fee == DefaultFee
  {
    if professionalType in Rates then Rates[professionalType] else DefaultFee
  }

  /** The table as it reads, and the fee is always one of the six amounts. */
  lemma FeeSchedule(professionalType: string)
    ensures Fee("endocrinologist") == 630 && Fee("general_practitioner") == 520
    ensures Fee("psychologist") == 430 && Fee("nurse") == 120 && Fee("nutritionist") == 100
    ensures Fee(professionalType) in {630, 520, 430, 120, 100, 500}
    ensures FeeAsWritten(professionalType).Amount? ==> FeeAsWritten(professionalType).amount == Fee(professionalType)
  {
  }

  // ------------------------------------------------------------------
  // Rows
  // ------------------------------------------------------------------

  /** An approved professional application; `available` is the row's availability column
      (false when the row has none). */
  datatype Professional = Professional(
    id: string, firstName: string, lastName: string, professionalType: string,
    professionalCode: string, status: string, available: bool)

  /** The professional shown with a patient's request. */
  datatype ProfessionalRef = ProfessionalRef(id: string, firstName: string, lastName: string, professionalType: string)

  datatype PatientProfile = PatientProfile(id: string, firstName: string, lastName: string)

  /** A request as the screens show it. */
  datatype Request = Request(
    id: string, reason: string, fee: int, requestedAt: string, status: string,
    response: Option<string>, professional: Option<ProfessionalRef>, patient: Option<PatientProfile>)

  /** A request row made to a professional, with the requesting patient's id. */
  datatype RequestRow = RequestRow(
    id: string, reason: string, fee: int, requestedAt: string, status: string,
    response: Option<string>, patientId: string)

  /** The row inserted by a submit. */
  datatype NewRequest = NewRequest(
    patientId: string, professionalId: string, professionalCode: string, reason: string,
    patientMessage: string, fee: FeeValue, status: string)

  /** The answer of a backend query: rows (`data || []`), or an error. */
  datatype Answer<T> = Rows(rows: seq<T>) | Failed

  // ------------------------------------------------------------------
  // Lookups and the join
  // ------------------------------------------------------------------

  /** `professionals.find(p => p.id === id)`. */
  function FindProfessional(ps: seq<Professional>, id: string): (found: Option<Professional>)
    ensures found.None? <==> forall i :: 0 <= i < |ps| ==> ps[i].id != id
    ensures found.Some? ==> exists i :: 0 <= i < |ps| && ps[i] == found.value && ps[i].id == id &&
                              forall j :: 0 <= j < i ==> ps[j].id != id
  {
    if ps == [] then None
    else if ps[0].id == id then Some(ps[0])
    else
      var rest := FindProfessional(ps[1..], id);
      assert forall i :: 1 <= i < |ps| ==> ps[i] == ps[1..][i - 1];
      rest
  }

  /** `profiles?.find(p => p.id === id)`. */
  function FindProfile(profiles: seq<PatientProfile>, id: string): (found: Option<PatientProfile>)
    ensures found.None? <==> forall i :: 0 <= i < |profiles| ==> profiles[i].id != id
    ensures found.Some? ==> exists i :: 0 <= i < |profiles| && profiles[i] == found.value && profiles[i].id == id &&
                              forall j :: 0 <= j < i ==> profiles[j].id != id
  {
    if profiles == [] then None
    else if profiles[0].id == id then Some(profiles[0])
    else
      var rest := FindProfile(profiles[1..], id);
      assert forall i :: 1 <= i < |profiles| ==> profiles[i] == profiles[1..][i - 1];
      rest
  }

  /** The patient ids of the requests, in order. */
  function RequestPatientIds(requests: seq<RequestRow>): (ids: seq<string>)
    ensures |ids| == |requests|
    ensures forall i :: 0 <= i < |requests| ==> ids[i] == requests[i].patientId
  {
    seq(|requests|, i requires 0 <= i < |requests| => requests[i].patientId)
  }

  /** `[...new Set(requests.map(r => r.patient_id))]`. */
  function PatientIds(requests: seq<RequestRow>): (ids: seq<string>)
  {
    Dedup(RequestPatientIds(requests))
  }

  /** The ids looked up are distinct, and they are exactly the requests' patients. */
  lemma PatientIdsExactly(requests: seq<RequestRow>)
    ensures forall i, j :: 0 <= i < j < |PatientIds(requests)| ==> PatientIds(requests)[i] != PatientIds(requests)[j]
    ensures forall i :: 0 <= i < |requests| ==> requests[i].patientId in PatientIds(requests)
    ensures forall id :: id in PatientIds(requests) <==> exists i :: 0 <= i < |requests| && requests[i].patientId == id
  {
    var all := RequestPatientIds(requests);
    forall id | id in PatientIds(requests)
      ensures exists i :: 0 <= i < |requests| && requests[i].patientId == id
    {
      var k :| 0 <= k < |all| && all[k] == id;
      assert requests[k].patientId == id;
    }
    forall i | 0 <= i < |requests| ensures requests[i].patientId in PatientIds(requests) {
      assert all[i] == requests[i].patientId;
    }
  }

  function Joined(req: RequestRow, profiles: seq<PatientProfile>): Request
  {
    Request(req.id, req.reason, req.fee, req.requestedAt, req.status, req.response,
            None, FindProfile(profiles, req.patientId))
  }

  /** The join: every request, in order, with its patient's profile or null. */
  function JoinPatients(requests: seq<RequestRow>, profiles: seq<PatientProfile>): (joined: seq<Request>)
    ensures |joined| == |requests|
    ensures forall i :: 0 <= i < |requests| ==> joined[i] == Joined(requests[i], profiles)
  {
    seq(|requests|, i requires 0 <= i < |requests| => Joined(requests[i], profiles))
  }

  /** Each joined request keeps its own fields and carries the profile whose id is its
      patient's, or none when no profile has that id. */
  lemma JoinMatchesPatients(requests: seq<RequestRow>, profiles: seq<PatientProfile>, i: nat)
    requires i < |requests|
    ensures var r := JoinPatients(requests, profiles)[i];
            r.id == requests[i].id && r.reason == requests[i].reason && r.fee == requests[i].fee &&
            r.requestedAt == requests[i].requestedAt && r.status == requests[i].status &&
            r.professional == None &&
            (r.patient.Some? ==> r.patient.value.id == requests[i].patientId && r.patient.value in profiles) &&
            (r.patient.None? <==> forall k :: 0 <= k < |profiles| ==> profiles[k].id != requests[i].patientId)
  {
    var found := FindProfile(profiles, requests[i].patientId);
    if found.Some? {
      var k :| 0 <= k < |profiles| && profiles[k] == found.value && profiles[k].id == requests[i].patientId &&
               forall j :: 0 <= j < k ==> profiles[j].id != requests[i].patientId;
    }
  }

  /** The row a submit inserts: an absent or empty message is sent as '', the status is
      pending and the fee comes from the professional's type as the code computes it, so
      a type naming an inherited member is sent without a fee. */
  function NewRequestFor(patientId: string, p: Professional, reason: string, message: Option<string>): (row: NewRequest)
    ensures row.status == "pending"
    ensures row.patientMessage == if message.Some? then message.value else ""
    ensures row.fee == FeeAsWritten(p.professionalType)
    ensures p.professionalType !in InheritedKeys ==> row.fee == Amount(Fee(p.professionalType))
    ensures row.fee.Amount? ==> row.fee.amount == Fee(p.professionalType)
    ensures row.professionalId == p.id && row.professionalCode == p.professionalCode
    ensures row.patientId == patientId && row.reason == reason
  {
    NewRequest(patientId, p.id, p.professionalCode, reason,
               if TruthyText(message) then message.value else "", FeeAsWritten(p.professionalType), "pending")
  }

  /** The answer of the insert: the rows it returned, or an error. */
  datatype InsertAnswer = InsertedRows(rows: seq<Request>) | InsertFailed

  class ConsultationStore {
    var professionals: seq<Professional>
    var myRequests: seq<Request>
    var professionalRequests: seq<Request>
    /** The rows inserted by submits, oldest first. */
    var inserted: seq<NewRequest>

    constructor ()
      ensures professionals == [] && myRequests == [] && professionalRequests == [] && inserted == []
    {
      professionals, myRequests, professionalRequests, inserted := [], [], [], [];
    }

    method LoadProfessionals(answer: Answer<Professional>)
      modifies this
      ensures answer.Rows? ==> professionals == answer.rows
      ensures answer.Failed? ==> professionals == old(professionals)
      ensures myRequests == old(myRequests) && professionalRequests == old(professionalRequests)
      ensures inserted == old(inserted)
    {
      if answer.Rows? {
        professionals := answer.rows;
      }
    }

    /** loadMyRequests: nothing without a user; the rows replace the list on success. */
    method LoadMyRequests(user: Option<string>, answer: Answer<Request>)
      modifies this
      ensures user.Some? && answer.Rows? ==> myRequests == answer.rows
      ensures !(user.Some? && answer.Rows?) ==> myRequests == old(myRequests)
      ensures professionals == old(professionals) && professionalRequests == old(professionalRequests)
      ensures inserted == old(inserted)
    {
      if user.None? {
        return;
      }
      if answer.Rows? {
        myRequests := answer.rows;
      }
    }

    /** loadProfessionalRequests: the requests made with the code, then the profiles of
        their distinct patients (`ids` is the list looked up), then the join. */
    method LoadProfessionalRequests(requests: Answer<RequestRow>, profiles: Answer<PatientProfile>)
      returns (ids: Option<seq<string>>)
      modifies this
      ensures requests.Failed? ==> ids == None
      ensures requests.Rows? ==> ids == Some(PatientIds(requests.rows))
      ensures requests.Rows? && profiles.Rows? ==> professionalRequests == JoinPatients(requests.rows, profiles.rows)
      ensures !(requests.Rows? && profiles.Rows?) ==> professionalRequests == old(professionalRequests)
      ensures professionals == old(professionals) && myRequests == old(myRequests)
      ensures inserted == old(inserted)
    {
      if requests.Failed? {
        return None;
      }
      ids := Some(PatientIds(requests.rows));
      if profiles.Failed? {
        return;
      }
      professionalRequests := JoinPatients(requests.rows, profiles.rows);
    }

    /** submitRequest with the user and the insert's answer as inputs. Without a user, or
        for an unknown professional, nothing is inserted and the list stays; otherwise the
        row is inserted and the first returned row is put at the head of the list. */
    method SubmitRequest(user: Option<string>, professionalId: string, reason: string,
                         message: Option<string>, answer: InsertAnswer)
      returns (row: Option<NewRequest>)
      modifies this
      ensures user.None? || FindProfessional(professionals, professionalId).None? ==>
                row == None && myRequests == old(myRequests) && inserted == old(inserted)
      ensures user.Some? && FindProfessional(professionals, professionalId).Some? ==>
                row == Some(NewRequestFor(user.value, FindProfessional(professionals, professionalId).value, reason, message))
      ensures row.Some? && answer.InsertedRows? ==> inserted == old(inserted) + [row.value]
      ensures row.Some? && answer.InsertedRows? && answer.rows != [] ==> myRequests == [answer.rows[0]] + old(myRequests)
      ensures row.Some? && !(answer.InsertedRows? && answer.rows != []) ==> myRequests == old(myRequests)
      ensures row.Some? && answer.InsertFailed? ==> inserted == old(inserted)
      ensures professionals == old(professionals) && professionalRequests == old(professionalRequests)
    {
      if user.None? {
        return None;
      }
      var professional := FindProfessional(professionals, professionalId);
      if professional.None? {
        return None;
      }
      var newRow := NewRequestFor(user.value, professional.value, reason, message);
      row := Some(newRow);
      if answer.InsertFailed? {
        return;
      }
      inserted := inserted + [newRow];
      if answer.rows != [] {
        myRequests := [answer.rows[0]] + myRequests;
      }
    }
  }
}
