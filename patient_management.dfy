/** The professional's patient list: page slicing and page navigation for the patient and
    consultation tables (which share one rows-per-page setting), the rows-per-page input,
    the patient-code gate in front of the five patient actions, and the patient list built
    from the consultation requests and profiles the backend returns (taken as inputs). */
module PatientManagement {
  import opened JsText

  // ------------------------------------------------------------------
  // Pages
  // ------------------------------------------------------------------

  /** The first index of page `page` (1-based) with `perPage` rows. */
  function PageStart(page: int, perPage: int): int {
    (page - 1) * perPage
  }

  /** `items.slice(start, start + perPage)`. */
  function Page<T>(items: seq<T>, page: int, perPage: int): seq<T> {
    var start := PageStart(page, perPage);
    Slice(items, start, start + perPage)
  }

  /** `Math.ceil(n / perPage)` for a non-zero number of rows per page. */
  function TotalPages(n: nat, perPage: int): (pages: int)
    requires perPage != 0
    ensures perPage > 0 ==> pages >= 0 && (n == 0 <==> pages == 0)
    ensures perPage > 0 && n > 0 ==> (pages - 1) * perPage < n <= pages * perPage
    ensures perPage < 0 ==> pages <= 0
  {
    if perPage > 0 then
      var q := (n + perPage - 1) / perPage;
      assert q * perPage <= n + perPage - 1 < q * perPage + perPage;
      q
    else 0 - n / (0 - perPage)
  }

  /** With a non-negative start, a slice is the clamped sub-range. */
  lemma SliceFromNonNegative<T>(items: seq<T>, start: int, end: int)
    requires 0 <= start <= end
    ensures Slice(items, start, end) == items[(if start <= |items| then start else |items|)..(if end <= |items| then end else |items|)]
  {
  }

  lemma MulNonNegative(a: int, b: int)
    requires a >= 0 && b >= 0
    ensures a * b >= 0
  {
  }

  lemma MulMonotone(a: int, b: int, k: int)
    requires a <= b && k >= 0
    ensures a * k <= b * k
  {
    assert b * k - a * k == (b - a) * k;
    MulNonNegative(b - a, k);
  }

  /** Page p (p >= 1) of k rows is the items from (p-1)k up to pk, cut at the end of the
      list, so at most k items. */
  lemma PageContents<T>(items: seq<T>, page: int, perPage: int)
    requires page >= 1 && perPage >= 1
    ensures var start := PageStart(page, perPage);
            var end := start + perPage;
            Page(items, page, perPage) == items[(if start <= |items| then start else |items|)..(if end <= |items| then end else |items|)]
    ensures |Page(items, page, perPage)| <= perPage
  {
    var start := PageStart(page, perPage);
    MulNonNegative(page - 1, perPage);
    SliceFromNonNegative(items, start, start + perPage);
  }

  /** A page past the last one is empty. */
  lemma PagePastLastIsEmpty<T>(items: seq<T>, page: int, perPage: int)
    requires perPage >= 1 && page > TotalPages(|items|, perPage) && page >= 1
    ensures Page(items, page, perPage) == []
  {
    var t := TotalPages(|items|, perPage);
    MulMonotone(t, page - 1, perPage);
    assert |items| <= t * perPage;
    PageContents(items, page, perPage);
  }

  /** Two different pages show different positions: page p ends where any later page can
      start at the earliest. */
  lemma PagesDoNotOverlap(p: int, q: int, perPage: int)
    requires 1 <= p < q && perPage >= 1
    ensures PageStart(p, perPage) + perPage <= PageStart(q, perPage)
  {
    MulMonotone(p, q - 1, perPage);
    assert (p - 1) * perPage + perPage == p * perPage;
  }

  /** Pages 1..m one after the other. */
  function PagesUpTo<T>(items: seq<T>, perPage: int, m: nat): seq<T>
  {
    if m == 0 then [] else PagesUpTo(items, perPage, m - 1) + Page(items, m, perPage)
  }

  /** m times k by repeated addition: the end position of page m. */
  function PagesEnd(m: nat, perPage: int): int {
    if m == 0 then 0 else PagesEnd(m - 1, perPage) + perPage
  }

  lemma {:induction false} PagesEndIsProduct(m: nat, perPage: int)
    ensures PagesEnd(m, perPage) == m * perPage
  {
    if m > 0 {
      PagesEndIsProduct(m - 1, perPage);
      assert (m - 1) * perPage + perPage == m * perPage;
    }
  }

  /** Page m starts where the first m - 1 pages end. */
  lemma PageStartIsPagesEnd(m: nat, perPage: int)
    requires m >= 1
    ensures PageStart(m, perPage) == PagesEnd(m - 1, perPage)
  {
    PagesEndIsProduct(m - 1, perPage);
  }

  function Cut(position: int, n: nat): int {
    if position <= n then position else n
  }

  /** The first m pages are the list up to position mk. */
  lemma {:induction false} PagesUpToIsPrefix<T>(items: seq<T>, perPage: int, m: nat)
    requires perPage >= 1
    ensures 0 <= Cut(PagesEnd(m, perPage), |items|) <= |items|
    ensures PagesUpTo(items, perPage, m) == items[..Cut(PagesEnd(m, perPage), |items|)]
  {
    if m > 0 {
      PagesUpToIsPrefix(items, perPage, m - 1);
      PageBetweenCuts(items, perPage, m);
      var a := Cut(PagesEnd(m - 1, perPage), |items|);
      var b := Cut(PagesEnd(m, perPage), |items|);
      assert items[..b] == items[..a] + items[a..b];
    }
  }

  /** Page m lies between the ends of the first m - 1 and the first m pages. */
  lemma PageBetweenCuts<T>(items: seq<T>, perPage: int, m: nat)
    requires perPage >= 1 && m >= 1
    ensures 0 <= Cut(PagesEnd(m - 1, perPage), |items|) <= Cut(PagesEnd(m, perPage), |items|) <= |items|
    ensures Page(items, m, perPage) == items[Cut(PagesEnd(m - 1, perPage), |items|)..Cut(PagesEnd(m, perPage), |items|)]
  {
    PageContents(items, m, perPage);
    PageStartIsPagesEnd(m, perPage);
    PagesEndIsProduct(m - 1, perPage);
    MulNonNegative(m - 1, perPage);
  }

  /** Reading every page in turn, from 1 to the last, gives back the whole list. */
  lemma AllPagesAreTheList<T>(items: seq<T>, perPage: int)
    requires perPage >= 1
    ensures PagesUpTo(items, perPage, TotalPages(|items|, perPage)) == items
  {
    var t := TotalPages(|items|, perPage);
    PagesUpToIsPrefix(items, perPage, t);
    PagesEndIsProduct(t, perPage);
  }

  /** "Previous": one page back, never below page 1. */
  function PreviousPage(page: int): (p: int)
    ensures p >= 1
    ensures page > 1 ==> p == page - 1
    ensures page <= 1 ==> p == 1
  {
    if page - 1 >= 1 then page - 1 else 1
  }

  /** "Next" as the code has it: `Math.min(prev + 1, totalPages)`. It never passes the
      last page, and below the last page it moves one up; with no pages (or a negative
      count) it moves to that count, below page 1. */
  function NextPageAsWritten(page: int, totalPages: int): (p: int)
    ensures p <= totalPages
    ensures page < totalPages ==> p == page + 1
    ensures page >= totalPages ==> p == totalPages
  {
    if page + 1 <= totalPages then page + 1 else totalPages
  }

  /** On an empty list there are no pages, the Next button is enabled (page 1 is not page 0)
      and pressing it moves to page 0. */
  lemma NextOnEmptyListGoesToPageZero()
    ensures TotalPages(0, 5) == 0
    ensures 1 != TotalPages(0, 5)
    ensures NextPageAsWritten(1, TotalPages(0, 5)) == 0
  {
  }

  /** Rows per page typed as "-3" is kept (`parseInt("-3") || 5` is -3), four patients then
      count -1 pages, the Next button is enabled and pressing it moves to page -1. */
  lemma NextWithNegativeRowsGoesBelowPageOne()
    ensures RowsPerPage("-3") == -3
    ensures TotalPages(4, -3) == -1
    ensures NextPageAsWritten(1, TotalPages(4, -3)) == -1
  {
    assert LeadingWs("-3") == 0;
    assert "-3"[1..] == "3";
    ParseMagnitudeOfDigits("3", true);
  }

  /** "Next", kept on page 1 when there are no pages. */
  function NextPage(page: int, totalPages: int): (p: int)
    ensures page >= 1 ==> p >= 1
    ensures p <= (if totalPages >= 1 then totalPages else 1)
    ensures page >= 1 && page < totalPages ==> p == page + 1
    ensures totalPages >= 1 ==> p == NextPageAsWritten(page, totalPages)
  {
    var last := if totalPages >= 1 then totalPages else 1;
    if page + 1 <= last then page + 1 else last
  }

  /** Repeated Next walks to the last page and stays there. */
  lemma NextReachesLastPage(page: int, totalPages: int)
    requires 1 <= page <= totalPages
    ensures NextPage(page, totalPages) == (if page < totalPages then page + 1 else totalPages)
    ensures NextPage(totalPages, totalPages) == totalPages
  {
  }

  /** The rows-per-page input: `parseInt(value) || 5` (no radix given, so "0x" reads hex). */
  function RowsPerPage(raw: string): (rows: int)
    ensures rows != 0
  {
    match ParseInt(raw, true)
    case Some(k) => if k != 0 then k else 5
    case None => 5
  }

  /** A number is taken as typed; zero and text without a number become 5. */
  lemma RowsPerPageReads(raw: string)
    ensures match ParseInt(raw, true)
            case Some(k) => RowsPerPage(raw) == (if k == 0 then 5 else k)
            case None => RowsPerPage(raw) == 5
  {
  }

  lemma RowsPerPageOfDecimal(n: nat)
    requires n >= 1
    ensures RowsPerPage(NatToRadix(n, 10)) == n
  {
    ParseIntOfDecimal(n, true);
  }

  lemma RowsPerPageWithoutDigits(raw: string)
    requires forall i :: 0 <= i < |raw| ==> !('0' <= raw[i] <= '9')
    ensures RowsPerPage(raw) == 5
  {
    ParseIntNeedsDigit(raw, true);
  }

  // ------------------------------------------------------------------
  // The patient list
  // ------------------------------------------------------------------

  /** A consultation request as the lookup returns it; `requestedAt` in milliseconds. */
  datatype Request = Request(patientId: string, requestedAt: int)
  datatype Profile = Profile(userId: string, firstName: Option<string>, lastName: Option<string>)
  datatype Patient = Patient(id: string, name: string, lastConsultation: int, notes: string,
                             status: string, diabetesType: string, lastGlucose: string)

  /** A value in a template literal: a missing name prints as "null". */
  function TemplateText(s: Option<string>): string {
    match s case Some(t) => t case None => "null"
  }

  /** `[...new Set(requests.map(r => r.patient_id))]`. */
  function PatientIds(requests: seq<Request>): (ids: seq<string>)
    ensures forall i, j :: 0 <= i < j < |ids| ==> ids[i] != ids[j]
    ensures forall i :: 0 <= i < |requests| ==> requests[i].patientId in ids
    ensures forall i :: 0 <= i < |ids| ==> exists j :: 0 <= j < |requests| && requests[j].patientId == ids[i]
  {
    var all := seq(|requests|, i requires 0 <= i < |requests| => requests[i].patientId);
    var ids := Dedup(all);
    assert forall i :: 0 <= i < |requests| ==> all[i] == requests[i].patientId;
    forall i | 0 <= i < |ids| ensures exists j :: 0 <= j < |requests| && requests[j].patientId == ids[i] {
      assert ids[i] in all;
      var j :| 0 <= j < |all| && all[j] == ids[i];
      assert requests[j].patientId == ids[i];
    }
    ids
  }

  /** The newest request time of one patient, as the first element after sorting that
      patient's requests newest first; None when the patient has none. */
  function LatestRequestedAt(requests: seq<Request>, patientId: string): (latest: Option<int>)
    ensures latest == None <==> forall i :: 0 <= i < |requests| ==> requests[i].patientId != patientId
    ensures latest != None ==>
              (exists i :: 0 <= i < |requests| && requests[i].patientId == patientId && requests[i].requestedAt == latest.value)
              && forall i :: 0 <= i < |requests| && requests[i].patientId == patientId ==> requests[i].requestedAt <= latest.value
  {
    if requests == [] then None
    else
      var rest := LatestRequestedAt(requests[1..], patientId);
      var r := requests[0];
      assert forall i :: 1 <= i < |requests| ==> requests[i] == requests[1..][i - 1];
      if r.patientId != patientId then rest
      else match rest
        case None => Some(r.requestedAt)
        case Some(t) => if r.requestedAt >= t then Some(r.requestedAt) else rest
  }

  /** One row of the patient table; `now` stands for `new Date()` when there is no request. */
  function PatientOf(profile: Profile, requests: seq<Request>, now: int): (p: Patient)
    ensures p.id == profile.userId
    ensures p.name == TemplateText(profile.firstName) + " " + TemplateText(profile.lastName)
    ensures p.lastConsultation == match LatestRequestedAt(requests, profile.userId)
                                  case Some(t) => t
                                  case None => now
  {
    var last := match LatestRequestedAt(requests, profile.userId) case Some(t) => t case None => now;
    Patient(profile.userId, TemplateText(profile.firstName) + " " + TemplateText(profile.lastName), last,
            "Patient suivi via consultation", "Stable", "Type 2", "7.2 mmol/L")
  }

  function PatientsOf(profiles: seq<Profile>, requests: seq<Request>, now: int): (patients: seq<Patient>)
    ensures |patients| == |profiles|
    ensures forall i :: 0 <= i < |profiles| ==> patients[i] == PatientOf(profiles[i], requests, now)
  {
    seq(|profiles|, i requires 0 <= i < |profiles| => PatientOf(profiles[i], requests, now))
  }

  /** `patients.find(p => p.id === id)`: the first patient with that id. */
  function FindPatient(patients: seq<Patient>, id: string): (found: Option<Patient>)
    ensures found == None <==> forall i :: 0 <= i < |patients| ==> patients[i].id != id
    ensures found != None ==> found.value.id == id && found.value in patients
  {
    if patients == [] then None
    else if patients[0].id == id then Some(patients[0])
    else
      assert forall i :: 1 <= i < |patients| ==> patients[i] == patients[1..][i - 1];
      FindPatient(patients[1..], id)
  }

  /** The patient found is the first one with the id. */
  lemma {:induction false} FindPatientIsFirst(patients: seq<Patient>, id: string, i: nat)
    requires i < |patients| && patients[i].id == id
    requires forall j :: 0 <= j < i ==> patients[j].id != id
    ensures FindPatient(patients, id) == Some(patients[i])
  {
    if i > 0 {
      FindPatientIsFirst(patients[1..], id, i - 1);
    }
  }

  /** What a backend query answers. */
  datatype Answer<T> = Rows(rows: Option<seq<T>>) | Failed(message: string)

  datatype ActionKind = View | Message | Teleconsultation | Call | Edit

  /** The five action modals: patient file, message, teleconsultation, call, edit. */
  datatype Modals = Modals(patientFile: bool, message: bool, teleconsultation: bool, call: bool, edit: bool)

  const AllClosed: Modals := Modals(false, false, false, false, false)

  function IsOpen(m: Modals, kind: ActionKind): bool {
    match kind
    case View => m.patientFile
    case Message => m.message
    case Teleconsultation => m.teleconsultation
    case Call => m.call
    case Edit => m.edit
  }

  /** Opening the modal of an action: that one is open and no other changes. */
  function Open(m: Modals, kind: ActionKind): (r: Modals)
    ensures IsOpen(r, kind)
    ensures forall k :: k != kind ==> IsOpen(r, k) == IsOpen(m, k)
  {
    match kind
    case View => m.(patientFile := true)
    case Message => m.(message := true)
    case Teleconsultation => m.(teleconsultation := true)
    case Call => m.(call := true)
    case Edit => m.(edit := true)
  }
  datatype PendingAction = PendingAction(kind: ActionKind, patientId: string, patientName: string)

  class PatientManagementView {
    var patients: seq<Patient>
    var itemsPerPage: int
    var patientsPage: int
    var consultationsPage: int
    var codeModalOpen: bool
    var patientCode: string
    var selectedAction: Option<PendingAction>
    var activePatient: Option<Patient>
    var modals: Modals

    /** The number of scheduled consultations in the planning table. */
    static const ConsultationCount: nat := 4

    /** The one fact every page computation needs: the rows-per-page setting is never 0
        (`parseInt(value) || 5` turns 0 into 5). The pages themselves can drop below 1. */
    ghost predicate Valid()
      reads this
    {
      itemsPerPage != 0
    }

    constructor ()
      ensures Valid() && patients == [] && itemsPerPage == 5 && patientsPage == 1 && consultationsPage == 1
      ensures !codeModalOpen && patientCode == [] && selectedAction == None && activePatient == None
      ensures modals == AllClosed
    {
      patients := [];
      itemsPerPage, patientsPage, consultationsPage := 5, 1, 1;
      codeModalOpen, patientCode, selectedAction, activePatient := false, [], None, None;
      modals := AllClosed;
    }

    function PatientsPageRows(): seq<Patient>
      reads this
    {
      Page(patients, patientsPage, itemsPerPage)
    }

    function TotalPatientsPages(): int
      reads this
      requires itemsPerPage != 0
    {
      TotalPages(|patients|, itemsPerPage)
    }

    method PreviousPatientsPage()
      modifies this
      ensures patientsPage == PreviousPage(old(patientsPage))
      ensures consultationsPage == old(consultationsPage) && itemsPerPage == old(itemsPerPage) && patients == old(patients)
      ensures codeModalOpen == old(codeModalOpen) && patientCode == old(patientCode)
      ensures selectedAction == old(selectedAction) && activePatient == old(activePatient) && modals == old(modals)
    {
      patientsPage := PreviousPage(patientsPage);
    }

    /** Next as the code has it: an empty list moves to page 0, a negative rows-per-page
        setting below that. */
    method NextPatientsPage()
      requires Valid()
      modifies this
      ensures Valid()
      ensures patientsPage == NextPageAsWritten(old(patientsPage), TotalPages(|patients|, itemsPerPage))
      ensures consultationsPage == old(consultationsPage) && itemsPerPage == old(itemsPerPage) && patients == old(patients)
      ensures codeModalOpen == old(codeModalOpen) && patientCode == old(patientCode)
      ensures selectedAction == old(selectedAction) && activePatient == old(activePatient) && modals == old(modals)
    {
      patientsPage := NextPageAsWritten(patientsPage, TotalPages(|patients|, itemsPerPage));
    }

    method PreviousConsultationsPage()
      modifies this
      ensures consultationsPage == PreviousPage(old(consultationsPage))
      ensures patientsPage == old(patientsPage) && itemsPerPage == old(itemsPerPage) && patients == old(patients)
      ensures codeModalOpen == old(codeModalOpen) && patientCode == old(patientCode)
      ensures selectedAction == old(selectedAction) && activePatient == old(activePatient) && modals == old(modals)
    {
      consultationsPage := PreviousPage(consultationsPage);
    }

    method NextConsultationsPage()
      requires Valid()
      modifies this
      ensures Valid()
      ensures consultationsPage == NextPageAsWritten(old(consultationsPage), TotalPages(ConsultationCount, itemsPerPage))
      ensures patientsPage == old(patientsPage) && itemsPerPage == old(itemsPerPage) && patients == old(patients)
      ensures codeModalOpen == old(codeModalOpen) && patientCode == old(patientCode)
      ensures selectedAction == old(selectedAction) && activePatient == old(activePatient) && modals == old(modals)
    {
      consultationsPage := NextPageAsWritten(consultationsPage, TotalPages(ConsultationCount, itemsPerPage));
    }

    /** The rows-per-page input of the patient table: the setting is shared, but only the
        patient table goes back to page 1. */
    method SetPatientsRowsPerPage(raw: string)
      modifies this
      ensures Valid()
      ensures itemsPerPage == RowsPerPage(raw) && patientsPage == 1
      ensures consultationsPage == old(consultationsPage) && patients == old(patients)
      ensures codeModalOpen == old(codeModalOpen) && patientCode == old(patientCode)
      ensures selectedAction == old(selectedAction) && activePatient == old(activePatient) && modals == old(modals)
    {
      itemsPerPage := RowsPerPage(raw);
      patientsPage := 1;
    }

    /** The rows-per-page input of the consultation table. */
    method SetConsultationsRowsPerPage(raw: string)
      modifies this
      ensures Valid()
      ensures itemsPerPage == RowsPerPage(raw) && consultationsPage == 1
      ensures patientsPage == old(patientsPage) && patients == old(patients)
      ensures codeModalOpen == old(codeModalOpen) && patientCode == old(patientCode)
      ensures selectedAction == old(selectedAction) && activePatient == old(activePatient) && modals == old(modals)
    {
      itemsPerPage := RowsPerPage(raw);
      consultationsPage := 1;
    }

    /** handlePatientAction: remember the action and ask for the patient's code. */
    method HandlePatientAction(kind: ActionKind, patientId: string, patientName: string)
      modifies this
      ensures selectedAction == Some(PendingAction(kind, patientId, patientName)) && codeModalOpen
      ensures patientCode == old(patientCode) && activePatient == old(activePatient)
      ensures modals == old(modals)
      ensures patients == old(patients) && itemsPerPage == old(itemsPerPage)
      ensures patientsPage == old(patientsPage) && consultationsPage == old(consultationsPage)
    {
      selectedAction := Some(PendingAction(kind, patientId, patientName));
      codeModalOpen := true;
    }

    /** The code input stores what is typed in upper case. */
    method TypeCode(raw: string)
      modifies this
      ensures patientCode == ToUpper(raw)
      ensures codeModalOpen == old(codeModalOpen) && selectedAction == old(selectedAction)
      ensures activePatient == old(activePatient) && modals == old(modals)
      ensures patients == old(patients) && itemsPerPage == old(itemsPerPage)
      ensures patientsPage == old(patientsPage) && consultationsPage == old(consultationsPage)
    {
      patientCode := ToUpper(raw);
    }

    /** Cancel: close the code modal and clear the code; the pending action stays. */
    method CancelCode()
      modifies this
      ensures !codeModalOpen && patientCode == [] && selectedAction == old(selectedAction)
      ensures activePatient == old(activePatient) && modals == old(modals)
      ensures patients == old(patients) && itemsPerPage == old(itemsPerPage)
      ensures patientsPage == old(patientsPage) && consultationsPage == old(consultationsPage)
    {
      codeModalOpen := false;
      patientCode := [];
    }

    /** handlePatientCodeSubmit. A blank code, no pending action or a patient that is not in
        the list changes nothing. Otherwise the patient becomes active, the modal of the
        action opens, and the code modal closes with the code and the pending action cleared. */
    method SubmitCode()
      modifies this
      ensures Trim(old(patientCode)) == [] || old(selectedAction) == None
              || FindPatient(patients, old(selectedAction).value.patientId) == None ==>
                codeModalOpen == old(codeModalOpen) && patientCode == old(patientCode)
                && selectedAction == old(selectedAction) && activePatient == old(activePatient)
                && modals == old(modals)
      ensures Trim(old(patientCode)) != [] && old(selectedAction) != None
              && FindPatient(patients, old(selectedAction).value.patientId) != None ==>
                activePatient == FindPatient(patients, old(selectedAction).value.patientId)
                && modals == Open(old(modals), old(selectedAction).value.kind)
                && !codeModalOpen && patientCode == [] && selectedAction == None
      ensures patients == old(patients) && itemsPerPage == old(itemsPerPage)
      ensures patientsPage == old(patientsPage) && consultationsPage == old(consultationsPage)
    {
      if Trim(patientCode) == [] || selectedAction == None {
        return;
      }
      var action := selectedAction.value;
      var patient := FindPatient(patients, action.patientId);
      if patient == None {
        return;
      }
      activePatient := patient;
      modals := Open(modals, action.kind);
      codeModalOpen := false;
      patientCode := [];
      selectedAction := None;
    }

    /** fetchPatients: nothing without a professional code; an error from either query is
        logged and the list kept; no request gives an empty list; otherwise one row per
        profile returned for the deduplicated patient ids. */
    method FetchPatients(professionalCode: Option<string>, requests: Answer<Request>,
                         profiles: Answer<Profile>, now: int)
      modifies this
      ensures !TruthyText(professionalCode) || requests.Failed? ==> patients == old(patients)
      ensures TruthyText(professionalCode) && requests.Rows? ==>
                var rows := if requests.rows == None then [] else requests.rows.value;
                if PatientIds(rows) == [] then patients == []
                else if profiles.Failed? then patients == old(patients)
                else patients == PatientsOf(if profiles.rows == None then [] else profiles.rows.value, rows, now)
      ensures itemsPerPage == old(itemsPerPage) && patientsPage == old(patientsPage)
      ensures consultationsPage == old(consultationsPage)
      ensures codeModalOpen == old(codeModalOpen) && patientCode == old(patientCode)
      ensures selectedAction == old(selectedAction) && activePatient == old(activePatient) && modals == old(modals)
    {
      if !TruthyText(professionalCode) || requests.Failed? {
        return;
      }
      var rows := if requests.rows == None then [] else requests.rows.value;
      if PatientIds(rows) == [] {
        patients := [];
        return;
      }
      if profiles.Failed? {
        return;
      }
      patients := PatientsOf(if profiles.rows == None then [] else profiles.rows.value, rows, now);
    }
  }

  /** The code gate only lets a submit through with a non-blank code: a code of spaces is
      blank after trimming. */
  lemma BlankCodeIsRejected(code: string)
    requires forall i :: 0 <= i < |code| ==> code[i] == ' '
    ensures Trim(code) == []
  {
    TrimEmptyIff(code);
  }
}
