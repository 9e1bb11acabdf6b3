/** The predictive-alerts panel of the home screen: classification of the current glucose
    value against the fixed 70/180 mg/dL limits, the urgent counter and the running
    statistics that react to each new value, the AI alert list and its removal. The
    entered value arrives as the raw text together with what `parseFloat` makes of it
    (`None` for NaN); the AI service's answer and the random fallback ids are inputs. */
module PredictiveAlerts {
  import opened JsText

  const LowLimit: real := 70.0
  const HighLimit: real := 180.0

  datatype GlucoseStatus = Low | Normal | High

  /** getGlucoseStatus. */
  function StatusOf(value: real): (status: GlucoseStatus)
    ensures status == Low <==> value < LowLimit
    ensures status == Normal <==> LowLimit <= value <= HighLimit
    ensures status == High <==> value > HighLimit
  {
    if value < LowLimit then Low
    else if value <= HighLimit then Normal
    else High
  }

  // ------------------------------------------------------------------
  // AI alerts
  // ------------------------------------------------------------------

  datatype Severity = Critical | HighSeverity | Medium

  /** One alert as the AI service returns it; any field may be absent. */
  datatype AiAlert = AiAlert(id: Option<string>, risk: Option<string>, message: Option<string>, time: Option<string>)

  /** One alert as the panel holds it. */
  datatype Alert = Alert(id: string, kind: Option<string>, message: string, severity: Severity, time: Option<string>)

  /** The severity of an AI risk: critical for 'Hypo risk', high for 'Hyper risk', medium
      for any other risk or none. */
  function SeverityOf(risk: Option<string>): (s: Severity)
    ensures s == Critical <==> risk == Some("Hypo risk")
    ensures s == HighSeverity <==> risk == Some("Hyper risk")
    ensures s == Medium <==> risk != Some("Hypo risk") && risk != Some("Hyper risk")
  {
    if risk == Some("Hypo risk") then Critical
    else if risk == Some("Hyper risk") then HighSeverity
    else Medium
  }

  /** The first non-empty text of the three, as `a || b || fallback` picks it. */
  function FirstText(a: Option<string>, b: Option<string>, fallback: string): (r: string)
    ensures TruthyText(a) ==> r == a.value
    ensures !TruthyText(a) && TruthyText(b) ==> r == b.value
    ensures !TruthyText(a) && !TruthyText(b) ==> r == fallback
  {
    if TruthyText(a) then a.value else if TruthyText(b) then b.value else fallback
  }

  /** Formatting the AI answer: `(aiResponse.alerts || []).map(...)`. `freshId(i)` stands
      for the random id drawn for the i-th alert; `mainMessage` is `main_alert?.message`. */
  function FormatAlerts(ai: Option<seq<AiAlert>>, mainMessage: Option<string>, freshId: nat -> string): (alerts: seq<Alert>)
    ensures ai == None ==> alerts == []
    ensures ai != None ==> |alerts| == |ai.value|
    ensures ai != None ==> forall i :: 0 <= i < |alerts| ==>
              alerts[i] == FormatAlert(ai.value[i], mainMessage, freshId(i))
  {
    match ai
    case None => []
    case Some(list) =>
      seq(|list|, i requires 0 <= i < |list| => FormatAlert(list[i], mainMessage, freshId(i)))
  }

  function FormatAlert(a: AiAlert, mainMessage: Option<string>, freshId: string): (alert: Alert)
    ensures alert.id == (if TruthyText(a.id) then a.id.value else freshId)
    ensures alert.kind == a.risk && alert.time == a.time
    ensures alert.severity == SeverityOf(a.risk)
    ensures alert.message == FirstText(a.message, mainMessage, "No message")
  {
    Alert(if TruthyText(a.id) then a.id.value else freshId, a.risk,
          FirstText(a.message, mainMessage, "No message"), SeverityOf(a.risk), a.time)
  }

  /** Every formatted alert has a message to show. */
  lemma FormattedMessageNeverEmpty(a: AiAlert, mainMessage: Option<string>, freshId: string)
    ensures FormatAlert(a, mainMessage, freshId).message != []
  {
  }

  /** The filter of handleMarkAsRead. */
  function RemoveAlert(alerts: seq<Alert>, alertId: string): (rest: seq<Alert>)
    ensures |rest| <= |alerts|
    ensures forall i :: 0 <= i < |rest| ==> rest[i].id != alertId && rest[i] in alerts
  {
    FilterMembers(alerts, (a: Alert) => a.id != alertId);
    Filter(alerts, (a: Alert) => a.id != alertId)
  }

  /** handleMarkAsRead removes exactly the alerts with that id and keeps the others in
      their order. */
  lemma RemoveAlertExactly(alerts: seq<Alert>, alertId: string)
    ensures forall i :: 0 <= i < |RemoveAlert(alerts, alertId)| ==>
              RemoveAlert(alerts, alertId)[i].id != alertId && RemoveAlert(alerts, alertId)[i] in alerts
    ensures forall i :: 0 <= i < |alerts| && alerts[i].id != alertId ==> alerts[i] in RemoveAlert(alerts, alertId)
    ensures IsSubsequence(RemoveAlert(alerts, alertId), alerts)
  {
    FilterMembers(alerts, (a: Alert) => a.id != alertId);
    FilterIsSubsequence(alerts, (a: Alert) => a.id != alertId);
  }

  /** Marking an id that no alert has changes nothing. */
  lemma RemoveAbsentAlert(alerts: seq<Alert>, alertId: string)
    requires forall i :: 0 <= i < |alerts| ==> alerts[i].id != alertId
    ensures RemoveAlert(alerts, alertId) == alerts
  {
    FilterAll(alerts, (a: Alert) => a.id != alertId);
  }

  // ------------------------------------------------------------------
  // The urgent counter and the statistics
  // ------------------------------------------------------------------

  /** One value of the glucose input: its text and `parseFloat` of it (None for NaN). */
  datatype GlucoseInput = GlucoseInput(raw: string, parsed: Option<real>)

  /** Whether an effect reacts to the input: a number, and text different from the last
      text it processed. */
  predicate IsNewValue(input: GlucoseInput, last: Option<string>) {
    input.parsed != None && last != Some(input.raw)
  }

  datatype ToastKind = ErrorToast | SuccessToast
  /** A toast raised by the urgent effect, with the counter value it shows. */
  datatype Toast = Toast(kind: ToastKind, status: GlucoseStatus, urgentCount: nat)

  datatype UrgentState = UrgentState(count: nat, prev: Option<string>)

  /** The urgent-counter effect: on a new value, low or high adds one and raises an error
      toast, normal resets to zero and raises a success toast, and the text is remembered;
      anything else changes nothing and raises nothing. */
  function UrgentStep(s: UrgentState, input: GlucoseInput): (r: (UrgentState, Option<Toast>))
    ensures !IsNewValue(input, s.prev) ==> r == (s, None)
    ensures IsNewValue(input, s.prev) ==> r.0.prev == Some(input.raw) && r.1 != None
    ensures IsNewValue(input, s.prev) && StatusOf(input.parsed.value) != Normal ==>
              r.0.count == s.count + 1 && r.1 == Some(Toast(ErrorToast, StatusOf(input.parsed.value), s.count + 1))
    ensures IsNewValue(input, s.prev) && StatusOf(input.parsed.value) == Normal ==>
              r.0.count == 0 && r.1 == Some(Toast(SuccessToast, Normal, 0))
  {
    if !IsNewValue(input, s.prev) then (s, None)
    else
      var status := StatusOf(input.parsed.value);
      if status == Normal then (UrgentState(0, Some(input.raw)), Some(Toast(SuccessToast, Normal, 0)))
      else (UrgentState(s.count + 1, Some(input.raw)), Some(Toast(ErrorToast, status, s.count + 1)))
  }

  datatype Stats = Stats(total: nat, urgent: nat, monitor: nat)
  datatype StatsState = StatsState(stats: Stats, last: Option<string>)

  /** The statistics effect: a new value adds one to total, and one to urgent above 180 or to
      monitor below 70; anything else changes nothing. */
  function StatsStep(s: StatsState, input: GlucoseInput): (r: StatsState)
    ensures !IsNewValue(input, s.last) ==> r == s
    ensures IsNewValue(input, s.last) ==>
              r.last == Some(input.raw) && r.stats.total == s.stats.total + 1
              && r.stats.urgent == s.stats.urgent + (if input.parsed.value > HighLimit then 1 else 0)
              && r.stats.monitor == s.stats.monitor + (if input.parsed.value < LowLimit then 1 else 0)
  {
    if !IsNewValue(input, s.last) then s
    else
      var value := input.parsed.value;
      var st := s.stats;
      var next :=
        if value > HighLimit then Stats(st.total + 1, st.urgent + 1, st.monitor)
        else if value < LowLimit then Stats(st.total + 1, st.urgent, st.monitor + 1)
        else Stats(st.total + 1, st.urgent, st.monitor);
      StatsState(next, Some(input.raw))
  }

  /** The statistics after a run of input values, from the initial all-zero state. */
  function StatsAfter(inputs: seq<GlucoseInput>): StatsState
    decreases |inputs|
  {
    if inputs == [] then StatsState(Stats(0, 0, 0), None)
    else StatsStep(StatsAfter(inputs[..|inputs| - 1]), inputs[|inputs| - 1])
  }

  /** urgent + monitor never exceeds total, and total never exceeds the number of values. */
  lemma {:induction false} StatsBounded(inputs: seq<GlucoseInput>)
    ensures var s := StatsAfter(inputs).stats;
            s.urgent + s.monitor <= s.total <= |inputs|
    decreases |inputs|
  {
    if inputs != [] {
      StatsBounded(inputs[..|inputs| - 1]);
    }
  }

  /** Feeding the same text twice in a row counts it once. */
  lemma RepeatedValueCountedOnce(inputs: seq<GlucoseInput>, input: GlucoseInput)
    ensures StatsAfter(inputs + [input, input]) == StatsAfter(inputs + [input])
  {
    var once := inputs + [input];
    var twice := inputs + [input, input];
    assert twice[..|twice| - 1] == once;
    assert once[..|once| - 1] == inputs;
  }

  /** The panel's held state. */
  class AlertPanel {
    var alerts: seq<Alert>
    var urgent: UrgentState
    var stats: StatsState
    /** The toasts raised so far, oldest first. */
    var toasts: seq<Toast>

    /** Both effects see the same values, so they remember the same text; the counter
        only counts values that total has counted, and urgent + monitor stays within total. */
    ghost predicate Valid()
      reads this
    {
      urgent.prev == stats.last
      && urgent.count <= stats.stats.total
      && stats.stats.urgent + stats.stats.monitor <= stats.stats.total
    }

    constructor ()
      ensures Valid() && alerts == [] && toasts == []
      ensures urgent == UrgentState(0, None) && stats == StatsState(Stats(0, 0, 0), None)
    {
      alerts := [];
      urgent := UrgentState(0, None);
      stats := StatsState(Stats(0, 0, 0), None);
      toasts := [];
    }

    /** A render with a new glucose value runs the urgent effect, then the statistics
        effect. */
    method OnGlucoseValue(input: GlucoseInput)
      requires Valid()
      modifies this
      ensures Valid()
      ensures urgent == UrgentStep(old(urgent), input).0
      ensures stats == StatsStep(old(stats), input)
      ensures toasts == old(toasts) + (match UrgentStep(old(urgent), input).1
                                       case None => []
                                       case Some(t) => [t])
      ensures alerts == old(alerts)
    {
      var step := UrgentStep(urgent, input);
      urgent := step.0;
      match step.1 {
        case None =>
        case Some(t) => toasts := toasts + [t];
      }
      stats := StatsStep(stats, input);
    }

    /** The AI answer replaces the list. */
    method SetAiAlerts(ai: Option<seq<AiAlert>>, mainMessage: Option<string>, freshId: nat -> string)
      modifies this
      ensures alerts == FormatAlerts(ai, mainMessage, freshId)
      ensures urgent == old(urgent) && stats == old(stats) && toasts == old(toasts)
    {
      alerts := FormatAlerts(ai, mainMessage, freshId);
    }

    /** handleMarkAsRead. */
    method MarkAsRead(alertId: string)
      modifies this
      ensures alerts == RemoveAlert(old(alerts), alertId)
      ensures urgent == old(urgent) && stats == old(stats) && toasts == old(toasts)
    {
      alerts := RemoveAlert(alerts, alertId);
    }

    /** handleDismissAll. */
    method DismissAll()
      modifies this
      ensures alerts == []
      ensures urgent == old(urgent) && stats == old(stats) && toasts == old(toasts)
    {
      alerts := [];
    }
  }
}
