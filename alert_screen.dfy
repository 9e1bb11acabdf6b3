/** The predictive-alert screen: the queue of threshold alerts that each prediction
    rewrites, the duration labels of the timed alerts, the countdown of one timed alert,
    the one-at-a-time reveal of the fixed timed alerts, and the chart window of the most
    recent readings. Predicted values, thresholds and `Date.now()` are inputs; a timer tick
    is an explicit step. */
module PredictiveAlertScreen {
  import opened JsText
  import GlucoseContext

  // ------------------------------------------------------------------
  // The threshold alert queue
  // ------------------------------------------------------------------

  datatype Settings = Settings(lowThreshold: int, highThreshold: int)

  const DefaultSettings: Settings := Settings(70, 180)

  datatype QueueKind = Hypo | Hyper
  datatype QueueSeverity = SeverityHigh | SeverityMedium

  /** A queued alert; its message states the expected glucose value. */
  datatype QueuedAlert = QueuedAlert(id: int, kind: QueueKind, expected: int, severity: QueueSeverity)

  /** The previous alerts that survive a check. */
  const KeptAlerts: nat := 4

  /** The alert a predicted value raises: hypo (severity high, id `now`) below the low
      threshold; otherwise hyper (severity medium, id `now + 1`) above the high one;
      otherwise none. */
  function NewAlerts(predicted: int, settings: Settings, now: int): (raised: seq<QueuedAlert>)
    ensures predicted < settings.lowThreshold ==> raised == [QueuedAlert(now, Hypo, predicted, SeverityHigh)]
    ensures predicted >= settings.lowThreshold && predicted > settings.highThreshold ==>
              raised == [QueuedAlert(now + 1, Hyper, predicted, SeverityMedium)]
    ensures settings.lowThreshold <= predicted <= settings.highThreshold ==> raised == []
  {
    if predicted < settings.lowThreshold then [QueuedAlert(now, Hypo, predicted, SeverityHigh)]
    else if predicted > settings.highThreshold then [QueuedAlert(now + 1, Hyper, predicted, SeverityMedium)]
    else []
  }

  /** checkAlerts: `[...newAlerts, ...prev.slice(0, 4)]`. */
  function CheckAlertsOf(queue: seq<QueuedAlert>, predicted: int, settings: Settings, now: int): (q: seq<QueuedAlert>)
    ensures |q| <= KeptAlerts + 1
  {
    NewAlerts(predicted, settings, now) + Slice(queue, 0, KeptAlerts)
  }

  /** After a check the queue is the new alert, if any, then the first four previous alerts
      in their order; so it never holds more than five. */
  lemma CheckAlertsShape(queue: seq<QueuedAlert>, predicted: int, settings: Settings, now: int)
    ensures var raised := NewAlerts(predicted, settings, now);
            var q := CheckAlertsOf(queue, predicted, settings, now);
            var kept := if |queue| <= KeptAlerts then |queue| else KeptAlerts;
            q == raised + queue[..kept] && |q| <= KeptAlerts + 1
  {
    var kept := if |queue| <= KeptAlerts then |queue| else KeptAlerts;
    assert Slice(queue, 0, KeptAlerts) == queue[..kept];
  }

  /** A value within both thresholds adds nothing but still drops the fifth and later alerts. */
  lemma InRangeOnlyTruncates(queue: seq<QueuedAlert>, predicted: int, settings: Settings, now: int)
    requires settings.lowThreshold <= predicted <= settings.highThreshold
    ensures CheckAlertsOf(queue, predicted, settings, now) == queue[..if |queue| <= KeptAlerts then |queue| else KeptAlerts]
  {
    CheckAlertsShape(queue, predicted, settings, now);
  }

  /** The hypo test comes first: with thresholds set so that a value is both below the low
      one and above the high one, the alert is hypo. */
  lemma HypoCheckedFirst(queue: seq<QueuedAlert>, predicted: int, settings: Settings, now: int)
    requires predicted < settings.lowThreshold && predicted > settings.highThreshold
    ensures CheckAlertsOf(queue, predicted, settings, now)[0].kind == Hypo
  {
  }

  class AlertQueue {
    var settings: Settings
    /** Newest first. */
    var queue: seq<QueuedAlert>

    ghost predicate Valid()
      reads this
    {
      |queue| <= KeptAlerts + 1
    }

    constructor ()
      ensures Valid() && settings == DefaultSettings && queue == []
    {
      settings := DefaultSettings;
      queue := [];
    }

    /** The low-threshold input: `Number(e.target.value)`. */
    method SetLowThreshold(value: int)
      modifies this
      ensures settings == old(settings).(lowThreshold := value) && queue == old(queue)
    {
      settings := settings.(lowThreshold := value);
    }

    method SetHighThreshold(value: int)
      modifies this
      ensures settings == old(settings).(highThreshold := value) && queue == old(queue)
    {
      settings := settings.(highThreshold := value);
    }

    method CheckAlerts(predicted: int, now: int)
      modifies this
      ensures queue == CheckAlertsOf(old(queue), predicted, settings, now)
      ensures settings == old(settings)
      ensures Valid()
    {
      CheckAlertsShape(queue, predicted, settings, now);
      queue := CheckAlertsOf(queue, predicted, settings, now);
    }
  }

  // ------------------------------------------------------------------
  // Duration labels
  // ------------------------------------------------------------------

  /** parseTotalMinutes: `Math.max(1, parseInt(time.split(' ')[0], 10) || 1)`. */
  function ParseTotalMinutes(time: string): (minutes: int)
    ensures minutes >= 1
  {
    var parsed := ParseInt(Split(time, ' ')[0], false);
    var n := match parsed case Some(k) => (if k != 0 then k else 1) case None => 1;
    if n >= 1 then n else 1
  }

  /** The leading number of the label when it is at least one; one when it is zero, negative
      or missing. */
  lemma ParseTotalMinutesReadsLeadingNumber(time: string)
    ensures match ParseInt(Split(time, ' ')[0], false)
            case Some(k) => ParseTotalMinutes(time) == if k >= 1 then k else 1
            case None => ParseTotalMinutes(time) == 1
  {
  }

  /** A label that starts with decimal digits and a space gives their value in minutes, or
      one for zero. */
  lemma LeadingDigitsLabel(digits: string, rest: string)
    requires |digits| >= 1
    requires forall i :: 0 <= i < |digits| ==> DigitValue(digits[i], 10) >= 0
    ensures ParseTotalMinutes(digits + " " + rest) == if DigitsValue(digits, 10) >= 1 then DigitsValue(digits, 10) else 1
  {
    assert ' ' !in digits by {
      forall i | 0 <= i < |digits| ensures digits[i] != ' ' {
        assert DigitValue(digits[i], 10) >= 0;
      }
    }
    assert digits + " " + rest == digits + [' '] + rest;
    SplitAtFirst(digits, ' ', rest);
    ParseIntOfDigits(digits, false);
  }

  /** A label without any digit falls back to one minute. */
  lemma LabelWithoutDigits(time: string)
    requires forall i :: 0 <= i < |time| ==> !('0' <= time[i] <= '9')
    ensures ParseTotalMinutes(time) == 1
  {
    var first := Split(time, ' ')[0];
    SplitFirstIsPrefix(time, ' ');
    assert forall i :: 0 <= i < |first| ==> first[i] == time[i];
    ParseIntNeedsDigit(first, false);
  }

  /** A zero count falls back to one minute. */
  lemma ZeroLabel(rest: string)
    ensures ParseTotalMinutes("0 " + rest) == 1
  {
    assert "0 " + rest == "0" + " " + rest;
    assert DigitValue('0', 10) == 0;
    LeadingDigitsLabel("0", rest);
  }

  /** A two-digit count followed by " min". */
  lemma TwoDigitLabel(d1: char, d0: char)
    requires '1' <= d1 <= '9' && '0' <= d0 <= '9'
    ensures ParseTotalMinutes([d1, d0] + " min") == (d1 as int - '0' as int) * 10 + (d0 as int - '0' as int)
  {
    var digits := [d1, d0];
    assert [d1, d0] + " min" == digits + " " + "min";
    assert digits[..1] == [d1];
    assert DigitsValue(digits, 10) == DigitsValue([d1], 10) * 10 + DigitValue(d0, 10);
    assert [d1][..0] == [];
    LeadingDigitsLabel(digits, "min");
  }

  // ------------------------------------------------------------------
  // The timed alerts and their reveal
  // ------------------------------------------------------------------

  datatype TimedKind = HypoRisk | HyperRisk | StableKind
  datatype TimedAlert = TimedAlert(kind: TimedKind, message: string, time: string)

  /** The fixed alerts the toast walks through, in order. */
  const TimedAlerts: seq<TimedAlert> := [
    TimedAlert(HypoRisk, "Hypo risk in 15 min", "15 min"),
    TimedAlert(HyperRisk, "Hyper risk in 30 min", "30 min"),
    TimedAlert(HyperRisk, "Hyper risk in 45 min", "45 min"),
    TimedAlert(StableKind, "Stable", "60 min")
  ]

  /** The four labels read as 15, 30, 45 and 60 minutes. */
  lemma TimedAlertDuration(i: nat)
    requires i < |TimedAlerts|
    ensures ParseTotalMinutes(TimedAlerts[i].time) == 15 * (i + 1)
  {
    if i == 0 { FifteenMinutes(); }
    else if i == 1 { ThirtyMinutes(); }
    else if i == 2 { FortyFiveMinutes(); }
    else { SixtyMinutes(); }
  }

  lemma FifteenMinutes()
    ensures ParseTotalMinutes(TimedAlerts[0].time) == 15
  {
    TwoDigitLabel('1', '5');
    assert TimedAlerts[0].time == ['1', '5'] + " min";
  }

  lemma ThirtyMinutes()
    ensures ParseTotalMinutes(TimedAlerts[1].time) == 30
  {
    TwoDigitLabel('3', '0');
    assert TimedAlerts[1].time == ['3', '0'] + " min";
  }

  lemma FortyFiveMinutes()
    ensures ParseTotalMinutes(TimedAlerts[2].time) == 45
  {
    TwoDigitLabel('4', '5');
    assert TimedAlerts[2].time == ['4', '5'] + " min";
  }

  lemma SixtyMinutes()
    ensures ParseTotalMinutes(TimedAlerts[3].time) == 60
  {
    TwoDigitLabel('6', '0');
    assert TimedAlerts[3].time == ['6', '0'] + " min";
  }

  datatype RevealState = RevealState(index: nat, visible: bool, toastDismissals: nat)

  const RevealStart: RevealState := RevealState(0, true, 0)

  /** handleAlertDismiss: move to the next alert while there is one, otherwise hide and
      dismiss the toast. */
  function DismissStep(s: RevealState): (r: RevealState)
    ensures s.index < |TimedAlerts| ==> r.index < |TimedAlerts|
    ensures s.index <= r.index && s.toastDismissals <= r.toastDismissals <= s.toastDismissals + 1
  {
    if s.index < |TimedAlerts| - 1 then s.(index := s.index + 1)
    else s.(visible := false, toastDismissals := s.toastDismissals + 1)
  }

  /** What the component renders: nothing once hidden, otherwise the current alert. */
  function Shown(s: RevealState): (shown: Option<TimedAlert>)
    ensures shown != None ==> s.visible && s.index < |TimedAlerts| && shown.value == TimedAlerts[s.index]
    ensures s.visible && s.index < |TimedAlerts| ==> shown != None
  {
    if !s.visible || |TimedAlerts| == 0 || s.index >= |TimedAlerts| then None
    else Some(TimedAlerts[s.index])
  }

  function DismissTimes(n: nat): RevealState
  {
    if n == 0 then RevealStart else DismissStep(DismissTimes(n - 1))
  }

  /** After n dismissals (or expirations) the n-th alert is shown while n < 4; from the fourth
      on nothing is shown, and the toast has been dismissed once per dismissal past the last alert. */
  lemma {:induction false} RevealAfter(n: nat)
    ensures n < |TimedAlerts| ==> DismissTimes(n) == RevealState(n, true, 0) && Shown(DismissTimes(n)) == Some(TimedAlerts[n])
    ensures n >= |TimedAlerts| ==>
              DismissTimes(n) == RevealState(|TimedAlerts| - 1, false, n - |TimedAlerts| + 1)
              && Shown(DismissTimes(n)) == None
  {
    if n > 0 {
      RevealAfter(n - 1);
    }
  }

  class AlertReveal {
    var index: nat
    var visible: bool
    var toastDismissals: nat

    function State(): RevealState
      reads this
    {
      RevealState(index, visible, toastDismissals)
    }

    constructor ()
      ensures State() == RevealStart
    {
      index, visible, toastDismissals := 0, true, 0;
    }

    method Dismiss()
      modifies this
      ensures State() == DismissStep(old(State()))
    {
      if index < |TimedAlerts| - 1 {
        index := index + 1;
      } else {
        visible := false;
        toastDismissals := toastDismissals + 1;
      }
    }
  }

  // ------------------------------------------------------------------
  // The countdown of one timed alert
  // ------------------------------------------------------------------

  datatype Countdown = Countdown(total: nat, remaining: nat, running: bool, expirations: nat)

  /** A raised countdown for a label: the label's minutes in seconds, the timer running. */
  function StartFor(time: string): (c: Countdown)
    ensures c.total >= 60 && c.remaining == c.total && c.running && c.expirations == 0
  {
    var total := ParseTotalMinutes(time) * 60;
    Countdown(total, total, true, 0)
  }

  /** One interval tick: above one second the count goes down by one; at one second or less
      it becomes zero, the timer stops and the expiry callback fires; a stopped timer does
      not tick. */
  function Tick(c: Countdown): (d: Countdown)
    ensures d.total == c.total
    ensures !c.running ==> d == c
    ensures c.running && c.remaining > 1 ==> d == c.(remaining := c.remaining - 1)
    ensures c.running && c.remaining <= 1 ==> d == c.(remaining := 0, running := false, expirations := c.expirations + 1)
  {
    if !c.running then c
    else if c.remaining <= 1 then c.(remaining := 0, running := false, expirations := c.expirations + 1)
    else c.(remaining := c.remaining - 1)
  }

  /** n ticks in a row: the count never rises and the expiry fires at most once, after
      which the timer is stopped. */
  function Ticks(c: Countdown, n: nat): (d: Countdown)
    ensures d.total == c.total && d.remaining <= c.remaining
    ensures d.expirations == c.expirations || (d.expirations == c.expirations + 1 && !d.running)
  {
    if n == 0 then c else Tick(Ticks(c, n - 1))
  }

  /** From a raised countdown of `total` seconds the count goes down one per tick and, at the
      total-th tick, reaches zero, stops and expires exactly once, whatever follows. */
  lemma {:induction false} CountdownRun(total: nat, n: nat)
    requires total >= 1
    ensures n < total ==> Ticks(Countdown(total, total, true, 0), n) == Countdown(total, total - n, true, 0)
    ensures n >= total ==> Ticks(Countdown(total, total, true, 0), n) == Countdown(total, 0, false, 1)
  {
    if n > 0 {
      CountdownRun(total, n - 1);
    }
  }

  /** The clock display: whole minutes and the seconds left over. */
  function Clock(remaining: nat): (ms: (nat, nat))
    ensures ms.0 * 60 + ms.1 == remaining && ms.1 < 60
  {
    (remaining / 60, remaining % 60)
  }

  /** The clock text, minutes then the seconds padded to two digits. */
  function ClockText(remaining: nat): (text: string)
    ensures |text| >= 4 && text[|text| - 3] == ':'
  {
    var (m, s) := Clock(remaining);
    NatToRadix(m, 10) + ":" + TwoDigits(s)
  }

  /** The clock text reads back: split at ':' it gives the minutes and the padded
      seconds, and parsing both gives the count back. */
  lemma ClockTextReadsBack(remaining: nat)
    ensures var parts := Split(ClockText(remaining), ':');
            |parts| == 2 &&
            ParseInt(parts[0], false) == Some(remaining / 60) &&
            ParseInt(parts[1], false) == Some(remaining % 60) &&
            parts[1] == PadStart(NatToRadix(remaining % 60, 10), 2, '0') &&
            (remaining / 60) * 60 + remaining % 60 == remaining
  {
    ClockTextParts(remaining);
    ParseIntOfDecimal(remaining / 60, false);
    ParseIntOfTwoDigits(remaining % 60, false);
    TwoDigitsIsPadStart(remaining % 60);
  }

  lemma ClockTextParts(remaining: nat)
    ensures Split(ClockText(remaining), ':') == [NatToRadix(remaining / 60, 10), TwoDigits(remaining % 60)]
  {
    var m := NatToRadix(remaining / 60, 10);
    var s := TwoDigits(remaining % 60);
    assert ClockText(remaining) == m + [':'] + s;
    assert ':' !in m by {
      forall i | 0 <= i < |m| ensures m[i] != ':' { assert DigitValue(m[i], 10) >= 0; }
    }
    assert ':' !in s by { assert DigitValue(s[0], 10) >= 0 && DigitValue(s[1], 10) >= 0; }
    SplitAtFirst(m, ':', s);
    SplitWithoutSeparator(s, ':');
  }

  /** The seconds elapsed: between zero and the total while the count is within the total. */
  function Elapsed(c: Countdown): (e: int)
    ensures c.remaining <= c.total ==> 0 <= e <= c.total
    ensures e + c.remaining == c.total
  {
    c.total - c.remaining
  }

  /** A tick never raises the count, so it stays within the total. */
  lemma TickKeepsWithinTotal(c: Countdown)
    requires c.remaining <= c.total
    ensures Tick(c).remaining <= Tick(c).total
    ensures Elapsed(c) <= Elapsed(Tick(c))
  {
  }

  class DynamicAlert {
    var total: nat
    var remaining: nat
    var running: bool
    var expirations: nat

    function State(): Countdown
      reads this
    {
      Countdown(total, remaining, running, expirations)
    }

    ghost predicate Valid()
      reads this
    {
      remaining <= total
    }

    constructor (time: string)
      ensures State() == StartFor(time) && Valid()
    {
      var start := StartFor(time);
      total, remaining, running, expirations := start.total, start.remaining, true, 0;
    }

    /** The reset effect when the alert's label changes: new total, full count, a new timer. */
    method Reset(time: string)
      modifies this
      ensures State() == StartFor(time).(expirations := old(expirations))
      ensures Valid()
    {
      var start := StartFor(time);
      total, remaining, running := start.total, start.remaining, true;
    }

    method OnTick()
      requires Valid()
      modifies this
      ensures State() == Tick(old(State()))
      ensures Valid()
    {
      if running {
        if remaining <= 1 {
          remaining, running, expirations := 0, false, expirations + 1;
        } else {
          remaining := remaining - 1;
        }
      }
    }
  }

  // ------------------------------------------------------------------
  // The chart window
  // ------------------------------------------------------------------

  type Reading = GlucoseContext.Reading

  const ChartWindow: nat := 15

  predicate SortedByTimestamp(rs: seq<Reading>) {
    forall i, j :: 0 <= i < j < |rs| ==> rs[i].timestamp <= rs[j].timestamp
  }

  /** Insertion in front of the first reading that is not earlier, so that readings with equal
      timestamps keep their order. */
  function InsertByTimestamp(r: Reading, sorted: seq<Reading>): (out: seq<Reading>)
    ensures |out| == |sorted| + 1
  {
    if sorted == [] || r.timestamp <= sorted[0].timestamp then [r] + sorted
    else [sorted[0]] + InsertByTimestamp(r, sorted[1..])
  }

  lemma {:induction false} InsertByTimestampPermutes(r: Reading, sorted: seq<Reading>)
    ensures multiset(InsertByTimestamp(r, sorted)) == multiset(sorted) + multiset{r}
    decreases |sorted|
  {
    if sorted != [] && r.timestamp > sorted[0].timestamp {
      InsertByTimestampPermutes(r, sorted[1..]);
      assert sorted == [sorted[0]] + sorted[1..];
    }
  }

  /** The first reading after an insertion is the inserted one or the previous first. */
  lemma InsertByTimestampHead(r: Reading, sorted: seq<Reading>)
    ensures var out := InsertByTimestamp(r, sorted);
            out[0] == r || (sorted != [] && out[0] == sorted[0])
  {
  }

  lemma {:induction false} InsertByTimestampSorted(r: Reading, sorted: seq<Reading>)
    requires SortedByTimestamp(sorted)
    ensures SortedByTimestamp(InsertByTimestamp(r, sorted))
    decreases |sorted|
  {
    if sorted != [] && r.timestamp > sorted[0].timestamp {
      var rest := InsertByTimestamp(r, sorted[1..]);
      InsertByTimestampSorted(r, sorted[1..]);
      InsertByTimestampHead(r, sorted[1..]);
      var out := [sorted[0]] + rest;
      assert forall j :: 0 < j < |out| ==> out[j] == rest[j - 1];
      forall j | 0 < j < |out| ensures out[0].timestamp <= out[j].timestamp {
        assert rest[0].timestamp <= rest[j - 1].timestamp;
      }
    }
  }

  /** `[...glucose].sort((a, b) => a.timestamp - b.timestamp)`: a stable ascending sort. */
  function SortByTimestamp(rs: seq<Reading>): (sorted: seq<Reading>)
    ensures |sorted| == |rs|
  {
    if rs == [] then [] else InsertByTimestamp(rs[0], SortByTimestamp(rs[1..]))
  }

  /** The sort orders the readings by timestamp and keeps every one of them. */
  lemma {:induction false} SortByTimestampCorrect(rs: seq<Reading>)
    ensures SortedByTimestamp(SortByTimestamp(rs))
    ensures multiset(SortByTimestamp(rs)) == multiset(rs)
    decreases |rs|
  {
    if rs != [] {
      SortByTimestampCorrect(rs[1..]);
      InsertByTimestampSorted(rs[0], SortByTimestamp(rs[1..]));
      InsertByTimestampPermutes(rs[0], SortByTimestamp(rs[1..]));
      assert rs == [rs[0]] + rs[1..];
    }
  }

  /** glucoseData: the sorted readings, `.slice(-15)`. */
  function GlucoseWindow(rs: seq<Reading>): (w: seq<Reading>)
    ensures |w| <= ChartWindow && |w| <= |rs|
  {
    Slice(SortByTimestamp(rs), -(ChartWindow as int), |rs|)
  }

  /** Everything before a cut of a sorted sequence is no later than everything after it. */
  lemma SortedCut(s: seq<Reading>, cut: nat)
    requires SortedByTimestamp(s) && cut <= |s|
    ensures forall x, j :: x in multiset(s[..cut]) && cut <= j < |s| ==> x.timestamp <= s[j].timestamp
  {
    forall x, j | x in multiset(s[..cut]) && cut <= j < |s| ensures x.timestamp <= s[j].timestamp {
      assert x in s[..cut];
      var i :| 0 <= i < cut && s[i] == x;
    }
  }

  /** A slice up to the end with a resolved start is the suffix from there. */
  lemma SliceToEnd<T>(xs: seq<T>, start: int, from: nat)
    requires from == SliceIndex(start, |xs|)
    ensures Slice(xs, start, |xs|) == xs[from..]
  {
  }

  /** The window is the sorted list without its first n - 15 readings. */
  lemma GlucoseWindowIsSuffix(rs: seq<Reading>)
    ensures GlucoseWindow(rs) == SortByTimestamp(rs)[if |rs| <= ChartWindow then 0 else |rs| - ChartWindow..]
  {
    var sorted := SortByTimestamp(rs);
    var cut := if |rs| <= ChartWindow then 0 else |rs| - ChartWindow;
    SliceToEnd(sorted, -(ChartWindow as int), cut);
    assert GlucoseWindow(rs) == Slice(sorted, -(ChartWindow as int), |sorted|);
  }

  /** The window holds min(15, n) readings taken from the input, in ascending timestamp
      order, and every reading left out is no later than every reading shown. */
  lemma GlucoseWindowIsMostRecent(rs: seq<Reading>)
    ensures var w := GlucoseWindow(rs);
            |w| == (if |rs| <= ChartWindow then |rs| else ChartWindow)
            && SortedByTimestamp(w)
            && multiset(w) <= multiset(rs)
            && forall x, j :: x in multiset(rs) - multiset(w) && 0 <= j < |w| ==> x.timestamp <= w[j].timestamp
  {
    var cut := if |rs| <= ChartWindow then 0 else |rs| - ChartWindow;
    SortByTimestampCorrect(rs);
    GlucoseWindowIsSuffix(rs);
    LeftOutAreEarlier(SortByTimestamp(rs), rs, cut);
  }

  /** Cutting a sorted permutation of rs: what is cut off is no later than what remains. */
  lemma LeftOutAreEarlier(sorted: seq<Reading>, rs: seq<Reading>, cut: nat)
    requires SortedByTimestamp(sorted) && multiset(sorted) == multiset(rs) && cut <= |sorted|
    ensures SortedByTimestamp(sorted[cut..])
    ensures multiset(sorted[cut..]) <= multiset(rs)
    ensures forall x, j :: x in multiset(rs) - multiset(sorted[cut..]) && 0 <= j < |sorted[cut..]| ==>
              x.timestamp <= sorted[cut..][j].timestamp
  {
    var w := sorted[cut..];
    assert sorted == sorted[..cut] + w;
    assert multiset(rs) == multiset(sorted[..cut]) + multiset(w);
    SortedCut(sorted, cut);
    assert forall j :: 0 <= j < |w| ==> w[j] == sorted[cut + j];
  }
}
