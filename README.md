# Klukoo front end — a Dafny model of its core logic

Klukoo is a React/TypeScript front end for people with diabetes, their families and their
health professionals. This project models the front end's decision logic in Dafny 4.11 and
proves properties about that model:

- **Glucose store** (`GlucoseContext`): adding and loading readings, the latest reading, and the
  ±10 mg/dL trend rule.
- **Alert panel** (`PredictiveAlerts`): the 70/180 classification of a glucose value, the
  urgent-count and statistics effects that ignore a repeated value, formatting of AI alerts, and
  removing alerts.
- **Predictive alert screen** (`PredictiveAlertScreen`):
  - the hypo/hyper check against editable thresholds, keeping the newest entries;
  - the four timed alerts revealed one after another, and the per-alert countdown with its
    `m:ss` clock and the `parseTotalMinutes` label parser;
  - the chart window of the fifteen most recent readings.
- **Patient management** (`PatientManagement`): pagination (slice, page count, previous and
  next), the rows-per-page parser, the patient-code modal, and building the patient list from
  consultation requests and profiles.
- **Teleconsultation booking** (`TeleconsultationBooking`): rates joined to professionals, the
  half-hour slot grid from 08:00 to 17:30, the case-insensitive filters, and the booking form
  with its guard and reset.
- **Consultation requests** (`ConsultationContext`, `ConsultationRequest`): the fee table, the
  patient-id de-duplication and join, the insert payload, the submit guard, and status badges and
  display names.
- **Authentication** (`AuthContext`, `AuthPage`):
  - test mode, sign-out, and initial state from local storage;
  - the order of checks in the professional-code login: unknown code, then expired, then not
    approved, then the auth call;
  - sign-up checks, family-access checks and the storage they write.
- **Layout and navigation** (`Layout`, `BottomNavigation`): which tabs the bar shows, which tab
  is highlighted, and when the bar is rendered.
- **Small pieces**: the React Query retry delay (`App`), and the Cloudinary signature string and
  hex digest (`Cloudinary`).

JavaScript built-ins that the logic depends on are modelled once, in `JsText`:

- `trim`, `toUpperCase`/`toLowerCase` (ASCII), `includes`, `split`, `join`;
- `parseInt`, `toString(radix)`, `padStart`, `Array.prototype.slice` with negative indices, `filter`,
  `new Set` de-duplication;
- the truthiness that `||` tests on strings;
- property lookup in an object literal, where a key such as `"constructor"` finds a member of
  `Object.prototype` (`Lookup`).

Components that update in place — React state, refs, local storage — are Dafny classes whose
methods state their whole new state. Everything else is functions and lemmas. Supabase answers,
`Date.now()`, `Math.random()`, SHA-1 digests and timer ticks are method parameters.

## Model

| member | source | states |
|---|---|---|
| App.Pow2 | src/App.tsx:31 | a power of two is at least 1, so the exponential delay never vanishes |
| App.RetryDelay | src/App.tsx:31 | the delay is `1000 * 2^attempt` or the 30000 ms cap, whichever is smaller |
| App.Pow2Monotone | src/App.tsx:31 | the doubling factor does not decrease with the attempt index |
| App.RetryDelaySchedule | src/App.tsx:30-31 | the delays are 1 s, 2 s, 4 s, 8 s and 16 s for the first five attempts |
| App.RetryDelayCapped | src/App.tsx:31 | from attempt index 5 on, the delay is the 30 s cap |
| App.RetryDelayMonotone | src/App.tsx:31 | a later attempt never waits less than an earlier one |
| App.RetriesStayBelowCap | src/App.tsx:30-31 | the three retries the client allows each wait less than the 30 s cap, 7 s in all |
| Layout.ShouldShowTab | src/layouts/Layout.tsx:44-50 | everyone but a family member sees every tab; a family member sees every tab except profile and family |
| Layout.ShowsBottomNavigation | src/layouts/Layout.tsx:94 | the bottom bar is rendered exactly when the active tab is not payment |
| Layout.ReservesNavigationSpace | src/layouts/Layout.tsx:81-87 | content is padded for the bar exactly off the payment and chat tabs; padding implies the bar is shown |
| BottomNavigation.Ids | src/components/BottomNavigation.tsx:29-35 | the id list has one entry per tab, in order |
| BottomNavigation.VisibleTabs | src/components/BottomNavigation.tsx:29-40 | the bar never shows more than the five tabs, and a family member's bar has no journal |
| BottomNavigation.VisibleTabsExactly | src/components/BottomNavigation.tsx:29-40 | the bar shows home, charts, journal, predictive, profile; a family member gets the same without journal |
| BottomNavigation.FamilyFilter | src/components/BottomNavigation.tsx:38-40 | filtering out journal leaves home, charts, predictive, profile |
| BottomNavigation.FamilyTabsKeepOrder | src/components/BottomNavigation.tsx:38-40 | the family bar is a subsequence of the full bar |
| BottomNavigation.AtMostOneActive | src/components/BottomNavigation.tsx:71 | at most one visible tab is highlighted for any active tab |
| BottomNavigation.IsActive | src/components/BottomNavigation.tsx:71 | a tab is highlighted when its id is the active tab (a definition: AtMostOneActive and ClickHighlightsOnlyThatTab state its properties) |
| BottomNavigation.Click | src/components/BottomNavigation.tsx:77 | clicking a tab makes it the highlighted one |
| BottomNavigation.ClickHighlightsOnlyThatTab | src/components/BottomNavigation.tsx:71-77 | after clicking a tab, it is the only highlighted one |
| BottomNavigation.FamilyBarShowsProfile | src/components/BottomNavigation.tsx:38-40 | the family bar still lists profile although the layout's restriction would hide it |
| Cloudinary.UploadTimestamp | src/utils/cloudinary.ts:2 | the timestamp is the millisecond clock divided by 1000 and rounded half up |
| Cloudinary.ParamsToSign | src/utils/cloudinary.ts:7 | the signed parameter string (a definition: ParamsToSignReadsBack, ParamsToSignFields and TimestampReadsBack state what it holds) |
| Cloudinary.StringToSign | src/utils/cloudinary.ts:7-8 | the string to sign is the parameter string followed directly by the API secret |
| Cloudinary.ParamsToSignReadsBack | src/utils/cloudinary.ts:7 | splitting at `&` and `=` reads back the folder and timestamp fields, keys in alphabetical order |
| Cloudinary.TimestampReadsBack | src/utils/cloudinary.ts:2-7 | the timestamp field's value parses back to the timestamp signed |
| Cloudinary.KeyValueField | src/utils/cloudinary.ts:7 | a `key=value` field without `=` inside splits back into key and value |
| Cloudinary.DecimalHasNoSeparators | src/utils/cloudinary.ts:7 | a decimal number contains neither `&` nor `=` |
| Cloudinary.ParamsToSignFields | src/utils/cloudinary.ts:7 | the parameter string has exactly two `&`-separated fields |
| Cloudinary.StringToSignDeterminesSecret | src/utils/cloudinary.ts:8 | two secrets that give the same string to sign are equal |
| Cloudinary.ByteHex | src/utils/cloudinary.ts:13-15 | each byte becomes two lower-case hex digits |
| Cloudinary.ByteHexIsPaddedToString | src/utils/cloudinary.ts:15 | that pair is `b.toString(16).padStart(2, '0')` |
| Cloudinary.HexEncode | src/utils/cloudinary.ts:13-17 | the hex string is twice as long as the digest |
| Cloudinary.HexDigitValue | src/utils/cloudinary.ts:15 | a lower-case hex digit has a value in 0..15 |
| Cloudinary.HexDecode | src/utils/cloudinary.ts:13-17 | the inverse of the encoding: a decoded text is twice as long as its bytes; HexRoundTrip proves it undoes the encoding |
| Cloudinary.HexDecodeByte | src/utils/cloudinary.ts:13-17 | decoding a byte's two digits yields that byte and continues with the rest |
| Cloudinary.HexRoundTrip | src/utils/cloudinary.ts:13-17 | decoding the hex string gives back the digest; every character is a lower-case hex digit |
| Cloudinary.Sha1SignatureLength | src/utils/cloudinary.ts:11-17 | a 20-byte SHA-1 digest gives a 40-character signature |
| GlucoseContext.InsertPayload | src/contexts/GlucoseContext.tsx:72-78 | the inserted row carries the user and the draft's values; empty or missing notes become null |
| GlucoseContext.TrendOf | src/contexts/GlucoseContext.tsx:96-105 | up iff the newest value exceeds the previous by more than 10, down iff it is lower by more than 10, otherwise stable (also for fewer than two readings) |
| GlucoseContext.TrendDependsOnTwoNewest | src/contexts/GlucoseContext.tsx:96-105 | the trend depends only on the two newest values |
| GlucoseContext.TrendSwap | src/contexts/GlucoseContext.tsx:96-105 | swapping the two newest values turns up into down and keeps stable |
| GlucoseContext.TrendBandIsStable | src/contexts/GlucoseContext.tsx:97-104 | a difference of exactly 10 is stable |
| GlucoseContext.GlucoseStore.constructor | src/contexts/GlucoseContext.tsx:34 | the store starts with no readings |
| GlucoseContext.GlucoseStore.LatestReading | src/contexts/GlucoseContext.tsx:91-93 | the latest reading is the first one, or none when the store is empty |
| GlucoseContext.GlucoseStore.AddReading | src/contexts/GlucoseContext.tsx:66-88 | with no user: an error and nothing changes; with an insert error: that error and nothing changes; otherwise the row is prepended and becomes the latest |
| GlucoseContext.GlucoseStore.LoadReadings | src/contexts/GlucoseContext.tsx:40-60 | readings are replaced by the fetched rows only with a user and a successful fetch |
| GlucoseContext.AddReadingEffect | src/contexts/GlucoseContext.tsx:85 | after prepending, the new row is first, the old list follows, and the trend compares the new row with the previous newest |
| PredictiveAlerts.StatusOf | src/components/ui/PredictiveAlerts.tsx:147-162 | low iff below 70, normal iff 70..180 inclusive, high iff above 180 |
| PredictiveAlerts.SeverityOf | src/components/ui/PredictiveAlerts.tsx:69-74 | critical iff Hypo risk, high iff Hyper risk, medium for any other or missing risk |
| PredictiveAlerts.FirstText | src/components/ui/PredictiveAlerts.tsx:68 | `a`, else `b`, else the fallback, on possibly missing strings, picks the first non-empty one |
| PredictiveAlerts.FormatAlerts | src/components/ui/PredictiveAlerts.tsx:65-76 | a missing alert list gives no alerts; otherwise one formatted alert per AI alert, in order |
| PredictiveAlerts.FormatAlert | src/components/ui/PredictiveAlerts.tsx:65-76 | id falls back to a generated one, type and time are copied, severity and message follow the rules above |
| PredictiveAlerts.FormattedMessageNeverEmpty | src/components/ui/PredictiveAlerts.tsx:68 | a formatted alert's message is never empty |
| PredictiveAlerts.RemoveAlertExactly | src/components/ui/PredictiveAlerts.tsx:139-141 | marking as read removes exactly the alerts with that id and keeps the rest in order |
| PredictiveAlerts.RemoveAlert | src/components/ui/PredictiveAlerts.tsx:139-141 | marking as read never lengthens the list, and no alert left carries that id |
| PredictiveAlerts.RemoveAbsentAlert | src/components/ui/PredictiveAlerts.tsx:139-141 | marking an unknown id changes nothing |
| PredictiveAlerts.UrgentStep | src/components/ui/PredictiveAlerts.tsx:164-198 | a repeated or unparsable value does nothing; a low or high value adds one to the urgent count and raises an error toast with the new count; a normal value resets the count to 0 with a success toast |
| PredictiveAlerts.StatsStep | src/components/ui/PredictiveAlerts.tsx:214-227 | a new value adds one to total, and one to urgent above 180 or to monitor below 70 |
| PredictiveAlerts.StatsBounded | src/components/ui/PredictiveAlerts.tsx:214-227 | urgent plus monitor never exceed total, which never exceeds the number of inputs |
| PredictiveAlerts.RepeatedValueCountedOnce | src/components/ui/PredictiveAlerts.tsx:217 | the same value twice in a row counts once |
| PredictiveAlerts.AlertPanel.constructor | src/components/ui/PredictiveAlerts.tsx:39-44 | no alerts, zero counts, no previous value |
| PredictiveAlerts.AlertPanel.OnGlucoseValue | src/components/ui/PredictiveAlerts.tsx:164-227 | both effects run on the value; toasts grow by the urgent effect's toast; alerts are unchanged |
| PredictiveAlerts.AlertPanel.SetAiAlerts | src/components/ui/PredictiveAlerts.tsx:65-78 | the alert list becomes the formatted AI alerts and nothing else changes |
| PredictiveAlerts.AlertPanel.MarkAsRead | src/components/ui/PredictiveAlerts.tsx:139-141 | the alert list loses that id and nothing else changes |
| PredictiveAlerts.AlertPanel.DismissAll | src/components/ui/PredictiveAlerts.tsx:143-145 | the alert list is emptied and nothing else changes |
| PredictiveAlertScreen.NewAlerts | src/components/screens/PredictiveAlertScreen.tsx:171-189 | below the low threshold a hypo alert; otherwise above the high threshold a hyper alert; in range none |
| PredictiveAlertScreen.CheckAlertsShape | src/components/screens/PredictiveAlertScreen.tsx:171-191 | the queue becomes the new alert (if any) before the first four old entries; at most five entries |
| PredictiveAlertScreen.CheckAlertsOf | src/components/screens/PredictiveAlertScreen.tsx:171-191 | a check leaves at most five alerts queued |
| PredictiveAlertScreen.InRangeOnlyTruncates | src/components/screens/PredictiveAlertScreen.tsx:190 | an in-range prediction only truncates the queue to four |
| PredictiveAlertScreen.HypoCheckedFirst | src/components/screens/PredictiveAlertScreen.tsx:174-181 | with crossed thresholds a value matching both raises the hypo alert |
| PredictiveAlertScreen.AlertQueue.constructor | src/components/screens/PredictiveAlertScreen.tsx:77-80 | thresholds 70 and 180 and an empty queue |
| PredictiveAlertScreen.AlertQueue.SetLowThreshold | src/components/screens/PredictiveAlertScreen.tsx:406-411 | only the low threshold changes |
| PredictiveAlertScreen.AlertQueue.SetHighThreshold | src/components/screens/PredictiveAlertScreen.tsx:424-429 | only the high threshold changes |
| PredictiveAlertScreen.AlertQueue.CheckAlerts | src/components/screens/PredictiveAlertScreen.tsx:171-191 | the queue becomes the checked queue; the settings are unchanged |
| PredictiveAlertScreen.ParseTotalMinutes | src/components/screens/PredictiveAlertScreen.tsx:828-830 | a duration is at least one minute |
| PredictiveAlertScreen.ParseTotalMinutesReadsLeadingNumber | src/components/screens/PredictiveAlertScreen.tsx:829 | the result is the integer before the first space when it is at least 1, and 1 when that word is not a number or is below 1 |
| PredictiveAlertScreen.LeadingDigitsLabel | src/components/screens/PredictiveAlertScreen.tsx:829 | a digit word before a space gives its value, or 1 when that value is 0 |
| PredictiveAlertScreen.LabelWithoutDigits | src/components/screens/PredictiveAlertScreen.tsx:829 | a label without digits gives one minute |
| PredictiveAlertScreen.ZeroLabel | src/components/screens/PredictiveAlertScreen.tsx:829 | `0 …` gives one minute, because 0 is falsy |
| PredictiveAlertScreen.TwoDigitLabel | src/components/screens/PredictiveAlertScreen.tsx:829 | a two-digit label `dd min` gives that number |
| PredictiveAlertScreen.TimedAlertDuration | src/components/screens/PredictiveAlertScreen.tsx:48-53 | the i-th timed alert lasts 15·(i+1) minutes |
| PredictiveAlertScreen.FifteenMinutes | src/components/screens/PredictiveAlertScreen.tsx:49 | the hypo alert lasts 15 minutes |
| PredictiveAlertScreen.ThirtyMinutes | src/components/screens/PredictiveAlertScreen.tsx:50 | the first hyper alert lasts 30 minutes |
| PredictiveAlertScreen.FortyFiveMinutes | src/components/screens/PredictiveAlertScreen.tsx:51 | the second hyper alert lasts 45 minutes |
| PredictiveAlertScreen.SixtyMinutes | src/components/screens/PredictiveAlertScreen.tsx:52 | the stable alert lasts 60 minutes |
| PredictiveAlertScreen.Shown | src/components/screens/PredictiveAlertScreen.tsx:693-695 | an alert is shown iff the panel is visible and the index is in range, and it is the alert at that index |
| PredictiveAlertScreen.RevealAfter | src/components/screens/PredictiveAlertScreen.tsx:684-693 | after n dismissals the n-th alert is shown; from the fourth dismissal on nothing is shown and the toast is dismissed once per further call |
| PredictiveAlertScreen.DismissStep | src/components/screens/PredictiveAlertScreen.tsx:684-693 | a dismissal never moves the index back or past the last alert, and dismisses the toast at most once |
| PredictiveAlertScreen.AlertReveal.constructor | src/components/screens/PredictiveAlertScreen.tsx:681-682 | index 0, visible, toast not dismissed |
| PredictiveAlertScreen.AlertReveal.Dismiss | src/components/screens/PredictiveAlertScreen.tsx:684-691 | one dismissal step |
| PredictiveAlertScreen.StartFor | src/components/screens/PredictiveAlertScreen.tsx:713-719 | a countdown starts full, running, with at least 60 seconds |
| PredictiveAlertScreen.Tick | src/components/screens/PredictiveAlertScreen.tsx:721-735 | a tick counts down by one; at 1 or below it stops at 0 and fires expiry once; a stopped countdown is unchanged |
| PredictiveAlertScreen.CountdownRun | src/components/screens/PredictiveAlertScreen.tsx:721-735 | n ticks from full leave total−n seconds, and from total ticks on it is stopped at 0 having expired exactly once |
| PredictiveAlertScreen.Ticks | src/components/screens/PredictiveAlertScreen.tsx:721-735 | any run of ticks keeps the total, never raises the count, and fires the expiry at most once, leaving the timer stopped after it |
| PredictiveAlertScreen.Clock | src/components/screens/PredictiveAlertScreen.tsx:740-741 | minutes and seconds recombine to the remaining time, seconds below 60 |
| PredictiveAlertScreen.ClockTextReadsBack | src/components/screens/PredictiveAlertScreen.tsx:814 | the `m:ss` text splits into two fields that parse back to minutes and seconds; the seconds field is padded to two digits |
| PredictiveAlertScreen.ClockText | src/components/screens/PredictiveAlertScreen.tsx:813 | the clock text is at least `m:ss` long and its colon sits before exactly two seconds digits |
| PredictiveAlertScreen.ClockTextParts | src/components/screens/PredictiveAlertScreen.tsx:814 | the text splits at `:` into the decimal minutes and the two-digit seconds |
| PredictiveAlertScreen.Elapsed | src/components/screens/PredictiveAlertScreen.tsx:737-738 | elapsed plus remaining is the total, and elapsed lies in 0..total |
| PredictiveAlertScreen.TickKeepsWithinTotal | src/components/screens/PredictiveAlertScreen.tsx:721-738 | a tick keeps remaining within total and never decreases the elapsed time |
| PredictiveAlertScreen.DynamicAlert.constructor | src/components/screens/PredictiveAlertScreen.tsx:713-714 | the countdown starts for the alert's label |
| PredictiveAlertScreen.DynamicAlert.Reset | src/components/screens/PredictiveAlertScreen.tsx:716-719 | a new label restarts the countdown, keeping the expiry count |
| PredictiveAlertScreen.DynamicAlert.OnTick | src/components/screens/PredictiveAlertScreen.tsx:721-735 | one interval tick applies Tick |
| PredictiveAlertScreen.InsertByTimestamp | src/components/screens/PredictiveAlertScreen.tsx:260-264 | insertion adds exactly one reading |
| PredictiveAlertScreen.InsertByTimestampPermutes | src/components/screens/PredictiveAlertScreen.tsx:260-264 | insertion adds the reading to the multiset |
| PredictiveAlertScreen.InsertByTimestampHead | src/components/screens/PredictiveAlertScreen.tsx:260-264 | the head after insertion is the new reading or the old head |
| PredictiveAlertScreen.InsertByTimestampSorted | src/components/screens/PredictiveAlertScreen.tsx:260-264 | insertion into a sorted list keeps it sorted by timestamp |
| PredictiveAlertScreen.SortByTimestamp | src/components/screens/PredictiveAlertScreen.tsx:260-264 | sorting keeps the length |
| PredictiveAlertScreen.SortByTimestampCorrect | src/components/screens/PredictiveAlertScreen.tsx:260-264 | the sort is ordered by timestamp and a permutation of the readings |
| PredictiveAlertScreen.SortedCut | src/components/screens/PredictiveAlertScreen.tsx:265 | in a sorted list everything before a cut is no later than everything after it |
| PredictiveAlertScreen.GlucoseWindowIsSuffix | src/components/screens/PredictiveAlertScreen.tsx:260-265 | the chart data is the last 15 of the sorted readings |
| PredictiveAlertScreen.GlucoseWindow | src/components/screens/PredictiveAlertScreen.tsx:260-265 | the chart shows at most 15 readings and never more than there are |
| PredictiveAlertScreen.GlucoseWindowIsMostRecent | src/components/screens/PredictiveAlertScreen.tsx:259-265 | the chart data has min(n, 15) readings, sorted, drawn from the input, and every reading left out is no later than any reading kept |
| PredictiveAlertScreen.LeftOutAreEarlier | src/components/screens/PredictiveAlertScreen.tsx:265 | a suffix of a sorted permutation is sorted, drawn from the input, and no later than nothing it drops |
| PatientManagement.TotalPages | src/components/ui/PatientManagement.tsx:223 | `Math.ceil(n / perPage)`: zero iff the list is empty, and the last page holds the last item |
| PatientManagement.SliceFromNonNegative | src/components/ui/PatientManagement.tsx:219-222 | a slice with non-negative bounds clamps both to the length |
| PatientManagement.PageContents | src/components/ui/PatientManagement.tsx:160-163 | page p holds the items from (p−1)·perPage, clamped, and at most perPage of them |
| PatientManagement.PagePastLastIsEmpty | src/components/ui/PatientManagement.tsx:219-223 | a page past the last is empty |
| PatientManagement.PagesDoNotOverlap | src/components/ui/PatientManagement.tsx:160-161 | an earlier page ends before a later one starts |
| PatientManagement.PagesEndIsProduct | src/components/ui/PatientManagement.tsx:160-161 | the first m pages end at m·perPage |
| PatientManagement.PageStartIsPagesEnd | src/components/ui/PatientManagement.tsx:160 | page m starts where the first m−1 pages end |
| PatientManagement.PagesUpToIsPrefix | src/components/ui/PatientManagement.tsx:219-222 | the first m pages together are a prefix of the list |
| PatientManagement.AllPagesAreTheList | src/components/ui/PatientManagement.tsx:219-223 | pages 1..totalPages together are exactly the list |
| PatientManagement.PreviousPage | src/components/ui/PatientManagement.tsx:515 | previous goes back one page but not below 1 |
| PatientManagement.NextPageAsWritten | src/components/ui/PatientManagement.tsx:528-530 | next never passes the page count and moves one page up while below it; at or past the count it goes to the count, even when that is 0 or negative |
| PatientManagement.NextOnEmptyListGoesToPageZero | src/components/ui/PatientManagement.tsx:528-532 | with no patients the page count is 0, the next button is enabled, and clicking it moves to page 0 |
| PatientManagement.NextWithNegativeRowsGoesBelowPageOne | src/components/ui/PatientManagement.tsx:501-532 | rows per page typed as "-3" is kept, four patients then count −1 pages, and next moves to page −1 |
| PatientManagement.NextPage | src/components/ui/PatientManagement.tsx:528-532 | the corrected next: forward one page, never past the last, never below 1, and agreeing with NextPageAsWritten whenever there is a page |
| PatientManagement.NextReachesLastPage | src/components/ui/PatientManagement.tsx:528-532 | from a valid page next moves up by one or stays on the last page |
| PatientManagement.RowsPerPage | src/components/ui/PatientManagement.tsx:502 | the parsed rows per page, with 5 for NaN or 0, is never 0 |
| PatientManagement.RowsPerPageReads | src/components/ui/PatientManagement.tsx:502 | the parsed number when there is one and it is not 0, otherwise 5 |
| PatientManagement.RowsPerPageOfDecimal | src/components/ui/PatientManagement.tsx:502 | a positive decimal input gives that number |
| PatientManagement.RowsPerPageWithoutDigits | src/components/ui/PatientManagement.tsx:502 | an input without digits gives 5 |
| PatientManagement.PatientIds | src/components/ui/PatientManagement.tsx:177 | the ids are distinct and are exactly the requests' patient ids |
| PatientManagement.LatestRequestedAt | src/components/ui/PatientManagement.tsx:192-194 | none iff the patient has no request; otherwise the latest time among that patient's requests |
| PatientManagement.PatientOf | src/components/ui/PatientManagement.tsx:196-204 | id and `first last` name from the profile; last consultation is the latest request or now |
| PatientManagement.PatientsOf | src/components/ui/PatientManagement.tsx:191-205 | one patient per profile, in order |
| PatientManagement.FindPatient | src/components/ui/PatientManagement.tsx:129 | none iff no patient has the id; otherwise a listed patient with that id |
| PatientManagement.FindPatientIsFirst | src/components/ui/PatientManagement.tsx:129 | the patient found is the first with the id |
| PatientManagement.Open | src/components/ui/PatientManagement.tsx:135-151 | the chosen action's modal opens and no other modal changes |
| PatientManagement.PatientManagementView.constructor | src/components/ui/PatientManagement.tsx:95-112 | no patients, 5 rows per page, page 1 on both tables, every modal closed |
| PatientManagement.PatientManagementView.PreviousPatientsPage | src/components/ui/PatientManagement.tsx:515 | only the patients page changes, by `Math.max(prev - 1, 1)`; the other page, rows per page, patients and the code modal, code, pending action, active patient and action modals stay |
| PatientManagement.PatientManagementView.NextPatientsPage | src/components/ui/PatientManagement.tsx:528-530 | only the patients page changes, by NextPageAsWritten over the patient count (so to 0 on an empty list); the other page, rows per page, patients and the code modal, code, pending action, active patient and action modals stay |
| PatientManagement.PatientManagementView.PreviousConsultationsPage | src/components/ui/PatientManagement.tsx:670 | only the consultations page changes, by `Math.max(prev - 1, 1)`; the other page, rows per page, patients and the code modal, code, pending action, active patient and action modals stay |
| PatientManagement.PatientManagementView.NextConsultationsPage | src/components/ui/PatientManagement.tsx:683-685 | only the consultations page changes, by NextPageAsWritten over the consultation count; the other page, rows per page, patients and the code modal, code, pending action, active patient and action modals stay |
| PatientManagement.PatientManagementView.SetPatientsRowsPerPage | src/components/ui/PatientManagement.tsx:501-505 | rows per page becomes the parsed value (never 0) and the patients table returns to page 1; the consultations page, patients and the code modal, code, pending action, active patient and action modals stay |
| PatientManagement.PatientManagementView.SetConsultationsRowsPerPage | src/components/ui/PatientManagement.tsx:656-660 | rows per page becomes the parsed value (never 0) and the consultations table returns to page 1; the patients page, patients and the code modal, code, pending action, active patient and action modals stay |
| PatientManagement.PatientManagementView.HandlePatientAction | src/components/ui/PatientManagement.tsx:115-122 | the action is recorded and the code modal opens; nothing else changes |
| PatientManagement.PatientManagementView.TypeCode | src/components/ui/PatientManagement.tsx:804 | the typed code is stored upper-cased; everything else stays |
| PatientManagement.PatientManagementView.CancelCode | src/components/ui/PatientManagement.tsx:773-776 | the code modal closes and the code is cleared; the pending action and everything else stay |
| PatientManagement.PatientManagementView.SubmitCode | src/components/ui/PatientManagement.tsx:124-157 | a blank code, no action or an unknown patient changes nothing; otherwise the patient becomes active, the action's modal opens and the code modal is reset |
| PatientManagement.PatientManagementView.FetchPatients | src/components/ui/PatientManagement.tsx:165-213 | no code or a failed request query keeps the list; no patient ids empties it; a failed profile query keeps it; otherwise it is the joined patient list; pages, rows per page and the code modal, code, pending action, active patient and action modals stay |
| PatientManagement.BlankCodeIsRejected | src/components/ui/PatientManagement.tsx:125 | a code of spaces trims to empty |
| TeleconsultationBooking.FindRate | src/components/screens/TeleconsultationBooking.tsx:100-102 | none iff no rate row has the specialty; otherwise the first row that has it |
| TeleconsultationBooking.RateFor | src/components/screens/TeleconsultationBooking.tsx:100-105 | the first row for the specialty decides: its rate when present and non-zero, otherwise 500 even when a later row matches; 500 when no row matches; never 0 |
| TeleconsultationBooking.WithRates | src/components/screens/TeleconsultationBooking.tsx:98-113 | one professional per application, in order |
| TeleconsultationBooking.WithRatesKeepsApplications | src/components/screens/TeleconsultationBooking.tsx:103-111 | each professional keeps the application's fields and gets the rate for its specialty |
| TeleconsultationBooking.SpecialtyIcon | src/components/screens/TeleconsultationBooking.tsx:224-234 | the table's icon, the generic icon for an unknown specialty, or the inherited member for a prototype name |
| TeleconsultationBooking.SpecialtyName | src/components/screens/TeleconsultationBooking.tsx:236-248 | the table's name, the specialty itself when unknown, or the inherited member for a prototype name |
| TeleconsultationBooking.SlotTimeMeans | src/components/screens/TeleconsultationBooking.tsx:128-132 | slot i is an `HH:MM` text meaning 8:00 plus 30·i minutes |
| TeleconsultationBooking.SlotGridEnds | src/components/screens/TeleconsultationBooking.tsx:125-129 | the grid runs from 08:00 to 17:30 |
| TeleconsultationBooking.SlotTimesIncrease | src/components/screens/TeleconsultationBooking.tsx:128-129 | slots strictly increase, 30 minutes apart |
| TeleconsultationBooking.PaddedSlotTime | src/components/screens/TeleconsultationBooking.tsx:130-132 | the padded hour and minute text of each loop step is the slot time at its index |
| TeleconsultationBooking.GridPrefixGrows | src/components/screens/TeleconsultationBooking.tsx:133-136 | pushing the next slot keeps the list a prefix of the grid |
| TeleconsultationBooking.GenerateTimeSlots | src/components/screens/TeleconsultationBooking.tsx:122-141 | 20 slots, the i-th at slot time i with availability drawn for i |
| TeleconsultationBooking.PushHalfHours | src/components/screens/TeleconsultationBooking.tsx:129-137 | one pass of the minute loop appends the two slots of that hour, keeping the list a prefix of the grid |
| TeleconsultationBooking.FilteredProfessionals | src/components/screens/TeleconsultationBooking.tsx:209-222 | the filter never adds professionals |
| TeleconsultationBooking.FilteredExactly | src/components/screens/TeleconsultationBooking.tsx:209-222 | the shown list is exactly the matching professionals, in order |
| TeleconsultationBooking.NoFiltersListEveryone | src/components/screens/TeleconsultationBooking.tsx:210-213 | with no city and no search and specialty empty or "all", everyone is listed |
| TeleconsultationBooking.FilterIgnoresCase | src/components/screens/TeleconsultationBooking.tsx:214-220 | upper-casing the city and search leaves the result unchanged |
| TeleconsultationBooking.SearchFindsFullName | src/components/screens/TeleconsultationBooking.tsx:216-219 | searching for a professional's full name in any case finds them |
| TeleconsultationBooking.SearchFindsInstitution | src/components/screens/TeleconsultationBooking.tsx:220 | a search contained in the institution finds the professional |
| TeleconsultationBooking.ScheduledAt | src/components/screens/TeleconsultationBooking.tsx:165 | the scheduled time is the date, `T`, the slot time and `:00` |
| TeleconsultationBooking.BookingForm.constructor | src/components/screens/TeleconsultationBooking.tsx:55-68 | empty lists, no filters, nothing selected |
| TeleconsultationBooking.BookingForm.LoadProfessionals | src/components/screens/TeleconsultationBooking.tsx:76-120 | the list is replaced by the rated applications only when both queries answered |
| TeleconsultationBooking.BookingForm.SetSearch | src/components/screens/TeleconsultationBooking.tsx:296 | only the search filter changes |
| TeleconsultationBooking.BookingForm.SetSpecialty | src/components/screens/TeleconsultationBooking.tsx:311 | only the specialty filter changes |
| TeleconsultationBooking.BookingForm.SetCity | src/components/screens/TeleconsultationBooking.tsx:357 | only the city filter changes |
| TeleconsultationBooking.BookingForm.SelectProfessional | src/components/screens/TeleconsultationBooking.tsx:378 | the clicked shown professional is selected; nothing else changes |
| TeleconsultationBooking.BookingForm.ChangeDate | src/components/screens/TeleconsultationBooking.tsx:143-149 | the date is set and the time cleared; slots are regenerated iff a professional is selected |
| TeleconsultationBooking.BookingForm.SelectTime | src/components/screens/TeleconsultationBooking.tsx:494-495 | clicking an available slot selects its time; a disabled slot changes nothing |
| TeleconsultationBooking.BookingForm.Book | src/components/screens/TeleconsultationBooking.tsx:151-207 | missing information or an insert error change nothing; a booking appends the row and clears professional, date, time and slots |
| TeleconsultationBooking.BookedSlotIsOnTheGrid | src/components/screens/TeleconsultationBooking.tsx:122-141 | a time taken from the slot list is a grid time between 08:00 and 17:30 |
| AuthContext.GetItem | src/contexts/AuthContext.tsx:77-88 | `getItem` is the stored value, or null when the key is absent |
| AuthContext.SignUpDecision | src/contexts/AuthContext.tsx:224-258 | an existing profile gives the already-registered error; otherwise the auth error passes through and a subscription is needed iff the user is a patient |
| AuthContext.AuthPathFor | src/contexts/AuthContext.tsx:297-326 | an approved application with a user id signs in; one without creates the account |
| AuthContext.ProfessionalLoginOrder | src/contexts/AuthContext.tsx:269-345 | success iff the code exists, has not expired, is approved and the auth call succeeds; the checks fail in that order |
| AuthContext.EarlierChecksWin | src/contexts/AuthContext.tsx:280-292 | when a lookup, expiry or approval check fails, the auth answer does not matter |
| AuthContext.EffectiveSubscription | src/contexts/AuthContext.tsx:391 | test mode counts as subscribed; otherwise the real subscription |
| AuthContext.BoolText | src/contexts/AuthContext.tsx:364 | `String(b)` is "true" iff b |
| AuthContext.ToggleTestMode | src/contexts/AuthContext.tsx:361-388 | the mode flips and is stored; switching on signs in the stand-in user if nobody is signed in and grants a subscription; switching off signs the stand-in user out; other fields are kept |
| AuthContext.SignOut | src/contexts/AuthContext.tsx:347-359 | a failure changes nothing; otherwise professional and family flags are cleared and the family keys removed from storage |
| AuthContext.AfterProfessionalLogin | src/contexts/AuthContext.tsx:335-338 | success stores the code, the professional flag and the application; failure changes nothing |
| AuthContext.ToggleTwiceWithoutUser | src/contexts/AuthContext.tsx:361-388 | toggling twice with nobody signed in returns to no user, no session and no subscription, with "false" stored |
| AuthContext.ToggleKeepsRealUser | src/contexts/AuthContext.tsx:366-386 | a real user stays signed in through both toggles |
| AuthContext.TestModeIsSubscribed | src/contexts/AuthContext.tsx:362-391 | switching test mode on always gives an effective subscription |
| AuthContext.InitialAuth | src/contexts/AuthContext.tsx:77-88 | test mode and family mode are on iff stored as "true"; the professional code is the stored one |
| AuthContext.TestModePersists | src/contexts/AuthContext.tsx:84-86 | reloading after a toggle restores the toggled mode |
| AuthContext.AuthProvider.constructor | src/contexts/AuthContext.tsx:77-88 | the provider starts in the initial state read from storage |
| AuthContext.AuthProvider.Toggle | src/contexts/AuthContext.tsx:361-388 | the state changes by ToggleTestMode |
| AuthContext.AuthProvider.TestModeEffect | src/contexts/AuthContext.tsx:162-177 | in test mode with nobody signed in the stand-in user is set with a subscription; otherwise nothing changes |
| AuthContext.AuthProvider.SignOutWith | src/contexts/AuthContext.tsx:347-359 | the state changes by SignOut and reports the failure |
| AuthContext.AuthProvider.SignInWithProfessionalCode | src/contexts/AuthContext.tsx:269-345 | the result follows ProfessionalLogin; an auth path is taken iff the checks pass; success records the code |
| AuthPage.SignInError | src/pages/Auth.tsx:153-161 | invalid credentials first, then unconfirmed e-mail, otherwise the raw message |
| AuthPage.SignInErrorRecognisesContext | src/pages/Auth.tsx:154 | the credentials message is recognised inside any surrounding text |
| AuthPage.SignUpCheck | src/pages/Auth.tsx:184-194 | mismatch iff the passwords differ; too short iff they agree and are below 6; accepted iff equal and at least 6 |
| AuthPage.MismatchBeforeLength | src/pages/Auth.tsx:184-194 | a short mismatched password reports the mismatch |
| AuthPage.SignUpError | src/pages/Auth.tsx:207-213 | an already-registered message maps to its key; others are shown as is |
| AuthPage.ExistingProfileIsReported | src/contexts/AuthContext.tsx:234-239 | an existing profile reaches the page as the already-exists key without a plan selection |
| AuthPage.FamilyAccessCheck | src/pages/Auth.tsx:292-305 | rejected iff the trimmed code is not 8 long, or it is and the trimmed phone is empty; accepted codes are trimmed and upper-cased |
| AuthPage.AccessCodeIsCanonical | src/pages/Auth.tsx:292-293 | an accepted code is 8 long, starts and ends with a non-whitespace character, and trimming or upper-casing it again changes nothing |
| AuthPage.SplitFullNameRebuilds | src/pages/Auth.tsx:370-371 | the first name has no space, and first name, a space and the rest rebuild the full name |
| AuthPage.AuthForm.PatientSignIn | src/pages/Auth.tsx:141-176 | navigate iff signed in; otherwise the mapped error or the connection error |
| AuthPage.AuthForm.PatientSignUp | src/pages/Auth.tsx:177-250 | a request is sent iff the checks pass; errors keep the form; success clears the form and asks for a plan or for e-mail confirmation |
| AuthPage.AuthForm.FamilyAccess | src/pages/Auth.tsx:287-389 | granted iff the checks pass and both the profile and the member exist; then family mode, the session and the user are stored; otherwise nothing is stored |
| AuthPage.AuthForm.ProfessionalSubmit | src/pages/Auth.tsx:532-557 | the code is stored first; a failure removes it and shows the error; an exception keeps it and shows the connection error |
| ConsultationContext.FeeAsWritten | src/contexts/ConsultationContext.tsx:235-238 | the fee as the code computes it: the table rate for a known type, undefined exactly for an unknown type named like a prototype member, 500 for any other type |
| ConsultationContext.InheritedTypeHasNoFee | src/contexts/ConsultationContext.tsx:235-238 | as written, a type named like a prototype member gets no fee |
| ConsultationContext.Fee | src/contexts/ConsultationContext.tsx:76-82 | the table's fee for a known type, 500 otherwise |
| ConsultationContext.FeeSchedule | src/contexts/ConsultationContext.tsx:76-82 | the five fees, every fee one of six amounts, and agreement with the source whenever the source yields an amount |
| ConsultationContext.FindProfessional | src/contexts/ConsultationContext.tsx:231 | none iff no professional has the id; otherwise the first with it |
| ConsultationContext.FindProfile | src/contexts/ConsultationContext.tsx:191-205 | none iff no profile has the id; otherwise the first with it |
| ConsultationContext.RequestPatientIds | src/contexts/ConsultationContext.tsx:180 | one patient id per request, in order |
| ConsultationContext.PatientIdsExactly | src/contexts/ConsultationContext.tsx:180 | the de-duplicated ids are distinct and are exactly the requests' patient ids |
| ConsultationContext.JoinPatients | src/contexts/ConsultationContext.tsx:191-205 | one joined request per request row, in order |
| ConsultationContext.JoinMatchesPatients | src/contexts/ConsultationContext.tsx:191-205 | each joined row carries its own fields and the profile with its patient id, if any |
| ConsultationContext.NewRequestFor | src/contexts/ConsultationContext.tsx:243-250 | a pending request for that professional, with the message or "" and the fee as the code computes it (FeeAsWritten); it is the corrected Fee for every type not named like a prototype member, and undefined otherwise |
| ConsultationContext.ConsultationStore.constructor | src/contexts/ConsultationContext.tsx:65-72 | all lists start empty |
| ConsultationContext.ConsultationStore.LoadProfessionals | src/contexts/ConsultationContext.tsx:84-103 | the list is replaced on success and kept on failure |
| ConsultationContext.ConsultationStore.LoadMyRequests | src/contexts/ConsultationContext.tsx:105-161 | the patient's requests are replaced only with a user and a successful query |
| ConsultationContext.ConsultationStore.LoadProfessionalRequests | src/contexts/ConsultationContext.tsx:163-220 | the ids looked up are the de-duplicated patient ids; the list becomes the join when both queries succeed |
| ConsultationContext.ConsultationStore.SubmitRequest | src/contexts/ConsultationContext.tsx:222-297 | no user or an unknown professional inserts nothing; otherwise the payload is NewRequestFor (with the as-written fee), and an inserted row is prepended to the patient's requests |
| ConsultationRequest.StatusBadge | src/components/screens/ConsultationRequest.tsx:115-141 | the table's badge, the pending badge for an unknown status, or the inherited member for a prototype name |
| ConsultationRequest.StatusBadgesDiffer | src/components/screens/ConsultationRequest.tsx:115-141 | different known statuses get different badges |
| ConsultationRequest.DisplayName | src/components/screens/ConsultationRequest.tsx:143-156 | the table's name, the type itself when unknown, or the inherited member for a prototype name |
| ConsultationRequest.DisplayNamesMatchFeeTable | src/components/screens/ConsultationRequest.tsx:143-156 | the display-name table and the fee table name the same types |
| ConsultationRequest.SubmitGuard | src/components/screens/ConsultationRequest.tsx:80-101 | fields required iff professional or reason is empty; submitted iff both are set and the professional is known and available |
| ConsultationRequest.SubmittedProfessionalIsKnown | src/components/screens/ConsultationRequest.tsx:91-107 | a submission that passes the guard names a known available professional, whose row carries the message and the as-written fee |
| ConsultationRequest.RequestForm.constructor | src/components/screens/ConsultationRequest.tsx:33-35 | empty fields and no submissions |
| ConsultationRequest.RequestForm.SelectProfessional | src/components/screens/ConsultationRequest.tsx:187 | only the selected professional changes |
| ConsultationRequest.RequestForm.SelectReason | src/components/screens/ConsultationRequest.tsx:232 | only the reason changes |
| ConsultationRequest.RequestForm.SetMessage | src/components/screens/ConsultationRequest.tsx:256 | only the message changes |
| ConsultationRequest.RequestForm.HandleSubmit | src/components/screens/ConsultationRequest.tsx:80-113 | the outcome is the guard's; a blocked submit changes nothing; a submit records the fields and clears them |
| JsText.LeadingWs | src/pages/Auth.tsx:292 | the count of leading whitespace is within the text and covers only whitespace |
| JsText.TrailingWs | src/pages/Auth.tsx:292 | the count of trailing whitespace is within the text and covers only whitespace |
| JsText.Trim | src/pages/Auth.tsx:292 | `trim` is no longer than the text and neither starts nor ends with whitespace |
| JsText.TrimKeepsTrimmed | src/pages/Auth.tsx:292-293 | a text without edge whitespace trims to itself |
| JsText.TrimEmptyIff | src/components/ui/PatientManagement.tsx:125 | `trim()` is empty iff every character is whitespace |
| JsText.ToUpper | src/pages/Auth.tsx:293 | upper-casing keeps the length and leaves no lower-case letter |
| JsText.ToLower | src/components/screens/TeleconsultationBooking.tsx:214-220 | lower-casing keeps the length and leaves no upper-case letter |
| JsText.ToUpperIdempotent | src/pages/Auth.tsx:293 | upper-casing twice is upper-casing once |
| JsText.ToLowerOfToUpper | src/components/screens/TeleconsultationBooking.tsx:214-220 | lower-casing an upper-cased text is lower-casing it |
| JsText.ToLowerIdempotent | src/components/screens/TeleconsultationBooking.tsx:214-220 | lower-casing twice is lower-casing once |
| JsText.ToUpperKeepsWhitespace | src/pages/Auth.tsx:292-293 | upper-casing maps whitespace to whitespace and nothing else to it |
| JsText.IncludesAt | src/pages/Auth.tsx:154 | a text includes a part iff the part occurs at some position |
| JsText.IncludesEmpty | src/components/screens/TeleconsultationBooking.tsx:214-220 | every text includes the empty text |
| JsText.Includes | src/pages/Auth.tsx:154 | a text only includes parts no longer than itself |
| JsText.Split | src/components/screens/PredictiveAlertScreen.tsx:829 | `split` gives at least one part and no part contains the separator |
| JsText.JoinSplit | src/pages/Auth.tsx:370-371 | joining the parts with the separator gives the text back |
| JsText.Join | src/pages/Auth.tsx:371 | the joined text starts with the first part (JoinSplit proves join undoes split) |
| JsText.SplitCount | src/utils/cloudinary.ts:7 | the text contains the separator iff it splits into at least two parts |
| JsText.SplitWithoutSeparator | src/components/screens/PredictiveAlertScreen.tsx:829 | a text without the separator splits into itself |
| JsText.SplitFirstIsPrefix | src/components/screens/PredictiveAlertScreen.tsx:829 | the first part is a prefix of the text |
| JsText.SplitAtFirst | src/pages/Auth.tsx:370-371 | the parts after the first are the split of the text after the first separator |
| JsText.DigitValue | src/components/ui/PatientManagement.tsx:502 | a character's digit value lies between −1 (not a digit) and the radix |
| JsText.DigitRun | src/components/ui/PatientManagement.tsx:502 | the digit run is the longest prefix made of digits |
| JsText.ParseIntNeedsDigit | src/components/ui/PatientManagement.tsx:502 | `parseInt` gives NaN iff no digit follows the whitespace and sign |
| JsText.ParseInt | src/components/ui/PatientManagement.tsx:502 | a negative result needs a minus sign as the first non-whitespace character |
| JsText.DigitChar | src/utils/cloudinary.ts:15 | a digit character has the given value |
| JsText.NatToRadix | src/utils/cloudinary.ts:15 | `toString(radix)` is non-empty, made of digits of that radix, reads back as the number, and is one digit iff the number is below the radix |
| JsText.ParseMagnitudeOfDigits | src/components/ui/PatientManagement.tsx:502 | the digits of a number read back as that number |
| JsText.ParseIntOfDigits | src/components/ui/PatientManagement.tsx:502 | `parseInt` of a digit text followed by a non-digit gives the digits' value |
| JsText.ParseIntOfDecimal | src/components/ui/PatientManagement.tsx:502 | `parseInt(String(n))` is n |
| JsText.DigitRunAll | src/components/ui/PatientManagement.tsx:502 | the digit run of a text of digits is the whole text |
| JsText.PadStart | src/utils/cloudinary.ts:15 | `padStart` is at least the target length, ends with the text, and pads only with the fill character |
| JsText.TwoDigits | src/components/screens/TeleconsultationBooking.tsx:130-132 | a number below 100 as two digits with those digit values |
| JsText.TwoDigitsIsPadStart | src/components/screens/PredictiveAlertScreen.tsx:814 | the two digits are `String(n).padStart(2, '0')` |
| JsText.ParseIntOfTwoDigits | src/components/screens/PredictiveAlertScreen.tsx:814 | two digits parse back to the number |
| JsText.Dedup | src/contexts/ConsultationContext.tsx:180 | `[...new Set(xs)]` is distinct, keeps every element, adds none and is no longer than the input |
| JsText.Filter | src/components/ui/PredictiveAlerts.tsx:140 | `filter` never lengthens the list |
| JsText.FilterMembers | src/components/ui/PredictiveAlerts.tsx:140 | the kept elements are exactly the members that pass the test |
| JsText.SubsequenceCons | src/components/ui/PredictiveAlerts.tsx:140 | a subsequence stays one after prepending any element |
| JsText.SubsequenceTail | src/components/ui/PredictiveAlerts.tsx:140 | dropping a subsequence's head keeps it a subsequence |
| JsText.FilterIsSubsequence | src/components/ui/PredictiveAlerts.tsx:140 | `filter` keeps the order |
| JsText.FilterSameKeep | src/components/screens/TeleconsultationBooking.tsx:209-222 | two tests that agree on every element filter alike |
| JsText.FilterAll | src/components/screens/TeleconsultationBooking.tsx:209-222 | a test every element passes keeps the whole list |
| JsText.SliceIndex | src/components/screens/PredictiveAlertScreen.tsx:265 | a relative slice index resolves within 0..length, counting negatives from the end |
| JsText.Slice | src/components/screens/PredictiveAlertScreen.tsx:190 | `slice` is the part between the resolved indices, or empty when they cross |
| JsText.LookUp | src/contexts/ConsultationContext.tsx:235-238 | an own key gives its value, a prototype member name gives that member, any other key is missing |

## Left out

- Supabase: every query and its answer is a method parameter (an answer or a failure). Query
  building, network errors beyond that pass-or-fail, and row shapes beyond the fields used are
  not modelled.
- React rendering, styling, icons as components, toasts' appearance, and i18n: translated
  strings are their keys.
- `Math.random()`: slot availability and fallback alert ids are parameters. The mock rating,
  review count and next-availability fields of a professional are dropped.
- Timers: `setInterval` ticks are explicit `OnTick` calls, and the countdown's progress bar
  percentage (a floating-point value) is represented by the elapsed seconds.
- Date parsing, `toISOString` and `toLocaleTimeString`: timestamps are integers, the booking's
  scheduled time is kept as the local `date T time :00` text, and the code expiry is an integer
  compared with `now`.
- `parseFloat`: glucose values in the alert panel arrive already parsed as an optional real,
  together with the raw text used for the repeated-value check.
- Case mapping is ASCII only. String lengths count code points, not UTF-16 units.
- SHA-1 itself: the digest bytes are a parameter; only the hex encoding and the string to sign
  are modelled.
- The loading flags of every component.
- AuthContext.AuthProvider.SignInWithProfessionalCode: the `user_id` update written back to the
  application after creating an account is not modelled; the chosen path is returned instead.
- AuthContext.SignOut: clearing the user and session happens through the auth state listener,
  which is not part of this model; the function keeps them.
- AuthContext.SignUpDecision: the Supabase sign-up call and its redirect options are not
  modelled; the auth error is a parameter.
- The family session and family user are stored as typed fields rather than as JSON text.
- `handleProfessionalCodeLogin`, `handlePlanSelected`, `handleTestProfessionalAccess`, the
  country selector and the sign-out button of the auth page are not modelled.
- `Layout.shouldShowTab` is defined in the layout but not used by the bottom bar; both are
  modelled and FamilyBarShowsProfile records that they disagree.
- ConsultationRequest.RequestForm.HandleSubmit: the form is reset after every submission that
  passes the guard, whatever the insert answers, because `submitRequest` catches its own
  errors; the model records the submission and leaves the context's outcome to
  ConsultationStore.SubmitRequest.
- The consultation request screen's availability panel reads a field `availability` while the
  submit guard reads `available`; the model follows the guard.
- Inherited-key lookups in the icon, specialty-name, badge and display-name tables return a
  `Builtin` marker rather than the function object JavaScript would find.
- PredictiveAlertScreen.SortByTimestamp: the model proves the result sorted and a permutation,
  but not that equal timestamps keep their input order.
- The AI requests of the alert panel (`getPredictiveAlert`, `getAISummary`) are parameters; the
  summary text is not modelled.
- The HomeScreen, dashboards, payment, profile and modal components, and the meal, medication
  and activity contexts, are not part of this model.

## Findings

| source | as written | input that shows it | evidently intended | confidence | as-written member | corrected member |
|---|---|---|---|---|---|---|
| src/components/ui/PatientManagement.tsx:528-532 | next page is `Math.min(page + 1, totalPages)`, and the button is disabled only when `page === totalPages` | no patients: `totalPages` is `Math.ceil(0 / 5) = 0`, page 1 ≠ 0, so next is enabled and moves to page 0; rows per page typed as "-3" is kept by `parseInt`, gives −1 pages for four patients, and next moves to page −1 (NextWithNegativeRowsGoesBelowPageOne) | next stays on a page ≥ 1 and never passes the last page | not executed | PatientManagement.NextOnEmptyListGoesToPageZero | PatientManagement.NextPage |
| src/contexts/ConsultationContext.tsx:235-238 | the fee is `rateInfo ? rateInfo.rate : 500`, with `rateInfo` looked up by type in an object literal | professional type `"constructor"`: the lookup finds `Object.prototype.constructor`, a truthy function without a `rate`, so the fee is `undefined` | unknown types get the default fee of 500 | not executed | ConsultationContext.InheritedTypeHasNoFee | ConsultationContext.FeeSchedule |

The stateful parts of the model keep the code's behaviour: the patient view's Next buttons step
with NextPageAsWritten, and the consultation store inserts the fee FeeAsWritten computes.
NextPage and Fee are the corrected definitions, with the intended properties proved about them.
