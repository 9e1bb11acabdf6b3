/** The teleconsultation booking screen: the list of approved professionals with their
    rates, the filter over that list, the half-hour slot grid of a day, and the booking
    form whose fields are cleared after a booking goes through. */
module TeleconsultationBooking {
  import opened JsText

  // ------------------------------------------------------------------
  // Professionals and their rates
  // ------------------------------------------------------------------

  /** An approved professional application as the backend returns it. */
  datatype Application = Application(
    id: string, firstName: string, lastName: string, professionalType: string,
    city: Option<string>, institution: Option<string>)

  /** A row of the rate table; the rate column may be empty. */
  datatype RateRow = RateRow(specialty: string, ratePerConsultation: Option<int>)

  /** A professional as the screen lists it. The mock rating, consultation count and next
      availability are random and are not part of the model. */
  datatype Professional = Professional(
    id: string, firstName: string, lastName: string, professionalType: string,
    specialty: string, city: Option<string>, institution: Option<string>, rate: int)

  /** The rate used when the table has no usable rate for a specialty. */
  const DefaultRate: int := 500

  /** `rates.find(r => r.specialty === specialty)`: the first row for the specialty. */
  function FindRate(rates: seq<RateRow>, specialty: string): (found: Option<RateRow>)
    ensures found.None? <==> forall i :: 0 <= i < |rates| ==> rates[i].specialty != specialty
    ensures found.Some? ==> exists i :: 0 <= i < |rates| && rates[i] == found.value &&
                              rates[i].specialty == specialty &&
                              forall j :: 0 <= j < i ==> rates[j].specialty != specialty
  {
    if rates == [] then None
    else if rates[0].specialty == specialty then Some(rates[0])
    else
      var rest := FindRate(rates[1..], specialty);
      assert forall i :: 1 <= i < |rates| ==> rates[i] == rates[1..][i - 1];
      rest
  }

  /** `rate?.rate_per_consultation || 500`: the first matching row's rate, or 500 when there
      is no row, or when the first matching row's rate is empty or 0 (a later row for the
      same specialty is then not looked at). */
  function RateFor(rates: seq<RateRow>, specialty: string): (rate: int)
    ensures rate != 0
    ensures (forall i :: 0 <= i < |rates| ==> rates[i].specialty != specialty) ==> rate == DefaultRate
    ensures forall i :: 0 <= i < |rates| && rates[i].specialty == specialty &&
                        (forall j :: 0 <= j < i ==> rates[j].specialty != specialty) ==>
                          rate == match rates[i].ratePerConsultation
                                  case Some(r) => if r != 0 then r else DefaultRate
                                  case None => DefaultRate
    ensures rate != DefaultRate ==> exists i :: 0 <= i < |rates| && rates[i].specialty == specialty &&
                                      rates[i].ratePerConsultation == Some(rate)
  {
    var found := FindRate(rates, specialty);
    assert forall i :: 0 <= i < |rates| && rates[i].specialty == specialty &&
                       (forall j :: 0 <= j < i ==> rates[j].specialty != specialty)
                       ==> found == Some(rates[i]) by {
      if found.Some? {
        var m :| 0 <= m < |rates| && rates[m] == found.value && rates[m].specialty == specialty &&
                 forall k :: 0 <= k < m ==> rates[k].specialty != specialty;
      }
    }
    match found
    case Some(RateRow(_, Some(r))) => if r != 0 then r else DefaultRate
    case _ => DefaultRate
  }

  /** An application joined with its rate; the specialty is the professional type. */
  function WithRate(app: Application, rates: seq<RateRow>): (p: Professional)
  {
    Professional(app.id, app.firstName, app.lastName, app.professionalType,
                 app.professionalType, app.city, app.institution,
                 RateFor(rates, app.professionalType))
  }

  /** Every application becomes one professional, in order, each keeping its identity and
      with its specialty equal to its type. */
  function WithRates(apps: seq<Application>, rates: seq<RateRow>): (ps: seq<Professional>)
    ensures |ps| == |apps|
    ensures forall i :: 0 <= i < |apps| ==> ps[i] == WithRate(apps[i], rates)
  {
    seq(|apps|, i requires 0 <= i < |apps| => WithRate(apps[i], rates))
  }

  /** The joined list keeps each application's identity and uses the table's rate. */
  lemma WithRatesKeepsApplications(apps: seq<Application>, rates: seq<RateRow>, i: nat)
    requires i < |apps|
    ensures var p := WithRates(apps, rates)[i];
            p.id == apps[i].id && p.specialty == apps[i].professionalType &&
            p.firstName == apps[i].firstName && p.lastName == apps[i].lastName &&
            p.city == apps[i].city && p.institution == apps[i].institution &&
            (forall j :: 0 <= j < |rates| && rates[j].specialty == apps[i].professionalType ==>
                           (rates[j].ratePerConsultation.Some? && rates[j].ratePerConsultation.value != 0 &&
                            (forall k :: 0 <= k < j ==> rates[k].specialty != apps[i].professionalType))
                           ==> p.rate == rates[j].ratePerConsultation.value)
  {
    var p := WithRates(apps, rates)[i];
    var t := apps[i].professionalType;
    forall j | 0 <= j < |rates| && rates[j].specialty == t &&
               rates[j].ratePerConsultation.Some? && rates[j].ratePerConsultation.value != 0 &&
               (forall k :: 0 <= k < j ==> rates[k].specialty != t)
      ensures p.rate == rates[j].ratePerConsultation.value
    {
      var found := FindRate(rates, t);
      assert found.Some?;
      var m :| 0 <= m < |rates| && rates[m] == found.value && rates[m].specialty == t &&
               forall k :: 0 <= k < m ==> rates[k].specialty != t;
      assert m == j;
    }
  }

  // ------------------------------------------------------------------
  // Specialty icon and name
  // ------------------------------------------------------------------

  const GenericIcon: string := "\U{1F468}\U{200D}\U{2695}\U{FE0F}"

  const Icons: map<string, string> := map[
    "endocrinologist" := "\U{1FA7A}",
    "psychologist" := "\U{1F9E0}",
    "nutritionist" := "\U{1F957}",
    "nurse" := "\U{1F469}\U{200D}\U{2695}\U{FE0F}",
    "diabetologist" := "\U{1F489}",
    "general_practitioner" := GenericIcon]

  /** The six specialties with a translated name; a name is its translation key. */
  const SpecialtyNames: map<string, string> := map[
    "endocrinologist" := "teleconsultationBooking.professions.endocrinologist",
    "psychologist" := "teleconsultationBooking.professions.psychologist",
    "nutritionist" := "teleconsultationBooking.professions.nutritionist",
    "nurse" := "teleconsultationBooking.professions.nurse",
    "diabetologist" := "teleconsultationBooking.professions.diabetologist",
    "general_practitioner" := "teleconsultationBooking.professions.general_practitioner"]

  /** `icons[specialty] || generic`: every entry is a non-empty string, so the fallback is
      taken exactly when the lookup finds nothing; a built-in is truthy and is kept. */
  function SpecialtyIcon(specialty: string): (icon: Lookup<string>)
    ensures specialty in Icons ==> icon == Own(Icons[specialty])
    ensures specialty !in Icons && specialty !in InheritedKeys ==> icon == Own(GenericIcon)
    ensures specialty !in Icons && specialty in InheritedKeys ==> icon == Builtin(specialty)
  {
    match LookUp(Icons, specialty)
    case Own(text) => if text != "" then Own(text) else Own(GenericIcon)
    case Builtin(key) => Builtin(key)
    case Missing => Own(GenericIcon)
  }

  /** `names[specialty] || specialty`: an unknown specialty is shown by its key. */
  function SpecialtyName(specialty: string): (name: Lookup<string>)
    ensures specialty in SpecialtyNames ==> name == Own(SpecialtyNames[specialty])
    ensures specialty !in SpecialtyNames && specialty !in InheritedKeys ==> name == Own(specialty)
    ensures specialty !in SpecialtyNames && specialty in InheritedKeys ==> name == Builtin(specialty)
  {
    match LookUp(SpecialtyNames, specialty)
    case Own(text) => if text != "" then Own(text) else Own(specialty)
    case Builtin(key) => Builtin(key)
    case Missing => Own(specialty)
  }

  // ------------------------------------------------------------------
  // Half-hour slots
  // ------------------------------------------------------------------

  datatype TimeSlot = TimeSlot(time: string, available: bool)

  const FirstHour: nat := 8
  const EndHour: nat := 18
  /** Two slots an hour from 08:00 up to, not including, 18:00. */
  const SlotCount: nat := 20

  /** The i-th slot's clock time "HH:MM". */
  function SlotTime(i: nat): (time: string)
    requires i < SlotCount
  {
    TwoDigits(FirstHour + i / 2) + ":" + TwoDigits(30 * (i % 2))
  }

  /** The minutes since midnight written in an "HH:MM" string of digits. */
  function ClockMinutes(time: string): int
    requires |time| == 5
  {
    (DigitValue(time[0], 10) * 10 + DigitValue(time[1], 10)) * 60 +
    DigitValue(time[3], 10) * 10 + DigitValue(time[4], 10)
  }

  /** Slot i is "HH:MM" with two-digit hour and minute fields and stands for 8:00 plus
      i half hours. */
  lemma SlotTimeMeans(i: nat)
    requires i < SlotCount
    ensures |SlotTime(i)| == 5 && SlotTime(i)[2] == ':'
    ensures forall k :: 0 <= k < 5 && k != 2 ==> '0' <= SlotTime(i)[k] <= '9'
    ensures ClockMinutes(SlotTime(i)) == FirstHour * 60 + 30 * i
  {
    var h := TwoDigits(FirstHour + i / 2);
    var m := TwoDigits(30 * (i % 2));
    assert SlotTime(i) == h + [':'] + m;
    assert DigitValue(h[0], 10) >= 0 && DigitValue(h[1], 10) >= 0;
    assert DigitValue(m[0], 10) >= 0 && DigitValue(m[1], 10) >= 0;
    assert (FirstHour + i / 2) * 60 + 30 * (i % 2) == FirstHour * 60 + 30 * i;
  }

  /** The grid runs from "08:00" to "17:30". */
  lemma SlotGridEnds()
    ensures SlotTime(0) == "08:00"
    ensures SlotTime(SlotCount - 1) == "17:30"
  {
  }

  /** Slot times are strictly increasing, each one half hour after the previous. */
  lemma SlotTimesIncrease(i: nat, j: nat)
    requires i < j < SlotCount
    ensures ClockMinutes(SlotTime(i)) < ClockMinutes(SlotTime(j))
    ensures j == i + 1 ==> ClockMinutes(SlotTime(j)) == ClockMinutes(SlotTime(i)) + 30
  {
    SlotTimeMeans(i);
    SlotTimeMeans(j);
  }

  /** The number of slots of an hour before the given minute of the loop. */
  function HalfHours(minute: nat): nat {
    if minute == 0 then 0 else if minute == 30 then 1 else 2
  }

  /** The loop's time text: `${hour.toString().padStart(2, '0')}:${minute.toString().padStart(2, '0')}`. */
  function PaddedTime(hour: nat, minute: nat): string {
    PadStart(NatToRadix(hour, 10), 2, '0') + ":" + PadStart(NatToRadix(minute, 10), 2, '0')
  }

  /** The padded hour and minute of the loop are the slot time of their position. */
  lemma PaddedSlotTime(hour: nat, minute: nat, i: nat)
    requires FirstHour <= hour < EndHour && (minute == 0 || minute == 30)
    requires i == 2 * (hour - FirstHour) + HalfHours(minute)
    ensures i < SlotCount
    ensures PaddedTime(hour, minute) == SlotTime(i)
  {
    assert SlotTime(i) == TwoDigits(hour) + ":" + TwoDigits(minute) by {
      assert i / 2 == hour - FirstHour;
      assert i % 2 == HalfHours(minute);
    }
    TwoDigitsIsPadStart(hour);
    TwoDigitsIsPadStart(minute);
  }

  /** The slots built so far are the first slots of the grid. */
  predicate IsGridPrefix(slots: seq<TimeSlot>, available: nat -> bool) {
    |slots| <= SlotCount && forall i :: 0 <= i < |slots| ==> slots[i] == TimeSlot(SlotTime(i), available(i))
  }

  lemma GridPrefixGrows(slots: seq<TimeSlot>, available: nat -> bool, time: string)
    requires IsGridPrefix(slots, available) && |slots| < SlotCount
    requires time == SlotTime(|slots|)
    ensures IsGridPrefix(slots + [TimeSlot(time, available(|slots|))], available)
  {
  }

  /** generateTimeSlots: for each hour from 8 to 17 and each minute 0 and 30, the padded
      time, in order. `available(i)` is the outcome of the i-th availability draw. */
  method GenerateTimeSlots(available: nat -> bool) returns (slots: seq<TimeSlot>)
    ensures |slots| == SlotCount
    ensures forall i :: 0 <= i < SlotCount ==> slots[i] == TimeSlot(SlotTime(i), available(i))
  {
    slots := [];
    var hour := FirstHour;
    while hour < EndHour
      invariant FirstHour <= hour <= EndHour
      invariant |slots| == 2 * (hour - FirstHour)
      invariant IsGridPrefix(slots, available)
    {
      slots := PushHalfHours(slots, hour, available);
      hour := hour + 1;
    }
  }

  /** The inner loop of generateTimeSlots: the slots at minute 0 and 30 of one hour. */
  method PushHalfHours(before: seq<TimeSlot>, hour: nat, available: nat -> bool) returns (slots: seq<TimeSlot>)
    requires FirstHour <= hour < EndHour && |before| == 2 * (hour - FirstHour)
    requires IsGridPrefix(before, available)
    ensures |slots| == |before| + 2
    ensures IsGridPrefix(slots, available)
  {
    slots := before;
    var minute := 0;
    while minute < 60
      invariant minute == 0 || minute == 30 || minute == 60
      invariant |slots| == 2 * (hour - FirstHour) + HalfHours(minute)
      invariant IsGridPrefix(slots, available)
    {
      var time := PaddedTime(hour, minute);
      PaddedSlotTime(hour, minute, |slots|);
      GridPrefixGrows(slots, available, time);
      slots := slots + [TimeSlot(time, available(|slots|))];
      minute := minute + 30;
    }
  }

  // ------------------------------------------------------------------
  // The professional filter
  // ------------------------------------------------------------------

  datatype Filters = Filters(specialty: string, city: string, search: string)

  const NoFilters: Filters := Filters("", "", "")

  /** The specialty filter: empty or 'all' lets everyone through. */
  predicate MatchesSpecialty(p: Professional, f: Filters) {
    f.specialty == "" || f.specialty == "all" || p.specialty == f.specialty
  }

  /** The city filter: the lower-cased city contains the lower-cased filter text; a
      professional with no city fails a non-empty filter. */
  predicate MatchesCity(p: Professional, f: Filters) {
    f.city == "" || (p.city.Some? && Includes(ToLower(p.city.value), ToLower(f.city)))
  }

  /** The search: the lower-cased "first last", or the institution, contains it. */
  predicate MatchesSearch(p: Professional, f: Filters) {
    f.search == "" ||
    Includes(ToLower(p.firstName + " " + p.lastName), ToLower(f.search)) ||
    (p.institution.Some? && Includes(ToLower(p.institution.value), ToLower(f.search)))
  }

  predicate Matches(p: Professional, f: Filters) {
    MatchesSpecialty(p, f) && MatchesCity(p, f) && MatchesSearch(p, f)
  }

  function FilteredProfessionals(ps: seq<Professional>, f: Filters): (shown: seq<Professional>)
    ensures |shown| <= |ps|
  {
    Filter(ps, p => Matches(p, f))
  }

  /** The filter keeps exactly the matching professionals, in their original order. */
  lemma FilteredExactly(ps: seq<Professional>, f: Filters)
    ensures forall i :: 0 <= i < |FilteredProfessionals(ps, f)| ==>
              Matches(FilteredProfessionals(ps, f)[i], f) && FilteredProfessionals(ps, f)[i] in ps
    ensures forall i :: 0 <= i < |ps| && Matches(ps[i], f) ==> ps[i] in FilteredProfessionals(ps, f)
    ensures IsSubsequence(FilteredProfessionals(ps, f), ps)
  {
    FilterMembers(ps, p => Matches(p, f));
    FilterIsSubsequence(ps, p => Matches(p, f));
  }

  /** With empty city and search, and an empty or 'all' specialty, everyone is listed. */
  lemma NoFiltersListEveryone(ps: seq<Professional>, specialty: string)
    requires specialty == "" || specialty == "all"
    ensures FilteredProfessionals(ps, Filters(specialty, "", "")) == ps
  {
    FilterAll(ps, p => Matches(p, Filters(specialty, "", "")));
  }

  /** Lower-casing the text of a filter and upper-casing it give the same list: the city
      and search tests ignore letter case. */
  lemma FilterIgnoresCase(ps: seq<Professional>, f: Filters)
    ensures FilteredProfessionals(ps, Filters(f.specialty, ToUpper(f.city), ToUpper(f.search))) ==
            FilteredProfessionals(ps, Filters(f.specialty, ToLower(f.city), ToLower(f.search)))
  {
    var g := Filters(f.specialty, ToUpper(f.city), ToUpper(f.search));
    var h := Filters(f.specialty, ToLower(f.city), ToLower(f.search));
    ToLowerOfToUpper(f.city);
    ToLowerOfToUpper(f.search);
    ToLowerIdempotent(f.city);
    ToLowerIdempotent(f.search);
    FilterSameKeep(ps, p => Matches(p, g), p => Matches(p, h));
  }

  /** Searching for a professional's full name, in any letter case, lists that professional
      when no other filter is set. */
  lemma SearchFindsFullName(p: Professional)
    ensures Matches(p, Filters("", "", ToUpper(p.firstName + " " + p.lastName)))
  {
    var name := p.firstName + " " + p.lastName;
    ToLowerOfToUpper(name);
    assert ToLower(name) <= ToLower(name);
  }

  /** Searching for the institution lists the professional. */
  lemma SearchFindsInstitution(p: Professional, search: string)
    requires p.institution.Some?
    requires Includes(ToLower(p.institution.value), ToLower(search))
    ensures Matches(p, Filters("", "", search))
  {
  }

  // ------------------------------------------------------------------
  // The booking form
  // ------------------------------------------------------------------

  /** The teleconsultation row inserted by a booking. */
  datatype Booking = Booking(professionalId: string, patientId: string, scheduledAt: string,
                             status: string, amountCharged: int)

  datatype BookOutcome = MissingInfo | Booked(row: Booking) | BookingError

  /** The start of the consultation, `${date}T${time}:00` (the conversion to an ISO instant
      in the browser's time zone is not modelled). */
  function ScheduledAt(date: string, time: string): (at: string)
    ensures |at| == |date| + |time| + 4
    ensures at[..|date|] == date && at[|date|] == 'T'
    ensures at[|date| + 1..] == time + ":00"
  {
    date + "T" + time + ":00"
  }

  /** The booking row for the selection: the professional's rate is charged. */
  function BookingRow(p: Professional, patientId: string, date: string, time: string): Booking
  {
    Booking(p.id, patientId, ScheduledAt(date, time), "scheduled", p.rate)
  }

  /** The slot grid of the form: empty, or the twenty slot times in order. */
  predicate IsSlotGrid(slots: seq<TimeSlot>) {
    slots == [] || (|slots| == SlotCount && forall i :: 0 <= i < SlotCount ==> slots[i].time == SlotTime(i))
  }

  class BookingForm {
    var professionals: seq<Professional>
    var filters: Filters
    var selectedProfessional: Option<Professional>
    var selectedDate: string
    var selectedTime: string
    var timeSlots: seq<TimeSlot>
    /** The teleconsultations stored by successful bookings, oldest first. */
    var bookings: seq<Booking>

    /** The slots are the grid or nothing, and a selected time is always an available
        slot of the grid shown. */
    ghost predicate Valid()
      reads this
    {
      IsSlotGrid(timeSlots) &&
      (selectedTime == "" || exists i :: 0 <= i < |timeSlots| && timeSlots[i].time == selectedTime && timeSlots[i].available)
    }

    /** The list shown under the filters. */
    function Shown(): (shown: seq<Professional>)
      reads this
    {
      FilteredProfessionals(professionals, filters)
    }

    constructor ()
      ensures professionals == [] && filters == NoFilters && selectedProfessional == None
      ensures selectedDate == "" && selectedTime == "" && timeSlots == [] && bookings == []
      ensures Valid()
    {
      professionals := [];
      filters := NoFilters;
      selectedProfessional := None;
      selectedDate := "";
      selectedTime := "";
      timeSlots := [];
      bookings := [];
    }

    /** loadProfessionals: the list is replaced only when both queries returned data. */
    method LoadProfessionals(apps: Option<seq<Application>>, rates: Option<seq<RateRow>>)
      modifies this
      ensures apps.Some? && rates.Some? ==> professionals == WithRates(apps.value, rates.value)
      ensures !(apps.Some? && rates.Some?) ==> professionals == old(professionals)
      ensures filters == old(filters) && selectedProfessional == old(selectedProfessional)
      ensures selectedDate == old(selectedDate) && selectedTime == old(selectedTime)
      ensures timeSlots == old(timeSlots) && bookings == old(bookings)
    {
      if apps.Some? && rates.Some? {
        professionals := WithRates(apps.value, rates.value);
      }
    }

    method SetSearch(search: string)
      modifies this
      ensures filters == old(filters).(search := search)
      ensures professionals == old(professionals) && selectedProfessional == old(selectedProfessional)
      ensures selectedDate == old(selectedDate) && selectedTime == old(selectedTime)
      ensures timeSlots == old(timeSlots) && bookings == old(bookings)
    {
      filters := filters.(search := search);
    }

    method SetSpecialty(specialty: string)
      modifies this
      ensures filters == old(filters).(specialty := specialty)
      ensures professionals == old(professionals) && selectedProfessional == old(selectedProfessional)
      ensures selectedDate == old(selectedDate) && selectedTime == old(selectedTime)
      ensures timeSlots == old(timeSlots) && bookings == old(bookings)
    {
      filters := filters.(specialty := specialty);
    }

    method SetCity(city: string)
      modifies this
      ensures filters == old(filters).(city := city)
      ensures professionals == old(professionals) && selectedProfessional == old(selectedProfessional)
      ensures selectedDate == old(selectedDate) && selectedTime == old(selectedTime)
      ensures timeSlots == old(timeSlots) && bookings == old(bookings)
    {
      filters := filters.(city := city);
    }

    /** Clicking a listed professional selects it; the date, time and slots stay. */
    method SelectProfessional(i: nat)
      requires i < |Shown()|
      requires Valid()
      modifies this
      ensures Valid()
      ensures selectedProfessional == Some(old(Shown())[i])
      ensures professionals == old(professionals) && filters == old(filters)
      ensures selectedDate == old(selectedDate) && selectedTime == old(selectedTime)
      ensures timeSlots == old(timeSlots) && bookings == old(bookings)
    {
      selectedProfessional := Some(Shown()[i]);
    }

    /** handleDateChange: the date is set and the time cleared; with a professional
        selected a new grid is drawn, otherwise the slots stay as they were. */
    method ChangeDate(date: string, available: nat -> bool)
      requires Valid()
      modifies this
      ensures Valid()
      ensures selectedDate == date && selectedTime == ""
      ensures old(selectedProfessional).Some? ==>
                |timeSlots| == SlotCount &&
                forall i :: 0 <= i < SlotCount ==> timeSlots[i] == TimeSlot(SlotTime(i), available(i))
      ensures old(selectedProfessional).None? ==> timeSlots == old(timeSlots)
      ensures professionals == old(professionals) && filters == old(filters)
      ensures selectedProfessional == old(selectedProfessional) && bookings == old(bookings)
    {
      selectedDate := date;
      selectedTime := "";
      if selectedProfessional.Some? {
        timeSlots := GenerateTimeSlots(available);
      }
    }

    /** Clicking a slot selects its time; the button of an unavailable slot is disabled. */
    method SelectTime(i: nat)
      requires i < |timeSlots|
      requires Valid()
      modifies this
      ensures Valid()
      ensures old(timeSlots[i].available) ==> selectedTime == old(timeSlots[i].time)
      ensures !old(timeSlots[i].available) ==> selectedTime == old(selectedTime)
      ensures professionals == old(professionals) && filters == old(filters)
      ensures selectedProfessional == old(selectedProfessional) && selectedDate == old(selectedDate)
      ensures timeSlots == old(timeSlots) && bookings == old(bookings)
    {
      if timeSlots[i].available {
        selectedTime := timeSlots[i].time;
      }
    }

    /** handleBookConsultation. `user` is the signed-in user's id, if any, and
        `insertFails` the backend's answer to the insert. Missing information changes
        nothing; a failed insert keeps the form; a stored booking clears the professional,
        date, time and slots. */
    method Book(user: Option<string>, insertFails: bool) returns (outcome: BookOutcome)
      requires Valid()
      modifies this
      ensures Valid()
      ensures professionals == old(professionals) && filters == old(filters)
      ensures old(selectedProfessional.None? || selectedDate == "" || selectedTime == "" || user.None?) ==>
                outcome == MissingInfo &&
                selectedProfessional == old(selectedProfessional) && selectedDate == old(selectedDate) &&
                selectedTime == old(selectedTime) && timeSlots == old(timeSlots) && bookings == old(bookings)
      ensures old(selectedProfessional.Some? && selectedDate != "" && selectedTime != "" && user.Some?) && insertFails ==>
                outcome == BookingError &&
                selectedProfessional == old(selectedProfessional) && selectedDate == old(selectedDate) &&
                selectedTime == old(selectedTime) && timeSlots == old(timeSlots) && bookings == old(bookings)
      ensures old(selectedProfessional.Some? && selectedDate != "" && selectedTime != "" && user.Some?) && !insertFails ==>
                var row := BookingRow(old(selectedProfessional).value, user.value, old(selectedDate), old(selectedTime));
                outcome == Booked(row) && bookings == old(bookings) + [row] &&
                selectedProfessional == None && selectedDate == "" && selectedTime == "" && timeSlots == []
    {
      if selectedProfessional.None? || selectedDate == "" || selectedTime == "" || user.None? {
        return MissingInfo;
      }
      var row := BookingRow(selectedProfessional.value, user.value, selectedDate, selectedTime);
      if insertFails {
        return BookingError;
      }
      bookings := bookings + [row];
      selectedProfessional := None;
      selectedDate := "";
      selectedTime := "";
      timeSlots := [];
      return Booked(row);
    }
  }

  /** A time picked from the form's grid is one of the slot times, between 08:00 and
      17:30. */
  lemma BookedSlotIsOnTheGrid(slots: seq<TimeSlot>, time: string, i: nat)
    requires IsSlotGrid(slots)
    requires i < |slots| && slots[i].time == time
    ensures exists k :: 0 <= k < SlotCount && time == SlotTime(k)
    ensures |time| == 5 && 8 * 60 <= ClockMinutes(time) <= 17 * 60 + 30
  {
    SlotTimeMeans(i);
  }
}
