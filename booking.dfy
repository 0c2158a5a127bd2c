/**
 * The appointment form of src/components/AppointmentBooking.tsx: the time-slot
 * catalog, the look-ahead over the next seven days filtered by the doctor's
 * weekdays, the submit guard, and the record handed to the dashboard. Calendar
 * dates are represented by their offset from today and today's weekday
 * (0 = Sunday) is a parameter; display strings and ISO dates are not modelled.
 */
module Booking {
  import opened Wrappers
  import opened Types
  import opened Text
  import opened Seqs
  import opened Doctors

  // ---------------------------------------------------------------------------
  // Time slots
  // ---------------------------------------------------------------------------

  const TimeSlots: seq<string> := [
    "09:00", "09:30", "10:00", "10:30", "11:00", "11:30",
    "14:00", "14:30", "15:00", "15:30", "16:00", "16:30"
  ]

  predicate IsDigit(c: char) {
    '0' <= c <= '9'
  }

  function DigitValue(c: char): (v: nat)
    requires IsDigit(c)
    ensures v <= 9
  {
    c as int - '0' as int
  }

  /** A clock time written "HH:MM". */
  predicate IsClockTime(slot: string) {
    |slot| == 5 && IsDigit(slot[0]) && IsDigit(slot[1]) && slot[2] == ':' && IsDigit(slot[3]) && IsDigit(slot[4])
  }

  /** Minutes after midnight of an "HH:MM" time. */
  function SlotMinutes(slot: string): (m: nat)
    requires IsClockTime(slot)
  {
    (10 * DigitValue(slot[0]) + DigitValue(slot[1])) * 60 + 10 * DigitValue(slot[3]) + DigitValue(slot[4])
  }

  /** Twelve half-hour slots: 09:00 to 11:30, then 14:00 to 16:30. */
  lemma TimeSlotsHalfHourly()
    ensures |TimeSlots| == 12
    ensures forall i :: 0 <= i < 12 ==> IsClockTime(TimeSlots[i])
    ensures forall i :: 0 <= i < 6 ==> SlotMinutes(TimeSlots[i]) == 9 * 60 + 30 * i
    ensures forall i :: 6 <= i < 12 ==> SlotMinutes(TimeSlots[i]) == 14 * 60 + 30 * (i - 6)
  {
    forall i | 0 <= i < 12
      ensures IsClockTime(TimeSlots[i])
      ensures i < 6 ==> SlotMinutes(TimeSlots[i]) == 9 * 60 + 30 * i
      ensures 6 <= i ==> SlotMinutes(TimeSlots[i]) == 14 * 60 + 30 * (i - 6)
    {
      if i == 0 {} else if i == 1 {} else if i == 2 {} else if i == 3 {} else if i == 4 {} else if i == 5 {}
      else if i == 6 {} else if i == 7 {} else if i == 8 {} else if i == 9 {} else if i == 10 {} else {}
    }
  }

  /** The slots are listed in strictly increasing time order, hence without repeats. */
  lemma TimeSlotsIncreasing()
    ensures forall i, j :: 0 <= i < j < |TimeSlots| ==>
              IsClockTime(TimeSlots[i]) && IsClockTime(TimeSlots[j]) &&
              SlotMinutes(TimeSlots[i]) < SlotMinutes(TimeSlots[j])
  {
    TimeSlotsHalfHourly();
  }

  // ---------------------------------------------------------------------------
  // Next-week dates (getNextWeekDates)
  // ---------------------------------------------------------------------------

  /** The weekday name of the day `offset` days after a day with weekday `today`. */
  function DayName(today: nat, offset: nat): string {
    WeekdayNames[(today + offset) % 7]
  }

  /** A selectable date: how many days after today it is, and its weekday name. */
  datatype DateOption = DateOption(offset: nat, weekday: string)

  /** The weekday names that are real weekday names and that the doctor lists. */
  function AvailableNames(availability: seq<string>): set<string> {
    set n | n in availability && n in WeekdayNames
  }

  /** Within one week the offsets 1..7 land on seven different weekdays. */
  lemma DayNamesDistinct(today: nat, o1: nat, o2: nat)
    requires 1 <= o1 < o2 <= 7
    ensures DayName(today, o1) != DayName(today, o2)
  {
    WeekdayNamesDistinct();
    assert (today + o1) % 7 != (today + o2) % 7;
  }

  /** Every weekday name is the name of one of the next seven days. */
  lemma EveryNameWithinWeek(today: nat, name: string)
    requires today < 7 && name in WeekdayNames
    ensures exists o :: 1 <= o <= 7 && DayName(today, o) == name
  {
    WeekdayNamesDistinct();
    var d :| 0 <= d < 7 && WeekdayNames[d] == name;
    var o := if d > today then d - today else d + 7 - today;
    assert (today + o) % 7 == d;
    assert DayName(today, o) == name;
  }

  /** The names of the kept days among offsets 1 to `i - 1`. */
  function KeptNames(availability: seq<string>, today: nat, i: nat): set<string> {
    set o | 1 <= o < i && DayName(today, o) in availability :: DayName(today, o)
  }

  /** Looking at one more day adds its name exactly when the doctor lists it, and it is new. */
  lemma KeptNamesStep(availability: seq<string>, today: nat, i: nat)
    requires 1 <= i <= 7
    ensures DayName(today, i) !in KeptNames(availability, today, i)
    ensures KeptNames(availability, today, i + 1) ==
              KeptNames(availability, today, i)
              + (if DayName(today, i) in availability then {DayName(today, i)} else {})
  {
    forall o | 1 <= o < i ensures DayName(today, o) != DayName(today, i) {
      DayNamesDistinct(today, o, i);
    }
  }

  /** After the whole week, the kept names are all listed weekday names. */
  lemma KeptNamesWeek(availability: seq<string>, today: nat)
    requires today < 7
    ensures KeptNames(availability, today, 8) == AvailableNames(availability)
  {
    forall n | n in AvailableNames(availability) ensures n in KeptNames(availability, today, 8) {
      EveryNameWithinWeek(today, n);
    }
  }

  /** The offsets of a list of dates. */
  function Offsets(dates: seq<DateOption>): set<nat> {
    set k | 0 <= k < |dates| :: dates[k].offset
  }

  /** The dates the loop has kept after looking at offsets 1 to `i - 1`. */
  function KeptDates(availability: seq<string>, today: nat, i: nat): seq<DateOption>
    decreases i
  {
    if i <= 1 then []
    else
      var name := DayName(today, i - 1);
      KeptDates(availability, today, i - 1) + (if name in availability then [DateOption(i - 1, name)] else [])
  }

  /** The kept dates lie among offsets 1 to `i - 1`, in increasing order, named by their weekday. */
  lemma {:induction false} KeptDatesOrdered(availability: seq<string>, today: nat, i: nat)
    ensures var r := KeptDates(availability, today, i);
      && |r| < i + 1
      && (forall k :: 0 <= k < |r| ==> 1 <= r[k].offset < i && r[k].weekday == DayName(today, r[k].offset))
      && (forall k, l :: 0 <= k < l < |r| ==> r[k].offset < r[l].offset)
  {
    if i > 1 {
      var r := KeptDates(availability, today, i);
      var prev := KeptDates(availability, today, i - 1);
      KeptDatesOrdered(availability, today, i - 1);
      var name := DayName(today, i - 1);
      if name in availability {
        assert r == prev + [DateOption(i - 1, name)];
        forall k | 0 <= k < |r|
          ensures 1 <= r[k].offset < i && r[k].weekday == DayName(today, r[k].offset)
        {
          if k < |prev| {
            assert r[k] == prev[k];
          }
        }
      } else {
        assert r == prev;
      }
    }
  }

  /** An offset among 1 to `i - 1` is kept exactly when the doctor lists its weekday. */
  lemma {:induction false} KeptDatesOffsets(availability: seq<string>, today: nat, i: nat)
    ensures forall o :: 1 <= o < i ==>
              (DayName(today, o) in availability <==> o in Offsets(KeptDates(availability, today, i)))
  {
    if i > 1 {
      var r := KeptDates(availability, today, i);
      var prev := KeptDates(availability, today, i - 1);
      KeptDatesOffsets(availability, today, i - 1);
      KeptDatesOrdered(availability, today, i - 1);
      var name := DayName(today, i - 1);
      if name in availability {
        assert r == prev + [DateOption(i - 1, name)];
        assert Offsets(r) == Offsets(prev) + {i - 1} by {
          assert forall k :: 0 <= k < |prev| ==> r[k] == prev[k];
          assert r[|prev|].offset == i - 1;
        }
      } else {
        assert r == prev;
        assert i - 1 !in Offsets(prev);
      }
    }
  }

  /** There are as many kept dates as kept weekday names. */
  lemma {:induction false} KeptDatesCount(availability: seq<string>, today: nat, i: nat)
    requires i <= 8
    ensures |KeptDates(availability, today, i)| == |KeptNames(availability, today, i)|
  {
    if i > 1 {
      KeptDatesCount(availability, today, i - 1);
      KeptNamesStep(availability, today, i - 1);
    } else {
      assert KeptNames(availability, today, i) == {};
    }
  }

  /**
   * The days from tomorrow to a week from today, in order, whose weekday the
   * doctor's availability lists.
   */
  method GetNextWeekDates(availability: seq<string>, today: nat) returns (dates: seq<DateOption>)
    requires today < 7
    ensures |dates| <= 7
    ensures forall k :: 0 <= k < |dates| ==>
              1 <= dates[k].offset <= 7 && dates[k].weekday == DayName(today, dates[k].offset)
    ensures forall k, l :: 0 <= k < l < |dates| ==> dates[k].offset < dates[l].offset
    ensures forall o :: 1 <= o <= 7 ==> (DayName(today, o) in availability <==> o in Offsets(dates))
    ensures |dates| == |AvailableNames(availability)|
    ensures dates == [] <==> AvailableNames(availability) == {}
  {
    dates := [];
    for i := 1 to 8
      invariant dates == KeptDates(availability, today, i)
    {
      var dayName := DayName(today, i);
      if dayName in availability {
        dates := dates + [DateOption(i, dayName)];
      }
    }
    KeptDatesOrdered(availability, today, 8);
    KeptDatesOffsets(availability, today, 8);
    KeptDatesCount(availability, today, 8);
    KeptNamesWeek(availability, today);
  }

  /** Dr. Johnson works four weekdays, so her form offers four of the next seven days, whatever today is. */
  lemma JohnsonFourDays()
    ensures |AvailableNames(Registry[0].availability)| == 4
  {
    var av := Registry[0].availability;
    assert av == ["Monday", "Tuesday", "Wednesday", "Friday"];
    assert AvailableNames(av) == {"Monday", "Tuesday", "Wednesday", "Friday"};
  }

  // ---------------------------------------------------------------------------
  // Submission
  // ---------------------------------------------------------------------------

  /** The Book button is enabled once a date and a time are chosen. */
  predicate SubmitEnabled(selectedDate: string, selectedTime: string) {
    selectedDate != "" && selectedTime != ""
  }

  /** The form submits when the button is enabled and the required symptoms field is filled in. */
  predicate CanSubmit(selectedDate: string, selectedTime: string, symptomText: string) {
    SubmitEnabled(selectedDate, selectedTime) && symptomText != ""
  }

  /**
   * `symptoms.split(',').map(s => s.trim())`: one entry per comma plus one,
   * each entry the trimmed text of the matching comma-free piece, so no entry
   * has surrounding whitespace or a comma; and the untrimmed pieces joined by
   * commas give the text back.
   */
  function ParseSymptoms(text: string): (r: seq<string>)
    ensures |r| == |Split(text, ',')| == CountChar(text, ',') + 1
    ensures forall k :: 0 <= k < |r| ==> r[k] == Trim(Split(text, ',')[k])
    ensures forall k :: 0 <= k < |r| ==> IsTrimmed(r[k]) && ',' !in r[k]
    ensures Join(Split(text, ','), ',') == text
  {
    var pieces := Split(text, ',');
    SplitCount(text, ',');
    SplitPiecesFree(text, ',');
    SplitJoin(text, ',');
    var r := seq(|pieces|, k requires 0 <= k < |pieces| => Trim(pieces[k]));
    assert forall k :: 0 <= k < |r| ==> IsTrimmed(r[k]) && ',' !in r[k] by {
      forall k | 0 <= k < |r| ensures IsTrimmed(r[k]) && ',' !in r[k] {
        TrimSpec(pieces[k]);
        var i, j :| 0 <= i <= j <= |pieces[k]| && r[k] == pieces[k][i..j];
        assert forall c :: c in r[k] ==> c in pieces[k];
      }
    }
    r
  }

  /** Text without commas gives one entry: the text trimmed. */
  lemma ParseSymptomsSingle(text: string)
    requires ',' !in text
    ensures ParseSymptoms(text) == [Trim(text)]
  {
    SplitNoSep(text, ',');
  }

  /** Entries already trimmed and comma-free come back unchanged from their comma-joined text. */
  lemma ParseJoinedSymptoms(entries: seq<string>)
    requires |entries| > 0
    requires forall k :: 0 <= k < |entries| ==> IsTrimmed(entries[k]) && ',' !in entries[k]
    ensures ParseSymptoms(Join(entries, ',')) == entries
  {
    JoinSplit(entries, ',');
    var r := ParseSymptoms(Join(entries, ','));
    forall k | 0 <= k < |entries| ensures r[k] == entries[k] {
      TrimOfTrimmed(entries[k]);
    }
  }

  /** The record handed to `onBook`: copied identities and choices, parsed symptoms, status pending. */
  function BuildRequest(user: User, doctor: Doctor, selectedDate: string, selectedTime: string,
                        symptomText: string, notes: string): (r: AppointmentRequest)
    ensures r.patientId == user.id && r.patientName == user.name
    ensures r.doctorId == doctor.id && r.doctorName == doctor.name
    ensures r.date == selectedDate && r.time == selectedTime
    ensures r.symptoms == ParseSymptoms(symptomText)
    ensures r.status == Pending
    ensures r.notes == Some(notes)
  {
    AppointmentRequest(user.id, doctor.id, user.name, doctor.name, selectedDate, selectedTime,
                       ParseSymptoms(symptomText), Pending, Some(notes))
  }

  /** The open booking form for one doctor, on behalf of the signed-in user. */
  class BookingForm {
    const doctor: Doctor
    const user: User
    var selectedDate: string
    var selectedTime: string
    var symptomText: string
    var notes: string

    /** The form opens with every field empty. */
    constructor(doctor: Doctor, user: User)
      ensures this.doctor == doctor && this.user == user
      ensures selectedDate == "" && selectedTime == "" && symptomText == "" && notes == ""
    {
      this.doctor := doctor;
      this.user := user;
      selectedDate := "";
      selectedTime := "";
      symptomText := "";
      notes := "";
    }

    /** Clicking a date button chooses that date. */
    method SelectDate(date: string)
      modifies this
      ensures selectedDate == date
      ensures selectedTime == old(selectedTime) && symptomText == old(symptomText) && notes == old(notes)
    {
      selectedDate := date;
    }

    /** The time buttons, one per slot, are shown only once a date is chosen. */
    method SelectTime(time: string)
      requires selectedDate != "" && time in TimeSlots
      modifies this
      ensures selectedTime == time
      ensures selectedDate == old(selectedDate) && symptomText == old(symptomText) && notes == old(notes)
    {
      selectedTime := time;
    }

    method SetSymptoms(text: string)
      modifies this
      ensures symptomText == text
      ensures selectedDate == old(selectedDate) && selectedTime == old(selectedTime) && notes == old(notes)
    {
      symptomText := text;
    }

    method SetNotes(text: string)
      modifies this
      ensures notes == text
      ensures selectedDate == old(selectedDate) && selectedTime == old(selectedTime) && symptomText == old(symptomText)
    {
      notes := text;
    }

    /** Submitting builds the pending request from the current fields and changes nothing. */
    method Submit() returns (request: AppointmentRequest)
      requires CanSubmit(selectedDate, selectedTime, symptomText)
      ensures request == BuildRequest(user, doctor, selectedDate, selectedTime, symptomText, notes)
      ensures request.status == Pending && request.date != "" && request.time != ""
      ensures |request.symptoms| == CountChar(symptomText, ',') + 1
    {
      request := BuildRequest(user, doctor, selectedDate, selectedTime, symptomText, notes);
    }
  }
}
