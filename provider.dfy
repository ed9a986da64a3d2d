/** The provider's dashboard: the week being shown, the stored appointments,
    the daily and weekly views over them, and accepting or declining a
    pending appointment. Calendar dates are day numbers (day 0 is Thursday
    1 January 1970) rather than date strings. */
module ProviderSchedule {
  import opened Options

  // ---------------------------------------------------------------------
  // Calendar
  // ---------------------------------------------------------------------

  /** A calendar date, counted in days from 1 January 1970. */
  type Day = int

  /** `Date.getDay()`: 0 is Sunday, 1 Monday, ..., 6 Saturday. */
  function DayOfWeek(d: Day): (w: int)
    ensures 0 <= w < 7
  {
    (d + 4) % 7
  }

  /** Stepping back `DayOfWeek(today) - 1` days (6 on a Sunday) lands on a
      Monday. */
  lemma MondayBefore(today: Day)
    ensures DayOfWeek(today - DayOfWeek(today) + (if DayOfWeek(today) == 0 then -6 else 1)) == 1
  {
    var q := (today + 4) / 7;
    assert today + 4 == 7 * q + DayOfWeek(today);
    if DayOfWeek(today) == 0 {
      assert today - 6 + 4 == 7 * (q - 1) + 1;
    } else {
      assert today - DayOfWeek(today) + 1 + 4 == 7 * q + 1;
    }
  }

  /** `calculateWeekDates`: the seven days, Monday first, of the week that
      contains `today`. */
  method WeekDates(today: Day) returns (week: seq<Day>)
    ensures |week| == 7
    ensures forall i :: 0 < i < 7 ==> week[i] == week[i - 1] + 1
    ensures forall i :: 0 <= i < 7 ==> week[i] == week[0] + i
    ensures DayOfWeek(week[0]) == 1
    ensures week[0] <= today <= week[6]
  {
    var day := DayOfWeek(today);
    var monday := today - day + (if day == 0 then -6 else 1);
    MondayBefore(today);
    week := [];
    for i := 0 to 7
      invariant |week| == i
      invariant forall j :: 0 <= j < i ==> week[j] == monday + j
    {
      week := week + [monday + i];
    }
  }

  /** A Monday-start week containing a given day is unique: the week
      `WeekDates` returns is the only one. */
  lemma {:induction false} MondayWeekUnique(today: Day, m1: Day, m2: Day)
    requires DayOfWeek(m1) == 1 && m1 <= today < m1 + 7
    requires DayOfWeek(m2) == 1 && m2 <= today < m2 + 7
    ensures m1 == m2
  {
    var q1, q2 := (m1 + 4) / 7, (m2 + 4) / 7;
    assert m1 + 4 == 7 * q1 + 1;
    assert m2 + 4 == 7 * q2 + 1;
    assert m1 - m2 == 7 * (q1 - q2);
  }

  // ---------------------------------------------------------------------
  // Appointments
  // ---------------------------------------------------------------------

  datatype AppointmentStatus = Open | Confirmed | Pending

  datatype Appointment = Appointment(
    id: string,
    date: Day,
    time: string,
    patientName: string,
    status: AppointmentStatus,
    careGap: Option<string>)

  /** An open slot has no patient and no care gap; a booked one names its
      patient. */
  ghost predicate WellFormed(appointments: seq<Appointment>) {
    forall a :: a in appointments ==>
      (a.status == Open ==> a.patientName == "" && a.careGap == None) &&
      (a.status != Open ==> a.patientName != "")
  }

  ghost predicate UniqueIds(appointments: seq<Appointment>) {
    forall i, j :: 0 <= i < j < |appointments| ==> appointments[i].id != appointments[j].id
  }

  /** What accepting the appointment with id `id` does to one stored
      appointment. */
  function Accepted(x: Appointment, id: string): Appointment {
    if x.id == id then x.(status := Confirmed) else x
  }

  /** What declining the appointment with id `id` does to one stored
      appointment: it becomes an open slot at the same date and time. */
  function Released(x: Appointment, id: string): Appointment {
    if x.id == id then x.(status := Open, patientName := "", careGap := None) else x
  }

  /** The list `handleAcceptAppointment` stores: `map` of `Accepted`. */
  function ConfirmById(appointments: seq<Appointment>, id: string): (r: seq<Appointment>)
    ensures |r| == |appointments|
    ensures forall i :: 0 <= i < |r| ==> r[i] == Accepted(appointments[i], id)
  {
    if appointments == [] then []
    else [Accepted(appointments[0], id)] + ConfirmById(appointments[1..], id)
  }

  /** The list `handleDeclineAppointment` stores: `map` of `Released`. */
  function ReleaseById(appointments: seq<Appointment>, id: string): (r: seq<Appointment>)
    ensures |r| == |appointments|
    ensures forall i :: 0 <= i < |r| ==> r[i] == Released(appointments[i], id)
  {
    if appointments == [] then []
    else [Released(appointments[0], id)] + ReleaseById(appointments[1..], id)
  }

  /** The daily view: the stored appointments on `date`, in stored order. */
  function Daily(appointments: seq<Appointment>, date: Day): (r: seq<Appointment>)
    ensures |r| <= |appointments|
    ensures forall a :: a in r <==> a in appointments && a.date == date
  {
    if appointments == [] then []
    else (if appointments[0].date == date then [appointments[0]] else []) + Daily(appointments[1..], date)
  }

  /** A weekly-grid cell: the first stored appointment at `date` and `time`,
      or nothing (an empty cell). */
  function WeeklyCell(appointments: seq<Appointment>, date: Day, time: string): (r: Option<Appointment>)
    ensures r.None? <==> forall a :: a in appointments ==> !(a.date == date && a.time == time)
    ensures r.Some? ==>
              exists k :: 0 <= k < |appointments| && appointments[k] == r.value &&
                          r.value.date == date && r.value.time == time &&
                          forall j :: 0 <= j < k ==> !(appointments[j].date == date && appointments[j].time == time)
  {
    if appointments == [] then None
    else if appointments[0].date == date && appointments[0].time == time then Some(appointments[0])
    else
      var r := WeeklyCell(appointments[1..], date, time);
      if r.Some? then
        ghost var k :| 0 <= k < |appointments[1..]| && appointments[1..][k] == r.value &&
                       r.value.date == date && r.value.time == time &&
                       forall j :: 0 <= j < k ==> !(appointments[1..][j].date == date && appointments[1..][j].time == time);
        assert appointments[k + 1] == r.value;
        r
      else r
  }

  // ---------------------------------------------------------------------
  // Lemmas about the views and the updates
  // ---------------------------------------------------------------------

  /** The daily view keeps stored order: filtering a concatenation is the
      concatenation of the filtered parts. */
  lemma {:induction false} DailyAppend(a: seq<Appointment>, b: seq<Appointment>, date: Day)
    ensures Daily(a + b, date) == Daily(a, date) + Daily(b, date)
  {
    if a != [] {
      assert (a + b)[0] == a[0];
      assert (a + b)[1..] == a[1..] + b;
      DailyAppend(a[1..], b, date);
      var head := if a[0].date == date then [a[0]] else [];
      calc {
        Daily(a + b, date);
        head + Daily(a[1..] + b, date);
        head + (Daily(a[1..], date) + Daily(b, date));
        (head + Daily(a[1..], date)) + Daily(b, date);
        Daily(a, date) + Daily(b, date);
      }
    } else {
      assert a + b == b;
    }
  }

  /** A list whose entries all fall on `date` is its own daily view. */
  lemma {:induction false} DailyAllOnDate(a: seq<Appointment>, date: Day)
    requires forall j :: 0 <= j < |a| ==> a[j].date == date
    ensures Daily(a, date) == a
  {
    if a != [] {
      DailyAllOnDate(a[1..], date);
    }
  }

  /** A weekly cell shows exactly what the daily view of that date would
      show first at that time. */
  lemma {:induction false} WeeklyCellFromDaily(a: seq<Appointment>, date: Day, time: string)
    ensures WeeklyCell(a, date, time) == WeeklyCell(Daily(a, date), date, time)
  {
    if a != [] {
      WeeklyCellFromDaily(a[1..], date, time);
      if a[0].date == date {
        assert Daily(a, date) == [a[0]] + Daily(a[1..], date);
        assert (Daily(a, date))[1..] == Daily(a[1..], date);
      } else {
        assert Daily(a, date) == Daily(a[1..], date);
      }
    }
  }

  /** Accepting changes appointments in place: the daily view afterwards is
      the daily view before, with the accepted entries confirmed. */
  lemma {:induction false} DailyAfterConfirm(a: seq<Appointment>, id: string, date: Day)
    ensures Daily(ConfirmById(a, id), date) == ConfirmById(Daily(a, date), id)
  {
    if a != [] {
      var c := ConfirmById(a, id);
      assert c[0] == Accepted(a[0], id) && c[1..] == ConfirmById(a[1..], id);
      DailyAfterConfirm(a[1..], id, date);
      if a[0].date == date {
        var rest := Daily(a[1..], date);
        assert ([a[0]] + rest)[1..] == rest;
      }
    }
  }

  /** Declining changes appointments in place: the daily view afterwards is
      the daily view before, with the declined entries opened. */
  lemma {:induction false} DailyAfterRelease(a: seq<Appointment>, id: string, date: Day)
    ensures Daily(ReleaseById(a, id), date) == ReleaseById(Daily(a, date), id)
  {
    if a != [] {
      var c := ReleaseById(a, id);
      assert c[0] == Released(a[0], id) && c[1..] == ReleaseById(a[1..], id);
      DailyAfterRelease(a[1..], id, date);
      if a[0].date == date {
        var rest := Daily(a[1..], date);
        assert ([a[0]] + rest)[1..] == rest;
      }
    }
  }

  /** Accepting the selected pending appointment keeps the stored list well
      formed with unique ids, and leaves no appointment with that id pending. */
  lemma AcceptKeepsWellFormed(a: seq<Appointment>, selected: Appointment)
    requires WellFormed(a) && UniqueIds(a)
    requires selected in a && selected.status == Pending
    ensures WellFormed(ConfirmById(a, selected.id)) && UniqueIds(ConfirmById(a, selected.id))
    ensures forall x :: x in ConfirmById(a, selected.id) && x.id == selected.id ==> x.status == Confirmed
  {
    var r := ConfirmById(a, selected.id);
    forall x | x in r
      ensures (x.status == Open ==> x.patientName == "" && x.careGap == None) &&
              (x.status != Open ==> x.patientName != "")
    {
      var i :| 0 <= i < |r| && r[i] == x;
      if a[i].id == selected.id {
        var s :| 0 <= s < |a| && a[s] == selected;
        assert s == i;
      }
    }
  }

  /** Declining keeps the stored list well formed with unique ids, and leaves
      every appointment with that id open. */
  lemma DeclineKeepsWellFormed(a: seq<Appointment>, id: string)
    requires WellFormed(a) && UniqueIds(a)
    ensures WellFormed(ReleaseById(a, id)) && UniqueIds(ReleaseById(a, id))
    ensures forall x :: x in ReleaseById(a, id) && x.id == id ==> x.status == Open
  {
    var r := ReleaseById(a, id);
    forall x | x in r
      ensures (x.status == Open ==> x.patientName == "" && x.careGap == None) &&
              (x.status != Open ==> x.patientName != "")
    {
      var i :| 0 <= i < |r| && r[i] == x;
      assert a[i] in a;
    }
  }

  // ---------------------------------------------------------------------
  // The page state and its handlers
  // ---------------------------------------------------------------------

  class ProviderDashboard {
    var weekDates: seq<Day>
    var selectedDate: Day
    var allAppointments: seq<Appointment>
    var selectedAppointment: Option<Appointment>
    var showAppointmentModal: bool

    /** The week is seven consecutive days from a Monday and the daily view
        shows its Monday; the stored appointments are well formed with unique
        ids; the modal is shown exactly when a stored pending appointment is
        selected. */
    ghost predicate Valid()
      reads this
    {
      |weekDates| == 7 && DayOfWeek(weekDates[0]) == 1 &&
      (forall i :: 0 < i < 7 ==> weekDates[i] == weekDates[i - 1] + 1) &&
      selectedDate == weekDates[0] &&
      WellFormed(allAppointments) && UniqueIds(allAppointments) &&
      (showAppointmentModal <==> selectedAppointment.Some?) &&
      (selectedAppointment.Some? ==>
         selectedAppointment.value in allAppointments && selectedAppointment.value.status == Pending)
    }

    /** The page as first shown on `today`, over the stored appointments
        `seed`. */
    constructor (today: Day, seed: seq<Appointment>)
      requires WellFormed(seed) && UniqueIds(seed)
      ensures Valid()
      ensures weekDates[0] <= today <= weekDates[6]
      ensures allAppointments == seed
      ensures selectedAppointment == None && !showAppointmentModal
    {
      var week := WeekDates(today);
      weekDates := week;
      var dates := WeekDates(today);
      MondayWeekUnique(today, week[0], dates[0]);
      selectedDate := dates[0];
      allAppointments := seed;
      selectedAppointment := None;
      showAppointmentModal := false;
    }

    /** `handleAppointmentClick`: only a pending appointment is selected and
        opens the modal; any other click changes nothing. */
    method ClickAppointment(appointment: Appointment)
      requires Valid() && appointment in allAppointments
      modifies this
      ensures Valid()
      ensures appointment.status != Pending ==> unchanged(this)
      ensures appointment.status == Pending ==>
                selectedAppointment == Some(appointment) && showAppointmentModal &&
                allAppointments == old(allAppointments) &&
                weekDates == old(weekDates) && selectedDate == old(selectedDate)
    {
      if appointment.status == Pending {
        selectedAppointment := Some(appointment);
        showAppointmentModal := true;
      }
    }

    /** `handleAcceptAppointment`. */
    method AcceptAppointment()
      requires Valid()
      modifies this
      ensures Valid()
      ensures old(selectedAppointment).None? ==> unchanged(this)
      ensures old(selectedAppointment).Some? ==>
                allAppointments == ConfirmById(old(allAppointments), old(selectedAppointment).value.id) &&
                selectedAppointment == None && !showAppointmentModal &&
                weekDates == old(weekDates) && selectedDate == old(selectedDate)
    {
      if selectedAppointment.None? {
        return;
      }
      AcceptKeepsWellFormed(allAppointments, selectedAppointment.value);
      allAppointments := ConfirmById(allAppointments, selectedAppointment.value.id);
      showAppointmentModal := false;
      selectedAppointment := None;
    }

    /** `handleDeclineAppointment`. */
    method DeclineAppointment()
      requires Valid()
      modifies this
      ensures Valid()
      ensures old(selectedAppointment).None? ==> unchanged(this)
      ensures old(selectedAppointment).Some? ==>
                allAppointments == ReleaseById(old(allAppointments), old(selectedAppointment).value.id) &&
                selectedAppointment == None && !showAppointmentModal &&
                weekDates == old(weekDates) && selectedDate == old(selectedDate)
    {
      if selectedAppointment.None? {
        return;
      }
      DeclineKeepsWellFormed(allAppointments, selectedAppointment.value.id);
      allAppointments := ReleaseById(allAppointments, selectedAppointment.value.id);
      showAppointmentModal := false;
      selectedAppointment := None;
    }

    /** The modal's close action. */
    method CloseAppointmentModal()
      requires Valid()
      modifies this
      ensures Valid()
      ensures selectedAppointment == None && !showAppointmentModal
      ensures allAppointments == old(allAppointments)
      ensures weekDates == old(weekDates) && selectedDate == old(selectedDate)
    {
      showAppointmentModal := false;
      selectedAppointment := None;
    }
  }
}
