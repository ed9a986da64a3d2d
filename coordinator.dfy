/** The care coordinator's dashboard: the patient lists, the call-attempt
    form and what submitting a call disposition does to a patient record.
    Rendering is not modelled; the page's state is the class
    `CoordinatorDashboard`, its event handlers are that class's methods. */
module CareCoordinator {
  import opened Options

  // ---------------------------------------------------------------------
  // Data model
  // ---------------------------------------------------------------------

  /** A patient's case status. */
  datatype PatientStatus = Pending | Scheduled | Confirmed | Rescheduled | Completed
  {
    /** The string the page stores and displays for this status. */
    function Label(): string {
      match this
      case Pending => "Pending"
      case Scheduled => "Scheduled"
      case Confirmed => "Confirmed"
      case Rescheduled => "Rescheduled"
      case Completed => "Completed"
    }
  }

  /** Where the appointment stands with the provider. Three constructor names
      (`Pending`, `Confirmed`, `Completed`) are shared with `PatientStatus`,
      as the page's status strings are, so both are always written qualified:
      `PatientStatus.Pending`, `ConfirmationStatus.Pending`. */
  datatype ConfirmationStatus =
    | Pending
    | PendingProviderConfirmation
    | Confirmed
    | RescheduleRequested
    | Completed
  {
    function Label(): string {
      match this
      case Pending => "Pending"
      case PendingProviderConfirmation => "Pending Provider Confirmation"
      case Confirmed => "Confirmed"
      case RescheduleRequested => "Reschedule Requested"
      case Completed => "Completed"
    }
  }

  datatype Patient = Patient(
    id: string,
    name: string,
    careGap: string,
    status: PatientStatus,
    assignedPCP: string,
    appointmentDate: string,
    confirmationStatus: ConfirmationStatus)

  /** One preferred slot of the call-attempt form; an unfilled input is "". */
  datatype TimeSlot = TimeSlot(date: string, time: string)

  /** The two inputs of a slot that the form edits. */
  datatype SlotField = Date | Time

  datatype ProviderStatus = Active | OnLeave

  datatype WorkSchedule = WorkSchedule(days: seq<string>, hours: string)

  datatype Provider = Provider(
    id: string,
    name: string,
    specialty: string,
    location: string,
    phone: string,
    email: string,
    patientCount: int,
    status: ProviderStatus,
    schedule: Option<WorkSchedule>)

  datatype NotificationKind = ConfirmationNotice | RescheduleNotice | NewPatient

  datatype Notification = Notification(
    id: string,
    kind: NotificationKind,
    message: string,
    timestamp: string,
    patientName: Option<string>,
    patientId: Option<string>)

  /** The form's slots when it is opened or reset: three unfilled slots. */
  function EmptySlots(): seq<TimeSlot> {
    [TimeSlot("", ""), TimeSlot("", ""), TimeSlot("", "")]
  }

  /** The dispositions that put a case back to Pending/Pending. */
  const RetryDispositions: set<string> :=
    {"voicemail", "hang up", "insurance expired", "patient deceased", "changed pcp"}

  // ---------------------------------------------------------------------
  // Pure lookups
  // ---------------------------------------------------------------------

  /** The CSS badge class shown for a status or confirmation-status string. */
  function StatusBadgeClass(status: string): (cls: string)
    ensures cls == "badge-success" <==> status == "Confirmed" || status == "Completed"
    ensures cls == "badge-warning" <==> status == "Pending"
    ensures cls == "badge-info" <==> status != "Confirmed" && status != "Completed" && status != "Pending"
  {
    if status == "Confirmed" || status == "Completed" then "badge-success"
    else if status == "Scheduled" || status == "Pending Provider Confirmation" then "badge-info"
    else if status == "Pending" then "badge-warning"
    else if status == "Rescheduled" || status == "Reschedule Requested" then "badge-info"
    else "badge-info"
  }

  /** The first provider in `providers` whose name is `name`, if any. */
  function ProviderByName(providers: seq<Provider>, name: string): (r: Option<Provider>)
    ensures r.None? <==> forall p :: p in providers ==> p.name != name
    ensures r.Some? ==> exists k :: 0 <= k < |providers| && providers[k] == r.value && r.value.name == name &&
                                    forall j :: 0 <= j < k ==> providers[j].name != name
  {
    if providers == [] then None
    else if providers[0].name == name then Some(providers[0])
    else
      var r := ProviderByName(providers[1..], name);
      if r.Some? then
        ghost var k :| 0 <= k < |providers[1..]| && providers[1..][k] == r.value && r.value.name == name &&
                       forall j :: 0 <= j < k ==> providers[1..][j].name != name;
        assert providers[k + 1] == r.value;
        r
      else r
  }

  /** Position `j` holds the first patient of `patients` with id `id`. */
  ghost predicate IsFirstWithId(patients: seq<Patient>, id: string, j: int) {
    0 <= j < |patients| && patients[j].id == id &&
    forall i :: 0 <= i < j ==> patients[i].id != id
  }

  /** `findIndex(p => p.id === id)`: the index of the first patient with id
      `id`, or -1 when there is none. */
  function IndexOfId(patients: seq<Patient>, id: string): (k: int)
    ensures -1 <= k < |patients|
    ensures k == -1 <==> forall j :: 0 <= j < |patients| ==> patients[j].id != id
    ensures k != -1 ==> IsFirstWithId(patients, id, k)
  {
    if patients == [] then -1
    else if patients[0].id == id then 0
    else
      var k := IndexOfId(patients[1..], id);
      if k == -1 then -1 else k + 1
  }

  /** `find(p => p.id === id)`: the first patient with id `id`, if any. */
  function Lookup(patients: seq<Patient>, id: string): (r: Option<Patient>)
    ensures r.None? <==> forall p :: p in patients ==> p.id != id
    ensures r.Some? ==> r.value in patients && r.value.id == id
    ensures r.Some? ==> exists k :: IsFirstWithId(patients, id, k) && patients[k] == r.value
  {
    var k := IndexOfId(patients, id);
    if k == -1 then None else Some(patients[k])
  }

  /** A patient list after the entry found by `findIndex` on `id` is replaced
      by `u`: the list `handleCallAttemptSubmit` stores. */
  function ReplaceFirst(patients: seq<Patient>, id: string, u: Patient): (r: seq<Patient>)
    ensures |r| == |patients|
    ensures forall j :: 0 <= j < |patients| ==>
              r[j] == if IsFirstWithId(patients, id, j) then u else patients[j]
    ensures (forall j :: 0 <= j < |patients| ==> patients[j].id != id) ==> r == patients
  {
    var k := IndexOfId(patients, id);
    if k == -1 then patients else patients[k := u]
  }

  /** The submit button's enabling rule in the call-attempt form. */
  function CanSubmit(disposition: string, slots: seq<TimeSlot>): (ok: bool)
    requires |slots| > 0
    ensures disposition != "scheduled" ==> (ok <==> disposition != "")
    ensures disposition == "scheduled" ==> (ok <==> slots[0].date != "" && slots[0].time != "")
  {
    disposition != "" &&
    (disposition == "scheduled" ==> slots[0].date != "" && slots[0].time != "")
  }

  /** The patient record that recording `disposition` produces, where
      `firstSlotDate` is the date typed into the form's first slot. */
  function Disposed(p: Patient, disposition: string, firstSlotDate: string): (u: Patient)
    ensures u.id == p.id && u.name == p.name && u.careGap == p.careGap && u.assignedPCP == p.assignedPCP
    ensures disposition == "scheduled" ==>
              u.status == PatientStatus.Scheduled &&
              u.confirmationStatus == ConfirmationStatus.PendingProviderConfirmation &&
              u.appointmentDate == (if firstSlotDate != "" then firstSlotDate else p.appointmentDate)
    ensures disposition in RetryDispositions ==>
              u.status == PatientStatus.Pending &&
              u.confirmationStatus == ConfirmationStatus.Pending &&
              u.appointmentDate == p.appointmentDate
    ensures disposition != "scheduled" && disposition !in RetryDispositions ==> u == p
  {
    if disposition == "scheduled" then
      p.(status := PatientStatus.Scheduled,
         confirmationStatus := ConfirmationStatus.PendingProviderConfirmation,
         appointmentDate := if firstSlotDate != "" then firstSlotDate else p.appointmentDate)
    else if disposition in RetryDispositions then
      p.(status := PatientStatus.Pending, confirmationStatus := ConfirmationStatus.Pending)
    else p
  }

  // ---------------------------------------------------------------------
  // Lemmas
  // ---------------------------------------------------------------------

  /** Whenever the form lets the coordinator submit, the handler's guard on
      the disposition passes, and a "scheduled" call records the first slot's
      date as the appointment date. */
  lemma EnabledSubmitRecordsFirstSlot(p: Patient, disposition: string, slots: seq<TimeSlot>)
    requires |slots| > 0 && CanSubmit(disposition, slots)
    ensures disposition != ""
    ensures disposition == "scheduled" ==>
              Disposed(p, disposition, slots[0].date).appointmentDate == slots[0].date != ""
  {
  }

  /** The badges the dashboard shows after a call is recorded: warning for a
      case sent back to Pending, info for a scheduled one. */
  lemma BadgesAfterDisposition(p: Patient, disposition: string, firstSlotDate: string)
    ensures disposition in RetryDispositions ==>
              StatusBadgeClass(Disposed(p, disposition, firstSlotDate).status.Label()) == "badge-warning" &&
              StatusBadgeClass(Disposed(p, disposition, firstSlotDate).confirmationStatus.Label()) == "badge-warning"
    ensures disposition == "scheduled" ==>
              StatusBadgeClass(Disposed(p, disposition, firstSlotDate).status.Label()) == "badge-info" &&
              StatusBadgeClass(Disposed(p, disposition, firstSlotDate).confirmationStatus.Label()) == "badge-info"
  {
    var u := Disposed(p, disposition, firstSlotDate);
    if disposition == "scheduled" {
      assert u.status.Label() == "Scheduled";
      assert u.confirmationStatus.Label() == "Pending Provider Confirmation";
    }
  }

  /** `findIndex` depends on the ids of the list only. */
  lemma {:induction false} IndexOfIdSameIds(a: seq<Patient>, b: seq<Patient>, id: string)
    requires |a| == |b|
    requires forall j :: 0 <= j < |a| ==> a[j].id == b[j].id
    ensures IndexOfId(a, id) == IndexOfId(b, id)
  {
    if a != [] && a[0].id != id {
      IndexOfIdSameIds(a[1..], b[1..], id);
    }
  }

  /** After a patient with id `id` is replaced by `u` (which keeps that id),
      looking up `id` finds `u` if there was a patient to replace, and
      looking up any other id finds what it found before. */
  lemma LookupAfterReplace(patients: seq<Patient>, id: string, u: Patient, other: string)
    requires u.id == id
    ensures Lookup(ReplaceFirst(patients, id, u), other) ==
              if other == id && Lookup(patients, id).Some? then Some(u) else Lookup(patients, other)
  {
    var r := ReplaceFirst(patients, id, u);
    IndexOfIdSameIds(r, patients, other);
  }

  /** Every patient that `openCases` shows is shown identically by
      `allPatients` (the first entry with that id in each list). */
  ghost predicate Agreement(openCases: seq<Patient>, allPatients: seq<Patient>) {
    forall id :: Lookup(openCases, id).Some? ==> Lookup(openCases, id) == Lookup(allPatients, id)
  }

  /** Writing the same updated patient back into both lists keeps them in
      agreement. */
  lemma {:induction false} ReplaceKeepsAgreement(
    openCases: seq<Patient>, allPatients: seq<Patient>, id: string, u: Patient)
    requires Agreement(openCases, allPatients) && u.id == id
    ensures Agreement(ReplaceFirst(openCases, id, u), ReplaceFirst(allPatients, id, u))
  {
    forall other | Lookup(ReplaceFirst(openCases, id, u), other).Some?
      ensures Lookup(ReplaceFirst(openCases, id, u), other) == Lookup(ReplaceFirst(allPatients, id, u), other)
    {
      LookupAfterReplace(openCases, id, u, other);
      LookupAfterReplace(allPatients, id, u, other);
    }
  }

  // ---------------------------------------------------------------------
  // The page state and its handlers
  // ---------------------------------------------------------------------

  class CoordinatorDashboard {
    var openCases: seq<Patient>
    var allPatients: seq<Patient>
    var selectedPatient: Option<Patient>
    var showCallModal: bool
    var callDisposition: string
    var timeSlots: seq<TimeSlot>

    /** The form always holds three slots, the modal is shown exactly when a
        patient is selected, and the two lists agree. */
    ghost predicate Valid()
      reads this
    {
      |timeSlots| == 3 &&
      (showCallModal <==> selectedPatient.Some?) &&
      Agreement(openCases, allPatients)
    }

    /** The call-attempt form is closed and blank. */
    ghost predicate FormCleared()
      reads this
    {
      !showCallModal && selectedPatient == None && callDisposition == "" && timeSlots == EmptySlots()
    }

    constructor (openCases0: seq<Patient>, allPatients0: seq<Patient>)
      requires Agreement(openCases0, allPatients0)
      ensures Valid() && FormCleared()
      ensures openCases == openCases0 && allPatients == allPatients0
    {
      openCases := openCases0;
      allPatients := allPatients0;
      selectedPatient := None;
      showCallModal := false;
      callDisposition := "";
      timeSlots := EmptySlots();
    }

    /** `handlePatientClick`: select the patient and open a blank form. */
    method OpenCallModal(patient: Patient)
      requires Valid()
      modifies this
      ensures Valid()
      ensures selectedPatient == Some(patient) && showCallModal
      ensures callDisposition == "" && timeSlots == EmptySlots()
      ensures openCases == old(openCases) && allPatients == old(allPatients)
    {
      selectedPatient := Some(patient);
      showCallModal := true;
      callDisposition := "";
      timeSlots := EmptySlots();
    }

    /** A row of the all-patients table: completed cases do not open the form. */
    method ClickPatientRow(patient: Patient)
      requires Valid()
      modifies this
      ensures Valid()
      ensures patient.status == PatientStatus.Completed ==> unchanged(this)
      ensures patient.status != PatientStatus.Completed ==>
                selectedPatient == Some(patient) && showCallModal &&
                callDisposition == "" && timeSlots == EmptySlots() &&
                openCases == old(openCases) && allPatients == old(allPatients)
    {
      if patient.status != PatientStatus.Completed {
        OpenCallModal(patient);
      }
    }

    /** `handleNotificationClick`: a "new patient" notice with a non-empty
        patient id opens the form for the first patient with that id. */
    method ClickNotification(n: Notification)
      requires Valid()
      modifies this
      ensures Valid()
      ensures var target := if n.kind == NewPatient && n.patientId.Some? && n.patientId.value != ""
                            then Lookup(old(allPatients), n.patientId.value) else None;
              (target.None? ==> unchanged(this)) &&
              (target.Some? ==>
                 selectedPatient == target && showCallModal &&
                 callDisposition == "" && timeSlots == EmptySlots() &&
                 openCases == old(openCases) && allPatients == old(allPatients))
    {
      if n.kind == NewPatient && n.patientId.Some? && n.patientId.value != "" {
        var patient := Lookup(allPatients, n.patientId.value);
        if patient.Some? {
          OpenCallModal(patient.value);
        }
      }
    }

    /** The modal's close and cancel actions. */
    method CloseCallModal()
      requires Valid()
      modifies this
      ensures Valid() && FormCleared()
      ensures openCases == old(openCases) && allPatients == old(allPatients)
    {
      showCallModal := false;
      selectedPatient := None;
      callDisposition := "";
      timeSlots := EmptySlots();
    }

    /** The disposition selector. */
    method SelectDisposition(value: string)
      requires Valid()
      modifies this
      ensures Valid()
      ensures callDisposition == value
      ensures openCases == old(openCases) && allPatients == old(allPatients)
      ensures selectedPatient == old(selectedPatient) && showCallModal == old(showCallModal)
      ensures timeSlots == old(timeSlots)
    {
      callDisposition := value;
    }

    /** `updateTimeSlot`: set one field of one slot, leaving everything else. */
    method UpdateTimeSlot(index: int, field: SlotField, value: string)
      requires Valid() && 0 <= index < |timeSlots|
      modifies this
      ensures Valid()
      ensures |timeSlots| == |old(timeSlots)|
      ensures timeSlots[index].date == if field == Date then value else old(timeSlots)[index].date
      ensures timeSlots[index].time == if field == Time then value else old(timeSlots)[index].time
      ensures forall j :: 0 <= j < |timeSlots| && j != index ==> timeSlots[j] == old(timeSlots)[j]
      ensures openCases == old(openCases) && allPatients == old(allPatients)
      ensures selectedPatient == old(selectedPatient) && showCallModal == old(showCallModal)
      ensures callDisposition == old(callDisposition)
    {
      var updated := timeSlots;
      updated := updated[index := match field
                                  case Date => updated[index].(date := value)
                                  case Time => updated[index].(time := value)];
      timeSlots := updated;
    }

    /** `handleCallAttemptSubmit`: without a selected patient or a disposition
        nothing happens; otherwise the updated patient is written back into
        both lists and the form is closed and cleared. */
    method SubmitCallAttempt()
      requires Valid()
      modifies this
      ensures Valid()
      ensures old(selectedPatient).None? || old(callDisposition) == "" ==> unchanged(this)
      ensures old(selectedPatient).Some? && old(callDisposition) != "" ==>
                var u := Disposed(old(selectedPatient).value, old(callDisposition), old(timeSlots)[0].date);
                openCases == ReplaceFirst(old(openCases), u.id, u) &&
                allPatients == ReplaceFirst(old(allPatients), u.id, u) &&
                FormCleared()
    {
      if selectedPatient.None? || callDisposition == "" {
        return;
      }
      var patient := selectedPatient.value;

      var newStatus := patient.status;
      var newConfirmationStatus := patient.confirmationStatus;
      var newAppointmentDate := patient.appointmentDate;
      if callDisposition == "scheduled" {
        newStatus := PatientStatus.Scheduled;
        newConfirmationStatus := ConfirmationStatus.PendingProviderConfirmation;
        if timeSlots[0].date != "" {
          newAppointmentDate := timeSlots[0].date;
        }
      } else if callDisposition == "voicemail" || callDisposition == "hang up" {
        newStatus := PatientStatus.Pending;
        newConfirmationStatus := ConfirmationStatus.Pending;
      } else if callDisposition == "insurance expired" || callDisposition == "patient deceased" ||
                callDisposition == "changed pcp" {
        newStatus := PatientStatus.Pending;
        newConfirmationStatus := ConfirmationStatus.Pending;
      }
      var updatedPatient := patient.(status := newStatus,
                                     confirmationStatus := newConfirmationStatus,
                                     appointmentDate := newAppointmentDate);
      assert updatedPatient == Disposed(patient, callDisposition, timeSlots[0].date);

      ReplaceKeepsAgreement(openCases, allPatients, patient.id, updatedPatient);

      var index := IndexOfId(openCases, patient.id);
      if index != -1 {
        var updated := openCases;
        updated := updated[index := updatedPatient];
        openCases := updated;
      }

      index := IndexOfId(allPatients, patient.id);
      if index != -1 {
        var updated := allPatients;
        updated := updated[index := updatedPatient];
        allPatients := updated;
      }

      showCallModal := false;
      selectedPatient := None;
      callDisposition := "";
      timeSlots := EmptySlots();
    }
  }
}
