# CareLink dashboards — a Dafny model

CareLink is a browser demo of a care-coordination workflow. This project models
the logic of two of its pages.

- **The care coordinator's dashboard.** The coordinator opens a patient, fills in
  the call-attempt form (a disposition and up to three preferred time slots) and
  submits it. Submitting maps the disposition through a fixed table to a new
  case status, confirmation status and appointment date. The updated record is
  then written back into both patient lists: the open cases and all patients.
  The model also covers the submit-enabling rule, the slot editor, the badge
  colour table and the provider lookup.
- **The provider's dashboard.** The page computes the Monday-start week that
  contains today and shows its Monday in the daily view. It shows the stored
  appointments as a daily list and as a weekly grid. A pending appointment can
  be selected and then accepted (it becomes confirmed) or declined (it becomes
  an open slot with no patient).

Each page's state is a class (`CareCoordinator.CoordinatorDashboard`,
`ProviderSchedule.ProviderDashboard`), and each event handler is a method of
that class. Each method states the whole new state and keeps the class
invariant `Valid()`. The lookups, the disposition table and the two views are
functions. Lemmas beside them state what the page promises.

Calendar dates on the provider side are day numbers, counted from 1 January
1970, which was a Thursday. `DayOfWeek` follows `Date.getDay()`: 0 is Sunday.
Dates on the coordinator side stay the strings the form holds.

Invariants the model adds, which the code keeps and its seed data satisfies:

- Coordinator: every patient in the open cases is shown identically in the
  all-patients list (`Agreement`).
- Provider: appointment ids are unique. An open slot has an empty patient name
  and no care gap, and a booked one names its patient (`WellFormed`).
- Both pages: the modal is shown exactly when something is selected.

## Model

| member | source | states |
|---|---|---|
| `CareCoordinator.StatusBadgeClass` | src/pages/CareCoordinatorDashboard.tsx:288-304 | success exactly for "Confirmed"/"Completed", warning exactly for "Pending", info for every other string |
| `CareCoordinator.ProviderByName` | src/pages/CareCoordinatorDashboard.tsx:322-324 | nothing exactly when no provider has the name; otherwise the first provider with that name |
| `CareCoordinator.IndexOfId` | src/pages/CareCoordinatorDashboard.tsx:366 | -1 exactly when no patient has the id; otherwise the index of the first patient with that id |
| `CareCoordinator.Lookup` | src/pages/CareCoordinatorDashboard.tsx:315 | nothing exactly when no patient has the id; otherwise the first patient with that id |
| `CareCoordinator.ReplaceFirst` | src/pages/CareCoordinatorDashboard.tsx:365-384 | same length; the first entry with the id becomes the updated patient and every other entry is kept; with no matching id the list is unchanged |
| `CareCoordinator.Disposed` | src/pages/CareCoordinatorDashboard.tsx:330-362 | id, name, care gap and PCP kept. "scheduled" gives Scheduled / Pending Provider Confirmation and takes slot 0's date only when it is non-empty. The five retry dispositions give Pending / Pending with the date kept. Any other disposition leaves the patient as it was |
| `CareCoordinator.CanSubmit` | src/pages/CareCoordinatorDashboard.tsx:707-709 | enabled exactly when the disposition is non-empty and, for "scheduled", slot 0 has a non-empty date and a non-empty time |
| `CareCoordinator.EnabledSubmitRecordsFirstSlot` | src/pages/CareCoordinatorDashboard.tsx:707-709 | when the form allows submitting, the disposition is non-empty, and a "scheduled" call records the first slot's non-empty date |
| `CareCoordinator.BadgesAfterDisposition` | src/pages/CareCoordinatorDashboard.tsx:343-354 | after a retry disposition both badges show warning; after "scheduled" both show info |
| `CareCoordinator.LookupAfterReplace` | src/pages/CareCoordinatorDashboard.tsx:365-373 | after the write-back, looking up the written id finds the updated patient (if one was replaced), and every other id finds what it found before |
| `CareCoordinator.ReplaceKeepsAgreement` | src/pages/CareCoordinatorDashboard.tsx:364-384 | writing the same patient back into both lists keeps every open case identical to its entry in the all-patients list |
| `CareCoordinator.CoordinatorDashboard.constructor` | src/pages/CareCoordinatorDashboard.tsx:46-54 | the page starts with no selection, the modal hidden, an empty disposition and three empty slots |
| `CareCoordinator.CoordinatorDashboard.OpenCallModal` | src/pages/CareCoordinatorDashboard.tsx:306-311 | selects the patient, shows the modal, clears the disposition, resets the slots to three empty ones; the lists are kept |
| `CareCoordinator.CoordinatorDashboard.ClickPatientRow` | src/pages/CareCoordinatorDashboard.tsx:525 | a completed case changes nothing; any other case opens the form for it |
| `CareCoordinator.CoordinatorDashboard.ClickNotification` | src/pages/CareCoordinatorDashboard.tsx:313-320 | only a "new" notice with a non-empty patient id whose patient is found opens the form for the first patient with that id; otherwise nothing changes |
| `CareCoordinator.CoordinatorDashboard.CloseCallModal` | src/pages/CareCoordinatorDashboard.tsx:673-678 | hides the modal, clears the selection and disposition, resets the slots; the lists are kept |
| `CareCoordinator.CoordinatorDashboard.SelectDisposition` | src/pages/CareCoordinatorDashboard.tsx:739 | sets the disposition and nothing else |
| `CareCoordinator.CoordinatorDashboard.UpdateTimeSlot` | src/pages/CareCoordinatorDashboard.tsx:393-399 | only the named field of the named slot takes the value; the slot count and every other slot are kept |
| `CareCoordinator.CoordinatorDashboard.SubmitCallAttempt` | src/pages/CareCoordinatorDashboard.tsx:326-391 | with no selection or an empty disposition nothing changes. Otherwise both lists become `ReplaceFirst` of the disposed patient, the form is closed and cleared, and the lists stay in agreement |
| `ProviderSchedule.DayOfWeek` | src/pages/ProviderDashboard.tsx:28 | a weekday number from 0 to 6 |
| `ProviderSchedule.MondayBefore` | src/pages/ProviderDashboard.tsx:29 | stepping back `day - 1` days (6 on a Sunday) lands on a Monday |
| `ProviderSchedule.WeekDates` | src/pages/ProviderDashboard.tsx:26-39 | seven dates, each one day after the previous, the first a Monday, and today among them |
| `ProviderSchedule.MondayWeekUnique` | src/pages/ProviderDashboard.tsx:25-31 | only one Monday-start week contains a given day, so the computed week is the week of today |
| `ProviderSchedule.ConfirmById` | src/pages/ProviderDashboard.tsx:133-139 | same length; an entry with the selected id becomes confirmed with every other field kept; every other entry is kept |
| `ProviderSchedule.ReleaseById` | src/pages/ProviderDashboard.tsx:150-156 | same length; an entry with the selected id becomes open with an empty name and no care gap, keeping its id, date and time; every other entry is kept |
| `ProviderSchedule.Daily` | src/pages/ProviderDashboard.tsx:88 | an appointment is listed exactly when it is stored and falls on the date |
| `ProviderSchedule.DailyAppend` | src/pages/ProviderDashboard.tsx:88 | the daily view keeps stored order: the view of a concatenation is the concatenation of the views |
| `ProviderSchedule.DailyAllOnDate` | src/pages/ProviderDashboard.tsx:88 | a list whose entries all fall on the date is listed whole, in order |
| `ProviderSchedule.WeeklyCell` | src/pages/ProviderDashboard.tsx:288-290 | an empty cell exactly when no stored appointment has that date and time; otherwise the first such appointment |
| `ProviderSchedule.WeeklyCellFromDaily` | src/pages/ProviderDashboard.tsx:288-290 | a weekly cell shows the first entry of that date's daily list at that time, so the two views agree |
| `ProviderSchedule.DailyAfterConfirm` | src/pages/ProviderDashboard.tsx:133-139 | after accepting, each daily list has the same entries in the same order, with the accepted one confirmed |
| `ProviderSchedule.DailyAfterRelease` | src/pages/ProviderDashboard.tsx:150-156 | after declining, each daily list has the same entries in the same order, with the declined one opened |
| `ProviderSchedule.AcceptKeepsWellFormed` | src/pages/ProviderDashboard.tsx:129-144 | accepting a stored pending appointment keeps ids unique and every entry well formed, and leaves nothing with that id unconfirmed |
| `ProviderSchedule.DeclineKeepsWellFormed` | src/pages/ProviderDashboard.tsx:146-161 | declining keeps ids unique and every entry well formed, and leaves every entry with that id open |
| `ProviderSchedule.ProviderDashboard.constructor` | src/pages/ProviderDashboard.tsx:41-53 | the week is the Monday-start week of today; the daily view shows its Monday; nothing is selected |
| `ProviderSchedule.ProviderDashboard.ClickAppointment` | src/pages/ProviderDashboard.tsx:122-127 | a pending appointment becomes the selection and opens the modal; any other click changes nothing |
| `ProviderSchedule.ProviderDashboard.AcceptAppointment` | src/pages/ProviderDashboard.tsx:129-144 | no-op without a selection. Otherwise the list becomes `ConfirmById` of the selected id, the selection is cleared and the modal closed |
| `ProviderSchedule.ProviderDashboard.DeclineAppointment` | src/pages/ProviderDashboard.tsx:146-161 | no-op without a selection. Otherwise the list becomes `ReleaseById` of the selected id, the selection is cleared and the modal closed |
| `ProviderSchedule.ProviderDashboard.CloseAppointmentModal` | src/pages/ProviderDashboard.tsx:363-366 | clears the selection and closes the modal; the appointments are kept |

## Left out

- Rendering: JSX, SVG icons, CSS class strings (except the badge table), modal
  markup, tab switching (`activeTab`) and the daily/weekly toggle (`viewType`).
  These are presentation only.
- The weekly grid's layout: the ten fixed time rows and the columns over
  `weekDates`. Each cell of that layout is the lookup `WeeklyCell`.
- Hard-coded seed data: patients, providers, notifications and appointments. The
  constructors take the initial lists as parameters instead. They require the
  invariants that the seed data satisfies.
- `ProviderSchedule.ProviderDashboard.ClickAppointment` requires the clicked
  appointment to be a stored one. Its only callers pass entries of the daily
  list or the weekly grid, and both are drawn from the stored appointments.
- JavaScript `Date` handling: time of day, time zones, the `toISOString` UTC
  conversion of each week date, and the locale-dependent
  `toLocaleDateString`. The model's dates are abstract day numbers. So it does
  not capture that, when local time is ahead of UTC, a week date converted with
  `toISOString` can name the previous day.
- `ProviderSchedule.ProviderDashboard.constructor`: the page calls
  `calculateWeekDates` three times, each with its own clock read: for
  `weekDates` (src/pages/ProviderDashboard.tsx:41), for the initial
  `selectedDate` (line 45) and for the dates of the seed appointments
  (line 54). The model gives the first two the same `today`, so it does not
  capture a midnight boundary between those reads. The seed's dates can fall
  across the same boundary relative to `weekDates`; the model cannot see this
  either, because the seed is a constructor parameter.
- The provider page's assigned-patients list and its `handlePatientClick`,
  which only writes to the console.
- `src/pages/PatientView.tsx`: a timer-and-alert confirmation mock with static
  data. `src/pages/LandingPage.tsx` and `src/App.tsx`: role selection and
  routing. None of these is part of this model.
- Navigation (`useNavigate`), React state and memoisation mechanics. Each
  handler's state update is applied at once, as React applies it before the
  next event.
