# A model of the doctor/patient app's session, navigation and screens

The app is a React Native client for a clinic. It has two roles:

- **Patients** browse doctors, book appointments and look at their own appointments.
- **Doctors** confirm or cancel requests, record prescriptions, look at a patient's history and edit their weekly schedule.

All data lives in a hosted database reached through a client library. The app also has a **demo mode**: any user id that starts with `demo-` takes a separate path. That path reads and mutates in-memory fixture arrays instead of calling the database.

This project models that client logic in Dafny:

- **Session store** (`AuthStore`): the four store fields and the four actions that replace them. It is a class whose methods are proved against pure step functions, and those step functions keep the store's consistency invariant.
- **Navigation** (`Navigation`): the root navigator's choice between the loading view, the Main flow and the Auth flow, and the tab list for each role. It also covers when a push token is written.
- **Fixtures** (`MockData`): the five doctors and five appointments. `DemoStore` is a class that holds the three mutable fixture arrays the demo paths share and update in place.
- **Screens**, one module each:
  - `DoctorDashboard`
  - `AddPrescription`
  - `ManageSchedule`
  - `Home`
  - `MyAppointments`
  - `PatientHistory`
  - `BookAppointment`
  - `DoctorCard`

  Each screen covers:
  - its fetch, both the demo branch and the live branch;
  - the sections and buttons it derives from the fetched list;
  - its mutations. Demo mutations are methods that update `DemoStore` in place by `findIndex` and assignment. Live mutations are the list of database writes they issue, plus the alert and the navigation step that follow.
- **Shared pieces**: `Domain` has the records and the update-by-id helper. `Seqs` has `filter`, `find`, `findIndex` and `map`. `Text` has lower-casing, substring search, string order and decimal printing. `Gateway` has the write requests and their replies.
- **Cross-screen properties** (`Scenarios`). These connect one screen's write to another screen's view:
  - a confirmed request moves from "Appointment Requests" to "Upcoming Appointments";
  - a prescription shows up in the patient's list, in their history and on the dashboard;
  - a booking appears on both sides;
  - each demo user sees exactly the fixture entries that are theirs on the first screen.

Nothing in the model calls the database, a clock or a timer:

- A live read is a `Gateway.Fetched` parameter: either rows or an error.
- A write's outcome is a `Gateway.Reply` parameter: `Ok` or `Failed` with a message.
- The push-notification token is an `Option<string>` parameter.
- Demo-mode delays (`setTimeout`) are dropped; the delayed body runs at once.

Four behaviours of the code worth stating:

- **Booking has no demo branch.** It always issues the insert (`src/screens/patient/BookAppointmentScreen.tsx:36-44`).
- **Demo history clears prescriptions.** It shows confirmed entries as well as completed ones, and it replaces each entry's prescriptions with an empty list. So a prescription recorded in demo mode never appears in the demo history (`src/screens/doctor/PatientHistoryScreen.tsx:22-29`). `PatientHistory.DemoHistoryShowsNoPrescription` states this.
- **Dashboard fixture patients are not demo users.** The two fixture entries the demo doctor owns belong to `other-patient` and `other-patient-2`. Opening their history therefore takes the live branch.
- **The availability upsert never writes `enabled`** (`src/screens/doctor/ManageScheduleScreen.tsx:82-87`). In the live week, a day with no stored row is always shown switched off, because `!!existing` is false whenever the default is used (line 55).

## Model

| member | source | states |
|---|---|---|
| AuthStore.SetSessionStep | src/store/authStore.ts:21-32 | with a session that has a user: session, user and the fetched profile row are stored; without: all three cleared; loading ends; the store stays consistent |
| AuthStore.SignOutStep | src/store/authStore.ts:33-36 | session, user and profile cleared, loading flag untouched, store consistent |
| AuthStore.CheckSessionStep | src/store/authStore.ts:37-53 | a found session acts as setSession; a thrown lookup only clears the loading flag; consistency is preserved |
| AuthStore.DemoLoginStep | src/store/authStore.ts:54-81 | fixed demo user id and e-mail per role, profile with that role and the user's id, session carrying the same user, the id has the demo prefix |
| AuthStore.SignOutIdempotent | src/store/authStore.ts:33-36 | signing out twice equals signing out once |
| AuthStore.SetSessionNullSignedOut | src/store/authStore.ts:29-31 | setSession(null) ends signed out and not loading, whatever the profile lookup |
| AuthStore.CheckSessionWithoutSession | src/store/authStore.ts:39-49 | with no persisted session the store ends signed out with no profile |
| AuthStore.DemoUsersDiffer | src/store/authStore.ts:55-57 | the two demo roles get different users |
| AuthStore.Store.constructor | src/store/authStore.ts:17-20 | initial fields: nothing known, loading |
| AuthStore.Store.SetSession | src/store/authStore.ts:21-32 | the store's fields become SetSessionStep's state |
| AuthStore.Store.SignOut | src/store/authStore.ts:33-36 | the store's fields become SignOutStep of the old state |
| AuthStore.Store.CheckSession | src/store/authStore.ts:37-53 | the store's fields become CheckSessionStep of the old state |
| AuthStore.Store.DemoLogin | src/store/authStore.ts:54-81 | the store's fields become DemoLoginStep's state |
| Navigation.Root | src/navigation/AppNavigator.tsx:48-64 | loading view exactly while loading; otherwise Main iff a session exists, Auth iff none |
| Navigation.MainTabs | src/navigation/MainNavigator.tsx:32-100 | patient: Home, Appointments, Profile, Settings; doctor: Dashboard, Schedule, Profile, Settings; any other role: Profile and Settings only |
| Navigation.RoleTabsDisjoint | src/navigation/MainNavigator.tsx:32-80 | each role-specific tab is present iff the profile has that role |
| Navigation.MainStack | src/navigation/MainNavigator.tsx:105-113 | the stack holds the tabs first, then AddPrescription, PrescriptionDetails and PatientHistory |
| Navigation.PushTokenWrite | src/navigation/AppNavigator.tsx:21-29 | a token write happens iff a user is present, a token was obtained and the id is non-empty, and it writes that user's id and token |
| Navigation.DemoLoginRoutes | src/store/authStore.ts:54-81 | after demo login the root shows Main with the role's four tabs |
| Navigation.SignOutRoutes | src/store/authStore.ts:33-36 | after sign-out the root shows Auth unless still loading |
| MockData.DemoStore.constructor | src/data/mockData.ts:69-177 | the fixture appointments, empty availability and prescriptions; distinct ids, and schedule row j is for weekday j |
| MockData.MockAppointmentIds | src/data/mockData.ts:69-173 | the fixture ids are appt-1 … appt-5, all distinct |
| MockData.DemoDoctorOwnsTwo | src/data/mockData.ts:114-151 | exactly the third and fourth entries belong to the demo doctor, one confirmed and one pending |
| MockData.DemoPatientOwnsThree | src/data/mockData.ts:70-173 | exactly the first, second and fifth entries belong to the demo patient, confirmed, pending and completed |
| MockData.MockStatusesKnown | src/data/mockData.ts:69-173 | every fixture status is one of the four known statuses |
| MockData.MockDoctorsDistinct | src/data/mockData.ts:1-67 | five doctors doc-1 … doc-5 with distinct ids |
| Domain.UpdateById | src/screens/doctor/DoctorDashboardScreen.tsx:69-72 | length and ids kept; a table without the id is unchanged |
| Domain.UpdateByIdAt | src/screens/doctor/DoctorDashboardScreen.tsx:69-72 | on a table with distinct ids only the entry with that id changes, and ids stay distinct |
| Domain.StatusColor | src/screens/doctor/DoctorDashboardScreen.tsx:91-98 | each known status has its own colour (both directions); grey exactly for unknown statuses |
| DoctorDashboard.DoctorView | src/screens/doctor/DoctorDashboardScreen.tsx:25 | exactly the entries of the table with that doctor id, in table order |
| DoctorDashboard.FetchAppointments | src/screens/doctor/DoctorDashboardScreen.tsx:18-52 | no user: list unchanged; demo id: the doctor's fixture entries; live: the doctor's rows, or the old list on a read error |
| DoctorDashboard.Requests | src/screens/doctor/DoctorDashboardScreen.tsx:130-136 | exactly the pending entries of the list |
| DoctorDashboard.Upcoming | src/screens/doctor/DoctorDashboardScreen.tsx:206-209 | exactly the confirmed and completed entries of the list |
| DoctorDashboard.SectionsPartition | src/screens/doctor/DoctorDashboardScreen.tsx:130-209 | no entry is in both sections; an entry is shown iff its status is pending, confirmed or completed |
| DoctorDashboard.OfferedActions | src/screens/doctor/DoctorDashboardScreen.tsx:164-262 | Confirm and Cancel offered iff pending; Complete & Prescribe iff confirmed; View History iff the entry is shown |
| DoctorDashboard.Press | src/screens/doctor/DoctorDashboardScreen.tsx:168-257 | Confirm sets that entry to confirmed and Cancel to cancelled; Complete & Prescribe opens AddPrescription for its id; View History opens PatientHistory for its patient; only the Completed badge does nothing |
| DoctorDashboard.WithStatus | src/screens/doctor/DoctorDashboardScreen.tsx:69-72 | length and ids kept; an unknown id changes nothing |
| DoctorDashboard.WithStatusAt | src/screens/doctor/DoctorDashboardScreen.tsx:69-72 | only the entry with the id gets the new status; ids stay distinct |
| DoctorDashboard.UpdateStatusDemo | src/screens/doctor/DoctorDashboardScreen.tsx:66-77 | the fixture table becomes WithStatus of the old one, the other fixtures untouched, the list is the doctor's view of the new table |
| DoctorDashboard.UpdateStatusLive | src/screens/doctor/DoctorDashboardScreen.tsx:79-88 | writes the status update; a failure alerts with the message and keeps the list, success refetches |
| DoctorDashboard.UpdateStatus | src/screens/doctor/DoctorDashboardScreen.tsx:66-89 | demo ids take the in-place path, all others the live one, and the live path leaves the fixtures alone |
| DoctorDashboard.DemoDoctorDashboard | src/data/mockData.ts:114-151 | the demo doctor sees appt-3 and appt-4: appt-4 as a request, appt-3 upcoming |
| AddPrescription.InitialMedicines | src/screens/doctor/AddPrescriptionScreen.tsx:17-19 | the form starts with one blank medicine |
| AddPrescription.AddMedicine | src/screens/doctor/AddPrescriptionScreen.tsx:23-25 | the old entries followed by one blank one |
| AddPrescription.RemoveMedicine | src/screens/doctor/AddPrescriptionScreen.tsx:27-31 | an index inside the list removes exactly that entry keeping order; an index past the end changes nothing |
| AddPrescription.RemoveAdded | src/screens/doctor/AddPrescriptionScreen.tsx:23-31 | removing the entry just added restores the list |
| AddPrescription.SetField | src/screens/doctor/AddPrescriptionScreen.tsx:35 | the field gets the value; the other three fields are kept |
| AddPrescription.UpdateMedicine | src/screens/doctor/AddPrescriptionScreen.tsx:33-37 | only the entry at the index changes, and only in the named field |
| AddPrescription.UpdateSameValue | src/screens/doctor/AddPrescriptionScreen.tsx:33-37 | typing a field's current value leaves the list unchanged |
| AddPrescription.ApplyKeepsOne | src/screens/doctor/AddPrescriptionScreen.tsx:122-124 | an edit the form offers never empties a non-empty list |
| AddPrescription.RunKeepsOne | src/screens/doctor/AddPrescriptionScreen.tsx:109-175 | any run of edits from a non-empty list leaves at least one medicine |
| AddPrescription.FormNeverEmpty | src/screens/doctor/AddPrescriptionScreen.tsx:17-19 | whatever the doctor does, the form shows at least one medicine |
| AddPrescription.InitialRejected | src/screens/doctor/AddPrescriptionScreen.tsx:40-43 | submitting the untouched form is refused for a missing name |
| AddPrescription.Prescribed | src/screens/doctor/AddPrescriptionScreen.tsx:50-60 | length and ids kept; an unknown id changes nothing |
| AddPrescription.PrescribedAt | src/screens/doctor/AddPrescriptionScreen.tsx:50-60 | only the entry with the id becomes completed with the one new prescription |
| AddPrescription.LiveSubmit | src/screens/doctor/AddPrescriptionScreen.tsx:69-98 | the insert comes first; the status update is issued iff the insert succeeded; each failure's alert; go back iff both succeed, with the success alert |
| AddPrescription.LiveSubmitNeverUndoes | src/screens/doctor/AddPrescriptionScreen.tsx:69-98 | every write is for this appointment and only ever sets it completed |
| AddPrescription.Submit | src/screens/doctor/AddPrescriptionScreen.tsx:39-98 | a missing name alerts and writes nothing; demo ids update the fixture in place and go back; others take the live path |
| ManageSchedule.Days | src/screens/doctor/ManageScheduleScreen.tsx:14 | seven day names, Sunday first, Saturday last |
| ManageSchedule.InitialWeek | src/screens/doctor/ManageScheduleScreen.tsx:27-32 | seven rows, row i for day i, 09:00–17:00, enabled exactly Monday to Friday |
| ManageSchedule.Initialised | src/screens/doctor/ManageScheduleScreen.tsx:26-34 | an empty fixture gets the initial week, a filled one is kept |
| ManageSchedule.InitialisedOnce | src/screens/doctor/ManageScheduleScreen.tsx:26-34 | initialising twice is initialising once |
| ManageSchedule.FetchDemo | src/screens/doctor/ManageScheduleScreen.tsx:23-37 | the fixture becomes Initialised of itself and the list is a copy of it |
| ManageSchedule.LiveDay | src/screens/doctor/ManageScheduleScreen.tsx:50-56 | with no stored row for the day the default (switched off) row; otherwise the first stored row for that day |
| ManageSchedule.LiveWeek | src/screens/doctor/ManageScheduleScreen.tsx:49-57 | seven rows, row i is the doctor's stored day i or its default, so row i is for weekday i |
| ManageSchedule.LiveWeekDays | src/screens/doctor/ManageScheduleScreen.tsx:49-57 | row i is for day i, and an enabled row is a stored row of that doctor |
| ManageSchedule.DaySaved | src/screens/doctor/ManageScheduleScreen.tsx:69-72 | days and owners kept; an unknown day changes nothing |
| ManageSchedule.DaySavedAt | src/screens/doctor/ManageScheduleScreen.tsx:69-72 | only the row for that day takes the new times and switch; days stay distinct |
| ManageSchedule.ToggleRoundTrip | src/screens/doctor/ManageScheduleScreen.tsx:118-121 | on a schedule whose row j is for weekday j, flipping the switch at position k off and back on (each save under position k with the row's own times) restores the rows |
| ManageSchedule.SaveDemo | src/screens/doctor/ManageScheduleScreen.tsx:66-76 | the fixture becomes DaySaved of the old one and the list is a copy of it |
| ManageSchedule.LiveFetch | src/screens/doctor/ManageScheduleScreen.tsx:40-59 | read rows become the live week; a read error keeps the list |
| ManageSchedule.LiveSave | src/screens/doctor/ManageScheduleScreen.tsx:79-101 | enabling upserts the times, disabling deletes the day; an alert iff the write failed; the week is always refetched |
| ManageSchedule.Fetch | src/screens/doctor/ManageScheduleScreen.tsx:20-60 | without a user nothing changes; demo ids read the fixture, others the live week |
| ManageSchedule.Save | src/screens/doctor/ManageScheduleScreen.tsx:62-102 | without a user nothing happens; demo ids save in place, others take the live path |
| Home.Flatten | src/screens/patient/HomeScreen.tsx:44-48 | the joined name (or "Unknown Doctor") and avatar are lifted to the top; every other field is kept |
| Home.FlattenIdempotent | src/screens/patient/HomeScreen.tsx:69-73 | flattening twice is flattening once |
| Home.FlattenAll | src/screens/patient/HomeScreen.tsx:44-48 | each doctor flattened, order kept |
| Home.FetchDoctors | src/screens/patient/HomeScreen.tsx:38-78 | demo ids get the flattened fixture doctors; others the flattened rows, or the old list on a read error |
| Home.SearchCaseInsensitive | src/screens/patient/HomeScreen.tsx:88-93 | a query and its lower-cased form find the same doctors |
| Home.SearchFindsNamePart | src/screens/patient/HomeScreen.tsx:88-93 | any piece of a doctor's name finds that doctor |
| Home.FilteredDoctors | src/screens/patient/HomeScreen.tsx:84-102 | a doctor is shown iff it is in the list, matches the non-empty search and fits the chosen category |
| Home.FilteredIsOneFilter | src/screens/patient/HomeScreen.tsx:84-102 | the two filters in turn equal one filter by both conditions, and keep the list's order |
| Home.NoFilterShowsAll | src/screens/patient/HomeScreen.tsx:84-102 | with an empty search and "All" every doctor is shown |
| Home.CategoryPress | src/screens/patient/HomeScreen.tsx:110-115 | the chosen category is set; "All" clears the search, any other keeps it |
| Home.AllPressShowsAll | src/screens/patient/HomeScreen.tsx:110-115 | pressing "All" shows every doctor |
| Home.RouteCategory | src/screens/patient/HomeScreen.tsx:29-36 | a category passed by route replaces the selected one; none leaves it |
| MyAppointments.PatientView | src/screens/patient/MyAppointmentsScreen.tsx:23 | exactly the table's entries of that patient, in order |
| MyAppointments.FetchMyAppointments | src/screens/patient/MyAppointmentsScreen.tsx:17-51 | no user: unchanged; demo id: the patient's fixture entries; live: the patient's rows, or the old list on error |
| MyAppointments.OnlyOwnAppointments | src/screens/patient/MyAppointmentsScreen.tsx:23 | an entry in one patient's view never appears in another's |
| MyAppointments.CardDoctorName | src/screens/patient/MyAppointmentsScreen.tsx:99 | the joined doctor name when it is truthy, otherwise "Unknown Doctor" |
| MyAppointments.CardDoctorAvatar | src/screens/patient/MyAppointmentsScreen.tsx:94 | the joined doctor avatar when it is truthy, otherwise the placeholder URL (also when a doctor is joined without an avatar) |
| MyAppointments.CardButtons | src/screens/patient/MyAppointmentsScreen.tsx:130-139 | "View Prescription" for that appointment iff it is completed |
| MyAppointments.CardColor | src/screens/patient/MyAppointmentsScreen.tsx:63-71 | confirmed, pending, cancelled and completed each get their own colour (both directions), grey exactly for unknown statuses |
| PatientHistory.DemoPatientIsDemoId | src/screens/doctor/PatientHistoryScreen.tsx:19 | the demo-history guard holds exactly for demo ids |
| PatientHistory.ClearPrescriptions | src/screens/doctor/PatientHistoryScreen.tsx:25-29 | the prescriptions become empty and every other field is kept |
| PatientHistory.DemoHistory | src/screens/doctor/PatientHistoryScreen.tsx:22-29 | one entry per fixture entry that passes the filter, in order, each with prescriptions cleared |
| PatientHistory.DemoHistoryEntries | src/screens/doctor/PatientHistoryScreen.tsx:22-29 | every demo history entry is that patient's or the demo patient's, completed or confirmed, with no prescription; every such fixture entry appears |
| PatientHistory.LiveHistory | src/screens/doctor/PatientHistoryScreen.tsx:47-48 | exactly the rows of that patient with status completed, in order |
| PatientHistory.FetchHistory | src/screens/doctor/PatientHistoryScreen.tsx:16-57 | demo ids get the demo history; others the live history, or the old list on error |
| PatientHistory.Body | src/screens/doctor/PatientHistoryScreen.tsx:96-107 | "No prescription recorded." iff there is none; otherwise the first prescription's medicines, in order |
| PatientHistory.DemoHistoryShowsNoPrescription | src/screens/doctor/PatientHistoryScreen.tsx:22-29 | every demo history card reads "No prescription recorded." |
| BookAppointment.TimeSlotsAscending | src/screens/patient/BookAppointmentScreen.tsx:20 | eight slots in strictly ascending order |
| BookAppointment.DateOffsets | src/screens/patient/BookAppointmentScreen.tsx:21-25 | five dates: today and the next four days |
| BookAppointment.HandleBook | src/screens/patient/BookAppointmentScreen.tsx:27-53 | a missing date or time alerts and writes nothing; otherwise a pending insert for that doctor, patient, date and time; failure alerts with the message; success goes to the success screen |
| BookAppointment.EnabledButtonInserts | src/screens/patient/BookAppointmentScreen.tsx:137 | when the confirm button is enabled, pressing it always issues the insert |
| BookAppointment.ChipsComplete | src/screens/patient/BookAppointmentScreen.tsx:67-99 | picking one date chip and one time chip completes the selection |
| BookAppointment.BookedRow | src/screens/patient/BookAppointmentScreen.tsx:38-44 | the stored row carries the insert's doctor, patient and pending status |
| DoctorCard.FirstTruthy | src/components/DoctorCard.tsx:13-14 | the first truthy of the two values, else the fallback |
| DoctorCard.ShownName | src/components/DoctorCard.tsx:13 | flattened name, else joined name, else "Unknown Doctor"; never empty |
| DoctorCard.ShownAvatar | src/components/DoctorCard.tsx:14 | flattened avatar, else joined avatar, else the placeholder; never empty |
| DoctorCard.ShownSpecialization | src/components/DoctorCard.tsx:15 | the specialization, else "General Practitioner" |
| DoctorCard.ShownRating | src/components/DoctorCard.tsx:16 | the rating, else 0 |
| DoctorCard.ShownExperience | src/components/DoctorCard.tsx:17 | the years of experience, else 0 |
| DoctorCard.ShownFee | src/components/DoctorCard.tsx:18 | the fee, else 0 |
| DoctorCard.CrownIff | src/components/DoctorCard.tsx:30 | the crown badge shows iff the rating is at least 4.5 |
| DoctorCard.TestDoctorCard | src/components/__tests__/DoctorCard.test.tsx:6-31 | for the test's doctor: name, specialization and rating as the test expects, crown shown, and the experience text is "10 years exp.", not the test's "10 yrs exp" |
| DoctorCard.CallsPerPress | src/components/DoctorCard.tsx:21-73 | the card and the "Book Now" button are both bound to the onPress prop, so every press calls that prop exactly once and no other callback |
| DoctorCard.NamePressCallsOnce | src/components/__tests__/DoctorCard.test.tsx:40-41 | one press on the name calls the mock handed in as onPress once |
| Scenarios.EntriesWithIdHaveStatus | src/screens/doctor/DoctorDashboardScreen.tsx:69-72 | after a status write every entry with that id has the new status |
| Scenarios.ConfirmMovesRequestToUpcoming | src/screens/doctor/DoctorDashboardScreen.tsx:164-173 | confirming a request puts it among the upcoming entries and takes it off the requests |
| Scenarios.CancelHidesEverywhere | src/screens/doctor/DoctorDashboardScreen.tsx:174-182 | a cancelled entry appears in neither dashboard section |
| Scenarios.PrescriptionReachesPatient | src/screens/doctor/AddPrescriptionScreen.tsx:50-60 | the prescribed entry is in the patient's list with "View Prescription"; the live history of the updated table holds it and its card lists the medicines, while every demo history card reads "No prescription recorded."; the dashboard shows it upcoming with the Completed badge |
| Scenarios.BookingReachesBothSides | src/screens/patient/BookAppointmentScreen.tsx:36-44 | the booked row is in the patient's list and among the doctor's requests |
| Scenarios.DemoPatientFirstScreen | src/screens/patient/MyAppointmentsScreen.tsx:21-27 | the demo patient sees appt-1, appt-2 and appt-5, and only the completed appt-5 offers its prescription |
| Scenarios.DemoDoctorFirstScreen | src/screens/doctor/DoctorDashboardScreen.tsx:23-28 | the demo doctor sees appt-4 as a request and appt-3 upcoming |
| Seqs.Filter | src/screens/doctor/DoctorDashboardScreen.tsx:25 | a member is kept iff it was there and passes; every kept member passes |
| Seqs.FindIndex | src/screens/doctor/DoctorDashboardScreen.tsx:69 | -1 iff nothing matches, otherwise the first match |
| Seqs.Find | src/screens/doctor/ManageScheduleScreen.tsx:50 | none iff nothing matches, otherwise the first matching member |
| Text.Lower | src/screens/patient/HomeScreen.tsx:89 | same length, each character lower-cased |
| Text.IncludesIff | src/screens/patient/HomeScreen.tsx:91-92 | includes holds iff the query starts at some position of the text |

## Left out

- **The database.** The model leaves out server-side filtering, joins, ordering and the upsert's conflict handling. These are not visible in the client code. Reads come in as parameters, and the doctor's or patient's filter is applied to them in the model.
- **Asynchrony.** Promises, `setTimeout` delays, loading and refreshing flags, focus effects and mount-time effects are left out. This includes `checkSession` running once on mount. Each action is modelled as happening at once.
- **Notification listeners and push-token registration** (`src/services/NotificationService.ts`). Only the token write itself is modelled; the obtained token is a parameter.
- **Aliasing.** The schedule's time fields are edited through a shallow copy, which mutates the shared row (`ManageScheduleScreen.tsx:133-135` and `148-150`). Demo prescriptions hold the form's `medicines` array by reference. Rows are values in the model, so neither effect is captured.
- **Dates and display formatting.** `toISOString`, date display, time slicing, `toFixed` and the currency display are left out. A booking's date is its day offset from today.
- **Lower-casing is ASCII only.** Unicode cases are not captured.
- `created_at` timestamps on prescriptions are not modelled.
- AddPrescription.UpdateMedicine: requires an index inside the list. The form only calls it with the index of a card it shows. An out-of-range index, which in the app would create a sparse entry, is not modelled.
- AddPrescription.RemoveMedicine: takes a natural-number index. The negative indices that `splice` counts from the end are not modelled, because the form never produces one.
- PatientHistory.FetchHistory: the `patientId` route parameter is a string. The case of a missing parameter is not modelled.
- DoctorCard.ShownRating: the rating is a real, and a `NaN` or non-numeric rating is not modelled.
- DoctorCard.TestDoctorCard: the test harness and rendering are not modelled. The lemma covers only the texts the card would show.
- **Screens outside this model:** profile, login, registration, prescription details, settings, categories, doctor details and booking success. `src/navigation/HomeNavigator.tsx`, `App.tsx` and `src/theme.ts` are also not part of this model.
