# Clinic queue mockup — a Dafny model

This project models the sequential behaviour inside a clinic queue-management
front end ("MediQueue"): a login form, a session holder that picks the screen,
a patient dashboard that simulates a place in the queue, and a doctor
dashboard that calls and completes patients from a fixed roster.

- `doctor_dashboard.dfy` (module `DoctorDashboard`): the five seeded queue
  entries and the current patient, held by the class `Roster`. "Call next"
  finds the first waiting entry in list order, makes it current and marks it
  called. "Complete" marks the current patient's entry completed and clears
  current. The statistics count waiting and completed entries. As in the
  source, "call next" does not look at an existing current patient: a second
  call replaces it, and the first entry stays "called" from then on. The
  current patient is the entry object as it was found, so its own status
  still reads "waiting".
- `patient_dashboard.dfy` (module `PatientDashboard`): the `queueData`
  record. Its updates are pure functions: join, one interval firing, the
  "you're next" effect, and leave. The class `QueueSimulation` holds the
  record and applies them. `RunUntilCalled` fires the interval for as long as
  it is armed and then runs the effect.
- `login_form.dfy` (module `LoginForm`): the submit handler that builds the
  user record. The name falls back to the part of the address before its
  first '@'.
- `index_page.dfy` (module `IndexPage`): the page's `user` state (class
  `SessionHolder`) and the choice of login, patient or doctor view.
- `wrappers.dfy` (module `Wrappers`): `Option`, used where the source stores
  `null`.

Random draws (`Math.floor(Math.random() * 50)` and
`Math.floor(Math.random() * 8)`) are parameters within their ranges. The
interval timer is an explicit operation, `IntervalFired`. Its scheduling
guard is the predicate `TickArmed`, and the effect's guard is `CallDue`.

## Model

| member | source | states |
|---|---|---|
| `DoctorDashboard.SeedRoster` | src/components/doctor/DoctorDashboard.tsx:16-22 | five entries in seed order, all waiting, with distinct ids and queue numbers 1 to 5 |
| `DoctorDashboard.CountStatus` | src/components/doctor/DoctorDashboard.tsx:62-63 | a filter-count never exceeds the list length; `CountUpdate`, `StatsBound` and `WaitingCountFindsEntry` carry its other properties |
| `DoctorDashboard.Stats` | src/components/doctor/DoctorDashboard.tsx:61-66 | total is the list length and neither count exceeds it; `StatsBound` bounds their sum |
| `DoctorDashboard.FirstWaiting` | src/components/doctor/DoctorDashboard.tsx:29 | the index found is waiting and no earlier entry is; with no result, no entry is waiting |
| `DoctorDashboard.SetStatusById` | src/components/doctor/DoctorDashboard.tsx:32-36 | the map keeps the length, rewrites the status of every entry with the id and leaves every other entry as it was |
| `DoctorDashboard.SeedShapeUniqueIds` | src/components/doctor/DoctorDashboard.tsx:16-22 | a list shaped like the seed has pairwise distinct ids |
| `DoctorDashboard.SetStatusByIdAt` | src/components/doctor/DoctorDashboard.tsx:47-51 | with distinct ids, the map by id changes exactly one entry, and only its status |
| `DoctorDashboard.CountUpdate` | src/components/doctor/DoctorDashboard.tsx:62-63 | replacing one entry changes a status count by what left and what came in |
| `DoctorDashboard.StatsBound` | src/components/doctor/DoctorDashboard.tsx:61-66 | waiting + completed never exceeds total |
| `DoctorDashboard.WaitingCountFindsEntry` | src/components/doctor/DoctorDashboard.tsx:180-199 | the waiting count is positive exactly when `find` succeeds, so the enable guard matches the operation's own no-op check |
| `DoctorDashboard.CallNextStats` | src/components/doctor/DoctorDashboard.tsx:28-36 | a successful call lowers waiting by exactly one; completed and total are unchanged |
| `DoctorDashboard.CompleteStats` | src/components/doctor/DoctorDashboard.tsx:45-51 | completing a called entry raises completed by exactly one; waiting and total are unchanged |
| `DoctorDashboard.StepAdvances` | src/components/doctor/DoctorDashboard.tsx:34 | moving one entry's status forward keeps ids, names, numbers and times, and no status moves backwards |
| `DoctorDashboard.AdvancesTransitive` | src/components/doctor/DoctorDashboard.tsx:32-51 | `Advances` is transitive, so forward-only progress composes over a call followed by a completion (used by `CallThenCompleteScenario`) |
| `DoctorDashboard.Roster.constructor` | src/components/doctor/DoctorDashboard.tsx:16-25 | the roster starts as the five waiting seed entries with no current patient |
| `DoctorDashboard.Roster.GetQueueStats` | src/components/doctor/DoctorDashboard.tsx:61-67 | total is always 5 and waiting + completed <= total |
| `DoctorDashboard.Roster.CanCallNext` | src/components/doctor/DoctorDashboard.tsx:199 | the call buttons are enabled exactly when some entry is waiting |
| `DoctorDashboard.Roster.CallNextPatient` | src/components/doctor/DoctorDashboard.tsx:28-43 | with none waiting nothing changes; otherwise the lowest-index waiting entry becomes current, only it becomes called, and waiting drops by one; statuses only advance and the roster invariant is kept |
| `DoctorDashboard.Roster.CompleteConsultation` | src/components/doctor/DoctorDashboard.tsx:45-59 | with no current patient nothing changes; otherwise the current patient's entry, which was called, alone becomes completed, current is cleared and completed rises by one |
| `DoctorDashboard.CallThenCompleteScenario` | src/components/doctor/DoctorDashboard.tsx:16-67 | from the seed, calling takes entry #1 and completing it leaves 4 waiting, 1 completed, 5 in all, and the final list advances the seed |
| `PatientDashboard.Joined` | src/components/patient/PatientDashboard.tsx:50-60 | joining gives a queue number in 1..50, 1..8 patients ahead, 15 minutes per patient, status waiting, the interval armed and the invariant |
| `PatientDashboard.Ticked` | src/components/patient/PatientDashboard.tsx:28-32 | a firing lowers patients ahead by one and the wait by 15, both clamped at 0, and changes nothing else |
| `PatientDashboard.InitialQueueData` | src/components/patient/PatientDashboard.tsx:14-20 | the initial record, which leaving restores (lines 69-75), satisfies the invariant, including wait == 15 * ahead, and neither guard holds |
| `PatientDashboard.MarkCalled` | src/components/patient/PatientDashboard.tsx:46 | the effect's update only sets status called; `UpdatesPreserveConsistent` proves it keeps the invariant where due and `CalledIsFinal` that it is idempotent on a called record |
| `PatientDashboard.UpdatesPreserveConsistent` | src/components/patient/PatientDashboard.tsx:28-46 | a firing, and the called effect where due, keep the invariant: counters non-negative, wait == 15 * ahead, never completed |
| `PatientDashboard.TickNCount` | src/components/patient/PatientDashboard.tsx:25-37 | n firings from a consistent record take off exactly n patients and 15 * n minutes |
| `PatientDashboard.ExactlyAheadTicks` | src/components/patient/PatientDashboard.tsx:25-48 | after joining, the interval stays armed for exactly `patientsAhead` firings and then the called effect is due |
| `PatientDashboard.CalledIsFinal` | src/components/patient/PatientDashboard.tsx:40-48 | a called record has nobody ahead and no wait, the interval is not armed, and neither a firing nor the effect changes it |
| `PatientDashboard.QueueSimulation.constructor` | src/components/patient/PatientDashboard.tsx:14-20 | the dashboard starts from the initial record |
| `PatientDashboard.QueueSimulation.JoinQueue` | src/components/patient/PatientDashboard.tsx:50-66 | the record becomes the joined record for the two draws |
| `PatientDashboard.QueueSimulation.LeaveQueue` | src/components/patient/PatientDashboard.tsx:68-81 | leaving restores exactly the initial record |
| `PatientDashboard.QueueSimulation.IntervalFired` | src/components/patient/PatientDashboard.tsx:27-33 | a firing applies the clamped decrement and keeps the invariant |
| `PatientDashboard.QueueSimulation.CalledEffect` | src/components/patient/PatientDashboard.tsx:40-48 | the status becomes called, with a notification, exactly when the record is in the queue with nobody ahead |
| `PatientDashboard.QueueSimulation.RunUntilCalled` | src/components/patient/PatientDashboard.tsx:25-48 | from a record in the queue, exactly `patientsAhead` firings lead to status called with nobody ahead and no wait, the number kept |
| `PatientDashboard.OneAheadScenario` | src/components/patient/PatientDashboard.tsx:25-60 | join with one ahead, one firing and the effect: called, nobody ahead, wait down from 15 to 0 |
| `LoginForm.BeforeFirstAt` | src/components/auth/LoginForm.tsx:24 | `split('@')[0]` is a prefix of the address without '@' that ends at the first '@' or at the end |
| `LoginForm.BeforeFirstAtUnique` | src/components/auth/LoginForm.tsx:24 | those three properties determine the result uniquely |
| `LoginForm.BeforeFirstAtNoAt` | src/components/auth/LoginForm.tsx:24 | an address without '@' is returned whole |
| `LoginForm.DisplayName` | src/components/auth/LoginForm.tsx:24 | `name || email.split('@')[0]`; `HandleSubmit` states its result: a non-empty name kept, otherwise the text before the first '@' |
| `LoginForm.HandleSubmit` | src/components/auth/LoginForm.tsx:19-28 | submission always succeeds; the email is kept; a non-empty name is kept, an empty one becomes the text before the first '@'; the role is stamped in and passed alongside |
| `LoginForm.PasswordNotRecorded` | src/components/auth/LoginForm.tsx:19-28 | the password has no influence on the submitted call |
| `LoginForm.LocalPartName` | src/components/auth/LoginForm.tsx:24 | with an empty name, `local@domain` is named `local` |
| `IndexPage.SelectView` | src/pages/Index.tsx:17-25 | no user gives the login view, a patient the patient view, any other type the doctor view |
| `IndexPage.RoleView` | src/pages/Index.tsx:21-25 | the dashboard a role leads to; `LoginSelectsRoleView` proves it is what `SelectView` shows after login |
| `IndexPage.Stamped` | src/pages/Index.tsx:10 | `{ ...userData, type: userType }`; `LoginSelectsRoleView` proves the stamped role, not the record's own type, decides the view |
| `IndexPage.LoginSelectsRoleView` | src/pages/Index.tsx:9-25 | after login the chosen role, not the record's own type, decides the dashboard |
| `IndexPage.SubmitThenView` | src/pages/Index.tsx:9-25 | a submitted form handed to the page gives a user with the tab's role and the typed address, and the matching dashboard |
| `IndexPage.SessionHolder.constructor` | src/pages/Index.tsx:7 | the page starts with no user, on the login view |
| `IndexPage.SessionHolder.CurrentView` | src/pages/Index.tsx:17-19 | the login view is shown exactly when there is no user |
| `IndexPage.SessionHolder.HandleLogin` | src/pages/Index.tsx:9-11 | the user becomes the record with its type overwritten by the role, and that role's dashboard is shown |
| `IndexPage.SessionHolder.HandleLogout` | src/pages/Index.tsx:13-15 | the user is cleared and the login view is shown |
| `IndexPage.LoginLogoutScenario` | src/pages/Index.tsx:7-25 | a doctor-tab login whose record says patient reaches the doctor view, and logout returns to login |

## Left out

- Rendering, styling, icons and the UI component wrappers: presentation only.
- Toast notifications: only `CalledEffect` records, as a boolean, that its notification was shown; the others (join, leave, call, complete) have no effect on state.
- Timer scheduling (`setInterval`, `clearInterval`, the 10-second period, React effect ordering): the interval is the explicit operation `IntervalFired`, armed under `TickArmed`. The tick update itself is modelled without a guard, as the callback is written; its clamps matter only for a firing that lands after the state has changed.
- React batching: the two state updates of one handler are applied together as one step.
- `Math.random`: the draws are parameters with their ranges. The random base-36 user id is not modelled; the user record has no id.
- The "Average Consultation Time" input: it is only displayed, and its min/max are never enforced.
- Which buttons are visible (join only out of the queue, leave only in it, complete only with a current patient, the call button in the current-patient card only without one): the operations are modelled as the handlers are written, callable in any state.
- The user record is `any` in the source; here its type field is one of the two roles, so "any other type" in the view choice is the doctor role.
- The doctor roster and the patient queue are independent data sets in the source and are not linked here either.
- `joinQueue` checks nothing, and the timer's guard is `isInQueue && patientsAhead > 0`. The model follows the code. By the invariant, a record with patients ahead is always waiting.
