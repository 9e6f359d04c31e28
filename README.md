# vital-link-dispatch: verified model of the screen logic

The repository is a browser prototype of an emergency-medical-dispatch
product. Its screens render mock data. The only logic in it is a few
per-screen state machines and a bounded counter. This project models that
logic in Dafny and proves what each screen promises:

- **Driver dashboard** (`driver_dashboard.dfy`, module `DriverDashboard`).
  The screen holds a driver status and an optional open case. Three handlers
  change them: `simulateNewCase`, `handleStatusUpdate` and `completeCase`.
  The buttons' `disabled` and render conditions become the `Enabled`
  predicate and the preconditions of the `Dashboard` class methods. The model
  proves that every run of enabled presses keeps "no open case exactly when
  available". It also proves there is no forward-only order: with a case
  open, En Route, On Scene and Transport can be pressed from any status.
- **Patient portal** (`patient_portal.dfy`, module `PatientPortal`). SOS sets
  `dispatching` and schedules three `setTimeout` callbacks, at 2000, 5000
  and 8000 ms. The `Portal` class holds `status`, `eta` and the queue of
  callbacks not yet run, and runs them as discrete events. `AtElapsed` gives
  the screen as a function of the milliseconds since SOS. The model proves
  the ETA schedule, that progress never moves backwards, that the ETA only
  goes down, and that "Close Request" can only appear once no callback is
  pending, so two dispatches never overlap.
- **Hospital capacity board** (`hospital_admin.dfy`, module `HospitalAdmin`).
  `updateBedCount` clamps one entry's count into `[0, total]`. The model
  proves the clamp and that no other field or entry changes. It proves that
  every sequence of clicks keeps each count within its total, that the -1/+1
  buttons are disabled exactly where a click would be a no-op, and that +1
  then -1 round-trips. `getOccupancyColor` divides floating-point numbers;
  the model compares integers by cross-multiplication and proves this equal
  to comparing the exact ratio.
- **Driver login** (`driver_login.dfy`, module `DriverLogin`). `handleLogin`
  clears the error, then refuses blank-after-trim fields with one message.
  It accepts only the exact, untrimmed demo pair and gives every other pair a
  second message. `trim` removes the ECMAScript whitespace and
  line-terminator characters. A field is blank when every character in it
  is whitespace, and `DriverLogin.TrimEmptyIffBlank` proves this is exactly
  when it trims to the empty string.
- **Settings sheet** (`settings_sheet.dfy`, module `SettingsSheet`). Six
  switches, all on at first. `updateSetting` flips one of them. Flipping one
  twice restores the record, and flips of different switches commute.

`common.dfy` (module `Common`) holds `Option`, the triage `Priority` and the
status `Tone` that colour lookups select.

The code imposes no order on the case statuses. In
`src/components/driver/DriverDashboard.tsx` lines 211-237, En Route, On Scene
and Transport are enabled whenever a case is open, whatever the current
status. `DriverDashboard.AnyCaseStatusReachable` and
`DriverDashboard.OnSceneCanReturnToEnRoute` state this.

## Model

| member | source | states |
|---|---|---|
| `DriverDashboard.Enabled` | src/components/driver/DriverDashboard.tsx:141-250 | no control selects Dispatched; New Case and Available are enabled exactly when no case is open; every other enabled control needs an open case, and Complete Handoff also needs Transporting |
| `DriverDashboard.Press` | src/components/driver/DriverDashboard.tsx:32-65 | a new case opens a case and sets Dispatched; a status update sets exactly that status and keeps the case; handoff clears the case and sets Available; every enabled press keeps "no case iff available" |
| `DriverDashboard.RunKeepsCoupling` | src/components/driver/DriverDashboard.tsx:187-250 | any sequence of presses, each enabled when pressed, keeps "no case iff available" |
| `DriverDashboard.ReachableIsCoupled` | src/components/driver/DriverDashboard.tsx:28-29 | the screen starts available with no case, so every reachable state has a case exactly when the driver is not available |
| `DriverDashboard.GuardsByStatus` | src/components/driver/DriverDashboard.tsx:187-250 | on a coupled screen: New Case and Available are enabled only when available; En Route, On Scene and Transport only when not; Complete Handoff only while transporting; nothing selects Dispatched |
| `DriverDashboard.AvailableChangesNothing` | src/components/driver/DriverDashboard.tsx:202-210 | the Available button, enabled only without a case, leaves a coupled state unchanged |
| `DriverDashboard.AnyCaseStatusReachable` | src/components/driver/DriverDashboard.tsx:211-237 | with a case open, each of En Route, On Scene and Transport is enabled from any status and sets it, keeping the case (no forward-only order) |
| `DriverDashboard.OnSceneCanReturnToEnRoute` | src/components/driver/DriverDashboard.tsx:211-250 | from On Scene, En Route is enabled while Available and Complete Handoff are not |
| `DriverDashboard.StatusColor` | src/components/driver/DriverDashboard.tsx:80-89 | the status dot is never muted or info-coloured, and is green exactly when the status is Available |
| `DriverDashboard.StatusColorShowsOpenCase` | src/components/driver/DriverDashboard.tsx:80-89 | on a coupled screen the dot is green exactly when no case is open |
| `DriverDashboard.PriorityColor` | src/components/driver/DriverDashboard.tsx:72-78 | a priority badge is never green or muted |
| `DriverDashboard.PriorityColorInjective` | src/components/driver/DriverDashboard.tsx:72-78 | different priorities get different badge colours |
| `DriverDashboard.Dashboard.constructor` | src/components/driver/DriverDashboard.tsx:28-29 | the dashboard starts Available with no case, so `Valid` holds |
| `DriverDashboard.Dashboard.SimulateNewCase` | src/components/driver/DriverDashboard.tsx:32-46 | offered only without a case; afterwards the fixed case EMR-2847 is open and the status is Dispatched; keeps `Valid` |
| `DriverDashboard.Dashboard.HandleStatusUpdate` | src/components/driver/DriverDashboard.tsx:48-61 | sets the status to exactly the chosen one and leaves the case unchanged; keeps `Valid` (no case exactly when available) |
| `DriverDashboard.Dashboard.CompleteCase` | src/components/driver/DriverDashboard.tsx:63-70 | offered only with a case while transporting; clears the case and sets Available; keeps `Valid` |
| `PatientPortal.Fire` | src/components/patient/PatientPortal.tsx:22-42 | the effect of each `setTimeout` callback: none moves an unfinished dispatch backwards, each leaves the ETA shown exactly while on the way (the ETA callback when it runs on the way), and a shown ETA is at most 8 |
| `PatientPortal.Dispatch` | src/components/patient/PatientPortal.tsx:14 | SOS highlights the first progress step at once and leaves the ETA as it was, so from the idle screen none is shown |
| `PatientPortal.DueCount` | src/components/patient/PatientPortal.tsx:22-42 | the callbacks that have run after `elapsed` ms are exactly those whose delay has passed, and they are a prefix of the sorted schedule |
| `PatientPortal.AtElapsed` | src/components/patient/PatientPortal.tsx:13-42 | after SOS: below 2000 ms (dispatching, no ETA); from 2000 ms (on the way, 8); from 5000 ms (on the way, 4); from 8000 ms (arrived, no ETA) |
| `PatientPortal.ScheduledPhases` | src/components/patient/PatientPortal.tsx:21-42 | the screen after none, one, two and all three callbacks have run |
| `PatientPortal.ProgressMonotone` | src/components/patient/PatientPortal.tsx:56-63 | within one dispatch the status index never decreases as time passes |
| `PatientPortal.EtaNonIncreasing` | src/components/patient/PatientPortal.tsx:24-37 | an ETA is shown only on the way, and while shown a later ETA is never larger |
| `PatientPortal.StatusIndex` | src/components/patient/PatientPortal.tsx:56-63 | the highlighted step is one of 0, 1 and 2 during a dispatch, and negative exactly when idle |
| `PatientPortal.StepAt` | src/components/patient/PatientPortal.tsx:107-111 | a step is completed iff its index is below the status index, current iff equal |
| `PatientPortal.StepsAdvanceInOrder` | src/components/patient/PatientPortal.tsx:107-111 | at most one step is current, and a completed step stays completed later in the dispatch |
| `PatientPortal.ArrivedOnlyAfterAllTimers` | src/components/patient/PatientPortal.tsx:35-42 | a dispatch shows Arrived only once all three callbacks have run, and is never idle while running |
| `PatientPortal.Portal.constructor` | src/components/patient/PatientPortal.tsx:9-10 | the screen starts idle with no ETA and nothing scheduled |
| `PatientPortal.Portal.HandleEmergencyDispatch` | src/components/patient/PatientPortal.tsx:13-43 | offered only when idle; shows dispatching at once, with no ETA, and schedules the three callbacks |
| `PatientPortal.Portal.RunNextTimer` | src/components/patient/PatientPortal.tsx:22-42 | the earliest pending callback runs and leaves the queue; the screen stays the effect of the callbacks run so far |
| `PatientPortal.Portal.ResetDispatch` | src/components/patient/PatientPortal.tsx:45-48 | offered only when arrived, when nothing is pending; returns to idle with no ETA |
| `HospitalAdmin.InitialBeds` | src/components/hospital/HospitalAdmin.tsx:39-44 | the board starts with four entries, each with a positive total and 0 <= available <= total |
| `HospitalAdmin.ClampedAvailable` | src/components/hospital/HospitalAdmin.tsx:76 | the stored count is never negative, never above a non-negative total, equals available + delta when that is in range, and is 0 or the total when it overshoots |
| `HospitalAdmin.UpdatedBeds` | src/components/hospital/HospitalAdmin.tsx:73-79 | entry `index` gets the clamped count with kind and total kept; every other entry and the length are unchanged; 0 <= available <= total is preserved |
| `HospitalAdmin.ButtonsDisabledExactlyAtBounds` | src/components/hospital/HospitalAdmin.tsx:163-178 | -1 is disabled exactly where it would be clamped away (at 0), +1 exactly at the total; an enabled click moves the count by one |
| `HospitalAdmin.MinusEnabled` | src/components/hospital/HospitalAdmin.tsx:167 | the -1 button is disabled at zero: a disabled -1 would leave the count unchanged, and on a well-formed entry an enabled one has a bed to take |
| `HospitalAdmin.PlusEnabled` | src/components/hospital/HospitalAdmin.tsx:175 | the +1 button is disabled at the total: on a well-formed entry a disabled +1 would leave the count unchanged, and an enabled one has room |
| `HospitalAdmin.PlusThenMinusRestores` | src/components/hospital/HospitalAdmin.tsx:76 | below the total, +1 then -1 restores the table |
| `HospitalAdmin.MinusThenPlusRestores` | src/components/hospital/HospitalAdmin.tsx:76 | above zero, -1 then +1 restores the table |
| `HospitalAdmin.ApplyClicks` | src/components/hospital/HospitalAdmin.tsx:73-79 | any sequence of clicks keeps the length of the table |
| `HospitalAdmin.ClicksKeepCapacity` | src/components/hospital/HospitalAdmin.tsx:73-79 | any sequence of clicks keeps every count within its total and changes no kind or total |
| `HospitalAdmin.OccupancyColor` | src/components/hospital/HospitalAdmin.tsx:94-99 | for a non-zero total: red iff available/total <= 0.1, green iff available/total > 0.3, amber otherwise; with a zero total (NaN or an infinity in the source), green for every non-negative count and red only for a negative one |
| `HospitalAdmin.RatioThresholds` | src/components/hospital/HospitalAdmin.tsx:95-97 | the ratio thresholds 0.1 and 0.3 equal integer cross-multiplications, with the comparison reversed for a negative total |
| `HospitalAdmin.OccupancyColorMonotone` | src/components/hospital/HospitalAdmin.tsx:94-99 | fewer free beds never give a less urgent colour |
| `HospitalAdmin.PriorityStyle` | src/components/hospital/HospitalAdmin.tsx:86-92 | a priority style is never green or muted |
| `HospitalAdmin.PriorityStyleMatchesDashboard` | src/components/hospital/HospitalAdmin.tsx:86-92 | the board colours each priority as the driver dashboard's badge does |
| `HospitalAdmin.Admin.constructor` | src/components/hospital/HospitalAdmin.tsx:39-44 | the board starts with the initial table |
| `HospitalAdmin.Admin.UpdateBedCount` | src/components/hospital/HospitalAdmin.tsx:73-79 | the list becomes the updated list: only entry `index`'s count changes, to the clamped value; 0 <= available <= total is preserved |
| `DriverLogin.IsWhitespace` | src/components/driver/DriverLogin.tsx:22 | the characters `trim` removes: the ECMAScript WhiteSpace set (tab, vertical tab, form feed, space, no-break space, byte order mark, the Zs space separators) and the four line terminators |
| `DriverLogin.TrimStart` | src/components/driver/DriverLogin.tsx:22 | the result is the suffix of the input after its leading whitespace, and starts with a visible character if not empty |
| `DriverLogin.TrimEnd` | src/components/driver/DriverLogin.tsx:22 | the result is the prefix of the input before its trailing whitespace, and ends with a visible character if not empty |
| `DriverLogin.Trim` | src/components/driver/DriverLogin.tsx:22 | `trim()`: drops leading then trailing whitespace and never makes a field longer |
| `DriverLogin.TrimmedEndsVisible` | src/components/driver/DriverLogin.tsx:22 | a trimmed field that is not empty starts and ends with a visible character |
| `DriverLogin.TrimEmptyIffBlank` | src/components/driver/DriverLogin.tsx:22 | a field trims to the empty string exactly when every character in it is whitespace |
| `DriverLogin.DemoCredentialsNotBlank` | src/components/driver/DriverLogin.tsx:32-33 | the demo id and password pass the blank check |
| `DriverLogin.Authenticate` | src/components/driver/DriverLogin.tsx:18-44 | accepted iff the id is exactly DRV001 and the password exactly password123, passing on the entered id; the blank message iff either field is blank; the invalid-credentials message for every other pair |
| `DriverLogin.PaddedIdRejected` | src/components/driver/DriverLogin.tsx:22-41 | " DRV001" does not trim to empty, so it passes the blank check, but it is rejected with the invalid-credentials message |
| `DriverLogin.LoginForm.constructor` | src/components/driver/DriverLogin.tsx:12-15 | the form starts with empty fields, no error and not loading |
| `DriverLogin.LoginForm.HandleLogin` | src/components/driver/DriverLogin.tsx:18-44 | the error is cleared first; blank fields set the blank message without loading; onLogin gets the id iff the demo pair matches; any other pair sets the invalid message; loading is off at the end |
| `SettingsSheet.InitialSettings` | src/components/layout/SettingsSheet.tsx:31-38 | all six settings start on |
| `SettingsSheet.Toggle` | src/components/layout/SettingsSheet.tsx:40-42 | the chosen setting is negated and every other setting is unchanged |
| `SettingsSheet.ToggleTwiceRestores` | src/components/layout/SettingsSheet.tsx:41 | flipping the same setting twice restores the record |
| `SettingsSheet.TogglesCommute` | src/components/layout/SettingsSheet.tsx:41 | flips of two settings commute |
| `SettingsSheet.SettingsPanel.constructor` | src/components/layout/SettingsSheet.tsx:31-38 | the sheet starts with every setting on |
| `SettingsSheet.SettingsPanel.UpdateSetting` | src/components/layout/SettingsSheet.tsx:40-42 | replaces the record with the one where exactly the chosen key is negated |

## Left out

- Rendering, icons, toasts and Tailwind class strings are not modelled. Colour lookups return the status tone their class string selects.
- The map (`src/components/driver/DriverMap.tsx`) is not modelled. It consists of foreign map-library calls, DOM markers and a floating-point position loop. The control centre, help sheet, header, sidebar and index page are not modelled either; they are static data and navigation.
- The 1500 ms login wait and the patient timers' real delays are not modelled. Each callback is a discrete event, run in delay order, and `AtElapsed` takes the elapsed time as a parameter.
- Timers keep running if the patient screen is closed mid-dispatch. The model does not cover this unmounting.
- `updateBedCount`'s toast reads `bedCapacity[index].type` from the render that registered the click. It is display only and is not modelled.
- The clock (`toLocaleTimeString`), `occupancyPercent` and the static incoming-patient list are display only and are not modelled.
- The `Dashboard`, `Portal` and `Admin` methods require the conditions under which their control is rendered and enabled. The handlers themselves contain no checks. `Dashboard` and `Portal` methods also require their class invariant `Valid`, which the constructor establishes and every method keeps.
- `HandleLogin` also requires `isLoading` to be false, because the submit button is disabled while loading.
- Typing into the login fields (`setDriverId`, `setPassword`) is a plain field assignment. `HandleLogin` reads the fields as they are at submit.
- `PriorityColor` and `PriorityStyle` take the case's `Priority` type. The source takes any string, and any string other than critical or urgent gives the info tone; the callers only pass the typed priority.
- `ClampedAvailable` takes integer counts and deltas. The source uses JavaScript numbers, but the buttons only pass -1 and +1.
- `OccupancyColor` compares the exact ratio. The source's double-precision division could round a ratio across 0.1 or 0.3 only when it lies within a rounding error of the threshold, which needs totals far beyond any bed count.
- `IsWhitespace` lists the Unicode space separators (category Zs) as of Unicode 15. Later Unicode versions may add more.
- Clicking the dark-mode switch also swaps its icon, and the Privacy and Sign Out buttons have no handler. Neither is modelled.
