# Pomodoro timer core, modelled in Dafny

A Dafny model of the logic inside a React Native Pomodoro timer. The app alternates
work and break phases, logs the minutes it spends in each phase, and keeps the
user's settings. The model covers:

- **The statistics ledger** (`statistics_store.dfy`, module `StatisticsStore`). It keeps
  minutes per calendar day and phase, a lifetime cycle counter and one open-session slot.
  Its actions are `incrementCycles`, `startSession`, `endSession`, `logTime` and
  `resetStatistics`. Its queries are daily, weekly and total. Its calendar helpers put
  the week start on Monday. Dates are integer day numbers counted from 1970-01-01. The
  current time `now`, in milliseconds, is a parameter.
- **The phase sequencer** (`home_screen.dfy`, module `HomeScreen`). It holds the
  four-step and eight-step scenario tables, the `step`, `isPaused` and `pauseTrigger`
  state, the derived phase, the step-advance handler, the steps-mode effect and the
  theme effect.
- **The settings store** (`settings_store.dfy`, module `SettingsStore`). One record is
  changed by `saveSettings`, `updateSetting` and `resetToDefaults`.
- **The timer controls** (`timer_controllers.dfy`, module `TimerControllers`). These are
  the reset, play/pause and next-step buttons, the one-second lock-out of next-step, and
  the lofi player's decisions.
- **Two hooks.** The double-back-to-exit press counter is in `double_back_exit.dfy`.
  The single-slot debouncer is in `debounce.dfy`.

State that the app changes in place is a Dafny `class`: the two stores, the screen's
state, the controls' state and the hooks' refs. Each method's `ensures` clause gives the
new state in terms of the old one, and field-level `modifies` frames say what stays
the same. The ledger arithmetic, the week arithmetic, the scenario table and the
player decision tables are functions. Lemmas prove their properties. Timers are explicit
expiry events, and player and sound requests are returned as values.

The model follows the code as written:

- `startSession` overwrites an open session without logging it. It has no guard.
- Changing the steps mode pauses the timer and flips `pauseTrigger`. It does not
  reset `step`. After an eight-to-four switch, steps 5 to 8 name no phase, so the
  derived phase is `None`. The code does not fall back to `work`.
- `endSession` uses JavaScript truthiness in its guard. A session that started at
  timestamp 0 counts as not open.
- The settings record has no `stepsMode` field, and nothing in the code sets one. The
  mode is therefore a field of the screen's own state, with one of the two scenario
  keys as its value.

## Model

| member | source | states |
|---|---|---|
| StatisticsStore.DateOf | stores/statisticsStore.ts:64-66 | the date of a timestamp is the whole day that contains it (day d covers d·86400000 ≤ now < (d+1)·86400000) |
| StatisticsStore.Weekday | stores/statisticsStore.ts:70 | `getDay` numbering: always 0 (Sunday) to 6 |
| StatisticsStore.WeekStart | stores/statisticsStore.ts:68-73 | the result is a Monday in the six days up to d; a Sunday maps 6 days back; a Monday maps to itself |
| StatisticsStore.WeekStartUnique | stores/statisticsStore.ts:68-73 | no other day in the six days up to d is a Monday, so the week start is THE Monday on or before d |
| StatisticsStore.SameWeek | stores/statisticsStore.ts:68-73 | every one of the 7 days from a week start has that same week start: weeks partition the calendar |
| StatisticsStore.WeekStartShift | stores/statisticsStore.ts:145-148 | moving a day by k weeks moves its week start by exactly k weeks |
| StatisticsStore.TargetWeekStart | stores/statisticsStore.ts:145-148 | the target week start of `getWeeklyData` is a Monday, exactly `weekOffset` weeks from this week's, and for offset 0 its week contains today |
| StatisticsStore.GetWeekDates | stores/statisticsStore.ts:75-83 | the loop yields exactly 7 dates, `weekStart + i` at position i |
| StatisticsStore.DailyStats.AddTo | stores/statisticsStore.ts:133-139 | the record gains m minutes in phase p; its date and its other two phases are unchanged |
| StatisticsStore.Zero | stores/statisticsStore.ts:126-131 | the fallback record of a date carries that date and zero minutes in every phase |
| StatisticsStore.Lookup | stores/statisticsStore.ts:126-131 | `dailyStats[date] \|\| {date, 0, 0, 0}`: the stored record when there is one, otherwise a record of that date with zero minutes; in a ledger keyed by date the result always carries the asked date |
| StatisticsStore.SessionOpen | stores/statisticsStore.ts:112 | the `currentSessionStart && currentPhase` guard: open needs both fields set, a start of 0 is falsy and never open, and any other start with a phase is open |
| StatisticsStore.SumDays | stores/statisticsStore.ts:195-199 | the `forEach` sum of one phase over a list of records; it is non-negative when every record's minutes are, and 0 over records with no minutes |
| StatisticsStore.Logged | stores/statisticsStore.ts:122-143 | `logTime` raises `dailyStats[d][p]` by exactly m and leaves the other phases of d and every other date unchanged. It adds only d as a key, creates d's record with date d when it is missing, and keeps records keyed by their own date |
| StatisticsStore.LoggedAdditive | stores/statisticsStore.ts:122-143 | logging a then b minutes to the same date and phase equals logging a + b |
| StatisticsStore.LoggedCommutes | stores/statisticsStore.ts:122-143 | two `logTime` updates give the same ledger in either order |
| StatisticsStore.TotalAfterLog | stores/statisticsStore.ts:122-143 | after `logTime`, the ledger-wide total of the logged phase is m higher and the other phases' totals are unchanged |
| StatisticsStore.ElapsedMinutes | stores/statisticsStore.ts:113 | the floor of elapsed minutes: m·60000 ≤ now − start < (m+1)·60000. It is negative when `now` is before the start and non-negative otherwise |
| StatisticsStore.Totals.Add | stores/statisticsStore.ts:182-186 | one `forEach` step adds the day's minutes to each phase's running total |
| StatisticsStore.TotalRemove | stores/statisticsStore.ts:178-189 | the sum over all records does not depend on the order in which they are taken |
| StatisticsStore.RecordsFrom | stores/statisticsStore.ts:150-160 | n records, the one for `start + i` at position i: the stored record or a zero-filled one |
| StatisticsStore.SumDaysWithin | stores/statisticsStore.ts:191-202 | summing the zero-filled records of a date range gives the same total as summing the stored records dated in that range |
| StatisticsStore.Statistics.constructor | stores/statisticsStore.ts:85-95 | initial state: 0 cycles, an empty ledger and no open session |
| StatisticsStore.Statistics.IncrementCycles | stores/statisticsStore.ts:97-101 | `totalCycles` rises by exactly 1; the frame leaves every other field unchanged |
| StatisticsStore.Statistics.StartSession | stores/statisticsStore.ts:103-108 | the slot becomes (now, phase) whatever it held before, and nothing is logged. The ledger and `totalCycles` are untouched |
| StatisticsStore.Statistics.LogTime | stores/statisticsStore.ts:122-143 | the ledger becomes `Logged(old ledger, phase, minutes, date)`; an absent date means the date of `now` |
| StatisticsStore.Statistics.EndSession | stores/statisticsStore.ts:110-120 | with an open session, logs floor((now − start)/60000) minutes to the session's phase on the date of `now`. Without one, the ledger is unchanged. Both session fields are cleared either way |
| StatisticsStore.EndSessionTwice | stores/statisticsStore.ts:110-120 | two `endSession` calls in a row log the session once |
| StatisticsStore.Statistics.ResetStatistics | stores/statisticsStore.ts:204-206 | back to 0 cycles, an empty ledger and no open session |
| StatisticsStore.Statistics.GetDailyData | stores/statisticsStore.ts:168-176 | returns the stored record for the date, or a record of that date with zero minutes in every phase |
| StatisticsStore.Statistics.GetWeeklyData | stores/statisticsStore.ts:145-166 | 7 records with `days[i].date = weekStart + i`, each stored or zero-filled. `weekStart` equals `days[0].date` and is every day's week start. The method changes no state |
| StatisticsStore.Statistics.GetTotalTimeByPhase | stores/statisticsStore.ts:178-189 | each phase's total is the sum of that phase over every stored record |
| StatisticsStore.Statistics.GetWeeklyTimeByPhase | stores/statisticsStore.ts:191-202 | each phase's total is the sum over the stored records dated in the target week |
| SettingsStore.Get | stores/settingsStore.ts:21-29 | reading a key gives a value of that key's field type |
| SettingsStore.SameFieldsSameSettings | stores/settingsStore.ts:21-29 | a settings record is determined by its seven fields |
| SettingsStore.With | stores/settingsStore.ts:59-66 | `{...settings, [key]: value}` sets field k to v and leaves every other field unchanged |
| SettingsStore.WithCurrentValue | stores/settingsStore.ts:59-66 | writing back a field's current value changes nothing |
| SettingsStore.WithCommutes | stores/settingsStore.ts:59-66 | updates of two different fields commute |
| SettingsStore.WithOverrides | stores/settingsStore.ts:59-66 | a later update of a field overrides an earlier one |
| SettingsStore.Store.constructor | stores/settingsStore.ts:51 | the store starts from the defaults: Light, Off, System, Manual, 1500/300/900 s |
| SettingsStore.Store.SaveSettings | stores/settingsStore.ts:54-56 | the stored settings become exactly the given record |
| SettingsStore.Store.UpdateSetting | stores/settingsStore.ts:59-66 | field `key` becomes `value` and every other field keeps its value |
| SettingsStore.Store.ResetToDefaults | stores/settingsStore.ts:68-70 | the result is the defaults from any prior state, so a second reset changes nothing |
| HomeScreen.Scenario | app/index.tsx:20-23 | '4 steps' has 4 entries and '8 steps' has 8. Each starts with work and ends with the long break, with work and short breaks alternating between. The long break occurs only in the last step |
| HomeScreen.PhaseAt | app/index.tsx:34 | the phase `scenario[mode][step-1]` is defined exactly when 1 ≤ step ≤ N |
| HomeScreen.ShrinkLeavesNoPhase | app/index.tsx:34 | steps 5 to 8 have a phase in the eight-step scenario and none in the four-step one |
| HomeScreen.Next | app/index.tsx:41-47 | the next step is step + 1 below N, and 1 at or past N. From a step in [0, N) the result is in [1, N] |
| HomeScreen.LongBreakEndsCycle | app/index.tsx:41-47 | the long break is step N, and the step after it is work |
| HomeScreen.AdvanceClimbs | app/index.tsx:41-47 | below the last step, j advances move up by exactly j: no step is skipped |
| HomeScreen.AdvanceFullCycle | app/index.tsx:41-47 | N consecutive advances from any step in [1, N] return to that step |
| HomeScreen.FullCycle | app/index.tsx:41-47 | running the handler N times leaves step and phase as they were |
| HomeScreen.ThemeFor | app/index.tsx:54-61 | an absent theme leaves the theme unchanged. 'System' gives the device scheme, or light if there is none. 'Light' and 'Dark' give their own scheme |
| HomeScreen.Home.constructor | app/index.tsx:27-29 | initial state: step = 1, isPaused = true, pauseTrigger = false; the theme store starts light |
| HomeScreen.Home.Phaze | app/index.tsx:34 | the screen's phase is defined exactly when its step lies inside the current scenario |
| HomeScreen.Home.Mount | app/index.tsx:36-39 | on first render the steps-mode effect pauses the timer and flips `pauseTrigger`, and the theme effect sets the theme |
| HomeScreen.Home.StepChange | app/index.tsx:41-52 | the step becomes `Next(step, N)`, within [1, N] from any non-negative step. The click sound is requested exactly when sound is 'On' |
| HomeScreen.Home.ChangeStepsMode | app/index.tsx:36-39 | a real mode change sets isPaused and flips pauseTrigger, and the step is left unchanged. A change to the same mode does nothing |
| HomeScreen.Home.ApplyTheme | app/index.tsx:54-61 | the theme becomes `ThemeFor(setting, device scheme, old theme)` |
| TimerControllers.OnPausedChange | components/pages/main/TimerControllers.tsx:33-48 | with lofi off, no command. Play is issued exactly on unpause when the music has not started or is not playing. Pause is issued exactly on pause while playing. The music is marked started exactly on the first unpause |
| TimerControllers.LofiFollowsTimer | components/pages/main/TimerControllers.tsx:33-48 | with lofi on, after the commands the player is playing exactly when the timer is unpaused |
| TimerControllers.OnTrackFinished | components/pages/main/TimerControllers.tsx:50-56 | with lofi on, a finished track is rewound to 0 and played; otherwise no command |
| TimerControllers.FinishedTrackLoops | components/pages/main/TimerControllers.tsx:50-56 | with lofi on, the player is playing after a finished track is handled |
| TimerControllers.OnLofiChanged | components/pages/main/TimerControllers.tsx:58-62 | switching lofi off pauses the player; switching it on issues nothing |
| TimerControllers.Controllers.constructor | components/pages/main/TimerControllers.tsx:28-30 | the button starts enabled and the music has not started |
| TimerControllers.Controllers.PressReset | components/pages/main/TimerControllers.tsx:75 | flips `pauseTrigger` and nothing else |
| TimerControllers.Controllers.PressPlayPause | components/pages/main/TimerControllers.tsx:96 | flips `isPaused` and nothing else |
| TimerControllers.Controllers.PressNextStep | components/pages/main/TimerControllers.tsx:64-71 | while disabled, a press is ignored. Otherwise the step advances once and the button is disabled. Haptic feedback is requested exactly when sound is 'System' |
| TimerControllers.Controllers.DisableExpired | components/pages/main/TimerControllers.tsx:70 | the 1000 ms expiry re-enables the button |
| TimerControllers.Controllers.PausedChanged | components/pages/main/TimerControllers.tsx:33-48 | issues `OnPausedChange`'s commands and requests haptics exactly when sound is 'System'. `musicHasStarted` never returns to false |
| TimerControllers.DoublePressAdvancesOnce | components/pages/main/TimerControllers.tsx:122-123 | two presses with no expiry between them advance the step once |
| DoubleBackExit.BackPressHandler.constructor | hooks/useDoubleBackExit.ts:5-7 | the message is the one given, or "Press back again to exit" when none is; the count starts at 0 with no timer armed |
| DoubleBackExit.BackPressHandler.Press | hooks/useDoubleBackExit.ts:9-24 | each press raises the count by exactly 1. At 1 it shows the message and arms the timer. At 2 it clears the timer and exits. Above 2 it does nothing. A timer is armed exactly when the count is 1 |
| DoubleBackExit.BackPressHandler.TimerExpired | hooks/useDoubleBackExit.ts:15-17 | expiry of the armed timer resets the count to 0; with no timer armed, nothing happens |
| DoubleBackExit.BackPressHandler.Unmount | hooks/useDoubleBackExit.ts:26-32 | unmount clears any armed timer |
| DoubleBackExit.SecondPressExits | hooks/useDoubleBackExit.ts:12-22 | the first press only shows the message, and the second requests exit |
| DoubleBackExit.PressAfterExpiryStartsOver | hooks/useDoubleBackExit.ts:15-17 | after the timer fires, the next press behaves as a first press |
| DoubleBackExit.NoResetAfterUnmount | hooks/useDoubleBackExit.ts:26-32 | after unmount, no reset happens |
| Debounce.Debouncer.constructor | hooks/useDebounce.ts:9 | nothing is pending at first |
| Debounce.Debouncer.Call | hooks/useDebounce.ts:11-19 | the single pending slot now holds this call's arguments, replacing any earlier ones |
| Debounce.Debouncer.TimerExpired | hooks/useDebounce.ts:16-18 | expiry runs the callback once with the pending arguments and empties the slot |
| Debounce.Debouncer.Unmount | hooks/useDebounce.ts:21-27 | unmount cancels the pending invocation |
| Debounce.LatestCallWins | hooks/useDebounce.ts:11-19 | after two calls, only the later call's arguments reach the callback, and only once |
| Debounce.UnmountCancels | hooks/useDebounce.ts:21-27 | a call followed by unmount never reaches the callback |

## Left out

- Persistence is left out. This covers the MMKV storage adapters, zustand's `persist`
  middleware and JSON serialisation of both stores. It is foreign I/O.
- The wall clock and the calendar library are not read. `now` is a parameter, and days
  are integers with `Weekday(d) = (d + 4) mod 7`. `getDateString` takes the UTC date,
  while `getWeekStart` and `getWeekDates` use the local weekday and local date
  arithmetic. The model uses one calendar for both, so it does not capture the
  time-zone mismatch.
- JavaScript numbers are doubles. Timestamps, minutes, durations and week offsets are
  unbounded integers here, and a fractional `weekOffset` is not modelled.
- Audio, haptics and the toast and exit calls have no model. Player commands, the click
  sound, haptic feedback, the toast message and the exit request are returned values.
  `useLofiPlayer` and the player status (`playing`, `didJustFinish`) are inputs.
- Timers carry no durations. The 1000 ms lock-out, the double-back `timeout` (2000 ms by
  default) and the debounce `delay` are expiry events. The lock-out timeout is not
  cancelled on unmount, and the model does not represent unmounting of the controls.
- Debounce.Debouncer: the callback identity is not modelled. The hook recreates
  `debouncedCallback` when `callback` or `delay` change, and a pending timeout keeps
  the callback it captured. The model keeps only the arguments.
- DoubleBackExit.BackPressHandler: the registration with the back-button handler and
  the handler's return value are not modelled.
- There is no countdown clock. `components/pages/main/CountdownTime.tsx` renders a
  fixed "00". The shown code has no elapsed-time, pause-accumulation or "finished"
  logic, and does not call `incrementCycles`, `startSession` or `endSession`.
- Presentation is left out: layout, styling classes, `console.log`, the settings
  screen's widgets, the statistics charts and the segment and tab controls. The
  settings screen's handlers call `updateSetting`, which is modelled. Two of them
  also make an audio or haptic call (`handleLofiChange` pauses the lofi player when
  lofi is 'Off', `handleSoundChange` fires a haptic when sound is 'System',
  components/pages/main/Settings.tsx:46-60); those calls are out of scope.
- HomeScreen.PhaseAt / HomeScreen.Home: the TypeError of a missing steps mode is not
  represented. `defaultSettings` (stores/settingsStore.ts:31-39) has no `stepsMode`, so
  `scenario[settingsObj.stepsMode]` is `undefined` and indexing it (app/index.tsx:34,
  42, 68-70, 78) throws on the first render. The model's `StepsMode` has only the two
  scenario keys, so it describes the screen only once a valid mode is present.
- The theme store is a single setter. It is the `theme` field of the screen's state.
- StatisticsStore.Statistics.GetTotalTimeByPhase takes the records in an arbitrary key
  order, not in `Object.values` order. StatisticsStore.TotalRemove proves that the
  order does not change the sums.
