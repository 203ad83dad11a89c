# Pomodoro clock: a verified model of its timer, analytics and helpers

The application is a Pomodoro timer. Work sessions alternate with short
breaks, and a long break comes after a configurable number of sessions.
Every work session is reported to an analytics store. The store keeps a
history of finished sessions and derives charts from it: daily counts and
averages, the last ten durations, and the hour of day at which sessions end.
An older timer component, without long breaks, is still in the repository.
The small helpers around these are a key handler, chart label text and
thinning, and the light/dark theme choice.

The Dafny modules follow the source files:

- `TimerMachine` (src/context/TimerContext.tsx): the provider's state as a value. Each handler and effect is a function from the old state to the new one. The interval becomes an explicit `Tick`, and the completion effect becomes `ExpiryEffect`.
- `TimerContext`: the class `TimerProvider`, with the same state as fields. Each of its methods is proved to make exactly the change of the matching `TimerMachine` function and to keep the invariant. The class drives a `SessionStore`, so its start and stop calls land in a real store.
- `AnalyticsService` (src/services/analyticsService.ts): the `SessionStore` class holds the history, the open-session slot and the id counter. Beside it sit the aggregators. `GetDailyStats` and `GetSessionTimeDistribution` are the loops of the source, proved equal to the functions `DailyStatsOf` and `SessionTimeDistribution`.
- `AnalyticsData` (src/hooks/useAnalyticsData.tsx): the summary `fetchData` builds, and `formatDuration`.
- `LegacyApp` (src/App.js): the class `Timer` of the old component.
- `LineChart`, `KeyboardShortcuts`, `Theme` (src/styles/theme.ts) and `ThemeContext`: the pure helpers, plus the `ThemeProvider` class.
- `Js` and `Arith`: JavaScript's `Math.round`, `%`, `String(n)`, `toLowerCase` and `slice` over unbounded integers, and facts about division.

Timestamps are integers in milliseconds. The current time is a parameter
`now` of every operation that reads the clock. "Today" is a day number. The
UTC day key of a timestamp is `t / 86_400_000`. The local hour and the
locale date label are function parameters (`hourOf`, `dateLabel`).

The two timers treat length edits differently. `src/App.js:65-86` clamps
lengths to 1..60 and ignores edits while the timer runs. The setters of
`src/context/TimerContext.tsx:43-46` are raw React state setters: the
buttons pass `length ± 1` with no bound (`src/components/TimerLengthControl.tsx:23`),
and a session-length change resets even a running countdown. Each module
models its own file's behaviour.

## Model

| member | source | states |
|---|---|---|
| Js.Round | src/hooks/useAnalyticsData.tsx:45 | `Math.round(a / b)` for a positive divisor is the integer nearest to `a / b`, halves rounded up |
| Js.Rem | src/context/TimerContext.tsx:166 | `a % b` lies strictly between `-b` and `b`; it is the ordinary remainder for `a >= 0` and the negated remainder of `-a` for `a <= 0` |
| Js.NatToString | src/services/analyticsService.ts:200 | `String(n)` is non-empty decimal digits reading back as `n`, with no leading zero unless `n` is 0, and one character exactly when `n < 10` |
| Js.PadTwo | src/context/TimerContext.tsx:167-170 | the zero padding gives at least two digits reading back as `n`, exactly two below 100 |
| Js.IntToString | src/components/LineChart.tsx:60 | `String(n)` is the decimal digits of `n`, preceded by a minus sign exactly when `n` is negative |
| Js.Slice | src/services/analyticsService.ts:196 | `slice(start)` is a suffix; a negative start keeps the last `min(-start, n)` elements, a non-negative one drops the first `start` |
| Js.ToLowerCase | src/components/KeyboardShortcuts/KeyboardShortcuts.tsx:11 | lower-casing keeps the length and lower-cases each character |
| AnalyticsService.MaxId | src/services/analyticsService.ts:67-68 | the seed of the id counter is an id of the loaded history and no smaller than any of them |
| AnalyticsService.Load | src/services/analyticsService.ts:61-68 | at load the history is the stored one, nothing is open, and the store is consistent |
| AnalyticsService.AfterStart | src/services/analyticsService.ts:75-90 | `startSession` leaves the history alone and always leaves a session open, whose id it returns. With a session already open it changes nothing. Otherwise the new session starts at `now` with id counter+1, above every id in the history. The counter never decreases and consistency is kept |
| AnalyticsService.Close | src/services/analyticsService.ts:103-106 | the closed session keeps its id and start, ends at `now` and lasts `now - start` |
| AnalyticsService.AfterEnd | src/services/analyticsService.ts:97-122 | `endSession` with nothing open changes nothing. Otherwise the open session, closed at `now`, is appended after the unchanged history and the slot is cleared. The counter is unchanged and consistency is kept |
| AnalyticsService.StartSessionIdempotent | src/services/analyticsService.ts:76-81 | a second `startSession` while one is open returns the same id and changes nothing |
| AnalyticsService.FreshIdsExceedHistory | src/services/analyticsService.ts:84-89 | in a consistent store, the id `startSession` returns exceeds every id in the history |
| AnalyticsService.StartThenEndRecordsOne | src/services/analyticsService.ts:75-122 | start at `t1` then end at `t2` appends exactly one session, with id counter+1 and duration `t2 - t1` |
| AnalyticsService.SessionStore.constructor | src/services/analyticsService.ts:61-68 | the module's state after loading a history |
| AnalyticsService.SessionStore.StartSession | src/services/analyticsService.ts:75-90 | the new state and the id are those of `AfterStart` |
| AnalyticsService.SessionStore.EndSession | src/services/analyticsService.ts:97-122 | the new state is that of `AfterEnd` |
| AnalyticsService.SessionStore.GetSessionData | src/services/analyticsService.ts:128-130 | the result is the history, and the open session's id appears nowhere in it |
| AnalyticsService.Completed | src/services/analyticsService.ts:144 | the kept entries are exactly the history entries with a duration, and no more of them than the history holds |
| AnalyticsService.Ended | src/services/analyticsService.ts:251 | the kept entries are exactly the history entries with an end time, and no more of them than the history holds |
| AnalyticsService.CompletedDistributes | src/services/analyticsService.ts:144 | filtering a concatenation gives the concatenated filters, so the completed list keeps history order and multiplicity |
| AnalyticsService.EndedDistributes | src/services/analyticsService.ts:251 | the same for the ended list |
| AnalyticsService.FiltersOfOne | src/services/analyticsService.ts:144 | a single entry is kept by the duration filter exactly when it has a duration, and by the end-time filter exactly when it has an end time |
| AnalyticsService.EndSessionExtendsCompleted | src/services/analyticsService.ts:114 | ending a session adds it at the end of both the completed and the ended lists |
| AnalyticsService.TotalDurationAppend | src/hooks/useAnalyticsData.tsx:39-42 | the sum of durations over a concatenation is the sum of the two sums; the empty sum is 0 |
| AnalyticsService.DayOf | src/services/analyticsService.ts:135-137 | the day key of a timestamp is the UTC day that contains it |
| AnalyticsService.Average | src/services/analyticsService.ts:180-184 | with a positive count, the rounded quotient of total over count; otherwise 0 |
| AnalyticsService.DayBucket | src/services/analyticsService.ts:156-177 | a day's bucket counts and sums the completed sessions that started that day |
| AnalyticsService.BucketAverage | src/services/analyticsService.ts:180-184 | an empty day has total 0 and average 0; otherwise the average is the rounded total over the count |
| AnalyticsService.DailyStatsOf | src/services/analyticsService.ts:143-187 | with no completed session the result is empty. Otherwise there is one bucket per day of the window (none for `days <= 0`), oldest first, ending with `today` |
| AnalyticsService.DailyCountsCoverWindow | src/services/analyticsService.ts:168-177 | the daily counts add up to the number of completed sessions that started inside the window |
| AnalyticsService.GetDailyStats | src/services/analyticsService.ts:143-187 | the date list, map and loops compute exactly `DailyStatsOf` |
| AnalyticsService.DateList | src/services/analyticsService.ts:148-154 | the `days` dates ending with today, oldest first |
| AnalyticsService.CountByDate | src/services/analyticsService.ts:156-177 | one entry per window date, holding the count and total of the sessions started that day |
| AnalyticsService.AverageByDate | src/services/analyticsService.ts:179-186 | the buckets, in date order, with averages filled in |
| AnalyticsService.DailySessionCountChart | src/services/analyticsService.ts:210-224 | one label and one value per daily bucket, in order, the value being the count |
| AnalyticsService.DailyAverageDurationChart | src/services/analyticsService.ts:230-244 | one label and one value per daily bucket, in order, the value being the average |
| AnalyticsService.SessionDurationChart | src/services/analyticsService.ts:193-204 | labels and values have the same length, and the labels read "Session 1", "Session 2" and so on. The values are the durations of the last `min(limit, n)` completed sessions in history order, or of all of them when `limit` is 0 |
| AnalyticsService.HourLabels | src/services/analyticsService.ts:268 | 24 labels, "0:00" to "23:00" |
| AnalyticsService.SessionTimeDistribution | src/services/analyticsService.ts:250-271 | empty when no session has ended; otherwise 24 hour labels and 24 values, the value of each hour being that hour's count of ended sessions |
| AnalyticsService.HourCountIsSessionsInHour | src/services/analyticsService.ts:255-265 | an hour's count is the number of positions in the ended list whose end falls in that hour |
| AnalyticsService.DistributionCountsEverySession | src/services/analyticsService.ts:255-265 | the 24 hourly values add up to the number of ended sessions |
| AnalyticsService.GetSessionTimeDistribution | src/services/analyticsService.ts:250-271 | the loop over a 24-slot array computes exactly `SessionTimeDistribution` |
| AnalyticsData.FetchData | src/hooks/useAnalyticsData.tsx:36-77 | `completedSessions` is the duration filter of the history and `totalDuration` is the sum of their durations. The average is the rounded quotient, or 0 with no session. All four charts are empty exactly when nothing is completed. Otherwise they are the service's charts for limit 10, for 7 days and for the hourly distribution, with `min(10, n)` durations and 7 daily values |
| AnalyticsData.DurationParts | src/hooks/useAnalyticsData.tsx:90-91 | whole minutes and leftover whole seconds (below 60) that account for the duration to within one second |
| AnalyticsData.FormatDuration | src/hooks/useAnalyticsData.tsx:88-93 | "0 min" exactly for 0; otherwise "m min s sec" when there is a whole minute, else "s sec" |
| AnalyticsData.FormatDurationExamples | src/hooks/useAnalyticsData.tsx:88-93 | 0 gives "0 min", 90 500 gives "1 min 30 sec", 59 999 gives "59 sec" |
| TimerMachine.Initial | src/context/TimerContext.tsx:54-79 | each length and the threshold is the stored value or its default (25, 5, 15, 4), and the countdown is the session length times 60. The timer is stopped, in a work session, with both counters and the alarms at 0, and the invariant holds |
| TimerMachine.TimerControl | src/context/TimerContext.tsx:201-230 | start/stop flips the run state and never changes the countdown, the phase, the lengths, the cycle count or the alarms. In a work session a start calls `startSession`, and a stop calls `endSession` and adds 1 to `sessionCount`. In a break it makes no analytics call |
| TimerMachine.NextCycle | src/context/TimerContext.tsx:126-137 | a finished session earns a long break exactly when the cycle is complete, and the new cycle count stays below the threshold |
| TimerMachine.Expire | src/context/TimerContext.tsx:105-153 | on expiry the timer stops and one alarm sounds. The phase changes between work and break, and the countdown is the new phase's full length |
| TimerMachine.ExpiryEffect | src/context/TimerContext.tsx:105-106 | above zero nothing happens. At or below zero the timer stops, one alarm sounds, the other kind of phase starts at its full length, and the settings are kept |
| TimerMachine.Tick | src/context/TimerContext.tsx:204-209 | a tick above 1 lowers the countdown by exactly one and changes nothing else. The tick that reaches zero stops the timer, sounds the alarm and switches between work and break |
| TimerMachine.HandleReset | src/context/TimerContext.tsx:175-198 | reset restores the countdown 1500 and the lengths 5, 25, 15 and 4. The timer is stopped in a work session with both counters 0. It calls `endSession` exactly when the timer was running |
| TimerMachine.SwitchToBreak | src/context/TimerContext.tsx:233-242 | stops the timer and loads a full short break. Analytics, settings and counters are left alone |
| TimerMachine.SwitchToSession | src/context/TimerContext.tsx:245-254 | stops the timer and loads a full work session. Analytics, settings and counters are left alone |
| TimerMachine.SetSessionLength | src/context/TimerContext.tsx:156-161 | sets the session length. In a work session a new value resets the countdown, even while running; otherwise the countdown is kept. Nothing else changes |
| TimerMachine.SetBreakLength | src/context/TimerContext.tsx:43 | sets the break length and changes nothing else, the countdown included |
| TimerMachine.SetLongBreakLength | src/context/TimerContext.tsx:45 | sets the long-break length and changes nothing else |
| TimerMachine.SetSessionsBeforeLongBreak | src/context/TimerContext.tsx:46 | sets the threshold and changes nothing else |
| TimerMachine.Clockify | src/context/TimerContext.tsx:164-172 | for a non-negative countdown: at least two digits, a colon and two digits. The seconds are below 60 and minutes×60 + seconds is the countdown |
| TimerMachine.ClockifyExamples | src/context/TimerContext.tsx:164-172 | 1500 shows "25:00" and 299 shows "04:59" |
| TimerMachine.StepPreservesInv | src/context/TimerContext.tsx:105-254 | no operation breaks the invariant: non-negative counters, a consistent store, and a running work session always having an open analytics session |
| TimerMachine.StartStopRecordsOneSession | src/context/TimerContext.tsx:201-230 | start then stop in a work session leaves the countdown where it was, adds 1 to `sessionCount` and records exactly one session spanning the two presses |
| TimerMachine.SessionExpiry | src/context/TimerContext.tsx:105-137 | session expiry stops the timer, ends the analytics session and adds 1 to `sessionCount`. A complete cycle gives a long break of `longBreakLength`×60 with cycle 0; otherwise a short break of `breakLength`×60 with cycle+1. The cycle stays below a threshold of at least 1 |
| TimerMachine.BreakExpiry | src/context/TimerContext.tsx:138-143 | break expiry gives a stopped work session of `sessionLength`×60 and calls `startSession`. The cycle count and `sessionCount` are kept |
| TimerMachine.BreakExpiryThenStartReusesSession | src/context/TimerContext.tsx:142 | after a break expires, pressing start calls `startSession` again and changes nothing in the store. The open session is the one the expiry opened, timed from the expiry |
| TimerMachine.CountdownReachesExpiry | src/context/TimerContext.tsx:105-106 | a running countdown of `n` seconds expires exactly on its `n`-th tick |
| TimerMachine.FullSessionBecomesBreak | src/context/TimerContext.tsx:105-137 | a running work session ticked to its end becomes a stopped short break and leaves one closed session in the history |
| TimerMachine.RoundsCountModulo | src/context/TimerContext.tsx:126-137 | after `k` full rounds the cycle count is (start + k) mod the threshold |
| TimerMachine.LongBreakEveryNthSession | src/context/TimerContext.tsx:126-131 | the session after `k` rounds earns a long break exactly when start + k + 1 is a multiple of the threshold |
| TimerMachine.FourthSessionEarnsLongBreak | src/context/TimerContext.tsx:126-137 | with the default threshold 4, sessions one to three end in short breaks and the fourth in a long break |
| TimerContext.TimerProvider.constructor | src/context/TimerContext.tsx:54-79 | the provider starts in `TimerMachine.Initial` with the invariant established |
| TimerContext.TimerProvider.TimerControl | src/context/TimerContext.tsx:201-230 | the in-place start/stop makes exactly the change of `TimerMachine.TimerControl` and keeps the invariant |
| TimerContext.TimerProvider.ExpiryEffect | src/context/TimerContext.tsx:105-153 | the in-place completion effect makes exactly the change of `TimerMachine.ExpiryEffect` |
| TimerContext.TimerProvider.Tick | src/context/TimerContext.tsx:204-209 | decrement then completion effect, exactly `TimerMachine.Tick` |
| TimerContext.TimerProvider.HandleReset | src/context/TimerContext.tsx:175-198 | exactly `TimerMachine.HandleReset` |
| TimerContext.TimerProvider.SwitchToBreak | src/context/TimerContext.tsx:233-242 | exactly `TimerMachine.SwitchToBreak` |
| TimerContext.TimerProvider.SwitchToSession | src/context/TimerContext.tsx:245-254 | exactly `TimerMachine.SwitchToSession` |
| TimerContext.TimerProvider.SetSessionLength | src/context/TimerContext.tsx:156-161 | the setter plus the sync effect, exactly `TimerMachine.SetSessionLength` |
| TimerContext.TimerProvider.SetBreakLength | src/context/TimerContext.tsx:43 | only the break length changes |
| TimerContext.TimerProvider.SetLongBreakLength | src/context/TimerContext.tsx:45 | only the long-break length changes |
| TimerContext.TimerProvider.SetSessionsBeforeLongBreak | src/context/TimerContext.tsx:46 | only the threshold changes |
| LegacyApp.WarningColor | src/App.js:128-132 | blue exactly below 61 seconds |
| LegacyApp.IconFor | src/App.js:140-150 | the start button shows play exactly while stopped |
| LegacyApp.Clockify | src/App.js:152-158 | for a non-negative countdown, minutes and seconds (below 60) reading back as the countdown; five characters below 6000 |
| LegacyApp.ClockifyAgreesWithTimerContext | src/App.js:152-158 | for every non-negative countdown both timer variants show the same text |
| LegacyApp.Timer.constructor | src/App.js:38-49 | 1500, 5, 25, stopped, Session, white, play icon, no interval |
| LegacyApp.Timer.LengthControl | src/App.js:65-86 | no change while running or for an unknown sign. Otherwise the length moves by one unless at the bound (1 or 60). The countdown becomes the new length×60 exactly when the edited length is the current phase's. Lengths stay within 1..60 |
| LegacyApp.Timer.SetBrkLength | src/App.js:97-100 | edits the break length within 1..60. The countdown becomes the new length×60 only when the length changed in a stopped break, and is kept otherwise. The session length, run state, phase, interval, colour and icon are kept |
| LegacyApp.Timer.SetSeshLength | src/App.js:102-105 | edits the session length within 1..60. The countdown becomes the new length×60 only when the length changed in a stopped work session, and is kept otherwise. The break length, run state, phase, interval, colour and icon are kept |
| LegacyApp.Timer.BeginCountDown | src/App.js:88-95 | the interval is active and nothing else changes |
| LegacyApp.Timer.DecrementTimer | src/App.js:107-109 | the countdown drops by one and nothing else changes |
| LegacyApp.Timer.SwitchTimer | src/App.js:160-166 | the given countdown and phase, with a white display |
| LegacyApp.Timer.PhaseControl | src/App.js:111-126 | the buzzer sounds exactly at 0, and the colour follows `warning`. Only below zero does the phase change: a work session becomes a break of `breakLength`×60, a break becomes a session of `sessionLength`×60. The timer keeps running with the interval restarted |
| LegacyApp.Timer.Tick | src/App.js:88-95 | a tick from `t >= 1` shows `t - 1` and buzzes exactly when that is 0. The tick after 0 switches phase and stays running |
| LegacyApp.Timer.TimerControl | src/App.js:140-150 | flips running/stopped with matching icon and interval, keeping the countdown and the phase |
| LegacyApp.Timer.Reset | src/App.js:168-182 | 5, 25, 1500, stopped, Session, white, play icon, no interval |
| LegacyApp.TwoTicksFromOne | src/App.js:107-126 | from 1 second, two ticks buzz once and leave the timer running in the other phase at its full length |
| LineChart.FormatValue | src/components/LineChart.tsx:54-61 | from 60000 up: a number, the nearest whole minutes, then " min". From 1000 up: the nearest whole seconds (1 to 60), then " sec". Below 1000: the bare number |
| LineChart.FormatValueExamples | src/components/LineChart.tsx:54-61 | 59999 gives "60 sec", 90000 gives "2 min", 999 gives "999" |
| LineChart.SeqMin | src/components/LineChart.tsx:47 | `Math.min(...values)` is one of the values and no larger than any |
| LineChart.SeqMax | src/components/LineChart.tsx:48 | `Math.max(...values)` is one of the values and no smaller than any |
| LineChart.ScaleOf | src/components/LineChart.tsx:38-49 | no values means no scale. Otherwise min and max bound all values, the range is max − min or 1 when they are equal, and the max label shows exactly when the values are not all equal |
| LineChart.VisibleLabels | src/components/LineChart.tsx:116 | at most 7 labels fit; 7 exactly from 280 pixels, and below that the whole number of 40-pixel slots |
| LineChart.LabelShown | src/components/LineChart.tsx:116-119 | every label is drawn when all fit. Otherwise, with room for some, the labels at multiples of the ceiling step are drawn. With room for none only the first, and with a negative count larger than the labels none |
| LineChart.LabelThinning | src/components/LineChart.tsx:114-119 | label 0 is drawn whenever the visible count is not negative, every label is drawn when all fit, and never more labels are drawn than fit |
| LineChart.MultiplesBelowCount | src/components/LineChart.tsx:117 | the indices below `n` divisible by `k` number `ceil(n / k)` |
| LineChart.CeilOfCeil | src/components/LineChart.tsx:117 | spacing `len` labels `ceil(len / v)` apart draws at most `v` |
| KeyboardShortcuts.HandleKeyPress | src/components/KeyboardShortcuts/KeyboardShortcuts.tsx:10-26 | Space selects start/stop and is the only key whose default is prevented. "r"/"R" select reset, "b"/"B" break, "s"/"S" session, and every other key nothing |
| KeyboardShortcuts.CaseInsensitive | src/components/KeyboardShortcuts/KeyboardShortcuts.tsx:11 | a key and its lower-cased form do the same |
| KeyboardShortcuts.ApplyKey | src/components/KeyboardShortcuts/KeyboardShortcuts.tsx:11-25 | each key runs its timer handler on the timer state, and an unbound key leaves it unchanged |
| KeyboardShortcuts.BreakThenSessionKeys | src/components/KeyboardShortcuts/KeyboardShortcuts.tsx:19-24 | "b" then "s" gives a stopped work session of full length with analytics untouched |
| Theme.GetThemePreference | src/styles/theme.ts:36-53 | always "light" or "dark". A valid saved choice is returned as is. Without one, "dark" exactly when the query succeeds and prefers dark. A failed storage read gives "light" |
| Theme.SavedChoiceWins | src/styles/theme.ts:38-42 | with a valid saved choice the system preference is irrelevant, even when querying it fails |
| ThemeContext.ValidateTheme | src/context/ThemeContext.tsx:12-14 | always "light" or "dark"; those two unchanged, anything else "light" |
| ThemeContext.ValidateIdempotent | src/context/ThemeContext.tsx:12-14 | validating twice is validating once |
| ThemeContext.Toggled | src/context/ThemeContext.tsx:33-38 | the toggled theme is valid and differs from the validated previous one |
| ThemeContext.ToggleTwiceRestores | src/context/ThemeContext.tsx:33-38 | light↔dark, invalid → dark, and two toggles restore a valid theme |
| ThemeContext.ThemeProvider.constructor | src/context/ThemeContext.tsx:20-31 | the initial theme is the validated preference, and the attribute and storage hold it |
| ThemeContext.ThemeProvider.ApplyTheme | src/context/ThemeContext.tsx:26-31 | attribute and storage receive the validated theme |
| ThemeContext.ThemeProvider.ToggleTheme | src/context/ThemeContext.tsx:33-38 | the theme flips, and attribute and storage follow |
| ThemeContext.ToggleThenReload | src/context/ThemeContext.tsx:20-38 | a toggled theme is read back by the next mount whatever the system prefers |

## Left out

- Timer scheduling: `setInterval`, `clearInterval`, `accurateInterval`, the interval ref and React's effect ordering and batching are not modelled. One period of the interval is the explicit `Tick`. The completion effect is the explicit `ExpiryEffect`. The old component's interval handle is the flag `countdownActive`.
- TimerMachine.ExpiryEffect: the source re-runs the completion effect whenever one of its inputs changes while the countdown is at or below zero, which with a length of 0 or less makes phases follow each other at once. The model runs it once per `Tick` or explicit `Expiry` event; the cascade is a sequence of such events, not automatic.
- TimerMachine.SetSessionLength: the sync effect also fires when the phase becomes Session. Every such path already sets the countdown to `sessionLength`×60, so only a change of the session length is modelled.
- Persistence: `localStorage` reads and writes, JSON, and the date reviver are not modelled. The loaded history is a constructor argument, and a failed load is the empty history. The stored settings are `Option<int>`, with `parseInt` assumed to succeed (a `NaN` setting is not modelled). The writes of the settings are not modelled. The theme's storage is a field.
- Wall clock and locale: timestamps are integer milliseconds passed in as `now`. The UTC day key of `formatDate` is `t / 86_400_000`, and "today" is a day number. The local-date arithmetic of `getDailyStats` (`setDate`) is assumed to give consecutive, distinct days; a daylight-saving change can make two of its dates share a key, which is not modelled. `getHours` and `toLocaleDateString` are the parameters `hourOf` and `dateLabel`.
- A stored session whose end time the reviver turned into `null` is treated like one without an end time.
- Audio: `play`, `pause` and `currentTime` are not modelled. The new timer counts the alarms, and the old one returns whether a tick buzzed.
- Floating point: chart values are integers. The SVG geometry of the line chart (step, coordinates, path text, grid) and `CircularProgress` are not modelled. The chart width is the integer parameter `width`.
- Rendering and plumbing: the components that only render, `useResponsive`, the telemetry service, console logging, and the `useTimer`/`useTheme` guards that throw outside a provider are not modelled.
- `src/components/TimerLengthControl.tsx`: its `length ± 1` is the argument of the setters.
- `src/contexts/ThemeContext.tsx` is not part of this model; it repeats `src/context/ThemeContext.tsx`.
- `TimerMachine.ControlIcon` carries no contract: it selects the play icon exactly when stopped.
- Js.ToLowerCase: only the ASCII letters are lower-cased; other Unicode case mappings are not modelled.
- LegacyApp.Timer: the model assumes legacy synchronous rendering, where each `setState` in the interval callback takes effect at once. The application mounts with `ReactDOM.createRoot` (src/main.tsx:9), which batches those updates too, so `phaseControl` there reads the countdown from before the decrement. Under that batching the buzz and the colour lag one tick, the phase changes one tick late, and "0-1:59" shows for a second. That batched behaviour is not modelled. The `Clock` and the rest of its rendering are not modelled either.
- LegacyApp.Timer.LengthControl: requires `currentLength` to be the edited field's current value, which is what both of its callers pass.
