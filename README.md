# Plank Club, modelled in Dafny

Plank Club is a single-page exercise tracker (`app.js`, class `PlankClub`).
It keeps a log that maps each date to the durations, in seconds, of the planks
done that day. Planks are logged by hand or by a workout timer that runs a
number of planks with rests between them. From the log the page shows the
current and the longest streak of active days, how many planks fall into
each level (beginner, intermediate, advanced), a colour-coded progress grid,
and a text to share.

The model has seven modules:

- `Wrappers`: `Option` and `Result`.
- `Text`: decimal rendering of numbers (`String(n)`), two-digit padding
  (`padStart(2, '0')`) and string order (what `sort()` compares).
- `Dates`: the `YYYY-MM-DD` key builder and the proof that sorting keys as
  strings sorts them by date. Elsewhere dates are whole day numbers, so the
  day before `d` is `d - 1`.
- `LogStore`: the log as a `map<Day, seq<int>>`, with:
  - the legacy migration on load;
  - per-day totals;
  - validation of a manual entry;
  - the day count that the clear-stats prompt announces.
- `Stats`: the current streak, the longest streak, the per-plank category
  counts and the four daily tiers behind the grid colours and share emojis.
- `Share`: the share text: the header, a seven-day emoji row (oldest day
  first), an optional line about today, the streak/total line and the footer.
- `App`: class `PlankClub` with the fields of the page object. It covers:
  - manual logging and the timed-session commit, which change the log in place;
  - clearing the last N days;
  - the workout timer's state machine: idle, plank, rest and paused.

The timer is a state machine over the fields `timerState`,
`previousTimerState`, `currentPlank`, `completedPlanks`, `phaseStartTime`,
`timeRemaining` and `lastMetronomeSecond`. Wall-clock time is an integer
millisecond argument `now`. One firing of the one-second interval is the
method `Tick`. The class invariant `Valid` says:

- while a session runs, `1 <= currentPlank <= totalPlanks`;
- every finished plank is logged at the full plank duration;
- `completedPlanks` has `currentPlank - 1` entries during a plank and
  `currentPlank` during a rest;
- a paused timer remembers a running phase;
- the metronome cues (a ghost log) never repeat a value twice in a row and
  all lie in the last five seconds.

The behaviour of the code is kept as written:

- Resuming restarts the phase clock, so the remaining time frozen at pause
  is discarded.
- Timer settings are saved before they are checked.
- A 0 in an input becomes the default.
- The clear counts a date holding an empty list, while the prompt does not.
- `logTimedPlanks` empties `completedPlanks` before the results page reads it.

## Model

| member | source | states |
|---|---|---|
| `LogStore.Migrate` | app.js:79-84 | loading keeps exactly the stored dates; a number `n` becomes `[n]`, a list is kept unchanged |
| `LogStore.LoadAfterSave` | app.js:79-92 | saving writes only lists, and loading what was saved gives back the same log |
| `LogStore.MigrateIdempotent` | app.js:79-84 | migrating an already migrated log changes nothing |
| `LogStore.TotalSecondsAppend` | app.js:149-152 | the total of two lists joined is the sum of their totals |
| `LogStore.TotalSecondsCopies` | app.js:149-152 | `n` planks of `x` seconds total `n * x` |
| `LogStore.TotalSeconds` | app.js:149-152 | a day's total is the sum of its durations; durations that are not negative have a total that is not negative |
| `LogStore.PositiveTotalIsNonEmpty` | app.js:361 | a positive total implies a non-empty list, so the length test of the streak loop adds nothing |
| `LogStore.OrDefault` | app.js:263 | `parseInt(v) \|\| d` yields `d` exactly when the input is not a number, is 0, or is `d` itself; any other number is passed through unchanged |
| `LogStore.ValidateManual` | app.js:262-276 | the seconds are rejected exactly when missing or negative; the count (1 if missing or 0) is rejected exactly when outside [1, 99]; otherwise both are passed on |
| `LogStore.ManualLogEntry` | app.js:281-288 | the new entry for today is `count` planks longer and its total is `count * seconds` higher |
| `LogStore.PromptClearStats` | app.js:937-956 | a day count that is not a number or lies outside [1, 365] is an error; otherwise the result is the number of dates in the last `days` days holding a non-empty list |
| `LogStore.PromptAtMostCleared` | app.js:946-956 | the prompt's dates are a subset of the dates the clear deletes; the two counts agree exactly when no date in range holds an empty list |
| `LogStore.ClearedLog` | app.js:977-985 | after the clear, no date of the window remains, every other date keeps its list, and the log has as many dates fewer as reported |
| `Text.NatToStringValue` | app.js:98-100 | `String(n)` is a non-empty digit string that reads back as `n` |
| `Text.NatToStringInjective` | app.js:98-100 | different numbers render differently |
| `Text.PadStart2Value` | app.js:98-99 | below 100, the padded text has two digits and reads back as the number |
| `Text.DigitsOrder` | app.js:374 | for digit strings of equal length, string order is numeric order |
| `Text.LexTrichotomy` | app.js:374 | equal-length strings are equal or ordered one way, never both ways |
| `Text.LexLessAppend` | app.js:374 | comparing strings that start with equal-length blocks compares the blocks first and the rest only on a tie |
| `Dates.TwoDigitBlock` | app.js:98-99 | two padded fields compare and are equal as their numbers do |
| `Dates.MonthDayOrder` | app.js:98-100 | the `-MM-DD` parts compare as (month, day) pairs |
| `Dates.DateKey` | app.js:95-100 | the key is the year as written, a hyphen, the month and a hyphen, the day, both padded to two digits; `Dates.DateKeyOrder` proves its order |
| `Dates.DateKeyOrder` | app.js:95-100 | for four-digit years, the string order of two keys is the (year, month, day) order of their dates |
| `Dates.LastDays` | app.js:358-367 | `n` steps of the current-streak walk back from today visit exactly the days `today - n < d <= today` |
| `Dates.LastDaysCount` | app.js:358-367 | there are exactly `n` such days, so a streak of `n` needs `n` dates in the log |
| `Dates.SortedDays` | app.js:374 | the sorted keys are strictly increasing, as many as the keys, and hold exactly the keys |
| `Stats.CurrentStreak` | app.js:354-370 | the result `n` has all `n` days ending today active and the day before them inactive; it is 0 exactly when today is inactive; the walk ends within the log's size |
| `Stats.StreakFitsInLog` | app.js:358-367 | a walk over `n` dates that all have entries needs `n` dates in the log |
| `Stats.CurrentStreakUnique` | app.js:354-370 | the streak is determined: two values that both satisfy it are equal |
| `Stats.MaxStreak` | app.js:373-403 | no run of consecutive active days is longer than the result, some run is exactly that long, and the result is 0 exactly when no day is active |
| `Stats.ScanDate` | app.js:381-399 | one step of the scan keeps its invariant: the last active date, the run ending there, and the best run so far |
| `Stats.ScanStart` | app.js:377-379 | before any date is seen, no run is missed |
| `Stats.ScanInactive` | app.js:382-383 | an inactive date changes nothing the scan knows |
| `Stats.ScanActive` | app.js:383-398 | an active date the day after the last one extends the run; any other active date starts a run of 1; the longest is kept |
| `Stats.NoRunInEmptyLog` | app.js:375 | an empty log has no run |
| `Stats.ScanEnd` | app.js:400-402 | after all dates, the best run is the longest run in the log |
| `Stats.CategoryOf` | app.js:420-426 | a plank is beginner exactly below 30 s, intermediate exactly from 30 s to below 60 s, advanced exactly from 60 s on |
| `Stats.CountOfSnoc` | app.js:419-427 | one more plank adds 1 to its own level and 0 to the others |
| `Stats.CountOfAppend` | app.js:416-429 | level counts add up over concatenated lists |
| `Stats.CategoriesPartition` | app.js:419-427 | every plank is in exactly one level, so the three counts sum to the number of planks |
| `Stats.FlattenStep` | app.js:418 | each date adds its list length to the plank total, not 1 |
| `Stats.FlattenPrefix` | app.js:416-418 | visiting the next sorted date appends its durations |
| `Stats.CountLevels` | app.js:419-427 | the inner loop adds the level counts of one date's planks |
| `Stats.CountDate` | app.js:416-427 | one date's planks extend the running counts and the total |
| `Stats.CategoryCounts` | app.js:411-429 | the beginner (`< 30`), intermediate (`30 <= s < 60`) and advanced (`>= 60`) counts are those of every plank in the log; the total is the number of planks, and the three counts sum to it |
| `Stats.DayTier` | app.js:155-161 | a day is empty exactly when its total is 0; otherwise its tier is the level its total would have as a single plank, with the same exclusive thresholds |
| `Stats.BlockClass` | app.js:155-161 | a day's block is `block-empty` exactly when its total is 0 |
| `Stats.BlockEmoji` | app.js:164-170 | every day's emoji is a single code point (in JavaScript's UTF-16 `.length`, 2 for the three coloured shades and 1 for the white square) |
| `Stats.BlockSymbolsDistinguishTiers` | app.js:155-170 | two days get the same emoji, and the same CSS class, exactly when they are in the same tier |
| `Share.Grid` | app.js:453-458 | the row has one emoji per day of the range |
| `Share.GridAt` | app.js:453-458 | the `k`-th emoji of the row is the emoji of the `k`-th day |
| `Share.RowDay` | app.js:453-458 | one position of the row is the emoji of its day |
| `Share.AppendRow` | app.js:452-458 | the grid loop appends the row from six days ago up to today |
| `Share.RowFollowsHeader` | app.js:449-458 | the code points right after the header are the emoji row |
| `Share.ShareRowDay` | app.js:449-458 | right after the header, code point `k` holds the emoji of the day `6 - k` days before today: oldest first, today last |
| `Share.TodayLineShape` | app.js:476-479 | the "today" line appears exactly when today has at least one plank |
| `Share.CountTotalPlanks` | app.js:468-474 | the plank total is the number of planks in the log |
| `Share.ShareTotalIsCategorySum` | app.js:468-474 | the shared total equals the sum of the three level counts of the statistics panel |
| `Share.GenerateShareText` | app.js:440-485 | the text is the header, the row, the optional today line, the stats line and the footer, with a streak that is the current streak |
| `App.SessionError` | app.js:612-625 | the three range checks of `startTimer` in their order; `App.SessionErrorCases` states each case |
| `App.SessionErrorCases` | app.js:612-625 | the count is rejected exactly when outside [1, 10]; otherwise the duration exactly when outside [10, 600]; otherwise the rest exactly when outside [5, 180]; a session starts exactly when all three pass |
| `App.RemainingAt` | app.js:717-720 | the remaining time is never negative; it is 0 exactly when the whole phase has elapsed; otherwise it plus the whole elapsed seconds is the phase duration |
| `App.RemainingDuringSecond` | app.js:718-720 | throughout the `j`-th second of a phase, the remaining time is `duration - j` (or 0) |
| `App.RemainingMonotone` | app.js:717-720 | within a phase, the remaining time never goes up as the clock moves forward |
| `App.FormatTime` | app.js:766-768 | the display is whole minutes, a colon and the leftover seconds, each padded to two digits; `App.FormatTimeValue` proves it reads back |
| `App.FormatTimeValue` | app.js:766-768 | below 100 minutes, the display is `mm:ss` whose fields read back as the minutes and seconds (under 60) of the time |
| `App.PlankClub.constructor` | app.js:28-54 | the stored log is migrated (or empty), and the timer is idle with every counter at 0 |
| `App.PlankClub.LogPlank` | app.js:259-289 | invalid input leaves the log unchanged; otherwise today's list, created if absent, gains `count` copies of `seconds` at its end and no other date changes |
| `App.PlankClub.LogTimedPlanks` | app.js:798-818 | today's list gains the finished planks at its end, and the finished list is emptied |
| `App.PlankClub.ConfirmClearStats` | app.js:972-985 | every date of the last `days` days that has an entry, even an empty list, is deleted and counted |
| `App.PlankClub.StartTimer` | app.js:600-637 | the settings (defaults for missing or 0) are stored before the checks; a failed check leaves the timer idle and reports the first failing check; otherwise plank 1 starts now with the full duration and no finished planks |
| `App.PlankClub.BeginSession` | app.js:630-637 | valid settings start plank 1 now, with the full duration, no finished planks and no cues |
| `App.PlankClub.PauseTimer` | app.js:660-679 | pausing freezes the remaining time computed from the phase clock and remembers the phase; resuming returns to that phase and restarts the phase clock now, so the next tick counts from the full phase duration whatever was frozen; the invariant is kept |
| `App.PlankClub.Resume` | app.js:661-667 | resuming returns to the remembered phase, forgets it and restarts the phase clock: at the instant of resuming the remaining time computed from the clock is the full phase duration, while the frozen `timeRemaining` is left as it was |
| `App.PlankClub.Pause` | app.js:668-678 | pausing stores the remaining time, remembers the phase and stops the interval |
| `App.PlankClub.StopTimer` | app.js:681-713 | the timer goes idle; finished planks, if any, go to today's log, and the log is unchanged otherwise |
| `App.PlankClub.StopSession` | app.js:709-712 | stopping a session part-way logs exactly the planks finished so far, each at the full plank duration |
| `App.PlankClub.Metronome` | app.js:722-728 | a cue plays exactly when `0 < remaining <= 5` and the value differs from the last one announced, so the same value never plays twice in a row |
| `App.PlankClub.CountDown` | app.js:717-720 | the remaining time is recomputed from the phase clock and the full phase duration |
| `App.PlankClub.Tick` | app.js:715-763 | each tick recomputes the remaining time and fires the metronome rule. At 0: the last plank commits `totalPlanks` copies of the duration to today and goes idle; an earlier plank starts a rest; a rest starts the next plank. The invariant is kept |
| `App.PlankClub.EndPhase` | app.js:730-759 | when a phase's time is up, a plank ends (and with the last one, the session) or a rest ends |
| `App.PlankClub.EndPlank` | app.js:731-749 | a finished plank is recorded at the full duration with a beep; after the last plank the session is committed once and the timer is idle, otherwise a rest starts now |
| `App.PlankClub.FinishSession` | app.js:736-741 | the last plank commits every finished plank to today and stops the timer with an empty finished list |
| `App.PlankClub.StartRest` | app.js:743-749 | after a plank other than the last, the rest starts now with its full duration |
| `App.PlankClub.EndRest` | app.js:750-758 | after a rest, a beep plays and the next plank starts now with its full duration |

## Left out

- DOM rendering and event wiring: status texts, alerts, modals, the progress
  grid, views and buttons. Only the values they show are modelled.
- `localStorage` and JSON: the stored log arrives already parsed as a map
  of entries that are numbers or lists. Corrupt JSON, which makes
  `JSON.parse` throw at app.js:77, and stored values of any other shape are
  not modelled. The stored timer preferences are a field.
- Web Audio: a metronome tick is a value appended to the ghost list `cues`,
  and a phase-end beep increments the ghost counter `beeps`.
- Wake lock, visibility handling, clipboard and WhatsApp sharing. These are
  browser capabilities.
- `setInterval`: one firing of the interval is a call to `Tick`. While
  `ticking` is set the interval runs.
- The `await` between validation and initialisation in `startTimer` is left
  out. The start button stays visible until app.js:649, so a second click
  during the wake-lock request (app.js:628) runs `startTimer` again and both
  calls reach `runTimer` (app.js:657). `timerInterval` then holds only the
  later handle, and pause and stop (app.js:676, 682) clear only that one.
  The earlier interval keeps firing while paused or idle and overwrites
  `timeRemaining` (app.js:719-720). The model assumes a single live
  interval, the one `ticking` stands for.
- JavaScript `Date` arithmetic and time zones. Dates are day numbers and
  `today` is a parameter. The current streak and the clear loops build keys
  with `toISOString` (UTC) while the log uses local dates; that mismatch is
  not modelled.
- The ISO week number and week year in the share header are parameters.
- `Object.keys(...).sort()` and `Object.values(...)`: the dates are visited
  in ascending order. `Dates.DateKeyOrder` shows that string order is date
  order for four-digit years.
- Durations are integers. Fractional numbers are not modelled, and neither
  is any non-array value reaching `getTotalSeconds`.
- `pausedTime` (never read) and the start-time display string are left out.
- `showResultsPage` and `createResultsModal` are left out. They read
  `completedPlanks` after `logTimedPlanks` has emptied it, so the
  model's `completedPlanks == []` after a finished session is what they
  would show.
- `App.PlankClub.PauseTimer` requires a running or paused timer, and
  `App.PlankClub.StartTimer` an idle one. The page hides the pause button
  while idle and the start button once a session has started (see the
  `await` above for the window before that).
- `App.PlankClub.Tick` requires a plank or rest phase. With a single live
  interval (see the `await` above) that is so, because pause and stop clear
  it; a stray second interval would also fire while paused or idle, and that
  is not modelled.
- `App.PlankClub.Metronome` states only that the same value never plays
  twice in a row. A value can come back when the clock goes backwards (in
  a 10-second phase, ticks whose clock reads 6 s, 5 s and again 6 s into the
  phase announce 4, 5, 4) and after a resume restarts the phase clock.
  That each value plays at most once while the phase clock runs would need
  a clock that never goes back; `App.RemainingMonotone` proves the
  remaining time cannot rise then, but the sequence of cues is not proved
  to decrease.
- `Dates.DateKeyOrder` covers years with four digits, months and days below
  100. Other years are rendered with a different number of digits, and then
  string order is not date order.
- `App.FormatTimeValue` covers times under 100 minutes. Longer phases cannot
  be configured (at most 600 seconds).
- The `updateTimerDisplay` texts other than mm:ss ("Plank 2 of 3", status
  lines) are left out.
- `loadTimerPreferences` filling the input fields is left out. The stored
  preferences are an argument of the constructor.
