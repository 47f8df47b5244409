# Speedcubing timer engine, modelled in Dafny

This project models the engine of a browser speedcubing timer. It covers four parts:

- the scramble generator, which draws face turns from an 18-move vocabulary and never turns the same face twice in a row;
- the stopwatch hook (`useTimer`), with start, stop, reset, resume from the accumulated time, and periodic sampling;
- the dashboard's hold-to-ready controller: a press must last 500 ms before a release starts a solve, and a release during a solve stops it, records the time and replaces the scramble;
- the dashboard's pure display rules: the recent-times list, the two-decimal seconds text, and the stat cards that show `--`.

Each part that updates state in place is a class (`Timer.Stopwatch`, `Dashboard.HoldController`). Each method is proved equal to a pure transition function on a state datatype (`Timer.WatchState`, `Dashboard.ControllerState`). The properties are lemmas about those functions. Every method also keeps an object invariant (`Timer.Inv`, `Dashboard.HoldInv`).

Conventions of the model:

- Instants are integer milliseconds passed in by the caller. The clock never goes backwards: the stopwatch and the controller each record the latest instant they were handed in a ghost `clock` field, and every method that takes an instant requires it to be no earlier than that.
- Displayed and recorded times are integer centiseconds. A sample rounds elapsed milliseconds to the nearest centisecond, halves upwards (`Timer.Centis`).
- The random source is a finite sequence of draws, each an index in `[0, 18)`.
- Interval timers become explicit tick methods: `Stopwatch.Tick`, `HoldController.PollTick` and `HoldController.SampleTick`.
- The hold poll is two flags. `holdInterval` says whether its handle is kept. `polling` says whether it is still scheduled. A poll that arms the timer cancels itself, but its handle is cleared only at the next release.
- The backend log call is a ghost sequence of emitted `SolveRecord`s.

Files:

- `options.dfy` holds module `Options`.
- `scramble.dfy` holds module `Scramble`.
- `timer.dfy` holds module `Timer` (from `app/hooks/useTimer.js`).
- `display.dfy` holds module `Display`.
- `dashboard.dfy` holds module `Dashboard`.

`Scramble`, `Display` and `Dashboard` all come from `app/dashboard/page.js`.

The page computes no statistic of its own. All four stat values (best, worst, average of 5, average of 12) come from the backend summary, which the user hook fetches and stores unchanged (app/hooks/useUser.js:15-25). The page only displays them (`Display.Statistics`).

## Model

| member | source | states |
|---|---|---|
| Scramble.VocabularyIsTokens | app/dashboard/page.js:9-13 | the vocabulary has 18 entries, and entry i is the token of the move at index i (face i/3, turn i%3) |
| Scramble.IndexRoundTrip | app/dashboard/page.js:9-13 | vocabulary indices and moves are in one-to-one correspondence |
| Scramble.TokenInVocabulary | app/dashboard/page.js:23-24 | every move's token is one of the 18 vocabulary strings, and its first character is the move's face letter |
| Scramble.FaceLetterInjective | app/dashboard/page.js:24 | two face letters are equal exactly when the faces are, so the `move[0] === lastFace` test compares faces |
| Scramble.GeneratedWellFormed | app/dashboard/page.js:20-28 | for every draw sequence, a generated scramble has exactly the requested length, no two consecutive moves share a face, and the first move differs from the previous face |
| Scramble.GenerateScramble | app/dashboard/page.js:16-30 | the for loop with its inner redraw loop yields exactly the reference `Generate(draws, length)`, and so `length` moves with no face repeated in a row, each token in the vocabulary; it yields None only when the draws run out |
| Scramble.ParseJoin | app/dashboard/page.js:29 | the space-joined scramble text reads back to the same moves |
| Timer.CentisMonotone | app/hooks/useTimer.js:13-14 | rounding elapsed ms to centiseconds is monotone |
| Timer.CentisNearest | app/hooks/useTimer.js:14 | the sampled centiseconds are within half a centisecond of the elapsed ms |
| Timer.CentisOfWhole | app/hooks/useTimer.js:23 | a time banked as `time * 1000` ms reads back as the same centiseconds |
| Timer.InitialInv | app/hooks/useTimer.js:4-7 | the initial stopwatch (time 0, not running, no interval, nothing accumulated) satisfies the invariant |
| Timer.StartKeepsInv | app/hooks/useTimer.js:9-17 | start is a no-op when running; otherwise it sets running, schedules sampling and measures from `now − accumulated`, keeping the invariant "interval active ⇔ running" |
| Timer.SampleKeepsInv | app/hooks/useTimer.js:12-15 | a sample at a later instant shows the rounded `now − startTime`, is never below the previous display while running, and changes nothing when no interval is scheduled |
| Timer.StopKeepsInv | app/hooks/useTimer.js:19-25 | stop is a no-op when stopped; stop leaves the watch stopped with no interval, the display unchanged and the accumulated ms equal to ten times the display |
| Timer.ResetClears | app/hooks/useTimer.js:27-35 | from any state whatever, reset yields time 0, not running, no interval and nothing accumulated |
| Timer.ToggleFlips | app/hooks/useTimer.js:45-51 | toggleTimer flips `running` and keeps the invariant |
| Timer.ResetAndStartRule | app/hooks/useTimer.js:37-43 | resetAndStart(true) runs from 0 measuring from now, and resetAndStart(false) equals reset |
| Timer.ResumeNotBehind | app/hooks/useTimer.js:11-23 | a stop and then a start without a reset resumes, so any later sample shows at least the time the watch stopped at |
| Timer.ElapsedSinceFreshStart | app/hooks/useTimer.js:11-14 | after a reset and a start at `begin`, a sample at `now` shows `now − begin` to within half a centisecond |
| Timer.Stopwatch.constructor | app/hooks/useTimer.js:4-7 | creates a valid watch in the initial state |
| Timer.Stopwatch.Start | app/hooks/useTimer.js:9-17 | the new state is `old.Start(now)`, and the invariant is kept |
| Timer.Stopwatch.Stop | app/hooks/useTimer.js:19-25 | the new state is `old.Stop()`, and the invariant is kept |
| Timer.Stopwatch.Reset | app/hooks/useTimer.js:27-35 | needs no precondition; the new state is `old.Reset()`, and the watch is valid afterwards |
| Timer.Stopwatch.ResetAndStart | app/hooks/useTimer.js:37-43 | the reset followed by an optional start equals `old.ResetAndStart(autoStart, now)` |
| Timer.Stopwatch.ToggleTimer | app/hooks/useTimer.js:45-51 | the new state is `old.Toggle(now)`, and `running` is flipped |
| Timer.Stopwatch.Tick | app/hooks/useTimer.js:12-15 | the new state is `old.Sample(now)`, and the display never decreases while running |
| Display.RecentTimes | app/dashboard/page.js:85-101 | the placeholder shows exactly when there are no times; otherwise there are min(10, n) rows, and row i holds `times[n−1−i]` labelled `n − i` |
| Display.RecentLabels | app/dashboard/page.js:92-94 | the first row is the latest time, labelled n, and labels then fall by one, staying at least 1 |
| Display.NatTextRoundTrip | app/dashboard/page.js:35 | the decimal digits of the whole seconds read back to the number |
| Display.SecondsTextRoundTrip | app/dashboard/page.js:33-37 | the two-decimal seconds text of a time reads back to the same centiseconds |
| Display.StatTextRule | app/dashboard/page.js:65-71 | a stat card shows `--` exactly when its value is not > 0; otherwise it shows the seconds text followed by `s` |
| Display.StatisticsDashes | app/dashboard/page.js:59-82 | four cards; with no summary all show `--`, and otherwise card k shows `--` exactly when its field is missing or not positive |
| Dashboard.StatusNamesPhase | app/dashboard/page.js:220-250 | the status label and the green background name the controller's phase, and a hold not yet armed reads as "HOLD TO GET READY" |
| Dashboard.InitialHoldInv | app/dashboard/page.js:107-114 | the initial controller is idle and satisfies the hold invariant |
| Dashboard.BeginHoldWhileRunning | app/dashboard/page.js:122 | a press during a solve changes nothing |
| Dashboard.BeginHoldIdempotent | app/dashboard/page.js:124-138 | two presses in a row have the same effect as the first one alone |
| Dashboard.BeginHoldFromIdle | app/dashboard/page.js:124-128 | a press when idle starts a hold at now, schedules the poll, clears ready, and leaves times, scramble and watch alone |
| Dashboard.BeginHoldKeepsInv | app/dashboard/page.js:121-139 | a press keeps the hold invariant and is a no-op unless idle |
| Dashboard.PollTickRule | app/dashboard/page.js:129-137 | a poll tick sets ready and cancels itself exactly when it finds a hold lasting at least 500 ms; otherwise nothing changes |
| Dashboard.PollTicksKeepInv | app/dashboard/page.js:129-137 | any series of poll ticks keeps the invariant, touches only ready and the poll, and never disarms |
| Dashboard.EarlyPollsNeverArm | app/dashboard/page.js:130-135 | poll ticks that all come before 500 ms of holding leave an unarmed state unchanged |
| Dashboard.EndHoldAfterSolve | app/dashboard/page.js:147-159 | a release during a solve stops the watch with its display unchanged, appends exactly that display to times and to the log (the record carries the old scramble), replaces the scramble and goes idle, with holding and ready both false |
| Dashboard.EndHoldTooEarly | app/dashboard/page.js:141-165 | a release neither running nor armed records nothing, leaves the watch untouched and ends the hold |
| Dashboard.EndHoldWhenReady | app/dashboard/page.js:167-170 | a release when armed resets the watch and starts it (time 0, nothing accumulated, measured from now), leaves times alone and clears holding and ready |
| Dashboard.EndHoldPhase | app/dashboard/page.js:141-171 | a release keeps the invariant and goes to Running exactly from Ready, and otherwise to Idle |
| Dashboard.ShortHoldNeverStarts | app/dashboard/page.js:121-171 | press, poll ticks all before 500 ms, release: nothing is started or recorded |
| Dashboard.ReleasedTooSoon | app/dashboard/page.js:121-165 | with instants in order, a press, polls between press and release, and a release less than 500 ms after the press start nothing and record nothing |
| Dashboard.LongHoldStarts | app/dashboard/page.js:121-170 | press, any poll ticks, one tick at 500 ms or later, release: a solve runs from 0, measured from the release |
| Dashboard.ClearTimesRule | app/dashboard/page.js:279 | "Clear All Times" empties the list, so the recent view shows its placeholder; nothing else changes |
| Dashboard.NewScrambleRule | app/dashboard/page.js:117-119 | a new scramble (on mount and from the New button) has 20 moves with no face repeated in a row; nothing else changes |
| Dashboard.SampleTickRule | app/hooks/useTimer.js:12-15 | a stopwatch sample changes only the watch's display, and never lowers it during a solve |
| Dashboard.SolveScenario | app/dashboard/page.js:121-171 | hold 600 ms from idle, release, solve 3.47 s, press and release: times is [347], listed as row #1 with 3.47 s, and the stat text reads "3.47s" |
| Dashboard.HoldController.constructor | app/dashboard/page.js:107-114 | creates a valid, idle controller with an empty scramble and a fresh stopwatch |
| Dashboard.HoldController.BeginHold | app/dashboard/page.js:121-139 | needs an instant no earlier than the last one; the new state is `old.BeginHold(now)`, and the invariant is kept |
| Dashboard.HoldController.PollTick | app/dashboard/page.js:129-137 | needs an instant no earlier than the last one; the new state is `old.PollTick(now)`, and the invariant is kept |
| Dashboard.HoldController.EndHold | app/dashboard/page.js:141-171 | needs an instant no earlier than the last one; the new state is `old.EndHold(now, generated scramble)`, and the invariant is kept; the generator runs only on the solve-completion branch, and the replacement scramble has 20 moves with no face repeated in a row |
| Dashboard.HoldController.ClearTimes | app/dashboard/page.js:279 | the new state is `old.ClearTimes()` |
| Dashboard.HoldController.NewScramble | app/dashboard/page.js:262 | the new state is `old.NewScramble(generated)`; the scramble has 20 moves with no face repeated in a row |
| Dashboard.HoldController.SampleTick | app/hooks/useTimer.js:12-15 | the new state is `old.SampleTick(now)` |
| Dashboard.SolveSession | app/dashboard/page.js:121-171 | the same solve, driven through the objects, records exactly [347] |

## Left out

- Scramble.GenerateScramble: the random source is a finite list of draws. When it runs out, the model returns None, where the source would keep drawing. The controller's methods that generate a scramble require enough draws for 20 moves.
- Floating-point display: `toFixed(2)` and `parseFloat` round through IEEE doubles. The model rounds integer milliseconds to centiseconds, halves upwards, and so can differ from the source on ties that the double format misrepresents.
- The 10 ms `setTimeout` before `start` in a ready release, and in `resetAndStart`: the model starts at once, at the release instant.
- React specifics: stale closures, asynchronous batching of `setState`, and the 50 ms and 10 ms interval periods themselves. Updates are immediate, and ticks come at whatever instants the caller chooses.
- Event wiring (space bar and touch handlers, `preventDefault`, listener registration, page.js:173-209) and all other JSX: these are UI plumbing.
- Interval cleanup on unmount (useTimer.js:53-60): the model has no component lifetime.
- The backend: login, signup, the stats fetch, the log POST, `localStorage` and `fetch` wrappers. These are I/O. The log call is modelled only as the ghost `emitted` sequence. Stat values, floats from the backend, appear as integer centiseconds.
- Best, worst and the averages: the backend computes them, so no property of them is stated.
- `holdStartTime` starts as null in the source. The model starts it at 0, a value never read before a press sets it.
