# Fretboard note trainer: a Dafny model

The trainer shows a target note name and asks the player to find it on a
guitar or bass fretboard. It has two parts, and this project models both.

**The pitch-class engine** (`constants.ts`, `services/musicLogic.ts`):
- Names are looked up in two twelve-entry spelling tables, one with sharps and
  one with flats.
- The note under a tapped (string, fret) position is `(open + fret) mod 12`,
  spelled from the chosen table.
- The position resolver lists every (string, fret) pair within the
  difficulty's fret bound that sounds the target.

**The session state machine** (`App.tsx`):
- Practice mode can reveal positions by hand or run an auto-play cycle.
  Auto-play reveals the answer after part of the interval and draws a new
  target at the end of it.
- A metronome counts beats 0..3 and accents beat 0.
- The 60-second challenge mode scores taps on the board.

## Modules

- `Constants` (constants.dfy) holds the tables, tunings, fret bounds and
  round length.
- `MusicLogic` (music_logic.dfy) holds the engine.
  - `getNoteIndex`, `getNoteAtPosition` and `getRandomNote` are functions.
  - `calculateNotePositions` is a method with the source's two nested loops.
    It is proved equal to the recursive specification `NotePositions`, and
    soundness, completeness, order and distinctness are proved about that
    specification.
- `SessionRules` (session_rules.dfy) holds the rules the handlers apply, as
  functions:
  - judging a tap;
  - drawing the next target with one redraw;
  - the auto-play show delay and the metronome period;
  - one metronome beat and one countdown second.
  Lemmas about runs of many ticks are proved here too.
- `App` (session.dfy) holds the class `Session`.
  - Its fields are the component's state hooks, plus the pending timers, the
    pending shake resets and a log of the sounds requested.
  - Each handler and each timer callback is a method.
  - A handler first makes its own state updates. A handler that changes an
    effect's dependency values then calls `Commit`, the render, which re-runs
    every timer effect whose dependency values changed, exactly as React
    compares them. `FireCountdown` changes only the countdown's values and
    runs only that effect. Handlers that change no dependency value make no
    `Commit` call, because no effect would re-run.
  - Time passes through `Elapse`. A timer that reaches zero fires through its
    `Fire…` method.
  - `Valid()` is the invariant every handler keeps: slider values in range,
    `0 <= timeLeft <= 60`, a round only in challenge mode, and every timer
    consistent with the values its effect last saw.

Randomness is a parameter. `first` and `second` stand for the indices
`Math.floor(Math.random() * 12)` would produce on the first draw and on the
redraw.

## Behaviours worth knowing

Both of these follow from the code as written and are proved as behaviour.
- **A correct answer never shows the green result.** A hit sets the result
  to `correct`, and `generateNewNote` then clears it in the same batch of
  state updates. The later write wins, so the committed state has no result.
  `App.Session.ApplyVerdict` ensures `lastResult == NoResult` after a hit.
- **Auto-play can stall.** When both draws spell the current target, the
  advance changes no dependency of the auto-play effect. The effect does not
  re-run, and no time-out is pending any more, although auto-play is still
  on. `App.Session.FireAdvance` ensures both timers are off in that case, and
  `SessionRules.RedrawCanRepeat` shows that such draws exist.

## Model

| member | source | states |
|---|---|---|
| Constants.TablesDistinct | constants.ts:3-4 | Each spelling table has exactly 12 entries, and no name occurs twice in either. |
| Constants.TablesAgreeOnNaturals | constants.ts:3-4 | The tables agree exactly at indices 0, 2, 4, 5, 7, 9, 11. At the other five, each table's accidental occurs nowhere in the other table. |
| Constants.TuningsWellFormed | constants.ts:8-16 | Guitar has 6 open strings and bass has 4, and every open-string name is in the sharp table. |
| Constants.MaxFret | constants.ts:18-26 | Beginner, intermediate and advanced allow frets up to 3, 12 and 15, and no tier exceeds the 15-fret board. |
| Constants.Scale | services/musicLogic.ts:23 | The preference selects the sharp or the flat table, which has 12 entries. |
| MusicLogic.IndexOfFinds | services/musicLogic.ts:5-6 | `indexOf` returns -1 exactly when the name is absent. Otherwise it returns an index holding the name, with no earlier occurrence. |
| MusicLogic.IndexFromFinds | services/musicLogic.ts:5-6 | The same, for a search starting at any index. |
| MusicLogic.JsRem | services/musicLogic.ts:31 | JavaScript `%`: the plain remainder for a non-negative dividend, and a value in (-n, 0] for a negative one. A dividend in (-n, 0) is its own remainder, so `-1 % 12 == -1`. |
| MusicLogic.JsRemValue | services/musicLogic.ts:53 | For any negative dividend, JavaScript's remainder is 0 when the division is exact, and otherwise Dafny's non-negative remainder minus n. |
| MusicLogic.GetNoteIndex | services/musicLogic.ts:4-8 | The result is -1 or a table index below 12. |
| MusicLogic.GetNoteIndexFinds | services/musicLogic.ts:4-8 | A name in the sharp table gets its sharp index. A name only in the flat table gets its flat index. The result is -1 exactly for a name in neither table. |
| MusicLogic.EnharmonicRoundTrip | services/musicLogic.ts:4-8 | Both spellings of pitch class p look up to p. |
| MusicLogic.ScaleRoundTrip | services/musicLogic.ts:4-8 | Entry p of the chosen table looks up to p. |
| MusicLogic.ScaleRoundTripAll | services/musicLogic.ts:4-8 | Every entry of the chosen table looks up to its own index. |
| MusicLogic.RandomNoteRoundTrip | services/musicLogic.ts:10-14 | A drawn name belongs to the chosen table and looks up to the drawn index. |
| MusicLogic.GetRandomNote | services/musicLogic.ts:10-14 | One draw returns entry `randomIndex` of the chosen table. `RandomNoteRoundTrip` states what that name is: a name of the table that looks up to the drawn index. |
| MusicLogic.PitchAtKnown | services/musicLogic.ts:53 | On a known open string, the pitch at a fret is `(open + fret) mod 12`. |
| MusicLogic.GetNoteAtPosition | services/musicLogic.ts:46-54 | On a known open string, the name at a position is table entry `(open + fret) mod 12`. On an unknown one (index -1), it is `undefined` at fret 0 and entry `(fret - 1) mod 12` above fret 0. |
| MusicLogic.NoteAtPositionRoundTrip | services/musicLogic.ts:46-54 | On a known open string, the name at a position is defined, belongs to the chosen table, and looks up to `(open + fret) mod 12`. |
| MusicLogic.PositionsSound | services/musicLogic.ts:26-39 | Every listed position lies on a string of the tuning with fret <= maxFret, and sounds the target's index. Its `note` is the target's index spelled from the chosen table, and `isRoot` is never set. |
| MusicLogic.PositionsComplete | services/musicLogic.ts:26-39 | A (string, fret) pair is listed exactly when it is in range and sounds the target. |
| MusicLogic.PositionsOrdered | services/musicLogic.ts:26-30 | The list is ordered by string first, then by ascending fret. |
| MusicLogic.PositionsDistinct | services/musicLogic.ts:26-39 | No (string, fret) pair appears twice. |
| MusicLogic.UnknownTargetHasNoPositions | services/musicLogic.ts:24-32 | An unknown target yields an empty list when every open string is a known name. |
| MusicLogic.FretsBelowCovers | services/musicLogic.ts:30-38 | The scan of one string lists a fret below the bound exactly when that fret sounds the target. |
| MusicLogic.StringsBelowCovers | services/musicLogic.ts:26-39 | After the first k strings, a pair is listed exactly when its string is below k, its fret is in range and it sounds the target. |
| MusicLogic.StringsBelowOrdered | services/musicLogic.ts:26-30 | The first k strings' positions are in string-major, fret-ascending order. |
| MusicLogic.CalculateNotePositions | services/musicLogic.ts:16-43 | The resolver's output is exactly the specification `NotePositions`. |
| MusicLogic.ScanStrings | services/musicLogic.ts:26-40 | The loop over strings appends each string's positions in tuning order. |
| MusicLogic.VisitString | services/musicLogic.ts:27-39 | The loop over frets 0..maxFret appends this string's matching positions in fret order. |
| SessionRules.TuningOf | App.tsx:36 | Guitar uses the 6-string tuning and bass the 4-string one, and every open-string name is in the sharp table. |
| SessionRules.ShowDelay | App.tsx:70-71 | The reveal delay is min(2000, 40% of the interval). It is positive and strictly before the advance. |
| SessionRules.BeatPeriod | App.tsx:90 | At 40..200 bpm, the beat period lies in 300..1500 ms. |
| SessionRules.BeatPeriodTruncates | App.tsx:90-97 | The period in whole milliseconds is the integer part of 60000 / bpm. |
| SessionRules.NextBeat | App.tsx:93 | A tick moves the beat into 0..3. It wraps to 0 from 3 and from the resting -1, and otherwise adds 1. |
| SessionRules.ClicksAccentBeatZero | App.tsx:92-95 | Over any run of ticks, a click is accented exactly when its beat is 0. |
| SessionRules.MetronomeFromRest | App.tsx:92-101 | Started from rest, the accented ticks are exactly ticks 0, 4, 8, …; the first tick is an accent. |
| SessionRules.CountdownTick | App.tsx:108-115 | A running round with time left loses one second, and stops exactly when it reaches 0. Any other round is unchanged. |
| SessionRules.CountdownRuns | App.tsx:107-116 | A round started with t seconds is still running with t - n left after n < t ticks. From then on it rests at 0, stopped, and never goes below 0. |
| SessionRules.StoppedRoundStays | App.tsx:107-116 | A stopped round stays unchanged under any number of ticks, and it never ends again. |
| SessionRules.RoundEndsOnce | App.tsx:107-116 | However long the clock runs, a round ends exactly once, at tick t. |
| SessionRules.NextTarget | App.tsx:45-50 | `generateNewNote`'s draw: the first draw, or the second when the first spells the previous target. `NextTargetSpelled` states what the result is. |
| SessionRules.NextTargetSpelled | App.tsx:45-51 | The new target is a name of the chosen table whose index is one of the two draws. The first draw is kept unless it spells the previous target. The result repeats the previous target exactly when both draws spell it. |
| SessionRules.RedrawCanRepeat | App.tsx:46-50 | The single redraw can still repeat the previous target. |
| SessionRules.RepeatCheckIsByName | App.tsx:48 | The repeat check compares names. After the sharp spelling of any of the five accidentals, a flat-table first draw of the same pitch class is kept whatever the second draw, and the two names look up to the same index. |
| SessionRules.OpenStringAt | App.tsx:137 | The open-string name `tuning.notes[stringIndex]`, or the stand-in for `undefined` past the last string. `PastLastStringUnknown` states that the stand-in looks up to -1. |
| SessionRules.PastLastStringUnknown | App.tsx:137 | Reading past the last string gives a name that looks up to -1, as `undefined` does. |
| SessionRules.TappedIndex | App.tsx:137-138 | The index of the tapped name is -1 or below 12. `TappedIndexByPitch` gives its value on a known open string. |
| SessionRules.TappedIndexByPitch | App.tsx:137-138 | On a known open string, the tapped index is `(open + fret) mod 12`. |
| SessionRules.Judge | App.tsx:135-141 | A tap is ignored exactly when no challenge round is running. |
| SessionRules.JudgeByPitch | App.tsx:135-141 | On a known open string, a tap during a round is a hit exactly when `(open + fret) mod 12` is the target's index, and a miss otherwise. |
| SessionRules.JudgeIgnoresSpelling | App.tsx:137-141 | The sharps/flats preference never changes a verdict, on any open string, including one `getNoteIndex` does not know. |
| SessionRules.CoversByPitch | App.tsx:137-141 | The answer key lists an in-range position on a known open string exactly when `(open + fret) mod 12` is the target's index, the hit equation of `JudgeByPitch`. |
| SessionRules.HitIffCovered | App.tsx:137-141 | On a known open string within the fret bound, a tap during a round is a hit exactly when the position resolver lists it. |
| SessionRules.Toggled | App.tsx:158 | The instrument always changes; there are only two, so guitar and bass swap. |
| App.Cycle | App.tsx:67-79 | The effect arms both time-outs exactly in practice with auto-play on: the advance at the interval, and the reveal at `ShowDelay(interval)` = min(2000, ⌊0.4·interval⌋), hence before the advance and at most 2 s in. |
| App.AutoPlayRun | App.tsx:67-85 | When a dependency changed, both time-outs are cancelled and the cycle is re-armed. Otherwise the pending pair is kept. The timer invariant is preserved. |
| App.MetronomeRun | App.tsx:88-104 | When a dependency changed, the interval is cleared, the beat rests at -1, and a new interval starts if the metronome is on. Otherwise nothing changes. The beat invariant is preserved. |
| App.CountdownRun | App.tsx:107-116 | When a dependency changed, the interval is re-armed while the round runs with time left, and a running round at 0 ends. A round is never started by the effect. The countdown invariant is preserved. |
| App.LaterComposes | App.tsx:73-111 | Running a timer down by a and then by b is the same as running it down by a + b, and both steps fit. |
| App.AgedComposes | App.tsx:151 | Ageing the pending shake resets by a and then by b is the same as ageing them by a + b. |
| App.Without | App.tsx:151 | Removing a fired reset leaves the other pending resets. |
| App.Session.constructor | App.tsx:12-34 | The hooks' initial values: guitar, beginner, practice, sharps, "C", interval 5 s, 90 bpm, beat -1, score 0, 60 s left, no round, no result, no timers. The invariant holds. |
| App.Session.RunAutoPlayEffect | App.tsx:67-85 | The auto-play time-outs become `AutoPlayRun` of the previous dependency values, and the auto-play invariant holds. |
| App.Session.RunMetronomeEffect | App.tsx:88-104 | The metronome interval and beat become `MetronomeRun` of the previous dependency values, and the metronome invariant holds. |
| App.Session.RunCountdownEffect | App.tsx:107-116 | The countdown interval and `isGameActive` become `CountdownRun` of the previous dependency values, and the countdown invariant holds. |
| App.Session.Positions | App.tsx:61-64 | The answer key: `NotePositions` of the target on the current tuning, spelling and fret bound. `TapHitIffListed` states what it means for a tap. |
| App.Session.TapHitIffListed | App.tsx:61-64 | The answer key the positions effect computes agrees with the judge: during a round, a tap on a string of the current tuning within the difficulty's fret bound is a hit exactly when `Positions()` lists it. |
| App.Session.Commit | App.tsx:61-116 | The render re-runs each effect against the previous dependency values and restores the invariant. |
| App.Session.GenerateNewNote | App.tsx:45-53 | The target is redrawn as by `NextTarget`, the positions are hidden and the result is cleared. |
| App.Session.BeginRound | App.tsx:119-125 | `startGame`'s own updates: score 0, 60 s, round running, challenge mode, metronome off, then `generateNewNote`. |
| App.Session.StartGame | App.tsx:118-126 | Score 0, 60 s, round running, challenge mode, metronome off and beat at rest, a new target, auto-play time-outs cancelled, and the countdown armed. The running interval is kept if a round with the full 60 s was already running. |
| App.Session.StopGame | App.tsx:128-131 | The round stops and the mode returns to practice. The countdown is cleared, and the score and clock are kept. |
| App.Session.ScoreHit | App.tsx:143-146 | A hit's own updates: the success cue and one more point. The `correct` result is overwritten by `generateNewNote`'s clear in the same batch, so the result ends empty. |
| App.Session.ApplyVerdict | App.tsx:141-152 | A hit adds exactly 1 to the score, plays the success cue, draws a new target and ends with no result showing. A miss keeps score and target, plays the error cue, shows `incorrect` and schedules a 500 ms reset. Ignored changes nothing. |
| App.Session.HandleNoteClick | App.tsx:133-153 | The verdict is `Judge` applied to the tapped string and fret. The score changes only on a hit, and then by exactly 1. Outside a running challenge, nothing changes. |
| App.Session.ToggleInstrument | App.tsx:156-161 | Guitar and bass swap, the positions are hidden, and a running round is stopped with practice mode restored. |
| App.Session.SetDifficulty | App.tsx:224-227 | The new tier is set, and a running round is stopped with practice mode restored. |
| App.Session.ToggleSharps | App.tsx:283 | The preference flips and the auto-play cycle restarts. |
| App.Session.FlipAutoPlay | App.tsx:294-295 | The auto-play button's own updates: the flag flips, and switching on draws a new target. Switching off leaves target, visibility and result as they were. |
| App.Session.ToggleAutoPlay | App.tsx:292-296 | Auto-play flips. Switching it on draws a new target. In practice, a fresh reveal/advance pair is pending exactly while auto-play is on. |
| App.Session.SetAutoPlayInterval | App.tsx:311-318 | The interval is set, and a changed value restarts the cycle with the new period. |
| App.Session.ToggleMetronome | App.tsx:328 | The metronome flips and the beat rests at -1. The interval runs exactly while the metronome is on. |
| App.Session.SetBpm | App.tsx:358-365 | A changed tempo restarts a running metronome at the new period from rest. |
| App.Session.ToggleReveal | App.tsx:418 | Manual reveal/hide flips the positions' visibility. |
| App.Session.NextNote | App.tsx:424-425 | The next-note button draws a new target, hides the positions and clears the result. |
| App.Session.PlayTargetNoteSound | App.tsx:167-170 | The target's tone is requested and nothing else changes. |
| App.Session.Elapse | App.tsx:73-111 | Every pending timer and shake reset runs down by dt, and the invariant is kept. |
| App.Session.FireShow | App.tsx:73-77 | The positions are shown and the target's tone plays, with the advance still pending. |
| App.Session.FireAdvance | App.tsx:79-85 | Fires only in practice with auto-play on and draws a new target. A changed target re-arms both time-outs. An unchanged one leaves none pending. |
| App.Session.FireBeat | App.tsx:91-97 | The beat advances as `NextBeat`, the click is accented exactly on beat 0, and the interval continues. |
| App.Session.FireCountdown | App.tsx:109-115 | One countdown tick: one second less, never below 0, the round ending exactly at 0, and the interval re-armed only while time is left. |
| App.Session.FireShakeReset | App.tsx:151 | The result is cleared and that one pending reset is consumed. |

## Left out

- Audio synthesis (`services/audioService.ts`) and `audioService.resume()` are
  not modelled. Each requested sound is appended to `sounds`.
- Language, translations, `toggleLanguage` and all JSX layout and styling are
  left out. The handlers can be called in any state, whether or not the
  screen would show their button.
- `NOTE_FREQUENCIES` is left out: it is floating-point audio data.
- `components/Fretboard.tsx` is not part of this model. It only forwards
  (string, fret) pairs to `handleNoteClick`.
- The `CHORD_LEARNING` mode and `AIResponse` are left out: they have no
  behaviour.
- Real timers, wall-clock concurrency and React's scheduler are replaced by
  `Elapse` and the `Fire…` methods. The three effects write disjoint fields,
  so the order in which React runs them is not modelled.
- `Math.random` is replaced by the supplied indices `first` and `second`.
- The auto-play reveal delay uses floating point in the source
  (`interval * 1000 * 0.4`). The model computes it in integer milliseconds,
  which is exact for the slider's half-second steps. The metronome period
  `60000 / bpm` can be fractional; the model truncates it to whole
  milliseconds, as the browser timer does.
- App.Session.Positions: the `positions` state is modelled as derived from
  the target, instrument, spelling and difficulty. The one render in which the
  source still shows the previous target's positions is not modelled.
- App.Session.Valid: does not include "the target is a note name". Every
  drawn target is a note name by `SessionRules.NextTargetSpelled`, and the
  initial "C" is one too.
