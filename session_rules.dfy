/** The rules the trainer's session applies at each step, as functions of the
    values involved: judging a tap, drawing the next target, the auto-play and
    metronome delays, one metronome beat and one countdown second. The
    `Session` class applies them to its fields. */
module SessionRules {
  import opened Constants
  import opened MusicLogic

  datatype Instrument = Guitar | Bass

  datatype GameMode = Practice | Challenge

  /** The outcome of a tap: ignored outside a running challenge, otherwise a
      hit or a miss. */
  datatype Verdict = Ignored | Hit | Miss

  /** How long the wrong-answer shake lasts before the result is cleared. */
  const ShakeMs: nat := 500

  /** Period of the challenge countdown. */
  const CountdownPeriodMs: nat := 1000

  /** The auto-play slider: 2 to 10 seconds in steps of half a second, held here
      in milliseconds. */
  predicate ValidInterval(ms: nat)
  {
    2000 <= ms <= 10000 && ms % 500 == 0
  }

  /** The tempo slider: 40 to 200 beats per minute in steps of 5. */
  predicate ValidBpm(bpm: nat)
  {
    40 <= bpm <= 200 && bpm % 5 == 0
  }

  function TuningOf(instrument: Instrument): (t: Tuning)
    ensures |t.notes| == (if instrument == Guitar then 6 else 4)
    ensures forall n :: n in t.notes ==> n in NotesSharp
  {
    if instrument == Guitar then GuitarStandard else BassStandard
  }

  function Toggled(instrument: Instrument): (r: Instrument)
    ensures r != instrument
  {
    if instrument == Guitar then Bass else Guitar
  }

  /** When the auto-play show fires after the target changes: 40% of the
      interval, at most two seconds. It always comes before the advance. */
  function ShowDelay(intervalMs: nat): (d: nat)
    requires ValidInterval(intervalMs)
    ensures 0 < d < intervalMs && d <= 2000
    ensures d * 5 <= intervalMs * 2
    ensures d == 2000 || d * 5 == intervalMs * 2
  {
    var fraction := intervalMs * 2 / 5;
    if fraction < 2000 then fraction else 2000
  }

  /** The metronome period in whole milliseconds: 60000 / bpm, truncated as the
      timer API truncates a fractional delay. */
  function BeatPeriod(bpm: nat): (ms: nat)
    requires ValidBpm(bpm)
    ensures 300 <= ms <= 1500
  {
    60000 / bpm
  }

  /** The period is the whole part of 60000 / bpm: it never exceeds the exact
      period and falls short of it by less than a millisecond. */
  lemma BeatPeriodTruncates(bpm: nat)
    requires ValidBpm(bpm)
    ensures BeatPeriod(bpm) * bpm <= 60000 < (BeatPeriod(bpm) + 1) * bpm
  {
  }

  /** One metronome tick: the beat advances through 0..3 and wraps. From the
      resting value -1 the next beat is 0. */
  function NextBeat(beat: int): (next: int)
    requires -1 <= beat <= 3
    ensures 0 <= next <= 3
    ensures next == 0 <==> beat == 3 || beat == -1
    ensures 0 <= beat < 3 ==> next == beat + 1
  {
    JsRem(beat + 1, 4)
  }

  /** Accent flags of the clicks of the next `n` ticks, starting at `beat`. */
  function Clicks(beat: int, n: nat): (accents: seq<bool>)
    requires -1 <= beat <= 3
    ensures |accents| == n
    decreases n
  {
    if n == 0 then [] else
      var next := NextBeat(beat);
      [next == 0] + Clicks(next, n - 1)
  }

  /** Tick k after `beat` is accented exactly when it lands on beat 0. */
  lemma {:induction false} ClicksAccentBeatZero(beat: int, n: nat, k: nat)
    requires -1 <= beat <= 3 && k < n
    ensures Clicks(beat, n)[k] <==> (beat + 1 + k) % 4 == 0
    decreases n
  {
    var next := NextBeat(beat);
    assert Clicks(beat, n) == [next == 0] + Clicks(next, n - 1);
    if k > 0 {
      ClicksAccentBeatZero(next, n - 1, k - 1);
      assert Clicks(beat, n)[k] == Clicks(next, n - 1)[k - 1];
      if beat == 3 {
        assert beat + 1 + k == (next + k) + 4;
      } else {
        assert next == beat + 1;
      }
    }
  }

  /** Started from rest, the metronome accents ticks 0, 4, 8, ... and no others. */
  lemma MetronomeFromRest(n: nat, k: nat)
    requires k < n
    ensures Clicks(-1, n)[k] <==> k % 4 == 0
  {
    ClicksAccentBeatZero(-1, n, k);
  }

  /** The round's clock: seconds left and whether the round is running. */
  datatype Round = Round(timeLeft: int, active: bool)

  /** One countdown second: a running round with time left loses a second and
      stops when it reaches 0; otherwise nothing changes. */
  function CountdownTick(r: Round): (next: Round)
    ensures r.active && r.timeLeft > 0 ==> next.timeLeft == r.timeLeft - 1 && (next.active <==> next.timeLeft > 0)
    ensures !(r.active && r.timeLeft > 0) ==> next == r
  {
    if r.active && r.timeLeft > 0 then Round(r.timeLeft - 1, r.timeLeft - 1 > 0) else r
  }

  function RunCountdown(r: Round, n: nat): Round
    decreases n
  {
    if n == 0 then r else RunCountdown(CountdownTick(r), n - 1)
  }

  /** How many of the first `n` ticks turn a running round into a stopped one. */
  function RoundEnds(r: Round, n: nat): nat
    decreases n
  {
    if n == 0 then 0 else
      var next := CountdownTick(r);
      (if r.active && !next.active then 1 else 0) + RoundEnds(next, n - 1)
  }

  /** A round started with `t` seconds runs for `t` ticks and then rests at 0,
      never going below it. */
  lemma {:induction false} CountdownRuns(t: int, n: nat)
    requires t > 0
    ensures RunCountdown(Round(t, true), n) == if n < t then Round(t - n, true) else Round(0, false)
  {
    if n > 0 {
      if t > 1 {
        CountdownRuns(t - 1, n - 1);
      } else {
        StoppedRoundStays(Round(0, false), n - 1);
      }
    }
  }

  lemma {:induction false} StoppedRoundStays(r: Round, n: nat)
    requires !r.active
    ensures RunCountdown(r, n) == r && RoundEnds(r, n) == 0
  {
    if n > 0 {
      StoppedRoundStays(r, n - 1);
    }
  }

  /** However long the clock runs, a round started with `t` seconds ends once:
      no time before `t` ticks, exactly once from then on. */
  lemma {:induction false} RoundEndsOnce(t: int, n: nat)
    requires t > 0
    ensures RoundEnds(Round(t, true), n) == if n < t then 0 else 1
  {
    if n > 0 {
      if t > 1 {
        RoundEndsOnce(t - 1, n - 1);
      } else {
        StoppedRoundStays(Round(0, false), n - 1);
      }
    }
  }

  /** The target drawn by one call of the generator: a first draw, and a second
      draw only when the first spells the previous target. The comparison is
      between names, not pitch classes. */
  function NextTarget(previous: string, useSharps: bool, first: nat, second: nat): string
    requires first < 12 && second < 12
  {
    var drawn := GetRandomNote(useSharps, first);
    if drawn == previous then GetRandomNote(useSharps, second) else drawn
  }

  /** What one call of the generator can produce: a name of the chosen table
      whose pitch class is one of the two drawn indices; the first draw is
      kept unless it spells the previous target, and the result repeats the
      previous target only when both draws spell it. */
  lemma NextTargetSpelled(previous: string, useSharps: bool, first: nat, second: nat)
    requires first < 12 && second < 12
    ensures var n := NextTarget(previous, useSharps, first, second);
      n in Scale(useSharps) && IsNoteName(n) &&
      (GetNoteIndex(n) == first || GetNoteIndex(n) == second) &&
      (GetRandomNote(useSharps, first) != previous ==> n == GetRandomNote(useSharps, first)) &&
      (n == previous <==> GetRandomNote(useSharps, first) == previous && GetRandomNote(useSharps, second) == previous)
  {
    RandomNoteRoundTrip(useSharps, first);
    RandomNoteRoundTrip(useSharps, second);
  }

  /** The single redraw does not rule out a repeat: two draws of the previous
      target's index keep it. */
  lemma RedrawCanRepeat(previous: string, useSharps: bool)
    requires previous in Scale(useSharps)
    ensures exists first: nat, second: nat :: first < 12 && second < 12 && NextTarget(previous, useSharps, first, second) == previous
  {
    var k :| 0 <= k < 12 && Scale(useSharps)[k] == previous;
    assert NextTarget(previous, useSharps, k, k) == previous;
  }

  /** Because the check compares names, switching spelling lets the same pitch
      class through on the first draw: after the sharp spelling of any of the
      five accidentals, a flat-table draw of that same pitch class is kept,
      whatever the second draw would have been. */
  lemma RepeatCheckIsByName(p: nat, q: nat)
    requires p < 12 && q < 12 && NotesSharp[p] != NotesFlat[p]
    ensures NextTarget(NotesSharp[p], false, p, q) == NotesFlat[p]
    ensures GetNoteIndex(NotesFlat[p]) == GetNoteIndex(NotesSharp[p])
  {
    EnharmonicRoundTrip(p);
  }

  /** The open-string name a tap on string `stringIndex` reads from the
      tuning. Past the last string the array read is `undefined`, which, like
      any string that is not a note name, looks up to -1; the empty string
      stands for it here. */
  function OpenStringAt(tuning: Tuning, stringIndex: nat): string
  {
    if stringIndex < |tuning.notes| then tuning.notes[stringIndex] else ""
  }

  /** A tap past the last string reads a name that looks up to -1. */
  lemma PastLastStringUnknown(tuning: Tuning, stringIndex: nat)
    requires stringIndex >= |tuning.notes|
    ensures GetNoteIndex(OpenStringAt(tuning, stringIndex)) == -1
  {
    IndexOfFinds(NotesSharp, "");
    IndexOfFinds(NotesFlat, "");
  }

  /** The index of the name under a tapped position on an open string named
      `openStringNote`; a name that cannot be read (`undefined`) looks up to -1. */
  function TappedIndex(openStringNote: string, useSharps: bool, fret: nat): (r: int)
    ensures -1 <= r < 12
  {
    var clicked := GetNoteAtPosition(openStringNote, fret, useSharps);
    if clicked.Some? then GetNoteIndex(clicked.value) else -1
  }

  /** On a known open string the tapped index is (open + fret) mod 12. */
  lemma TappedIndexByPitch(openStringNote: string, useSharps: bool, fret: nat)
    requires IsNoteName(openStringNote)
    ensures TappedIndex(openStringNote, useSharps, fret) == (GetNoteIndex(openStringNote) + fret) % 12
  {
    NoteAtPositionRoundTrip(openStringNote, fret, useSharps);
  }

  /** A tap at `fret` on the open string `openStringNote` sounds the target's
      pitch class. */
  predicate SoundsTarget(openStringNote: string, fret: nat, target: string)
  {
    (GetNoteIndex(openStringNote) + fret) % 12 == GetNoteIndex(target)
  }

  /** Judging a tap at some fret of the open string `openStringNote`: ignored
      unless a challenge round is running; otherwise a hit when the tapped name
      looks up to the target's index. */
  function Judge(mode: GameMode, active: bool, openStringNote: string, useSharps: bool, target: string,
                 fret: nat): (v: Verdict)
    ensures v == Ignored <==> mode != Challenge || !active
  {
    if mode != Challenge || !active then Ignored
    else if TappedIndex(openStringNote, useSharps, fret) == GetNoteIndex(target) then Hit
    else Miss
  }

  /** On known names a tap is judged by pitch class alone: a hit exactly when
      (open + fret) mod 12 is the target's index. */
  lemma JudgeByPitch(mode: GameMode, active: bool, openStringNote: string, useSharps: bool, target: string,
                     fret: nat)
    requires IsNoteName(openStringNote)
    ensures Judge(mode, active, openStringNote, useSharps, target, fret) ==
              if mode != Challenge || !active then Ignored
              else if SoundsTarget(openStringNote, fret, target) then Hit
              else Miss
  {
    TappedIndexByPitch(openStringNote, useSharps, fret);
  }

  /** The spelling preference never changes a verdict, on any open string:
      on a known one both spellings name (open + fret) mod 12, and on an
      unknown one a fretted tap names (fret - 1) mod 12 in either table. */
  lemma JudgeIgnoresSpelling(mode: GameMode, active: bool, openStringNote: string, target: string, fret: nat)
    ensures Judge(mode, active, openStringNote, true, target, fret) ==
            Judge(mode, active, openStringNote, false, target, fret)
  {
    if IsNoteName(openStringNote) {
      JudgeByPitch(mode, active, openStringNote, true, target, fret);
      JudgeByPitch(mode, active, openStringNote, false, target, fret);
    } else if fret > 0 {
      ScaleRoundTrip(true, (fret - 1) % 12);
      ScaleRoundTrip(false, (fret - 1) % 12);
    }
  }

  /** The other half of what a hit means: the resolver lists a position within
      the fret bound on a known open string exactly when (open + fret) mod 12 is
      the target's index, the same equation `JudgeByPitch` gives for a hit. */
  lemma CoversByPitch(tuning: Tuning, useSharps: bool, target: string, maxFret: nat,
                      stringIndex: nat, fret: nat)
    requires stringIndex < |tuning.notes| && fret <= maxFret
    requires IsNoteName(tuning.notes[stringIndex])
    ensures Covers(NotePositions(target, tuning, useSharps, maxFret), stringIndex, fret) <==>
            SoundsTarget(tuning.notes[stringIndex], fret, target)
  {
    assert GetNoteIndex(tuning.notes[stringIndex]) >= 0 by { GetNoteIndexFinds(tuning.notes[stringIndex]); }
    PitchAtKnown(GetNoteIndex(tuning.notes[stringIndex]), fret);
    PositionsComplete(target, tuning, useSharps, maxFret, stringIndex, fret);
  }

  /** The answer key and the judge agree: on a known open string within the
      fret bound, a tap during a round is a hit exactly when the position
      resolver lists it. */
  lemma HitIffCovered(tuning: Tuning, useSharps: bool, target: string, maxFret: nat, stringIndex: nat, fret: nat)
    requires stringIndex < |tuning.notes| && fret <= maxFret
    requires IsNoteName(tuning.notes[stringIndex])
    ensures (Judge(Challenge, true, tuning.notes[stringIndex], useSharps, target, fret) == Hit) <==>
            Covers(NotePositions(target, tuning, useSharps, maxFret), stringIndex, fret)
  {
    JudgeByPitch(Challenge, true, tuning.notes[stringIndex], useSharps, target, fret);
    CoversByPitch(tuning, useSharps, target, maxFret, stringIndex, fret);
  }
}
