/** The trainer's screen state and its handlers. The React component keeps its
    state in hooks; after a handler or a timer callback it renders again and
    re-runs each effect whose dependency values changed. Here the hooks are the
    fields of `Session`; a handler or timer callback is a method that makes the
    callback's own updates and then runs the effects whose dependency values it
    changed (an effect whose dependencies did not change does not run, so
    running only those is the render). A timer is a count of milliseconds that
    `Elapse` runs down and that fires at zero. Random draws are parameters:
    `first` and `second` stand for the indices the generator would draw. */
module App {
  import opened Constants
  import opened MusicLogic
  import opened SessionRules

  /** A pending `setTimeout`/`setInterval`: off, or due in `remaining` ms. */
  datatype Timer = Off | Due(remaining: nat)

  /** The challenge feedback: none, the green flash, or the red shake. */
  datatype Outcome = NoResult | Correct | Incorrect

  /** What the audio service is asked to play, in order. */
  datatype Sound = Tone(note: string) | Click(accent: bool) | SuccessCue | IncorrectCue

  /** The dependency values of the timer effects, as React compares them
      between renders. The auto-play effect also depends on the generator
      closure, which is rebuilt when the target, the spelling, the mode or
      auto-play changes; those are already listed, except the spelling. */
  datatype AutoPlayDeps = AutoPlayDeps(gameMode: GameMode, autoPlay: bool, targetNote: string, useSharps: bool,
                                       intervalMs: nat)
  datatype MetronomeDeps = MetronomeDeps(on: bool, bpm: nat)
  datatype CountdownDeps = CountdownDeps(active: bool, timeLeft: int)

  /** The auto-play time-outs as the effect run for `d` left them, or as they
      have since run down and fired: the show time-out is always due before
      the advance, and the advance is pending only in practice with auto-play
      on. */
  predicate AutoPlayFits(d: AutoPlayDeps, show: Timer, advance: Timer)
  {
    (show.Due? ==> advance.Due? && show.remaining < advance.remaining) &&
    (advance.Due? ==> d.gameMode == Practice && d.autoPlay && advance.remaining <= d.intervalMs)
  }

  /** The metronome interval runs exactly while the metronome is on; the
      visual beat is in -1..3 and rests at -1 while it is off. */
  predicate MetronomeFits(d: MetronomeDeps, beat: Timer, currentBeat: int)
  {
    -1 <= currentBeat <= 3 &&
    (beat.Due? <==> d.on) &&
    (beat.Due? ==> ValidBpm(d.bpm) && beat.remaining <= BeatPeriod(d.bpm)) &&
    (!d.on ==> currentBeat == -1)
  }

  /** The countdown interval runs exactly while a round runs, and a running
      round has time left. */
  predicate CountdownFits(d: CountdownDeps, countdown: Timer)
  {
    (countdown.Due? <==> d.active) &&
    (countdown.Due? ==> countdown.remaining <= CountdownPeriodMs) &&
    (d.active ==> d.timeLeft > 0)
  }

  /** The show and advance time-outs the auto-play effect arms: both in
      practice with auto-play on, none otherwise. */
  function Cycle(mode: GameMode, autoPlay: bool, intervalMs: nat): (t: (Timer, Timer))
    requires ValidInterval(intervalMs)
    ensures t.0.Due? <==> mode == Practice && autoPlay
    ensures t.1.Due? <==> mode == Practice && autoPlay
    ensures t.0.Due? ==> t.0.remaining == ShowDelay(intervalMs)
    ensures t.1.Due? ==> t.1.remaining == intervalMs && 0 < t.0.remaining < intervalMs && t.0.remaining <= 2000
  {
    if mode == Practice && autoPlay then (Due(ShowDelay(intervalMs)), Due(intervalMs)) else (Off, Off)
  }

  /** The auto-play effect across a render: when a dependency changed, the
      cleanup cancels both time-outs and the body arms a new pair in practice
      with auto-play on; otherwise the pending pair is kept. */
  function AutoPlayRun(prev: AutoPlayDeps, now: AutoPlayDeps, show: Timer, advance: Timer): (r: (Timer, Timer))
    requires ValidInterval(now.intervalMs)
    ensures prev != now ==> r == Cycle(now.gameMode, now.autoPlay, now.intervalMs)
    ensures prev == now ==> r == (show, advance)
    ensures AutoPlayFits(prev, show, advance) ==> AutoPlayFits(now, r.0, r.1)
  {
    if prev != now then Cycle(now.gameMode, now.autoPlay, now.intervalMs) else (show, advance)
  }

  /** The metronome effect across a render: when a dependency changed, the
      cleanup of a running metronome clears its interval and rests the beat at
      -1, and the body starts an interval if the metronome is on. */
  function MetronomeRun(prev: MetronomeDeps, now: MetronomeDeps, beat: Timer, currentBeat: int): (r: (Timer, int))
    requires ValidBpm(now.bpm)
    ensures prev != now ==> r.0 == (if now.on then Due(BeatPeriod(now.bpm)) else Off)
    ensures prev != now && MetronomeFits(prev, beat, currentBeat) ==> r.1 == -1
    ensures prev == now ==> r == (beat, currentBeat)
    ensures MetronomeFits(prev, beat, currentBeat) ==> MetronomeFits(now, r.0, r.1)
  {
    if prev == now then (beat, currentBeat)
    else ((if now.on then Due(BeatPeriod(now.bpm)) else Off), if prev.on then -1 else currentBeat)
  }

  /** The countdown effect across a render, as the new timer and the new
      `isGameActive`: when a dependency changed, the old interval is cleared;
      a running round with time left gets a new one, and a running round at 0
      ends. The render that ending causes runs the effect once more, and that
      run arms and ends nothing. */
  function CountdownRun(prev: CountdownDeps, now: CountdownDeps, countdown: Timer): (r: (Timer, bool))
    ensures prev != now ==> r.0 == (if now.active && now.timeLeft > 0 then Due(CountdownPeriodMs) else Off)
    ensures prev != now && now.timeLeft >= 0 ==> r.1 == (now.active && now.timeLeft > 0)
    ensures prev == now ==> r == (countdown, now.active)
    ensures r.1 ==> now.active
    ensures CountdownFits(prev, countdown) && now.timeLeft >= 0 ==> CountdownFits(CountdownDeps(r.1, now.timeLeft), r.0)
  {
    if prev == now then (countdown, now.active)
    else if now.active && now.timeLeft > 0 then (Due(CountdownPeriodMs), true)
    else (Off, if now.timeLeft == 0 && now.active then false else now.active)
  }

  /** `dt` fits before `t` goes off. */
  predicate Fits(t: Timer, dt: nat)
  {
    t.Due? ==> dt <= t.remaining
  }

  /** The time-out `t` after `dt` more milliseconds. */
  function Later(t: Timer, dt: nat): (r: Timer)
    requires Fits(t, dt)
    ensures r.Due? <==> t.Due?
    ensures t.Due? ==> r.remaining + dt == t.remaining
  {
    if t.Due? then Due(t.remaining - dt) else Off
  }

  /** Letting `a` and then `b` milliseconds pass is letting `a + b` pass. */
  lemma LaterComposes(t: Timer, a: nat, b: nat)
    requires Fits(t, a + b)
    ensures Fits(t, a) && Fits(Later(t, a), b)
    ensures Later(Later(t, a), b) == Later(t, a + b)
  {
  }

  /** Pending shake resets after `dt` more milliseconds. */
  function Aged(resets: seq<nat>, dt: nat): (r: seq<nat>)
    requires forall i :: 0 <= i < |resets| ==> dt <= resets[i]
    ensures |r| == |resets|
    ensures forall i :: 0 <= i < |r| ==> r[i] + dt == resets[i]
  {
    seq(|resets|, i requires 0 <= i < |resets| => resets[i] - dt)
  }

  /** Ageing the resets by `a` and then by `b` is ageing them by `a + b`. */
  lemma AgedComposes(resets: seq<nat>, a: nat, b: nat)
    requires forall i :: 0 <= i < |resets| ==> a + b <= resets[i]
    ensures forall i :: 0 <= i < |Aged(resets, a)| ==> b <= Aged(resets, a)[i]
    ensures Aged(Aged(resets, a), b) == Aged(resets, a + b)
  {
  }

  /** The pending shake resets without the one at `i`. */
  function Without(resets: seq<nat>, i: nat): (r: seq<nat>)
    requires i < |resets|
    ensures |r| == |resets| - 1
    ensures multiset(r) + multiset{resets[i]} == multiset(resets)
  {
    assert resets == resets[..i] + [resets[i]] + resets[i + 1..];
    resets[..i] + resets[i + 1..]
  }

  class Session {
    var instrument: Instrument
    var difficulty: Difficulty
    var gameMode: GameMode
    var useSharps: bool
    var targetNote: string
    var showPositions: bool
    var autoPlay: bool
    var autoPlayIntervalMs: nat
    var metronomeOn: bool
    var bpm: nat
    var currentBeat: int
    var score: nat
    var timeLeft: int
    var isGameActive: bool
    var lastResult: Outcome
    /** The auto-play time-outs that show the positions and advance the target. */
    var showTimer: Timer
    var advanceTimer: Timer
    /** The metronome interval and the countdown interval. */
    var beatTimer: Timer
    var countdownTimer: Timer
    /** Pending 500 ms resets of the shake; nothing cancels them. */
    var shakeResets: seq<nat>
    /** Everything the audio service has been asked to play. */
    var sounds: seq<Sound>

    /** The answer key the positions effect keeps up to date: every position
        of the target on the current tuning up to the difficulty's fret
        bound. */
    function Positions(): seq<NotePosition>
      reads this`targetNote, this`instrument, this`useSharps, this`difficulty
    {
      NotePositions(targetNote, TuningOf(instrument), useSharps, MaxFret(difficulty))
    }

    function AutoPlayNow(): AutoPlayDeps
      reads this`gameMode, this`autoPlay, this`targetNote, this`useSharps, this`autoPlayIntervalMs
    {
      AutoPlayDeps(gameMode, autoPlay, targetNote, useSharps, autoPlayIntervalMs)
    }

    function MetronomeNow(): MetronomeDeps
      reads this`metronomeOn, this`bpm
    {
      MetronomeDeps(metronomeOn, bpm)
    }

    function CountdownNow(): CountdownDeps
      reads this`isGameActive, this`timeLeft
    {
      CountdownDeps(isGameActive, timeLeft)
    }

    /** The answer key agrees with the judge: during a round, a tap on a
        string of the tuning within the difficulty's fret bound is a hit
        exactly when the positions effect lists that (string, fret) pair. */
    lemma TapHitIffListed(stringIndex: nat, fret: nat)
      requires gameMode == Challenge && isGameActive
      requires stringIndex < |TuningOf(instrument).notes| && fret <= MaxFret(difficulty)
      ensures (Judge(gameMode, isGameActive, OpenStringAt(TuningOf(instrument), stringIndex), useSharps, targetNote,
                     fret) == Hit) <==> Covers(Positions(), stringIndex, fret)
    {
      assert OpenStringAt(TuningOf(instrument), stringIndex) == TuningOf(instrument).notes[stringIndex];
      assert IsNoteName(TuningOf(instrument).notes[stringIndex]) by {
        assert TuningOf(instrument).notes[stringIndex] in TuningOf(instrument).notes;
      }
      HitIffCovered(TuningOf(instrument), useSharps, targetNote, MaxFret(difficulty), stringIndex, fret);
    }

    /** The plain state every handler keeps in range: the sliders' values,
        the round's clock and the shake resets. */
    predicate FieldsOk()
      reads this`autoPlayIntervalMs, this`bpm, this`timeLeft, this`shakeResets
    {
      ValidInterval(autoPlayIntervalMs) && ValidBpm(bpm) &&
      0 <= timeLeft <= GameDurationSeconds &&
      (forall i :: 0 <= i < |shakeResets| ==> shakeResets[i] <= ShakeMs)
    }

    /** A round only runs in challenge mode. */
    predicate ModeOk()
      reads this`isGameActive, this`gameMode
    {
      isGameActive ==> gameMode == Challenge
    }

    predicate AutoPlayOk()
      reads this`showTimer, this`advanceTimer, this`gameMode, this`autoPlay, this`targetNote, this`useSharps,
            this`autoPlayIntervalMs
    {
      AutoPlayFits(AutoPlayNow(), showTimer, advanceTimer)
    }

    predicate MetronomeOk()
      reads this`beatTimer, this`currentBeat, this`metronomeOn, this`bpm
    {
      MetronomeFits(MetronomeNow(), beatTimer, currentBeat)
    }

    predicate CountdownOk()
      reads this`countdownTimer, this`isGameActive, this`timeLeft
    {
      CountdownFits(CountdownNow(), countdownTimer)
    }

    /** A settled screen: state in range and every timer effect up to date
        with the values it depends on. */
    predicate Valid()
      reads this
    {
      FieldsOk() && ModeOk() && AutoPlayOk() && MetronomeOk() && CountdownOk()
    }

    /** The first render and its commit. With auto-play, the metronome and the
        round off, the first run of the timer effects arms nothing and ends
        nothing, so the hooks' initial values are already settled. */
    constructor ()
      ensures Valid()
      ensures instrument == Guitar && difficulty == Beginner && gameMode == Practice && useSharps
      ensures targetNote == "C" && !showPositions && !autoPlay && autoPlayIntervalMs == 5000
      ensures !metronomeOn && bpm == 90 && currentBeat == -1
      ensures score == 0 && timeLeft == GameDurationSeconds && !isGameActive && lastResult == NoResult
      ensures showTimer == Off && advanceTimer == Off && beatTimer == Off && countdownTimer == Off
      ensures shakeResets == [] && sounds == []
    {
      instrument := Guitar;
      difficulty := Beginner;
      gameMode := Practice;
      useSharps := true;
      targetNote := "C";
      showPositions := false;
      autoPlay := false;
      autoPlayIntervalMs := 5000;
      metronomeOn := false;
      bpm := 90;
      currentBeat := -1;
      score := 0;
      timeLeft := GameDurationSeconds;
      isGameActive := false;
      lastResult := NoResult;
      showTimer := Off;
      advanceTimer := Off;
      beatTimer := Off;
      countdownTimer := Off;
      shakeResets := [];
      sounds := [];
    }

    // -------------------------------------------------------------------------
    // The render after a handler or a timer callback. Each handler captures
    // the effects' dependency values before its own updates and hands them to
    // `Commit`, which runs every effect whose dependency values changed.

    /** The auto-play effect: on a changed dependency both pending time-outs
        are cancelled and, in practice with auto-play on, a new pair armed. */
    method RunAutoPlayEffect(a: AutoPlayDeps)
      requires ValidInterval(autoPlayIntervalMs) && AutoPlayFits(a, showTimer, advanceTimer)
      modifies this`showTimer, this`advanceTimer
      ensures AutoPlayOk()
      ensures (showTimer, advanceTimer) == AutoPlayRun(a, AutoPlayNow(), old(showTimer), old(advanceTimer))
    {
      var auto := AutoPlayRun(a, AutoPlayNow(), showTimer, advanceTimer);
      showTimer, advanceTimer := auto.0, auto.1;
    }

    /** The metronome effect: on a changed dependency the running interval is
        cleared with the beat put back to rest, and a new one started if the
        metronome is on. */
    method RunMetronomeEffect(m: MetronomeDeps)
      requires ValidBpm(bpm) && MetronomeFits(m, beatTimer, currentBeat)
      modifies this`beatTimer, this`currentBeat
      ensures MetronomeOk()
      ensures (beatTimer, currentBeat) == MetronomeRun(m, MetronomeNow(), old(beatTimer), old(currentBeat))
    {
      var beat := MetronomeRun(m, MetronomeNow(), beatTimer, currentBeat);
      beatTimer, currentBeat := beat.0, beat.1;
    }

    /** The countdown effect: on a changed dependency the interval is cleared
        and re-armed while the round runs with time left; a running round at 0
        ends. */
    method RunCountdownEffect(c: CountdownDeps)
      requires 0 <= timeLeft && CountdownFits(c, countdownTimer)
      modifies this`countdownTimer, this`isGameActive
      ensures CountdownOk()
      ensures (countdownTimer, isGameActive) == CountdownRun(c, old(CountdownNow()), old(countdownTimer))
    {
      var count := CountdownRun(c, CountdownNow(), countdownTimer);
      countdownTimer, isGameActive := count.0, count.1;
    }

    /** The render after a handler: every timer effect runs against the
        dependency values `a`, `m`, `c` of the previous render, each doing
        work only when its own values changed. The effects write disjoint
        fields, so the order they run in makes no difference. */
    method Commit(a: AutoPlayDeps, m: MetronomeDeps, c: CountdownDeps)
      requires FieldsOk() && ModeOk()
      requires AutoPlayFits(a, showTimer, advanceTimer)
      requires MetronomeFits(m, beatTimer, currentBeat) && CountdownFits(c, countdownTimer)
      modifies this`showTimer, this`advanceTimer, this`beatTimer, this`currentBeat, this`countdownTimer,
               this`isGameActive
      ensures Valid()
      ensures (showTimer, advanceTimer) == AutoPlayRun(a, AutoPlayNow(), old(showTimer), old(advanceTimer))
      ensures (beatTimer, currentBeat) == MetronomeRun(m, MetronomeNow(), old(beatTimer), old(currentBeat))
      ensures (countdownTimer, isGameActive) == CountdownRun(c, old(CountdownNow()), old(countdownTimer))
    {
      RunCountdownEffect(c);
      RunMetronomeEffect(m);
      RunAutoPlayEffect(a);
    }

    /** `generateNewNote`, without the render that follows it: a new target
        from one or two draws, hidden positions and no result. */
    method GenerateNewNote(first: nat, second: nat)
      requires first < 12 && second < 12
      modifies this`targetNote, this`showPositions, this`lastResult
      ensures targetNote == NextTarget(old(targetNote), useSharps, first, second)
      ensures !showPositions && lastResult == NoResult
    {
      targetNote := NextTarget(targetNote, useSharps, first, second);
      showPositions := false;
      lastResult := NoResult;
    }

    /** The updates `startGame` makes before the render: a fresh round on a
        new target with the metronome switched off. */
    method BeginRound(first: nat, second: nat)
      requires first < 12 && second < 12
      modifies this`score, this`timeLeft, this`isGameActive, this`gameMode, this`metronomeOn, this`targetNote,
               this`showPositions, this`lastResult
      ensures score == 0 && timeLeft == GameDurationSeconds && isGameActive && gameMode == Challenge && !metronomeOn
      ensures targetNote == NextTarget(old(targetNote), useSharps, first, second)
      ensures !showPositions && lastResult == NoResult
    {
      score, timeLeft, isGameActive, gameMode, metronomeOn := 0, GameDurationSeconds, true, Challenge, false;
      GenerateNewNote(first, second);
    }

    /** `startGame`: a fresh 60-second challenge round with score 0 and the
        metronome off, on a newly drawn target. Any auto-play time-outs are
        cancelled. The countdown is re-armed unless a round was already
        running with the full 60 seconds left. */
    method StartGame(first: nat, second: nat)
      requires Valid() && first < 12 && second < 12
      modifies this`score, this`timeLeft, this`isGameActive, this`gameMode, this`metronomeOn, this`targetNote,
               this`showPositions, this`lastResult, this`showTimer, this`advanceTimer, this`beatTimer,
               this`currentBeat, this`countdownTimer
      ensures Valid()
      ensures score == 0 && timeLeft == GameDurationSeconds && isGameActive && gameMode == Challenge
      ensures !metronomeOn && currentBeat == -1 && beatTimer == Off
      ensures targetNote == NextTarget(old(targetNote), useSharps, first, second)
      ensures !showPositions && lastResult == NoResult
      ensures showTimer == Off && advanceTimer == Off
      ensures countdownTimer == if old(isGameActive) && old(timeLeft) == GameDurationSeconds then old(countdownTimer)
                                else Due(CountdownPeriodMs)
    {
      var a, m, c := AutoPlayNow(), MetronomeNow(), CountdownNow();
      BeginRound(first, second);
      Commit(a, m, c);
    }

    /** `stopGame`: the round stops and the screen returns to practice; the
        clock and the score stay as they were. Back in practice, the
        auto-play cycle restarts if auto-play is on. */
    method StopGame()
      requires Valid()
      modifies this`isGameActive, this`gameMode, this`showTimer, this`advanceTimer, this`beatTimer,
               this`currentBeat, this`countdownTimer
      ensures Valid()
      ensures !isGameActive && gameMode == Practice && countdownTimer == Off
      ensures (showTimer, advanceTimer) == AutoPlayRun(old(AutoPlayNow()), AutoPlayNow(), old(showTimer), old(advanceTimer))
      ensures beatTimer == old(beatTimer) && currentBeat == old(currentBeat)
    {
      var a, m, c := AutoPlayNow(), MetronomeNow(), CountdownNow();
      isGameActive := false;
      gameMode := Practice;
      Commit(a, m, c);
    }

    /** The updates a hit makes before the render: the success cue, a point,
        the `correct` result, and then `generateNewNote`, whose clearing of
        the result comes later in the same batch and wins. */
    method ScoreHit(first: nat, second: nat)
      requires first < 12 && second < 12
      modifies this`sounds, this`score, this`lastResult, this`targetNote, this`showPositions
      ensures sounds == old(sounds) + [SuccessCue] && score == old(score) + 1
      ensures targetNote == NextTarget(old(targetNote), useSharps, first, second)
      ensures !showPositions && lastResult == NoResult
    {
      sounds, score, lastResult := sounds + [SuccessCue], score + 1, Correct;
      GenerateNewNote(first, second);
    }

    /** The state change that follows a verdict. A hit plays the success cue,
        adds a point and draws a new target; since that draw clears the result
        in the same batch, the green `correct` result never reaches the
        screen. A miss plays the error cue, shows the shake and schedules its
        reset. An ignored tap changes nothing. */
    method ApplyVerdict(verdict: Verdict, first: nat, second: nat)
      requires Valid() && first < 12 && second < 12
      requires verdict != Ignored ==> gameMode == Challenge && isGameActive
      modifies this`score, this`sounds, this`lastResult, this`shakeResets, this`targetNote, this`showPositions,
               this`showTimer, this`advanceTimer, this`beatTimer, this`currentBeat, this`countdownTimer,
               this`isGameActive
      ensures Valid()
      ensures verdict == Ignored ==>
                score == old(score) && sounds == old(sounds) && lastResult == old(lastResult) &&
                shakeResets == old(shakeResets) && targetNote == old(targetNote) && showPositions == old(showPositions)
      ensures verdict == Hit ==>
                score == old(score) + 1 && sounds == old(sounds) + [SuccessCue] && lastResult == NoResult &&
                shakeResets == old(shakeResets) &&
                targetNote == NextTarget(old(targetNote), useSharps, first, second) && !showPositions
      ensures verdict == Miss ==>
                score == old(score) && sounds == old(sounds) + [IncorrectCue] && lastResult == Incorrect &&
                shakeResets == old(shakeResets) + [ShakeMs] && targetNote == old(targetNote) &&
                showPositions == old(showPositions)
      ensures isGameActive == old(isGameActive) && countdownTimer == old(countdownTimer)
      ensures beatTimer == old(beatTimer) && currentBeat == old(currentBeat)
      ensures showTimer == old(showTimer) && advanceTimer == old(advanceTimer)
    {
      if verdict == Hit {
        var a, m, c := AutoPlayNow(), MetronomeNow(), CountdownNow();
        ScoreHit(first, second);
        Commit(a, m, c);
      } else if verdict == Miss {
        sounds := sounds + [IncorrectCue];
        lastResult := Incorrect;
        shakeResets := shakeResets + [ShakeMs];
      }
    }

    /** `handleNoteClick` for a tap on string `stringIndex` at `fret`: the tap
        is judged against the target, and the verdict applied. Outside a
        running challenge the tap is ignored. */
    method HandleNoteClick(stringIndex: nat, fret: nat, first: nat, second: nat) returns (verdict: Verdict)
      requires Valid() && first < 12 && second < 12
      modifies this`score, this`sounds, this`lastResult, this`shakeResets, this`targetNote, this`showPositions,
               this`showTimer, this`advanceTimer, this`beatTimer, this`currentBeat, this`countdownTimer,
               this`isGameActive
      ensures Valid()
      ensures verdict == Judge(old(gameMode), old(isGameActive), OpenStringAt(TuningOf(instrument), stringIndex),
                               useSharps, old(targetNote), fret)
      ensures verdict == Ignored ==>
                score == old(score) && sounds == old(sounds) && lastResult == old(lastResult) &&
                shakeResets == old(shakeResets) && targetNote == old(targetNote) && showPositions == old(showPositions)
      ensures verdict == Hit ==>
                score == old(score) + 1 && sounds == old(sounds) + [SuccessCue] && lastResult == NoResult &&
                shakeResets == old(shakeResets) &&
                targetNote == NextTarget(old(targetNote), useSharps, first, second) && !showPositions
      ensures verdict == Miss ==>
                score == old(score) && sounds == old(sounds) + [IncorrectCue] && lastResult == Incorrect &&
                shakeResets == old(shakeResets) + [ShakeMs] && targetNote == old(targetNote) &&
                showPositions == old(showPositions)
      ensures isGameActive == old(isGameActive) && countdownTimer == old(countdownTimer)
      ensures beatTimer == old(beatTimer) && currentBeat == old(currentBeat)
      ensures showTimer == old(showTimer) && advanceTimer == old(advanceTimer)
    {
      verdict := Judge(gameMode, isGameActive, OpenStringAt(TuningOf(instrument), stringIndex), useSharps,
                       targetNote, fret);
      ApplyVerdict(verdict, first, second);
    }

    /** `toggleInstrument`: guitar and bass swap and the positions are hidden;
        a running round is stopped as by `stopGame`. */
    method ToggleInstrument()
      requires Valid()
      modifies this`instrument, this`showPositions, this`isGameActive, this`gameMode, this`showTimer,
               this`advanceTimer, this`beatTimer, this`currentBeat, this`countdownTimer
      ensures Valid()
      ensures instrument == Toggled(old(instrument)) && !showPositions
      ensures !isGameActive
      ensures gameMode == if old(isGameActive) then Practice else old(gameMode)
      ensures countdownTimer == if old(isGameActive) then Off else old(countdownTimer)
      ensures (showTimer, advanceTimer) == AutoPlayRun(old(AutoPlayNow()), AutoPlayNow(), old(showTimer), old(advanceTimer))
      ensures beatTimer == old(beatTimer) && currentBeat == old(currentBeat)
    {
      var a, m, c := AutoPlayNow(), MetronomeNow(), CountdownNow();
      instrument := Toggled(instrument);
      showPositions := false;
      if isGameActive {
        isGameActive := false;
        gameMode := Practice;
      }
      Commit(a, m, c);
    }

    /** The difficulty selector: a new fret bound; a running round is stopped
        as by `stopGame`. */
    method SetDifficulty(d: Difficulty)
      requires Valid()
      modifies this`difficulty, this`isGameActive, this`gameMode, this`showTimer, this`advanceTimer,
               this`beatTimer, this`currentBeat, this`countdownTimer
      ensures Valid()
      ensures difficulty == d && !isGameActive
      ensures gameMode == if old(isGameActive) then Practice else old(gameMode)
      ensures countdownTimer == if old(isGameActive) then Off else old(countdownTimer)
      ensures (showTimer, advanceTimer) == AutoPlayRun(old(AutoPlayNow()), AutoPlayNow(), old(showTimer), old(advanceTimer))
      ensures beatTimer == old(beatTimer) && currentBeat == old(currentBeat)
    {
      var a, m, c := AutoPlayNow(), MetronomeNow(), CountdownNow();
      difficulty := d;
      if isGameActive {
        isGameActive := false;
        gameMode := Practice;
      }
      Commit(a, m, c);
    }

    /** The sharps/flats button. The target keeps its spelling; the auto-play
        cycle, whose generator depends on the spelling, starts over. */
    method ToggleSharps()
      requires Valid()
      modifies this`useSharps, this`showTimer, this`advanceTimer, this`beatTimer, this`currentBeat,
               this`countdownTimer, this`isGameActive
      ensures Valid()
      ensures useSharps == !old(useSharps)
      ensures (showTimer, advanceTimer) == Cycle(gameMode, autoPlay, autoPlayIntervalMs)
      ensures beatTimer == old(beatTimer) && currentBeat == old(currentBeat)
      ensures countdownTimer == old(countdownTimer) && isGameActive == old(isGameActive)
    {
      var a, m, c := AutoPlayNow(), MetronomeNow(), CountdownNow();
      useSharps := !useSharps;
      Commit(a, m, c);
    }

    /** The updates of the auto-play button before the render: the flag
        flips, and switching on draws a new target. */
    method FlipAutoPlay(first: nat, second: nat)
      requires first < 12 && second < 12
      modifies this`autoPlay, this`targetNote, this`showPositions, this`lastResult
      ensures autoPlay == !old(autoPlay)
      ensures autoPlay ==> targetNote == NextTarget(old(targetNote), useSharps, first, second) &&
                           !showPositions && lastResult == NoResult
      ensures !autoPlay ==> targetNote == old(targetNote) && showPositions == old(showPositions) &&
                            lastResult == old(lastResult)
    {
      autoPlay := !autoPlay;
      if autoPlay {
        GenerateNewNote(first, second);
      }
    }

    /** The auto-play button: switching it on draws a new target at once;
        either way the cycle starts over, so in practice a fresh pair of
        time-outs is pending exactly while auto-play is on. */
    method ToggleAutoPlay(first: nat, second: nat)
      requires Valid() && first < 12 && second < 12
      modifies this`autoPlay, this`targetNote, this`showPositions, this`lastResult, this`showTimer,
               this`advanceTimer, this`beatTimer, this`currentBeat, this`countdownTimer, this`isGameActive
      ensures Valid()
      ensures autoPlay == !old(autoPlay)
      ensures autoPlay ==> targetNote == NextTarget(old(targetNote), useSharps, first, second) &&
                           !showPositions && lastResult == NoResult
      ensures !autoPlay ==> targetNote == old(targetNote) && showPositions == old(showPositions) &&
                            lastResult == old(lastResult)
      ensures (showTimer, advanceTimer) == Cycle(gameMode, autoPlay, autoPlayIntervalMs)
      ensures beatTimer == old(beatTimer) && currentBeat == old(currentBeat)
      ensures countdownTimer == old(countdownTimer) && isGameActive == old(isGameActive)
    {
      var a, m, c := AutoPlayNow(), MetronomeNow(), CountdownNow();
      FlipAutoPlay(first, second);
      Commit(a, m, c);
    }

    /** The interval slider, held in milliseconds: a new value restarts the
        auto-play cycle with the new period. */
    method SetAutoPlayInterval(ms: nat)
      requires Valid() && ValidInterval(ms)
      modifies this`autoPlayIntervalMs, this`showTimer, this`advanceTimer, this`beatTimer, this`currentBeat,
               this`countdownTimer, this`isGameActive
      ensures Valid()
      ensures autoPlayIntervalMs == ms
      ensures ms != old(autoPlayIntervalMs) ==> (showTimer, advanceTimer) == Cycle(gameMode, autoPlay, ms)
      ensures ms == old(autoPlayIntervalMs) ==> showTimer == old(showTimer) && advanceTimer == old(advanceTimer)
      ensures beatTimer == old(beatTimer) && currentBeat == old(currentBeat)
      ensures countdownTimer == old(countdownTimer) && isGameActive == old(isGameActive)
    {
      var a, m, c := AutoPlayNow(), MetronomeNow(), CountdownNow();
      autoPlayIntervalMs := ms;
      Commit(a, m, c);
    }

    /** The metronome button: switching on starts the beat interval, switching
        off stops it; the visual beat rests at -1 either way. */
    method ToggleMetronome()
      requires Valid()
      modifies this`metronomeOn, this`showTimer, this`advanceTimer, this`beatTimer, this`currentBeat,
               this`countdownTimer, this`isGameActive
      ensures Valid()
      ensures metronomeOn == !old(metronomeOn) && currentBeat == -1
      ensures beatTimer == if metronomeOn then Due(BeatPeriod(bpm)) else Off
      ensures showTimer == old(showTimer) && advanceTimer == old(advanceTimer)
      ensures countdownTimer == old(countdownTimer) && isGameActive == old(isGameActive)
    {
      var a, m, c := AutoPlayNow(), MetronomeNow(), CountdownNow();
      metronomeOn := !metronomeOn;
      Commit(a, m, c);
    }

    /** The tempo slider: a new tempo restarts a running metronome at the new
        period from the resting beat. */
    method SetBpm(b: nat)
      requires Valid() && ValidBpm(b)
      modifies this`bpm, this`showTimer, this`advanceTimer, this`beatTimer, this`currentBeat,
               this`countdownTimer, this`isGameActive
      ensures Valid()
      ensures bpm == b
      ensures b != old(bpm) ==> currentBeat == -1 && beatTimer == if metronomeOn then Due(BeatPeriod(b)) else Off
      ensures b == old(bpm) ==> currentBeat == old(currentBeat) && beatTimer == old(beatTimer)
      ensures showTimer == old(showTimer) && advanceTimer == old(advanceTimer)
      ensures countdownTimer == old(countdownTimer) && isGameActive == old(isGameActive)
    {
      var a, m, c := AutoPlayNow(), MetronomeNow(), CountdownNow();
      bpm := b;
      Commit(a, m, c);
    }

    /** The reveal/hide button of manual practice. No effect depends on it. */
    method ToggleReveal()
      requires Valid()
      modifies this`showPositions
      ensures Valid()
      ensures showPositions == !old(showPositions)
    {
      showPositions := !showPositions;
    }

    /** The next-note button of manual practice: `generateNewNote` and the
        render after it. */
    method NextNote(first: nat, second: nat)
      requires Valid() && first < 12 && second < 12
      modifies this`targetNote, this`showPositions, this`lastResult, this`showTimer, this`advanceTimer,
               this`beatTimer, this`currentBeat, this`countdownTimer, this`isGameActive
      ensures Valid()
      ensures targetNote == NextTarget(old(targetNote), useSharps, first, second)
      ensures !showPositions && lastResult == NoResult
      ensures (showTimer, advanceTimer) == AutoPlayRun(old(AutoPlayNow()), AutoPlayNow(), old(showTimer), old(advanceTimer))
      ensures beatTimer == old(beatTimer) && currentBeat == old(currentBeat)
      ensures countdownTimer == old(countdownTimer) && isGameActive == old(isGameActive)
    {
      var a, m, c := AutoPlayNow(), MetronomeNow(), CountdownNow();
      GenerateNewNote(first, second);
      Commit(a, m, c);
    }

    /** `playTargetNoteSound`: the target's tone, and nothing else. */
    method PlayTargetNoteSound()
      requires Valid()
      modifies this`sounds
      ensures Valid()
      ensures sounds == old(sounds) + [Tone(targetNote)]
    {
      sounds := sounds + [Tone(targetNote)];
    }

    // -------------------------------------------------------------------------
    // Time: the pending timers run down together, and a timer at zero fires.

    /** `dt` milliseconds pass without any timer going off on the way. */
    method Elapse(dt: nat)
      requires Valid()
      requires Fits(showTimer, dt) && Fits(advanceTimer, dt) && Fits(beatTimer, dt) && Fits(countdownTimer, dt)
      requires forall i :: 0 <= i < |shakeResets| ==> dt <= shakeResets[i]
      modifies this`showTimer, this`advanceTimer, this`beatTimer, this`countdownTimer, this`shakeResets
      ensures Valid()
      ensures showTimer == Later(old(showTimer), dt) && advanceTimer == Later(old(advanceTimer), dt)
      ensures beatTimer == Later(old(beatTimer), dt) && countdownTimer == Later(old(countdownTimer), dt)
      ensures shakeResets == Aged(old(shakeResets), dt)
    {
      showTimer := Later(showTimer, dt);
      advanceTimer := Later(advanceTimer, dt);
      beatTimer := Later(beatTimer, dt);
      countdownTimer := Later(countdownTimer, dt);
      shakeResets := Aged(shakeResets, dt);
    }

    /** The auto-play show time-out: the positions appear and the target's
        tone plays. It is always due before the advance. */
    method FireShow()
      requires Valid() && showTimer == Due(0)
      modifies this`showTimer, this`showPositions, this`sounds
      ensures Valid()
      ensures showTimer == Off && showPositions && sounds == old(sounds) + [Tone(targetNote)]
      ensures advanceTimer.Due? && advanceTimer.remaining > 0
    {
      showTimer := Off;
      showPositions := true;
      sounds := sounds + [Tone(targetNote)];
    }

    /** The auto-play advance time-out: `generateNewNote` and the render after
        it. A new target restarts the cycle. When both draws spell the current
        target the dependency values do not change, the effect does not run,
        and no time-out is pending any more: auto-play stops advancing although
        it is still on. */
    method FireAdvance(first: nat, second: nat)
      requires Valid() && advanceTimer == Due(0) && first < 12 && second < 12
      modifies this`targetNote, this`showPositions, this`lastResult, this`showTimer, this`advanceTimer,
               this`beatTimer, this`currentBeat, this`countdownTimer, this`isGameActive
      ensures Valid()
      ensures gameMode == Practice && autoPlay
      ensures targetNote == NextTarget(old(targetNote), useSharps, first, second)
      ensures !showPositions && lastResult == NoResult
      ensures targetNote != old(targetNote) ==>
                showTimer == Due(ShowDelay(autoPlayIntervalMs)) && advanceTimer == Due(autoPlayIntervalMs)
      ensures targetNote == old(targetNote) ==> showTimer == Off && advanceTimer == Off
      ensures beatTimer == old(beatTimer) && currentBeat == old(currentBeat)
      ensures countdownTimer == old(countdownTimer) && isGameActive == old(isGameActive)
    {
      var a, m, c := AutoPlayNow(), MetronomeNow(), CountdownNow();
      advanceTimer := Off;
      GenerateNewNote(first, second);
      Commit(a, m, c);
    }

    /** The metronome interval: the beat advances through 0..3, the click is
        accented on beat 0, and the interval goes on with the same period. */
    method FireBeat()
      requires Valid() && beatTimer == Due(0)
      modifies this`beatTimer, this`currentBeat, this`sounds
      ensures Valid()
      ensures currentBeat == NextBeat(old(currentBeat))
      ensures sounds == old(sounds) + [Click(currentBeat == 0)]
      ensures beatTimer == Due(BeatPeriod(bpm))
    {
      currentBeat := NextBeat(currentBeat);
      sounds := sounds + [Click(currentBeat == 0)];
      beatTimer := Due(BeatPeriod(bpm));
    }

    /** The countdown interval: one second less. The render after it clears
        the interval and starts a new one while time is left; at 0 the round
        ends. */
    method FireCountdown()
      requires Valid() && countdownTimer == Due(0)
      modifies this`timeLeft, this`countdownTimer, this`isGameActive
      ensures Valid()
      ensures timeLeft == old(timeLeft) - 1 && timeLeft >= 0
      ensures isGameActive <==> timeLeft > 0
      ensures Round(timeLeft, isGameActive) == CountdownTick(Round(old(timeLeft), old(isGameActive)))
      ensures countdownTimer == if timeLeft > 0 then Due(CountdownPeriodMs) else Off
    {
      var c := CountdownNow();
      timeLeft := timeLeft - 1;
      countdownTimer := Due(CountdownPeriodMs);
      RunCountdownEffect(c);
    }

    /** A shake reset 500 ms after a miss: the result is cleared, whichever
        result is showing by then. */
    method FireShakeReset(i: nat)
      requires Valid() && i < |shakeResets| && shakeResets[i] == 0
      modifies this`lastResult, this`shakeResets
      ensures Valid()
      ensures lastResult == NoResult
      ensures |shakeResets| == |old(shakeResets)| - 1
      ensures multiset(shakeResets) + multiset{0} == multiset(old(shakeResets))
    {
      lastResult := NoResult;
      shakeResets := Without(shakeResets, i);
    }
  }
}
