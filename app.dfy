/** The `PlankClub` object: the log it keeps in memory, the manual and timed
    ways of adding to it, clearing a range of days, and the workout timer
    (a state machine over idle, plank, rest and paused). Wall-clock time is
    the millisecond argument `now`, today's date the day number `today`. */
module App {
  import opened Wrappers
  import opened Text
  import opened Dates
  import opened LogStore

  datatype TimerState = Idle | Plank | Rest | Paused

  const TimerMinPlanks := 1
  const TimerMaxPlanks := 10
  const PlankMinDuration := 10
  const PlankMaxDuration := 600
  const RestMinDuration := 5
  const RestMaxDuration := 180

  /** The values `startTimer` falls back to when a field is missing or 0. */
  const DefaultCount := 3
  const DefaultDuration := 60
  const DefaultRest := 30

  /** The metronome ticks during the last this-many seconds of a phase. */
  const MetronomeWindow := 5

  /** The timer settings `startTimer` stores for next time. */
  datatype Preferences = Preferences(count: int, duration: int, rest: int)

  datatype StartError = BadCount | BadDuration | BadRest

  /** The checks of `startTimer`, in its order. */
  function SessionError(count: int, duration: int, rest: int): Option<StartError> {
    if count < TimerMinPlanks || count > TimerMaxPlanks then Some(BadCount)
    else if duration < PlankMinDuration || duration > PlankMaxDuration then Some(BadDuration)
    else if rest < RestMinDuration || rest > RestMaxDuration then Some(BadRest)
    else None
  }

  /** The first failing check is reported, and a session may start exactly
      when the count is in [1, 10], the duration in [10, 600] and the rest
      in [5, 180]. */
  lemma SessionErrorCases(count: int, duration: int, rest: int)
    ensures SessionError(count, duration, rest) == Some(BadCount) <==> !(TimerMinPlanks <= count <= TimerMaxPlanks)
    ensures SessionError(count, duration, rest) == Some(BadDuration) <==>
      TimerMinPlanks <= count <= TimerMaxPlanks && !(PlankMinDuration <= duration <= PlankMaxDuration)
    ensures SessionError(count, duration, rest) == Some(BadRest) <==>
      TimerMinPlanks <= count <= TimerMaxPlanks && PlankMinDuration <= duration <= PlankMaxDuration
      && !(RestMinDuration <= rest <= RestMaxDuration)
    ensures SessionError(count, duration, rest).None? <==>
      TimerMinPlanks <= count <= TimerMaxPlanks && PlankMinDuration <= duration <= PlankMaxDuration
      && RestMinDuration <= rest <= RestMaxDuration
  {
  }

  /** The seconds left in a phase of `duration` seconds that began at
      millisecond `phaseStart`: whole elapsed seconds are subtracted and the
      result is never below 0. */
  function RemainingAt(duration: int, phaseStart: int, now: int): (r: int)
    ensures r >= 0
    ensures r == 0 <==> now - phaseStart >= 1000 * duration
    ensures r > 0 ==> r + (now - phaseStart) / 1000 == duration
  {
    var elapsed := (now - phaseStart) / 1000;
    if duration - elapsed > 0 then duration - elapsed else 0
  }

  /** Between `1000 * j` and `1000 * j + 999` milliseconds into a phase the
      display shows `duration - j` (or 0): one value per second. */
  lemma RemainingDuringSecond(duration: int, phaseStart: int, j: nat, ms: int)
    requires 0 <= ms < 1000
    ensures RemainingAt(duration, phaseStart, phaseStart + 1000 * j + ms)
      == if duration - j > 0 then duration - j else 0
  {
    assert (1000 * j + ms) / 1000 == j;
  }

  /** Remaining time never goes up as the clock moves forward within a phase. */
  lemma RemainingMonotone(duration: int, phaseStart: int, now1: int, now2: int)
    requires now1 <= now2
    ensures RemainingAt(duration, phaseStart, now2) <= RemainingAt(duration, phaseStart, now1)
  {
    DivMonotone(now1 - phaseStart, now2 - phaseStart);
  }

  lemma DivMonotone(a: int, b: int)
    requires a <= b
    ensures a / 1000 <= b / 1000
  {
    assert 1000 * (a / 1000) <= a <= b < 1000 * (b / 1000) + 1000;
  }

  /** The mm:ss text of `updateTimerDisplay`: whole minutes and the seconds
      left over, each zero-padded to two digits. */
  function FormatTime(t: nat): string {
    PadStart2(NatToString(t / 60)) + ":" + PadStart2(NatToString(t % 60))
  }

  /** Below 100 minutes the display is five characters `mm:ss` whose two
      fields read back as the minutes and the seconds of `t`. */
  lemma FormatTimeValue(t: nat)
    requires t < 6000
    ensures |FormatTime(t)| == 5 && FormatTime(t)[2] == ':'
    ensures AllDigits(FormatTime(t)[..2]) && AllDigits(FormatTime(t)[3..])
    ensures DigitsValue(FormatTime(t)[..2]) * 60 + DigitsValue(FormatTime(t)[3..]) == t
    ensures DigitsValue(FormatTime(t)[3..]) < 60
  {
    var m, s := PadStart2(NatToString(t / 60)), PadStart2(NatToString(t % 60));
    PadStart2Value(t / 60);
    PadStart2Value(t % 60);
    assert FormatTime(t) == m + ":" + s;
    assert FormatTime(t)[..2] == m;
    assert FormatTime(t)[3..] == s;
  }

  /** A list in which every element is `x` is `x` repeated. */
  lemma AllEqualIsCopies(s: seq<int>, x: int)
    requires forall i :: 0 <= i < |s| ==> s[i] == x
    ensures s == Copies(x, |s|)
  {
  }

  class PlankClub {
    /** The log: date to the durations of that day's planks. */
    var data: Log
    var timerState: TimerState
    /** The state to go back to on resume; set when pausing. */
    var previousTimerState: Option<TimerState>
    var currentPlank: int
    var totalPlanks: int
    var timeRemaining: int
    var plankDuration: int
    var restDuration: int
    var completedPlanks: seq<int>
    /** Millisecond instant the session started, while one runs. */
    var startTime: Option<int>
    /** Millisecond instant the current phase started (or was resumed). */
    var phaseStartTime: Option<int>
    var lastMetronomeSecond: Option<int>
    /** Whether the per-second interval is live. */
    var ticking: bool
    /** The timer settings last stored for next time. */
    var savedPreferences: Option<Preferences>
    /** The values announced by metronome ticks since the last start. */
    ghost var cues: seq<int>
    /** The beeps played at phase ends since the last start. */
    ghost var beeps: nat

    /** Consecutive metronome ticks announce different values, all within
        the last five seconds, and the last one is remembered. */
    ghost predicate MetronomeOk()
      reads this`cues, this`lastMetronomeSecond
    {
      && (forall i :: 0 <= i < |cues| ==> 0 < cues[i] <= MetronomeWindow)
      && (forall i :: 0 < i < |cues| ==> cues[i] != cues[i - 1])
      && lastMetronomeSecond == (if cues == [] then None else Some(cues[|cues| - 1]))
    }

    /** A session in `phase` (plank or rest): valid settings, the plank
        number in range, every finished plank logged at the full duration,
        one finished plank per plank before the current one (and the current
        one too during its rest, which never follows the last plank), and a
        beep for each phase that has ended. */
    ghost predicate Running(phase: TimerState)
      reads this`startTime, this`phaseStartTime, this`totalPlanks, this`plankDuration, this`restDuration
      reads this`currentPlank, this`completedPlanks, this`beeps
    {
      && startTime.Some? && phaseStartTime.Some?
      && TimerMinPlanks <= totalPlanks <= TimerMaxPlanks
      && PlankMinDuration <= plankDuration <= PlankMaxDuration
      && RestMinDuration <= restDuration <= RestMaxDuration
      && 1 <= currentPlank <= totalPlanks
      && (forall i :: 0 <= i < |completedPlanks| ==> completedPlanks[i] == plankDuration)
      && (phase == Plank ==> |completedPlanks| == currentPlank - 1 && beeps == 2 * (currentPlank - 1))
      && (phase == Rest ==>
            |completedPlanks| == currentPlank && currentPlank < totalPlanks && beeps == 2 * currentPlank - 1)
    }

    ghost predicate Valid()
      reads this
    {
      && timeRemaining >= 0
      && MetronomeOk()
      && (timerState == Idle ==> completedPlanks == [] && !ticking && startTime.None?)
      && ((timerState == Plank || timerState == Rest) ==> ticking && Running(timerState))
      && (timerState == Paused ==>
            && !ticking
            && (previousTimerState == Some(Plank) || previousTimerState == Some(Rest))
            && Running(previousTimerState.value))
    }

    /** The object as the page creates it: the stored log migrated to lists,
        or an empty log when nothing is stored, and an idle timer. */
    constructor(stored: Option<map<Day, StoredEntry>>, storedPreferences: Option<Preferences>)
      ensures Valid()
      ensures data == if stored.Some? then Normalize(stored.value) else map[]
      ensures timerState == Idle && previousTimerState == None
      ensures currentPlank == 0 && totalPlanks == 0 && timeRemaining == 0
      ensures plankDuration == 0 && restDuration == 0 && completedPlanks == []
      ensures startTime == None && phaseStartTime == None && lastMetronomeSecond == None
      ensures savedPreferences == storedPreferences
    {
      var loaded: Log := map[];
      if stored.Some? {
        loaded := Migrate(stored.value);
      }
      data := loaded;
      timerState := Idle;
      previousTimerState := None;
      currentPlank := 0;
      totalPlanks := 0;
      timeRemaining := 0;
      plankDuration := 0;
      restDuration := 0;
      completedPlanks := [];
      startTime := None;
      phaseStartTime := None;
      lastMetronomeSecond := None;
      ticking := false;
      savedPreferences := storedPreferences;
      cues := [];
      beeps := 0;
    }

    /** `logPlank`: invalid input leaves the log alone; otherwise today's
        list (created when absent) gains `count` copies of `seconds` at its
        end and no other date changes. */
    method LogPlank(today: Day, secondsInput: Option<int>, countInput: Option<int>)
      returns (r: Result<(int, nat), ManualError>)
      modifies this`data
      ensures r == ValidateManual(secondsInput, countInput)
      ensures r.Err? ==> data == old(data)
      ensures r.Ok? ==> data == old(data)[today := EntryOf(old(data), today) + Copies(r.value.0, r.value.1)]
    {
      if secondsInput.None? || secondsInput.value < 0 {
        return Err(InvalidSeconds);
      }
      var seconds := secondsInput.value;
      var count := OrDefault(countInput, 1);
      if count < ManualMinCount || count > ManualMaxCount {
        return Err(CountOutOfRange);
      }
      ghost var entry := EntryOf(data, today);
      if today !in data {
        data := data[today := []];
      }
      assert data == old(data)[today := entry];
      assert entry + Copies(seconds, 0) == entry;
      var i := 0;
      while i < count
        invariant 0 <= i <= count
        invariant data == old(data)[today := EntryOf(old(data), today) + Copies(seconds, i)]
      {
        assert Copies(seconds, i + 1) == Copies(seconds, i) + [seconds];
        assert data[today] + [seconds] == EntryOf(old(data), today) + Copies(seconds, i + 1);
        data := data[today := data[today] + [seconds]];
        i := i + 1;
      }
      return Ok((seconds, count));
    }

    /** `logTimedPlanks`: the finished planks go to the end of today's list
        (created when absent), then the finished list is emptied. */
    method LogTimedPlanks(today: Day)
      modifies this`data, this`completedPlanks
      ensures data == old(data)[today := EntryOf(old(data), today) + old(completedPlanks)]
      ensures completedPlanks == []
    {
      if today !in data {
        data := data[today := []];
      }
      data := data[today := data[today] + completedPlanks];
      completedPlanks := [];
    }

    /** `confirmClearStats`: deletes every date of the last `days` days that
        has an entry (even an empty list) and reports how many it deleted.
        The day count is read again without checks: a missing one clears
        nothing. */
    method ConfirmClearStats(today: Day, daysInput: Option<int>) returns (cleared: nat)
      modifies this`data
      ensures var days := if daysInput.None? then 0 else daysInput.value;
        data == old(data) - KeysInWindow(old(data), today, days)
        && cleared == |KeysInWindow(old(data), today, days)|
    {
      var days := if daysInput.None? then 0 else daysInput.value;
      cleared := 0;
      var i := 0;
      while i < days
        invariant 0 <= i && (i == 0 || i <= days)
        invariant data == old(data) - KeysInWindow(old(data), today, i)
        invariant cleared == |KeysInWindow(old(data), today, i)|
      {
        var d := today - i;
        if d in data {
          assert KeysInWindow(old(data), today, i + 1) == KeysInWindow(old(data), today, i) + {d};
          data := data - {d};
          cleared := cleared + 1;
        } else {
          assert KeysInWindow(old(data), today, i + 1) == KeysInWindow(old(data), today, i);
        }
        i := i + 1;
      }
      if days <= 0 {
        assert KeysInWindow(old(data), today, days) == {} == KeysInWindow(old(data), today, i);
      }
    }

    /** `startTimer`: missing or 0 fields take the defaults, the settings
        are stored for next time before any check, and they are kept in the
        fields even when a check fails. A failed check leaves the timer
        idle; otherwise the first plank starts now with its full duration. */
    method StartTimer(countInput: Option<int>, durationInput: Option<int>, restInput: Option<int>, now: int)
      returns (r: Option<StartError>)
      requires Valid() && timerState == Idle
      modifies this`totalPlanks, this`plankDuration, this`restDuration, this`savedPreferences
      modifies this`currentPlank, this`completedPlanks, this`timerState, this`timeRemaining, this`startTime
      modifies this`phaseStartTime, this`lastMetronomeSecond, this`cues, this`beeps, this`ticking
      ensures Valid()
      ensures totalPlanks == OrDefault(countInput, DefaultCount)
      ensures plankDuration == OrDefault(durationInput, DefaultDuration)
      ensures restDuration == OrDefault(restInput, DefaultRest)
      ensures savedPreferences == Some(Preferences(totalPlanks, plankDuration, restDuration))
      ensures r == SessionError(totalPlanks, plankDuration, restDuration)
      ensures r.Some? ==>
        && timerState == Idle && currentPlank == old(currentPlank) && completedPlanks == old(completedPlanks)
        && timeRemaining == old(timeRemaining) && startTime == old(startTime) && phaseStartTime == old(phaseStartTime)
        && lastMetronomeSecond == old(lastMetronomeSecond) && !ticking && cues == old(cues) && beeps == old(beeps)
      ensures r.None? ==>
        && timerState == Plank && currentPlank == 1 && completedPlanks == []
        && timeRemaining == plankDuration && startTime == Some(now) && phaseStartTime == Some(now)
        && lastMetronomeSecond == None && ticking && cues == [] && beeps == 0
    {
      totalPlanks := OrDefault(countInput, DefaultCount);
      plankDuration := OrDefault(durationInput, DefaultDuration);
      restDuration := OrDefault(restInput, DefaultRest);
      savedPreferences := Some(Preferences(totalPlanks, plankDuration, restDuration));
      r := SessionError(totalPlanks, plankDuration, restDuration);
      if r.None? {
        SessionErrorCases(totalPlanks, plankDuration, restDuration);
        BeginSession(now);
      }
    }

    /** The initialisation at the end of `startTimer`, once the settings
        have passed the checks. */
    method BeginSession(now: int)
      requires TimerMinPlanks <= totalPlanks <= TimerMaxPlanks
      requires PlankMinDuration <= plankDuration <= PlankMaxDuration
      requires RestMinDuration <= restDuration <= RestMaxDuration
      modifies this`currentPlank, this`completedPlanks, this`timerState, this`timeRemaining, this`startTime
      modifies this`phaseStartTime, this`lastMetronomeSecond, this`cues, this`beeps, this`ticking
      ensures Running(Plank) && MetronomeOk()
      ensures timerState == Plank && currentPlank == 1 && completedPlanks == []
      ensures timeRemaining == plankDuration && startTime == Some(now) && phaseStartTime == Some(now)
      ensures lastMetronomeSecond == None && ticking && cues == [] && beeps == 0
    {
      currentPlank := 1;
      completedPlanks := [];
      timerState := Plank;
      timeRemaining := plankDuration;
      startTime := Some(now);
      phaseStartTime := Some(now);
      lastMetronomeSecond := None;
      cues := [];
      beeps := 0;
      ticking := true;
    }

    /** `pauseTimer`, one button for both directions. Pausing freezes the
        remaining time computed from the phase clock and remembers the
        phase; resuming goes back to that phase and restarts the phase clock
        now, so the next tick counts from the full phase duration again. */
    method PauseTimer(now: int)
      requires Valid() && timerState != Idle
      modifies this`timerState, this`previousTimerState, this`phaseStartTime, this`ticking, this`timeRemaining
      ensures Valid()
      ensures old(timerState) == Paused ==>
        && timerState == old(previousTimerState).value && previousTimerState == None
        && phaseStartTime == Some(now) && timeRemaining == old(timeRemaining) && ticking
        && RemainingAt(if timerState == Plank then plankDuration else restDuration, now, now)
           == (if timerState == Plank then plankDuration else restDuration)
      ensures old(timerState) != Paused ==>
        && timerState == Paused && previousTimerState == Some(old(timerState))
        && phaseStartTime == old(phaseStartTime) && !ticking
        && timeRemaining == RemainingAt(
             if old(timerState) == Plank then plankDuration else restDuration, old(phaseStartTime).value, now)
    {
      if timerState == Paused {
        Resume(now);
      } else {
        Pause(now);
      }
    }

    /** The resume half of `pauseTimer`. */
    method Resume(now: int)
      requires Valid() && timerState == Paused
      modifies this`timerState, this`previousTimerState, this`phaseStartTime, this`ticking
      ensures Valid()
      ensures timerState == old(previousTimerState).value && previousTimerState == None
      ensures phaseStartTime == Some(now) && ticking
      ensures timeRemaining == old(timeRemaining)
      ensures var duration := if timerState == Plank then plankDuration else restDuration;
        RemainingAt(duration, phaseStartTime.value, now) == duration
    {
      timerState := if previousTimerState.Some? then previousTimerState.value else Plank;
      previousTimerState := None;
      phaseStartTime := Some(now);
      ticking := true;
    }

    /** The pause half of `pauseTimer`. */
    method Pause(now: int)
      requires Valid() && (timerState == Plank || timerState == Rest)
      modifies this`timerState, this`previousTimerState, this`ticking, this`timeRemaining
      ensures Valid()
      ensures timerState == Paused && previousTimerState == Some(old(timerState)) && !ticking
      ensures timeRemaining == RemainingAt(
        if old(timerState) == Plank then plankDuration else restDuration, phaseStartTime.value, now)
    {
      var elapsed := (now - phaseStartTime.value) / 1000;
      var phaseDuration := if timerState == Plank then plankDuration else restDuration;
      timeRemaining := if phaseDuration - elapsed > 0 then phaseDuration - elapsed else 0;
      previousTimerState := Some(timerState);
      timerState := Paused;
      ticking := false;
    }

    /** `stopTimer`: the timer goes idle and the interval stops; finished
        planks, if any, are logged to today (as copies of the plank duration
        while a session is valid) and nothing is logged otherwise. */
    method StopTimer(today: Day)
      requires timeRemaining >= 0 && MetronomeOk()
      modifies this`ticking, this`timerState, this`startTime, this`data, this`completedPlanks
      ensures Valid()
      ensures timerState == Idle && startTime == None && !ticking && completedPlanks == []
      ensures data == if |old(completedPlanks)| > 0
        then old(data)[today := EntryOf(old(data), today) + old(completedPlanks)]
        else old(data)
    {
      ticking := false;
      timerState := Idle;
      startTime := None;
      if |completedPlanks| > 0 {
        LogTimedPlanks(today);
      }
    }

    /** Stopping a session part-way logs exactly the planks finished so far,
        each at the full plank duration. */
    method StopSession(today: Day)
      requires Valid()
      modifies this`ticking, this`timerState, this`startTime, this`data, this`completedPlanks
      ensures Valid() && timerState == Idle
      ensures data == if |old(completedPlanks)| > 0
        then old(data)[today := EntryOf(old(data), today) + Copies(old(plankDuration), |old(completedPlanks)|)]
        else old(data)
    {
      if timerState != Idle {
        var phase := if timerState == Paused then previousTimerState.value else timerState;
        assert Running(phase);
        AllEqualIsCopies(completedPlanks, plankDuration);
      }
      StopTimer(today);
    }

    /** The metronome step of a tick: in the last five seconds of a phase,
        a tick plays and is remembered unless `remaining` is the value last
        announced. */
    method Metronome(remaining: int)
      requires MetronomeOk()
      modifies this`cues, this`lastMetronomeSecond
      ensures MetronomeOk()
      ensures var fired := 0 < remaining <= MetronomeWindow && old(lastMetronomeSecond) != Some(remaining);
        && cues == old(cues) + (if fired then [remaining] else [])
        && lastMetronomeSecond == (if fired then Some(remaining) else old(lastMetronomeSecond))
    {
      if remaining > 0 && remaining <= MetronomeWindow {
        if lastMetronomeSecond != Some(remaining) {
          cues := cues + [remaining];
          lastMetronomeSecond := Some(remaining);
        }
      }
    }

    /** One firing of the per-second interval of `runTimer`. The remaining
        time is recomputed from the phase clock; during the last five
        seconds a metronome tick plays unless that value was the last one
        announced. When the time is up, a plank either ends the session
        (all its planks go to today's log at once, and the timer stops) or
        starts a rest; a rest starts the next plank. */
    method Tick(now: int, today: Day)
      requires Valid() && (timerState == Plank || timerState == Rest)
      modifies this`timeRemaining, this`cues, this`lastMetronomeSecond, this`completedPlanks, this`beeps
      modifies this`data, this`timerState, this`startTime, this`ticking, this`phaseStartTime, this`currentPlank
      ensures Valid()
      ensures var rem := RemainingAt(
                if old(timerState) == Plank then old(plankDuration) else old(restDuration),
                old(phaseStartTime).value, now);
        var fired := 0 < rem <= MetronomeWindow && old(lastMetronomeSecond) != Some(rem);
        && cues == old(cues) + (if fired then [rem] else [])
        && lastMetronomeSecond == (if fired then Some(rem) else old(lastMetronomeSecond))
        && (rem > 0 ==>
              && timerState == old(timerState) && timeRemaining == rem && data == old(data)
              && currentPlank == old(currentPlank) && completedPlanks == old(completedPlanks)
              && phaseStartTime == old(phaseStartTime) && startTime == old(startTime) && beeps == old(beeps))
        && (rem == 0 && old(timerState) == Plank && old(currentPlank) >= old(totalPlanks) ==>
              && timerState == Idle && completedPlanks == [] && beeps == 2 * old(totalPlanks) - 1
              && startTime == None && currentPlank == old(currentPlank)
              && phaseStartTime == old(phaseStartTime) && timeRemaining == 0
              && data == old(data)[today := EntryOf(old(data), today) + Copies(old(plankDuration), old(totalPlanks))])
        && (rem == 0 && old(timerState) == Plank && old(currentPlank) < old(totalPlanks) ==>
              && timerState == Rest && currentPlank == old(currentPlank) && data == old(data)
              && completedPlanks == old(completedPlanks) + [old(plankDuration)]
              && phaseStartTime == Some(now) && timeRemaining == old(restDuration) && startTime == old(startTime)
              && beeps == old(beeps) + 1)
        && (rem == 0 && old(timerState) == Rest ==>
              && timerState == Plank && currentPlank == old(currentPlank) + 1 && data == old(data)
              && completedPlanks == old(completedPlanks)
              && phaseStartTime == Some(now) && timeRemaining == old(plankDuration) && startTime == old(startTime)
              && beeps == old(beeps) + 1)
    {
      CountDown(now);
      Metronome(timeRemaining);
      if timeRemaining <= 0 {
        EndPhase(now, today);
      }
    }

    /** The first step of a tick: the remaining time, recomputed from the
        phase clock and the full phase duration. */
    method CountDown(now: int)
      requires phaseStartTime.Some?
      modifies this`timeRemaining
      ensures timeRemaining == RemainingAt(
        if timerState == Plank then plankDuration else restDuration, phaseStartTime.value, now)
    {
      var elapsed := (now - phaseStartTime.value) / 1000;
      var phaseDuration := if timerState == Plank then plankDuration else restDuration;
      timeRemaining := if phaseDuration - elapsed > 0 then phaseDuration - elapsed else 0;
    }

    /** The time of the current phase is up: a plank ends (and with it,
        after the last plank, the session), or a rest ends. */
    method EndPhase(now: int, today: Day)
      requires (timerState == Plank || timerState == Rest) && ticking && Running(timerState)
      requires MetronomeOk() && timeRemaining == 0
      modifies this`completedPlanks, this`beeps, this`data, this`timerState, this`startTime, this`ticking
      modifies this`phaseStartTime, this`timeRemaining, this`currentPlank
      ensures Valid() && beeps == old(beeps) + 1
      ensures old(timerState) == Plank && old(currentPlank) >= old(totalPlanks) ==>
        && timerState == Idle && completedPlanks == []
        && data == old(data)[today := EntryOf(old(data), today) + Copies(old(plankDuration), old(totalPlanks))]
        && startTime == None && currentPlank == old(currentPlank)
        && phaseStartTime == old(phaseStartTime) && timeRemaining == 0
      ensures old(timerState) == Plank && old(currentPlank) < old(totalPlanks) ==>
        && timerState == Rest && currentPlank == old(currentPlank) && data == old(data)
        && completedPlanks == old(completedPlanks) + [old(plankDuration)]
        && phaseStartTime == Some(now) && timeRemaining == old(restDuration) && startTime == old(startTime)
      ensures old(timerState) == Rest ==>
        && timerState == Plank && currentPlank == old(currentPlank) + 1 && data == old(data)
        && completedPlanks == old(completedPlanks)
        && phaseStartTime == Some(now) && timeRemaining == old(plankDuration) && startTime == old(startTime)
    {
      if timerState == Plank {
        EndPlank(now, today);
      } else if timerState == Rest {
        EndRest(now);
      }
    }

    /** A plank's time is up: it counts as finished at the full duration and
        a beep plays. After the last plank the whole session goes to today's
        log and the timer stops; otherwise the rest starts now. */
    method EndPlank(now: int, today: Day)
      requires timerState == Plank && ticking && Running(Plank) && MetronomeOk() && timeRemaining == 0
      modifies this`completedPlanks, this`beeps, this`data, this`timerState, this`startTime, this`ticking
      modifies this`phaseStartTime, this`timeRemaining
      ensures Valid()
      ensures beeps == old(beeps) + 1
      ensures old(currentPlank) >= old(totalPlanks) ==>
        && timerState == Idle && completedPlanks == []
        && data == old(data)[today := EntryOf(old(data), today) + Copies(old(plankDuration), old(totalPlanks))]
        && startTime == None && currentPlank == old(currentPlank)
        && phaseStartTime == old(phaseStartTime) && timeRemaining == 0
      ensures old(currentPlank) < old(totalPlanks) ==>
        && timerState == Rest && currentPlank == old(currentPlank) && data == old(data)
        && completedPlanks == old(completedPlanks) + [old(plankDuration)]
        && phaseStartTime == Some(now) && timeRemaining == old(restDuration) && startTime == old(startTime)
    {
      completedPlanks := completedPlanks + [plankDuration];
      beeps := beeps + 1;
      if currentPlank >= totalPlanks {
        FinishSession(today);
      } else {
        StartRest(now);
      }
    }

    /** The last plank has ended: all its planks go to today's log and the
        timer stops. */
    method FinishSession(today: Day)
      requires MetronomeOk() && timeRemaining == 0
      requires forall i :: 0 <= i < |completedPlanks| ==> completedPlanks[i] == plankDuration
      modifies this`completedPlanks, this`data, this`timerState, this`startTime, this`ticking
      ensures Valid() && timerState == Idle && completedPlanks == [] && startTime == None
      ensures data == old(data)[today := EntryOf(old(data), today) + Copies(plankDuration, |old(completedPlanks)|)]
    {
      AllEqualIsCopies(completedPlanks, plankDuration);
      LogTimedPlanks(today);
      StopTimer(today);
    }

    /** A plank other than the last has ended: the rest starts now. */
    method StartRest(now: int)
      requires ticking && MetronomeOk() && Running(Rest)
      modifies this`timerState, this`phaseStartTime, this`timeRemaining
      ensures Valid()
      ensures timerState == Rest && phaseStartTime == Some(now) && timeRemaining == restDuration
    {
      timerState := Rest;
      phaseStartTime := Some(now);
      timeRemaining := restDuration;
    }

    /** A rest's time is up: a beep plays and the next plank starts now. */
    method EndRest(now: int)
      requires timerState == Rest && ticking && Running(Rest) && MetronomeOk() && timeRemaining == 0
      modifies this`beeps, this`currentPlank, this`timerState, this`phaseStartTime, this`timeRemaining
      ensures Valid()
      ensures timerState == Plank && currentPlank == old(currentPlank) + 1 && beeps == old(beeps) + 1
      ensures phaseStartTime == Some(now) && timeRemaining == plankDuration
    {
      beeps := beeps + 1;
      currentPlank := currentPlank + 1;
      timerState := Plank;
      phaseStartTime := Some(now);
      timeRemaining := plankDuration;
    }
  }
}
