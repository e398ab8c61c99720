/** The Pomodoro timer of `src/components/pomodoro/Pomodoro.jsx`.

    The component keeps its state in React state cells and changes it
    through setters; here that state is the record `TimerState`, every
    handler is a function from the old record to the new one, and the class
    `Timer` holds the same fields and updates them in place, each method
    proved to agree with its function. The one-second interval and the
    effect that reacts to `timeLeft` reaching zero are replaced by the
    explicit `Step`. */
module Pomodoro {
  import opened Wrappers
  import opened Decimal

  datatype Mode = Work | ShortBreak | LongBreak

  const DEFAULT_WORK_TIME: nat := 25 * 60
  const DEFAULT_SHORT_BREAK: nat := 5 * 60
  const DEFAULT_LONG_BREAK: nat := 15 * 60
  const DEFAULT_CYCLES_BEFORE_LONG_BREAK: nat := 4

  /** What the component writes to and reads from storage. */
  datatype Settings = Settings(
    workTime: nat,
    shortBreakTime: nat,
    longBreakTime: nat,
    totalCompletedCycles: nat)

  const DEFAULT_SETTINGS := Settings(DEFAULT_WORK_TIME, DEFAULT_SHORT_BREAK, DEFAULT_LONG_BREAK, 0)

  /** Every state cell of the component except the UI toggle `showSettings`;
      durations are in seconds. */
  datatype TimerState = TimerState(
    mode: Mode,
    timeLeft: nat,
    isActive: bool,
    cycles: nat,
    totalCompletedCycles: nat,
    workTime: nat,
    shortBreakTime: nat,
    longBreakTime: nat)

  /** The configured length of a mode; like the source's if/else-if/else,
      anything that is neither work nor a short break gets the long-break
      length. */
  function DurationOf(s: TimerState, m: Mode): nat {
    if m == Work then s.workTime
    else if m == ShortBreak then s.shortBreakTime
    else s.longBreakTime
  }

  /** The state after mounting with the given loaded settings: a paused
      work interval of full length, no work intervals completed yet. */
  function Mounted(saved: Settings): (r: TimerState)
    ensures r.mode == Work && !r.isActive && r.cycles == 0
    ensures r.timeLeft == DurationOf(r, Work) == saved.workTime
    ensures Persisted(r) == saved
  {
    TimerState(Work, saved.workTime, false, 0, saved.totalCompletedCycles,
               saved.workTime, saved.shortBreakTime, saved.longBreakTime)
  }

  /** The object the persistence effect stores. */
  function Persisted(s: TimerState): Settings {
    Settings(s.workTime, s.shortBreakTime, s.longBreakTime, s.totalCompletedCycles)
  }

  /** `handleTimerComplete`: a finished work interval counts a cycle and
      starts a break, long on every fourth cycle; a finished break starts
      work, and a finished long break counts a completed round. The timer is
      paused afterwards. */
  function Completed(s: TimerState): (r: TimerState)
    ensures !r.isActive
    ensures Persisted(r).(totalCompletedCycles := s.totalCompletedCycles) == Persisted(s)
    ensures r.timeLeft == DurationOf(r, r.mode)
    ensures s.mode == Work ==>
      && r.cycles == s.cycles + 1
      && r.mode != Work
      && (r.mode == LongBreak <==> r.cycles % 4 == 0)
      && r.totalCompletedCycles == s.totalCompletedCycles
    ensures s.mode != Work ==>
      && r.mode == Work
      && r.cycles == s.cycles
      && (r.totalCompletedCycles == s.totalCompletedCycles + 1 <==> s.mode == LongBreak)
      && (r.totalCompletedCycles == s.totalCompletedCycles || r.totalCompletedCycles == s.totalCompletedCycles + 1)
  {
    if s.mode == Work then
      var newCycles := s.cycles + 1;
      if newCycles % DEFAULT_CYCLES_BEFORE_LONG_BREAK == 0 then
        s.(cycles := newCycles, mode := LongBreak, timeLeft := s.longBreakTime, isActive := false)
      else
        s.(cycles := newCycles, mode := ShortBreak, timeLeft := s.shortBreakTime, isActive := false)
    else
      var total := if s.mode == LongBreak then s.totalCompletedCycles + 1 else s.totalCompletedCycles;
      s.(mode := Work, timeLeft := s.workTime, totalCompletedCycles := total, isActive := false)
  }

  /** What completion announces through the browser notification. */
  datatype Notice = Silent | WorkFinished | BreakFinished

  /** One run of the timer effect: a running timer with time left loses one
      second and nothing else; a running timer at zero completes; a paused
      timer stays as it is. */
  function Stepped(s: TimerState): (r: TimerState)
    ensures !s.isActive ==> r == s
    ensures s.isActive && s.timeLeft > 0 ==>
      r.timeLeft + 1 == s.timeLeft && r.(timeLeft := s.timeLeft) == s
    ensures s.isActive && s.timeLeft == 0 ==> r == Completed(s)
  {
    if s.isActive && s.timeLeft > 0 then s.(timeLeft := s.timeLeft - 1)
    else if s.isActive && s.timeLeft == 0 then Completed(s)
    else s
  }

  /** The notification one run of the timer effect raises. */
  function NoticeOf(s: TimerState): Notice {
    if s.isActive && s.timeLeft == 0 then
      if s.mode == Work then WorkFinished else BreakFinished
    else Silent
  }

  /** `toggleTimer`: start or pause, nothing else. */
  function Toggled(s: TimerState): (r: TimerState)
    ensures r.isActive == !s.isActive
    ensures r.(isActive := s.isActive) == s
  {
    s.(isActive := !s.isActive)
  }

  /** `resetTimer`: pause and refill the current mode. */
  function Reset(s: TimerState): (r: TimerState)
    ensures !r.isActive && r.timeLeft == DurationOf(s, s.mode)
    ensures r.(isActive := s.isActive, timeLeft := s.timeLeft) == s
  {
    s.(isActive := false, timeLeft := DurationOf(s, s.mode))
  }

  /** `changeMode`: pause, switch to `m` and fill it, abandoning whatever
      was left of the old countdown. */
  function ChangedMode(s: TimerState, m: Mode): (r: TimerState)
    ensures !r.isActive && r.mode == m && r.timeLeft == DurationOf(s, m)
    ensures r.(isActive := s.isActive, mode := s.mode, timeLeft := s.timeLeft) == s
  {
    s.(isActive := false, mode := m, timeLeft := DurationOf(s, m))
  }

  /** `saveSettings`: refill the current mode from the (possibly just
      edited) durations; unlike reset it does not pause. */
  function Saved(s: TimerState): (r: TimerState)
    ensures r.timeLeft == DurationOf(r, r.mode)
    ensures r.(timeLeft := s.timeLeft) == s
  {
    s.(timeLeft := DurationOf(s, s.mode))
  }

  /** `minutesToSeconds` for a numeric input: the whole seconds in `minutes`
      minutes, rounded down, but never less than one. */
  function MinutesToSeconds(minutes: real): (r: int)
    ensures r >= 1
    ensures r == 1 <==> minutes * 60.0 < 2.0
    ensures r > 1 ==> r as real <= minutes * 60.0 < r as real + 1.0
  {
    var seconds := (minutes * 60.0).Floor;
    if 1 >= seconds then 1 else seconds
  }

  /** For a whole number of minutes, at least one, the conversion is exact. */
  lemma WholeMinutes(n: int)
    requires n >= 1
    ensures MinutesToSeconds(n as real) == 60 * n
  {
    assert n as real * 60.0 == (60 * n) as real;
  }

  /** One of the three duration inputs: `field` picks the input, `minutes`
      is its numeric value. The countdown is left alone. */
  function Edited(s: TimerState, field: Mode, minutes: real): (r: TimerState)
    ensures DurationOf(r, field) == MinutesToSeconds(minutes)
    ensures forall m :: m != field ==> DurationOf(r, m) == DurationOf(s, m)
    ensures r.mode == s.mode && r.timeLeft == s.timeLeft && r.isActive == s.isActive
    ensures r.cycles == s.cycles && r.totalCompletedCycles == s.totalCompletedCycles
  {
    var seconds := MinutesToSeconds(minutes);
    match field
    case Work => s.(workTime := seconds)
    case ShortBreak => s.(shortBreakTime := seconds)
    case LongBreak => s.(longBreakTime := seconds)
  }

  /** `formatTime`: whole minutes and the remaining seconds, each written
      with at least two digits, separated by a colon. */
  function FormatTime(seconds: nat): string {
    PadStart(FromNat(seconds / 60), 2, '0') + ":" + PadStart(FromNat(seconds % 60), 2, '0')
  }

  /** The clock face is at least `mm:ss`: the whole minutes in digits, a
      colon, then exactly two digits holding the seconds below a minute. */
  lemma FormatTimeShape(seconds: nat)
    ensures var r := FormatTime(seconds);
      && |r| >= 5 && r[|r| - 3] == ':'
      && AllDigits(r[..|r| - 3]) && AllDigits(r[|r| - 2..])
      && ToNat(r[..|r| - 3]) == seconds / 60
      && ToNat(r[|r| - 2..]) == seconds % 60 < 60
  {
    var q := seconds / 60;
    var m := seconds % 60;
    assert m < 60;
    var mins := PadStart(FromNat(q), 2, '0');
    var secs := PadStart(FromNat(m), 2, '0');
    PaddedNumber(q);
    PaddedNumber(m);
    FieldRoundTrip(q);
    FieldRoundTrip(m);
    ClockShape(mins, secs);
    assert FormatTime(seconds) == mins + ":" + secs;
  }

  /** Two digit fields joined by a colon keep both fields recoverable. */
  lemma ClockShape(mins: string, secs: string)
    requires |mins| >= 2 && |secs| == 2 && AllDigits(mins) && AllDigits(secs)
    ensures var r := mins + ":" + secs;
      |r| >= 5 && r[|r| - 3] == ':' && r[..|r| - 3] == mins && r[|r| - 2..] == secs
  {
    var r := mins + ":" + secs;
    assert r[..|r| - 3] == mins;
    assert r[|r| - 2..] == secs;
  }

  /** Reading an `MM:SS` display back as a number of seconds. */
  function ParseClock(t: string): Option<nat> {
    var k := IndexOf(t, ':');
    if k < 0 then None else ParseFields(t[..k], t[k + 1..])
  }

  /** The seconds denoted by a minutes field and a seconds field. */
  function ParseFields(mins: string, secs: string): Option<nat> {
    if 1 <= |mins| && 1 <= |secs| && AllDigits(mins) && AllDigits(secs)
    then Some(ToNat(mins) * 60 + ToNat(secs))
    else None
  }

  /** A display splits at its colon into its two fields. */
  lemma ParseClockSplits(mins: string, secs: string)
    requires AllDigits(mins)
    ensures ParseClock(mins + ":" + secs) == ParseFields(mins, secs)
  {
    var t := mins + ":" + secs;
    DigitsExclude(mins, ':');
    IndexOfFirst(mins, ':', secs);
    assert t[..|mins|] == mins;
    assert t[|mins| + 1..] == secs;
  }

  /** Fields denoting the minutes and the remaining seconds of `seconds`
      denote `seconds`. */
  lemma ParseFieldsValue(seconds: nat, mins: string, secs: string)
    requires 1 <= |mins| && 1 <= |secs| && AllDigits(mins) && AllDigits(secs)
    requires ToNat(mins) == seconds / 60 && ToNat(secs) == seconds % 60
    ensures ParseFields(mins, secs) == Some(seconds)
  {
    MinutesAndSeconds(seconds);
  }

  lemma MinutesAndSeconds(seconds: nat)
    ensures (seconds / 60) * 60 + seconds % 60 == seconds
  {
  }

  /** The display denotes exactly the seconds it was made from. */
  lemma FormatTimeRoundTrip(seconds: nat)
    ensures ParseClock(FormatTime(seconds)) == Some(seconds)
  {
    var q, r := seconds / 60, seconds % 60;
    var mins, secs := PadStart(FromNat(q), 2, '0'), PadStart(FromNat(r), 2, '0');
    FieldRoundTrip(q);
    FieldRoundTrip(r);
    ParseClockSplits(mins, secs);
    ParseFieldsValue(seconds, mins, secs);
    assert FormatTime(seconds) == mins + ":" + secs;
  }

  /** One padded field reads back as the number it shows. */
  lemma FieldRoundTrip(n: nat)
    ensures AllDigits(PadStart(FromNat(n), 2, '0'))
    ensures ToNat(PadStart(FromNat(n), 2, '0')) == n
  {
    ToNatPadStart(FromNat(n), 2);
    ToNatFromNat(n);
  }

  /** The user's and the clock's actions, as the component receives them. */
  datatype Event =
    | Second                              // one run of the timer effect
    | ToggleTimer
    | ResetTimer
    | ChangeMode(to: Mode)
    | EditDuration(field: Mode, minutes: real)
    | SaveSettings

  function Apply(s: TimerState, e: Event): TimerState {
    match e
    case Second => Stepped(s)
    case ToggleTimer => Toggled(s)
    case ResetTimer => Reset(s)
    case ChangeMode(m) => ChangedMode(s, m)
    case EditDuration(field, minutes) => Edited(s, field, minutes)
    case SaveSettings => Saved(s)
  }

  /** The state after the events `es`, first to last. */
  function Run(s: TimerState, es: seq<Event>): TimerState
    decreases |es|
  {
    if es == [] then s else Run(Apply(s, es[0]), es[1..])
  }

  predicate PositiveDurations(s: TimerState) {
    s.workTime >= 1 && s.shortBreakTime >= 1 && s.longBreakTime >= 1
  }

  /** Durations stay positive whatever happens, because every edit goes
      through `MinutesToSeconds`. */
  lemma {:induction false} RunKeepsDurationsPositive(s: TimerState, es: seq<Event>)
    requires PositiveDurations(s)
    ensures PositiveDurations(Run(s, es))
    decreases |es|
  {
    if es != [] {
      RunKeepsDurationsPositive(Apply(s, es[0]), es[1..]);
    }
  }

  /** The completed-rounds counter never goes down. */
  lemma {:induction false} RunNeverLosesRounds(s: TimerState, es: seq<Event>)
    ensures Run(s, es).totalCompletedCycles >= s.totalCompletedCycles
    decreases |es|
  {
    if es != [] {
      RunNeverLosesRounds(Apply(s, es[0]), es[1..]);
    }
  }

  /** The countdown fits in its mode. */
  predicate WithinMode(s: TimerState) {
    s.timeLeft <= DurationOf(s, s.mode)
  }

  predicate EditsNothing(es: seq<Event>) {
    forall i :: 0 <= i < |es| ==> !es[i].EditDuration?
  }

  /** Without duration edits the countdown never exceeds the length of its
      mode; an edit can break this until the next save. */
  lemma {:induction false} RunStaysWithinMode(s: TimerState, es: seq<Event>)
    requires WithinMode(s) && EditsNothing(es)
    ensures WithinMode(Run(s, es))
    decreases |es|
  {
    if es != [] {
      RunStaysWithinMode(Apply(s, es[0]), es[1..]);
    }
  }

  /** An edit to a duration can leave the countdown longer than its mode. */
  lemma EditCanExceedMode()
    ensures !WithinMode(Edited(Mounted(DEFAULT_SETTINGS), Work, 1.0))
  {
  }

  /** Saving always brings the countdown back within its mode. */
  lemma SaveRestoresWithinMode(s: TimerState)
    ensures WithinMode(Saved(s))
  {
  }

  /** The long-break bookkeeping against the rounds counted before, `base`:
      outside a long break one round has been completed per
      `DEFAULT_CYCLES_BEFORE_LONG_BREAK` work intervals; during a long break its own round is not yet counted. */
  predicate RoundsAccounted(s: TimerState, base: nat) {
    if s.mode == LongBreak then
      && s.cycles % DEFAULT_CYCLES_BEFORE_LONG_BREAK == 0
      && s.cycles >= DEFAULT_CYCLES_BEFORE_LONG_BREAK
      && s.totalCompletedCycles + 1 == base + s.cycles / DEFAULT_CYCLES_BEFORE_LONG_BREAK
    else
      s.totalCompletedCycles == base + s.cycles / DEFAULT_CYCLES_BEFORE_LONG_BREAK
  }

  predicate PicksNoMode(es: seq<Event>) {
    forall i :: 0 <= i < |es| ==> !es[i].ChangeMode?
  }

  lemma ApplyKeepsRoundsAccounted(s: TimerState, e: Event, base: nat)
    requires RoundsAccounted(s, base) && !e.ChangeMode?
    ensures RoundsAccounted(Apply(s, e), base)
  {
  }

  /** Left to the timer (no manual mode changes), rounds are counted exactly
      once per long break, and a long break happens on every fourth work
      interval. */
  lemma {:induction false} RunKeepsRoundsAccounted(s: TimerState, es: seq<Event>, base: nat)
    requires RoundsAccounted(s, base) && PicksNoMode(es)
    ensures RoundsAccounted(Run(s, es), base)
    decreases |es|
  {
    if es != [] {
      ApplyKeepsRoundsAccounted(s, es[0], base);
      RunKeepsRoundsAccounted(Apply(s, es[0]), es[1..], base);
    }
  }

  /** From mounting, the counter of completed rounds is the number of finished
      long breaks: a quarter of the work intervals, one less while a long
      break is running. */
  lemma MountedRunAccounted(saved: Settings, es: seq<Event>)
    requires PicksNoMode(es)
    ensures RoundsAccounted(Run(Mounted(saved), es), saved.totalCompletedCycles)
  {
    RunKeepsRoundsAccounted(Mounted(saved), es, saved.totalCompletedCycles);
  }

  /** A running work interval at zero with three cycles done goes to a long
      break of the default length. */
  lemma FourthWorkIntervalEarnsLongBreak()
    ensures var s := Mounted(DEFAULT_SETTINGS).(timeLeft := 0, isActive := true, cycles := 3);
            Stepped(s) == s.(mode := LongBreak, timeLeft := 900, cycles := 4, isActive := false)
  {
  }

  /** `n` completions in a row, as happen when each interval runs out. */
  function Completions(s: TimerState, n: nat): TimerState
    decreases n
  {
    if n == 0 then s else Completions(Completed(s), n - 1)
  }

  lemma {:induction false} CompletionsSplit(s: TimerState, m: nat, n: nat)
    ensures Completions(s, m + n) == Completions(Completions(s, m), n)
    decreases m
  {
    if m > 0 {
      CompletionsSplit(Completed(s), m - 1, n);
    }
  }

  /** A full round from mounting: the first three work intervals are followed
      by short breaks, the fourth by a long break, and only finishing that
      long break counts a completed round. */
  lemma FullRound(saved: Settings)
    ensures var s := Completions(Mounted(saved), 7);
      s.mode == LongBreak && s.cycles == 4 && s.timeLeft == saved.longBreakTime
      && s.totalCompletedCycles == saved.totalCompletedCycles
    ensures forall k :: 0 <= k < 7 ==>
      Completions(Mounted(saved), k).totalCompletedCycles == saved.totalCompletedCycles
      && Completions(Mounted(saved), k).mode != LongBreak
    ensures var s := Completions(Mounted(saved), 8);
      s.mode == Work && s.cycles == 4 && s.totalCompletedCycles == saved.totalCompletedCycles + 1
  {
    var s0 := Mounted(saved);
    var s1 := Completed(s0);
    var s2 := Completed(s1);
    var s3 := Completed(s2);
    var s4 := Completed(s3);
    var s5 := Completed(s4);
    var s6 := Completed(s5);
    var s7 := Completed(s6);
    var s8 := Completed(s7);
    assert s1.mode == ShortBreak && s2.mode == Work && s3.mode == ShortBreak && s4.mode == Work;
    assert s5.mode == ShortBreak && s6.mode == Work && s6.cycles == 3 && s7.mode == LongBreak;
    assert Completions(s0, 1) == s1 by { assert Completions(s1, 0) == s1; }
    CompletionsSplit(s0, 1, 1);
    CompletionsSplit(s0, 2, 1);
    CompletionsSplit(s0, 3, 1);
    CompletionsSplit(s0, 4, 1);
    CompletionsSplit(s0, 5, 1);
    CompletionsSplit(s0, 6, 1);
    CompletionsSplit(s0, 7, 1);
    assert forall t :: Completions(t, 1) == Completed(t) by {
      forall t ensures Completions(t, 1) == Completed(t) {
        assert Completions(Completed(t), 0) == Completed(t);
      }
    }
    assert Completions(s0, 0) == s0;
  }

  lemma ResetIsIdempotent(s: TimerState)
    ensures Reset(Reset(s)) == Reset(s)
  {
  }

  /** The component's state cells, updated in place by its handlers. */
  class Timer {
    var mode: Mode
    var timeLeft: nat
    var isActive: bool
    var cycles: nat
    var totalCompletedCycles: nat
    var workTime: nat
    var shortBreakTime: nat
    var longBreakTime: nat

    function State(): TimerState
      reads this
    {
      TimerState(mode, timeLeft, isActive, cycles, totalCompletedCycles,
                 workTime, shortBreakTime, longBreakTime)
    }

    /** Mounting with the settings found in storage, or the defaults. */
    constructor (saved: Option<Settings>)
      ensures State() == Mounted(saved.GetOr(DEFAULT_SETTINGS))
    {
      var settings := saved.GetOr(DEFAULT_SETTINGS);
      timeLeft := settings.workTime;
      isActive := false;
      mode := Work;
      cycles := 0;
      totalCompletedCycles := settings.totalCompletedCycles;
      workTime := settings.workTime;
      shortBreakTime := settings.shortBreakTime;
      longBreakTime := settings.longBreakTime;
    }

    /** `handleTimerComplete`. The long-break check reads the mode the
        handler started with, as the source's closure does. */
    method HandleTimerComplete()
      modifies this
      ensures State() == Completed(old(State()))
    {
      if mode == Work {
        var newCycles := cycles + 1;
        cycles := newCycles;
        if newCycles % DEFAULT_CYCLES_BEFORE_LONG_BREAK == 0 {
          mode := LongBreak;
          timeLeft := longBreakTime;
        } else {
          mode := ShortBreak;
          timeLeft := shortBreakTime;
        }
      } else {
        var finished := mode;
        mode := Work;
        timeLeft := workTime;
        if finished == LongBreak {
          totalCompletedCycles := totalCompletedCycles + 1;
        }
      }
      isActive := false;
    }

    /** One run of the timer effect; returns the notification it raises. */
    method Step() returns (notice: Notice)
      modifies this
      ensures State() == Stepped(old(State()))
      ensures notice == NoticeOf(old(State()))
      ensures notice != Silent <==> old(isActive) && old(timeLeft) == 0
    {
      if isActive && timeLeft > 0 {
        timeLeft := timeLeft - 1;
        notice := Silent;
      } else if isActive && timeLeft == 0 {
        notice := if mode == Work then WorkFinished else BreakFinished;
        HandleTimerComplete();
      } else {
        notice := Silent;
      }
    }

    method ToggleTimer()
      modifies this
      ensures State() == Toggled(old(State()))
    {
      isActive := !isActive;
    }

    method ResetTimer()
      modifies this
      ensures State() == Reset(old(State()))
    {
      isActive := false;
      timeLeft := DurationOf(State(), mode);
    }

    method ChangeMode(newMode: Mode)
      modifies this
      ensures State() == ChangedMode(old(State()), newMode)
    {
      isActive := false;
      mode := newMode;
      timeLeft := DurationOf(State(), newMode);
    }

    /** The `onChange` handler of one of the three duration inputs. */
    method EditDuration(field: Mode, minutes: real)
      modifies this
      ensures State() == Edited(old(State()), field, minutes)
    {
      var seconds := MinutesToSeconds(minutes);
      match field
      case Work => workTime := seconds;
      case ShortBreak => shortBreakTime := seconds;
      case LongBreak => longBreakTime := seconds;
    }

    method SaveSettings()
      modifies this
      ensures State() == Saved(old(State()))
    {
      timeLeft := DurationOf(State(), mode);
    }

    /** What the persistence effect writes. */
    function SettingsToSave(): (r: Settings)
      reads this
      ensures Persisted(Mounted(r)) == Persisted(State())
    {
      Persisted(State())
    }
  }
}
