/** The Pomodoro timer and completion streak. The streak record update is a pure function of the
    previous record and today's date; the timer is a small state machine whose fields the provider
    updates one step at a time. A "step" is one run of the timer effect: one interval callback while
    time is left, or the immediate completion once it reaches zero. */
module PomodoroContext {

  import opened Wrappers

  datatype Mode = Pomodoro | ShortBreak | LongBreak

  /** `TIMER_MODES`, in minutes. */
  function Duration(m: Mode): (r: nat)
    ensures r > 0
  {
    match m
    case Pomodoro => 25
    case ShortBreak => 5
    case LongBreak => 15
  }

  /** The full length of a mode, in seconds. */
  function Seconds(m: Mode): nat {
    Duration(m) * 60
  }

  /** Days are the `YYYY-MM-DD` text of `toISOString().split('T')[0]`. */
  datatype StreakData = StreakData(
    currentStreak: nat,
    lastCompletedDate: Option<string>,
    longestStreak: nat,
    totalCompletions: nat)

  const INITIAL_STREAK := StreakData(0, None, 0, 0)

  /** The longest streak is never below the current one. */
  predicate StreakConsistent(s: StreakData) {
    s.currentStreak <= s.longestStreak
  }

  /** The functional update passed to `setStreakData` in `handlePomodoroComplete`. */
  function CompletedStreak(prev: StreakData, today: string): StreakData {
    var firstToday := prev.lastCompletedDate != Some(today);
    var current := if firstToday then prev.currentStreak + 1 else prev.currentStreak;
    StreakData(current, Some(today), if current >= prev.longestStreak then current else prev.longestStreak,
               prev.totalCompletions + 1)
  }

  /** One completion adds exactly one to the total, and the last completed date becomes today. */
  lemma {:induction false} CompletionCountsOne(prev: StreakData, today: string)
    ensures CompletedStreak(prev, today).totalCompletions == prev.totalCompletions + 1
    ensures CompletedStreak(prev, today).lastCompletedDate == Some(today)
  {
  }

  /** The current streak grows by one exactly when the last completion was on another day (or there
      was none), and is otherwise unchanged. */
  lemma {:induction false} StreakGrowsIffNewDay(prev: StreakData, today: string)
    ensures var r := CompletedStreak(prev, today);
      (r.currentStreak == prev.currentStreak + 1 <==> prev.lastCompletedDate != Some(today))
      && (r.currentStreak == prev.currentStreak <==> prev.lastCompletedDate == Some(today))
  {
  }

  /** The longest streak becomes the larger of the new current streak and the old longest, so it
      keeps bounding the current streak. */
  lemma {:induction false} LongestIsMax(prev: StreakData, today: string)
    ensures var r := CompletedStreak(prev, today);
      r.longestStreak >= r.currentStreak && r.longestStreak >= prev.longestStreak
      && (r.longestStreak == r.currentStreak || r.longestStreak == prev.longestStreak)
    ensures StreakConsistent(prev) ==> StreakConsistent(CompletedStreak(prev, today))
  {
  }

  /** A second completion on the same day only adds to the total. */
  lemma {:induction false} SameDayTwice(prev: StreakData, today: string)
    ensures var once := CompletedStreak(prev, today);
      var twice := CompletedStreak(once, today);
      twice == once.(totalCompletions := once.totalCompletions + 1)
  {
  }

  /** Completions on a run of days, oldest first. */
  function CompletedOn(prev: StreakData, days: seq<string>): StreakData
    decreases |days|
  {
    if days == [] then prev else CompletedOn(CompletedStreak(prev, days[0]), days[1..])
  }

  /** How many of `days` differ from the day before them (the first from `last`). */
  function DayChanges(last: Option<string>, days: seq<string>): nat
    decreases |days|
  {
    if days == [] then 0 else (if last != Some(days[0]) then 1 else 0) + DayChanges(Some(days[0]), days[1..])
  }

  /** Over any run of completions the total counts every one, the current streak counts the changes
      of day, and the longest streak never falls below it. */
  lemma {:induction false} CompletedOnCounts(prev: StreakData, days: seq<string>)
    requires StreakConsistent(prev)
    ensures var r := CompletedOn(prev, days);
      r.totalCompletions == prev.totalCompletions + |days|
      && r.currentStreak == prev.currentStreak + DayChanges(prev.lastCompletedDate, days)
      && StreakConsistent(r) && r.longestStreak >= prev.longestStreak
      && (days != [] ==> r.lastCompletedDate == Some(days[|days| - 1]))
    decreases |days|
  {
    if days != [] {
      var next := CompletedStreak(prev, days[0]);
      LongestIsMax(prev, days[0]);
      CompletedOnCounts(next, days[1..]);
      if |days| > 1 {
        assert days[1..][|days[1..]| - 1] == days[|days| - 1];
      }
    }
  }

  /** The provider's timer and counter state. `muted` and the setters exported for the page are
      not part of this model. */
  datatype TimerState = TimerState(
    mode: Mode,
    timeLeft: int,
    isActive: bool,
    completedPomodoros: nat,
    streak: StreakData)

  const INITIAL_TIMER := TimerState(Pomodoro, Seconds(Pomodoro), false, 0, INITIAL_STREAK)

  /** What every reachable state satisfies: the clock lies within the mode's length and the streak is
      consistent. */
  predicate TimerValid(s: TimerState) {
    0 <= s.timeLeft <= Seconds(s.mode) && StreakConsistent(s.streak)
  }

  /** `setMode` followed by the `[mode]` effect, which runs only when the mode changes. */
  function ModeSet(s: TimerState, m: Mode): TimerState {
    if m == s.mode then s else s.(mode := m, timeLeft := Seconds(m), isActive := false)
  }

  function Toggled(s: TimerState): TimerState {
    s.(isActive := !s.isActive)
  }

  function Reset(s: TimerState): TimerState {
    s.(isActive := false, timeLeft := Seconds(s.mode))
  }

  /** `handlePomodoroComplete`. */
  function Completed(s: TimerState, today: string): TimerState {
    s.(completedPomodoros := s.completedPomodoros + 1, streak := CompletedStreak(s.streak, today))
  }

  /** One run of the timer effect on `[isActive, timeLeft, mode]`. */
  function Ticked(s: TimerState, today: string): TimerState {
    if s.isActive && s.timeLeft > 0 then s.(timeLeft := s.timeLeft - 1)
    else if s.isActive && s.timeLeft == 0 then
      (if s.mode == Pomodoro then Completed(s, today) else s).(isActive := false)
    else s
  }

  /** Choosing a new mode loads its full length and stops the clock; choosing the current one does
      nothing. */
  lemma {:induction false} ModeChangeResets(s: TimerState, m: Mode)
    ensures m != s.mode ==>
      var r := ModeSet(s, m);
      r.mode == m && r.timeLeft == Duration(m) * 60 && !r.isActive
      && r.completedPomodoros == s.completedPomodoros && r.streak == s.streak
    ensures m == s.mode ==> ModeSet(s, m) == s
  {
  }

  /** `resetTimer` stops the clock at the mode's full length and touches nothing else; it is
      idempotent. */
  lemma {:induction false} ResetSpec(s: TimerState)
    ensures var r := Reset(s);
      !r.isActive && r.timeLeft == Duration(s.mode) * 60
      && r.mode == s.mode && r.completedPomodoros == s.completedPomodoros && r.streak == s.streak
    ensures Reset(Reset(s)) == Reset(s)
  {
  }

  /** `toggleTimer` flips the running flag only, so two toggles restore the state. */
  lemma {:induction false} ToggleFlips(s: TimerState)
    ensures Toggled(s).isActive == !s.isActive && Toggled(s).(isActive := s.isActive) == s
    ensures Toggled(Toggled(s)) == s
  {
  }

  /** While running with time left, a step takes one second off and changes nothing else; a
      stopped clock does not move. */
  lemma {:induction false} TickCountsDown(s: TimerState, today: string)
    ensures s.isActive && s.timeLeft > 0 ==> Ticked(s, today) == s.(timeLeft := s.timeLeft - 1)
    ensures !s.isActive ==> Ticked(s, today) == s
  {
  }

  /** A running clock at zero stops, and records one completion exactly in Pomodoro mode. */
  lemma {:induction false} TickAtZero(s: TimerState, today: string)
    requires s.isActive && s.timeLeft == 0
    ensures var r := Ticked(s, today);
      !r.isActive && r.timeLeft == 0 && r.mode == s.mode
      && (s.mode == Pomodoro ==> r.completedPomodoros == s.completedPomodoros + 1
                                 && r.streak == CompletedStreak(s.streak, today))
      && (s.mode != Pomodoro ==> r.completedPomodoros == s.completedPomodoros && r.streak == s.streak)
  {
  }

  /** `k` steps of the timer on the same day. */
  function TickedN(s: TimerState, k: nat, today: string): TimerState
    decreases k
  {
    if k == 0 then s else TickedN(Ticked(s, today), k - 1, today)
  }

  /** Started with `n` seconds left, the clock reaches zero after `n` steps, still running and with
      nothing else changed; one more step stops it. */
  lemma {:induction false} Countdown(s: TimerState, n: nat, today: string)
    requires s.isActive && s.timeLeft == n
    ensures TickedN(s, n, today) == s.(timeLeft := 0)
    ensures TickedN(s, n + 1, today) == Ticked(s.(timeLeft := 0), today)
    ensures !TickedN(s, n + 1, today).isActive
    decreases n
  {
    if n > 0 {
      Countdown(s.(timeLeft := n - 1), n - 1, today);
    }
  }

  /** Completions move `completedPomodoros` and `totalCompletions` together: every operation changes
      both by the same amount. */
  lemma {:induction false} CompletionsMoveTogether(s: TimerState, m: Mode, today: string)
    ensures var r := Ticked(s, today);
      r.completedPomodoros - s.completedPomodoros == r.streak.totalCompletions - s.streak.totalCompletions
    ensures var r := Completed(s, today);
      r.completedPomodoros == s.completedPomodoros + 1 && r.streak.totalCompletions == s.streak.totalCompletions + 1
    ensures ModeSet(s, m).streak == s.streak && ModeSet(s, m).completedPomodoros == s.completedPomodoros
    ensures Reset(s).streak == s.streak && Toggled(s).streak == s.streak
  {
  }

  /** Every operation keeps the timer valid, starting from the initial state. */
  lemma {:induction false} TimerValidPreserved(s: TimerState, m: Mode, today: string)
    requires TimerValid(s)
    ensures TimerValid(ModeSet(s, m)) && TimerValid(Toggled(s)) && TimerValid(Reset(s))
    ensures TimerValid(Ticked(s, today)) && TimerValid(Completed(s, today))
    ensures TimerValid(INITIAL_TIMER)
  {
    LongestIsMax(s.streak, today);
  }

  /** The provider's state, held in fields and updated by its handlers. */
  class PomodoroTimer {
    var mode: Mode
    var timeLeft: int
    var isActive: bool
    var completedPomodoros: nat
    var streakData: StreakData

    function State(): TimerState
      reads this
    {
      TimerState(mode, timeLeft, isActive, completedPomodoros, streakData)
    }

    constructor()
      ensures State() == INITIAL_TIMER && TimerValid(State())
    {
      mode := Pomodoro;
      timeLeft := 25 * 60;
      isActive := false;
      completedPomodoros := 0;
      streakData := StreakData(0, None, 0, 0);
    }

    method SetMode(m: Mode)
      modifies this
      ensures State() == ModeSet(old(State()), m)
    {
      if m != mode {
        mode := m;
        timeLeft := Duration(m) * 60;
        isActive := false;
      }
    }

    method ToggleTimer()
      modifies this
      ensures State() == Toggled(old(State()))
    {
      isActive := !isActive;
    }

    method ResetTimer()
      modifies this
      ensures State() == Reset(old(State()))
    {
      isActive := false;
      timeLeft := Duration(mode) * 60;
    }

    method HandlePomodoroComplete(today: string)
      modifies this
      ensures State() == Completed(old(State()), today)
    {
      completedPomodoros := completedPomodoros + 1;
      var prev := streakData;
      var firstToday := prev.lastCompletedDate != Some(today);
      var current := if firstToday then prev.currentStreak + 1 else prev.currentStreak;
      var longest := if current >= prev.longestStreak then current else prev.longestStreak;
      streakData := StreakData(current, Some(today), longest, prev.totalCompletions + 1);
    }

    /** One run of the timer effect. */
    method Tick(today: string)
      modifies this
      ensures State() == Ticked(old(State()), today)
    {
      if isActive && timeLeft > 0 {
        timeLeft := timeLeft - 1;
      } else if isActive && timeLeft == 0 {
        if mode == Pomodoro {
          HandlePomodoroComplete(today);
        }
        isActive := false;
      }
    }
  }
}
