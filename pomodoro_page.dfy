/** The Pomodoro page: the `MM:SS` clock text and the conditions on which its effects show an
    encouragement message. Which message text is picked is random and not part of this model. */
module PomodoroPage {

  import Text
  import PomodoroContext

  type Mode = PomodoroContext.Mode

  /** `formatTime`: minutes and seconds, each padded to two digits. */
  function FormatTime(seconds: nat): string {
    Text.PadStart2(Text.NatToString(seconds / 60)) + ":" + Text.PadStart2(Text.NatToString(seconds % 60))
  }

  /** A number printed and padded to two places reads back as itself. */
  lemma {:induction false} PaddedRoundTrip(n: nat)
    ensures var t := Text.PadStart2(Text.NatToString(n));
      |t| >= 2 && Text.AllDigits(t) && Text.DecimalValue(t) == n
      && (n < 100 ==> |t| == 2)
  {
    var d := Text.NatToString(n);
    Text.NatToStringRoundTrip(n);
    if n < 10 {
      var t := Text.PadStart2(d);
      assert t == "0" + d;
      assert t[..1] == "0";
      assert Text.DecimalValue(t[..1]) == 10 * Text.DecimalValue([]) + 0;
    }
  }

  /** The clock text is minutes, a colon and two digits of seconds below 60; reading both parts back
      gives the seconds shown, and below 100 minutes the text is exactly five characters. */
  lemma {:induction false} FormatTimeSpec(seconds: nat)
    ensures var r := FormatTime(seconds);
      |r| >= 5 && r[|r| - 3] == ':'
      && Text.AllDigits(r[..|r| - 3]) && Text.AllDigits(r[|r| - 2..])
      && Text.DecimalValue(r[|r| - 2..]) < 60
      && 60 * Text.DecimalValue(r[..|r| - 3]) + Text.DecimalValue(r[|r| - 2..]) == seconds
      && (seconds < 6000 ==> |r| == 5)
  {
    var m := Text.PadStart2(Text.NatToString(seconds / 60));
    var s := Text.PadStart2(Text.NatToString(seconds % 60));
    PaddedRoundTrip(seconds / 60);
    PaddedRoundTrip(seconds % 60);
    var r := FormatTime(seconds);
    assert r == m + ":" + s;
    assert r[..|r| - 3] == m;
    assert r[|r| - 2..] == s;
  }

  datatype MessageType = Start | During | Break | Complete | Streak

  /** The messages the two effects show for one state of the timer, in effect order. The streak
      message is scheduled after the completion message. */
  function Messages(mode: Mode, timeLeft: int, isActive: bool, currentStreak: nat): seq<MessageType> {
    var during := if timeLeft == PomodoroContext.Seconds(mode) / 2 && isActive then [During] else [];
    var finished :=
      if timeLeft == 0 && !isActive then
        if mode == PomodoroContext.Pomodoro then
          [Complete] + (if currentStreak % 5 == 0 && currentStreak > 0 then [Streak] else [])
        else [Break]
      else [];
    var start := if isActive && timeLeft == PomodoroContext.Seconds(mode) then [Start] else [];
    during + finished + start
  }

  /** 'during' shows at the midpoint of a running timer, 'start' at its full length, 'complete' or
      'break' once it has stopped at zero, and the streak message only on a positive multiple of
      five completed days. At most one of these states holds, so a state shows at most one message
      besides the streak. */
  lemma {:induction false} MessagesSpec(mode: Mode, timeLeft: int, isActive: bool, currentStreak: nat)
    ensures var m := Messages(mode, timeLeft, isActive, currentStreak);
      (During in m <==> isActive && timeLeft == PomodoroContext.Duration(mode) * 60 / 2)
      && (Start in m <==> isActive && timeLeft == PomodoroContext.Duration(mode) * 60)
      && (Complete in m <==> !isActive && timeLeft == 0 && mode == PomodoroContext.Pomodoro)
      && (Break in m <==> !isActive && timeLeft == 0 && mode != PomodoroContext.Pomodoro)
      && (Streak in m <==> Complete in m && currentStreak > 0 && currentStreak % 5 == 0)
      && |m| <= 2 && (|m| == 2 ==> m == [Complete, Streak])
  {
  }

  /** The step that stops a running Pomodoro at zero leads to the completion message, with the
      streak message exactly when the updated streak is a positive multiple of five; a break ending
      leads to the break message. */
  lemma {:induction false} CompletionStepShowsMessage(s: PomodoroContext.TimerState, today: string)
    requires s.isActive && s.timeLeft == 0
    ensures var r := PomodoroContext.Ticked(s, today);
      var m := Messages(r.mode, r.timeLeft, r.isActive, r.streak.currentStreak);
      (s.mode == PomodoroContext.Pomodoro ==>
         m[0] == Complete && (Streak in m <==> r.streak.currentStreak % 5 == 0 && r.streak.currentStreak > 0))
      && (s.mode != PomodoroContext.Pomodoro ==> m == [Break])
  {
    PomodoroContext.TickAtZero(s, today);
    MessagesSpec(s.mode, 0, false, PomodoroContext.Ticked(s, today).streak.currentStreak);
  }
}
