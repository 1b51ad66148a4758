/** The focus timer: a countdown that alternates work and break sessions, or
    runs a custom length, plus the list of tasks worth focusing on. */
module FocusMode {
  import opened Types
  import opened Seqs
  import opened Text
  import opened App

  /** A work session: 25 minutes. */
  const WORK_SECONDS: int := 1500
  /** A break: 5 minutes. */
  const BREAK_SECONDS: int := 300

  datatype TimerMode = Work | Break | Custom

  /** The three pieces of timer state: seconds left, running or paused, mode. */
  datatype TimerState = TimerState(timeLeft: int, isActive: bool, mode: TimerMode)

  const InitialTimer: TimerState := TimerState(WORK_SECONDS, false, Work)

  /** One run of the countdown effect: a running timer with time left loses a
      second; a timer at zero pauses, and a work session turns into a break
      and a break into a work session, while a custom session stays at zero. */
  function TickStep(s: TimerState): (r: TimerState)
    ensures s.timeLeft >= 0 ==> r.timeLeft >= 0
    ensures !s.isActive && s.timeLeft != 0 ==> r == s
    ensures s.isActive && s.timeLeft > 0 ==> r == s.(timeLeft := s.timeLeft - 1)
    ensures s.timeLeft == 0 && s.mode == Work ==> r == TimerState(BREAK_SECONDS, false, Break)
    ensures s.timeLeft == 0 && s.mode == Break ==> r == TimerState(WORK_SECONDS, false, Work)
    ensures s.timeLeft == 0 && s.mode == Custom ==> r == s.(isActive := false)
    ensures r.mode != s.mode ==> s.timeLeft == 0
  {
    if s.isActive && s.timeLeft > 0 then s.(timeLeft := s.timeLeft - 1)
    else if s.timeLeft == 0 then
      match s.mode
      case Work => TimerState(BREAK_SECONDS, false, Break)
      case Break => TimerState(WORK_SECONDS, false, Work)
      case Custom => s.(isActive := false)
    else s
  }

  /** `n` runs of the countdown effect. */
  function Ticks(s: TimerState, n: nat): TimerState {
    if n == 0 then s else TickStep(Ticks(s, n - 1))
  }

  /** A running timer counts down one second per tick. */
  lemma {:induction false} CountsDown(n: int, mode: TimerMode, k: nat)
    requires 0 <= k <= n
    ensures Ticks(TimerState(n, true, mode), k) == TimerState(n - k, true, mode)
  {
    if k > 0 {
      CountsDown(n, mode, k - 1);
    }
  }

  /** A work session left running for its whole length, and one more tick,
      ends as a paused five-minute break; a break ends as a paused work session. */
  lemma SessionsAlternate(n: nat)
    ensures Ticks(TimerState(n, true, Work), n + 1) == TimerState(BREAK_SECONDS, false, Break)
    ensures Ticks(TimerState(n, true, Break), n + 1) == TimerState(WORK_SECONDS, false, Work)
  {
    CountsDown(n, Work, n);
    CountsDown(n, Break, n);
  }

  /** The start/pause button. */
  function ToggleStep(s: TimerState): (r: TimerState)
    ensures r.isActive != s.isActive && r.timeLeft == s.timeLeft && r.mode == s.mode
  {
    s.(isActive := !s.isActive)
  }

  /** `handleSetCustomTimer`: a positive whole number of minutes starts a
      paused custom session of that length; any other input changes nothing. */
  function SetCustomStep(s: TimerState, input: string): (r: TimerState)
    ensures ParseNat(input).Some? && ParseNat(input).value > 0 ==>
      r == TimerState(ParseNat(input).value * 60, false, Custom)
    ensures ParseNat(input).None? || ParseNat(input).value == 0 ==> r == s
  {
    var mins := ParseNat(input);
    if mins.Some? && mins.value > 0 then TimerState(mins.value * 60, false, Custom) else s
  }

  /** The reset button: pause, and restore the mode's length; a custom session
      takes its length from the custom input. */
  function ResetStep(s: TimerState, input: string): (r: TimerState)
    requires s.mode == Custom ==> ParseNat(input).Some?
    ensures !r.isActive && r.mode == s.mode && r.timeLeft >= 0
    ensures s.mode == Work ==> r.timeLeft == WORK_SECONDS
    ensures s.mode == Break ==> r.timeLeft == BREAK_SECONDS
    ensures s.mode == Custom ==> r.timeLeft == ParseNat(input).value * 60
  {
    var defaultTime := if s.mode == Break then BREAK_SECONDS else WORK_SECONDS;
    s.(timeLeft := if s.mode == Custom then ParseNat(input).value * 60 else defaultTime, isActive := false)
  }

  /** The timer as the focus screen holds it. */
  class FocusTimer {
    var timeLeft: int
    var isActive: bool
    var mode: TimerMode
    var customInput: string

    ghost predicate Valid()
      reads this
    {
      timeLeft >= 0
    }

    function State(): TimerState
      reads this
    {
      TimerState(timeLeft, isActive, mode)
    }

    /** A paused 25-minute work session; the custom field reads "25". */
    constructor ()
      ensures Valid()
      ensures State() == InitialTimer && customInput == "25"
    {
      timeLeft := WORK_SECONDS;
      isActive := false;
      mode := Work;
      customInput := "25";
    }

    method Tick()
      requires Valid()
      modifies this
      ensures Valid()
      ensures State() == TickStep(old(State())) && customInput == old(customInput)
    {
      var next := TickStep(State());
      timeLeft, isActive, mode := next.timeLeft, next.isActive, next.mode;
    }

    method ToggleActive()
      requires Valid()
      modifies this
      ensures Valid()
      ensures State() == ToggleStep(old(State())) && customInput == old(customInput)
    {
      isActive := !isActive;
    }

    /** Typing in the custom-length field. */
    method SetCustomInput(text: string)
      requires Valid()
      modifies this
      ensures Valid()
      ensures State() == old(State()) && customInput == text
    {
      customInput := text;
    }

    method SetCustomTimer()
      requires Valid()
      modifies this
      ensures Valid()
      ensures State() == SetCustomStep(old(State()), customInput) && customInput == old(customInput)
    {
      var next := SetCustomStep(State(), customInput);
      timeLeft, isActive, mode := next.timeLeft, next.isActive, next.mode;
    }

    method Reset()
      requires Valid()
      requires mode == Custom ==> ParseNat(customInput).Some?
      modifies this
      ensures Valid()
      ensures customInput == old(customInput) && State() == ResetStep(old(State()), old(customInput))
    {
      var next := ResetStep(State(), customInput);
      timeLeft, isActive, mode := next.timeLeft, next.isActive, next.mode;
    }
  }

  // ---------------------------------------------------------------------
  // Display

  /** Seconds below 60, padded to two digits. */
  function PadSeconds(s: nat): (r: string)
    requires s < 60
    ensures |r| == 2 && AllDigits(r)
  {
    var digits := NatToString(s);
    assert s >= 10 ==> |NatToString(s / 10)| == 1;
    if s < 10 then "0" + digits else digits
  }

  /** `formatTime`: minutes, a colon, and two digits of seconds. */
  function FormatTime(seconds: nat): (r: string)
    ensures |r| >= 4 && r[|r| - 3] == ':'
    ensures r[..|r| - 3] == NatToString(seconds / 60) && r[|r| - 2..] == PadSeconds(seconds % 60)
  {
    NatToString(seconds / 60) + ":" + PadSeconds(seconds % 60)
  }

  /** Reads an `m:ss` display back as seconds. */
  function ReadTime(text: string): Option<nat> {
    if |text| < 4 || text[|text| - 3] != ':' then None
    else
      var m := ParseNat(text[..|text| - 3]);
      var s := ParseNat(text[|text| - 2..]);
      if m.Some? && s.Some? && s.value < 60 then Some(m.value * 60 + s.value) else None
  }

  lemma PadSecondsValue(s: nat)
    requires s < 60
    ensures ParseNat(PadSeconds(s)) == Some(s)
  {
    var digits := NatToString(s);
    NatToStringRoundTrip(s);
    if s < 10 {
      assert digits == [DigitChar(s)];
      var r := "0" + digits;
      assert r[..1] == "0";
      assert DigitsValue(r[..1]) == 0;
    }
  }

  /** Reading the display back gives the seconds that were shown. */
  lemma FormatTimeRoundTrip(seconds: nat)
    ensures ReadTime(FormatTime(seconds)) == Some(seconds)
  {
    var text := FormatTime(seconds);
    NatToStringRoundTrip(seconds / 60);
    PadSecondsValue(seconds % 60);
    assert ParseNat(text[..|text| - 3]) == Some(seconds / 60);
    assert ParseNat(text[|text| - 2..]) == Some(seconds % 60);
    assert seconds / 60 * 60 + seconds % 60 == seconds;
  }

  /** Two different times never display the same. */
  lemma FormatTimeInjective(a: nat, b: nat)
    requires FormatTime(a) == FormatTime(b)
    ensures a == b
  {
    FormatTimeRoundTrip(a);
    FormatTimeRoundTrip(b);
  }

  // ---------------------------------------------------------------------
  // Focus targets

  /** Open work of high or urgent priority; finishing one from the focus
      screen always earns its experience. */
  predicate IsFocusTarget(t: Task)
    ensures IsFocusTarget(t) ==> Completes(t, StatusPatch(COMPLETED))
  {
    t.status != COMPLETED && (t.priority == URGENT || t.priority == HIGH)
  }

  /** `focusTasks`: the open high-priority and urgent tasks, in list order. */
  function FocusTasks(ts: seq<Task>): (r: seq<Task>)
    ensures forall i :: 0 <= i < |r| ==> r[i] in ts && IsFocusTarget(r[i])
    ensures forall i :: 0 <= i < |ts| && IsFocusTarget(ts[i]) ==> ts[i] in r
    ensures IsSubsequence(r, ts)
  {
    FilterIsSubsequence(ts, IsFocusTarget);
    Filter(ts, IsFocusTarget)
  }
}
