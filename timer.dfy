/**
 * The countdown/alarm state machine of the widget's root component.
 *
 * The component holds one record `{seconds, isActive, isAlarming}` and
 * changes it only through record-building updaters: adding time, toggling
 * (which goes through starting or stopping), resetting, and the updater run
 * by the one-second interval. The interval itself is not modelled as a
 * clock: a `Tick` event stands for one firing, and it has an effect only
 * while the interval is armed (`isActive && seconds > 0`).
 */
module Timer {

  /** The single record kept by the component. */
  datatype TimerState = TimerState(seconds: int, isActive: bool, isAlarming: bool)

  /** The state the component is created with. */
  function Initial(): TimerState
  {
    TimerState(0, false, false)
  }

  /** What every reachable state satisfies: no negative count, and never
      counting down and alarming at once. Note that `seconds == 0` does NOT
      imply `!isActive` (see `ZeroSecondsWhileActiveIsReachable`). */
  predicate Valid(s: TimerState)
  {
    s.seconds >= 0 && !(s.isActive && s.isAlarming)
  }

  /** `addTime(increment)`: clamp the new count at zero and dismiss an alarm. */
  function AddTime(s: TimerState, increment: int): (r: TimerState)
    ensures r.seconds >= 0 && r.seconds >= s.seconds + increment
    ensures r.seconds == 0 || r.seconds == s.seconds + increment
    ensures r.isActive == s.isActive && !r.isAlarming
  {
    s.(seconds := if s.seconds + increment > 0 then s.seconds + increment else 0,
       isAlarming := false)
  }

  /** `startTimer`: only a positive count can be started. */
  function StartTimer(s: TimerState): (r: TimerState)
    ensures r.seconds == s.seconds
    ensures s.seconds > 0 ==> r.isActive && !r.isAlarming
    ensures s.seconds <= 0 ==> r == s
  {
    if s.seconds > 0 then s.(isActive := true, isAlarming := false) else s
  }

  /** `stopTimer`: both flags go down, the count stays. */
  function StopTimer(s: TimerState): (r: TimerState)
    ensures r.seconds == s.seconds && !r.isActive && !r.isAlarming
  {
    s.(isActive := false, isAlarming := false)
  }

  /** `toggleTimer`: dismiss an alarm if there is one; otherwise stop a
      running timer or start an idle one. */
  function ToggleTimer(s: TimerState): (r: TimerState)
    ensures r.seconds == s.seconds
    ensures s.isAlarming ==> r == s.(isAlarming := false)
    ensures !s.isAlarming && s.isActive ==> !r.isActive && !r.isAlarming
    ensures !s.isAlarming && !s.isActive ==> (r.isActive <==> s.seconds > 0) && !r.isAlarming
    ensures !s.isAlarming && !s.isActive && s.seconds <= 0 ==> r == s
  {
    if s.isAlarming then s.(isAlarming := false)
    else if s.isActive then StopTimer(s)
    else StartTimer(s)
  }

  /** `resetTimer`: back to the initial record from any state. */
  function ResetTimer(s: TimerState): (r: TimerState)
    ensures r == Initial()
  {
    TimerState(0, false, false)
  }

  /** The one-second interval is running exactly while this holds. */
  predicate Armed(s: TimerState)
  {
    s.isActive && s.seconds > 0
  }

  /** The updater the interval runs once per second. */
  function TickUpdate(s: TimerState): (r: TimerState)
    ensures s.seconds <= 1 ==> r == TimerState(0, false, true)
    ensures s.seconds > 1 ==> r == s.(seconds := s.seconds - 1)
    ensures s.seconds > 0 ==> 0 <= r.seconds < s.seconds
  {
    if s.seconds <= 1 then s.(seconds := 0, isActive := false, isAlarming := true)
    else s.(seconds := s.seconds - 1)
  }

  /** The status line shown above the digits. */
  function StatusLabel(s: TimerState): (text: string)
    ensures text == "Time's Up" <==> s.isAlarming
    ensures text == "Running" <==> !s.isAlarming && s.isActive
    ensures text == "Ready" <==> !s.isAlarming && !s.isActive && s.seconds > 0
    ensures text == "Standby" <==> !s.isAlarming && !s.isActive && s.seconds <= 0
  {
    if s.isAlarming then "Time's Up"
    else if s.isActive then "Running"
    else if s.seconds > 0 then "Ready"
    else "Standby"
  }

  /** Everything that can change the record, one event at a time. */
  datatype Event = Add(increment: int) | Toggle | Reset | Tick

  /** One event applied to the current state. A `Tick` while the interval is
      not armed cannot happen, so it leaves the state as it is. */
  function Apply(s: TimerState, e: Event): (r: TimerState)
    ensures Valid(s) ==> Valid(r)
  {
    match e
    case Add(n) => AddTime(s, n)
    case Toggle => ToggleTimer(s)
    case Reset => ResetTimer(s)
    case Tick => if Armed(s) then TickUpdate(s) else s
  }

  /** Events processed in order, each on the state the previous one left. */
  function Run(s: TimerState, es: seq<Event>): TimerState
    decreases |es|
  {
    if es == [] then s else Run(Apply(s, es[0]), es[1..])
  }

  /** `k` consecutive ticks of the interval. */
  function Ticks(k: nat): (es: seq<Event>)
    ensures |es| == k && forall i :: 0 <= i < k ==> es[i] == Tick
  {
    seq(k, _ => Tick)
  }

  lemma {:induction false} RunAppend(s: TimerState, a: seq<Event>, b: seq<Event>)
    ensures Run(s, a + b) == Run(Run(s, a), b)
    decreases |a|
  {
    if a == [] {
      assert a + b == b;
    } else {
      assert (a + b)[0] == a[0];
      assert (a + b)[1..] == a[1..] + b;
      RunAppend(Apply(s, a[0]), a[1..], b);
    }
  }

  lemma {:induction false} RunPreservesValid(s: TimerState, es: seq<Event>)
    requires Valid(s)
    ensures Valid(Run(s, es))
    decreases |es|
  {
    if es != [] {
      RunPreservesValid(Apply(s, es[0]), es[1..]);
    }
  }

  /** From the initial record no sequence of operations yields a negative
      count, or a timer that is both running and alarming. */
  lemma NeverActiveAndAlarming(es: seq<Event>)
    ensures Run(Initial(), es).seconds >= 0
    ensures !(Run(Initial(), es).isActive && Run(Initial(), es).isAlarming)
  {
    RunPreservesValid(Initial(), es);
  }

  /** The alarm is entered only by a tick of an armed interval whose count was
      down to one second or less. */
  lemma AlarmOnlyByTick(s: TimerState, e: Event)
    requires !s.isAlarming && Apply(s, e).isAlarming
    ensures e == Tick && Armed(s) && s.seconds <= 1
    ensures Apply(s, e) == TimerState(0, false, true)
  {
  }

  /** A running timer with zero seconds is reachable: add time, start, then
      take the time away again. The interval is then disarmed, so ticks do
      nothing and the timer stays "Running" at zero. */
  lemma ZeroSecondsWhileActiveIsReachable()
    ensures Run(Initial(), [Add(10), Toggle, Add(-10)]) == TimerState(0, true, false)
    ensures !Armed(TimerState(0, true, false))
    ensures Apply(TimerState(0, true, false), Tick) == TimerState(0, true, false)
    ensures StatusLabel(TimerState(0, true, false)) == "Running"
  {
  }

  /** Ticking a running timer that has more than `k` seconds left just counts
      down by `k`. */
  lemma {:induction false} CountDown(n: int, k: nat)
    requires k < n
    ensures Run(TimerState(n, true, false), Ticks(k)) == TimerState(n - k, true, false)
    decreases k
  {
    if k > 0 {
      assert Ticks(k)[0] == Tick;
      assert Ticks(k)[1..] == Ticks(k - 1);
      assert Apply(TimerState(n, true, false), Tick) == TimerState(n - 1, true, false);
      CountDown(n - 1, k - 1);
    }
  }

  /** Set 30 seconds, start, let 29 seconds pass, then one more: the alarm
      rings; a toggle dismisses it into standby. */
  lemma ThirtySecondScenario()
    ensures Run(Initial(), [Add(30)]) == TimerState(30, false, false)
    ensures Run(Initial(), [Add(30), Toggle]) == TimerState(30, true, false)
    ensures Run(Initial(), [Add(30), Toggle] + Ticks(29)) == TimerState(1, true, false)
    ensures Run(Initial(), [Add(30), Toggle] + Ticks(29) + [Tick]) == TimerState(0, false, true)
    ensures Run(Initial(), [Add(30), Toggle] + Ticks(29) + [Tick, Toggle]) == Initial()
  {
    var start := [Add(30), Toggle];
    assert Run(Initial(), start) == TimerState(30, true, false);
    RunAppend(Initial(), start, Ticks(29));
    CountDown(30, 29);
    RunAppend(Initial(), start + Ticks(29), [Tick]);
    RunAppend(Initial(), start + Ticks(29), [Tick, Toggle]);
  }
}
