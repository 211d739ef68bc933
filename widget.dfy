/**
 * The root component wires the dial to the timer: a rotation adds time, a
 * tap toggles, a long press resets. Both state machines advance together,
 * one input at a time: pointer gestures go to the dial, whose intents are
 * then applied to the timer in order; a second's tick goes to the timer.
 */
module Widget {
  import Timer
  import DialGesture

  /** The timer operation each dial callback is bound to. */
  function IntentEvent(i: DialGesture.Intent): (e: Timer.Event)
    ensures i.Rotate? <==> e.Add?
    ensures i.Rotate? ==> e == Timer.Add(i.increment)
    ensures i == DialGesture.Toggle <==> e == Timer.Toggle
    ensures i == DialGesture.Reset <==> e == Timer.Reset
  {
    match i
    case Rotate(n) => Timer.Add(n)
    case Toggle => Timer.Toggle
    case Reset => Timer.Reset
  }

  function IntentEvents(intents: seq<DialGesture.Intent>): (es: seq<Timer.Event>)
    ensures |es| == |intents|
    ensures forall k :: 0 <= k < |intents| ==> es[k] == IntentEvent(intents[k])
    decreases |intents|
  {
    if intents == [] then [] else [IntentEvent(intents[0])] + IntentEvents(intents[1..])
  }

  /** The timer after it received the given intents. */
  function Deliver(t: Timer.TimerState, intents: seq<DialGesture.Intent>): Timer.TimerState
  {
    Timer.Run(t, IntentEvents(intents))
  }

  datatype WidgetState = WidgetState(timer: Timer.TimerState, dial: DialGesture.DialState)

  datatype Input = Pointer(g: DialGesture.Gesture) | Second

  function Initial(): WidgetState
  {
    WidgetState(Timer.Initial(), DialGesture.Idle())
  }

  predicate Valid(w: WidgetState)
  {
    Timer.Valid(w.timer) && DialGesture.DialValid(w.dial)
  }

  /** One input: a gesture reaches the dial and its intents the timer; a
      second reaches the timer only. */
  function Step(w: WidgetState, input: Input): WidgetState
  {
    match input
    case Pointer(g) =>
      var reaction := DialGesture.React(w.dial, g);
      WidgetState(Deliver(w.timer, reaction.emitted), reaction.next)
    case Second => WidgetState(Timer.Apply(w.timer, Timer.Tick), w.dial)
  }

  function Run(w: WidgetState, inputs: seq<Input>): WidgetState
    decreases |inputs|
  {
    if inputs == [] then w else Run(Step(w, inputs[0]), inputs[1..])
  }

  lemma StepPreservesValid(w: WidgetState, input: Input)
    requires Valid(w)
    ensures Valid(Step(w, input))
  {
    match input
    case Pointer(g) =>
      DialGesture.ReactPreservesValid(w.dial, g);
      Timer.RunPreservesValid(w.timer, IntentEvents(DialGesture.React(w.dial, g).emitted));
    case Second =>
  }

  lemma {:induction false} RunPreservesValid(w: WidgetState, inputs: seq<Input>)
    requires Valid(w)
    ensures Valid(Run(w, inputs))
    decreases |inputs|
  {
    if inputs != [] {
      StepPreservesValid(w, inputs[0]);
      RunPreservesValid(Step(w, inputs[0]), inputs[1..]);
    }
  }

  /** Whatever the user does with the dial and however the seconds pass, the
      timer is never both running and alarming, its count never negative,
      and the dial's own invariant holds. */
  lemma ReachableWidgetIsValid(inputs: seq<Input>)
    ensures Run(Initial(), inputs).timer.seconds >= 0
    ensures !(Run(Initial(), inputs).timer.isActive && Run(Initial(), inputs).timer.isAlarming)
    ensures DialGesture.DialValid(Run(Initial(), inputs).dial)
  {
    RunPreservesValid(Initial(), inputs);
  }

  /** The toggle that follows a long press's reset cannot start anything:
      after the reset the count is zero. */
  lemma LongPressReleaseEndsInStandby(t: Timer.TimerState)
    ensures Deliver(t, [DialGesture.Reset, DialGesture.Toggle]) == Timer.Initial()
  {
    var es := [Timer.Reset, Timer.Toggle];
    assert IntentEvents([DialGesture.Reset, DialGesture.Toggle]) == es;
    assert es[1..] == [Timer.Toggle] && es[1..][1..] == [];
  }

  /** Two toggles on an idle positive count start the timer and stop it. */
  lemma SecondToggleStopsTimer(n: int)
    requires n > 0
    ensures Deliver(Timer.TimerState(n, false, false), [DialGesture.Toggle]) == Timer.TimerState(n, true, false)
    ensures Deliver(Timer.TimerState(n, false, false), [DialGesture.Toggle, DialGesture.Toggle])
            == Timer.TimerState(n, false, false)
  {
    var one, two := [Timer.Toggle], [Timer.Toggle, Timer.Toggle];
    assert IntentEvents([DialGesture.Toggle]) == one;
    assert IntentEvents([DialGesture.Toggle, DialGesture.Toggle]) == two;
    assert one[1..] == [] && two[1..] == one;
  }

  /** A tap on the dial starts an idle timer; a release anywhere in the
      window after it stops the timer again. */
  lemma StrayReleaseStopsRunningTimer(n: int, a: real)
    requires n > 0
    ensures Run(WidgetState(Timer.TimerState(n, false, false), DialGesture.Idle()),
                [Pointer(DialGesture.Down(a)), Pointer(DialGesture.Up)]).timer
            == Timer.TimerState(n, true, false)
    ensures Run(WidgetState(Timer.TimerState(n, false, false), DialGesture.Idle()),
                [Pointer(DialGesture.Down(a)), Pointer(DialGesture.Up), Pointer(DialGesture.Up)]).timer
            == Timer.TimerState(n, false, false)
  {
    var t := Timer.TimerState(n, false, false);
    var w0 := WidgetState(t, DialGesture.Idle());
    var w1 := Step(w0, Pointer(DialGesture.Down(a)));
    assert IntentEvents([]) == [];
    assert w1 == WidgetState(t, DialGesture.Start(DialGesture.Idle(), a));
    var w2 := Step(w1, Pointer(DialGesture.Up));
    SecondToggleStopsTimer(n);
    assert IntentEvents([DialGesture.Toggle]) == [Timer.Toggle];
    assert w2.timer == Timer.TimerState(n, true, false);
    var w3 := Step(w2, Pointer(DialGesture.Up));
    assert w3.timer == Timer.TimerState(n, false, false);
    var two := [Pointer(DialGesture.Down(a)), Pointer(DialGesture.Up)];
    var three := two + [Pointer(DialGesture.Up)];
    assert two[1..] == [Pointer(DialGesture.Up)] && two[1..][1..] == [];
    assert three[1..] == [Pointer(DialGesture.Up), Pointer(DialGesture.Up)];
    assert three[1..][1..] == [Pointer(DialGesture.Up)] && three[1..][1..][1..] == [];
    assert Run(w0, two) == Run(w1, two[1..]) == Run(w2, []) == w2;
    assert Run(w0, three) == Run(w1, three[1..]) == Run(w2, three[1..][1..]) == Run(w3, []) == w3;
  }
}
