/**
 * The rotary dial's gesture recogniser.
 *
 * One pointer contact is tracked through a handful of mutable fields: the
 * last angle seen, the rotation accumulated since the last emitted notch,
 * the long-press timeout handle, and the pressing/dragging flags. The
 * recogniser turns pointer events into intents for the timer: a signed
 * rotation in seconds, a tap (toggle) and a long press (reset).
 *
 * Angles are given in degrees as inputs (the pointer-to-angle geometry is
 * not part of this model). The 800 ms long-press timeout is an event: it
 * fires when the environment says so, and only while a timeout is pending.
 *
 * Two behaviours of the component are reproduced as they are:
 * - the remainder after a notch is JavaScript's truncated `%`, so every move
 *   that leaves the accumulator within one notch below zero emits another
 *   -10 s, even a move that does not turn at all;
 * - the timeout handle is never set back to null by the long-press callback
 *   or by the release handler, so a release after a long press, or any
 *   later release anywhere in the window, still counts as a tap, until a
 *   drag drops the handle.
 *
 * The pure functions below (`Start`, `Move`, `End`, `Fire`, `FireStale`)
 * say what each handler does; the class `Dial` performs the same steps on
 * mutable fields and is proved to agree with them.
 */
module DialGesture {

  /** Milliseconds a contact must be held to count as a long press. */
  const LongPressThresholdMs: nat := 800
  /** Seconds added or removed per notch. */
  const TickIncrement: int := 10
  /** Degrees of rotation per notch. */
  const DegreesPerTick: real := 15.0
  /** A single move of more than this many degrees makes the contact a drag. */
  const DragThreshold: real := 2.0

  datatype Option<T> = None | Some(value: T)

  /** What the recogniser asks of the timer. */
  datatype Intent = Rotate(increment: int) | Toggle | Reset

  /** The recogniser's fields. `pressHandlePresent` is "the timeout handle is
      non-null"; `timerPending` is "the timeout that handle names has neither
      fired nor been cleared"; `staleTimers` counts earlier timeouts whose
      handle was overwritten by a new contact start while they were still
      pending (they still fire, and nothing can clear them). */
  datatype DialState = DialState(
    lastAngle: Option<real>,
    accumulated: real,
    pressHandlePresent: bool,
    timerPending: bool,
    staleTimers: nat,
    isPressing: bool,
    isDragging: bool,
    rotation: real)

  /** The state after a handler ran, and the intents it emitted, in order. */
  datatype Reaction = Reaction(next: DialState, emitted: seq<Intent>)

  /** The fields as the component creates them. */
  function Idle(): DialState
  {
    DialState(None, 0.0, false, false, 0, false, false, 0.0)
  }

  function Abs(x: real): real
  {
    if x < 0.0 then -x else x
  }

  /** The wrap-around correction: one subtraction, then one addition, of a
      full turn, each guarded by its own test. */
  function NormalizeDelta(delta: real): real
  {
    var d := if delta > 180.0 then delta - 360.0 else delta;
    if d < -180.0 then d + 360.0 else d
  }

  /** For two angles in (-180, 180] the corrected delta is a half-turn at
      most either way, and it differs from the raw difference by a whole turn
      or not at all. */
  lemma NormalizeDeltaRange(last: real, current: real)
    requires -180.0 < last <= 180.0 && -180.0 < current <= 180.0
    ensures -180.0 <= NormalizeDelta(current - last) <= 180.0
    ensures NormalizeDelta(current - last) - (current - last) in {0.0, 360.0, -360.0}
    ensures -180.0 <= current - last <= 180.0 ==> NormalizeDelta(current - last) == current - last
  {
  }

  /** Truncation toward zero of a real. */
  function Trunc(x: real): int
  {
    if x >= 0.0 then x.Floor else -((-x).Floor)
  }

  /** `x % DEGREES_PER_TICK` with JavaScript's `%`: the remainder of the
      quotient truncated toward zero. */
  function JsRemainder(x: real): real
  {
    x - DegreesPerTick * (Trunc(x / DegreesPerTick) as real)
  }

  /** The truncated remainder has the sign of the dividend and less than one
      notch of magnitude; a value within one notch of zero is its own
      remainder; for a non-negative value it is the floor remainder. */
  lemma JsRemainderLaws(x: real)
    ensures x >= 0.0 ==> 0.0 <= JsRemainder(x) < DegreesPerTick
    ensures x <= 0.0 ==> -DegreesPerTick < JsRemainder(x) <= 0.0
    ensures -DegreesPerTick < x < DegreesPerTick ==> JsRemainder(x) == x
    ensures x >= 0.0 ==> JsRemainder(x) + DegreesPerTick * ((x / DegreesPerTick).Floor as real) == x
  {
  }

  /** The accumulator after a move's delta was added, and the increment
      emitted for it (zero when nothing is emitted). */
  datatype Notched = Notched(remainder: real, increment: int)

  /** Add a delta to the accumulator, count whole notches with floor, emit
      ten seconds per notch, and keep the JavaScript remainder. */
  function Quantise(acc: real, delta: real): Notched
  {
    var sum := acc + delta;
    var ticks := (sum / DegreesPerTick).Floor;
    if ticks != 0 then Notched(JsRemainder(sum), ticks * TickIncrement) else Notched(sum, 0)
  }

  /** What a quantisation step keeps. The increment is a whole number of
      notches, and it is zero exactly when the sum is within [0, 15).
      For a non-negative sum nothing is lost:
      notches and remainder add up to the sum. For a negative sum that is not
      a whole number of notches, one notch too many is emitted: floor rounds
      down while the remainder is taken toward zero. */
  lemma QuantiseLaws(acc: real, delta: real)
    ensures Quantise(acc, delta).increment % TickIncrement == 0
    ensures Quantise(acc, delta).increment != 0 <==> !(0.0 <= acc + delta < DegreesPerTick)
    ensures -DegreesPerTick < Quantise(acc, delta).remainder < DegreesPerTick
    ensures acc + delta >= 0.0 ==>
      var n := Quantise(acc, delta);
      0.0 <= n.remainder && n.remainder + DegreesPerTick * ((n.increment / TickIncrement) as real) == acc + delta
    ensures acc + delta < 0.0 ==> Quantise(acc, delta).increment < 0 && Quantise(acc, delta).remainder <= 0.0
    ensures acc + delta < 0.0 && Quantise(acc, delta).remainder < 0.0 ==>
      var n := Quantise(acc, delta);
      n.remainder + DegreesPerTick * ((n.increment / TickIncrement) as real) == acc + delta - DegreesPerTick
    ensures acc + delta < 0.0 && Quantise(acc, delta).remainder == 0.0 ==>
      var n := Quantise(acc, delta);
      DegreesPerTick * ((n.increment / TickIncrement) as real) == acc + delta
  {
    var sum := acc + delta;
    var q := sum / DegreesPerTick;
    var k := q.Floor;
    assert k as real <= q < k as real + 1.0;
    assert sum == DegreesPerTick * q;
    var n := Quantise(acc, delta);
    JsRemainderLaws(sum);
    if k == 0 {
      assert n == Notched(sum, 0);
    } else {
      assert n.increment / TickIncrement == k;
      if sum >= 0.0 {
        assert Trunc(q) == k;
      } else {
        var t := Trunc(q);
        assert t == -((-q).Floor);
        if n.remainder < 0.0 {
          assert t == k + 1;
        } else {
          assert t == k;
        }
      }
    }
  }

  /** `handleStart`: press, remember the angle, and schedule the long-press
      timeout. The handle of a timeout still pending is overwritten, not
      cleared, so that timeout becomes stale. */
  function Start(d: DialState, angle: real): (r: DialState)
    ensures r.isPressing && r.lastAngle == Some(angle)
    ensures r.pressHandlePresent && r.timerPending
    ensures r.staleTimers == d.staleTimers + (if d.timerPending then 1 else 0)
    ensures r.accumulated == d.accumulated && r.isDragging == d.isDragging && r.rotation == d.rotation
  {
    d.(isPressing := true,
       lastAngle := Some(angle),
       staleTimers := if d.timerPending then d.staleTimers + 1 else d.staleTimers,
       pressHandlePresent := true,
       timerPending := true)
  }

  /** `handleMove` for a pointer now at `current`. */
  function Move(d: DialState, current: real): Reaction
  {
    if !d.isPressing && !d.isDragging then Reaction(d, [])
    else match d.lastAngle
      case None => Reaction(d.(lastAngle := Some(current)), [])
      case Some(last) =>
        var delta := NormalizeDelta(current - last);
        var drag := Abs(delta) > DragThreshold;
        var cancel := drag && d.pressHandlePresent;
        var n := Quantise(d.accumulated, delta);
        Reaction(
          d.(lastAngle := Some(current),
             isDragging := d.isDragging || drag,
             pressHandlePresent := d.pressHandlePresent && !cancel,
             timerPending := d.timerPending && !cancel,
             accumulated := n.remainder,
             rotation := d.rotation + delta),
          if n.increment != 0 then [Rotate(n.increment)] else [])
  }

  /** What a move does: it is ignored unless pressing or dragging; without a
      last angle it only records one; otherwise it emits at most one
      rotation, a non-zero multiple of ten seconds, exactly when the
      quantisation gives one, and a corrected move of more than the drag
      threshold turns the contact into a drag and drops the timeout handle. */
  lemma MoveLaws(d: DialState, current: real)
    ensures !d.isPressing && !d.isDragging ==> Move(d, current) == Reaction(d, [])
    ensures (d.isPressing || d.isDragging) && d.lastAngle.None? ==>
      Move(d, current) == Reaction(d.(lastAngle := Some(current)), [])
    ensures var r := Move(d, current);
      && |r.emitted| <= 1
      && (forall i :: 0 <= i < |r.emitted| ==>
            r.emitted[i].Rotate? && r.emitted[i].increment != 0 && r.emitted[i].increment % TickIncrement == 0)
      && r.next.isPressing == d.isPressing && r.next.staleTimers == d.staleTimers
    ensures (d.isPressing || d.isDragging) && d.lastAngle.Some? ==>
      var r := Move(d, current);
      var delta := NormalizeDelta(current - d.lastAngle.value);
      var n := Quantise(d.accumulated, delta);
      && r.next.lastAngle == Some(current)
      && r.next.rotation == d.rotation + delta
      && r.next.accumulated == n.remainder
      && (r.emitted != [] <==> n.increment != 0)
      && (r.emitted != [] ==> r.emitted[0] == Rotate(n.increment))
      && (Abs(delta) > DragThreshold ==>
            r.next.isDragging && !r.next.pressHandlePresent
            && r.next.timerPending == (d.timerPending && !d.pressHandlePresent))
      && (Abs(delta) <= DragThreshold ==>
            r.next.isDragging == d.isDragging && r.next.pressHandlePresent == d.pressHandlePresent
            && r.next.timerPending == d.timerPending)
  {
    if d.lastAngle.Some? {
      QuantiseLaws(d.accumulated, NormalizeDelta(current - d.lastAngle.value));
    }
  }

  /** `handleEnd`: a present handle with no drag is a tap. The handle's
      timeout is cleared, but the handle itself stays. */
  function End(d: DialState): (r: Reaction)
    ensures r.emitted == [Toggle] <==> d.pressHandlePresent && !d.isDragging
    ensures r.emitted == [] <==> !(d.pressHandlePresent && !d.isDragging)
    ensures !r.next.isPressing && !r.next.isDragging && r.next.lastAngle.None? && r.next.accumulated == 0.0
    ensures r.next.pressHandlePresent == d.pressHandlePresent
    ensures r.next.timerPending == (d.timerPending && !d.pressHandlePresent)
    ensures r.next.staleTimers == d.staleTimers && r.next.rotation == d.rotation
  {
    var tap := d.pressHandlePresent && !d.isDragging;
    Reaction(
      d.(timerPending := d.timerPending && !d.pressHandlePresent,
         isPressing := false,
         isDragging := false,
         lastAngle := None,
         accumulated := 0.0),
      if tap then [Toggle] else [])
  }

  /** The long-press timeout the handle names fires: reset, stop pressing.
      The handle is left in place. With no such timeout pending nothing runs. */
  function Fire(d: DialState): (r: Reaction)
    ensures d.timerPending ==> r.emitted == [Reset] && r.next == d.(timerPending := false, isPressing := false)
    ensures d.timerPending ==> r.next.pressHandlePresent == d.pressHandlePresent
    ensures !d.timerPending ==> r == Reaction(d, [])
  {
    if d.timerPending then Reaction(d.(timerPending := false, isPressing := false), [Reset])
    else Reaction(d, [])
  }

  /** A stale long-press timeout fires: the same callback, so the same
      effect, but the handle's own timeout is not the one consumed. */
  function FireStale(d: DialState): (r: Reaction)
    ensures d.staleTimers > 0 ==>
      r.emitted == [Reset] && r.next == d.(staleTimers := d.staleTimers - 1, isPressing := false)
    ensures d.staleTimers == 0 ==> r == Reaction(d, [])
  {
    if d.staleTimers > 0 then Reaction(d.(staleTimers := d.staleTimers - 1, isPressing := false), [Reset])
    else Reaction(d, [])
  }

  /** The events the recogniser reacts to. */
  datatype Gesture = Down(angle: real) | MoveTo(angle: real) | Up | HoldElapsed | StaleHoldElapsed

  function React(d: DialState, g: Gesture): Reaction
  {
    match g
    case Down(a) => Reaction(Start(d, a), [])
    case MoveTo(a) => Move(d, a)
    case Up => End(d)
    case HoldElapsed => Fire(d)
    case StaleHoldElapsed => FireStale(d)
  }

  /** Gestures processed in order; the intents of all of them, in order. */
  function RunGestures(d: DialState, gs: seq<Gesture>): Reaction
    decreases |gs|
  {
    if gs == [] then Reaction(d, [])
    else
      var first := React(d, gs[0]);
      var rest := RunGestures(first.next, gs[1..]);
      Reaction(rest.next, first.emitted + rest.emitted)
  }

  /** Running gestures one after the other: the first reaction, then the rest. */
  lemma RunGesturesCons(d: DialState, g: Gesture, gs: seq<Gesture>)
    ensures RunGestures(d, [g] + gs).next == RunGestures(React(d, g).next, gs).next
    ensures RunGestures(d, [g] + gs).emitted == React(d, g).emitted + RunGestures(React(d, g).next, gs).emitted
  {
    assert ([g] + gs)[0] == g;
    assert ([g] + gs)[1..] == gs;
  }

  /** What the handlers keep true from the initial fields on: a pending
      timeout always has its handle; without a last angle the contact is
      over (so the "no last angle" branch of a move is never taken); and the
      accumulator holds less than one notch either way. */
  predicate DialValid(d: DialState)
  {
    && (d.timerPending ==> d.pressHandlePresent)
    && (d.lastAngle.None? ==> !d.isPressing && !d.isDragging && d.accumulated == 0.0)
    && -DegreesPerTick < d.accumulated < DegreesPerTick
  }

  lemma ReactPreservesValid(d: DialState, g: Gesture)
    requires DialValid(d)
    ensures DialValid(React(d, g).next)
  {
  }

  lemma {:induction false} RunGesturesPreservesValid(d: DialState, gs: seq<Gesture>)
    requires DialValid(d)
    ensures DialValid(RunGestures(d, gs).next)
    decreases |gs|
  {
    if gs != [] {
      ReactPreservesValid(d, gs[0]);
      RunGesturesPreservesValid(React(d, gs[0]).next, gs[1..]);
    }
  }

  /** From the initial fields, any sequence of gestures keeps `DialValid`. */
  lemma ReachableDialIsValid(gs: seq<Gesture>)
    ensures DialValid(RunGestures(Idle(), gs).next)
  {
    RunGesturesPreservesValid(Idle(), gs);
  }

  /** Every intent of any gesture sequence that is a rotation is a non-zero
      multiple of ten seconds. */
  lemma {:induction false} RotationsAreWholeNotches(d: DialState, gs: seq<Gesture>)
    ensures forall i :: 0 <= i < |RunGestures(d, gs).emitted| && RunGestures(d, gs).emitted[i].Rotate? ==>
      RunGestures(d, gs).emitted[i].increment != 0 && RunGestures(d, gs).emitted[i].increment % TickIncrement == 0
    decreases |gs|
  {
    if gs != [] {
      if gs[0].MoveTo? {
        MoveLaws(d, gs[0].angle);
      }
      RotationsAreWholeNotches(React(d, gs[0]).next, gs[1..]);
    }
  }

  // ---- accumulation over many moves ----

  function Sum(deltas: seq<real>): real
    decreases |deltas|
  {
    if deltas == [] then 0.0 else deltas[0] + Sum(deltas[1..])
  }

  predicate AllNonNegative(deltas: seq<real>)
  {
    forall i :: 0 <= i < |deltas| ==> deltas[i] >= 0.0
  }

  /** The accumulator and the emitted seconds, summed, after the moves whose
      corrected deltas are `deltas`, starting from accumulator `acc`. */
  function QuantiseAll(acc: real, deltas: seq<real>): Notched
    decreases |deltas|
  {
    if deltas == [] then Notched(acc, 0)
    else
      var first := Quantise(acc, deltas[0]);
      var rest := QuantiseAll(first.remainder, deltas[1..]);
      Notched(rest.remainder, first.increment + rest.increment)
  }

  /** Turning forward only, the seconds emitted depend only on the
      total angle turned, not on how the turn was split into moves: ten per
      whole fifteen degrees. The accumulator stays within one notch. */
  lemma {:induction false} ForwardSplitInvariance(acc: real, deltas: seq<real>)
    requires 0.0 <= acc < DegreesPerTick && AllNonNegative(deltas)
    ensures 0.0 <= QuantiseAll(acc, deltas).remainder < DegreesPerTick
    ensures QuantiseAll(acc, deltas).increment == TickIncrement * ((acc + Sum(deltas)) / DegreesPerTick).Floor
    ensures QuantiseAll(acc, deltas).remainder
            + DegreesPerTick * ((QuantiseAll(acc, deltas).increment / TickIncrement) as real) == acc + Sum(deltas)
    decreases |deltas|
  {
    if deltas != [] {
      var first := Quantise(acc, deltas[0]);
      QuantiseLaws(acc, deltas[0]);
      assert AllNonNegative(deltas[1..]) by {
        forall i | 0 <= i < |deltas[1..]| ensures deltas[1..][i] >= 0.0 {
          assert deltas[1..][i] == deltas[i + 1];
        }
      }
      ForwardSplitInvariance(first.remainder, deltas[1..]);
      var rest := QuantiseAll(first.remainder, deltas[1..]);
      var k1 := first.increment / TickIncrement;
      var k2 := rest.increment / TickIncrement;
      assert rest.remainder + DegreesPerTick * ((k1 + k2) as real) == acc + Sum(deltas);
      var total := acc + Sum(deltas);
      assert (total / DegreesPerTick) == (k1 + k2) as real + rest.remainder / DegreesPerTick;
      assert (total / DegreesPerTick).Floor == k1 + k2;
    }
  }

  /** Turning a contact forward by 150 degrees in any number of moves adds
      exactly 100 seconds and leaves nothing accumulated. */
  lemma HundredFiftyDegreesAddHundredSeconds(deltas: seq<real>)
    requires AllNonNegative(deltas) && Sum(deltas) == 150.0
    ensures QuantiseAll(0.0, deltas) == Notched(0.0, 100)
  {
    ForwardSplitInvariance(0.0, deltas);
    assert (150.0 / DegreesPerTick).Floor == 10;
  }

  /** Moves that do not turn at all (`n` of them), after the accumulator went
      slightly negative: each one takes away another ten seconds, and the
      accumulator never changes, because the truncated remainder of a value
      in (-15, 0) is that value. */
  lemma {:induction false} NegativeRemainderRepeats(acc: real, n: nat)
    requires -DegreesPerTick < acc < 0.0
    ensures QuantiseAll(acc, seq(n, _ => 0.0)) == Notched(acc, -TickIncrement * n)
    decreases n
  {
    if n > 0 {
      var zeros := seq(n, _ => 0.0);
      assert zeros[0] == 0.0;
      assert zeros[1..] == seq(n - 1, _ => 0.0);
      assert (acc / DegreesPerTick).Floor == -1;
      assert Quantise(acc, 0.0) == Notched(acc, -TickIncrement);
      NegativeRemainderRepeats(acc, n - 1);
    }
  }

  /** A move that keeps a negative accumulator within one notch of zero emits
      -10 s, whatever its direction. */
  lemma NegativeAccumulatorEmitsEveryMove(acc: real, delta: real)
    requires -DegreesPerTick < acc + delta < 0.0
    ensures Quantise(acc, delta) == Notched(acc + delta, -TickIncrement)
  {
    assert ((acc + delta) / DegreesPerTick).Floor == -1;
  }

  // ---- many moves as gesture events ----

  /** A pointer taken through `angles`, one move event per angle. */
  function Moves(angles: seq<real>): seq<Gesture>
    decreases |angles|
  {
    if angles == [] then [] else [MoveTo(angles[0])] + Moves(angles[1..])
  }

  /** The corrected delta of each of those moves, the first taken from the
      angle `last`. */
  function Deltas(last: real, angles: seq<real>): seq<real>
    decreases |angles|
  {
    if angles == [] then [] else [NormalizeDelta(angles[0] - last)] + Deltas(angles[0], angles[1..])
  }

  /** The seconds the rotations among `intents` add up to. */
  function RotSum(intents: seq<Intent>): int
    decreases |intents|
  {
    if intents == [] then 0
    else (if intents[0].Rotate? then intents[0].increment else 0) + RotSum(intents[1..])
  }

  lemma {:induction false} RotSumAppend(a: seq<Intent>, b: seq<Intent>)
    ensures RotSum(a + b) == RotSum(a) + RotSum(b)
    decreases |a|
  {
    if a == [] {
      assert a + b == b;
    } else {
      assert (a + b)[0] == a[0];
      assert (a + b)[1..] == a[1..] + b;
      RotSumAppend(a[1..], b);
    }
  }

  /** During a contact, a run of move events emits rotations only; they add
      up to the increment of the quantisation fold over the moves' corrected
      deltas, and the accumulator ends on that fold's remainder. The contact
      goes on, with the last angle recorded. */
  lemma {:induction false} MovesAreQuantiseAll(d: DialState, angles: seq<real>)
    requires (d.isPressing || d.isDragging) && d.lastAngle.Some?
    ensures var r := RunGestures(d, Moves(angles));
      var q := QuantiseAll(d.accumulated, Deltas(d.lastAngle.value, angles));
      && (forall i :: 0 <= i < |r.emitted| ==> r.emitted[i].Rotate?)
      && RotSum(r.emitted) == q.increment
      && r.next.accumulated == q.remainder
      && r.next.isPressing == d.isPressing && (r.next.isPressing || r.next.isDragging)
      && r.next.lastAngle == (if angles == [] then d.lastAngle else Some(angles[|angles| - 1]))
    decreases |angles|
  {
    if angles != [] {
      var m := Move(d, angles[0]);
      MoveLaws(d, angles[0]);
      RunGesturesCons(d, MoveTo(angles[0]), Moves(angles[1..]));
      MovesAreQuantiseAll(m.next, angles[1..]);
      var rest := RunGestures(m.next, Moves(angles[1..]));
      RotSumAppend(m.emitted, rest.emitted);
      assert RotSum(m.emitted) == Quantise(d.accumulated, NormalizeDelta(angles[0] - d.lastAngle.value)).increment by {
        if m.emitted != [] {
          assert m.emitted[1..] == [];
        }
      }
      if angles[1..] != [] {
        assert angles[1..][|angles[1..]| - 1] == angles[|angles| - 1];
      }
    }
  }

  /** The forward split invariance, for move events: turning forward only,
      the seconds added depend on the total angle alone. */
  lemma {:induction false} ForwardTurnAddsWholeNotches(d: DialState, last: real, angles: seq<real>)
    requires (d.isPressing || d.isDragging) && d.lastAngle == Some(last)
    requires 0.0 <= d.accumulated < DegreesPerTick
    requires AllNonNegative(Deltas(last, angles))
    ensures RotSum(RunGestures(d, Moves(angles)).emitted)
            == TickIncrement * ((d.accumulated + Sum(Deltas(last, angles))) / DegreesPerTick).Floor
    ensures 0.0 <= RunGestures(d, Moves(angles)).next.accumulated < DegreesPerTick
  {
    ForwardSplitInvariance(d.accumulated, Deltas(last, angles));
    MovesAreQuantiseAll(d, angles);
  }

  /** A contact pressed at `a` and turned forward by 150 degrees in any
      number of move events adds exactly 100 seconds, in rotations only, and
      leaves nothing accumulated. */
  lemma {:induction false} HundredFiftyDegreeContact(a: real, angles: seq<real>)
    requires AllNonNegative(Deltas(a, angles)) && Sum(Deltas(a, angles)) == 150.0
    ensures var r := RunGestures(Idle(), [Down(a)] + Moves(angles));
      && (forall i :: 0 <= i < |r.emitted| ==> r.emitted[i].Rotate?)
      && RotSum(r.emitted) == 100
      && r.next.accumulated == 0.0
  {
    var s1 := Start(Idle(), a);
    RunGesturesCons(Idle(), Down(a), Moves(angles));
    MovesAreQuantiseAll(s1, angles);
    HundredFiftyDegreesAddHundredSeconds(Deltas(a, angles));
    var r := RunGestures(s1, Moves(angles));
    assert RotSum(r.emitted) == QuantiseAll(0.0, Deltas(a, angles)).increment == 100;
    assert RunGestures(Idle(), [Down(a)] + Moves(angles)).emitted == [] + r.emitted;
    assert [] + r.emitted == r.emitted;
  }

  /** Once the accumulator is slightly negative, each further move event that
      does not turn the dial takes another ten seconds away and leaves the
      state as it was. */
  lemma {:induction false} StillMovesKeepTakingTime(d: DialState, n: nat)
    requires (d.isPressing || d.isDragging) && d.lastAngle.Some?
    requires -DegreesPerTick < d.accumulated < 0.0
    ensures RunGestures(d, seq(n, _ => MoveTo(d.lastAngle.value)))
            == Reaction(d, seq(n, _ => Rotate(-TickIncrement)))
    decreases n
  {
    if n > 0 {
      var a := d.lastAngle.value;
      assert NormalizeDelta(a - a) == 0.0;
      NegativeAccumulatorEmitsEveryMove(d.accumulated, 0.0);
      assert Move(d, a) == Reaction(d, [Rotate(-TickIncrement)]);
      assert seq(n, _ => MoveTo(a)) == [MoveTo(a)] + seq(n - 1, _ => MoveTo(a));
      RunGesturesCons(d, MoveTo(a), seq(n - 1, _ => MoveTo(a)));
      StillMovesKeepTakingTime(d, n - 1);
      assert seq(n, _ => Rotate(-TickIncrement)) == [Rotate(-TickIncrement)] + seq(n - 1, _ => Rotate(-TickIncrement));
    }
  }

  /** Backward, the split does matter. The tick count floors while the
      remainder truncates, so each backward step that leaves the accumulator
      in (-15, 0) costs ten seconds: the same -15 degrees take ten seconds in
      one move and twenty in two. */
  lemma {:induction false} BackwardSplitChangesSeconds(a: real)
    ensures RunGestures(Idle(), [Down(a), MoveTo(a - 15.0)]).emitted == [Rotate(-10)]
    ensures RunGestures(Idle(), [Down(a), MoveTo(a - 7.5), MoveTo(a - 15.0)]).emitted == [Rotate(-10), Rotate(-10)]
  {
    BackwardNotchInOneMove(a);
    var s1 := Start(Idle(), a);
    var m1 := Move(s1, a - 7.5);
    assert m1.emitted == [Rotate(-10)] && m1.next.accumulated == -7.5 && m1.next.lastAngle == Some(a - 7.5)
           && m1.next.isPressing by {
      NegativeNotchStep(s1, a - 7.5);
    }
    var m2 := Move(m1.next, a - 15.0);
    assert m2.emitted == [Rotate(-10)] by {
      NegativeNotchStep(m1.next, a - 15.0);
    }
    RunGesturesCons(m1.next, MoveTo(a - 15.0), []);
    RunGesturesCons(s1, MoveTo(a - 7.5), [MoveTo(a - 15.0)]);
    RunGesturesCons(Idle(), Down(a), [MoveTo(a - 7.5), MoveTo(a - 15.0)]);
  }

  /** Fifteen degrees back in one move: one notch. */
  lemma BackwardNotchInOneMove(a: real)
    ensures RunGestures(Idle(), [Down(a), MoveTo(a - 15.0)]).emitted == [Rotate(-10)]
  {
    var s1 := Start(Idle(), a);
    var one := Move(s1, a - 15.0);
    assert one.emitted == [Rotate(-10)] by {
      NegativeNotchStep(s1, a - 15.0);
    }
    RunGesturesCons(s1, MoveTo(a - 15.0), []);
    RunGesturesCons(Idle(), Down(a), [MoveTo(a - 15.0)]);
  }

  /** One move of the contact that brings the accumulator to (-15, 0]
      without dragging emits one notch back. */
  lemma NegativeNotchStep(d: DialState, current: real)
    requires d.isPressing && d.lastAngle.Some?
    requires -180.0 <= current - d.lastAngle.value <= 180.0
    requires -DegreesPerTick <= d.accumulated + (current - d.lastAngle.value) < 0.0
    ensures Move(d, current).emitted == [Rotate(-TickIncrement)]
    ensures Move(d, current).next.isPressing && Move(d, current).next.lastAngle == Some(current)
    ensures Move(d, current).next.accumulated
            == if d.accumulated + (current - d.lastAngle.value) == -DegreesPerTick then 0.0
               else d.accumulated + (current - d.lastAngle.value)
  {
    var delta := current - d.lastAngle.value;
    assert NormalizeDelta(delta) == delta;
    var sum := d.accumulated + delta;
    assert (sum / DegreesPerTick).Floor == -1;
    if sum == -DegreesPerTick {
      assert Trunc(sum / DegreesPerTick) == -1;
    } else {
      assert Trunc(sum / DegreesPerTick) == 0;
    }
    MoveLaws(d, current);
  }

  lemma {:induction false} RunGesturesAppend(d: DialState, a: seq<Gesture>, b: seq<Gesture>)
    ensures RunGestures(d, a + b).next == RunGestures(RunGestures(d, a).next, b).next
    ensures RunGestures(d, a + b).emitted == RunGestures(d, a).emitted + RunGestures(RunGestures(d, a).next, b).emitted
    decreases |a|
  {
    if a == [] {
      assert a + b == b;
    } else {
      var first := React(d, a[0]);
      assert (a + b)[0] == a[0] && (a + b)[1..] == a[1..] + b;
      RunGesturesAppend(first.next, a[1..], b);
      var mid := RunGestures(first.next, a[1..]);
      var tail := RunGestures(mid.next, b);
      assert RunGestures(d, a) == Reaction(mid.next, first.emitted + mid.emitted);
      assert RunGestures(d, a + b) == Reaction(tail.next, first.emitted + (mid.emitted + tail.emitted));
      assert first.emitted + (mid.emitted + tail.emitted) == (first.emitted + mid.emitted) + tail.emitted;
    }
  }

  lemma {:induction false} SumNonNegative(deltas: seq<real>)
    requires AllNonNegative(deltas)
    ensures Sum(deltas) >= 0.0
    decreases |deltas|
  {
    if deltas != [] {
      assert AllNonNegative(deltas[1..]) by {
        forall i | 0 <= i < |deltas[1..]| ensures deltas[1..][i] >= 0.0 {
          assert deltas[1..][i] == deltas[i + 1];
        }
      }
      SumNonNegative(deltas[1..]);
    }
  }

  /** Forward moves that together stay within the drag threshold emit
      nothing, and none of them makes the contact a drag or drops the
      handle. */
  lemma {:induction false} SmallForwardMovesAreNoDrag(d: DialState, last: real, angles: seq<real>)
    requires d.isPressing && d.lastAngle == Some(last) && 0.0 <= d.accumulated
    requires AllNonNegative(Deltas(last, angles))
    requires d.accumulated + Sum(Deltas(last, angles)) <= DragThreshold
    ensures var r := RunGestures(d, Moves(angles));
      && r.emitted == []
      && r.next.isPressing && r.next.lastAngle.Some?
      && r.next.isDragging == d.isDragging
      && r.next.pressHandlePresent == d.pressHandlePresent
      && r.next.timerPending == d.timerPending
    decreases |angles|
  {
    if angles != [] {
      var deltas := Deltas(last, angles);
      var delta := NormalizeDelta(angles[0] - last);
      assert deltas[0] == delta && deltas[1..] == Deltas(angles[0], angles[1..]);
      assert AllNonNegative(deltas[1..]) by {
        forall i | 0 <= i < |deltas[1..]| ensures deltas[1..][i] >= 0.0 {
          assert deltas[1..][i] == deltas[i + 1];
        }
      }
      SumNonNegative(deltas[1..]);
      assert 0.0 <= delta <= DragThreshold;
      var m := Move(d, angles[0]);
      MoveLaws(d, angles[0]);
      QuantiseLaws(d.accumulated, delta);
      assert Quantise(d.accumulated, delta) == Notched(d.accumulated + delta, 0);
      assert m.emitted == [];
      RunGesturesCons(d, MoveTo(angles[0]), Moves(angles[1..]));
      SmallForwardMovesAreNoDrag(m.next, angles[0], angles[1..]);
    }
  }

  // ---- whole contacts ----

  /** A press that turns forward by at most the drag threshold and is let go
      before the timeout is a tap, and nothing else. */
  lemma ForwardJitterTapToggles(a: real, b: real)
    requires 0.0 <= NormalizeDelta(b - a) <= DragThreshold
    ensures RunGestures(Idle(), [Down(a), MoveTo(b), Up]).emitted == [Toggle]
  {
    var s1 := Start(Idle(), a);
    var delta := NormalizeDelta(b - a);
    assert (delta / DegreesPerTick).Floor == 0;
    var m := Move(s1, b);
    assert m.emitted == [];
    assert !m.next.isDragging && m.next.pressHandlePresent;
    RunGesturesCons(m.next, Up, []);
    RunGesturesCons(s1, MoveTo(b), [Up]);
    RunGesturesCons(Idle(), Down(a), [MoveTo(b), Up]);
  }

  /** The same for a contact of any number of forward moves whose total
      turn is at most the drag threshold: a tap, and nothing else. */
  lemma {:induction false} ForwardJitterContactToggles(a: real, angles: seq<real>)
    requires AllNonNegative(Deltas(a, angles)) && Sum(Deltas(a, angles)) <= DragThreshold
    ensures RunGestures(Idle(), [Down(a)] + Moves(angles) + [Up]).emitted == [Toggle]
  {
    var s1 := Start(Idle(), a);
    SmallForwardMovesAreNoDrag(s1, a, angles);
    var r := RunGestures(s1, Moves(angles));
    RunGesturesAppend(Idle(), [Down(a)] + Moves(angles), [Up]);
    RunGesturesCons(Idle(), Down(a), Moves(angles));
    RunGesturesCons(r.next, Up, []);
    assert End(r.next).emitted == [Toggle];
  }

  /** The same tap with half a degree of backward jitter also takes ten
      seconds away, because floor(-0.5 / 15) is -1. */
  lemma BackwardJitterTapAlsoRotates()
    ensures RunGestures(Idle(), [Down(0.0), MoveTo(-0.5), Up]).emitted == [Rotate(-10), Toggle]
  {
    assert (-0.5 / DegreesPerTick).Floor == -1;
    var s1 := Start(Idle(), 0.0);
    var m := Move(s1, -0.5);
    assert m.emitted == [Rotate(-10)];
    RunGesturesCons(m.next, Up, []);
    RunGesturesCons(s1, MoveTo(-0.5), [Up]);
    RunGesturesCons(Idle(), Down(0.0), [MoveTo(-0.5), Up]);
  }

  /** A press held until the timeout fires resets, and its release still
      toggles: the handle was never set back to null. */
  lemma LongPressReleaseAlsoToggles(a: real)
    ensures RunGestures(Idle(), [Down(a), HoldElapsed, Up]).emitted == [Reset, Toggle]
  {
    var s1 := Start(Idle(), a);
    var f := Fire(s1);
    RunGesturesCons(f.next, Up, []);
    RunGesturesCons(s1, HoldElapsed, [Up]);
    RunGesturesCons(Idle(), Down(a), [HoldElapsed, Up]);
  }

  /** `n` button releases. */
  function Ups(n: nat): seq<Gesture>
  {
    seq(n, _ => Up)
  }

  /** `n` taps. */
  function Toggles(n: nat): seq<Intent>
  {
    seq(n, _ => Toggle)
  }

  /** Between contacts a release leaves the fields as it found them, so each
      release toggles while the handle is there, and none does once it is
      gone. */
  lemma {:induction false} ReleasesBetweenContacts(d: DialState, n: nat)
    requires !d.isPressing && !d.isDragging && d.lastAngle.None? && d.accumulated == 0.0
    requires !(d.timerPending && d.pressHandlePresent)
    ensures RunGestures(d, Ups(n)) == Reaction(d, if d.pressHandlePresent then Toggles(n) else [])
    decreases n
  {
    if n > 0 {
      assert End(d).next == d;
      assert Ups(n) == [Up] + Ups(n - 1);
      RunGesturesCons(d, Up, Ups(n - 1));
      ReleasesBetweenContacts(d, n - 1);
      assert Toggles(n) == [Toggle] + Toggles(n - 1);
    }
  }

  /** After one tap on the dial, each later button release anywhere in the
      window is another tap, until a drag drops the handle. */
  lemma {:induction false} ReleaseAfterTapTogglesAgain(a: real, n: nat)
    ensures RunGestures(Idle(), [Down(a)] + Ups(n)).emitted == Toggles(n)
  {
    RunGesturesCons(Idle(), Down(a), Ups(n));
    if n > 0 {
      var s1 := Start(Idle(), a);
      assert Ups(n) == [Up] + Ups(n - 1);
      RunGesturesCons(s1, Up, Ups(n - 1));
      ReleasesBetweenContacts(End(s1).next, n - 1);
      assert Toggles(n) == [Toggle] + Toggles(n - 1);
    }
  }

  /** A move beyond the drag threshold drops the handle, so neither it nor
      any release after it is a tap. */
  lemma {:induction false} DraggingMoveEndsTaps(d: DialState, b: real, n: nat)
    requires d.isPressing && d.lastAngle.Some? && !d.isDragging
    requires Abs(NormalizeDelta(b - d.lastAngle.value)) > DragThreshold
    ensures Toggle !in RunGestures(d, [MoveTo(b)] + Ups(n)).emitted
  {
    var m := Move(d, b);
    MoveLaws(d, b);
    RunGesturesCons(d, MoveTo(b), Ups(n));
    if n > 0 {
      var u := End(m.next);
      assert u.emitted == [];
      assert Ups(n) == [Up] + Ups(n - 1);
      RunGesturesCons(m.next, Up, Ups(n - 1));
      ReleasesBetweenContacts(u.next, n - 1);
    }
  }

  /** A drag drops the handle, and the stray taps end with it: after a tap
      and a second contact that drags, no later release toggles. */
  lemma {:induction false} DragEndsStrayTaps(a: real, b: real, n: nat)
    requires Abs(NormalizeDelta(b - a)) > DragThreshold
    ensures var e := RunGestures(Idle(), [Down(a), Up, Down(a), MoveTo(b)] + Ups(n)).emitted;
      |e| >= 1 && e[0] == Toggle && Toggle !in e[1..]
  {
    var s1 := Start(Idle(), a);
    var e1 := End(s1).next;
    var s2 := Start(e1, a);
    var tail := [MoveTo(b)] + Ups(n);
    DraggingMoveEndsTaps(s2, b, n);
    assert [Down(a), Up, Down(a), MoveTo(b)] + Ups(n) == [Down(a)] + ([Up] + ([Down(a)] + tail));
    RunGesturesCons(e1, Down(a), tail);
    RunGesturesCons(s1, Up, [Down(a)] + tail);
    RunGesturesCons(Idle(), Down(a), [Up] + ([Down(a)] + tail));
    var rest := RunGestures(s2, tail).emitted;
    var e := RunGestures(Idle(), [Down(a), Up, Down(a), MoveTo(b)] + Ups(n)).emitted;
    assert e == [Toggle] + rest;
    assert e[1..] == rest;
  }

  /** A move beyond the drag threshold cancels the timeout, so the contact is
      neither a long press nor a tap; it only rotates. */
  lemma DragIsNeitherTapNorLongPress(a: real, b: real)
    requires Abs(NormalizeDelta(b - a)) > DragThreshold
    ensures Toggle !in RunGestures(Idle(), [Down(a), MoveTo(b), HoldElapsed, Up]).emitted
    ensures Reset !in RunGestures(Idle(), [Down(a), MoveTo(b), HoldElapsed, Up]).emitted
  {
    var s1 := Start(Idle(), a);
    var m := Move(s1, b);
    MoveLaws(s1, b);
    assert m.next.isDragging && !m.next.pressHandlePresent && !m.next.timerPending;
    var f := Fire(m.next);
    assert f == Reaction(m.next, []);
    var e := End(f.next);
    assert e.emitted == [];
    RunGesturesCons(f.next, Up, []);
    RunGesturesCons(m.next, HoldElapsed, [Up]);
    RunGesturesCons(s1, MoveTo(b), [HoldElapsed, Up]);
    RunGesturesCons(Idle(), Down(a), [MoveTo(b), HoldElapsed, Up]);
  }

  /** The component's mutable fields, changed step by step by the handlers. */
  class Dial {
    var lastAngle: Option<real>
    var accumulated: real
    var pressHandlePresent: bool
    var timerPending: bool
    var staleTimers: nat
    var isPressing: bool
    var isDragging: bool
    var rotation: real

    /** The fields as one value. */
    function Model(): DialState
      reads this
    {
      DialState(lastAngle, accumulated, pressHandlePresent, timerPending, staleTimers,
                isPressing, isDragging, rotation)
    }

    constructor ()
      ensures Model() == Idle()
    {
      lastAngle := None;
      accumulated := 0.0;
      pressHandlePresent := false;
      timerPending := false;
      staleTimers := 0;
      isPressing := false;
      isDragging := false;
      rotation := 0.0;
    }

    method HandleStart(angle: real)
      modifies this
      ensures Model() == Start(old(Model()), angle)
    {
      isPressing := true;
      lastAngle := Some(angle);
      if timerPending {
        staleTimers := staleTimers + 1;
      }
      pressHandlePresent := true;
      timerPending := true;
    }

    method HandleMove(current: real) returns (emitted: seq<Intent>)
      modifies this
      ensures Reaction(Model(), emitted) == Move(old(Model()), current)
    {
      emitted := [];
      if !isPressing && !isDragging {
        return;
      }
      if lastAngle.Some? {
        var delta := current - lastAngle.value;
        if delta > 180.0 {
          delta := delta - 360.0;
        }
        if delta < -180.0 {
          delta := delta + 360.0;
        }
        assert delta == NormalizeDelta(current - lastAngle.value);
        if Abs(delta) > DragThreshold {
          BeginDrag();
        }
        emitted := Accumulate(delta);
        rotation := rotation + delta;
      }
      lastAngle := Some(current);
    }

    /** The drag branch of the move handler: a drag, and the long-press timeout
        cleared and its handle dropped. */
    method BeginDrag()
      modifies this`isDragging, this`timerPending, this`pressHandlePresent
      ensures isDragging && !pressHandlePresent
      ensures timerPending == (old(timerPending) && !old(pressHandlePresent))
    {
      isDragging := true;
      if pressHandlePresent {
        timerPending := false;
        pressHandlePresent := false;
      }
    }

    /** The notch step of the move handler: add the delta, emit whole notches,
        keep the remainder. */
    method Accumulate(delta: real) returns (emitted: seq<Intent>)
      modifies this`accumulated
      ensures accumulated == Quantise(old(accumulated), delta).remainder
      ensures emitted == if Quantise(old(accumulated), delta).increment != 0
                         then [Rotate(Quantise(old(accumulated), delta).increment)] else []
    {
      emitted := [];
      accumulated := accumulated + delta;
      var ticks := (accumulated / DegreesPerTick).Floor;
      if ticks != 0 {
        emitted := [Rotate(ticks * TickIncrement)];
        accumulated := JsRemainder(accumulated);
      }
    }

    method HandleEnd() returns (emitted: seq<Intent>)
      modifies this
      ensures Reaction(Model(), emitted) == End(old(Model()))
    {
      emitted := [];
      if pressHandlePresent {
        timerPending := false;
        if !isDragging {
          emitted := [Toggle];
        }
      }
      isPressing := false;
      isDragging := false;
      lastAngle := None;
      accumulated := 0.0;
    }

    method LongPressFire() returns (emitted: seq<Intent>)
      modifies this
      ensures Reaction(Model(), emitted) == Fire(old(Model()))
    {
      emitted := [];
      if timerPending {
        timerPending := false;
        emitted := [Reset];
        isPressing := false;
      }
    }

    method StaleLongPressFire() returns (emitted: seq<Intent>)
      modifies this
      ensures Reaction(Model(), emitted) == FireStale(old(Model()))
    {
      emitted := [];
      if staleTimers > 0 {
        staleTimers := staleTimers - 1;
        emitted := [Reset];
        isPressing := false;
      }
    }
  }

  /** A client of the class: a tap, then a release somewhere else in the
      window, toggles twice. */
  method TapThenStrayRelease(angle: real) returns (tap: seq<Intent>, stray: seq<Intent>)
    ensures tap == [Toggle] && stray == [Toggle]
  {
    var dial := new Dial();
    dial.HandleStart(angle);
    tap := dial.HandleEnd();
    stray := dial.HandleEnd();
  }

  /** A client of the class: hold until the timeout, then let go. */
  method HoldThenRelease(angle: real) returns (hold: seq<Intent>, release: seq<Intent>)
    ensures hold == [Reset] && release == [Toggle]
  {
    var dial := new Dial();
    dial.HandleStart(angle);
    hold := dial.LongPressFire();
    release := dial.HandleEnd();
  }
}
