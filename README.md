# Chronos dial timer — a verified model

This project models the interaction logic of a countdown-timer widget that is
driven by a rotary dial. It has three parts: the timer/alarm state machine of
the root component, the dial's gesture recogniser, and the clock-face
formatter. It proves in Dafny the properties those parts promise.

- `timer.dfy`, module `Timer`. This is the record `{seconds, isActive, isAlarming}`
  and its four transitions: add time, toggle (through start/stop), reset, and
  the one-second tick updater. Each transition is a function. The status line is
  a function too. Sequences of operations are folds over an `Event` list. The
  interval is not a clock. A `Tick` event stands for one firing, and it only has
  an effect while the interval is armed (`isActive && seconds > 0`).
- `dial.dfy`, module `DialGesture`. This is the per-contact recogniser, with two
  layers:
  - pure functions `Start`, `Move`, `End`, `Fire` and `FireStale` over a `DialState` value;
  - the class `Dial`, whose handler methods change the fields step by step.
  
  Each method is proved to leave exactly the state, and emit exactly the
  intents (`Rotate(n)`, `Toggle`, `Reset`), that its function gives. Angles are
  input reals. The 800 ms long-press timeout is an event
  (`HoldElapsed`). A timeout whose handle was overwritten by a second contact
  start still fires; that is `StaleHoldElapsed`.
- `display.dfy`, module `Display`. This is `formatTime`: whole minutes and
  leftover seconds, written in decimal and padded with `'0'` to two
  characters. It also holds the colour-class selection for the digits.
- `widget.dfy`, module `Widget`. This is the wiring between the two machines:
  `onRotate` is bound to add time, `onToggle` to toggle, and `onReset` to reset.
  The invariants of both machines are proved to hold from the initial state
  under any interleaving of gestures and seconds.

Two behaviours of the dial are reproduced as the code has them.

- The remainder after a notch is JavaScript's truncated `%`. An accumulator
  in (-15°, 0) is left unchanged by it, but `floor` still counts it as -1 notch.
  So every later move that leaves the accumulator in (-15°, 0) emits another
  -10 s (`NegativeAccumulatorEmitsEveryMove`), even a move that does not turn
  at all (`StillMovesKeepTakingTime`). A forward move that brings the
  accumulator back to zero or above ends this. Half a degree of backward
  jitter during a tap also takes 10 s away (`BackwardJitterTapAlsoRotates`).
- The long-press handle is never set back to null by the timeout callback or
  by the release handler. A release after a long press still toggles
  (`LongPressReleaseAlsoToggles`). After the first tap, every later button
  release anywhere in the window toggles again (`ReleaseAfterTapTogglesAgain`),
  because the release handler is registered on the window. This lasts until a
  contact drags: the move handler is the only place that drops the handle
  (`DragEndsStrayTaps`).

## Where the code does not do what one would expect

The model follows the code in each case below.

- One would expect a timer at zero seconds never to be running. The code does
  not keep that. Add time, start, then remove the time with a negative
  rotation, and the timer reads "Running" at zero with the interval disarmed
  (`Timer.ZeroSecondsWhileActiveIsReachable`).
- One would expect a long press to be only a reset, with no tap on release.
  The code emits a tap too (`DialGesture.LongPressReleaseAlsoToggles`). On the
  timer it does no harm, because the reset just before it left zero seconds
  (`Widget.LongPressReleaseEndsInStandby`).
- One would expect a contact that moves by 2° or less to be a pure tap. That
  holds for forward movement (`DialGesture.ForwardJitterTapToggles`). It does
  not hold for backward movement (`DialGesture.BackwardJitterTapAlsoRotates`).
- One would expect a turn of the dial to add seconds according to its total
  angle, however it is split into moves. That holds only forward
  (`DialGesture.ForwardTurnAddsWholeNotches`). Backward, the tick count floors
  while the remainder truncates, so each backward move that leaves the
  accumulator in (-15°, 0) costs another 10 s. A -15° turn takes 10 s in one
  move and 20 s in two moves of -7.5° (`DialGesture.BackwardSplitChangesSeconds`).
- One would expect the corrected delta to lie in the half-open range
  (-180°, 180°], so that each angle difference has one representative. The two
  guards in the code leave both -180° and 180° possible
  (`DialGesture.NormalizeDeltaRange`).

## Model

| member | source | states |
|---|---|---|
| `Timer.AddTime` | App.tsx:83-90 | the new count is the larger of zero and count + increment (never negative); the alarm is always cleared, even for a zero increment; isActive is unchanged |
| `Timer.StartTimer` | App.tsx:55-60 | a positive count becomes active and not alarming; a count of zero or less leaves the state unchanged |
| `Timer.StopTimer` | App.tsx:62-64 | both flags false, count unchanged |
| `Timer.ToggleTimer` | App.tsx:66-77 | while alarming, only isAlarming is cleared; while running, the timer stops with the count kept; while idle, it becomes active iff the count is positive; on an idle zero count it is a no-op |
| `Timer.ResetTimer` | App.tsx:79-81 | yields exactly `{0, false, false}` from any state |
| `Timer.TickUpdate` | App.tsx:108-114 | a count of one or less gives `{0, false, true}`; otherwise the count drops by one with both flags unchanged; a positive count strictly decreases and stays non-negative |
| `Timer.StatusLabel` | App.tsx:142 | "Time's Up" iff alarming; "Running" iff active and not alarming; "Ready" iff idle with a positive count; "Standby" otherwise |
| `Timer.Apply` | App.tsx:104-123 | every operation, including a tick (which only acts while the interval is armed), keeps the count non-negative and the two flags never both true |
| `Timer.RunPreservesValid` | App.tsx:55-114 | any sequence of operations keeps that invariant |
| `Timer.NeverActiveAndAlarming` | App.tsx:8-12 | from the initial record, no sequence of operations gives a negative count or a timer both running and alarming |
| `Timer.AlarmOnlyByTick` | App.tsx:106-112 | the only step into the alarm is a tick of an armed interval with at most one second left, and it gives `{0, false, true}` |
| `Timer.ZeroSecondsWhileActiveIsReachable` | App.tsx:83-123 | add 10, toggle, add -10 reaches `{0, true, false}`; the interval is then disarmed, a tick changes nothing, and the label reads "Running" |
| `Timer.CountDown` | App.tsx:106-114 | k ticks of a running timer with more than k seconds left count down by exactly k |
| `Timer.ThirtySecondScenario` | App.tsx:55-114 | +30 s, toggle, 29 ticks gives `{1,T,F}`; one more tick gives `{0,F,T}`; a toggle then gives `{0,F,F}` |
| `DialGesture.NormalizeDeltaRange` | components/Dial.tsx:57-61 | for angles in (-180, 180], the corrected delta lies in [-180, 180] and differs from current - last by 0 or ±360 (by 0 when already in range) |
| `DialGesture.JsRemainderLaws` | components/Dial.tsx:78 | the truncated remainder has the sign of the dividend and less than one notch of magnitude; inside (-15, 15) it is the identity; for non-negative values it is the floor remainder |
| `DialGesture.QuantiseLaws` | components/Dial.tsx:72-80 | the increment is a multiple of 10 and non-zero iff the sum is outside [0, 15); the remainder lies in (-15, 15); for a non-negative sum, notches × 15 + remainder equals the sum; for a negative sum with a non-zero remainder, one notch too many is emitted (the total is short by 15°); for a negative sum with a zero remainder, the notches equal the sum exactly |
| `DialGesture.Start` | components/Dial.tsx:34-47 | pressing, the angle recorded, the handle present with its timeout pending; a timeout that was still pending becomes stale; accumulator, drag flag and rotation unchanged |
| `DialGesture.MoveLaws` | components/Dial.tsx:49-85 | ignored unless pressing or dragging; with no last angle it only records the angle; otherwise it emits at most one Rotate, non-zero and a multiple of 10, exactly when the quantisation step gives one; a corrected move above 2° sets isDragging and drops the handle and its pending timeout, and a smaller one touches neither; it records the new angle and adds the raw delta to the rotation |
| `DialGesture.End` | components/Dial.tsx:87-101 | emits exactly one Toggle iff the handle is present and the contact did not drag, and nothing otherwise; always clears pressing, dragging, the last angle and the accumulator; leaves the handle present |
| `DialGesture.Fire` | components/Dial.tsx:42-46 | a pending timeout emits one Reset and stops pressing; the handle stays present; with nothing pending, nothing happens |
| `DialGesture.FireStale` | components/Dial.tsx:42-46 | an overwritten timeout still fires: one Reset, pressing stops, one stale timeout fewer |
| `DialGesture.ReactPreservesValid` | components/Dial.tsx:34-101 | each handler keeps the dial invariant: a pending timeout has its handle; without a last angle there is no pressing, no drag and no accumulated rotation; the accumulator stays within one notch |
| `DialGesture.RunGesturesPreservesValid` | components/Dial.tsx:34-101 | any gesture sequence keeps the dial invariant |
| `DialGesture.ReachableDialIsValid` | components/Dial.tsx:17-22 | from the initial fields, every reachable state satisfies the dial invariant |
| `DialGesture.RotationsAreWholeNotches` | components/Dial.tsx:75-77 | every Rotate emitted by any gesture sequence is a non-zero multiple of 10 s |
| `DialGesture.ForwardSplitInvariance` | components/Dial.tsx:72-80 | on the quantisation fold (which `MovesAreQuantiseAll` ties to move events): with non-negative deltas, the increments sum to 10 × floor((acc + total)/15) however the deltas are split, and the remainder stays in [0, 15) |
| `DialGesture.HundredFiftyDegreesAddHundredSeconds` | components/Dial.tsx:72-80 | on the quantisation fold: any split of 150° into non-negative deltas gives exactly 100 s and remainder 0 |
| `DialGesture.NegativeRemainderRepeats` | components/Dial.tsx:75-78 | on the quantisation fold: from an accumulator in (-15, 0), n zero deltas give -10 s each and leave the accumulator unchanged |
| `DialGesture.MovesAreQuantiseAll` | components/Dial.tsx:49-85 | during a contact, a run of move events emits rotations only; their seconds sum to the increment of the quantisation fold over the moves' corrected deltas, and the final accumulator is that fold's remainder |
| `DialGesture.ForwardTurnAddsWholeNotches` | components/Dial.tsx:57-80 | for move events turning forward only, the emitted seconds sum to 10 × floor((acc + total corrected angle)/15), however the turn is split, and the accumulator stays in [0, 15) |
| `DialGesture.HundredFiftyDegreeContact` | components/Dial.tsx:34-85 | press, then forward move events totalling 150°: rotations only, summing to exactly 100 s, with nothing left accumulated |
| `DialGesture.BackwardSplitChangesSeconds` | components/Dial.tsx:72-80 | press at any angle a, then one move to a - 15° emits [Rotate(-10)]; the same turn as two moves of -7.5° emits [Rotate(-10), Rotate(-10)] |
| `DialGesture.SmallForwardMovesAreNoDrag` | components/Dial.tsx:57-80 | forward moves whose accumulator plus total turn stay within 2° emit nothing, and leave pressing, dragging, the handle and its timeout as they were |
| `DialGesture.StillMovesKeepTakingTime` | components/Dial.tsx:57-80 | from an accumulator in (-15, 0), n move events to the same angle emit Rotate(-10) n times and leave the state unchanged |
| `DialGesture.NegativeAccumulatorEmitsEveryMove` | components/Dial.tsx:72-78 | any move that leaves the accumulator in (-15, 0) emits -10 s and keeps the accumulator unreduced |
| `DialGesture.ForwardJitterTapToggles` | components/Dial.tsx:34-101 | press, a forward move of at most 2°, release: exactly one Toggle and no rotation |
| `DialGesture.ForwardJitterContactToggles` | components/Dial.tsx:34-101 | press, any number of forward moves turning at most 2° in total, release: exactly one Toggle |
| `DialGesture.BackwardJitterTapAlsoRotates` | components/Dial.tsx:72-94 | press at 0°, move to -0.5°, release: Rotate(-10) then Toggle |
| `DialGesture.LongPressReleaseAlsoToggles` | components/Dial.tsx:42-94 | press, timeout fires, release: Reset then Toggle |
| `DialGesture.ReleasesBetweenContacts` | components/Dial.tsx:87-101 | between contacts, n releases leave the fields unchanged and emit n Toggles while the handle is present, none once it is dropped |
| `DialGesture.ReleaseAfterTapTogglesAgain` | components/Dial.tsx:87-107 | press, then n releases: exactly n Toggles, for every n |
| `DialGesture.DraggingMoveEndsTaps` | components/Dial.tsx:65-101 | during a contact that has not dragged, a move of more than 2° followed by any number of releases emits no Toggle |
| `DialGesture.DragEndsStrayTaps` | components/Dial.tsx:65-101 | a tap, then a contact that moves more than 2°, then any number of releases: the first intent is the Toggle of the tap, and no later intent is a Toggle |
| `DialGesture.DragIsNeitherTapNorLongPress` | components/Dial.tsx:42-101 | after a move above 2°, neither the timeout nor the release emits Toggle or Reset |
| `DialGesture.Dial.constructor` | components/Dial.tsx:17-22 | the fields start as the idle state |
| `DialGesture.Dial.HandleStart` | components/Dial.tsx:34-47 | the new fields are exactly Start of the old ones |
| `DialGesture.Dial.HandleMove` | components/Dial.tsx:49-85 | the new fields and the emitted intents are exactly Move of the old fields |
| `DialGesture.Dial.BeginDrag` | components/Dial.tsx:65-69 | dragging; the handle dropped; its timeout cleared if the handle was present |
| `DialGesture.Dial.Accumulate` | components/Dial.tsx:72-80 | the accumulator and the emitted intents are exactly those of the quantisation step on the old accumulator |
| `DialGesture.Dial.HandleEnd` | components/Dial.tsx:87-101 | the new fields and the emitted intents are exactly End of the old fields |
| `DialGesture.Dial.LongPressFire` | components/Dial.tsx:42-46 | the new fields and the emitted intents are exactly Fire of the old fields |
| `DialGesture.Dial.StaleLongPressFire` | components/Dial.tsx:42-46 | the new fields and the emitted intents are exactly FireStale of the old fields |
| `DialGesture.TapThenStrayRelease` | components/Dial.tsx:87-107 | on a fresh dial, press then release gives [Toggle]; a second release gives [Toggle] again |
| `DialGesture.HoldThenRelease` | components/Dial.tsx:42-101 | on a fresh dial, press then timeout gives [Reset]; the release then gives [Toggle] |
| `Display.NatToString` | components/TimerDisplay.tsx:15-16 | the decimal text is non-empty, all digits, with no leading zero |
| `Display.PadStart` | components/TimerDisplay.tsx:15-16 | the result has length max(width, length of s); it ends with s and is '0' before it (it never truncates) |
| `Display.SplitSeconds` | components/TimerDisplay.tsx:12-13 | mins × 60 + secs == total and 0 <= secs < 60 |
| `Display.NatToStringRoundTrip` | components/TimerDisplay.tsx:15-16 | parsing the decimal text gives back the number; its length is the digit count |
| `Display.LeadingZerosIgnored` | components/TimerDisplay.tsx:15-16 | leading zeros do not change the parsed value |
| `Display.PadStartKeepsValue` | components/TimerDisplay.tsx:15-16 | zero padding keeps a digit string's value |
| `Display.FormatTimeShape` | components/TimerDisplay.tsx:11-18 | the seconds string is exactly two digits; the minutes string is all digits, of length max(2, digit count of the minutes) |
| `Display.FormatTimeRoundTrip` | components/TimerDisplay.tsx:11-18 | parsing the two strings gives m × 60 + s == total, with s < 60 |
| `Display.SelectEmphasis` | components/TimerDisplay.tsx:22-32 | alarming iff isAlarming; counting iff active and not alarming; resting otherwise (alarming takes priority) |
| `Display.ColoursFollowEmphasis` | components/TimerDisplay.tsx:22-32 | both colour selectors give the same classes iff the emphasis is the same; while alarming, isActive makes no difference |
| `Widget.IntentEvent` | App.tsx:162-167 | onRotate(n) is add time n; onToggle is toggle; onReset is reset |
| `Widget.StepPreservesValid` | App.tsx:162-167 | a gesture, with the intents it delivers in order, or a second, keeps both invariants |
| `Widget.RunPreservesValid` | App.tsx:162-167 | any sequence of inputs keeps both invariants |
| `Widget.ReachableWidgetIsValid` | App.tsx:8-12 | from the initial widget, under any gestures and seconds, the count stays non-negative, the timer is never both running and alarming, and the dial invariant holds |
| `Widget.LongPressReleaseEndsInStandby` | App.tsx:66-81 | a Reset followed by a Toggle leaves `{0, false, false}` from any state |
| `Widget.SecondToggleStopsTimer` | App.tsx:66-77 | on an idle positive count, one Toggle starts the timer and a second stops it again |
| `Widget.StrayReleaseStopsRunningTimer` | App.tsx:162-167 | on an idle positive count with a fresh dial, press then release starts the timer; one more release stops it |

## Left out

- Audio is left out: `initAudio`, `playAlarmSound` and the 1.5 s alarm loop (App.tsx:17-53, 93-102). They are browser Web Audio calls with floating-point ramps. The alarm loop never changes the timer record, and it plays while `isAlarming` holds.
- Real time is left out: `setInterval`/`setTimeout`, effect cleanup and window-listener registration. They become the events `Tick`, `HoldElapsed` and `StaleHoldElapsed`. A `Tick` while the interval is disarmed cannot occur, and the model's version changes nothing. The 800 ms threshold is only a constant.
- `getAngle` (components/Dial.tsx:24-32) is not part of this model. It uses DOM geometry and `atan2`. Angles are input reals, and only touch or mouse position 0 is tracked.
- Haptic pulses (`navigator.vibrate`) are left out. They are fire-and-forget side effects.
- JSX, class names other than the two colour selectors, and layout are left out. The dial's `rotation` is kept only as the sum of raw deltas.
- React closure staleness and re-render timing are left out. Events are processed one at a time on current state, so a handler never sees a stale `isPressing`, `isDragging` or `timer`.
- Numbers: JavaScript doubles become unbounded `int` for seconds and exact `real` for angles. Floating-point rounding of angle sums is not modelled.
- `types.ts`: `TimerState` is the `Timer.TimerState` datatype. The enum `InteractionMode` is unused in the source and is left out.
- `Display.FormatTime` takes a `nat`. Its argument is always the timer's count, which never goes negative (`Timer.NeverActiveAndAlarming`), so the formatting of negative numbers is not modelled.
