# wheel-coin-magic: the spin wheel and the coin toss, modelled in Dafny

The application offers two decision widgets. The **spin wheel** holds an
editable list of 2 to 8 labels (six to start with), spins by a random whole
number of degrees, and when its 3-second timer fires shows the label under
the pointer. The **coin toss** starts a flip, and when its 2-second timer
fires the coin lands on heads or tails and a flip counter goes up by one.
Both have a reset button.

Each widget is modelled in two layers:

- a value (`WheelState`, `CoinState`), the events that act on it, an
  `Enabled` predicate saying when an event can occur, a transition function
  `Step` and a trace runner `Exec`; the lemmas about the widget are stated
  over these;
- a class (`Wheel`, `Coin`) whose fields are the component's state and whose
  methods are the event handlers, updating the fields in place; every method
  is proved to perform exactly `Step` on the class's `State()` and to keep
  the invariant `Valid()`.

Timers are explicit. Starting a spin records a `PendingSpin` holding what the
timer callback captured (the final rotation and the label list of that
moment); the `Resolve` event fires the oldest pending spin (the delays are
equal, so timers fire in start order). A toss adds one to a count of pending
timers, and its `Resolve` event carries the random side. Random draws are
parameters with the ranges the source's `Math.floor(Math.random() * …)`
expressions produce: 5 to 9 full turns and a stopping angle 0 to 359.

Modules: `Wrappers` (Option, standing for `null`/`undefined`), `Strings`
(whitespace trimming), `WheelAngle` (the angle-to-segment arithmetic),
`SpinWheel`, `CoinToss`.

Facts about the code that the model keeps: the coin keeps only a total
`flipCount`, with no per-side tallies; the wheel's stopping angle is a whole
number of degrees (`Math.floor`); the winner index is not clamped, and needs
no clamp (see `WheelAngle.WinIndex`); labels have no length cap; the spin has
no guard on the number of labels. The source comment on the turn draw says
5-10 turns; the expression draws 5 to 9.

Two client methods, `SpinWheel.CapturedLabelSpin` and `CoinToss.LateLanding`,
replay the captured-label and late-landing scenarios on the classes and check
that the method contracts alone are enough to derive them.

The winner index is modelled in integers as `((360 - r % 360) % 360) * n / 360`.
The source divides the normalized angle by the float `360 / n`. For every
`n` from 2 to 8 except 7 that width is a whole number, and
`WheelAngle.WinIndexByWidth` proves the two agree. For `n = 7`,
`WheelAngle.SevenHasNoInnerBoundary` proves that `7 * a` is a multiple of 360
only at `a = 0`, so no other whole angle sits on a wedge boundary where float
rounding could matter.

## Model

| member | source | states |
|---|---|---|
| Strings.SkipForward | src/components/SpinWheel.tsx:35-36 | the position reached is the first non-space at or after the start, with only whitespace skipped |
| Strings.SkipBackward | src/components/SpinWheel.tsx:35-36 | the end reached follows a non-space (or meets the start), with only whitespace cut off |
| Strings.Trim | src/components/SpinWheel.tsx:35-36 | the trimmed text is empty exactly when the input is all whitespace, and otherwise starts and ends with a non-space |
| Strings.TrimIsSlice | src/components/SpinWheel.tsx:35-36 | the trimmed text is the slice of the input left after cutting whitespace runs off both ends |
| Strings.TrimIdempotent | src/components/SpinWheel.tsx:35-36 | trimming twice gives the same text as trimming once |
| Strings.TrimOfEdgeless | src/components/SpinWheel.tsx:35-36 | a text with no whitespace at either end is its own trim |
| WheelAngle.NormalizedAngle | src/components/SpinWheel.tsx:66 | the normalized angle is below 360 and completes the rotation to a whole number of turns |
| WheelAngle.NormalizedIsComplement | src/components/SpinWheel.tsx:66 | the normalized angle is the only angle below 360 that completes the rotation to whole turns |
| WheelAngle.WinIndex | src/components/SpinWheel.tsx:65-67 | the index is the wedge whose arc [i*360/n, (i+1)*360/n) holds the normalized angle, hence in [0, n) for n >= 1 |
| WheelAngle.WinIndexUnique | src/components/SpinWheel.tsx:65-67 | any index whose arc holds the normalized angle equals the computed index |
| WheelAngle.WinIndexPeriodic | src/components/SpinWheel.tsx:66-67 | adding whole turns to the rotation changes neither the normalized angle nor the winner, so large cumulative rotations are harmless |
| WheelAngle.WinIndexByWidth | src/components/SpinWheel.tsx:65-67 | when 360 / n is whole, the floor of the normalized angle divided by the wedge width equals the integer index |
| WheelAngle.SevenHasNoInnerBoundary | src/components/SpinWheel.tsx:65-67 | with seven segments no whole angle strictly inside a turn lies on a wedge boundary |
| WheelAngle.DivideByWidth | src/components/SpinWheel.tsx:65-67 | for a whole wedge width, a * n / 360 equals a divided by the width |
| WheelAngle.EverySegmentReachable | src/components/SpinWheel.tsx:59-67 | from any rotation and any number of turns, each of n segments wins for some stopping angle in [0, 360) |
| WheelAngle.FirstAngleOfWedge | src/components/SpinWheel.tsx:65-67 | each of n wedges contains a whole angle below 360 |
| WheelAngle.TwoSegmentsAt370 | src/components/SpinWheel.tsx:65-67 | with two segments and rotation 370 the normalized angle is 350 and the index is 1 |
| SpinWheel.Step | src/components/SpinWheel.tsx:34-80 | one handler or timer's effect (detailed by AddSpec, RemoveSpec, EditSpec, SpinSpec, ResolveSpec, ResetSpec); only the list editor changes the labels, only reset lowers the rotation, and only a spin or a firing timer changes the pending spins |
| SpinWheel.Winner | src/components/SpinWheel.tsx:68 | the label is defined exactly when the captured list is non-empty, and is then the captured label at the computed index |
| SpinWheel.Without | src/components/SpinWheel.tsx:43 | the filter drops exactly position index when it is in range and returns the list unchanged otherwise |
| SpinWheel.AddSpec | src/components/SpinWheel.tsx:34-39 | adding appends the trimmed text and clears the box exactly when the text is not all whitespace and fewer than 8 labels exist; otherwise nothing changes |
| SpinWheel.RemoveSpec | src/components/SpinWheel.tsx:41-45 | with more than 2 labels and an index in range, the list loses exactly that position and keeps the others in order; otherwise it is unchanged; no other field changes |
| SpinWheel.EditSpec | src/components/SpinWheel.tsx:47-51 | editing sets position index to the value and keeps the length, every other position and every other field |
| SpinWheel.SpinSpec | src/components/SpinWheel.tsx:53-62 | a spin while spinning changes nothing; otherwise it sets spinning, clears the result, sets the rotation to old + spins * 360 + stop (a rise of 1800 to 3599) and records the pending spin with the current labels |
| SpinWheel.SpinCanLandOnAnyLabel | src/components/SpinWheel.tsx:59-68 | from any valid idle state and any drawn number of turns, some stopping angle makes the started spin resolve to any chosen current label |
| SpinWheel.ResolveSpec | src/components/SpinWheel.tsx:64-71 | in a valid state the timer shows the captured list's label at the index computed from the captured rotation (always in range), stops spinning, consumes its pending spin and changes nothing else |
| SpinWheel.ResetSpec | src/components/SpinWheel.tsx:76-80 | reset zeroes the rotation, clears result and spinning, and changes nothing else: labels, add box and pending timers are kept |
| SpinWheel.StepKeepsInv | src/components/SpinWheel.tsx:14-80 | every handler and timer keeps the list and every captured list at 2 to 8 labels, and while spinning a spin is pending at the current rotation with no result |
| SpinWheel.ExecKeepsInv | src/components/SpinWheel.tsx:14-16 | from the initial six labels, every run of events keeps the invariant, so the list always has 2 to 8 labels |
| SpinWheel.RotationMonotone | src/components/SpinWheel.tsx:60-62 | without a reset the rotation never decreases over any run |
| SpinWheel.TwoLabelsAt370 | src/components/SpinWheel.tsx:64-70 | a pending spin over two labels captured at 370 degrees shows the second label |
| SpinWheel.ResolveUsesCapturedLabels | src/components/SpinWheel.tsx:64-68 | the timer shows the label captured at spin time, "Option 6", even though that label was renamed before it fired |
| SpinWheel.ResetDoesNotCancel | src/components/SpinWheel.tsx:64-80 | after spin, reset, spin, the first timer still fires, shows its winner and stops the spinning while the second spin is pending |
| SpinWheel.Wheel.constructor | src/components/SpinWheel.tsx:14-20 | the widget starts with the six "Option" labels, an empty box, rotation 0, no result and no spin |
| SpinWheel.Wheel.SetNewOption | src/components/SpinWheel.tsx:181 | typing replaces the add box's text and nothing else |
| SpinWheel.Wheel.AddSegment | src/components/SpinWheel.tsx:34-39 | performs the add step in place: appends the trimmed text and clears the box when it is not all whitespace and there is room |
| SpinWheel.Wheel.RemoveSegment | src/components/SpinWheel.tsx:41-45 | performs the remove step in place: drops position index when more than 2 labels exist |
| SpinWheel.Wheel.EditSegment | src/components/SpinWheel.tsx:47-51 | copies the list into an array, writes one slot, and stores the list with that one position replaced |
| SpinWheel.Wheel.SpinWheel | src/components/SpinWheel.tsx:53-62 | performs the spin step in place: no-op while spinning, else rotation raised by 1800 to 3599 and a pending spin recorded |
| SpinWheel.Wheel.ResolveSpin | src/components/SpinWheel.tsx:64-71 | the oldest timer fires and shows the captured label at the computed index, and spinning stops |
| SpinWheel.Wheel.ResetWheel | src/components/SpinWheel.tsx:76-80 | rotation 0, no result, not spinning; labels and pending timers kept |
| CoinToss.Step | src/components/CoinToss.tsx:17-39 | one handler or timer's effect (detailed by TossSpec, ResolveSpec, ResetSpec); the counter changes only when a timer fires or on reset, only a reset lowers it, and a reset leaves the pending timers |
| CoinToss.TossSpec | src/components/CoinToss.tsx:17-21 | a toss while flipping changes nothing; otherwise it starts a flip, clears the result, keeps the counter and schedules one timer |
| CoinToss.ResolveSpec | src/components/CoinToss.tsx:24-28 | a firing timer shows exactly the drawn side, stops the flip and adds one to the counter's current value |
| CoinToss.ResetSpec | src/components/CoinToss.tsx:35-39 | reset clears result, flip and counter unconditionally and cancels no timer |
| CoinToss.StepKeepsInv | src/components/CoinToss.tsx:13-39 | every event keeps the invariant: while flipping a timer is pending and no result is shown |
| CoinToss.ExecKeepsInv | src/components/CoinToss.tsx:13-39 | every run from the initial state keeps the invariant |
| CoinToss.CountIsResolvesSinceReset | src/components/CoinToss.tsx:28 | after any run the counter equals the number of timers that fired since the last reset |
| CoinToss.CountGrowsWithoutReset | src/components/CoinToss.tsx:28 | without a reset the counter grows by exactly the number of timers that fired, so it never decreases |
| CoinToss.DoubleTossLandsOnce | src/components/CoinToss.tsx:17-18 | a second toss during a flip schedules nothing, so only one outcome can land |
| CoinToss.LateLandingAfterReset | src/components/CoinToss.tsx:24-39 | a toss started before a reset still lands after it and leaves the counter at 1, not the old count plus 1 |
| CoinToss.Coin.constructor | src/components/CoinToss.tsx:13-15 | not flipping, no result, counter 0, no timer |
| CoinToss.Coin.TossCoin | src/components/CoinToss.tsx:17-21 | performs the toss step in place: no-op while flipping, else flipping with no result and the counter unchanged |
| CoinToss.Coin.ResolveToss | src/components/CoinToss.tsx:24-28 | a timer fires: result is the drawn side, flipping stops, counter is its current value plus one |
| CoinToss.Coin.ResetCoin | src/components/CoinToss.tsx:35-39 | result none, not flipping, counter 0; pending timers kept |

## Left out

- Rendering: JSX, styling classes, the colour table, the wedge clip-path geometry (float `Math.sin`/`Math.cos`) and the wheel's CSS rotation; they compute nothing the state depends on.
- `toast.success` notifications after a spin or a toss: foreign UI side effects.
- `setTimeout` delays: modelled only as explicit timer-firing events, with no notion of time.
- `Math.random`: modelled as range-bounded parameters; uniformity of the coin and of the wheel's segment choice is a statistical claim and is not stated. `WheelAngle.EverySegmentReachable` states only that every segment can win.
- React hook mechanics (`useState`, `useRef`, re-rendering): state is class fields. Within one handler the source reads the values of the last render, which are the current fields for events that arrive one at a time.
- `String.prototype.trim`: modelled over a fixed whitespace set (ASCII blanks, no-break space, line and paragraph separators, byte-order mark), not all Unicode space separators.
- SpinWheel.Wheel.EditSegment: requires an index of a listed row, as the only caller (the row's onChange) passes; JavaScript's growth of an array written past its end is not modelled.
- The navigation shell in src/pages/Index.tsx: a view switch with no logic beyond assignment.
- `flipCount` and `rotation` are unbounded integers; JavaScript's number precision limit (2^53) is not modelled.
