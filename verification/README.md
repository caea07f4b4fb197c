# Gesture drawing: per-frame logic

A Dafny model of the frame loop of `gdrawing.py`, a drawing program driven by hand gestures seen
through a webcam. The loop keeps a little session state (the palette colour, a colour-change
cooldown counter, the brush type, two hold-to-confirm previews and the last pen position) and, on
each frame, turns one detected hand into paint calls on the canvas. The model makes that a pure
step function over an explicit state record:

    Frame.Step(state, frameInput) -> Outcome(state', commands)

Canvas effects are a list of draw commands (`Canvas.Command`), not pixels. What the program
reads from the outside world is lifted into the frame input:

- the hand (or its absence): the index fingertip in pixels, the eight finger heights the
  classifier compares, and a boolean for `abs(thumb_angle) > 120`;
- the clock, as integer milliseconds (the one-second hold is 1000 ms);
- the spray brush's random offsets, as a sequence of 30 offsets in [-10, 10].

Modules, following the parts of the loop:

- `ColorCycle`: the four-colour palette, `colors.index`, the next-colour step and the cooldown
  counter (`Tick`), decremented on every frame and reloaded to 30 on a change.
- `Classifier`: the finger tests and the first-match-wins gesture chain (`Classify`), with the
  proof that the dashed-brush branch is a strengthening of the circle branch and the spray-brush
  branch has the rectangle branch's own condition, so neither can be entered.
- `Hold`: the hold-to-confirm preview (`Confirm`), shared by the shape tool and the brush selector.
- `Brush`: `draw_line` (`DrawLine`) for the solid, dashed and spray styles, with the integer
  square root that stands for `int(math.hypot(...))`.
- `Frame`: the session state, the per-frame step and one-frame properties.
- `Runs`: properties of whole frame sequences (colour changes at least 30 frames apart, brush
  stays solid, a stamp needs a gesture shown at least one second earlier, pen continuity).
- `Scenarios`: lemmas about concrete frame sequences.

Behaviours of the code worth knowing:

- A pending tool preview is not cancelled by pointer, unrecognised or no-hand frames; showing the
  same shape again later stamps at once (`Scenarios.InterruptedHoldStampsAtOnce`).
- Holding a shape gesture does not fire once per hold: the frame after a stamp re-arms the
  preview, and the shape stamps again a second later (`Scenarios.HeldCircleStampsAgain`).
- Shape frames keep the pen position; only unrecognised and no-hand frames lift the pen.
- The brush branches cannot be reached, so the brush type never leaves "solid" and the brush
  preview is never set (`Runs.BrushStaysSolid`); the thick-brush flag is never set either.
- The counter is decremented before the test, so a counter of 1 at the start of a frame allows a
  change on that frame; changes are therefore exactly 30 frames apart under a held thumb.
- Dashes start at every multiple of 20 below the rounded-down segment length and are always 10
  long, so the last dash can reach up to 9 pixels past the segment's end point.

## Model

| member | source | states |
|---|---|---|
| ColorCycle.IndexOf | gdrawing.py:122 | the result is a position in the list holding the colour, and no earlier position holds it |
| ColorCycle.PaletteIndexFaithful | gdrawing.py:26 | the palette entries are distinct, so looking up a palette colour returns its own position; keeping the colour as a palette position loses nothing |
| ColorCycle.NextColor | gdrawing.py:122 | the next colour is the palette entry after the current one's looked-up position, modulo 4: it differs from the current one, and the fourth colour wraps to the first |
| ColorCycle.Tick | gdrawing.py:100-123 | the colour changes exactly when the thumb flag holds and the counter is at most 1 on entry; a change moves to the next colour and reloads 30; otherwise the counter drops by one if positive; the counter stays within 30 |
| Hold.Confirm | gdrawing.py:127-132 | a gesture fires exactly when it is already previewed and at least 1000 ms have passed since the preview was armed; firing clears the preview; a gesture not previewed is armed at the current time without firing; an early repeat changes nothing |
| Classifier.Classify | gdrawing.py:126-165 | the first-match chain; the circle tool is chosen exactly on the circle sign and the rectangle tool exactly on the rectangle sign (the two exclude each other); the remaining branches are stated by ClassifyCharacterised and BrushBranchesUnreachable |
| Classifier.PeaceImpliesCircle | gdrawing.py:142 | the dashed-brush condition implies the circle-tool condition |
| Classifier.RockIsRect | gdrawing.py:150 | the spray-brush condition is equivalent to the rectangle-tool condition |
| Classifier.BrushBranchesUnreachable | gdrawing.py:126-156 | no hand is classified into the dashed or the spray branch |
| Classifier.ClassifyCharacterised | gdrawing.py:126-165 | the chain selects the circle tool exactly on the circle sign, the rectangle tool exactly on the rectangle sign, drawing exactly on the pointer sign without the rectangle sign, and nothing when neither the circle nor the pointer sign holds |
| Classifier.PeacePoseDrawsCircle | gdrawing.py:141-144 | a hand showing the dashed-brush pose exists, and it selects the circle tool |
| Brush.ISqrt | gdrawing.py:64 | the result is the integer square root: its square is at most the input and the next integer's square exceeds it |
| Brush.SegmentLength | gdrawing.py:64 | the result is the rounded-down Euclidean distance between two pixel positions, and it is 0 exactly when they coincide |
| Brush.DashStarts | gdrawing.py:65 | the starts number ceil((limit - from) / 20) (none for an empty range), the k-th is from + 20k, and all lie in [from, limit) |
| Brush.DashStartsMembers | gdrawing.py:65 | a value is a dash start exactly when it lies in [from, limit) a whole number of strides of 20 past from |
| Brush.CeilStrides | gdrawing.py:65 | the rounded-up number of 20-pixel strides is the fewest whose span reaches the length |
| Brush.DrawLine | gdrawing.py:59-74 | solid: exactly one line from start to end; dashed: one 10-long dash at each offset 20k below the rounded-down length, none for a zero-length segment; spray: exactly 30 dots of radius 1 at end plus the offsets, each within 10 of end on both axes |
| Brush.DashCountCovers | gdrawing.py:63-70 | the number of dashes is the fewest whose strides cover the rounded-down length |
| Brush.SprayIgnoresStart | gdrawing.py:71-74 | a spray puff is the same whatever the start point |
| Frame.PenWidth | gdrawing.py:160 | the pen width is 5 exactly when the thick flag is off and 10 exactly when it is on |
| Frame.StampAt | gdrawing.py:131-139 | a circle stamp is centred on the fingertip with radius 30; a rectangle stamp is 60x40 with its centre on the fingertip; both in the given colour |
| Frame.Step | gdrawing.py:93-168 | the per-frame step: a frame without a hand draws nothing, lifts the pen and leaves both previews and the brush alone; only a thumb-out hand changes the colour; the thick flag is never changed; its full behaviour is stated by CooldownStep, PenStep, ToolStep and StepReachable |
| Frame.HandStep | gdrawing.py:125-165 | the gesture chain leaves the colour, the cooldown counter and the thick flag unchanged |
| Frame.CooldownStep | gdrawing.py:100-123 | over one frame the counter drops by exactly one while above 1, hand or no hand; the colour changes exactly on a thumb-out hand frame with the counter at most 1 on entry, to the next colour with the counter reloaded to 30; the counter stays within 30 |
| Frame.PenStep | gdrawing.py:157-168 | a pointer frame draws the segment from the previous pen position to the fingertip exactly when there was one (one line for a solid brush) and moves the pen there; no-hand and unrecognised frames lift the pen and draw nothing; shape frames keep the pen position |
| Frame.ToolStep | gdrawing.py:125-140 | a shape frame for a shape not previewed arms it at the current time and draws nothing; a stamp comes only when the shape is previewed and 1000 ms have passed, it is a radius-30 circle or a 60x40 rectangle at the fingertip in the current colour, and the preview is cleared; non-shape frames leave the tool preview unchanged |
| Frame.StepReachable | gdrawing.py:142-160 | every frame keeps the counter within 30, the brush solid, the thick flag off and the brush preview unset |
| Runs.ReachableAlong | gdrawing.py:29-37 | every state of a run that starts reachable is reachable |
| Runs.BrushStaysSolid | gdrawing.py:30-31 | from the initial state the brush stays solid with pen width 5, the brush preview is never set and the counter never exceeds 30 |
| Runs.CountdownAfterChange | gdrawing.py:100-123 | m frames after a colour change the counter is 31 - m, and the colour has not changed in between |
| Runs.ColorChangesSpaced | gdrawing.py:121-123 | any two colour changes are at least 30 frames apart |
| Runs.ThumbHeldCyclesEvery30 | gdrawing.py:100-123 | a thumb held out from an idle counter changes colour on the first frame, not on the next 29, and again on the 31st, two palette steps on |
| Runs.StrokeIsNoStamp | gdrawing.py:59-74 | no pen segment, under any brush, contains a shape stamp |
| Runs.PreviewArmedEarlier | gdrawing.py:127-140 | in a run starting without a tool preview, a pending preview was armed by an earlier frame showing that shape at exactly the preview's start time |
| Runs.StampNeedsOneSecond | gdrawing.py:125-140 | in a run starting without a tool preview, a frame that stamps shows a shape gesture, and an earlier frame showed the same gesture at least 1000 ms before |
| Runs.StrokeJoinsPointerFrames | gdrawing.py:158-161 | n consecutive pointer frames starting with the pen up draw n - 1 width-5 lines, the k-th from the (k-1)-th fingertip to the k-th, and nothing on the first |
| Runs.LiftBreaksStroke | gdrawing.py:163-168 | after a no-hand or unrecognised frame, the next pointer frame draws nothing |
| Scenarios.CircleConfirmedAfterOneSecond | gdrawing.py:126-132 | circle frames at 0, 400 and 800 ms stamp nothing; a fourth at 1100 ms stamps one red radius-30 circle at the fingertip |
| Scenarios.HeldCircleStampsAgain | gdrawing.py:126-132 | a circle gesture held at 0, 1000, 1001 and 2001 ms stamps at 1000 ms and again at 2001 ms |
| Scenarios.InterruptedHoldStampsAtOnce | gdrawing.py:126-168 | a circle preview armed at 0 ms survives a pointer frame and a no-hand frame, and the circle gesture shown again at 5000 ms stamps on that frame |

## Left out

- Camera capture, the hand-landmark detector, image flipping and colour conversion (gdrawing.py:8-11, 39-46, 93-98, 106-108): external I/O and a learned model. The model's frame input is the detector's result.
- The window, event loop, clear/save/quit keys, the preview text overlays, the colour swatch and display flips (gdrawing.py:13-18, 76-91, 170-186): presentation plumbing.
- The thumb angle (`atan2`/`degrees`) and the scaling of landmarks by 800 and 600 (gdrawing.py:112-120): floating point; the thumb test is a boolean input and positions are integer pixels.
- Finger heights are integers standing for the detector's normalised floats; only their order matters to the classifier.
- The floating-point end points of each dash (gdrawing.py:66-69): a `Dash` command records the segment, the offset along it and the dash length instead.
- `draw_star` (gdrawing.py:49-56): trigonometric geometry, never called.
- `random.randint` and `time.time()`: the spray offsets and the clock are inputs.
- The `drawing`, `erasing` and `stamping` flags (gdrawing.py:21-23, 162, 165, 168): written but never read.
- Brush.SegmentLength: models `int(math.hypot(dx, dy))` as the exact integer square root of dx² + dy², which is what the floating-point expression yields for canvas-sized integer offsets but is not derived from floating-point semantics.
