# ZoomAnyJs pan/zoom engine in Dafny

A model of the state engine of `ZoomAnyJs`. ZoomAnyJs is a browser component that pans and zooms
one element inside its container, which is either the window or the element's offset parent.
The controller's state is the record `State(x, y, zoom, anchor, cache, pinchDistance, interacting)`:

- the transform (`#values`);
- the drag anchor (`#draggingStartPosition`);
- the pointer cache;
- the cached pinch distance (`#zoomingPointerDifference`);
- the interaction flag.

Every public operation and event handler is a pure function from a state to a state. Numbers are `real`.

What the page would report is passed in as parameters:

- **Geometry** is a `Geometry.Snapshot`. It holds the element's bounding box, the container's bounding box, the window size, and the element's `offsetLeft`/`offsetTop`. The container is `document.body` in window mode and the offset parent in parent mode. The element's box only changes when the transform is written back (`apply`), so one operation reads one snapshot. The wheel handler and the pinch handler call `apply` between `zoomAt` and `fitToBounds`, so they take two snapshots: `g` before the write and `g'` after it.
- **Configuration** is a `Settings.Config`. It holds the `data-bounds`, `data-draggable` and `data-origin-parent` flags and the raw `data-min-zoom`/`data-max-zoom` texts. It also holds the platform's `parseInt` as a function value `string -> Option<int>`, where `None` stands for `NaN`.
- **Pinch distance.** The handler computes the Euclidean distance between the two pointers with `Math.sqrt`. The model takes it as an input `d` with `d >= 0 && d * d == dx * dx + dy * dy`.

Modules:

- `Geometry`: axes, boxes and `#fitsInContainer`.
- `Settings`: the configuration and `#getZoomLimit`.
- `PointerCache`: append, update and remove by pointer id, as recursive functions and as the source's indexed loops.
- `View`: the state record, `reset`, and the get/set accessors. `isInteracting` is the `interacting` field, read by `View.IsInteracting`.
- `Bounds`: `center`, `fitToBounds` and `zoomToFit`.
- `Zoom`: `zoomAt` and its laws.
- `Wheel`: the amplitude chosen by `#onWheel`, and one defect in it (see Findings).
- `Gesture`: the pointer-down, pointer-move and pointer-up handlers, the drag, and the pinch.

Behaviour the model keeps exactly as coded:

- Wheel thresholds (src/zoom-any-js.ts:369-377). The wheel amplitude starts at 0, becomes 1.1 for `deltaY < 1` and 1/1.1 for `deltaY > 1`, and so stays 0 for `deltaY == 1` (see Findings).
- zoomToFit cap (src/zoom-any-js.ts:286-289). `zoomToFit` takes the minimum with the constant 100, so an element smaller than its container is zoomed in up to 100 percent (`Bounds.ZoomToFitMayZoomIn`). An element with no extent gets exactly 100.
- `center("xy")` (src/zoom-any-js.ts:157-160). The second test sits in an `else if`, so `"xy"` sets only `x`, although the doc comment at src/zoom-any-js.ts:148 describes `xy` as both directions.
- Drag anchor (src/zoom-any-js.ts:401-408). Pointer-down captures the anchor whenever none exists, for the second pointer of a pinch as well.
- Overflow test and centring (src/zoom-any-js.ts:241-256). In window mode, `fitToBounds` measures overflow against the window size and centres a fitting axis with `center`, which measures the body's box.
- Pinch cache reset (src/zoom-any-js.ts:581-583). Pointer-up sets the cached pinch distance to -1 whenever fewer than two pointers remain, and leaves the rest of the pointer cache in place.
- Pinch direction (src/zoom-any-js.ts:526-527). The amplitude is the new distance over the old one, so pointers moving apart zoom in (`Gesture.PinchDirection`); the doc comment at src/zoom-any-js.ts:507-508 states the reverse.

## Model

| member | source | states |
|---|---|---|
| `Geometry.FitsInContainer` | src/zoom-any-js.ts:300-308 | the element fits iff its size is at most the container's on every axis the direction names; `'xy'` needs both axes |
| `Settings.ZoomLimit` | src/zoom-any-js.ts:318-324 | a limit is `"fit"` exactly when the attribute is the text `fit`; an absent or empty attribute gives 10 (min) or 4000 (max); any other text gives what `parseInt` gives, and `NaN` when it gives no number |
| `PointerCache.IndexOf` | src/zoom-any-js.ts:560-562 | the index found holds the id and no earlier entry does; no index is found iff no entry holds the id |
| `PointerCache.Update` | src/zoom-any-js.ts:559-566 | the length is kept; the first entry with the event's id (the one `IndexOf` finds) is replaced by the event and every other entry is kept; without one the cache is unchanged |
| `PointerCache.UpdateLoop` | src/zoom-any-js.ts:560-565 | the source's indexed loop with `break` computes the same cache as `Update` |
| `PointerCache.Remove` | src/zoom-any-js.ts:575-580 | the first entry with the id is cut out and the others keep their order; without one the cache is unchanged |
| `PointerCache.RemoveLoop` | src/zoom-any-js.ts:575-580 | the source's loop with `splice` and `break` computes the same cache as `Remove` |
| `PointerCache.RemoveAfterAppend` | src/zoom-any-js.ts:549-580 | removing a pointer with a fresh id right after appending it gives back the original cache |
| `View.Reset` | src/zoom-any-js.ts:79-85 | reading back after `reset` gives zoom 100 and position (0, 0), the constructor's values; the gesture state is untouched |
| `View.SetZoom` | src/zoom-any-js.ts:92-103 | `getZoom` after `setZoom(v)` returns `v`; the position and gesture state are untouched |
| `View.SetPos` | src/zoom-any-js.ts:120-135 | `getPos` after `setPos(p)` returns `p`; the zoom and gesture state are untouched |
| `View.ZoomRoundTrip` | src/zoom-any-js.ts:91-102 | `getZoom` reads back what `setZoom` stored, and `setZoom(getZoom())` changes nothing |
| `View.PosRoundTrip` | src/zoom-any-js.ts:120-135 | `getPos` reads back what `setPos` stored, and `setPos(getPos())` changes nothing |
| `View.InteractingUntouched` | src/zoom-any-js.ts:111-113 | `isInteracting` reports the flag; `setZoom`, `setPos` and `reset` leave it as it was |
| `View.InitialState` | src/zoom-any-js.ts:16-29 | a fresh controller has zoom 100, position (0, 0), the flag off, no anchor and an empty cache |
| `Bounds.Center` | src/zoom-any-js.ts:153-161 | `'x'` and `'xy'` put the element's horizontal midpoint on the container's and keep `y`; `'y'` does so vertically and keeps `x`; zoom and gestures are untouched |
| `Bounds.FitToBounds` | src/zoom-any-js.ts:230-271 | no-op without `data-bounds`; otherwise only `x`/`y` change; a non-overflowing axis is centred in the container; an overflowing axis gets its own callback's offset, which reads only that axis |
| `Bounds.FitToBoundsKeepsCoveringAxis` | src/zoom-any-js.ts:253-269 | an overflowing axis whose box already covers the window (or parent) leaves that offset unchanged |
| `Bounds.FitToBoundsCovers` | src/zoom-any-js.ts:253-269 | if the element's box sits where its offset puts it, then after fitting, an overflowing axis leaves no gap at either edge of the window (or parent) |
| `Bounds.ZoomToFit` | src/zoom-any-js.ts:277-290 | no-op without `data-bounds`; only the zoom changes; the result is at most 100; an element with no extent gets 100; a zoom of 0 stays 0, and a non-positive zoom becomes zoom / max(w/cw, h/ch) uncapped; for a positive zoom and a box of non-negative size, scaled by new/old zoom the element fits both axes, and below 100 it exactly fills one axis |
| `Bounds.ScaledFit` | src/zoom-any-js.ts:283-289 | with `zoom' = min(100, zoom / max(w/cw, h/ch))`, `zoom'` is positive and scaling by `zoom'/zoom` fits the element on both axes |
| `Bounds.ScaledFill` | src/zoom-any-js.ts:283-289 | with the same `zoom'`, below 100 scaling by `zoom'/zoom` exactly fills the axis of the larger ratio |
| `Bounds.ZoomToFitScenario` | src/zoom-any-js.ts:277-290 | a 1000 x 750 element at 100 percent in an 800 x 600 container is zoomed to 80 percent |
| `Bounds.ZoomToFitMayZoomIn` | src/zoom-any-js.ts:286-289 | the cap is the constant 100: at 50 percent, an element half the container's size is zoomed in to 100 |
| `Zoom.ZoomAt` | src/zoom-any-js.ts:335-353 | any of the four limit rejections leaves the state unchanged; otherwise the anchor point stays where it was on both axes; the new zoom is the one the limit policy alone determines (`Scale`: kept when rejected, multiplied by the amplitude otherwise), whatever the offsets; gestures are untouched |
| `Zoom.ZoomAtIdentity` | src/zoom-any-js.ts:342-352 | amplitude 1 is never rejected and is the identity on the whole state |
| `Zoom.ZoomAtTopLeftKeepsOffset` | src/zoom-any-js.ts:348-352 | an accepted zoom about the element's top-left corner keeps `x` and `y` and multiplies the zoom |
| `Zoom.ScaleStaysWithinLimits` | src/zoom-any-js.ts:339-352 | under numeric limits, the policy keeps a positive zoom that lies strictly between them, and positive, for any positive amplitude |
| `Zoom.ZoomAtStaysWithinLimits` | src/zoom-any-js.ts:339-352 | with numeric limits, a positive zoom strictly between them stays strictly between them, and positive, after `zoomAt` with any positive amplitude |
| `Zoom.ZoomAndFit` | src/zoom-any-js.ts:379-387 | the zoom follows the limit policy; without bounds it is `zoomAt` exactly (unchanged when rejected, anchor point fixed when accepted); with bounds a non-overflowing axis of the new geometry is centred and an overflowing one gets the fitted offset of the zoomed state |
| `Zoom.ZoomAtInverse` | src/zoom-any-js.ts:348-352 | zooming by `a` and then by `1/a` about the same point, both accepted, restores the state, provided the box moves with the offset in between |
| `Zoom.ZoomAllTracksScale` | src/zoom-any-js.ts:339-352 | the zoom after a sequence of `zoomAt` calls is the level the limit policy tracks from the initial zoom alone, independent of offsets and anchor points |
| `Zoom.ScaleAllCompounds` | src/zoom-any-js.ts:339-352 | along a sequence none of whose requests the limits reject, the tracked level is the one reached by applying every amplitude |
| `Zoom.ZoomAllMultiplies` | src/zoom-any-js.ts:335-352 | after a sequence of zooms none of which the limits reject, the zoom is the initial zoom times the product of the amplitudes |
| `Wheel.Amplitude` | src/zoom-any-js.ts:369-377 | the amplitude is 1.1 below a delta of 1 and 1/1.1 above it; zoom in (amplitude > 1) iff `deltaY < 1`; zoom out (amplitude in (0, 1)) iff `deltaY > 1`; amplitude 0 iff `deltaY == 1`; the out step undoes the in step |
| `Wheel.OnWheel` | src/zoom-any-js.ts:366-388 | the zoom is multiplied by the wheel's amplitude unless the limits reject it; the gesture state is untouched; without bounds a rejected event changes nothing and an accepted one keeps the pointer fixed; with bounds, an axis that does not overflow is centred and an overflowing axis gets the fitted offset of the zoomed state |
| `Wheel.NeutralDeltaRejectedByNumericMin` | src/zoom-any-js.ts:345-388 | with a non-negative numeric minimum (the default 10 included), the `zoomAt` call of `deltaY == 1` is a no-op, and without `data-bounds` so is the whole wheel event |
| `Wheel.NeutralDeltaCollapsesZoom` | src/zoom-any-js.ts:342-377 | with minimum `"fit"` and an overflowing element, or a `NaN` or negative minimum, `deltaY == 1` sets the zoom to 0 |
| `Wheel.CollapsedZoomIsStuck` | src/zoom-any-js.ts:342-388 | once the zoom is 0, every wheel event leaves it 0 |
| `Wheel.CorrectedAmplitude` | src/zoom-any-js.ts:369-377 | the corrected amplitude is always positive, equals the original off `deltaY == 1`, and is 1 at `deltaY == 1` |
| `Wheel.OnWheelCorrected` | src/zoom-any-js.ts:366-388 | with the corrected amplitude, `deltaY == 1` only re-fits the bounds, and every other delta behaves exactly as `#onWheel` |
| `Wheel.CorrectedWheelKeepsZoomPositive` | src/zoom-any-js.ts:366-388 | with the corrected amplitude, a positive zoom stays positive whatever the limits are |
| `Gesture.OnPointerDown` | src/zoom-any-js.ts:398-410 | the pointer is appended to the cache; an existing anchor is kept; without one, the anchor is the current offset and the pointer's screen position; nothing else changes |
| `Gesture.OnPointerUp` | src/zoom-any-js.ts:420-425 | the anchor is cleared; the pointer's first entry is removed, shortening the cache by one if present; the pinch distance becomes -1 below two pointers and is kept otherwise; the interaction flag is left for the timer |
| `Gesture.DebounceElapsed` | src/zoom-any-js.ts:422 | the deferred callback clears the interaction flag and nothing else |
| `Gesture.PointerDownUpRoundTrip` | src/zoom-any-js.ts:398-425 | pressing and releasing a pointer with a fresh id restores the cache, keeps the transform, and leaves no anchor |
| `Gesture.SinglePointerMove` | src/zoom-any-js.ts:463-500 | no-op when not draggable, without an anchor, or with a foreign target; otherwise see the rows below |
| `Gesture.Pinch` | src/zoom-any-js.ts:523-539 | the firing pinch sets the flag and caches `d`; the zoom follows the limit policy for the ratio `d / old`; without bounds a rejected pinch changes nothing else and an accepted one keeps the first pointer's client position fixed; with bounds a non-overflowing axis is centred and an overflowing one gets the fitted offset of the zoomed state |
| `Gesture.DoublePointerMove` | src/zoom-any-js.ts:517-541 | the new distance is always cached; below the gate (no positive cached distance, or a change of at most 1) nothing else changes; above it the flag is set, the zoom follows the limit policy for `d / old`, the first pointer stays fixed without bounds, and with bounds a non-overflowing axis is centred and an overflowing one gets the fitted offset |
| `Gesture.PinchFollowsDistance` | src/zoom-any-js.ts:523-532 | an accepted pinch scales the zoom by exactly new/old distance: `zoom' * old == zoom * d` |
| `Gesture.PinchDirection` | src/zoom-any-js.ts:523-532 | with a positive zoom, an accepted pinch zooms in when the pointers move apart and out when they move together |
| `Gesture.OnPointerMove` | src/zoom-any-js.ts:437-447 | the cache is updated by id; with one pointer only a drag can happen (zoom and pinch distance kept): a drag that does not apply changes nothing else, and one that applies without bounds moves the offset by the pointer's screen delta; with two the pinch caches `d`, changes nothing else below the gate, and above it sets the flag and zooms by `d / old` under the limit policy; with any other count nothing else changes; with one or two pointers the result is exactly that of the drag or pinch handler on the updated cache, so their full contracts apply |
| `Gesture.PressThenDrag` | src/zoom-any-js.ts:398-476 | on an empty pointer cache with no drag in progress, pressing a pointer and moving the same pointer, dragging on and no bounds, moves the element by the pointer's screen displacement and keeps the zoom |
| `Gesture.DragScenario` | src/zoom-any-js.ts:468-476 | a drag from screen (100, 100) to (150, 130), with the anchor offset at the origin and no bounds, moves the element to (50, 30) and sets the flag |

For a drag that proceeds, `Gesture.SinglePointerMove` further states:

- The interaction flag becomes true when the screen delta exceeds 1 on either axis.
- Without bounds, the offset moves by exactly the pointer's screen delta.
- With bounds, a fitting axis keeps its offset.
- With bounds, an overflowing axis gets the point of `[containerSize - size, 0]` nearest to the proposed offset.

## Left out

- DOM access is not modelled: `querySelector`, `getBoundingClientRect`, `offsetParent`, the `classList` and `style` writes in `apply` and `destroy`, and `addListeners`/`removeListeners`. Geometry is an input, and `apply` is the identity on the model state.
- The failing constructor (no element for the selector) and the `window.onload` start-up chain are not modelled. They are lifecycle plumbing around the operations modelled here.
- The 25 ms `setTimeout` that clears the interaction flag is timer concurrency. It is the separate step `Gesture.DebounceElapsed`.
- Floating point is not modelled: IEEE rounding, `Math.sqrt`/`Math.pow` (the pinch distance is an input), and the infinities and `NaN` of a division by zero.
- Bounds.ZoomToFit: requires a container with positive width and height, and a positive zoom when the larger size ratio is 0. A zero container side makes a factor `Infinity` and the zoom 0 (or `NaN` when the element side is 0 too); a zero ratio with a zero or negative zoom gives `NaN` or `-Infinity`. The fit and fill clauses also assume a box of non-negative size, which `getBoundingClientRect` always reports.
- `parseInt`'s text parsing is a function value of the configuration. An absent or empty attribute maps directly to 10 or 4000, which is what `parseInt("10")` and `parseInt("4000")` give.
- In parent mode the source reads `originRect.x` / `originRect.y`. The model reads the container's `left` / `top`, which equal them for a box of non-negative size.
- A missing offset parent in parent mode (a `null` dereference in the source) is not modelled. The snapshot always has a container.
- `event.preventDefault()` calls are not modelled.

## Findings

| source | as written | input that shows it | evidently intended | confidence | as-written member | corrected member |
|---|---|---|---|---|---|---|
| src/zoom-any-js.ts:369-377 | A wheel event with `deltaY == 1` leaves the amplitude at 0. `zoomAt` accepts it whenever the minimum zoom is `"fit"` and the element overflows, or the minimum is not a number or is negative. The zoom becomes 0 and later wheel events keep it at 0 (`Wheel.CollapsedZoomIsStuck`). | `data-min-zoom="fit"`, an element larger than its container, a wheel event with `deltaY = 1` | a delta that selects no direction leaves the zoom alone (amplitude 1), so the zoom stays positive | medium; not executed | `Wheel.NeutralDeltaCollapsesZoom` | `Wheel.CorrectedWheelKeepsZoomPositive` |
