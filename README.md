# Circular slider: angle engine and handle selection in Dafny

This project models the core of a circular (radial) slider widget for React.

**The angle/value engine** is the `Geometry` module in `geometry.dfy`:
- `angleToValue` maps an angle in `[startAngle, endAngle]` linearly onto `[minValue, maxValue]`. Angles outside the span are clamped. A span with `endAngle <= startAngle` throws.
- `valueToAngle` is the inverse map, without clamping. It throws for the same bad span.
- `convertAngle` converts a degree between the eight angle conventions. A convention is a direction (`cw`/`ccw`) and the axis the degree is measured from (`+x`, `-x`, `+y`, `-y`). The conversion has three steps:
  1. a direction mirror, `360 - degree`, with 0 kept at 0;
  2. a 180° shift between the two axes of one line;
  3. a 16-entry table that picks a 90° or 270° shift between perpendicular axes.

  The table is encoded literally as `QuarterTurn`. An omitted target convention means counterclockwise from `+x`.

**The widget's decision logic** is the `Slider` module in `slider.dfy`:
- `Select` is the rule of `processSelection`:
  - nothing happens when handle 1 is falsy, i.e. absent or 0;
  - the pointer's angle becomes a value, rounded when `coerceToInt` is set;
  - a disabled widget moves nothing;
  - otherwise the nearer handle takes the value, and ties go to handle 1.
- The class `CircularSlider` holds the two handle values and the set of listeners registered on the drawing surface. Its methods are the gesture handlers:
  - `onMouseDown` and `onTouchStart` register their listeners, then select;
  - `onMouseEnter` starts a gesture only when `buttons == 1`;
  - `removeMouseListeners` unregisters everything a gesture can register.

All numbers are exact reals. The pointer's angle, which the JavaScript `processSelection` computes from the screen position by trigonometry, is an input to the widget's methods.

**Checking `convertAngle` against a geometric reference.** `Reconvert` is an independent definition. It uses where each axis points in a y-up plane, together with the physical angle that a degree denotes. The JavaScript `convertAngle`, as written, agrees with it modulo 360 for every degree (`ConvertAngleCongruent`). On `[0, 360)` it agrees exactly (`ConvertAngleIsReconvert`). The round trip A → B → A follows from that.

**A zero value span.** When `maxValue == minValue`, `valueToAngle` divides by `+0`. JavaScript then yields `NaN` or an infinity. The model keeps these as the `Number` datatype instead of forbidding the input.

**Degrees outside `[0, 360)`.** The code accepts any number as the degree of `convertAngle` (the type comment at src/circularGeometryHelpers.js:36-38 says only `degree: number`), and the model takes any real:
- The same-axis path returns the mirrored degree unreduced (src/circularGeometryHelpers.js:49).
- JavaScript's `%` keeps the sign of the dividend (src/circularGeometryHelpers.js:54). `Rem360` models that.

**Handle 1 at zero.** The read-only test at src/CircularSlider.js:61 treats 0 as falsy, so a selection with handle 1 holding 0 changes nothing (`ZeroHandleIsReadOnly`). Handle 1 can come to hold 0 through a selection: an angle below `startAngle` gives exactly `minValue` (src/circularGeometryHelpers.js:8-9), whose default is 0, and `coerceToInt` can round a small value down to 0. In the JavaScript component, the listeners of the gesture in progress keep seeing the handle value of the render where the gesture started, so the rest of that drag can still move handle 1 off 0; if the drag ends with handle 1 at 0, every later gesture is ignored. The model applies each selection to the current handle values, so in the model the next selection already does nothing.

## Model

| member | source | states |
|---|---|---|
| `Geometry.AngleToValue` | src/circularGeometryHelpers.js:1-18 | Fails with InvalidRange exactly when `endAngle <= startAngle`. Angles at or below the start give `minValue`; angles at or above the end give `maxValue`. In between, the point lies on the line through (start, min) and (end, max). The result always lies between `minValue` and `maxValue`. |
| `Geometry.ValueToAngle` | src/circularGeometryHelpers.js:20-29 | Fails with InvalidRange exactly when `endAngle <= startAngle`. With a non-zero value span the result is finite, lies on the inverse line, and lies within the angle span for values in range. With a zero span the result is NaN at `minValue` and ±Infinity elsewhere. |
| `Geometry.AngleToValueQuarterTurn` | src/circularGeometryHelpers.js:15-17 | 90° over 0..360 onto 0..100 gives 25. |
| `Geometry.AngleToValueMonotone` | src/circularGeometryHelpers.js:8-17 | When the value range ascends, a larger angle never gives a smaller value. |
| `Geometry.AngleValueRoundTrip` | src/circularGeometryHelpers.js:15-28 | For an angle in the span and `maxValue != minValue`, `valueToAngle(angleToValue(a)) == a`. |
| `Geometry.ValueAngleRoundTrip` | src/circularGeometryHelpers.js:15-28 | A value between min and max maps to an angle in the span, and that angle maps back to the value. |
| `Geometry.Rem360` | src/circularGeometryHelpers.js:54 | JavaScript `% 360`: a non-negative dividend gives a result in `[0, 360)`, a negative one a result in `(-360, 0]`. The result is congruent to the dividend modulo 360. |
| `Geometry.QuarterTurn` | src/circularGeometryHelpers.js:57-79 | The 16-entry table: it gives a shift exactly for perpendicular axes, and the shift is 90 or 270. |
| `Geometry.ConvertAngle` | src/circularGeometryHelpers.js:40-80 | Never fails: the `Unhandled conversion` branch is unreachable for every one of the 8×8 convention pairs. |
| `Geometry.ShiftMatchesBearings` | src/circularGeometryHelpers.js:47-79 | The shift after mirroring equals, modulo 360, the difference of the two axes' bearings read in the target direction. The shift is 0 for the same axis, 180 for the opposite axis, and the table's value otherwise. |
| `Geometry.ConvertAngleCongruent` | src/circularGeometryHelpers.js:40-80 | For every degree, the conversion agrees modulo 360 with the geometric reference `Reconvert`. |
| `Geometry.ConvertAngleInRange` | src/circularGeometryHelpers.js:43-79 | A degree in `[0, 360)` converts to a degree in `[0, 360)`. |
| `Geometry.ConvertAngleIsReconvert` | src/circularGeometryHelpers.js:40-80 | On `[0, 360)` the conversion equals the geometric reference exactly. |
| `Geometry.ConvertAngleIdentity` | src/circularGeometryHelpers.js:43-50 | Identical source and target conventions return the degree unchanged. |
| `Geometry.ConvertAngleDefaultTarget` | src/circularGeometryHelpers.js:41 | An omitted target is the `{ccw, +x}` convention. |
| `Geometry.ConvertAngleRoundTrip` | src/circularGeometryHelpers.js:40-80 | For a degree in `[0, 360)`, `convertAngle(convertAngle(d, A, B), B, A) == d` for all 64 convention pairs. |
| `Geometry.Mirror` | src/circularGeometryHelpers.js:43-45 | Same directions keep the degree. Different directions give a degree congruent to `-degree` modulo 360 (`360 - degree`, with 0 kept at 0). A degree in `[0, 360)` stays in `[0, 360)`. |
| `Slider.Round` | src/CircularSlider.js:85-87 | `Math.round`: the integer within half of `x`, with halves rounding up. |
| `Slider.Nearest` | src/CircularSlider.js:90-98 | Handle 2 is chosen only when it is truthy and strictly nearer to the value. Otherwise handle 1 is chosen, and it is at least as near. |
| `Slider.StoredValue` | src/CircularSlider.js:78-87 | With `coerceToInt` the stored value is the integer in `(raw - 0.5, raw + 0.5]`, i.e. `Math.round` with halves rounding up. Without it, the raw value is stored. |
| `Slider.ZeroHandleIsReadOnly` | src/CircularSlider.js:61-64 | With handle 1 holding 0 (falsy under `Truthy`, the JavaScript truthiness also tested at line 91), a selection leaves both handles unchanged and ends normally. |
| `Slider.Select` | src/CircularSlider.js:56-100 | A falsy handle 1 or an unmounted surface changes nothing. An invalid span throws InvalidRange and changes nothing. Disabled changes nothing. Otherwise exactly one handle takes the stored value: handle 2 only when it is truthy and strictly nearer, and the other handle keeps its value. |
| `Slider.UncontrollableIsInert` | src/CircularSlider.js:143 | When `controllable` (`Controllable`: `!disabled && handle1` truthy) is false, no selection moves either handle. |
| `Slider.SelectMovesOneHandleInRange` | src/CircularSlider.js:89-99 | A selection without rounding moves at most one handle, and a moved handle holds a value between min and max. |
| `Slider.GesturesAreReleased` | src/CircularSlider.js:25-54 | The mouse-gesture and touch-gesture listeners together are exactly what the removal unregisters. Each gesture registers a listener that ends it. |
| `Slider.CircularSlider.constructor` | src/CircularSlider.js:15-16 | The handles start as the props' initial values, and no listener is registered. |
| `Slider.CircularSlider.ProcessSelection` | src/CircularSlider.js:56-100 | The new handles and the outcome are exactly `Select` of the old handles. A widget that was not controllable keeps both handles. The listeners are unchanged. |
| `Slider.CircularSlider.OnMouseDown` | src/CircularSlider.js:25-33 | On a mounted surface the listeners gain exactly {mousemove, mouseleave, mouseup}, then a selection is applied. |
| `Slider.CircularSlider.OnTouchStart` | src/CircularSlider.js:35-43 | On a mounted surface the listeners gain exactly {touchmove, mouseleave, touchend}, then a selection is applied. |
| `Slider.CircularSlider.OnMouseEnter` | src/CircularSlider.js:18-23 | With `buttons == 1` it acts exactly as a mouse-down. Otherwise nothing changes. |
| `Slider.CircularSlider.RemoveMouseListeners` | src/CircularSlider.js:45-54 | Leaves no listener registered, whichever gesture registered them. |
| `Slider.CircularSlider.Dispatch` | src/CircularSlider.js:28-30 | An event runs the handler registered for its type. A move event selects; an end or leave event releases every listener. An event with no registered handler changes nothing. |

## Left out

- `angleToPosition` and `positionToAngle` (src/circularGeometryHelpers.js:82-132) are left out. They are floating-point trigonometry (`Math.sin`, `Math.cos`, `Math.atan2`, `Math.PI`) with no exact specification. Both go through `convertAngle` to and from the `{ccw, +x}` convention, which is modelled.
- `semiCircle` (src/circularGeometryHelpers.js:134-145) is left out. It formats an SVG path string from trigonometric positions.
- `arcPathWithRoundedEnds` comes from `./svgPaths`. svgPaths is not part of this model.
- The mapping from screen to surface coordinates is left out (src/CircularSlider.js:70-77): `createSVGPoint`, `getScreenCTM().inverse()`, and the choice between mouse and touch coordinates. This is browser plumbing. It can also throw: `ev.clientX || ev.changedTouches[0].clientX` (src/CircularSlider.js:71-72) raises a TypeError for a mouse event at `clientX` or `clientY` 0, since a mouse event has no `changedTouches`; `Outcome.Threw` covers only the `InvalidRange` throw of `angleToValue`, not this one. The resulting angle is a parameter of the widget's methods.
- Rendering is left out (src/CircularSlider.js:102-291): radii, gradients, filters, the one-handle and two-handle layouts, drawing handle 2, and the click's `stopPropagation`. The condition that decides whether handle 1 is drawn is `Controllable`.
- React's `useState`/`useRef` semantics are left out. The handles are plain fields. A handler registered during one render keeps that render's handle values; the model always uses the current fields. Listener identity per render is collapsed to the handler's role: in the JavaScript component `removeMouseListeners` removes only its own render's closures, so after a mouse-down, a re-render and a touch-start, a mouse-up leaves the touch listeners registered, whereas the model's `RemoveMouseListeners` empties the set.
- Floating-point arithmetic is not modelled: the interpolations are exact over reals. NaN inputs are not modelled either, so `Truthy` treats only absence and 0 as falsy.
- `propTypes`, `defaultProps`, the commented-out `CircularSliderWithChildren` and the webpack configuration are left out. They are declarative configuration with no logic.
