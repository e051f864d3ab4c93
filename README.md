# Flight-trajectory viewer: the data logic, in Dafny

This project models the trajectory-data logic of a browser viewer that draws
flight trajectories as line segments or as moving particles, and lets the
user keep only an altitude band with a two-handle range slider. The model
leaves out the 3D library and the DOM. What remains:

- **Record loading** (`loadTxt`). A bounds pass keeps running min/max values
  of fields 2, 3 and 4 (x, y, z) over every line, the header included. A
  record pass then builds one `Vol` per line after line 0, with raw and
  normalized coordinates. This is `Flights.TrajectoryStore`.
- **Segment index lists**. `buildThreeJsData` builds the id-only list of pairs
  `(i, i + 1)`, and `getVolsMatches` builds the altitude-filtered list. Both
  are in module `Segments`.
- **Per-frame particle update** (`animate`). Each particle snaps to its
  record on a keyframe. Otherwise it interpolates towards the next record of
  the same trajectory, or gets NaN. The result is written in place into the
  point position buffer, and `time` advances. This is `Animation.Animator`.
- **Range slider** (`Rectangle`, `initSlider`, its mouse handlers and
  `redraw`). Handles are dragged, rectangles are clamped to the canvas, and
  the altitude window (0 .. 16500 m) is recomputed. This is module `Slider`.
- **Helpers** `normalize` and `interpolateColor` are in module `Utilities`.

Numbers are modelled as `real`. A JavaScript value that is not a finite
number (NaN, or `undefined` read from a missing field) is `None` of
`Wrappers.Option`. `Number()` is a parameter `toNumber: string -> Option<real>`,
and every dataset line arrives already split into its `;`-separated fields.
The bounds start at the infinities, so they are `Flights.ExtReal` values.

In two places the code behaves differently from what a reader might expect, and the model follows the code:
- at the end of a trajectory, on a non-keyframe, the code writes NaN instead of keeping the previous position (`Animation.TrajectoryEndUndefined`);
- a short or malformed line is not rejected: its missing fields read as NaN.

## Model

| member | source | states |
|---|---|---|
| `Utilities.Normalize` | index.js:118 | `normalize(val, max, min)` is `(val - min) / (max - min)`, defined when `max != min`: `min` maps to 0 and `max` to 1, and for `min < max` the result is non-negative exactly when `val >= min` |
| `Utilities.NormalizeRoundTrip` | index.js:118 | de-normalizing a normalized value gives it back whenever `max != min` |
| `Utilities.DenormalizeRoundTrip` | index.js:118 | normalizing a de-normalized fraction gives the fraction back |
| `Utilities.NormalizeInUnit` | index.js:118 | a value inside `[min, max]` normalizes into `[0, 1]` |
| `Utilities.NormalizeMonotone` | index.js:118 | normalization keeps the order of values |
| `Utilities.InterpolateColor` | index.js:128-134 | the colour is `c1` at 0 and `c2` at 1 |
| `Utilities.InterpolateColorBetween` | index.js:128-134 | for a fraction in `[0, 1]`, each channel lies between the two input channels |
| `Flights.ExtremumBounds` | index.js:360-370 | after the bounds pass, every numeric field value lies on the right side of its bound, so `minX <= x <= maxX` |
| `Flights.ExtremumAttained` | index.js:352-370 | a bound stays at its starting infinity exactly when its column holds no number; otherwise it equals a number of the column, so a NaN never becomes a bound |
| `Flights.ScanBoundsConsistent` | index.js:352-370 | on each axis both bounds are finite with `min <= max`, or both are still infinite |
| `Flights.ColumnNormalized` | index.js:375-377 | a numeric field has a normalized value exactly when `min < max`; that value lies in `[-0.5, 0.5]` and maps back to the raw value |
| `Flights.LoadedRecordsNormalized` | index.js:373-391 | there is one record per line after line 0; record `k` has the raw x/y/z of line `k + 1`, within bounds, with normalized coordinates in `[-0.5, 0.5]` when `min < max` |
| `Flights.TrajectoryStore.constructor` | index.js:24 | `vols` starts empty |
| `Flights.TrajectoryStore.LoadTxt` | index.js:346-395 | the six bounds equal the bounds pass over all lines, and `vols` gets the records of the lines after line 0 appended in order |
| `Flights.TrajectoryStore.BoundsPass` | index.js:352-370 | the running `x < min ? x : min` / `x > max ? x : max` loop leaves the bounds of the whole column, and `vols` is untouched |
| `Flights.TrajectoryStore.RecordPass` | index.js:373-392 | line 0 is skipped and each other line appends its record, built with the current bounds |
| `Segments.FlattenPairs` | index.js:160 | the pushed list has even length and holds `(i, i + 1)` at positions `2k, 2k + 1` |
| `Segments.SegmentStartsExact` | index.js:563-569 | the id-only starts are strictly increasing, lie below `vols.length - 1`, and contain `i` iff records `i` and `i + 1` share a trajectory id |
| `Segments.MatchStartsExact` | index.js:156-162 | the filtered starts are strictly increasing, lie below `vols.length - 1`, and contain `i` iff the ids match and both normalized altitudes lie in the band |
| `Segments.MatchesCharacterized` | index.js:152-166 | `getVolsMatches` returns an even-length list of pairs `(i, i + 1)` with `i + 1 < vols.length`, increasing in `i`, holding exactly the pairs with equal ids and both altitudes in `[a1/16500 - 0.5, a2/16500 - 0.5]` |
| `Segments.MatchesWithinSegments` | index.js:159-160 | the altitude-filtered starts are a subsequence of the id-only starts |
| `Segments.GetVolsMatches` | index.js:152-166 | the loop returns the flattened filtered pairs |
| `Segments.BuildLineData` | index.js:563-574 | the loop returns the flattened id-only pairs, and the normalized positions of all records but the last |
| `Segments.LastSegmentVertexMissing` | index.js:563-571 | when the last two records share a trajectory, index `vols.length - 1` is emitted, but the position buffer holds only `vols.length - 1` vertices |
| `Segments.SegmentsWithinVertices` | index.js:614-620 | with one vertex per record, every index of both lists names an existing vertex |
| `Animation.Animator.constructor` | index.js:611-623 | given bounds the bounds pass can leave (each axis finite and ordered, or still infinite), the point buffer holds the normalized position of every record, 3 entries each; `time` is 0 and lines are shown |
| `Animation.Animator.Animate` | index.js:286-335 | while particles are shown, entries `3i .. 3i+2` for `i < vols.length - 6` get the frame position and all other entries keep their value; then `time` goes up by exactly 1. Otherwise nothing changes |
| `Animation.RawPosition` | index.js:301-313 | on a keyframe the particle takes its record's own coordinates; off a keyframe, when the next record is on the same trajectory, each coordinate is a number between the two records' coordinates whenever both are numbers; otherwise all three are NaN |
| `Animation.FramePoint` | index.js:315-317 | each written coordinate is the raw one re-normalized with the global bounds and shifted by -0.5: it is a number exactly when the raw coordinate is a number and the bounds are finite and distinct, and mapping it back gives the raw coordinate |
| `Animation.LerpOnSegment` | index.js:307-311 | the interpolated position is the mix of the two records by `(time % 100) / 100`, lies between them, and is the first record when `time % 100 == 0` |
| `Animation.KeyframePeriod` | index.js:301 | a keyframe recurs 100 frames later and at no frame in between |
| `Animation.TrajectoryEndUndefined` | index.js:306-317 | at a trajectory's end, off a keyframe, all three coordinates written are NaN |
| `Animation.KeyframeAtLoadedPosition` | index.js:301-304 | on a keyframe, a loaded record's particle sits exactly at the record's load-time normalized position |
| `Animation.FrameWithinHalf` | index.js:301-317 | when records lie within the bounds, every numeric coordinate a frame writes lies in `[-0.5, 0.5]` |
| `Animation.LoadedRecordsInBounds` | index.js:352-391 | the records `loadTxt` builds lie within the bounds it computes |
| `Slider.Contains` | index.js:103-105 | the strict containment test of `isIn` (`Rectangle.IsIn` applies it to the rectangle's fields): a point inside means positive width and height, and no point on the border is inside |
| `Slider.ClampToCanvas` | index.js:89-95 | after `draw`, `x >= 0`, and the width never grows; if `x` was non-negative, `x + width <= canvas.width` and a rectangle already inside is unchanged; if `x` was negative, the right edge lands at `min(width, canvas.width - x)` |
| `Slider.ClampSettlesAfterTwoDraws` | index.js:89-95 | one `draw` may leave a rectangle past the right edge; a second brings it inside, and later draws change nothing |
| `Slider.InsideDrawnIsOnCanvas` | index.js:103-105 | a point strictly inside a drawn rectangle that started at `x >= 0` lies strictly inside the canvas horizontally |
| `Slider.Rectangle.constructor` | index.js:80-87 | the fields take the given values |
| `Slider.Rectangle.Draw` | index.js:89-100 | `x` and `width` become the clamped pair; `y` and `height` are kept |
| `Slider.DragTo` | index.js:496-506 | a dragged handle ends at the pointer or at 180; a handle that started right of -1 ends below 181 and follows the pointer whenever the pointer is below 181; a handle at or left of -1 follows the pointer unconditionally, because the `else x = 0` branch is overridden by the second test |
| `Slider.DragHandle` | index.js:496-506 | the two tests of the handler move the handle to `DragTo` and change nothing else |
| `Slider.AltitudeWindow` | index.js:510-511 | `minValue >= 0` and `maxValue <= 16500` for every input. On the canvas they are the rectangle's left end and the far handle's right edge, scaled to 0 .. 16500. A negative left end gives 0, and a right edge past the canvas gives 16500 |
| `Slider.RedrawnWindowOrdered` | index.js:508-511 | after `redraw`, `minValue <= maxValue` when the range's left end is on the canvas |
| `Slider.RangeSlider.constructor` | index.js:412-434 | on any canvas of positive width, after the three `draw` calls: the left handle sits at `x = 0` with width `min(20, canvas.width)`; the right handle sits at `max(0, canvas.width - 20)` with width 20; both handles have `y = canvas.height / 2 - 10` and height 20; the range rectangle has `x = 0`, width `canvas.width - 20`, `y = 2` and height `canvas.height - 4`; the window is 0 .. 16500; the line list is the id-only list |
| `Slider.RangeSlider.Redraw` | index.js:527-538 | the range rectangle gets `x = min(P1.x, P2.x)` and `width = |P1.x - P2.x|`, then all three rectangles are clamped by `draw` |
| `Slider.RangeSlider.MouseDown` | index.js:459-472 | the first handle under the pointer is gripped and `isClicked` set; a press elsewhere drops the grip and leaves `isClicked` |
| `Slider.RangeSlider.BodyMouseUp` | index.js:454-456 | `isClicked` becomes false |
| `Slider.RangeSlider.CanvasMouseUp` | index.js:475-478 | `isClicked` becomes false; the rectangles get the `redraw` positions and widths and keep their `y` and `height`; the window and line list stay |
| `Slider.RangeSlider.SetInCanvas` | index.js:481-488 | `inCanvas` follows `mouseenter` / `mouseleave` |
| `Slider.RangeSlider.UpdateWindow` | index.js:510-516 | the window is computed from the drawn rectangles, and the line list becomes `getVolsMatches` of that window |
| `Slider.RangeSlider.MouseMove` | index.js:491-518 | while a handle is held and the pointer is over the canvas's extent, the handle moves to `DragTo`, everything is redrawn and the window and line list are recomputed, with `minValue <= maxValue` on a canvas of width at least 181; otherwise nothing moves |

## Left out

- The 3D library: scene, camera, renderer, materials, `BufferGeometry` and its attribute objects, `setIndex` and the `needsUpdate` flags. These are calls into code that is not part of this model. The index list handed to the line geometry is the field `RangeSlider.lineIndices`.
- Colour buffers: the `interpolateColor` / `normalize(…, 255, 0)` colours pushed per vertex. They are cosmetic output for the renderer. `interpolateColor` itself is modelled.
- DOM wiring: wheel zoom, camera pan and its `normalize(x, 0, innerWidth)`, the direct-manipulation button, the radio buttons that set `particlesSelected`, window resize, `requestAnimationFrame`, `innerHTML` texts, canvas painting and colours. These are UI and I/O.
- `degToRad` and the two rotation sliders. They depend on `Math.PI` and only set rotation fields of library objects.
- Floating point: values are exact reals. Float32 rounding of the buffers is not modelled. NaN and the infinities become `None`; a field whose text would parse to `Infinity` is assumed to read as NaN.
- String parsing: `Number()` is the parameter `toNumber`, and splitting the text into lines and fields happens before the model.
- The unused globals `cpt`, `n` and `globalPositions`.
- `Slider.AltitudeWindow`: requires a positive canvas width. With width 0 the code divides by zero.
- `Slider.RangeSlider.MouseMove`: with no handle gripped, the code throws a `TypeError` on `currentDot[0]`. The model treats this as "nothing changes", which is what happens before the throw.

## Findings

| source | as written | input that shows it | evidently intended | confidence | as-written member | corrected member |
|---|---|---|---|---|---|---|
| index.js:563-579 | The line loop pushes positions only for `i < vols.length - 1`. It still emits index `vols.length - 1` when the last two records share a trajectory, so the index names a vertex missing from the position buffer. | two records with the same `id1`: indices `[0, 1]`, but the position buffer has 1 vertex | one vertex per record, as the point geometry has, so every index names a vertex | medium, not executed | `Segments.LastSegmentVertexMissing` | `Segments.SegmentsWithinVertices` |
