# Futsal pitch configuration, modelled in Dafny

This project models `FutsalPitchConfiguration`, the class that describes a
futsal court for drawing. Its measurements are in centimetres. It exposes a
table of six landmarks and the edges between them. It maps a point to pixels
with an affine projection (`scale` pixels per centimetre, then an `offset`)
whose result Python's `int()` truncates toward zero. Its `draw_extras` pass
issues, in a fixed order, the shapes drawn on top of the line-work:

1. the centre circle;
2. for each penalty spot, a filled marker and a half-circle arc whose start
   and end angles are swapped between the two halves of the pitch;
3. the two goal-mouth verticals.

Files:

- `pyint.dfy`, module `PyInt`: `Trunc`, Python's `int()` on a real, with its
  defining bounds, uniqueness and monotonicity.
- `futsal.dfy`, module `Futsal`: the configuration as a datatype with its
  defaults, `Vertices`, `Px`, the draw-command vocabulary `DrawOp`, the
  functions that specify what the extra pass emits (`Extras` and its parts),
  and the imperative `DrawExtras` method. `DrawExtras` runs the two loops of
  the source and is proved to append exactly `Extras(c)` to the image's
  command log.
- `futsal_properties.dfy`, module `FutsalProperties`: lemmas about the
  landmark table, the projection and the emitted commands, and the default
  scenario worked out to the pixel.

Modelling decisions:

- The configuration is a datatype. None of its methods assigns a field.
- Drawing calls are recorded, not executed. `Circle`, `Ellipse` and `Line`
  carry the arguments that `cv2.circle`, `cv2.ellipse` and `cv2.line` receive.
  The colour argument is always white and is not carried. A thickness of `-1`
  (`Filled`) marks the filled spot marker.
- `scale` and every division are exact reals. `length / 2`, `width / 2` and
  `goal_width / 2` are true division, as in Python 3.
- `Trunc(r)` is `floor(r)` for `r >= 0` and `-floor(-r)` below zero, which is
  what `int()` does to a float.
- `_px` truncates toward zero with `int()`; it does not round.
- The class validates nothing: no measurement and no scale is checked, so the
  model has no error paths. Where a property needs `scale > 0` or
  `penalty_spot_distance < length / 2`, the lemma requires it.
- `vertices` has six entries: the four corners and the two ends of the centre
  line. The centre and the penalty spots are not landmarks.

## Model

| member | source | states |
|---|---|---|
| PyInt.TruncBounds | sports/configs/Futsal.py:38-39 | `int()` of a real lies between zero and the value, less than one away: at or below it when non-negative, at or above it when negative |
| PyInt.TruncUnique | sports/configs/Futsal.py:38-39 | those bounds determine the truncated integer uniquely |
| PyInt.TruncMonotone | sports/configs/Futsal.py:38-39 | truncation preserves order |
| PyInt.TruncOfWhole | sports/configs/Futsal.py:38-39 | a whole number is unchanged by `int()` (used when the default projection lands on whole pixels) |
| PyInt.TruncOdd | sports/configs/Futsal.py:38-39 | truncation toward zero commutes with negation |
| Futsal.PenaltyPass | sports/configs/Futsal.py:50-58 | the penalty loop emits two commands per visited position |
| Futsal.GoalPass | sports/configs/Futsal.py:62-67 | the goal loop emits one line per visited position |
| Futsal.DrawExtras | sports/configs/Futsal.py:42-68 | the pass returns the incoming command log with exactly the extra commands appended, in order |
| FutsalProperties.VerticesLayout | sports/configs/Futsal.py:22-27 | six landmarks: the corners (0,0), (0,width), (length,width), (length,0), then the midpoints of the bottom and top sides at x = length/2 |
| FutsalProperties.DefaultEdgesValid | sports/configs/Futsal.py:29-31 | every default edge indexes the six landmarks; the first four form the closed cycle 0-1-2-3-0 over all four corners; the fifth joins the two centre-line ends |
| FutsalProperties.DefaultTablesParallel | sports/configs/Futsal.py:33-34 | the default labels and colours have one entry per landmark (six), empty and white |
| FutsalProperties.PxTruncatesAffine | sports/configs/Futsal.py:37-39 | each pixel coordinate is `trunc(coord * scale + offset)` of the same axis, lying between zero and the exact value and less than one pixel from it |
| FutsalProperties.PxAxisIndependent | sports/configs/Futsal.py:37-39 | the pixel x depends only on the point's x, the pixel y only on its y |
| FutsalProperties.PxMonotoneX | sports/configs/Futsal.py:38-38 | with a positive scale, projection preserves order along x |
| FutsalProperties.PxMonotoneY | sports/configs/Futsal.py:39-39 | with a positive scale, projection preserves order along y |
| FutsalProperties.CornersAligned | sports/configs/Futsal.py:24-27 | the projected corners line up: lb.x = lt.x, rt.x = rb.x, lb.y = rb.y, lt.y = rt.y |
| FutsalProperties.PenaltyPassAt | sports/configs/Futsal.py:50-58 | the penalty loop emits, for its k-th position, the marker at index 2k and the arc at 2k+1 |
| FutsalProperties.GoalPassAt | sports/configs/Futsal.py:62-67 | the goal loop emits the line for its k-th position at index k |
| FutsalProperties.ExtrasCircle | sports/configs/Futsal.py:44-48 | the extra pass has seven commands, and the first is the centre circle |
| FutsalProperties.ExtrasPenalty | sports/configs/Futsal.py:50-59 | commands 1-2 belong to the left penalty spot and 3-4 to the right one |
| FutsalProperties.ExtrasGoal | sports/configs/Futsal.py:61-67 | commands 5 and 6 are the left and the right goal mouth |
| FutsalProperties.ExtrasOrder | sports/configs/Futsal.py:42-67 | seven commands in a fixed order: circle outline, (filled spot, arc) twice, two lines |
| FutsalProperties.CentreCircleDrawn | sports/configs/Futsal.py:44-48 | the centre circle is centred at the projected (length/2, width/2); its radius is the scaled centre-circle radius |
| FutsalProperties.ScaledRadiusMeaning | sports/configs/Futsal.py:46-46 | a scaled radius is `trunc(measure * scale)`: it does not change with the offset, and for non-negative inputs it is the largest whole pixel count not above the exact value |
| FutsalProperties.ArcAxes | sports/configs/Futsal.py:55-58 | both axes of each penalty arc are the scaled arc radius |
| FutsalProperties.RadiiIgnoreOffset | sports/configs/Futsal.py:44-58 | changing the offset leaves the centre-circle radius and both arcs' axes unchanged |
| FutsalProperties.PenaltyFeatures | sports/configs/Futsal.py:50-59 | the loop visits x = penalty_spot_distance, then length - penalty_spot_distance, at y = width/2; each spot gets a filled radius-4 marker, then an arc about the same projected centre with sweep (270,90) if x < length/2 and (90,270) otherwise |
| FutsalProperties.ArcOrientation | sports/configs/Futsal.py:54-54 | the first arc sweeps (270,90) iff penalty_spot_distance < length/2; the second iff penalty_spot_distance > length/2; every sweep is one of the two pairs |
| FutsalProperties.ArcsSwapped | sports/configs/Futsal.py:50-58 | when the spot lies inside its half, the first arc gets (270,90) and the second (90,270) |
| FutsalProperties.SpotsOnMidline | sports/configs/Futsal.py:45-52 | both penalty spots share the pixel row of the centre circle's centre |
| FutsalProperties.GoalMouths | sports/configs/Futsal.py:61-67 | goal lines are drawn at x = 0 and then at x = length, from width/2 - goal_width/2 to width/2 + goal_width/2. At each end both points share the pixel column of that side's projected corners. With a positive scale and a non-negative goal width, the first endpoint's pixel y is at most the second's |
| FutsalProperties.DefaultProjection | sports/configs/Futsal.py:9-18 | with the defaults, (0,0) projects to (50,50) and (4000,2000) to (1050,550) |
| FutsalProperties.DefaultExtras | sports/configs/Futsal.py:9-18 | with the defaults, the extra pass is exactly: circle (550,300) r75; spot (200,300) with arc r150 (270,90); spot (900,300) with arc r150 (90,270); lines (50,262)-(50,337) and (1050,262)-(1050,337), with 262.5 and 337.5 truncated |

## Left out

- Rasterisation by OpenCV (`cv2.circle`, `cv2.ellipse`, `cv2.line`) is a foreign library. The model records the arguments of each call and claims nothing about the pixels painted, including which half-circle a given (start, end) pair paints.
- Futsal.DrawExtras: the image buffer that OpenCV changes in place is modelled as a command log that is passed in and returned (the source's `return img`). Aliasing of the image object is not captured.
- OpenCV's own argument checks are not modelled. A negative radius or negative axes (reached with `scale < 0` or a negative measurement) make `cv2.circle` or `cv2.ellipse` raise part-way through `draw_extras`; `DrawExtras` always logs all seven calls.
- The colour tuples `(255, 255, 255)` are the same on every call and are not carried in `DrawOp`. The thickness 2, the fill flag -1 and the spot radius 4 are carried.
- IEEE-754 rounding of `scale` and of the divisions is not modelled. The arithmetic is exact over reals, and that agrees with floats for the default 0.25.
- `field(default_factory=...)` only supplies fresh default lists. The model gives the defaults as `DefaultEdges`, `DefaultLabels` and `DefaultColors`. A configuration built with other lists carries them as they are.
- Drawing the edges and running the passes in order belong to callers of this class. Those callers are not part of this model.
- Each drawing pass is deterministic: `DrawExtras`'s postcondition fixes its result. No separate lemma says that drawing twice gives identical output.
