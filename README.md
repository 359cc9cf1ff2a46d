# svg-bot painter, modelled in Dafny

svg-bot draws the paths of an SVG file by driving the mouse pointer. This
project models its core, the path-command interpreter `Painter`
(src/painter.rs), and the two-space point model it draws with
(src/point.rs). The interpreter keeps two pieces of state, the pen position
(`current_point`) and the start of the open subpath (`subpath_initial_point`).
It turns each already-parsed path command into pointer actions. Those actions
are `up`, `down` and `move_to(x, y)` on a device that can fail, and the first
failure ends the command.

The files:

- `point.dfy` (module `Point`) holds the rectangles and the SVG and screen
  points, with `offset` and the two conversions. The lemmas show that the
  conversions are exact inverses of each other, that they form the affine
  map fixed by the two rectangles, and that the SVG rectangle's origin plays
  no part in them.
- `mouse.dfy` (module `Mouse`) is the device. Each attempted action is
  appended, with its success, to a ghost log. `Emitted` says that the log
  grew by running a planned list of actions and stopping at the first failure.
- `commands.dfy`, `wrappers.dfy` and `my_error.dfy` hold the path commands,
  `Option` and the error value with `Result<(), MyError>`.
- `painter_spec.dfy` (module `PainterSpec`) has the painter's behaviour as
  functions of its state:
  - `Planned`: the actions a command issues;
  - `After`: the state once they all succeed;
  - `AfterFailure`: the state once one of them fails.
- `painter.dfy` (module `Painter`) has the `Painter` class. Each method
  follows its Rust counterpart statement by statement. Each is proved to
  emit exactly its plan and to leave exactly the state those functions give.
- `painter_props.dfy` (module `PainterProperties`) proves what these
  functions mean:
  - each point of a line is its pair taken against the point before it;
  - where each command leaves the pen;
  - a cubic is flattened into 11 samples, from the current point to P3;
  - horizontal and vertical lines keep one coordinate fixed;
  - a close draws back to the subpath start and closes the subpath;
  - unsupported commands draw nothing.

## Departures from section 8.3.2 of SVG 1.1

The model follows the code as written, which differs from the moveto rules
of SVG 1.1 (section 8.3.2, "The moveto commands"):

- `perform_move` sets the current point to the move's first pair as it
  stands, even for a relative move (src/painter.rs:93). The subpath start is
  computed relative to the current point (src/painter.rs:81-84). So after a
  relative move of a single pair from a pen away from the origin, the pen
  and the subpath start differ. `PainterProperties.MoveEndAsWritten` states this.
- The trailing pairs of a relative move are therefore offsets from the raw
  first pair, not from the resolved one (`MoveEndAsWritten`, second ensures).
- A cubic uses only its first six parameters (src/painter.rs:145, 155-162).
  SVG 1.1 (section 8.3.6, "The cubic Bezier curve commands") draws each
  further triple of pairs as another curve; here they are dropped
  (`PainterProperties.CubicLine`, second ensures).
- The four commands the painter does not draw (quadratic, smooth quadratic,
  smooth cubic, elliptical arc) still open a subpath at the current point
  (src/painter.rs:51-66; `PainterProperties.UnsupportedIsNoOp`).

## Model

| member | source | states |
|---|---|---|
| Point.SvgPoint.Offset | src/point.rs:41-43 | the offset point keeps both rectangles |
| Point.SvgPoint.ToScreen | src/point.rs:46-53 | the screen point carries both rectangles unchanged |
| Point.ScreenPoint.Offset | src/point.rs:85-87 | the offset point keeps both rectangles |
| Point.ScreenPoint.ToSvg | src/point.rs:55-62 | the SVG point carries both rectangles unchanged |
| Point.ConstructorsKeepArguments | src/point.rs:21-83 | building either kind of point and reading x, y and both rectangles back gives the arguments |
| Point.OffsetMovesBy | src/point.rs:41-43 | offset adds the deltas to x and y, for both point kinds, and two offsets compose into one |
| Point.SvgScreenRoundTrip | src/point.rs:46-62 | svg to screen to svg returns the original point exactly |
| Point.ScreenSvgRoundTrip | src/point.rs:46-62 | screen to svg to screen returns the original point exactly |
| Point.ToScreenMapsCorners | src/point.rs:46-53 | the SVG rectangle's corners (0, 0) and (width, height) land on the screen rectangle's corners |
| Point.ToSvgMapsCorners | src/point.rs:55-62 | the screen rectangle's corners map back to (0, 0) and (width, height) |
| Point.OffsetScalesDelta | src/point.rs:46-53 | converting an offset point equals converting the point and offsetting by the scaled delta, so the conversion is affine |
| Point.SvgOriginIgnored | src/point.rs:49-59 | two SVG rectangles with the same extent but different origins give the same coordinates in both conversions |
| Point.ToScreenInjective | src/point.rs:46-53 | distinct SVG points map to distinct screen points |
| Mouse.Device.Up | src/mouse.rs:48-55 | one release is attempted and logged with whether it succeeded, which the outcome reports |
| Mouse.Device.Down | src/mouse.rs:39-46 | one press is attempted and logged with whether it succeeded, which the outcome reports |
| Mouse.Device.MoveTo | src/mouse.rs:57-68 | one move to (x, y) is attempted and logged with whether it succeeded, which the outcome reports |
| Mouse.Performed | src/painter.rs:118-138 | the events of a run that issues a plan in order and stops at the first failure: all of it successful, or a successful prefix followed by the next planned action, failed |
| Mouse.Emitted | src/painter.rs:118-138 | the log keeps what it held and grows by such a run of the plan |
| Mouse.PerformedShortCircuits | src/painter.rs:118-138 | in a run that stops at the first failure, each attempt is the planned action at its position; success means every attempt succeeded and all were made; in a failed run every attempt but the last succeeded and the last failed |
| Mouse.FailureComesFromDevice | src/painter.rs:136 | a failed run made at least one attempt, and its last attempt failed |
| Mouse.EmittedFirst | src/painter.rs:120 | a run of a non-empty plan attempts its first action first |
| Mouse.EmittedThen | src/painter.rs:91-99 | a successful run of one plan followed by a run of a second is a run of both, with the second's outcome |
| Mouse.EmittedStop | src/painter.rs:91 | a failed run of a prefix of a plan is a failed run of the whole plan |
| PainterSpec.Resolve | src/painter.rs:127-134 | a resolved pair lives in the rectangles of the point it is taken against |
| PainterSpec.LinePoints | src/painter.rs:123-138 | a line visits one point per coordinate pair, and its end is in the start's rectangles |
| PainterSpec.LineActions | src/painter.rs:118-137 | a line issues two actions more than it has points: first a move to the start, then one press |
| PainterSpec.MovePlan | src/painter.rs:89-103 | a move issues a release first, and only the release exactly when it has a single pair |
| PainterSpec.Validated | src/painter.rs:105-109 | validation keeps the current point, always leaves a subpath open, turns an absent start into the current point, and changes nothing when one is already open |
| PainterSpec.CubicCoords | src/painter.rs:147-174 | a cubic hands 22 coordinates, 11 samples, to the line |
| PainterSpec.AxisPoints | src/painter.rs:180-211 | a horizontal or vertical line gives one point per parameter, each in the start's rectangles |
| PainterSpec.AxisCoords | src/painter.rs:180-211 | two coordinates per parameter |
| PainterSpec.EndPoint | src/painter.rs:118-140 | where the running `current_point` of `perform_line` ends: the last point visited, or the start when there is none |
| PainterSpec.MoveAction | src/painter.rs:135-136 | one pointer move to a point, mapped to the screen first (also src/painter.rs:119-120) |
| PainterSpec.Moves | src/painter.rs:135-136 | one move per point, in order, exactly as many as there are points |
| PainterSpec.Flatten | src/painter.rs:170-171 | the paired pushes of x then y for each point (also src/painter.rs:191-192 and 209-210), two coordinates per point |
| PainterSpec.LinePlan | src/painter.rs:111-142 | the actions `perform_line` issues for its coordinates from a start point |
| PainterSpec.LineEnd | src/painter.rs:124-140 | where `perform_line` leaves the current point when every action succeeds: the last point of the line, or the start for no pairs |
| PainterSpec.Bezier | src/painter.rs:168-169 | one coordinate of the cubic Bezier curve at parameter t, the source's weighted sum of the four control values |
| PainterSpec.SampleTime | src/painter.rs:165-172 | the k-th sample's parameter, the loop index 10 k over 100 |
| PainterSpec.Sample | src/painter.rs:166-171 | the k-th sample point, in the start point's rectangles |
| PainterSpec.Samples | src/painter.rs:165-173 | the first n samples in order, exactly n of them |
| PainterSpec.CubicControls | src/painter.rs:153-164 | the three control points from the first six parameters, each pair absolute or added to the starting current point |
| PainterSpec.AxisStep | src/painter.rs:183-208 | one horizontal or vertical parameter against the running point: the moving coordinate is set or moved, the other kept, in the same rectangles |
| PainterSpec.CloseCoords | src/painter.rs:219-223 | the coordinates of a close: the current point, then the subpath start |
| PainterSpec.WellFormed | src/painter.rs:72-145 | the parameter counts the source asserts (src/painter.rs:72, 90, 112-113, 145): a move or a line needs an even count of at least two, a cubic at least six, and a horizontal or vertical line at least one, without which `perform_line`'s assertion fails |
| PainterSpec.MoveRawPoint | src/painter.rs:93 | the first pair of a move, as it stands, in the current point's rectangles |
| PainterSpec.MoveEnd | src/painter.rs:94-102 | where a successful move leaves the pen: the end of the line over the pairs after the first, or the raw first pair when there are none |
| PainterSpec.Planned | src/painter.rs:24-69 | the actions a command issues when every one succeeds, arm by arm of `perform_command`: nothing for the four unsupported commands, a close drawn to the validated subpath start |
| PainterSpec.After | src/painter.rs:24-69 | the state after a command all of whose actions succeeded: a move sets the subpath start it resolves, plain lines keep the validated start, a close clears it, unsupported commands only validate |
| PainterSpec.AfterFailure | src/painter.rs:24-69 | the state the `?` early returns leave: a move has set its subpath start and moved the pen only once its release succeeded; every other command has only validated the subpath start |
| PainterSpec.LinePointsPrefix | src/painter.rs:123-138 | the points over a prefix of the pairs are the same prefix of the line's points |
| PainterSpec.LineStep | src/painter.rs:124-137 | one more pair adds its point, resolved against the running point; that point becomes the end and its move is the next action |
| PainterSpec.LineOpeningEmitted | src/painter.rs:118-121 | a failure of the opening move or the press is a failed run of the whole line; two successes are the run over no pairs yet |
| PainterSpec.LinePairEmitted | src/painter.rs:135-137 | on success of a pair's move the log is the successful run over one more pair; on failure it is a failed run of the whole line |
| PainterSpec.AxisCoordsStep | src/painter.rs:182-211 | one more parameter appends the coordinates of the point it gives against the running point, which becomes the end |
| PainterProperties.LinePointAt | src/painter.rs:124-134 | the i-th point of a line is the i-th pair resolved against the point before it |
| PainterProperties.LinePointsResolve | src/painter.rs:124-134 | every point of a line is its pair resolved against the previous point, or the start for the first: relative pairs accumulate, absolute pairs replace |
| PainterProperties.LinePlanShape | src/painter.rs:118-137 | a line issues one move to the start, exactly one press, then only moves, one per pair, each to that pair's point |
| PainterProperties.LineEndPoint | src/painter.rs:124-140 | an absolute line ends at its last pair; a relative one ends at the start moved by the sums of its x and y parameters |
| PainterProperties.FlattenThenLine | src/painter.rs:170-176 | drawing the flattened coordinates of points as an absolute line visits exactly those points |
| PainterProperties.CubicLine | src/painter.rs:144-177 | a cubic draws exactly its 11 samples; the first is the old current point and the last is P3, where the pen ends; only the first six parameters matter |
| PainterProperties.AxisLine | src/painter.rs:179-213 | the untouched coordinate stays fixed at every point; the last moving coordinate is the last parameter if absolute, or the old value plus the sum of the parameters if relative |
| PainterProperties.AxisDrawn | src/painter.rs:191-212 | a horizontal or vertical line is drawn through exactly its points and leaves the pen at the last one |
| PainterProperties.CloseCommand | src/painter.rs:215-227 | a close, after validation, moves to the current point, presses, moves to it again and then to the subpath start; on success the pen is at the old start with no subpath open; on failure the start is kept |
| PainterProperties.ClosePoints | src/painter.rs:219-224 | the line of a close visits the current point and then the subpath start |
| PainterProperties.ReachesDevice | src/painter.rs:24-50 | every drawing command reaches the device: its first logged action is its first planned one, so a close through `perform_command` never fails for want of a subpath start |
| PainterProperties.UnsupportedIsNoOp | src/painter.rs:51-66 | the unsupported commands issue nothing and keep the pen; they open a subpath at the pen only if none is open |
| PainterProperties.MoveCommand | src/painter.rs:71-103 | a move releases first, and issues only that with a single pair; its subpath start is the first pair against the old pen whether or not the device fails; the pen changes only once the release has succeeded |
| PainterProperties.MoveEndAsWritten | src/painter.rs:89-103 | a move leaves the pen at its raw first pair, or at the end of the line from it; relative trailing pairs are offsets from that raw pair |
| Painter.Painter.constructor | src/painter.rs:15-22 | a fresh painter has its pen at SVG (0, 0) in its two rectangles and no open subpath |
| Painter.Painter.PerformCommand | src/painter.rs:24-69 | the device log grows by exactly the command's plan, stopping at the first failure; on success the state is `After`, on failure `AfterFailure` of how many actions were attempted |
| Painter.Painter.ResetSubpathInitialPointByMoveCommand | src/painter.rs:71-87 | the subpath start becomes the first pair (absolute) or the pen moved by it (relative); the pen is unchanged |
| Painter.Painter.PerformMove | src/painter.rs:89-103 | it emits the move's plan; the pen is unchanged if the release fails, at the raw first pair if a later action fails, and at the move's end on success |
| Painter.Painter.ValidateSubpathInitialPoint | src/painter.rs:105-109 | the state becomes the validated state: an absent subpath start becomes the pen |
| Painter.Painter.PerformLine | src/painter.rs:111-142 | it emits exactly the line's plan up to the first failure; the pen moves to the line's end on success and is unchanged on failure; the subpath start is unchanged |
| Painter.Painter.MovePairs | src/painter.rs:123-138 | the loop completes the line's plan after the opening, stopping at the first failure, and on success returns the line's end |
| Painter.Painter.MovePair | src/painter.rs:125-136 | one iteration resolves the next pair against the running point and moves there; on failure the run of the whole line has failed |
| Painter.Painter.ResolvePair | src/painter.rs:127-134 | a relative pair moves the running point and an absolute pair replaces it, in the painter's rectangles |
| Painter.Painter.PerformCubicCurve | src/painter.rs:144-177 | it emits the plan of the absolute line through the samples; the pen ends at that line's end on success and is unchanged on failure |
| Painter.Painter.CubicLineCoords | src/painter.rs:147-174 | the coordinates built are those of the 11 samples at t = 0, 0.1, ..., 1 of the curve from the pen |
| Painter.Painter.PerformHorizontalLine | src/painter.rs:179-195 | it emits the plan of the absolute line through the horizontal points; the pen ends at its end on success and is unchanged on failure |
| Painter.Painter.HorizontalLineCoords | src/painter.rs:180-193 | the coordinates built are those of the horizontal line's points from the pen |
| Painter.Painter.PerformVerticalLine | src/painter.rs:197-213 | it emits the plan of the absolute line through the vertical points; the pen ends at its end on success and is unchanged on failure |
| Painter.Painter.VerticalLineCoords | src/painter.rs:198-211 | the coordinates built are those of the vertical line's points from the pen |
| Painter.Painter.PerformClose | src/painter.rs:215-227 | with no subpath open it returns the error and touches nothing; otherwise it emits the line to the subpath start and, only on success, moves the pen there and closes the subpath |

## Left out

- Coordinates are reals, so `f32` rounding is not modelled. The round trips of src/point.rs are exact here, where the source's tests only check them approximately.
- Rectangles with a zero width or height are excluded by the type `Area`, because the conversions divide by the extents. The source would produce infinities or NaN.
- src/rect.rs is not part of this model. `Rect` is a datatype of four reals, with its accessors and equality taken from the datatype.
- src/mouse.rs runs `xdotool` processes. The device is abstract: whether an action succeeds is left open. A failure carries the source's message for a process that finished with failure; a process that cannot be started at all, where `status()?` (src/mouse.rs:40, 49, 62) returns the formatted io error of src/my_error.rs:14-18, is not modelled. `coords` (src/mouse.rs:6-37) is not used by the painter and is left out. `Mouse.Device.MoveTo` does not model how the coordinates are formatted as text for `xdotool`.
- src/main.rs is left out: argument handling, calibration, reading the SVG file, parsing the `d` attribute and the viewBox. The commands arrive already parsed.
- `print_params` and its logging (src/painter.rs:230-235) are left out, because they are console output only.
- The `From` conversions of src/my_error.rs are left out. `MyError` is a plain message.
- The source's `assert!`s and `unwrap`s would panic. They become preconditions: a move or a line needs an even count of at least two, a cubic at least six, and a horizontal or vertical line at least one parameter. With none, the source's `perform_line` assertion fails. The command-level form of these preconditions is `PainterSpec.WellFormed`.
- The loop of `perform_line` and the coordinate loops of `perform_cubic_curve`, `perform_horizontal_line` and `perform_vertical_line` are methods of their own (`MovePairs` with `MovePair` and `ResolvePair`, and the `*LineCoords` methods). They are called exactly where the loops stand.
- The cloned `Vec`s and the two `remove(0)` calls of `perform_move` are sequence values and slices.
