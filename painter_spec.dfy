/** What the painter (src/painter.rs) does, as functions of its state: the
    pointer actions a command issues when every one succeeds, and the state
    it leaves behind on success and on failure. The class in painter.dfy is
    proved against these functions; the lemmas here state what they mean. */
module PainterSpec {
  import opened Wrappers
  import opened Point
  import opened Commands
  import opened Mouse

  /** The painter's two pieces of mutable state: the pen position and the
      start of the open subpath, if any. */
  datatype PenState = PenState(currentPoint: SvgPoint, subpathInitialPoint: Option<SvgPoint>)

  predicate SameAreas(p: SvgPoint, q: SvgPoint)
  {
    p.svgArea == q.svgArea && p.screenArea == q.screenArea
  }

  /** A coordinate pair taken against `base`: the pair itself (absolute) or
      `base` moved by it (relative). */
  function Resolve(pos: Position, base: SvgPoint, x: real, y: real): (p: SvgPoint)
    ensures SameAreas(p, base)
  {
    match pos
    case Absolute => SvgPoint(x, y, base.svgArea, base.screenArea)
    case Relative => base.Offset(x, y)
  }

  /** The last point of a polyline that starts at `start`. */
  function EndPoint(start: SvgPoint, pts: seq<SvgPoint>): SvgPoint
  {
    if pts == [] then start else pts[|pts| - 1]
  }

  /** The points a line command visits after `start`: each coordinate pair
      resolved against the point before it. */
  function LinePoints(pos: Position, start: SvgPoint, params: seq<real>): (pts: seq<SvgPoint>)
    requires |params| % 2 == 0
    ensures |pts| == |params| / 2
    ensures SameAreas(EndPoint(start, pts), start)
    decreases |params|
  {
    if params == [] then []
    else
      var init := LinePoints(pos, start, params[..|params| - 2]);
      init + [Resolve(pos, EndPoint(start, init), params[|params| - 2], params[|params| - 1])]
  }

  /** Moving the pointer to a point, mapped to the screen. */
  function MoveAction(p: SvgPoint): Action
  {
    var s := p.ToScreen();
    MoveTo(s.x, s.y)
  }

  /** One move per point, in order. */
  function Moves(pts: seq<SvgPoint>): (acts: seq<Action>)
    ensures |acts| == |pts|
  {
    seq(|pts|, i requires 0 <= i < |pts| => MoveAction(pts[i]))
  }

  /** What `perform_line` issues: a move to the start, a press, then a move
      to every point. */
  function LineActions(start: SvgPoint, pts: seq<SvgPoint>): (acts: seq<Action>)
    ensures |acts| == 2 + |pts| && acts[0] == MoveAction(start) && acts[1] == Down
  {
    [MoveAction(start), Down] + Moves(pts)
  }

  /** What `perform_line` issues for the coordinates `params` from `start`. */
  function LinePlan(pos: Position, start: SvgPoint, params: seq<real>): seq<Action>
    requires |params| % 2 == 0
  {
    LineActions(start, LinePoints(pos, start, params))
  }

  /** Where `perform_line` leaves the current point when it succeeds. */
  function LineEnd(pos: Position, start: SvgPoint, params: seq<real>): SvgPoint
    requires |params| % 2 == 0
  {
    EndPoint(start, LinePoints(pos, start, params))
  }

  /** The coordinates of `pts`, flattened into x, y, x, y, ... */
  function Flatten(pts: seq<SvgPoint>): (coords: seq<real>)
    ensures |coords| == 2 * |pts|
    ensures |coords| % 2 == 0
  {
    if pts == [] then [] else Flatten(pts[..|pts| - 1]) + [pts[|pts| - 1].x, pts[|pts| - 1].y]
  }

  /** One coordinate of the cubic Bezier curve with control values a, b, c, d
      at parameter t. */
  function Bezier(a: real, b: real, c: real, d: real, t: real): real
  {
    (1.0 - t) * (1.0 - t) * (1.0 - t) * a + 3.0 * (1.0 - t) * (1.0 - t) * t * b
      + 3.0 * (1.0 - t) * t * t * c + t * t * t * d
  }

  /** The curve parameter of the k-th sample: the loop index 10 k over 100. */
  function SampleTime(k: nat): real
  {
    (10 * k) as real / 100.0
  }

  /** The number of samples: loop indices 0, 10, ..., 100. */
  const SampleCount: nat := 11

  /** The k-th sample of the curve from p0 through p1, p2 to p3. */
  function Sample(p0: SvgPoint, p1: SvgPoint, p2: SvgPoint, p3: SvgPoint, k: nat): (p: SvgPoint)
    ensures SameAreas(p, p0)
  {
    SvgPoint(Bezier(p0.x, p1.x, p2.x, p3.x, SampleTime(k)),
             Bezier(p0.y, p1.y, p2.y, p3.y, SampleTime(k)),
             p0.svgArea, p0.screenArea)
  }

  /** The first n samples of the curve, in order. */
  function Samples(p0: SvgPoint, p1: SvgPoint, p2: SvgPoint, p3: SvgPoint, n: nat): (pts: seq<SvgPoint>)
    ensures |pts| == n
  {
    seq(n, k requires 0 <= k < n => Sample(p0, p1, p2, p3, k))
  }

  /** The control points and end point of a cubic command from `p0`: the
      first six parameters, each pair taken against `p0`. */
  function CubicControls(pos: Position, p0: SvgPoint, params: seq<real>): (c: (SvgPoint, SvgPoint, SvgPoint))
    requires |params| >= 6
  {
    (Resolve(pos, p0, params[0], params[1]),
     Resolve(pos, p0, params[2], params[3]),
     Resolve(pos, p0, params[4], params[5]))
  }

  /** The coordinates `perform_cubic_curve` hands to `perform_line`. */
  function CubicCoords(pos: Position, p0: SvgPoint, params: seq<real>): (coords: seq<real>)
    requires |params| >= 6
    ensures |coords| == 2 * SampleCount
  {
    var (p1, p2, p3) := CubicControls(pos, p0, params);
    Flatten(Samples(p0, p1, p2, p3, SampleCount))
  }

  datatype Axis = Horizontal | Vertical

  /** One parameter of a horizontal or vertical line taken against `prev`:
      the moving coordinate becomes the parameter (absolute) or moves by it
      (relative); the other coordinate stays. */
  function AxisStep(axis: Axis, pos: Position, prev: SvgPoint, v: real): (p: SvgPoint)
    ensures SameAreas(p, prev)
  {
    match (axis, pos)
    case (Horizontal, Relative) => prev.Offset(v, 0.0)
    case (Horizontal, Absolute) => SvgPoint(v, prev.y, prev.svgArea, prev.screenArea)
    case (Vertical, Relative) => prev.Offset(0.0, v)
    case (Vertical, Absolute) => SvgPoint(prev.x, v, prev.svgArea, prev.screenArea)
  }

  /** The points a horizontal or vertical line command produces. */
  function AxisPoints(axis: Axis, pos: Position, start: SvgPoint, params: seq<real>): (pts: seq<SvgPoint>)
    ensures |pts| == |params|
    ensures forall i :: 0 <= i < |pts| ==> SameAreas(pts[i], start)
  {
    if params == [] then []
    else
      var init := AxisPoints(axis, pos, start, params[..|params| - 1]);
      init + [AxisStep(axis, pos, EndPoint(start, init), params[|params| - 1])]
  }

  /** The coordinates `perform_close` hands to `perform_line`. */
  function CloseCoords(current: SvgPoint, initial: SvgPoint): seq<real>
  {
    [current.x, current.y, initial.x, initial.y]
  }

  /** `validate_subpath_initial_point`: an absent subpath start becomes the
      current point. */
  function Validated(st: PenState): (v: PenState)
    ensures v.currentPoint == st.currentPoint && v.subpathInitialPoint.Some?
    ensures st.subpathInitialPoint.Some? ==> v == st
    ensures st.subpathInitialPoint.None? ==> v.subpathInitialPoint == Some(st.currentPoint)
  {
    if st.subpathInitialPoint.None? then PenState(st.currentPoint, Some(st.currentPoint)) else st
  }

  /** The parameter counts the source asserts before it draws. */
  predicate WellFormed(c: Command)
  {
    match c
    case Move(_, ps) => |ps| >= 2 && |ps| % 2 == 0
    case Line(_, ps) => |ps| >= 2 && |ps| % 2 == 0
    case CubicCurve(_, ps) => |ps| >= 6
    case HorizontalLine(_, ps) => |ps| >= 1
    case VerticalLine(_, ps) => |ps| >= 1
    case _ => true
  }

  /** The first pair of a move, taken as it stands: `perform_move` sets the
      current point to it whatever the position mode. */
  function MoveRawPoint(st: PenState, ps: seq<real>): SvgPoint
    requires |ps| >= 2
  {
    SvgPoint(ps[0], ps[1], st.currentPoint.svgArea, st.currentPoint.screenArea)
  }

  /** What `perform_move` issues from `raw`: a release, then the pairs after
      the first as a line, if there are any. */
  function MovePlan(pos: Position, raw: SvgPoint, ps: seq<real>): (plan: seq<Action>)
    requires |ps| >= 2 && |ps| % 2 == 0
    ensures |plan| >= 1 && plan[0] == Up && (|plan| == 1 <==> |ps| == 2)
  {
    [Up] + (if |ps| > 2 then LinePlan(pos, raw, ps[2..]) else [])
  }

  /** Where `perform_move` leaves the current point when it succeeds. */
  function MoveEnd(pos: Position, raw: SvgPoint, ps: seq<real>): SvgPoint
    requires |ps| >= 2 && |ps| % 2 == 0
  {
    if |ps| > 2 then LineEnd(pos, raw, ps[2..]) else raw
  }

  /** The coordinates `perform_horizontal_line` and `perform_vertical_line`
      hand to `perform_line`. */
  function AxisCoords(axis: Axis, pos: Position, start: SvgPoint, params: seq<real>): (coords: seq<real>)
    ensures |coords| == 2 * |params| && |coords| % 2 == 0
  {
    Flatten(AxisPoints(axis, pos, start, params))
  }

  /** The pointer actions a command issues when every one succeeds. Every
      command but a move draws from the current point, once the subpath
      start has been validated. */
  function Planned(st: PenState, c: Command): seq<Action>
    requires WellFormed(c)
  {
    var cur := st.currentPoint;
    match c
    case Move(pos, ps) => MovePlan(pos, MoveRawPoint(st, ps), ps)
    case Line(pos, ps) => LinePlan(pos, cur, ps)
    case CubicCurve(pos, ps) => LinePlan(Absolute, cur, CubicCoords(pos, cur, ps))
    case HorizontalLine(pos, ps) => LinePlan(Absolute, cur, AxisCoords(Horizontal, pos, cur, ps))
    case VerticalLine(pos, ps) => LinePlan(Absolute, cur, AxisCoords(Vertical, pos, cur, ps))
    case Close => LinePlan(Absolute, cur, CloseCoords(cur, Validated(st).subpathInitialPoint.value))
    case _ => []
  }

  /** The state after a command all of whose actions succeeded. */
  function After(st: PenState, c: Command): PenState
    requires WellFormed(c)
  {
    var cur := st.currentPoint;
    var anchor := Validated(st).subpathInitialPoint;
    match c
    case Move(pos, ps) =>
      PenState(MoveEnd(pos, MoveRawPoint(st, ps), ps), Some(Resolve(pos, cur, ps[0], ps[1])))
    case Line(pos, ps) => PenState(LineEnd(pos, cur, ps), anchor)
    case CubicCurve(pos, ps) => PenState(LineEnd(Absolute, cur, CubicCoords(pos, cur, ps)), anchor)
    case HorizontalLine(pos, ps) => PenState(LineEnd(Absolute, cur, AxisCoords(Horizontal, pos, cur, ps)), anchor)
    case VerticalLine(pos, ps) => PenState(LineEnd(Absolute, cur, AxisCoords(Vertical, pos, cur, ps)), anchor)
    case Close => PenState(LineEnd(Absolute, cur, CloseCoords(cur, anchor.value)), None)
    case _ => Validated(st)
  }

  /** The state after a command whose device failed on its `emitted`-th
      attempted action. Only a move changes the current point before it
      finishes, and only once its release has succeeded. */
  function AfterFailure(st: PenState, c: Command, emitted: nat): PenState
    requires WellFormed(c)
  {
    match c
    case Move(pos, ps) =>
      PenState(if emitted <= 1 then st.currentPoint else MoveRawPoint(st, ps),
               Some(Resolve(pos, st.currentPoint, ps[0], ps[1])))
    case _ => Validated(st)
  }

  /** The points of a line over a prefix of its parameters are a prefix of
      its points. */
  lemma {:induction false} LinePointsPrefix(pos: Position, start: SvgPoint, params: seq<real>, j: nat)
    requires |params| % 2 == 0 && j % 2 == 0 && j <= |params|
    ensures LinePoints(pos, start, params[..j]) == LinePoints(pos, start, params)[..j / 2]
    decreases |params|
  {
    if j < |params| {
      var n := |params|;
      assert params[..n - 2][..j] == params[..j];
      LinePointsPrefix(pos, start, params[..n - 2], j);
    } else {
      assert params[..j] == params;
    }
  }

  /** The actions of a line over a prefix of its parameters are a prefix of
      its actions. */
  lemma LineActionsPrefix(pos: Position, start: SvgPoint, params: seq<real>, j: nat)
    requires |params| % 2 == 0 && j % 2 == 0 && j <= |params|
    ensures LineActions(start, LinePoints(pos, start, params[..j]))
         == LineActions(start, LinePoints(pos, start, params))[..2 + j / 2]
  {
    var pts := LinePoints(pos, start, params);
    LinePointsPrefix(pos, start, params, j);
    assert Moves(pts[..j / 2]) == Moves(pts)[..j / 2];
  }

  /** One more pair extends a line's points by that pair taken against the
      running point. */
  lemma LinePointsStep(pos: Position, start: SvgPoint, params: seq<real>, j: nat)
    requires |params| % 2 == 0 && j % 2 == 0 && j < |params|
    ensures j + 2 <= |params|
    ensures var before := LinePoints(pos, start, params[..j]);
      LinePoints(pos, start, params[..j + 2])
        == before + [Resolve(pos, EndPoint(start, before), params[j], params[j + 1])]
  {
    assert params[..j + 2][..j] == params[..j];
  }

  /** One more pair extends a line by that pair taken against the running
      point, which becomes the line's new end point. */
  lemma LineStep(pos: Position, start: SvgPoint, params: seq<real>, j: nat)
    requires |params| % 2 == 0 && j % 2 == 0 && j < |params|
    ensures j + 2 <= |params|
    ensures var before := LinePoints(pos, start, params[..j]);
      var next := Resolve(pos, EndPoint(start, before), params[j], params[j + 1]);
      LinePoints(pos, start, params[..j + 2]) == before + [next] &&
      EndPoint(start, LinePoints(pos, start, params[..j + 2])) == next &&
      LineActions(start, LinePoints(pos, start, params[..j + 2])) == LineActions(start, before) + [MoveAction(next)]
  {
    LinePointsStep(pos, start, params, j);
    var before := LinePoints(pos, start, params[..j]);
    var after := LinePoints(pos, start, params[..j + 2]);
    assert after[..|after| - 1] == before;
  }

  /** The device's answers to the two opening actions of a line: a failure
      of either is a failed run of the line; two successes are the run over
      no pair yet. */
  lemma LineOpeningEmitted(log0: seq<Event>, start: SvgPoint, pts: seq<SvgPoint>)
    ensures Emitted(log0, log0 + [Event(MoveAction(start), false)], LineActions(start, pts), false)
    ensures Emitted(log0, log0 + [Event(MoveAction(start), true)] + [Event(Down, false)], LineActions(start, pts), false)
    ensures log0 + [Event(MoveAction(start), true)] + [Event(Down, true)] == log0 + Succeeded(LineActions(start, []))
  {
    var planned := LineActions(start, pts);
    EmittedFailAt(log0, planned, 0);
    EmittedFailAt(log0, planned, 1);
    assert planned[..1] == [MoveAction(start)];
    assert Succeeded(LineActions(start, [])) == [Event(MoveAction(start), true), Event(Down, true)];
  }

  /** The device's answer to the move a line issues for its pair at `j`:
      on success the log is the successful run over one more pair; on
      failure it is a failed run of the whole line. */
  lemma LinePairEmitted(log0: seq<Event>, log: seq<Event>, pos: Position, start: SvgPoint,
                        params: seq<real>, j: nat, next: SvgPoint, ok: bool)
    requires |params| % 2 == 0 && j % 2 == 0 && j < |params|
    requires next == Resolve(pos, EndPoint(start, LinePoints(pos, start, params[..j])), params[j], params[j + 1])
    requires log == log0 + Succeeded(LineActions(start, LinePoints(pos, start, params[..j]))) + [Event(MoveAction(next), ok)]
    ensures j + 2 <= |params|
    ensures EndPoint(start, LinePoints(pos, start, params[..j + 2])) == next
    ensures ok ==> log == log0 + Succeeded(LineActions(start, LinePoints(pos, start, params[..j + 2])))
    ensures !ok ==> Emitted(log0, log, LineActions(start, LinePoints(pos, start, params)), false)
  {
    var before := LinePoints(pos, start, params[..j]);
    LineStep(pos, start, params, j);
    if ok {
      SucceededSnoc(LineActions(start, before), MoveAction(next));
    } else {
      LinePairFailed(log0, pos, start, params, j, before, next);
    }
  }

  /** A failed move for the pair at `j` ends a failed run of the whole line:
      the actions before it are the line's actions up to that pair. */
  lemma LinePairFailed(log0: seq<Event>, pos: Position, start: SvgPoint, params: seq<real>, j: nat,
                       before: seq<SvgPoint>, next: SvgPoint)
    requires |params| % 2 == 0 && j % 2 == 0 && j + 2 <= |params|
    requires before == LinePoints(pos, start, params[..j])
    requires LineActions(start, LinePoints(pos, start, params[..j + 2])) == LineActions(start, before) + [MoveAction(next)]
    ensures Emitted(log0, log0 + Succeeded(LineActions(start, before)) + [Event(MoveAction(next), false)],
                    LineActions(start, LinePoints(pos, start, params)), false)
  {
    LineActionsPrefix(pos, start, params, j + 2);
    EmittedFailAfter(log0, LineActions(start, before), MoveAction(next), LineActions(start, LinePoints(pos, start, params)));
  }

  /** Appending a point appends its two coordinates. */
  lemma FlattenSnoc(pts: seq<SvgPoint>, p: SvgPoint)
    ensures Flatten(pts + [p]) == Flatten(pts) + [p.x, p.y]
  {
    assert (pts + [p])[..|pts|] == pts;
  }

  /** The coordinates of a horizontal or vertical line grow, parameter by
      parameter, by the point the next parameter gives against the running
      point, which becomes the new end point. */
  lemma AxisCoordsStep(axis: Axis, pos: Position, start: SvgPoint, params: seq<real>, i: nat,
                       current: SvgPoint, next: SvgPoint)
    requires i < |params|
    requires current == EndPoint(start, AxisPoints(axis, pos, start, params[..i]))
    requires next == AxisStep(axis, pos, current, params[i])
    ensures next == EndPoint(start, AxisPoints(axis, pos, start, params[..i + 1]))
    ensures AxisCoords(axis, pos, start, params[..i + 1]) == AxisCoords(axis, pos, start, params[..i]) + [next.x, next.y]
  {
    AxisPointsStep(axis, pos, start, params, i);
    FlattenSnoc(AxisPoints(axis, pos, start, params[..i]), next);
  }

  /** One more parameter of a horizontal or vertical line adds the point it
      takes against the point before. */
  lemma AxisPointsStep(axis: Axis, pos: Position, start: SvgPoint, params: seq<real>, i: nat)
    requires i < |params|
    ensures AxisPoints(axis, pos, start, params[..i + 1])
         == AxisPoints(axis, pos, start, params[..i])
            + [AxisStep(axis, pos, EndPoint(start, AxisPoints(axis, pos, start, params[..i])), params[i])]
  {
    assert params[..i + 1][..i] == params[..i];
  }
}
