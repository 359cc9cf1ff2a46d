/** What the painter's commands mean, stated over the functions of
    painter_spec.dfy that its methods are proved against: the points a line
    visits, where each command leaves the pen, and which actions it issues. */
module PainterProperties {
  import opened Wrappers
  import opened Point
  import opened Commands
  import opened Mouse
  import opened PainterSpec

  /** The sums of the x parameters and of the y parameters of a pair list. */
  function PairSum(params: seq<real>): (sum: (real, real))
    requires |params| % 2 == 0
    decreases |params|
  {
    if params == [] then (0.0, 0.0)
    else
      var init := PairSum(params[..|params| - 2]);
      (init.0 + params[|params| - 2], init.1 + params[|params| - 1])
  }

  /** The sum of a list of parameters. */
  function Sum(params: seq<real>): real
  {
    if params == [] then 0.0 else Sum(params[..|params| - 1]) + params[|params| - 1]
  }

  /** The point before the i-th point of a line from `start`. */
  function Prior(start: SvgPoint, pts: seq<SvgPoint>, i: nat): SvgPoint
    requires i <= |pts|
  {
    if i == 0 then start else pts[i - 1]
  }

  /** The points of a line over its first k pairs are its first k points. */
  lemma LinePairsPrefix(pos: Position, start: SvgPoint, params: seq<real>, k: nat)
    requires |params| % 2 == 0 && 2 * k <= |params|
    ensures LinePoints(pos, start, params[..2 * k]) == LinePoints(pos, start, params)[..k]
  {
    LinePointsPrefix(pos, start, params, 2 * k);
  }

  /** The i-th pair of an even-length list starts at the even index 2 * i
      and ends within it. */
  lemma PairIndex(n: nat, i: nat)
    requires n % 2 == 0 && i < n / 2
    ensures (2 * i) % 2 == 0 && 2 * i + 2 <= n && 2 * (i + 1) == 2 * i + 2
  {
  }

  /** The i-th point of a line is its i-th pair taken against the point
      before it. */
  lemma LinePointAt(pos: Position, start: SvgPoint, params: seq<real>, i: nat)
    requires |params| % 2 == 0 && i < |params| / 2
    ensures var pts := LinePoints(pos, start, params);
      pts[i] == Resolve(pos, Prior(start, pts, i), params[2 * i], params[2 * i + 1])
  {
    var pts := LinePoints(pos, start, params);
    PairIndex(|params|, i);
    LinePointsStep(pos, start, params, 2 * i);
    LinePairsPrefix(pos, start, params, i);
    LinePairsPrefix(pos, start, params, i + 1);
    assert pts[i] == pts[..i + 1][i];
    assert EndPoint(start, pts[..i]) == Prior(start, pts, i);
  }

  /** Every point of a line is its pair taken against the point before it:
      the start for the first pair, the previous point for each later one. */
  lemma LinePointsResolve(pos: Position, start: SvgPoint, params: seq<real>)
    requires |params| % 2 == 0
    ensures var pts := LinePoints(pos, start, params);
      forall i :: 0 <= i < |pts| ==>
        pts[i] == Resolve(pos, Prior(start, pts, i), params[2 * i], params[2 * i + 1])
  {
    var pts := LinePoints(pos, start, params);
    forall i | 0 <= i < |pts|
      ensures pts[i] == Resolve(pos, Prior(start, pts, i), params[2 * i], params[2 * i + 1])
    {
      LinePointAt(pos, start, params, i);
    }
  }

  /** What a line issues, in order: a move to the start, one press, then one
      move per coordinate pair, to that pair's point. */
  lemma LinePlanShape(pos: Position, start: SvgPoint, params: seq<real>)
    requires |params| % 2 == 0
    ensures var plan, pts := LinePlan(pos, start, params), LinePoints(pos, start, params);
      |plan| == 2 + |params| / 2 && plan[0] == MoveAction(start) && plan[1] == Down &&
      (forall a :: a in plan[2..] ==> a.MoveTo?) &&
      forall i :: 0 <= i < |pts| ==> plan[2 + i] == MoveAction(pts[i])
  {
    var plan := LinePlan(pos, start, params);
    forall a | a in plan[2..]
      ensures a.MoveTo?
    {
      var k :| 0 <= k < |plan[2..]| && plan[2..][k] == a;
      assert plan[2 + k] == a;
    }
  }

  /** Where a line leaves the pen: at its last pair when absolute; moved
      from the start by the sums of its pairs when relative. */
  lemma {:induction false} LineEndPoint(pos: Position, start: SvgPoint, params: seq<real>)
    requires |params| % 2 == 0
    ensures pos == Absolute && |params| >= 2 ==>
      LineEnd(pos, start, params)
        == SvgPoint(params[|params| - 2], params[|params| - 1], start.svgArea, start.screenArea)
    ensures pos == Relative ==>
      LineEnd(pos, start, params) == start.Offset(PairSum(params).0, PairSum(params).1)
    decreases |params|
  {
    if params != [] {
      var init := params[..|params| - 2];
      LineEndPoint(pos, start, init);
    }
  }

  /** Drawing the coordinates of points that share the start's rectangles as
      an absolute line visits exactly those points. */
  lemma {:induction false} FlattenThenLine(start: SvgPoint, pts: seq<SvgPoint>)
    requires forall i :: 0 <= i < |pts| ==> SameAreas(pts[i], start)
    ensures LinePoints(Absolute, start, Flatten(pts)) == pts
    decreases |pts|
  {
    if pts != [] {
      var init := pts[..|pts| - 1];
      var coords := Flatten(pts);
      assert coords[..|coords| - 2] == Flatten(init);
      FlattenThenLine(start, init);
      assert pts == init + [pts[|pts| - 1]];
    }
  }

  /** A cubic's line: exactly `SampleCount` samples, drawn as they are; the
      first sample is the start, the last is the end point P3, where the pen
      is left; only the first six parameters matter. */
  lemma CubicLine(pos: Position, p0: SvgPoint, params: seq<real>)
    requires |params| >= 6
    ensures var (p1, p2, p3) := CubicControls(pos, p0, params);
      var samples := Samples(p0, p1, p2, p3, SampleCount);
      LinePoints(Absolute, p0, CubicCoords(pos, p0, params)) == samples &&
      samples[0] == p0 && samples[SampleCount - 1] == p3 &&
      LineEnd(Absolute, p0, CubicCoords(pos, p0, params)) == p3
    ensures CubicCoords(pos, p0, params) == CubicCoords(pos, p0, params[..6])
  {
    var (p1, p2, p3) := CubicControls(pos, p0, params);
    var samples := Samples(p0, p1, p2, p3, SampleCount);
    assert SampleTime(0) == 0.0;
    assert SampleTime(SampleCount - 1) == 1.0;
    FlattenThenLine(p0, samples);
    assert CubicControls(pos, p0, params) == CubicControls(pos, p0, params[..6]);
  }

  /** The coordinate a horizontal (x) or vertical (y) line changes. */
  function Moving(axis: Axis, p: SvgPoint): real
  {
    if axis == Horizontal then p.x else p.y
  }

  /** The coordinate it keeps. */
  function Fixed(axis: Axis, p: SvgPoint): real
  {
    if axis == Horizontal then p.y else p.x
  }

  /** A horizontal or vertical line keeps the other coordinate at every
      point, and ends at its last parameter when absolute, or moved by the
      sum of its parameters when relative. */
  lemma {:induction false} AxisLine(axis: Axis, pos: Position, start: SvgPoint, params: seq<real>)
    ensures var pts := AxisPoints(axis, pos, start, params);
      forall i :: 0 <= i < |pts| ==> Fixed(axis, pts[i]) == Fixed(axis, start)
    ensures var pts := AxisPoints(axis, pos, start, params);
      |params| >= 1 ==>
        Moving(axis, pts[|pts| - 1])
          == if pos == Absolute then params[|params| - 1] else Moving(axis, start) + Sum(params)
    decreases |params|
  {
    if params != [] {
      var init := params[..|params| - 1];
      AxisLine(axis, pos, start, init);
      var pts := AxisPoints(axis, pos, start, params);
      assert pts[..|pts| - 1] == AxisPoints(axis, pos, start, init);
    }
  }

  /** A horizontal or vertical line is drawn through exactly its points, one
      per parameter, and leaves the pen at the last of them. */
  lemma AxisDrawn(axis: Axis, pos: Position, start: SvgPoint, params: seq<real>)
    requires |params| >= 1
    ensures var pts := AxisPoints(axis, pos, start, params);
      LinePoints(Absolute, start, AxisCoords(axis, pos, start, params)) == pts &&
      LineEnd(Absolute, start, AxisCoords(axis, pos, start, params)) == pts[|pts| - 1]
  {
    FlattenThenLine(start, AxisPoints(axis, pos, start, params));
  }

  /** A state whose subpath start, if any, lives in the current point's
      rectangles: every state a painter holds is one. */
  predicate Coherent(st: PenState)
  {
    st.subpathInitialPoint.Some? ==> SameAreas(st.subpathInitialPoint.value, st.currentPoint)
  }

  /** A close, through `perform_command`, moves to the current point,
      presses, moves to the current point again and then to the subpath
      start, which an absent start makes the current point. On success the
      pen is at that start and no subpath is open; on failure the start is
      kept. */
  lemma CloseCommand(st: PenState, emitted: nat)
    requires Coherent(st)
    ensures var cur, a := st.currentPoint, Validated(st).subpathInitialPoint.value;
      Planned(st, Close) == [MoveAction(cur), Down, MoveAction(cur), MoveAction(a)] &&
      After(st, Close) == PenState(a, None) &&
      AfterFailure(st, Close, emitted).subpathInitialPoint == Some(a)
  {
    var cur, a := st.currentPoint, Validated(st).subpathInitialPoint.value;
    ClosePoints(cur, a);
    assert Moves([cur, a]) == [MoveAction(cur), MoveAction(a)];
  }

  /** The line of a close visits the current point, then the subpath start. */
  lemma ClosePoints(cur: SvgPoint, a: SvgPoint)
    requires SameAreas(a, cur)
    ensures LinePoints(Absolute, cur, CloseCoords(cur, a)) == [cur, a]
  {
    assert Flatten([cur, a]) == CloseCoords(cur, a) by {
      assert [cur, a][..1] == [cur];
    }
    FlattenThenLine(cur, [cur, a]);
  }

  /** A command that issues anything reaches the device: the log grows and
      its first new event is the command's first action. In particular a
      close through `perform_command` never fails before touching the
      device. */
  lemma ReachesDevice(st: PenState, c: Command, log0: seq<Event>, log: seq<Event>, ok: bool)
    requires WellFormed(c) && !Unsupported(c)
    requires Emitted(log0, log, Planned(st, c), ok)
    ensures |log| > |log0| && log[|log0|].action == Planned(st, c)[0]
  {
    PlannedNonEmpty(st, c);
    EmittedFirst(log0, log, Planned(st, c), ok);
  }

  /** Every drawing command plans at least one action. */
  lemma PlannedNonEmpty(st: PenState, c: Command)
    requires WellFormed(c) && !Unsupported(c)
    ensures |Planned(st, c)| > 0
  {
    match c
    case Move(pos, ps) =>
    case Line(pos, ps) =>
    case CubicCurve(pos, ps) =>
    case HorizontalLine(pos, ps) =>
    case VerticalLine(pos, ps) =>
    case Close =>
  }

  /** The four commands the painter does not draw issue nothing, keep the
      pen where it is, and only open a subpath at the pen if none is open. */
  lemma UnsupportedIsNoOp(st: PenState, c: Command)
    requires Unsupported(c)
    ensures Planned(st, c) == []
    ensures After(st, c).currentPoint == st.currentPoint
    ensures After(st, c).subpathInitialPoint
         == if st.subpathInitialPoint.None? then Some(st.currentPoint) else st.subpathInitialPoint
  {
  }

  /** A move lifts the pen first, and with a single pair that is all it
      issues. Its subpath start is the first pair taken against the current
      point whether or not the device fails; the current point changes only
      once the lift has succeeded. */
  lemma MoveCommand(st: PenState, pos: Position, ps: seq<real>, emitted: nat)
    requires |ps| >= 2 && |ps| % 2 == 0
    ensures var plan := Planned(st, Move(pos, ps));
      plan[0] == Up && (|ps| == 2 <==> plan == [Up])
    ensures AfterFailure(st, Move(pos, ps), emitted).subpathInitialPoint
         == After(st, Move(pos, ps)).subpathInitialPoint
         == Some(Resolve(pos, st.currentPoint, ps[0], ps[1]))
    ensures emitted <= 1 ==> AfterFailure(st, Move(pos, ps), emitted).currentPoint == st.currentPoint
  {
  }

  /** Where a move leaves the pen, as written: at its first pair taken as an
      absolute point even when the move is relative, and then, for any
      further pairs, at the line drawn from there. So a relative move of a
      single pair from a pen away from the origin leaves the pen apart from
      the subpath start it has just set, and the further relative pairs of a
      longer move are offsets from the raw first pair. */
  lemma MoveEndAsWritten(st: PenState, pos: Position, ps: seq<real>)
    requires |ps| >= 2 && |ps| % 2 == 0
    ensures var raw := SvgPoint(ps[0], ps[1], st.currentPoint.svgArea, st.currentPoint.screenArea);
      After(st, Move(pos, ps)).currentPoint == if |ps| == 2 then raw else LineEnd(pos, raw, ps[2..])
    ensures pos == Relative ==>
      var raw := SvgPoint(ps[0], ps[1], st.currentPoint.svgArea, st.currentPoint.screenArea);
      var rest := PairSum(ps[2..]);
      After(st, Move(pos, ps)).currentPoint == raw.Offset(rest.0, rest.1)
    ensures pos == Relative && |ps| == 2 && (st.currentPoint.x != 0.0 || st.currentPoint.y != 0.0) ==>
      After(st, Move(pos, ps)).currentPoint != After(st, Move(pos, ps)).subpathInitialPoint.value
  {
    var raw := MoveRawPoint(st, ps);
    if |ps| > 2 {
      LineEndPoint(pos, raw, ps[2..]);
    } else {
      assert ps[2..] == [];
    }
  }
}
