/** The path-command interpreter (src/painter.rs): it keeps the pen position
    and the open subpath's start, and turns each command into pointer
    actions on a device, returning the device's first failure. */
module Painter {
  import opened Wrappers
  import opened MyErrors
  import opened Point
  import opened Commands
  import opened Mouse
  import opened PainterSpec

  class Painter {
    var currentPoint: SvgPoint
    var subpathInitialPoint: Option<SvgPoint>
    const svgArea: Area
    const screenArea: Area

    /** Every point the painter holds was built against its two rectangles. */
    ghost predicate Valid()
      reads this
    {
      currentPoint.svgArea == svgArea && currentPoint.screenArea == screenArea &&
      (subpathInitialPoint.Some? ==>
         subpathInitialPoint.value.svgArea == svgArea && subpathInitialPoint.value.screenArea == screenArea)
    }

    /** The painter's state as a value. */
    function Pen(): PenState
      reads this
    {
      PenState(currentPoint, subpathInitialPoint)
    }

    /** `Painter::new`: the pen at the SVG origin, no subpath open. */
    constructor (svgArea: Area, screenArea: Area)
      ensures Valid()
      ensures this.svgArea == svgArea && this.screenArea == screenArea
      ensures Pen() == PenState(SvgPoint(0.0, 0.0, svgArea, screenArea), None)
    {
      this.currentPoint := SvgPoint(0.0, 0.0, svgArea, screenArea);
      this.subpathInitialPoint := None;
      this.svgArea := svgArea;
      this.screenArea := screenArea;
    }

    /** `perform_command`: a move resets the subpath start and moves; every
        other command first opens a subpath at the current point if none is
        open; the four unsupported commands draw nothing. The device's first
        failure is returned. Each arm is a method of its own below. */
    method PerformCommand(cmd: Command, mouse: Device) returns (r: Outcome)
      requires Valid()
      requires WellFormed(cmd)
      modifies this, mouse
      ensures Valid()
      ensures Emitted(old(mouse.log), mouse.log, Planned(old(Pen()), cmd), r.Pass?)
      ensures r.Pass? ==> Pen() == After(old(Pen()), cmd)
      ensures r.Fail? ==> Pen() == AfterFailure(old(Pen()), cmd, |mouse.log| - |old(mouse.log)|)
    {
      match cmd {
        case Move(pos, ps) =>
          ResetSubpathInitialPointByMoveCommand(pos, ps);
          r := PerformMove(pos, ps, mouse);
        case Line(pos, ps) =>
          ValidateSubpathInitialPoint();
          r := PerformLine(pos, ps, mouse);
        case CubicCurve(pos, ps) =>
          ValidateSubpathInitialPoint();
          r := PerformCubicCurve(pos, ps, mouse);
        case Close =>
          ValidateSubpathInitialPoint();
          r := PerformClose(mouse);
        case HorizontalLine(pos, ps) =>
          ValidateSubpathInitialPoint();
          r := PerformHorizontalLine(pos, ps, mouse);
        case VerticalLine(pos, ps) =>
          ValidateSubpathInitialPoint();
          r := PerformVerticalLine(pos, ps, mouse);
        case _ =>
          // QuadraticCurve, SmoothQuadraticCurve, SmoothCubicCurve and
          // EllipticalArc: only the subpath start is touched.
          ValidateSubpathInitialPoint();
          r := Pass;
          EmittedNothing(mouse.log);
      }
    }

    /** `reset_subpath_initial_point_by_move_command`: the move's first pair,
        taken against the current point, becomes the subpath start. */
    method ResetSubpathInitialPointByMoveCommand(pos: Position, params: seq<real>)
      requires Valid()
      requires |params| >= 2
      modifies this
      ensures Valid()
      ensures currentPoint == old(currentPoint)
      ensures subpathInitialPoint == Some(Resolve(pos, old(currentPoint), params[0], params[1]))
    {
      var x, y;
      match pos {
        case Absolute =>
          x, y := params[0], params[1];
        case Relative =>
          x, y := params[0] + currentPoint.x, params[1] + currentPoint.y;
      }
      subpathInitialPoint := Some(SvgPoint(x, y, svgArea, screenArea));
    }

    /** `perform_move`: release the button, jump to the first pair as it
        stands, then draw the remaining pairs as a line. */
    method PerformMove(pos: Position, params: seq<real>, mouse: Device) returns (r: Outcome)
      requires Valid()
      requires |params| >= 2 && |params| % 2 == 0
      modifies this, mouse
      ensures Valid()
      ensures subpathInitialPoint == old(subpathInitialPoint)
      ensures Emitted(old(mouse.log), mouse.log, MovePlan(pos, MoveRawPoint(old(Pen()), params), params), r.Pass?)
      ensures currentPoint ==
                if r.Pass? then MoveEnd(pos, MoveRawPoint(old(Pen()), params), params)
                else if |mouse.log| <= |old(mouse.log)| + 1 then old(currentPoint)
                else MoveRawPoint(old(Pen()), params)
    {
      ghost var log0 := mouse.log;
      ghost var raw := MoveRawPoint(Pen(), params);
      r := mouse.Up();
      EmittedOne(log0, Up, r.Pass?);
      if r.Fail? {
        EmittedStop(log0, mouse.log, MovePlan(pos, raw, params), 1);
        return;
      }
      currentPoint := SvgPoint(params[0], params[1], svgArea, screenArea);
      if |params| > 2 {
        var rest := params;
        rest := rest[1..];
        rest := rest[1..];
        assert rest == params[2..];
        ghost var log1 := mouse.log;
        r := PerformLine(pos, rest, mouse);
        EmittedThen(log0, log1, mouse.log, [Up], LinePlan(pos, raw, rest), r.Pass?);
        if r.Fail? {
          FailureComesFromDevice(log1, mouse.log, LinePlan(pos, raw, rest));
        }
      } else {
        assert MovePlan(pos, raw, params) == [Up];
      }
    }

    /** `validate_subpath_initial_point`: open a subpath at the current point
        if none is open. */
    method ValidateSubpathInitialPoint()
      requires Valid()
      modifies this
      ensures Valid()
      ensures Pen() == Validated(old(Pen()))
    {
      if subpathInitialPoint.None? {
        subpathInitialPoint := Some(currentPoint);
      }
    }

    /** `perform_line`: move to the current point, press, then move to each
        resolved pair; the current point is updated only once all moves have
        succeeded. */
    method PerformLine(pos: Position, params: seq<real>, mouse: Device) returns (r: Outcome)
      requires Valid()
      requires |params| >= 2 && |params| % 2 == 0
      modifies this, mouse
      ensures Valid()
      ensures subpathInitialPoint == old(subpathInitialPoint)
      ensures Emitted(old(mouse.log), mouse.log, LinePlan(pos, old(currentPoint), params), r.Pass?)
      ensures currentPoint == if r.Pass? then LineEnd(pos, old(currentPoint), params) else old(currentPoint)
    {
      ghost var log0 := mouse.log;
      LineOpeningEmitted(log0, currentPoint, LinePoints(pos, currentPoint, params));
      var screen := currentPoint.ToScreen();
      r := mouse.MoveTo(screen.x, screen.y);
      if r.Pass? {
        r := mouse.Down();
      }
      if r.Fail? {
        return;
      }
      var current;
      r, current := MovePairs(pos, params, currentPoint, mouse, log0);
      if r.Pass? {
        currentPoint := current;
      }
    }

    /** The loop of `perform_line`: each pair, resolved against the point
        before it, is moved to in turn, stopping at the first failure. The
        log already holds the line's successful opening. */
    method MovePairs(pos: Position, params: seq<real>, start: SvgPoint, mouse: Device, ghost log0: seq<Event>)
      returns (r: Outcome, current: SvgPoint)
      requires |params| % 2 == 0
      requires start.svgArea == svgArea && start.screenArea == screenArea
      requires mouse.log == log0 + Succeeded(LineActions(start, []))
      modifies mouse
      ensures Emitted(log0, mouse.log, LinePlan(pos, start, params), r.Pass?)
      ensures r.Pass? ==> current == LineEnd(pos, start, params)
    {
      assert params[..0] == [];
      current := start;
      r := Pass;
      var index := 0;
      while index < |params|
        invariant 0 <= index <= |params| && index % 2 == 0
        invariant r.Pass?
        invariant current == EndPoint(start, LinePoints(pos, start, params[..index]))
        invariant mouse.log == log0 + Succeeded(LineActions(start, LinePoints(pos, start, params[..index])))
      {
        r, current := MovePair(pos, params, start, index, current, mouse, log0);
        if r.Fail? {
          return;
        }
        index := index + 2;
      }
      assert params[..index] == params;
      EmittedAll(log0, LinePlan(pos, start, params));
    }

    /** The body of `perform_line`'s loop for the pair at `index`: resolve it
        against the point before it and move there. */
    method MovePair(pos: Position, params: seq<real>, start: SvgPoint, index: nat, previous: SvgPoint,
                    mouse: Device, ghost log0: seq<Event>)
      returns (r: Outcome, current: SvgPoint)
      requires |params| % 2 == 0 && index % 2 == 0 && index < |params|
      requires start.svgArea == svgArea && start.screenArea == screenArea
      requires previous == EndPoint(start, LinePoints(pos, start, params[..index]))
      requires mouse.log == log0 + Succeeded(LineActions(start, LinePoints(pos, start, params[..index])))
      modifies mouse
      ensures index + 2 <= |params|
      ensures current == EndPoint(start, LinePoints(pos, start, params[..index + 2]))
      ensures r.Pass? ==> mouse.log == log0 + Succeeded(LineActions(start, LinePoints(pos, start, params[..index + 2])))
      ensures r.Fail? ==> Emitted(log0, mouse.log, LinePlan(pos, start, params), false)
    {
      current := ResolvePair(pos, previous, params[index], params[index + 1]);
      var s := current.ToScreen();
      r := mouse.MoveTo(s.x, s.y);
      LinePairEmitted(log0, mouse.log, pos, start, params, index, current, r.Pass?);
    }

    /** One step of `perform_line`'s loop: a relative pair moves the running
        point, an absolute pair replaces it. */
    method ResolvePair(pos: Position, previous: SvgPoint, x: real, y: real) returns (current: SvgPoint)
      requires previous.svgArea == svgArea && previous.screenArea == screenArea
      ensures current == Resolve(pos, previous, x, y)
      ensures current.svgArea == svgArea && current.screenArea == screenArea
    {
      match pos {
        case Relative =>
          current := previous.Offset(x, y);
        case Absolute =>
          current := SvgPoint(x, y, svgArea, screenArea);
      }
    }

    /** `perform_cubic_curve`: sample the curve from the current point at
        t = 0, 0.1, ..., 1 and draw the samples as an absolute line. */
    method PerformCubicCurve(pos: Position, params: seq<real>, mouse: Device) returns (r: Outcome)
      requires Valid()
      requires |params| >= 6
      modifies this, mouse
      ensures Valid()
      ensures subpathInitialPoint == old(subpathInitialPoint)
      ensures Emitted(old(mouse.log), mouse.log,
                      LinePlan(Absolute, old(currentPoint), CubicCoords(pos, old(currentPoint), params)), r.Pass?)
      ensures currentPoint ==
                if r.Pass? then LineEnd(Absolute, old(currentPoint), CubicCoords(pos, old(currentPoint), params))
                else old(currentPoint)
    {
      var lineCoords := CubicLineCoords(pos, params);
      r := PerformLine(Absolute, lineCoords, mouse);
    }

    /** The block of `perform_cubic_curve` that builds the line: the control
        points from the parameters, then the samples at t = 0, 0.1, ..., 1
        in order. */
    method CubicLineCoords(pos: Position, params: seq<real>) returns (lineCoords: seq<real>)
      requires Valid()
      requires |params| >= 6
      ensures lineCoords == CubicCoords(pos, currentPoint, params)
    {
      lineCoords := [];
      var p0 := currentPoint;
      var p1, p2, p3;
      match pos {
        case Absolute =>
          p1 := SvgPoint(params[0], params[1], svgArea, screenArea);
          p2 := SvgPoint(params[2], params[3], svgArea, screenArea);
          p3 := SvgPoint(params[4], params[5], svgArea, screenArea);
        case Relative =>
          p1 := SvgPoint(params[0] + p0.x, params[1] + p0.y, svgArea, screenArea);
          p2 := SvgPoint(params[2] + p0.x, params[3] + p0.y, svgArea, screenArea);
          p3 := SvgPoint(params[4] + p0.x, params[5] + p0.y, svgArea, screenArea);
      }
      assert (p1, p2, p3) == CubicControls(pos, p0, params);
      var index := 0;
      ghost var k: nat := 0;
      while index <= 100
        invariant index == 10 * k && k <= SampleCount
        invariant lineCoords == Flatten(Samples(p0, p1, p2, p3, k))
      {
        var t := index as real / 100.0;
        var x := Bezier(p0.x, p1.x, p2.x, p3.x, t);
        var y := Bezier(p0.y, p1.y, p2.y, p3.y, t);
        assert t == SampleTime(k);
        assert Samples(p0, p1, p2, p3, k + 1) == Samples(p0, p1, p2, p3, k) + [Sample(p0, p1, p2, p3, k)];
        FlattenSnoc(Samples(p0, p1, p2, p3, k), Sample(p0, p1, p2, p3, k));
        lineCoords := lineCoords + [x, y];
        index := index + 10;
        k := k + 1;
      }
      assert k == SampleCount;
      assert lineCoords == CubicCoords(pos, p0, params);
    }

    /** `perform_horizontal_line`: each parameter sets or moves x, keeping y;
        the resulting points are drawn as an absolute line. */
    method PerformHorizontalLine(pos: Position, params: seq<real>, mouse: Device) returns (r: Outcome)
      requires Valid()
      requires |params| >= 1
      modifies this, mouse
      ensures Valid()
      ensures subpathInitialPoint == old(subpathInitialPoint)
      ensures Emitted(old(mouse.log), mouse.log,
                      LinePlan(Absolute, old(currentPoint), AxisCoords(Horizontal, pos, old(currentPoint), params)),
                      r.Pass?)
      ensures currentPoint ==
                if r.Pass? then LineEnd(Absolute, old(currentPoint), AxisCoords(Horizontal, pos, old(currentPoint), params))
                else old(currentPoint)
    {
      var lineCoords := HorizontalLineCoords(pos, params);
      r := PerformLine(Absolute, lineCoords, mouse);
    }

    /** The loop of `perform_horizontal_line`: the coordinates of the points its
        parameters give, each against the point before, from the current
        point. */
    method HorizontalLineCoords(pos: Position, params: seq<real>) returns (lineCoords: seq<real>)
      requires Valid()
      ensures lineCoords == AxisCoords(Horizontal, pos, currentPoint, params)
    {
      ghost var start := currentPoint;
      lineCoords := [];
      var current := currentPoint;
      for i := 0 to |params|
        invariant current == EndPoint(start, AxisPoints(Horizontal, pos, start, params[..i]))
        invariant lineCoords == AxisCoords(Horizontal, pos, start, params[..i])
      {
        ghost var previous := current;
        match pos {
          case Relative =>
            current := current.Offset(params[i], 0.0);
          case Absolute =>
            current := SvgPoint(params[i], current.y, svgArea, screenArea);
        }
        AxisCoordsStep(Horizontal, pos, start, params, i, previous, current);
        lineCoords := lineCoords + [current.x, current.y];
      }
      assert params[..|params|] == params;
    }

    /** `perform_vertical_line`: each parameter sets or moves y, keeping x;
        the resulting points are drawn as an absolute line. */
    method PerformVerticalLine(pos: Position, params: seq<real>, mouse: Device) returns (r: Outcome)
      requires Valid()
      requires |params| >= 1
      modifies this, mouse
      ensures Valid()
      ensures subpathInitialPoint == old(subpathInitialPoint)
      ensures Emitted(old(mouse.log), mouse.log,
                      LinePlan(Absolute, old(currentPoint), AxisCoords(Vertical, pos, old(currentPoint), params)),
                      r.Pass?)
      ensures currentPoint ==
                if r.Pass? then LineEnd(Absolute, old(currentPoint), AxisCoords(Vertical, pos, old(currentPoint), params))
                else old(currentPoint)
    {
      var lineCoords := VerticalLineCoords(pos, params);
      r := PerformLine(Absolute, lineCoords, mouse);
    }

    /** The loop of `perform_vertical_line`: the coordinates of the points its
        parameters give, each against the point before, from the current
        point. */
    method VerticalLineCoords(pos: Position, params: seq<real>) returns (lineCoords: seq<real>)
      requires Valid()
      ensures lineCoords == AxisCoords(Vertical, pos, currentPoint, params)
    {
      ghost var start := currentPoint;
      lineCoords := [];
      var current := currentPoint;
      for i := 0 to |params|
        invariant current == EndPoint(start, AxisPoints(Vertical, pos, start, params[..i]))
        invariant lineCoords == AxisCoords(Vertical, pos, start, params[..i])
      {
        ghost var previous := current;
        match pos {
          case Relative =>
            current := current.Offset(0.0, params[i]);
          case Absolute =>
            current := SvgPoint(current.x, params[i], svgArea, screenArea);
        }
        AxisCoordsStep(Vertical, pos, start, params, i, previous, current);
        lineCoords := lineCoords + [current.x, current.y];
      }
      assert params[..|params|] == params;
    }

    /** `perform_close`: with no subpath open it fails before touching the
        device; otherwise it draws from the current point back to the
        subpath start and closes the subpath. */
    method PerformClose(mouse: Device) returns (r: Outcome)
      requires Valid()
      modifies this, mouse
      ensures Valid()
      ensures old(subpathInitialPoint).None? ==>
                r == Fail(MyError("For some reason subpath_initial_point is_none in perform_close")) &&
                mouse.log == old(mouse.log) && Pen() == old(Pen())
      ensures old(subpathInitialPoint).Some? ==>
                var cur, a := old(currentPoint), old(subpathInitialPoint).value;
                Emitted(old(mouse.log), mouse.log, LinePlan(Absolute, cur, CloseCoords(cur, a)), r.Pass?) &&
                Pen() == if r.Pass? then PenState(LineEnd(Absolute, cur, CloseCoords(cur, a)), None) else old(Pen())
    {
      if subpathInitialPoint.None? {
        return Fail(MyError("For some reason subpath_initial_point is_none in perform_close"));
      }
      var lineCoords: seq<real> := [];
      lineCoords := lineCoords + [currentPoint.x];
      lineCoords := lineCoords + [currentPoint.y];
      lineCoords := lineCoords + [subpathInitialPoint.value.x];
      lineCoords := lineCoords + [subpathInitialPoint.value.y];
      assert lineCoords == CloseCoords(currentPoint, subpathInitialPoint.value);
      r := PerformLine(Absolute, lineCoords, mouse);
      if r.Fail? {
        return;
      }
      subpathInitialPoint := None;
      r := Pass;
    }
  }
}
