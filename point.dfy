/** The two coordinate spaces (src/point.rs): a point of the SVG document and
    a point of the screen, each carrying both rectangles so that it can be
    converted without further context. Coordinates are reals, so the
    conversions below are exact. */
module Point {

  /** A rectangle: origin (x, y) and extent (width, height). The accessors
      and equality of src/rect.rs are the datatype's destructors and its
      structural equality. */
  datatype Rect = Rect(x: real, y: real, width: real, height: real)

  /** A rectangle whose two extents are non-zero: the conversions divide by
      them. */
  type Area = r: Rect | r.width != 0.0 && r.height != 0.0 witness Rect(0.0, 0.0, 1.0, 1.0)

  /** A point in SVG user units. `SvgPoint::new` is the constructor and
      `x()`, `y()`, `svg_area()`, `screen_area()` are its destructors. */
  datatype SvgPoint = SvgPoint(x: real, y: real, svgArea: Area, screenArea: Area)
  {
    /** The point moved by (dx, dy), in the same space. */
    function Offset(dx: real, dy: real): (q: SvgPoint)
      ensures q.svgArea == svgArea && q.screenArea == screenArea
    {
      SvgPoint(x + dx, y + dy, svgArea, screenArea)
    }

    /** `From<SvgPoint> for ScreenPoint`: scale by the ratio of the screen
        rectangle's extent to the SVG rectangle's extent, then translate to
        the screen rectangle's origin. */
    function ToScreen(): (s: ScreenPoint)
      ensures s.svgArea == svgArea && s.screenArea == screenArea
    {
      ScreenPoint(x * screenArea.width / svgArea.width + screenArea.x,
                  y * screenArea.height / svgArea.height + screenArea.y,
                  svgArea, screenArea)
    }
  }

  /** A point in screen pixels, built like an `SvgPoint`. */
  datatype ScreenPoint = ScreenPoint(x: real, y: real, svgArea: Area, screenArea: Area)
  {
    /** The point moved by (dx, dy), in the same space. */
    function Offset(dx: real, dy: real): (q: ScreenPoint)
      ensures q.svgArea == svgArea && q.screenArea == screenArea
    {
      ScreenPoint(x + dx, y + dy, svgArea, screenArea)
    }

    /** `From<ScreenPoint> for SvgPoint`: remove the screen rectangle's
        origin, then scale by the ratio of the SVG extent to the screen
        extent. */
    function ToSvg(): (p: SvgPoint)
      ensures p.svgArea == svgArea && p.screenArea == screenArea
    {
      SvgPoint((x - screenArea.x) * (svgArea.width / screenArea.width),
               (y - screenArea.y) * (svgArea.height / screenArea.height),
               svgArea, screenArea)
    }
  }

  /** Constructing a point and reading it back gives the arguments. */
  lemma ConstructorsKeepArguments(x: real, y: real, svg: Area, screen: Area)
    ensures var p := SvgPoint(x, y, svg, screen);
      p.x == x && p.y == y && p.svgArea == svg && p.screenArea == screen
    ensures var q := ScreenPoint(x, y, svg, screen);
      q.x == x && q.y == y && q.svgArea == svg && q.screenArea == screen
  {
  }

  /** Offsetting moves each coordinate by its delta, keeps both rectangles,
      and two offsets compose into one. */
  lemma OffsetMovesBy(p: SvgPoint, q: ScreenPoint, dx: real, dy: real, ex: real, ey: real)
    ensures p.Offset(dx, dy).x == p.x + dx && p.Offset(dx, dy).y == p.y + dy
    ensures p.Offset(dx, dy).Offset(ex, ey) == p.Offset(dx + ex, dy + ey)
    ensures q.Offset(dx, dy).x == q.x + dx && q.Offset(dx, dy).y == q.y + dy
    ensures q.Offset(dx, dy).Offset(ex, ey) == q.Offset(dx + ex, dy + ey)
  {
  }

  /** Converting to the screen and back gives the original point. */
  lemma SvgScreenRoundTrip(p: SvgPoint)
    ensures p.ToScreen().ToSvg() == p
  {
    SvgCoordinateBack(p.x, p.screenArea.x, p.screenArea.width, p.svgArea.width);
    SvgCoordinateBack(p.y, p.screenArea.y, p.screenArea.height, p.svgArea.height);
  }

  /** Converting to SVG space and back gives the original point. */
  lemma ScreenSvgRoundTrip(q: ScreenPoint)
    ensures q.ToSvg().ToScreen() == q
  {
    ScreenCoordinateBack(q.x, q.screenArea.x, q.svgArea.width, q.screenArea.width);
    ScreenCoordinateBack(q.y, q.screenArea.y, q.svgArea.height, q.screenArea.height);
  }

  /** One coordinate taken to the screen (extent `sw`, origin `o`) and back. */
  lemma SvgCoordinateBack(x: real, o: real, sw: real, vw: real)
    requires sw != 0.0 && vw != 0.0
    ensures (x * sw / vw + o - o) * (vw / sw) == x
  {
    ScaleCancels(x, sw, vw);
    assert x * sw / vw + o - o == x * sw / vw;
  }

  /** One screen coordinate taken to SVG space and back. */
  lemma ScreenCoordinateBack(x: real, o: real, vw: real, sw: real)
    requires sw != 0.0 && vw != 0.0
    ensures (x - o) * (vw / sw) * sw / vw + o == x
  {
    ScaleCancels(x - o, vw, sw);
  }

  /** Scaling by a / b and then by b / a is the identity. */
  lemma ScaleCancels(v: real, a: real, b: real)
    requires a != 0.0 && b != 0.0
    ensures v * a / b * (b / a) == v
    ensures v * (a / b) * b / a == v
  {
    assert (a / b) * (b / a) == 1.0;
    assert v * a / b == v * (a / b);
    assert v * (a / b) * b == v * a;
  }

  /** The SVG rectangle's corners (0, 0) and (width, height) land on the
      screen rectangle's corners: together with OffsetScalesDelta this fixes
      the affine map. */
  lemma ToScreenMapsCorners(svg: Area, screen: Area)
    ensures SvgPoint(0.0, 0.0, svg, screen).ToScreen() == ScreenPoint(screen.x, screen.y, svg, screen)
    ensures SvgPoint(svg.width, svg.height, svg, screen).ToScreen()
         == ScreenPoint(screen.x + screen.width, screen.y + screen.height, svg, screen)
  {
    assert svg.width * screen.width / svg.width == screen.width;
    assert svg.height * screen.height / svg.height == screen.height;
  }

  /** The screen rectangle's corners map back to (0, 0) and (width, height)
      of the SVG rectangle. */
  lemma ToSvgMapsCorners(svg: Area, screen: Area)
    ensures ScreenPoint(screen.x, screen.y, svg, screen).ToSvg() == SvgPoint(0.0, 0.0, svg, screen)
    ensures ScreenPoint(screen.x + screen.width, screen.y + screen.height, svg, screen).ToSvg()
         == SvgPoint(svg.width, svg.height, svg, screen)
  {
    assert screen.width * (svg.width / screen.width) == svg.width;
    assert screen.height * (svg.height / screen.height) == svg.height;
  }

  /** Mapping an offset point is mapping the point and then offsetting by
      the delta scaled (not translated): a delta maps independently of the
      origin. */
  lemma OffsetScalesDelta(p: SvgPoint, dx: real, dy: real)
    ensures p.Offset(dx, dy).ToScreen()
         == p.ToScreen().Offset(dx * p.screenArea.width / p.svgArea.width,
                                dy * p.screenArea.height / p.svgArea.height)
  {
    var sw, vw := p.screenArea.width, p.svgArea.width;
    var sh, vh := p.screenArea.height, p.svgArea.height;
    assert (p.x + dx) * sw / vw == p.x * sw / vw + dx * sw / vw;
    assert (p.y + dy) * sh / vh == p.y * sh / vh + dy * sh / vh;
  }

  /** Only the extent of the SVG rectangle enters either conversion: an SVG
      rectangle with the same extent but another origin gives the same
      coordinates both ways. */
  lemma SvgOriginIgnored(x: real, y: real, svg: Area, moved: Area, screen: Area)
    requires moved.width == svg.width && moved.height == svg.height
    ensures var a, b := SvgPoint(x, y, svg, screen).ToScreen(), SvgPoint(x, y, moved, screen).ToScreen();
      a.x == b.x && a.y == b.y
    ensures var c, d := ScreenPoint(x, y, svg, screen).ToSvg(), ScreenPoint(x, y, moved, screen).ToSvg();
      c.x == d.x && c.y == d.y
  {
  }

  /** Converting is injective: distinct SVG points stay distinct on the
      screen. */
  lemma ToScreenInjective(p: SvgPoint, q: SvgPoint)
    requires p.ToScreen() == q.ToScreen()
    ensures p == q
  {
    SvgScreenRoundTrip(p);
    SvgScreenRoundTrip(q);
  }
}
