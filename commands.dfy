/** The already-parsed path data the painter consumes: one command of the
    `d` attribute (SVG 1.1, section 8.3) with its position mode and its
    numeric parameters. */
module Commands {

  datatype Position = Absolute | Relative

  datatype Command =
    | Move(position: Position, params: seq<real>)
    | Line(position: Position, params: seq<real>)
    | HorizontalLine(position: Position, params: seq<real>)
    | VerticalLine(position: Position, params: seq<real>)
    | QuadraticCurve(position: Position, params: seq<real>)
    | SmoothQuadraticCurve(position: Position, params: seq<real>)
    | CubicCurve(position: Position, params: seq<real>)
    | SmoothCubicCurve(position: Position, params: seq<real>)
    | EllipticalArc(position: Position, params: seq<real>)
    | Close

  /** The commands the painter only observes: they draw nothing. */
  predicate Unsupported(c: Command)
  {
    c.QuadraticCurve? || c.SmoothQuadraticCurve? || c.SmoothCubicCurve? || c.EllipticalArc?
  }
}
