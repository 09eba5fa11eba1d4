/** Planar outlines as lists of path commands, and the path builder the flower
    code draws them with (the scene library's `Shape`, reduced to the calls
    the flower code makes and the command list they leave behind). */
module Paths {
  import opened Types

  datatype Point = Point(x: real, y: real)

  const Origin := Point(0.0, 0.0)

  /** One drawing command. Ellipse angles are fractions of a full turn; an
      ellipse's centre is given relative to the pen, as the builder takes it. */
  datatype PathCmd =
    | MoveTo(p: Point)
    | LineTo(p: Point)
    | QuadraticCurveTo(c: Point, p: Point)
    | BezierCurveTo(c1: Point, c2: Point, p: Point)
    | Ellipse(offset: Point, rx: real, ry: real, startTurn: real, endTurn: real,
              clockwise: bool, rotationTurn: real)
    | ClosePath

  /** Reflection in the growth (y) axis. */
  function MirrorX(p: Point): Point
  {
    Point(-p.x, p.y)
  }

  /** Where the pen rests after `cmds`, starting with the pen at `pen` in a
      sub-path begun at `start`. An ellipse ends at a point on its arc that
      only trigonometry tells, so a path with an ellipse has no known end. */
  function EndPoint(cmds: seq<PathCmd>, pen: Point, start: Point): Option<Point>
    decreases |cmds|
  {
    if cmds == [] then Some(pen)
    else
      match cmds[0]
      case MoveTo(p) => EndPoint(cmds[1..], p, p)
      case LineTo(p) => EndPoint(cmds[1..], p, start)
      case QuadraticCurveTo(_, p) => EndPoint(cmds[1..], p, start)
      case BezierCurveTo(_, _, p) => EndPoint(cmds[1..], p, start)
      case Ellipse(_, _, _, _, _, _, _) => None
      case ClosePath => EndPoint(cmds[1..], start, start)
  }

  /** The pen position after the whole path, drawn from the origin. */
  function PathEnd(cmds: seq<PathCmd>): Option<Point>
  {
    EndPoint(cmds, Origin, Origin)
  }

  /** `back`, drawn from the end of `out`, retraces `out` backwards reflected in
      the growth axis, so that the pair is a lobe symmetric about that axis
      which starts and ends at `from`. Both ends must lie on the axis. */
  predicate MirrorsBack(from: Point, out: PathCmd, back: PathCmd)
  {
    from.x == 0.0 &&
    match out
    case QuadraticCurveTo(c, p) =>
      p.x == 0.0 && back == QuadraticCurveTo(MirrorX(c), from)
    case BezierCurveTo(c1, c2, p) =>
      p.x == 0.0 && back == BezierCurveTo(MirrorX(c2), MirrorX(c1), from)
    case _ => false
  }

  /** `cmds` is a polygon: a move, then straight edges, then a close. */
  predicate IsClosedPolygon(cmds: seq<PathCmd>)
  {
    |cmds| >= 2 && cmds[0].MoveTo? && cmds[|cmds| - 1].ClosePath? &&
    forall i :: 1 <= i < |cmds| - 1 ==> cmds[i].LineTo?
  }

  /** The vertex of a polygon path that command `i` places. */
  function Vertex(cmds: seq<PathCmd>, i: nat): Point
    requires IsClosedPolygon(cmds) && i < |cmds| - 1
  {
    cmds[i].p
  }

  /** The absolute centre of the ellipse drawn by command `i`: its offset is
      taken from where the pen stands when the command is drawn. */
  function EllipseCentre(cmds: seq<PathCmd>, i: nat): Option<Point>
    requires i < |cmds| && cmds[i].Ellipse?
  {
    match EndPoint(cmds[..i], Origin, Origin)
    case None => None
    case Some(pen) => Some(Point(pen.x + cmds[i].offset.x, pen.y + cmds[i].offset.y))
  }

  /** A polygon path symmetric about the growth axis: its first vertex lies on
      the axis and the k-th vertex from either end are mirror images. */
  predicate SymmetricPolygon(cmds: seq<PathCmd>)
    requires IsClosedPolygon(cmds)
  {
    Vertex(cmds, 0).x == 0.0 &&
    forall i :: 1 <= i < |cmds| - 1 ==> Vertex(cmds, |cmds| - 1 - i) == MirrorX(Vertex(cmds, i))
  }

  /** The path builder: an ordered list of commands, extended one call at a time. */
  class Shape {
    var commands: seq<PathCmd>

    constructor ()
      ensures commands == []
    {
      commands := [];
    }

    method MoveTo(x: real, y: real)
      modifies this
      ensures commands == old(commands) + [PathCmd.MoveTo(Point(x, y))]
    {
      commands := commands + [PathCmd.MoveTo(Point(x, y))];
    }

    method LineTo(x: real, y: real)
      modifies this
      ensures commands == old(commands) + [PathCmd.LineTo(Point(x, y))]
    {
      commands := commands + [PathCmd.LineTo(Point(x, y))];
    }

    method QuadraticCurveTo(cx: real, cy: real, x: real, y: real)
      modifies this
      ensures commands == old(commands) + [PathCmd.QuadraticCurveTo(Point(cx, cy), Point(x, y))]
    {
      commands := commands + [PathCmd.QuadraticCurveTo(Point(cx, cy), Point(x, y))];
    }

    method BezierCurveTo(c1x: real, c1y: real, c2x: real, c2y: real, x: real, y: real)
      modifies this
      ensures commands == old(commands) +
                [PathCmd.BezierCurveTo(Point(c1x, c1y), Point(c2x, c2y), Point(x, y))]
    {
      commands := commands + [PathCmd.BezierCurveTo(Point(c1x, c1y), Point(c2x, c2y), Point(x, y))];
    }

    method Ellipse(x: real, y: real, rx: real, ry: real, startTurn: real, endTurn: real,
                   clockwise: bool, rotationTurn: real)
      modifies this
      ensures commands == old(commands) +
                [PathCmd.Ellipse(Point(x, y), rx, ry, startTurn, endTurn, clockwise, rotationTurn)]
    {
      commands := commands + [PathCmd.Ellipse(Point(x, y), rx, ry, startTurn, endTurn, clockwise, rotationTurn)];
    }

    method ClosePath()
      modifies this
      ensures commands == old(commands) + [PathCmd.ClosePath]
    {
      commands := commands + [PathCmd.ClosePath];
    }
  }
}
