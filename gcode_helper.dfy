/** GeometryToGCodeHelper: stand-alone emitters that turn one arc or one
    circle into a small G-code block, with the laser optionally switched on
    around the cutting move. The StringBuilder is modelled as the sequence
    of lines it receives through AppendLine. */
module GeometryToGCodeHelper {
  import opened Geometry
  import GCodeText

  /** The direction this helper prints: "G2" when
      ((start - center) x (end - start)) . normal is non-negative. */
  function HelperArcCommand(a: Arc): (cmd: string)
    ensures cmd == "G2" || cmd == "G3"
    ensures cmd == "G2" <==>
              Dot(Cross(Minus(a.startPoint, a.center), Minus(a.endPoint, a.startPoint)), a.normal) >= 0.0
  {
    var direction := Dot(Cross(Minus(a.startPoint, a.center), Minus(a.endPoint, a.startPoint)), a.normal);
    if direction >= 0.0 then "G2" else "G3"
  }

  /** The laser-on line: $"M3 S{power:0.#}". */
  function LaserOnLine(power: real, fmt: Formatter): string
  {
    "M3 S" + fmt.oneDecimal(power)
  }

  /** The block both emitters produce: a rapid move to the start, the
      laser switched on when asked, the arc move, the laser switched off
      when asked. */
  function Block(start: Point, cut: string, power: real, laserOn: bool, fmt: Formatter): seq<string>
  {
    [GCodeText.RapidLine(start.x, start.y, fmt)]
    + (if laserOn then [LaserOnLine(power, fmt)] else [])
    + [cut]
    + (if laserOn then ["M5"] else [])
  }

  /** The shape of a block: two lines without the laser, four with it;
      the rapid move first, the cut right after the laser-on line, "M5"
      last; the laser-on line appears iff the laser is used. */
  lemma BlockShape(start: Point, cut: string, power: real, laserOn: bool, fmt: Formatter)
    ensures var b := Block(start, cut, power, laserOn, fmt);
            && |b| == (if laserOn then 4 else 2)
            && b[0] == GCodeText.RapidLine(start.x, start.y, fmt)
            && (laserOn ==> b[1] == LaserOnLine(power, fmt) && b[2] == cut && b[3] == "M5")
            && (!laserOn ==> b[1] == cut)
  {
  }

  /** ExportArcToGCode: "; Invalid arc" and no points for an invalid arc;
      otherwise the block to the arc's end, with I/J the vector from the
      centre to the start, and the start and end points. */
  method ExportArcToGCode(arc: Curve, feedRate: real, power: real, laserOn: bool, fmt: Formatter)
    returns (text: seq<string>, points: seq<Point>)
    requires arc.kind.ArcCurve?
    ensures !arc.isValid || !arc.kind.arc.isValid ==> text == ["; Invalid arc"] && points == []
    ensures arc.isValid && arc.kind.arc.isValid ==>
      var a := arc.kind.arc;
      var ij := Minus(a.startPoint, a.center);
      && text == Block(a.startPoint,
                       GCodeText.ArcLine(HelperArcCommand(a), a.endPoint.x, a.endPoint.y,
                                         ij.x, ij.y, feedRate, fmt),
                       power, laserOn, fmt)
      && points == [a.startPoint, a.endPoint]
  {
    points := [];
    if !arc.isValid || !arc.kind.arc.isValid {
      return ["; Invalid arc"], points;
    }
    var a := arc.kind.arc;
    var start, end, center := a.startPoint, a.endPoint, a.center;
    var centerToStart := Minus(start, center);
    var startToEnd := Minus(end, start);
    var direction := Dot(Cross(centerToStart, startToEnd), a.normal);
    var gCommand := if direction >= 0.0 then "G2" else "G3";
    text := [];
    text := text + [GCodeText.RapidLine(start.x, start.y, fmt)];
    if laserOn {
      text := text + [LaserOnLine(power, fmt)];
    }
    text := text + [GCodeText.ArcLine(gCommand, end.x, end.y, centerToStart.x, centerToStart.y,
                                      feedRate, fmt)];
    if laserOn {
      text := text + ["M5"];
    }
    points := points + [start];
    points := points + [end];
  }

  /** ExportCircleToGCode: "; Invalid circle" and no points for an invalid
      circle; otherwise a full "G2" turn from the point at angle pi back to
      itself, with I/J the vector from the centre to that point, and that
      point twice. */
  method ExportCircleToGCode(circle: Circle, feedRate: real, power: real, laserOn: bool,
                             fmt: Formatter)
    returns (text: seq<string>, points: seq<Point>)
    ensures !circle.isValid ==> text == ["; Invalid circle"] && points == []
    ensures circle.isValid ==>
      var start := PointAtPi(circle);
      var ij := Minus(start, circle.center);
      && text == Block(start, GCodeText.ArcLine("G2", start.x, start.y, ij.x, ij.y, feedRate, fmt),
                       power, laserOn, fmt)
      && points == [start, start]
  {
    points := [];
    if !circle.isValid {
      return ["; Invalid circle"], points;
    }
    var start := PointAtPi(circle);
    var end := start;
    var center := circle.center;
    var centerToStart := Minus(start, center);
    text := [];
    text := text + [GCodeText.RapidLine(start.x, start.y, fmt)];
    if laserOn {
      text := text + [LaserOnLine(power, fmt)];
    }
    text := text + [GCodeText.ArcLine("G2", end.x, end.y, centerToStart.x, centerToStart.y,
                                      feedRate, fmt)];
    if laserOn {
      text := text + ["M5"];
    }
    points := points + [start];
    points := points + [end];
  }

  /** The circle's I/J printed by ExportCircleToGCode is minus the radius
      along the circle's X axis: the point of the start seen from the
      centre, not the centre seen from the start. */
  lemma CircleOffsetPointsAway(circle: Circle)
    ensures var ij := Minus(PointAtPi(circle), circle.center);
            ij.x == -(circle.xAxis.x * circle.radius) && ij.y == -(circle.xAxis.y * circle.radius)
  {
  }
}
