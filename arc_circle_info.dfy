/** GeometryAnalyzer and its ArcCircleInfo record: arc direction, I/J
    offsets and millimetre/inch conversion. The static, mutable UseMetric
    flag of the source is an explicit `useMetric` parameter here. */
module GeometryAnalyzer {
  import opened Geometry

  /** ArcCircleInfo: the unit-converted description of an arc or circle. */
  datatype ArcCircleInfo = ArcCircleInfo(start: Point, end: Point, center: Point,
                                         radius: real, clockwise: bool)

  /** The initial value of GeometryAnalyzer.UseMetric: millimetres. */
  const DefaultUseMetric: bool := true

  const MmPerInch: real := 25.4

  /** ConvertUnit: identity in millimetres, otherwise every coordinate is
      expressed in inches. */
  function ConvertUnit(pt: Point, useMetric: bool): (r: Point)
    ensures useMetric ==> r == pt
    ensures !useMetric ==> r.x * MmPerInch == pt.x && r.y * MmPerInch == pt.y
                           && r.z * MmPerInch == pt.z
  {
    if useMetric then pt else Point(pt.x / MmPerInch, pt.y / MmPerInch, pt.z / MmPerInch)
  }

  /** The z-component of (start - center) x (end - center) that decides the
      direction. */
  function TurnZ(start: Point, end: Point, center: Point): real
  {
    Cross(Minus(start, center), Minus(end, center)).z
  }

  /** GetArcCommand: "G2" (clockwise seen from +Z) when the turn from the
      start radius to the end radius is negative, "G3" otherwise, including
      the degenerate zero turn. */
  function GetArcCommand(start: Point, end: Point, center: Point): (cmd: string)
    ensures cmd == "G2" || cmd == "G3"
    ensures cmd == "G2" <==> TurnZ(start, end, center) < 0.0
  {
    if TurnZ(start, end, center) < 0.0 then "G2" else "G3"
  }

  /** GetIJ: the offset from the start point to the centre, each end
      converted to the current unit first. */
  function GetIJ(start: Point, center: Point, useMetric: bool): (ij: XY)
    ensures useMetric ==> ij == XY(center.x - start.x, center.y - start.y)
    ensures !useMetric ==> ij.x * MmPerInch == center.x - start.x
                           && ij.y * MmPerInch == center.y - start.y
  {
    var s := ConvertUnit(start, useMetric);
    var c := ConvertUnit(center, useMetric);
    XY(c.x - s.x, c.y - s.y)
  }

  /** FromArcCurve: nothing for an invalid arc curve; otherwise the
      converted end points and centre, the converted radius, and a
      direction read from ((start - center) x (end - start)) . normal > 0. */
  function FromArcCurve(arcCurve: Curve, useMetric: bool): (r: Option<ArcCircleInfo>)
    requires arcCurve.kind.ArcCurve?
    ensures r.None? <==> !arcCurve.isValid || !arcCurve.kind.arc.isValid
    ensures r.Some? ==>
      var a := arcCurve.kind.arc;
      && r.value.start == ConvertUnit(a.startPoint, useMetric)
      && r.value.end == ConvertUnit(a.endPoint, useMetric)
      && r.value.center == ConvertUnit(a.center, useMetric)
      && r.value.radius * (if useMetric then 1.0 else MmPerInch) == a.radius
      && (r.value.clockwise <==>
            Dot(Cross(Minus(a.startPoint, a.center), Minus(a.endPoint, a.startPoint)),
                a.normal) > 0.0)
  {
    var a := arcCurve.kind.arc;
    if !arcCurve.isValid || !a.isValid then None
    else
      var radius := if useMetric then a.radius else a.radius / MmPerInch;
      var v1 := Minus(a.startPoint, a.center);
      var v2 := Minus(a.endPoint, a.startPoint);
      var clockwise := Dot(Cross(v1, v2), a.normal) > 0.0;
      Some(ArcCircleInfo(ConvertUnit(a.startPoint, useMetric), ConvertUnit(a.endPoint, useMetric),
                         ConvertUnit(a.center, useMetric), radius, clockwise))
  }

  /** FromCircle: a full turn that starts and ends at the point at angle pi,
      always clockwise, with converted points and radius. */
  function FromCircle(circle: Circle, useMetric: bool): (info: ArcCircleInfo)
    ensures info.start == info.end == ConvertUnit(PointAtPi(circle), useMetric)
    ensures info.center == ConvertUnit(circle.center, useMetric)
    ensures info.radius * (if useMetric then 1.0 else MmPerInch) == circle.radius
    ensures info.clockwise
  {
    var start := PointAtPi(circle);
    var radius := if useMetric then circle.radius else circle.radius / MmPerInch;
    ArcCircleInfo(ConvertUnit(start, useMetric), ConvertUnit(start, useMetric),
                  ConvertUnit(circle.center, useMetric), radius, true)
  }

  /** Reversing an arc reverses its command whenever the turn is not zero;
      a zero turn (start == end, or a straight line through the centre)
      gives "G3" both ways. */
  lemma SwapReversesCommand(start: Point, end: Point, center: Point)
    ensures TurnZ(end, start, center) == -TurnZ(start, end, center)
    ensures TurnZ(start, end, center) != 0.0 ==>
              GetArcCommand(end, start, center) != GetArcCommand(start, end, center)
    ensures TurnZ(start, end, center) == 0.0 ==>
              GetArcCommand(end, start, center) == GetArcCommand(start, end, center) == "G3"
  {
    var u, v := Minus(start, center), Minus(end, center);
    assert TurnZ(start, end, center) == u.x * v.y - u.y * v.x;
    assert TurnZ(end, start, center) == v.x * u.y - v.y * u.x;
  }

  /** A full circle's I/J is the radius along the circle's X axis: the
      centre lies r along +X from the start point at angle pi. */
  lemma CircleIJ(circle: Circle, useMetric: bool)
    ensures useMetric ==>
      GetIJ(PointAtPi(circle), circle.center, useMetric)
        == XY(circle.xAxis.x * circle.radius, circle.xAxis.y * circle.radius)
  {
  }

  /** Switching the machine to inches divides every I/J offset by 25.4:
      the fixed 25.4 ratio between the two unit modes. */
  lemma InchOffsetsScale(start: Point, center: Point)
    ensures GetIJ(start, center, false).x * MmPerInch == GetIJ(start, center, true).x
    ensures GetIJ(start, center, false).y * MmPerInch == GetIJ(start, center, true).y
  {
  }
}
