/** The arc direction is decided in four places, with different operand
    orders and thresholds. These lemmas relate them to the one the exporter
    prints, GeometryAnalyzer.GetArcCommand ("G2" when the turn
    ((start - center) x (end - center)).z is negative). */
module DirectionConventions {
  import opened Geometry
  import GeometryAnalyzer
  import ArcUtilities
  import GeometryToGCodeHelper
  import LaserPaths

  /** ArcUtilities.GetArcCommand and GeometryAnalyzer.GetArcCommand always
      agree: the two cross products have the same z-component. */
  lemma UtilitiesAgreeWithAnalyzer(start: Point, end: Point, center: Point)
    ensures ArcUtilities.GetArcCommand(start, end, center)
              == GeometryAnalyzer.GetArcCommand(start, end, center)
  {
    CrossShift(start, end, center);
  }

  /** For an arc whose plane normal is +Z, GeometryToGCodeHelper prints the
      other code than GeometryAnalyzer, for every arc, including the
      degenerate zero turn. */
  lemma HelperOpposesAnalyzer(a: Arc)
    requires a.normal == UnitZ
    ensures GeometryToGCodeHelper.HelperArcCommand(a)
              != GeometryAnalyzer.GetArcCommand(a.startPoint, a.endPoint, a.center)
  {
    CrossShift(a.startPoint, a.endPoint, a.center);
  }

  /** For an arc whose plane normal is -Z the helper and GeometryAnalyzer
      agree except on a zero turn, where the helper prints "G2" and
      GeometryAnalyzer "G3". */
  lemma HelperAgreesBelow(a: Arc)
    requires a.normal == Neg(UnitZ)
    ensures GeometryAnalyzer.TurnZ(a.startPoint, a.endPoint, a.center) != 0.0 ==>
              GeometryToGCodeHelper.HelperArcCommand(a)
                == GeometryAnalyzer.GetArcCommand(a.startPoint, a.endPoint, a.center)
    ensures GeometryAnalyzer.TurnZ(a.startPoint, a.endPoint, a.center) == 0.0 ==>
              GeometryToGCodeHelper.HelperArcCommand(a) == "G2"
              && GeometryAnalyzer.GetArcCommand(a.startPoint, a.endPoint, a.center) == "G3"
  {
    CrossShift(a.startPoint, a.endPoint, a.center);
  }

  /** LaserPathData's IsClockwise for an arc is a positive turn, so the
      exporter prints "G3" for every arc LaserPathData calls clockwise;
      conversely a "G3" arc with a non-zero turn is called clockwise. */
  lemma ClockwiseMeansG3(a: Arc)
    ensures LaserPaths.ArcIsClockwise(a) <==>
              GeometryAnalyzer.TurnZ(a.startPoint, a.endPoint, a.center) > 0.0
    ensures LaserPaths.ArcIsClockwise(a) ==>
              GeometryAnalyzer.GetArcCommand(a.startPoint, a.endPoint, a.center) == "G3"
    ensures GeometryAnalyzer.TurnZ(a.startPoint, a.endPoint, a.center) != 0.0
            && GeometryAnalyzer.GetArcCommand(a.startPoint, a.endPoint, a.center) == "G3"
            ==> LaserPaths.ArcIsClockwise(a)
  {
    var s, e, c := a.startPoint, a.endPoint, a.center;
    CrossShift(s, e, c);
    var u, v := Minus(s, c), Minus(e, s);
    assert Cross(Minus(c, s), v).z == (-u.x) * v.y - (-u.y) * v.x;
    assert Cross(Minus(c, s), v).z == -Cross(u, v).z;
  }

  /** The converse needs the non-zero turn: an arc whose end is its start
      is not clockwise for LaserPathData, and GeometryAnalyzer still prints
      "G3" for it. */
  lemma ZeroTurnIsNotClockwise()
    ensures var a := Arc(true, Point(1.0, 0.0, 0.0), Point(1.0, 0.0, 0.0), Origin, 1.0, UnitZ);
            && !LaserPaths.ArcIsClockwise(a)
            && GeometryAnalyzer.GetArcCommand(a.startPoint, a.endPoint, a.center) == "G3"
  {
  }

  /** GeometryAnalyzer.FromArcCurve and LaserPathData agree on the direction
      of an arc whose plane normal is +Z: both call it clockwise exactly
      when GeometryAnalyzer's turn is positive, that is when "G3" is
      printed for a non-degenerate arc. */
  lemma FromArcCurveAgreesWithLaserPath(arcCurve: Curve, useMetric: bool)
    requires arcCurve.kind.ArcCurve? && arcCurve.isValid && arcCurve.kind.arc.isValid
    requires arcCurve.kind.arc.normal == UnitZ
    ensures var info := GeometryAnalyzer.FromArcCurve(arcCurve, useMetric);
            && info.Some?
            && (info.value.clockwise <==> LaserPaths.ArcIsClockwise(arcCurve.kind.arc))
  {
    ClockwiseMeansG3(arcCurve.kind.arc);
  }

  /** The centre TryGetArcCenter returns for clockwise = true, with a chord
      shorter than the diameter, makes both GetArcCommand functions print
      "G3" (counter-clockwise) for the move from origin to end. */
  lemma ClockwiseCentreGivesG3(origin: Point, end: Point, radius: real, sqrt: real -> real)
    requires IsSqrt(sqrt)
    requires 0.0 < ArcUtilities.SqDistXY(end, origin)
    requires ArcUtilities.Chord(origin, end, sqrt) < 2.0 * radius
    ensures var c := ArcUtilities.TryGetArcCenter(origin, end, radius, true, sqrt);
            && c.Some?
            && GeometryAnalyzer.GetArcCommand(origin, end, c.value) == "G3"
            && ArcUtilities.GetArcCommand(origin, end, c.value) == "G3"
  {
    ArcUtilities.CenterSide(origin, end, radius, true, sqrt);
    var c := ArcUtilities.TryGetArcCenter(origin, end, radius, true, sqrt);
    UtilitiesAgreeWithAnalyzer(origin, end, c.value);
  }

  /** The helper prints I/J as the centre-to-start vector, the negation of
      the start-to-centre offset of ArcUtilities.GetIJ and of
      GeometryAnalyzer.GetIJ in millimetres. */
  lemma HelperOffsetIsNegated(start: Point, center: Point)
    ensures Minus(start, center).x == -ArcUtilities.GetIJ(start, center).x
    ensures Minus(start, center).y == -ArcUtilities.GetIJ(start, center).y
    ensures Minus(start, center).x == -GeometryAnalyzer.GetIJ(start, center, true).x
    ensures Minus(start, center).y == -GeometryAnalyzer.GetIJ(start, center, true).y
  {
  }
}
