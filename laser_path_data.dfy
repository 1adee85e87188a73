/** LaserPathData: one curve to be cut, with its laser settings, and the
    classification of the curve computed once by the constructor. */
module LaserPaths {
  import opened Geometry
  import Text

  /** CurveType. */
  datatype CurveType = Line | Arc | Circle | Polyline | Nurbs | Unknown

  /** What AnalyzeCurve derives from a curve: the curve type, the direction,
      the start and end points and the centre. */
  datatype Analysis = Analysis(curveType: CurveType, isClockwise: bool,
                               startPoint: Point, endPoint: Point, center: Option<Point>)

  /** The derived properties before AnalyzeCurve runs: Unknown, not
      clockwise, both points at the default Point3d (the origin), no
      centre. */
  const Unanalyzed := Analysis(Unknown, false, Origin, Origin, None)

  /** A curve is usable when it is present and valid. */
  predicate Usable(curve: Option<Curve>)
  {
    curve.Some? && curve.value.isValid
  }

  /** The curve is an ArcCurve whose arc is valid. */
  predicate IsValidArc(c: Curve)
  {
    c.kind.ArcCurve? && c.isValid && c.kind.arc.isValid
  }

  /** The direction AnalyzeCurve records for an arc:
      ((center - start) x (end - start)).z < 0. */
  predicate ArcIsClockwise(a: Geometry.Arc)
  {
    Cross(Minus(a.center, a.startPoint), Minus(a.endPoint, a.startPoint)).z < 0.0
  }

  /** AnalyzeCurve as a function of the curve: first match in the order
      line, valid arc, circle, polyline, NURBS; anything else is Unknown. */
  function Analyze(curve: Option<Curve>): (r: Analysis)
    ensures !Usable(curve) ==> r == Unanalyzed
    ensures r.center.Some? <==> r.curveType == CurveType.Arc || r.curveType == CurveType.Circle
    ensures r.isClockwise ==> r.curveType == CurveType.Arc || r.curveType == CurveType.Circle
    ensures r.curveType == CurveType.Circle ==> r.isClockwise && r.startPoint == r.endPoint
  {
    if !Usable(curve) then Unanalyzed
    else
      var c := curve.value;
      if c.kind.LineCurve? then Analysis(Line, false, c.pointAtStart, c.pointAtEnd, None)
      else if IsValidArc(c) then
        var a := c.kind.arc;
        Analysis(CurveType.Arc, ArcIsClockwise(a), c.pointAtStart, c.pointAtEnd, Some(a.center))
      else if c.circle.Some? then
        var p := PointAtPi(c.circle.value);
        Analysis(CurveType.Circle, true, p, p, Some(c.circle.value.center))
      else if c.kind.PolylineCurve? then Analysis(Polyline, false, c.pointAtStart, c.pointAtEnd, None)
      else if c.kind.NurbsCurve? then Analysis(Nurbs, false, c.pointAtStart, c.pointAtEnd, None)
      else Analysis(Unknown, false, c.pointAtStart, c.pointAtEnd, None)
  }

  /** The classification is the first match of the order line, valid arc,
      circle, polyline, NURBS, for a usable curve. */
  lemma ClassificationOrder(curve: Option<Curve>)
    ensures Analyze(curve).curveType == Line <==> Usable(curve) && curve.value.kind.LineCurve?
    ensures Analyze(curve).curveType == CurveType.Arc <==> Usable(curve) && IsValidArc(curve.value)
    ensures Analyze(curve).curveType == CurveType.Circle <==>
              Usable(curve) && !curve.value.kind.LineCurve? && !IsValidArc(curve.value)
              && curve.value.circle.Some?
    ensures Analyze(curve).curveType == Polyline <==>
              Usable(curve) && curve.value.kind.PolylineCurve? && curve.value.circle.None?
    ensures Analyze(curve).curveType == Nurbs <==>
              Usable(curve) && curve.value.kind.NurbsCurve? && curve.value.circle.None?
  {
  }

  /** Start and end points are the curve's own end points except for a
      circle, where both are the point at angle pi; the centre is the
      arc's or the circle's; an arc is clockwise exactly when the turn from
      the centre direction to the chord is negative. */
  lemma AnalysisPoints(curve: Option<Curve>)
    requires Usable(curve)
    ensures var r := Analyze(curve);
            && (r.curveType != CurveType.Circle ==>
                  r.startPoint == curve.value.pointAtStart && r.endPoint == curve.value.pointAtEnd)
            && (r.curveType == CurveType.Circle ==>
                  r.startPoint == PointAtPi(curve.value.circle.value)
                  && r.center == Some(curve.value.circle.value.center))
            && (r.curveType == CurveType.Arc ==>
                  r.center == Some(curve.value.kind.arc.center)
                  && (r.isClockwise <==> ArcIsClockwise(curve.value.kind.arc)))
  {
  }

  /** The laser settings and the analysis of one path, as a value. */
  datatype PathRecord = PathRecord(curve: Option<Curve>, intensite: real, vitesse: real,
                                   calque: string, z: Option<real>, isLaserOn: bool,
                                   analysis: Analysis)

  class LaserPathData {
    var curve: Option<Curve>
    var intensite: real
    var vitesse: real
    var calque: string
    var z: Option<real>
    var isLaserOn: bool

    var curveType: CurveType
    var isClockwise: bool
    var startPoint: Point
    var endPoint: Point
    var center: Option<Point>

    /** The derived properties as they stand. */
    function CurrentAnalysis(): Analysis
      reads this
    {
      Analysis(curveType, isClockwise, startPoint, endPoint, center)
    }

    /** Everything the other components read of this path. */
    function Record(): PathRecord
      reads this
    {
      PathRecord(curve, intensite, vitesse, calque, z, isLaserOn, CurrentAnalysis())
    }

    /** The constructor stores its arguments in order and analyses the
        curve; callers that omit them pass z = None and isLaserOn = true. */
    constructor (curve: Option<Curve>, intensite: real, vitesse: real, calque: string,
                 z: Option<real>, isLaserOn: bool)
      ensures Record() == PathRecord(curve, intensite, vitesse, calque, z, isLaserOn, Analyze(curve))
    {
      this.curve := curve;
      this.intensite := intensite;
      this.vitesse := vitesse;
      this.calque := calque;
      this.z := z;
      this.isLaserOn := isLaserOn;
      curveType := Unknown;
      isClockwise := false;
      startPoint := Origin;
      endPoint := Origin;
      center := None;
      new;
      AnalyzeCurve();
    }

    /** AnalyzeCurve: run on a freshly initialised object, it sets the
        derived properties to the analysis of the stored curve and leaves
        them at their defaults when the curve is missing or invalid. */
    method AnalyzeCurve()
      modifies this
      requires CurrentAnalysis() == Unanalyzed
      ensures CurrentAnalysis() == Analyze(curve)
      ensures curve == old(curve) && intensite == old(intensite) && vitesse == old(vitesse)
      ensures calque == old(calque) && z == old(z) && isLaserOn == old(isLaserOn)
    {
      if curve.None? || !curve.value.isValid {
        return;
      }
      var c := curve.value;
      startPoint := c.pointAtStart;
      endPoint := c.pointAtEnd;
      if c.kind.LineCurve? {
        curveType := Line;
      } else if c.kind.ArcCurve? && c.isValid && c.kind.arc.isValid {
        var a := c.kind.arc;
        curveType := CurveType.Arc;
        center := Some(a.center);
        var startToCenter := Minus(a.center, a.startPoint);
        var startToEnd := Minus(a.endPoint, a.startPoint);
        isClockwise := Cross(startToCenter, startToEnd).z < 0.0;
      } else if c.circle.Some? {
        var circle := c.circle.value;
        curveType := CurveType.Circle;
        center := Some(circle.center);
        startPoint := PointAtPi(circle);
        endPoint := startPoint;
        isClockwise := true;
      } else if c.kind.PolylineCurve? {
        curveType := Polyline;
      } else if c.kind.NurbsCurve? {
        curveType := Nurbs;
      }
    }

    /** GroupKey: $"{Intensite}_{Vitesse}_{Calque}", the numbers in the
        current culture. */
    function GroupKey(fmt: Formatter): string
      reads this
    {
      Key(intensite, vitesse, calque, fmt)
    }
  }

  /** The records of a list of paths, None standing for a null entry. */
  function Records(paths: seq<LaserPathData?>): seq<Option<PathRecord>>
    reads paths
  {
    seq(|paths|, i requires 0 <= i < |paths| reads paths =>
      if paths[i] == null then None else Some(paths[i].Record()))
  }

  /** The text of a group key. */
  function Key(intensite: real, vitesse: real, calque: string, fmt: Formatter): string
  {
    fmt.currentCulture(intensite) + "_" + fmt.currentCulture(vitesse) + "_" + calque
  }

  /** Two group keys agree exactly when the printed intensities, the printed
      speeds and the layers agree, as long as the printed numbers contain
      no underscore (the layer may). */
  lemma KeySeparates(i1: real, v1: real, l1: string, i2: real, v2: real, l2: string,
                     fmt: Formatter)
    requires '_' !in fmt.currentCulture(i1) && '_' !in fmt.currentCulture(v1)
    requires '_' !in fmt.currentCulture(i2) && '_' !in fmt.currentCulture(v2)
    ensures Key(i1, v1, l1, fmt) == Key(i2, v2, l2, fmt) <==>
              fmt.currentCulture(i1) == fmt.currentCulture(i2)
              && fmt.currentCulture(v1) == fmt.currentCulture(v2) && l1 == l2
  {
    var a1, b1 := fmt.currentCulture(i1), fmt.currentCulture(v1);
    var a2, b2 := fmt.currentCulture(i2), fmt.currentCulture(v2);
    if Key(i1, v1, l1, fmt) == Key(i2, v2, l2, fmt) {
      assert Key(i1, v1, l1, fmt) == a1 + "_" + (b1 + "_" + l1);
      assert Key(i2, v2, l2, fmt) == a2 + "_" + (b2 + "_" + l2);
      Text.SplitAtSeparator(a1, b1 + "_" + l1, a2, b2 + "_" + l2, '_');
      Text.SplitAtSeparator(b1, l1, b2, l2, '_');
    }
  }
}
