/** The slice of Rhino's geometry that the toolpath components use.
    Coordinates are exact reals. Everything Rhino computes by its own
    algorithms (curve classification, circle fitting, simplification,
    sampling, bounding boxes, lengths) is carried by a curve as an oracle
    field, and Math.Sqrt is a parameter. */
module Geometry {

  datatype Option<T> = None | Some(value: T)

  /** Point3d. */
  datatype Point = Point(x: real, y: real, z: real)

  /** Vector3d. */
  datatype Vec = Vec(x: real, y: real, z: real)

  /** Point2d / Vector2d. */
  datatype XY = XY(x: real, y: real)

  const Origin := Point(0.0, 0.0, 0.0)
  const UnitZ := Vec(0.0, 0.0, 1.0)

  /** Point3d - Point3d. */
  function Minus(a: Point, b: Point): Vec
  {
    Vec(a.x - b.x, a.y - b.y, a.z - b.z)
  }

  function Plus(p: Point, v: Vec): Point
  {
    Point(p.x + v.x, p.y + v.y, p.z + v.z)
  }

  function Scale(v: Vec, k: real): Vec
  {
    Vec(v.x * k, v.y * k, v.z * k)
  }

  function Neg(v: Vec): Vec
  {
    Vec(-v.x, -v.y, -v.z)
  }

  /** Vector3d.CrossProduct. */
  function Cross(u: Vec, v: Vec): Vec
  {
    Vec(u.y * v.z - u.z * v.y, u.z * v.x - u.x * v.z, u.x * v.y - u.y * v.x)
  }

  /** Vector3d * Vector3d (the dot product). */
  function Dot(u: Vec, v: Vec): real
  {
    u.x * v.x + u.y * v.y + u.z * v.z
  }

  function SqNorm(v: Vec): real
  {
    Dot(v, v)
  }

  /** Swapping the operands of a cross product negates it. */
  lemma CrossAntisymmetric(u: Vec, v: Vec)
    ensures Cross(v, u) == Neg(Cross(u, v))
  {
  }

  /** The z-component of (s - c) x (e - c) equals that of (s - c) x (e - s):
      the two operand orders used for arc direction agree exactly. */
  lemma CrossShift(s: Point, e: Point, c: Point)
    ensures Cross(Minus(s, c), Minus(e, c)) == Cross(Minus(s, c), Minus(e, s))
  {
  }

  /** What Math.Sqrt promises on non-negative arguments. */
  ghost predicate IsSqrt(sqrt: real -> real)
  {
    forall r :: 0.0 <= r ==> 0.0 <= sqrt(r) && sqrt(r) * sqrt(r) == r
  }

  /** Products of positive and of non-negative reals. */
  lemma MulPos(a: real, b: real)
    requires 0.0 < a && 0.0 < b
    ensures 0.0 < a * b
  {
  }

  lemma MulNonNeg(a: real, b: real)
    requires 0.0 <= a && 0.0 <= b
    ensures 0.0 <= a * b
  {
  }

  /** Point3d.DistanceTo: the Euclidean distance, through the given square
      root. */
  function Dist(p: Point, q: Point, sqrt: real -> real): real
  {
    sqrt(SqNorm(Minus(q, p)))
  }

  /** Distances are non-negative and symmetric. */
  lemma DistMetric(p: Point, q: Point, sqrt: real -> real)
    requires IsSqrt(sqrt)
    ensures 0.0 <= Dist(p, q, sqrt)
    ensures Dist(p, q, sqrt) == Dist(q, p, sqrt)
  {
    var v, w := Minus(q, p), Minus(p, q);
    assert v.x * v.x == w.x * w.x && v.y * v.y == w.y * w.y && v.z * v.z == w.z * w.z;
    assert SqNorm(v) == SqNorm(w);
    assert 0.0 <= v.x * v.x && 0.0 <= v.y * v.y && 0.0 <= v.z * v.z;
    assert 0.0 <= SqNorm(v);
  }

  /** BoundingBox. */
  datatype BoundingBox = BoundingBox(min: Point, max: Point)

  /** Rhino's Arc: validity, end points, centre, radius and the normal of
      its plane. */
  datatype Arc = Arc(isValid: bool, startPoint: Point, endPoint: Point,
                     center: Point, radius: real, normal: Vec)

  /** Rhino's Circle: a centre, a radius and the X axis of its plane. */
  datatype Circle = Circle(isValid: bool, center: Point, radius: real, xAxis: Vec)

  /** Circle.PointAt(pi): centre + r cos(pi) X + r sin(pi) Y, that is the
      point on the negative X axis of the circle's plane. */
  function PointAtPi(c: Circle): (p: Point)
    ensures Minus(c.center, p) == Scale(c.xAxis, c.radius)
  {
    Plus(c.center, Scale(c.xAxis, -c.radius))
  }

  /** The run-time class of a curve. */
  datatype CurveKind =
    | LineCurve
    | ArcCurve(arc: Arc)
    | PolylineCurve
    | NurbsCurve
    | OtherCurve

  /** A Rhino curve together with the answers Rhino gives about it:
      IsValid, PointAtStart, PointAtEnd, TryGetCircle, TryGetPolyline of
      the curve itself, Simplify (None when it returns null),
      DivideEquidistant (None when it returns null), GetBoundingBox and
      GetLength, at the tolerance the caller uses. */
  datatype Curve = Curve(
    kind: CurveKind,
    isValid: bool,
    pointAtStart: Point,
    pointAtEnd: Point,
    circle: Option<Circle>,
    polyline: Option<seq<Point>>,
    simplified: Option<Curve>,
    samples: Option<seq<Point>>,
    bbox: BoundingBox,
    length: real)

  function Min(a: real, b: real): real { if a <= b then a else b }
  function Max(a: real, b: real): real { if a <= b then b else a }

  /** new LineCurve(a, b): a straight curve from a to b, valid when it has
      a length; its bounding box spans the two points, its polyline is its
      two end points and Simplify leaves it as it is. Its samples, which
      no reader of a new line looks at, are taken to be its end points. */
  function LineCurveOf(a: Point, b: Point, sqrt: real -> real): (c: Curve)
    ensures c.kind == LineCurve && c.pointAtStart == a && c.pointAtEnd == b
    ensures c.isValid <==> a != b
    ensures c.bbox.min.x <= a.x <= c.bbox.max.x && c.bbox.min.x <= b.x <= c.bbox.max.x
    ensures c.bbox.min.y <= a.y <= c.bbox.max.y && c.bbox.min.y <= b.y <= c.bbox.max.y
  {
    Curve(LineCurve, a != b, a, b, None, Some([a, b]), None, Some([a, b]),
          BoundingBox(Point(Min(a.x, b.x), Min(a.y, b.y), Min(a.z, b.z)),
                      Point(Max(a.x, b.x), Max(a.y, b.y), Max(a.z, b.z))),
          Dist(a, b, sqrt))
  }

  /** The number formatting of .NET: ToString("0.###"), ToString("0.#"),
      string.Format(template, args), ToString(CultureInfo.InvariantCulture)
      and the culture-dependent ToString(). */
  datatype Formatter = Formatter(
    threeDecimals: real -> string,
    oneDecimal: real -> string,
    template: (string, seq<real>) -> string,
    invariantCulture: real -> string,
    currentCulture: real -> string)
}

/** The two parameter records consumed by the G-code components. */
module Machine {

  /** MachineProfile, with its default values. */
  datatype MachineProfile = MachineProfile(
    name: string,
    commandLaserOn: string,
    commandLaserOff: string,
    commandMoveRapid: string,
    commandMoveLinear: string,
    commandMoveArc: string,
    header: string,
    footer: string,
    commandRetourOrigin: string,
    unite: string,
    supporteG2G3: bool,
    decalageZAllumageLaser: real)

  const DefaultProfile := MachineProfile(
    "Generic Laser", "M3 S{0}", "M5",
    "G0 X{0:0.###} Y{1:0.###}", "G1 X{0:0.###} Y{1:0.###} F{2:0.##}",
    "G2 X{0:0.###} Y{1:0.###} I{2:0.###} J{3:0.###}",
    "G21\nG90", "M5\nG0 X0 Y0", "G0 X0 Y0", "G21", true, 0.0)

  /** CNCSettings: the work area and machine limits. */
  datatype CNCSettings = CNCSettings(widthX: real, depthY: real, heightZ: real,
                                     maxSpeed: real, maxPower: real)
}
