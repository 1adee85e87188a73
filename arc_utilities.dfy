/** ArcUtilities: the centre of an arc given by its two end points and a
    radius, and a second copy of the direction and I/J helpers. */
module ArcUtilities {
  import opened Geometry
  import GeometryAnalyzer

  /** Length of the chord from origin to end in the XY plane. */
  function Chord(origin: Point, end: Point, sqrt: real -> real): real
  {
    var dx, dy := end.x - origin.x, end.y - origin.y;
    sqrt(dx * dx + dy * dy)
  }

  /** Squared XY distance. */
  function SqDistXY(a: Point, b: Point): real
  {
    (a.x - b.x) * (a.x - b.x) + (a.y - b.y) * (a.y - b.y)
  }

  /** Facts about the chord that the centre computation relies on: it is
      positive when the end points differ in XY, and its square is the
      squared XY distance. */
  lemma ChordFacts(origin: Point, end: Point, sqrt: real -> real)
    requires IsSqrt(sqrt)
    requires 0.0 < SqDistXY(end, origin)
    ensures 0.0 < Chord(origin, end, sqrt)
    ensures Chord(origin, end, sqrt) * Chord(origin, end, sqrt) == SqDistXY(end, origin)
  {
    var n := SqDistXY(end, origin);
    assert Chord(origin, end, sqrt) == sqrt(n);
    var q := sqrt(n);
    assert 0.0 <= q && q * q == n;
    if q == 0.0 { assert false; }
  }

  /** The distance d = sqrt(r^2 - (q/2)^2) from the chord midpoint to the
      centre. */
  function CenterDistance(origin: Point, end: Point, radius: real, sqrt: real -> real): real
  {
    var q := Chord(origin, end, sqrt);
    sqrt(radius * radius - (q / 2.0) * (q / 2.0))
  }

  /** When the chord fits in the circle, d is non-negative, d^2 + (q/2)^2 is
      r^2, and d is positive when the chord is shorter than the diameter. */
  lemma CenterDistanceFacts(origin: Point, end: Point, radius: real, sqrt: real -> real)
    requires IsSqrt(sqrt)
    requires 0.0 < SqDistXY(end, origin)
    requires Chord(origin, end, sqrt) <= 2.0 * radius
    ensures var d := CenterDistance(origin, end, radius, sqrt);
            var h := Chord(origin, end, sqrt) / 2.0;
            0.0 <= d && d * d == radius * radius - h * h
            && (h < radius ==> 0.0 < d)
  {
    ChordFacts(origin, end, sqrt);
    var h := Chord(origin, end, sqrt) / 2.0;
    SquareMonotone(h, radius);
    if h < radius {
      SquareStrictMonotone(h, radius);
      RootPositive(radius * radius - h * h, sqrt);
    }
  }

  /** The offset from the chord midpoint to the centre: along the left
      normal (-dy, dx) of the chord, scaled by d / q, so that it is
      perpendicular to the chord, d long, and to its left (its cross
      product with the chord is d * q). */
  function CenterOffset(origin: Point, end: Point, radius: real, sqrt: real -> real): (o: Vec)
    requires IsSqrt(sqrt)
    requires 0.0 < SqDistXY(end, origin)
    ensures o.z == 0.0
    ensures o.x * (end.x - origin.x) + o.y * (end.y - origin.y) == 0.0
    ensures o.x * o.x + o.y * o.y
              == CenterDistance(origin, end, radius, sqrt) * CenterDistance(origin, end, radius, sqrt)
    ensures (end.x - origin.x) * o.y - (end.y - origin.y) * o.x
              == CenterDistance(origin, end, radius, sqrt) * Chord(origin, end, sqrt)
  {
    ChordFacts(origin, end, sqrt);
    var dx, dy := end.x - origin.x, end.y - origin.y;
    var q := Chord(origin, end, sqrt);
    var d := CenterDistance(origin, end, radius, sqrt);
    var o := Vec(-dy * (d / q), dx * (d / q), 0.0);
    OffsetFacts(origin, end, q, d, o);
    o
  }

  /** 0 <= h <= r gives h * h <= r * r. */
  lemma SquareMonotone(h: real, r: real)
    requires 0.0 <= h <= r
    ensures h * h <= r * r
  {
    assert r * r - h * h == (r - h) * (r + h);
    assert 0.0 <= (r - h) * (r + h);
  }

  /** Scaling the normal (-dy, dx) of a chord of length q by d / q gives a
      vector perpendicular to the chord, d long, whose cross product with
      the chord is d * q. */
  lemma OffsetFacts(origin: Point, end: Point, q: real, d: real, o: Vec)
    requires 0.0 < q && SqDistXY(end, origin) == q * q
    requires o.x == -(end.y - origin.y) * (d / q) && o.y == (end.x - origin.x) * (d / q)
    ensures o.x * (end.x - origin.x) + o.y * (end.y - origin.y) == 0.0
    ensures o.x * o.x + o.y * o.y == d * d
    ensures (end.x - origin.x) * o.y - (end.y - origin.y) * o.x == d * q
  {
    var dx, dy := end.x - origin.x, end.y - origin.y;
    var k := d / q;
    assert dx * dx + dy * dy == q * q;
    assert k * q == d;
    assert o.x * o.x + o.y * o.y == k * k * (dx * dx + dy * dy);
    assert k * k * (q * q) == (k * q) * (k * q);
    assert dx * o.y - dy * o.x == k * (dx * dx + dy * dy);
    assert k * (q * q) == (k * q) * q;
  }

  /** TryGetArcCenter: no centre (Point3d.Unset and false) when the chord is
      longer than the diameter; otherwise the centre on the perpendicular
      bisector of the chord, at distance `radius` from both end points, in
      the plane z = 0. End points that coincide in XY give no centre for
      a negative radius; for any other radius the source divides by the
      zero chord, and the requires excludes them. */
  function TryGetArcCenter(origin: Point, end: Point, radius: real, clockwise: bool,
                           sqrt: real -> real): (center: Option<Point>)
    requires IsSqrt(sqrt)
    requires 0.0 < SqDistXY(end, origin) || radius < 0.0
    ensures center.None? <==> Chord(origin, end, sqrt) > 2.0 * radius
    ensures center.Some? ==> center.value.z == 0.0
    ensures center.Some? ==> SqDistXY(center.value, origin) == SqDistXY(center.value, end)
  {
    var q := Chord(origin, end, sqrt);
    if q > 2.0 * radius then None
    else
      assert 0.0 < SqDistXY(end, origin) by {
        var dx, dy := end.x - origin.x, end.y - origin.y;
        assert 0.0 <= dx * dx && 0.0 <= dy * dy;
        assert 0.0 <= q;
      }
      var xm, ym := (origin.x + end.x) / 2.0, (origin.y + end.y) / 2.0;
      var o := CenterOffset(origin, end, radius, sqrt);
      var c := if !clockwise then Point(xm - o.x, ym - o.y, 0.0)
               else Point(xm + o.x, ym + o.y, 0.0);
      EquidistantFromEnds(origin, end, c, if clockwise then 1.0 else -1.0, o);
      Some(c)
  }

  /** A point on the perpendicular bisector of the chord is equally far from
      both of its ends. */
  lemma EquidistantFromEnds(origin: Point, end: Point, c: Point, sign: real, o: Vec)
    requires o.x * (end.x - origin.x) + o.y * (end.y - origin.y) == 0.0
    requires c.x == (origin.x + end.x) / 2.0 + sign * o.x
    requires c.y == (origin.y + end.y) / 2.0 + sign * o.y
    ensures SqDistXY(c, origin) == SqDistXY(c, end)
  {
    var dx, dy := end.x - origin.x, end.y - origin.y;
    var ax, ay := sign * o.x, sign * o.y;
    assert c.x - origin.x == dx / 2.0 + ax && c.x - end.x == ax - dx / 2.0;
    assert c.y - origin.y == dy / 2.0 + ay && c.y - end.y == ay - dy / 2.0;
    assert ax * dx + ay * dy == sign * (o.x * dx + o.y * dy) == 0.0;
    assert (dx / 2.0 + ax) * (dx / 2.0 + ax) - (ax - dx / 2.0) * (ax - dx / 2.0) == 2.0 * ax * dx;
    assert (dy / 2.0 + ay) * (dy / 2.0 + ay) - (ay - dy / 2.0) * (ay - dy / 2.0) == 2.0 * ay * dy;
  }

  /** The centre found is at distance `radius` from both end points. */
  lemma CenterAtRadius(origin: Point, end: Point, radius: real,
                         clockwise: bool, sqrt: real -> real)
    requires IsSqrt(sqrt)
    requires 0.0 < SqDistXY(end, origin)
    requires Chord(origin, end, sqrt) <= 2.0 * radius
    ensures var c := TryGetArcCenter(origin, end, radius, clockwise, sqrt);
            c.Some? && SqDistXY(c.value, origin) == radius * radius
            && SqDistXY(c.value, end) == radius * radius
  {
    CenterFromOrigin(origin, end, radius, clockwise, sqrt);
  }

  /** The centre found is at distance `radius` from the origin (and so,
      by EquidistantFromEnds, from the end point too). */
  lemma CenterFromOrigin(origin: Point, end: Point, radius: real,
                         clockwise: bool, sqrt: real -> real)
    requires IsSqrt(sqrt)
    requires 0.0 < SqDistXY(end, origin)
    requires Chord(origin, end, sqrt) <= 2.0 * radius
    ensures var c := TryGetArcCenter(origin, end, radius, clockwise, sqrt);
            c.Some? && SqDistXY(c.value, origin) == radius * radius
  {
    ChordFacts(origin, end, sqrt);
    OffsetLength(origin, end, radius, sqrt);
    CenterCoordinates(origin, end, radius, clockwise, sqrt);
    var o := CenterOffset(origin, end, radius, sqrt);
    var c := TryGetArcCenter(origin, end, radius, clockwise, sqrt).value;
    AtRadius(c, origin, end.x - origin.x, end.y - origin.y, o.x, o.y, clockwise,
             Chord(origin, end, sqrt), radius);
  }

  /** The offset is sqrt(r^2 - (q/2)^2) long. */
  lemma OffsetLength(origin: Point, end: Point, radius: real, sqrt: real -> real)
    requires IsSqrt(sqrt)
    requires 0.0 < SqDistXY(end, origin)
    requires Chord(origin, end, sqrt) <= 2.0 * radius
    ensures var o := CenterOffset(origin, end, radius, sqrt);
            var h := Chord(origin, end, sqrt) / 2.0;
            o.x * o.x + o.y * o.y == radius * radius - h * h
  {
    CenterDistanceFacts(origin, end, radius, sqrt);
  }

  /** The centre found is the chord midpoint plus the offset (clockwise)
      or minus it (counter-clockwise). */
  lemma CenterCoordinates(origin: Point, end: Point, radius: real, clockwise: bool, sqrt: real -> real)
    requires IsSqrt(sqrt)
    requires 0.0 < SqDistXY(end, origin)
    requires Chord(origin, end, sqrt) <= 2.0 * radius
    ensures var c := TryGetArcCenter(origin, end, radius, clockwise, sqrt);
            var o := CenterOffset(origin, end, radius, sqrt);
            && c.Some?
            && c.value.x - origin.x == (end.x - origin.x) / 2.0 + (if clockwise then o.x else -o.x)
            && c.value.y - origin.y == (end.y - origin.y) / 2.0 + (if clockwise then o.y else -o.y)
  {
  }

  /** A point half a chord plus a perpendicular offset away from p is at
      distance r from p when the offset has length sqrt(r^2 - (q/2)^2). */
  lemma AtRadius(c: Point, p: Point, dx: real, dy: real, ox: real, oy: real, clockwise: bool,
                 q: real, r: real)
    requires c.x - p.x == dx / 2.0 + (if clockwise then ox else -ox)
    requires c.y - p.y == dy / 2.0 + (if clockwise then oy else -oy)
    requires ox * dx + oy * dy == 0.0
    requires dx * dx + dy * dy == q * q
    requires ox * ox + oy * oy == r * r - (q / 2.0) * (q / 2.0)
    ensures SqDistXY(c, p) == r * r
  {
    HalfChordPlusOffset(dx, dy, ox, oy, clockwise, q, r);
    SqDistOfOffsets(c, p, dx / 2.0 + (if clockwise then ox else -ox), dy / 2.0 + (if clockwise then oy else -oy));
  }

  /** The squared XY distance written through the coordinate differences. */
  lemma SqDistOfOffsets(c: Point, p: Point, ax: real, ay: real)
    requires c.x - p.x == ax && c.y - p.y == ay
    ensures SqDistXY(c, p) == ax * ax + ay * ay
  {
  }

  /** |chord / 2 + offset|^2 = (q/2)^2 + d^2 = r^2 when the offset is
      perpendicular to the chord, whichever way the offset points. */
  lemma HalfChordPlusOffset(dx: real, dy: real, ox: real, oy: real, clockwise: bool, q: real, r: real)
    requires ox * dx + oy * dy == 0.0
    requires dx * dx + dy * dy == q * q
    requires ox * ox + oy * oy == r * r - (q / 2.0) * (q / 2.0)
    ensures var px, py := if clockwise then ox else -ox, if clockwise then oy else -oy;
            (dx / 2.0 + px) * (dx / 2.0 + px) + (dy / 2.0 + py) * (dy / 2.0 + py) == r * r
  {
    if clockwise {
      assert (dx / 2.0 + ox) * (dx / 2.0 + ox) + (dy / 2.0 + oy) * (dy / 2.0 + oy)
             == (dx * dx + dy * dy) / 4.0 + (ox * dx + oy * dy) + (ox * ox + oy * oy);
    } else {
      assert (dx / 2.0 - ox) * (dx / 2.0 - ox) + (dy / 2.0 - oy) * (dy / 2.0 - oy)
             == (dx * dx + dy * dy) / 4.0 - (ox * dx + oy * dy) + (ox * ox + oy * oy);
      assert dx / 2.0 + -ox == dx / 2.0 - ox && dy / 2.0 + -oy == dy / 2.0 - oy;
    }
  }

  /** Turn of the chord seen from a centre m + o (clockwise) or m - o
      (counter-clockwise) on its bisector: the cross product p of the
      chord with the offset, negated for counter-clockwise. */
  lemma TurnAboutOffsetCentre(s: Point, e: Point, c: Point, ox: real, oy: real, clockwise: bool, p: real)
    requires c.x == (s.x + e.x) / 2.0 + (if clockwise then ox else -ox)
    requires c.y == (s.y + e.y) / 2.0 + (if clockwise then oy else -oy)
    requires (e.x - s.x) * oy - (e.y - s.y) * ox == p
    ensures GeometryAnalyzer.TurnZ(s, e, c) == (if clockwise then p else -p)
  {
    var a, b := (e.x - s.x) / 2.0, (e.y - s.y) / 2.0;
    var px, py := if clockwise then ox else -ox, if clockwise then oy else -oy;
    assert GeometryAnalyzer.TurnZ(s, e, c) == (-a - px) * (b - py) - (-b - py) * (a - px);
    assert (-a - px) * (b - py) - (-b - py) * (a - px) == 2.0 * a * py - 2.0 * b * px;
  }

  /** A positive number has a positive square root. */
  lemma RootPositive(n: real, sqrt: real -> real)
    requires IsSqrt(sqrt) && 0.0 < n
    ensures 0.0 < sqrt(n)
  {
    var q := sqrt(n);
    assert 0.0 <= q && q * q == n;
    if q == 0.0 { assert false; }
  }

  /** 0 <= h < r gives h * h < r * r. */
  lemma SquareStrictMonotone(h: real, r: real)
    requires 0.0 <= h < r
    ensures h * h < r * r
  {
    assert r * r - h * h == (r - h) * (r + h);
    MulPos(r - h, r + h);
  }

  /** The centre TryGetArcCenter calls clockwise lies to the left of the
      chord from origin to end, so the short arc about it turns
      counter-clockwise seen from +Z: GeometryAnalyzer's turn is
      non-negative for it, and positive when the chord is shorter than the
      diameter; the other centre gives the opposite sign. */
  lemma CenterSide(origin: Point, end: Point, radius: real,
                     clockwise: bool, sqrt: real -> real)
    requires IsSqrt(sqrt)
    requires 0.0 < SqDistXY(end, origin)
    requires Chord(origin, end, sqrt) <= 2.0 * radius
    ensures var c := TryGetArcCenter(origin, end, radius, clockwise, sqrt);
            && c.Some?
            && (clockwise ==> 0.0 <= GeometryAnalyzer.TurnZ(origin, end, c.value))
            && (!clockwise ==> GeometryAnalyzer.TurnZ(origin, end, c.value) <= 0.0)
            && (Chord(origin, end, sqrt) < 2.0 * radius ==>
                  GeometryAnalyzer.TurnZ(origin, end, c.value) != 0.0)
  {
    OffsetAreaSign(origin, end, radius, sqrt);
    CenterTurn(origin, end, radius, clockwise, sqrt);
  }

  /** The turn of the chord about the centre found is d * q, negated for
      counter-clockwise. */
  lemma CenterTurn(origin: Point, end: Point, radius: real, clockwise: bool, sqrt: real -> real)
    requires IsSqrt(sqrt)
    requires 0.0 < SqDistXY(end, origin)
    requires Chord(origin, end, sqrt) <= 2.0 * radius
    ensures var c := TryGetArcCenter(origin, end, radius, clockwise, sqrt);
            var p := CenterDistance(origin, end, radius, sqrt) * Chord(origin, end, sqrt);
            && c.Some?
            && GeometryAnalyzer.TurnZ(origin, end, c.value) == (if clockwise then p else -p)
  {
    var o := CenterOffset(origin, end, radius, sqrt);
    var p := CenterDistance(origin, end, radius, sqrt) * Chord(origin, end, sqrt);
    var c := TryGetArcCenter(origin, end, radius, clockwise, sqrt).value;
    TurnAboutOffsetCentre(origin, end, c, o.x, o.y, clockwise, p);
  }

  /** d * q is non-negative, and positive when the chord is shorter than
      the diameter. */
  lemma OffsetAreaSign(origin: Point, end: Point, radius: real, sqrt: real -> real)
    requires IsSqrt(sqrt)
    requires 0.0 < SqDistXY(end, origin)
    requires Chord(origin, end, sqrt) <= 2.0 * radius
    ensures var p := CenterDistance(origin, end, radius, sqrt) * Chord(origin, end, sqrt);
            0.0 <= p && (Chord(origin, end, sqrt) < 2.0 * radius ==> 0.0 < p)
  {
    ChordFacts(origin, end, sqrt);
    CenterDistanceFacts(origin, end, radius, sqrt);
    var q := Chord(origin, end, sqrt);
    var d := CenterDistance(origin, end, radius, sqrt);
    if 0.0 < d { MulPos(d, q); } else { MulNonNeg(d, q); }
  }

  /** The clockwise and counter-clockwise centres are mirror images through
      the midpoint of the chord. */
  lemma CentersReflect(origin: Point, end: Point, radius: real, sqrt: real -> real)
    requires IsSqrt(sqrt)
    requires 0.0 < SqDistXY(end, origin)
    requires Chord(origin, end, sqrt) <= 2.0 * radius
    ensures var cw := TryGetArcCenter(origin, end, radius, true, sqrt);
            var ccw := TryGetArcCenter(origin, end, radius, false, sqrt);
            && cw.Some? && ccw.Some?
            && cw.value.x + ccw.value.x == origin.x + end.x
            && cw.value.y + ccw.value.y == origin.y + end.y
  {
  }

  /** ArcUtilities.GetArcCommand: "G2" when
      ((start - center) x (end - start)).z is negative, "G3" otherwise. */
  function GetArcCommand(start: Point, end: Point, center: Point): (cmd: string)
    ensures cmd == "G2" || cmd == "G3"
    ensures cmd == "G2" <==> Cross(Minus(start, center), Minus(end, start)).z < 0.0
  {
    var centerToStart := Minus(start, center);
    var startToEnd := Minus(end, start);
    if Cross(centerToStart, startToEnd).z < 0.0 then "G2" else "G3"
  }

  /** ArcUtilities.GetIJ: centre minus start, never unit-converted. */
  function GetIJ(start: Point, center: Point): (ij: XY)
    ensures ij.x + start.x == center.x && ij.y + start.y == center.y
  {
    XY(center.x - start.x, center.y - start.y)
  }

  /** Its I/J is GeometryAnalyzer's in millimetres and 25.4 times it in
      inches: this copy ignores the unit mode. */
  lemma GetIJIgnoresUnits(start: Point, center: Point)
    ensures GetIJ(start, center) == GeometryAnalyzer.GetIJ(start, center, true)
    ensures GetIJ(start, center).x == GeometryAnalyzer.GetIJ(start, center, false).x * 25.4
    ensures GetIJ(start, center).y == GeometryAnalyzer.GetIJ(start, center, false).y * 25.4
  {
  }
}
