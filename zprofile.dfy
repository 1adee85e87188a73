/** ZprofilMAPPER: maps the vertices of a curve's polyline to a Z profile,
    each new Z either kept or computed from a formula in x, y and the
    length travelled so far (l). */
module ZProfile {
  import opened Geometry
  import opened Text

  /** DataTable.Compute followed by Convert.ToDouble: a number, or an
      exception. */
  datatype Computed = Value(v: real) | Thrown

  /** What EvaluateFormula gives back: the value, and whether it added an
      error message. */
  datatype Evaluated = Evaluated(z: real, failed: bool)

  /** The vertices the loop walks. The curve walked is the simplified one,
      or the curve itself when Simplify returns null; its vertices are its
      polyline when TryGetPolyline succeeds, else its DivideEquidistant
      points. None when DivideEquidistant returns null, which the Polyline
      constructor refuses with an exception. */
  function Vertices(c: Curve): Option<seq<Point>>
  {
    var s := if c.simplified.Some? then c.simplified.value else c;
    if s.polyline.Some? then s.polyline else s.samples
  }

  /** The substitution step of EvaluateFormula: the formula is lower-cased,
      then every "x", then every "y", then every "l" is replaced by the
      invariant-culture text of the corresponding number. */
  function Substitute(formula: string, x: real, y: real, l: real, show: real -> string): string
  {
    ReplaceAll(ReplaceAll(ReplaceAll(ToLower(formula), 'x', show(x)), 'y', show(y)), 'l', show(l))
  }

  /** No variable is left for the expression evaluator once the numbers
      themselves are free of the variables substituted after them. */
  lemma NoVariablesLeft(formula: string, x: real, y: real, l: real, show: real -> string)
    requires 'x' !in show(x) && 'y' !in show(x) && 'l' !in show(x)
    requires 'x' !in show(y) && 'y' !in show(y) && 'l' !in show(y)
    requires 'x' !in show(l) && 'y' !in show(l) && 'l' !in show(l)
    ensures var r := Substitute(formula, x, y, l, show);
            'x' !in r && 'y' !in r && 'l' !in r
  {
    var s1 := ReplaceAll(ToLower(formula), 'x', show(x));
    ReplaceAllFacts(ToLower(formula), 'x', show(x));
    assert 'x' !in s1;
    var s2 := ReplaceAll(s1, 'y', show(y));
    ReplaceAllFacts(s1, 'y', show(y));
    assert 'x' !in s2 && 'y' !in s2;
    ReplaceAllFacts(s2, 'l', show(l));
  }

  /** A formula without variables reaches the evaluator merely
      lower-cased. */
  lemma SubstituteWithoutVariables(formula: string, x: real, y: real, l: real, show: real -> string)
    requires var lower := ToLower(formula); 'x' !in lower && 'y' !in lower && 'l' !in lower
    ensures Substitute(formula, x, y, l, show) == ToLower(formula)
  {
    var lower := ToLower(formula);
    ReplaceAllFacts(lower, 'x', show(x));
    ReplaceAllFacts(lower, 'y', show(y));
    ReplaceAllFacts(lower, 'l', show(l));
  }

  /** EvaluateFormula: the evaluator's number, or 0 and an error message
      when it throws. */
  function Evaluate(formula: string, x: real, y: real, l: real, show: real -> string,
                    compute: string -> Computed): (r: Evaluated)
    ensures r.failed <==> compute(Substitute(formula, x, y, l, show)).Thrown?
    ensures r.failed ==> r.z == 0.0
  {
    match compute(Substitute(formula, x, y, l, show))
    case Value(v) => Evaluated(v, false)
    case Thrown => Evaluated(0.0, true)
  }

  /** The length travelled along the vertices up to vertex i. */
  function AccLen(poly: seq<Point>, i: nat, sqrt: real -> real): real
    requires i < |poly| || i == 0
  {
    if i == 0 then 0.0 else AccLen(poly, i - 1, sqrt) + Dist(poly[i - 1], poly[i], sqrt)
  }

  /** The length travelled starts at 0 and never decreases along the
      vertices. */
  lemma {:induction false} AccLenMonotone(poly: seq<Point>, i: nat, j: nat, sqrt: real -> real)
    requires IsSqrt(sqrt)
    requires i <= j < |poly|
    ensures 0.0 <= AccLen(poly, i, sqrt) <= AccLen(poly, j, sqrt)
    decreases j
  {
    if j > 0 {
      AccLenMonotone(poly, if i == j then 0 else i, j - 1, sqrt);
      DistMetric(poly[j - 1], poly[j], sqrt);
    }
  }

  /** The Z given to vertex i: its own Z without the formula; with it, the
      formula at the vertex's x and y and, for l, the length travelled
      when useLength is set and x otherwise. */
  function MappedZ(poly: seq<Point>, i: nat, useFormula: bool, formula: string, useLength: bool,
                   show: real -> string, compute: string -> Computed, sqrt: real -> real): Evaluated
    requires i < |poly|
  {
    if !useFormula then Evaluated(poly[i].z, false)
    else
      var p := poly[i];
      Evaluate(formula, p.x, p.y, if useLength then AccLen(poly, i, sqrt) else p.x, show, compute)
  }

  /** The number of vertices among the first n whose formula threw. */
  function Failures(poly: seq<Point>, n: nat, useFormula: bool, formula: string, useLength: bool,
                    show: real -> string, compute: string -> Computed, sqrt: real -> real): (k: nat)
    requires n <= |poly|
    ensures k <= n
    ensures !useFormula ==> k == 0
  {
    if n == 0 then 0
    else
      Failures(poly, n - 1, useFormula, formula, useLength, show, compute, sqrt)
      + (if MappedZ(poly, n - 1, useFormula, formula, useLength, show, compute, sqrt).failed then 1 else 0)
  }

  /** The vertex loop of SolveInstance: one output point per vertex, X and
      Y kept, Z kept or computed; `errors` counts the error messages the
      formula added. */
  method MapVertices(poly: seq<Point>, useFormula: bool, formula: string, useLength: bool,
                     show: real -> string, compute: string -> Computed, sqrt: real -> real)
    returns (pts: seq<Point>, errors: nat)
    ensures |pts| == |poly|
    ensures forall i :: 0 <= i < |poly| ==> pts[i].x == poly[i].x && pts[i].y == poly[i].y
    ensures forall i :: 0 <= i < |poly| ==>
              pts[i].z == MappedZ(poly, i, useFormula, formula, useLength, show, compute, sqrt).z
    ensures !useFormula ==> forall i :: 0 <= i < |poly| ==> pts[i] == poly[i]
    ensures errors == Failures(poly, |poly|, useFormula, formula, useLength, show, compute, sqrt)
  {
    pts := [];
    errors := 0;
    var accLen := 0.0;
    for i := 0 to |poly|
      invariant |pts| == i
      invariant i < |poly| ==> accLen == AccLen(poly, i, sqrt)
      invariant forall k :: 0 <= k < i ==> pts[k].x == poly[k].x && pts[k].y == poly[k].y
      invariant forall k :: 0 <= k < i ==>
                  pts[k].z == MappedZ(poly, k, useFormula, formula, useLength, show, compute, sqrt).z
      invariant errors == Failures(poly, i, useFormula, formula, useLength, show, compute, sqrt)
    {
      var x := poly[i].x;
      var y := poly[i].y;
      var l := accLen;
      var z := poly[i].z;
      if useFormula {
        var e := Evaluate(formula, x, y, if useLength then l else x, show, compute);
        z := e.z;
        if e.failed {
          errors := errors + 1;
        }
      }
      pts := pts + [Point(x, y, z)];
      if i < |poly| - 1 {
        accLen := accLen + Dist(poly[i], poly[i + 1], sqrt);
      }
    }
  }

  /** The result of the component: an error for an invalid curve, an
      exception when there are no vertices to walk, else the profile's
      points and the number of formula errors reported. */
  datatype Outcome = InvalidCurve | NoVertices | Profile(points: seq<Point>, formulaErrors: nat)

  /** What the component promises for a curve: an error exactly when the
      curve is invalid; an exception exactly when a valid curve has no
      vertices; otherwise one point per vertex, X and Y kept, Z as MappedZ
      gives it, and one error message per formula that threw. */
  predicate IsProfileOf(r: Outcome, path: Curve, useFormula: bool, formula: string, useLength: bool,
                        show: real -> string, compute: string -> Computed, sqrt: real -> real)
  {
    && (r.InvalidCurve? <==> !path.isValid)
    && (r.NoVertices? <==> path.isValid && Vertices(path).None?)
    && (r.Profile? ==>
          Vertices(path).Some? &&
          var poly := Vertices(path).value;
          && |r.points| == |poly|
          && (forall i :: 0 <= i < |r.points| ==>
                r.points[i].x == poly[i].x && r.points[i].y == poly[i].y
                && r.points[i].z == MappedZ(poly, i, useFormula, formula, useLength, show, compute, sqrt).z)
          && r.formulaErrors == Failures(poly, |poly|, useFormula, formula, useLength, show, compute, sqrt))
  }

  /** SolveInstance once the inputs are read: an invalid curve gives an
      error and no profile; a null DivideEquidistant ends it with an
      exception; otherwise the vertices are mapped. */
  method SolveInstance(path: Curve, useFormula: bool, formula: string, useLength: bool,
                       show: real -> string, compute: string -> Computed, sqrt: real -> real)
    returns (r: Outcome)
    ensures IsProfileOf(r, path, useFormula, formula, useLength, show, compute, sqrt)
  {
    if !path.isValid {
      return InvalidCurve;
    }
    var simplified := if path.simplified.Some? then path.simplified.value else path;
    var poly;
    if simplified.polyline.Some? {
      poly := simplified.polyline.value;
    } else {
      var divided := simplified.samples;
      if divided.None? {
        return NoVertices;
      }
      poly := divided.value;
    }
    var pts, errors := MapVertices(poly, useFormula, formula, useLength, show, compute, sqrt);
    return Profile(pts, errors);
  }

  /** Without useLength the travelled length plays no part: two polylines
      with the same vertex at i get the same Z there. */
  lemma LengthUnusedWithoutFlag(poly: seq<Point>, poly': seq<Point>, i: nat, useFormula: bool,
                                formula: string, show: real -> string, compute: string -> Computed,
                                sqrt: real -> real)
    requires i < |poly| && i < |poly'| && poly[i] == poly'[i]
    ensures MappedZ(poly, i, useFormula, formula, false, show, compute, sqrt)
            == MappedZ(poly', i, useFormula, formula, false, show, compute, sqrt)
  {
  }
}
