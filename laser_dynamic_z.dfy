/** LaserDynamiqueZpath: the Z profile of ZprofilMAPPER, also handed on as
    a laser path cut at the given power, speed and layer. */
module DynamicZ {
  import opened Geometry
  import opened LaserPaths
  import opened ZProfile

  /** SolveInstance once the inputs are read. The profile is computed
      exactly as ZprofilMAPPER computes it, and ends the same way for an
      invalid curve or a null DivideEquidistant; when there is one, it is
      wrapped, through Polyline.ToNurbsCurve (`toNurbs`), in a laser path
      with Intensite = power, Vitesse = speed, Calque = layer, no Z and the
      laser on. */
  method SolveInstance(path: Curve, useFormula: bool, formula: string, useLength: bool,
                       speed: real, power: real, layer: string,
                       show: real -> string, compute: string -> Computed, sqrt: real -> real,
                       toNurbs: seq<Point> -> Option<Curve>)
    returns (r: Outcome, laserPath: LaserPathData?)
    ensures IsProfileOf(r, path, useFormula, formula, useLength, show, compute, sqrt)
    ensures laserPath == null <==> !r.Profile?
    ensures laserPath != null ==>
              && fresh(laserPath)
              && laserPath.Record() == PathRecord(toNurbs(r.points), power, speed, layer, None, true,
                                                  Analyze(toNurbs(r.points)))
  {
    r := ZProfile.SolveInstance(path, useFormula, formula, useLength, show, compute, sqrt);
    laserPath := null;
    if r.Profile? {
      laserPath := new LaserPathData(toNurbs(r.points), power, speed, layer, None, true);
    }
  }
}
