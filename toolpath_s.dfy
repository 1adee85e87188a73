/** LASERPATH-S: turns a list of curves into laser paths, one cut per
    valid curve, with a laser-off transfer line inserted before a cut
    whose start is more than 0.1 away from the end of the previous input
    curve. */
module ToolpathS {
  import opened Geometry
  import LaserPaths

  /** The distance above which a transfer is inserted. */
  const GapTolerance := 0.1

  /** A present, valid curve: the only ones that are cut. */
  predicate Kept(c: Option<Curve>)
  {
    c.Some? && c.value.isValid
  }

  /** The cut of a curve. The constructor takes (curve, intensite,
      vitesse, ...) and receives (curve, speed, intensity, ...), so the
      speed lands in Intensite and the intensity in Vitesse. */
  function CutRecord(c: Curve, layer: string, speed: real, intensity: real): LaserPaths.PathRecord
  {
    LaserPaths.PathRecord(Some(c), speed, intensity, layer, None, true, LaserPaths.Analyze(Some(c)))
  }

  /** A transfer: a line from the end of the previous curve to the start
      of the current one, laser off, with Intensite = speed and
      Vitesse = 0. */
  function TransferRecord(from: Point, to: Point, layer: string, speed: real, sqrt: real -> real)
    : LaserPaths.PathRecord
  {
    var jump := LineCurveOf(from, to, sqrt);
    LaserPaths.PathRecord(Some(jump), speed, 0.0, layer, None, false, LaserPaths.Analyze(Some(jump)))
  }

  /** The entries added for curve i; None when the previous curve, read
      for its end point, is null. */
  function Step(curves: seq<Option<Curve>>, i: nat, layer: string, speed: real, intensity: real,
                sqrt: real -> real): Option<seq<LaserPaths.PathRecord>>
    requires i < |curves|
  {
    if !Kept(curves[i]) then Some([])
    else
      var cut := CutRecord(curves[i].value, layer, speed, intensity);
      if i == 0 then Some([cut])
      else if curves[i - 1].None? then None
      else
        var prevEnd := curves[i - 1].value.pointAtEnd;
        var currStart := curves[i].value.pointAtStart;
        if Dist(prevEnd, currStart, sqrt) > GapTolerance
        then Some([TransferRecord(prevEnd, currStart, layer, speed, sqrt), cut])
        else Some([cut])
  }

  /** The entries for the first n curves. */
  function Toolpaths(curves: seq<Option<Curve>>, n: nat, layer: string, speed: real,
                     intensity: real, sqrt: real -> real): Option<seq<LaserPaths.PathRecord>>
    requires n <= |curves|
  {
    if n == 0 then Some([])
    else
      var prev := Toolpaths(curves, n - 1, layer, speed, intensity, sqrt);
      var step := Step(curves, n - 1, layer, speed, intensity, sqrt);
      if prev.None? || step.None? then None else Some(prev.value + step.value)
  }

  /** SolveInstance: the list of laser paths, or ok = false when the loop
      dereferences a null previous curve. Every entry is a new object. */
  method BuildToolpaths(curves: seq<Option<Curve>>, layer: string, speed: real, intensity: real,
                        sqrt: real -> real)
    returns (ok: bool, toolpaths: seq<LaserPaths.LaserPathData>)
    ensures ok <==> Toolpaths(curves, |curves|, layer, speed, intensity, sqrt).Some?
    ensures ok ==>
              var r := Toolpaths(curves, |curves|, layer, speed, intensity, sqrt).value;
              |toolpaths| == |r| && forall k :: 0 <= k < |r| ==> toolpaths[k].Record() == r[k]
    ensures forall k :: 0 <= k < |toolpaths| ==> fresh(toolpaths[k])
  {
    toolpaths := [];
    for i := 0 to |curves|
      invariant Toolpaths(curves, i, layer, speed, intensity, sqrt).Some?
      invariant var r := Toolpaths(curves, i, layer, speed, intensity, sqrt).value;
                |toolpaths| == |r| && forall k :: 0 <= k < |r| ==> toolpaths[k].Record() == r[k]
      invariant forall k :: 0 <= k < |toolpaths| ==> fresh(toolpaths[k])
    {
      var stepOk, added := EmitCurve(curves, i, layer, speed, intensity, sqrt);
      if !stepOk {
        FailureCharacterized(curves, |curves|, layer, speed, intensity, sqrt);
        return false, toolpaths;
      }
      ghost var r0 := Toolpaths(curves, i, layer, speed, intensity, sqrt).value;
      ghost var st := Step(curves, i, layer, speed, intensity, sqrt).value;
      assert Toolpaths(curves, i + 1, layer, speed, intensity, sqrt).value == r0 + st;
      toolpaths := toolpaths + added;
    }
    ok := true;
  }

  /** One pass of the loop: the new paths for curve i, or ok = false when
      the previous curve is null. */
  method EmitCurve(curves: seq<Option<Curve>>, i: nat, layer: string, speed: real, intensity: real,
                   sqrt: real -> real)
    returns (ok: bool, added: seq<LaserPaths.LaserPathData>)
    requires i < |curves|
    ensures ok <==> Step(curves, i, layer, speed, intensity, sqrt).Some?
    ensures ok ==>
              var s := Step(curves, i, layer, speed, intensity, sqrt).value;
              |added| == |s| && forall k :: 0 <= k < |s| ==> added[k].Record() == s[k]
    ensures forall k :: 0 <= k < |added| ==> fresh(added[k])
  {
    added := [];
    var current := curves[i];
    if current.None? || !current.value.isValid {
      return true, added;
    }
    if i > 0 {
      if curves[i - 1].None? {
        return false, added;
      }
      var prevEnd := curves[i - 1].value.pointAtEnd;
      var currStart := current.value.pointAtStart;
      if Dist(prevEnd, currStart, sqrt) > GapTolerance {
        var jump := LineCurveOf(prevEnd, currStart, sqrt);
        var transfer := new LaserPaths.LaserPathData(Some(jump), speed, 0.0, layer, None, true);
        transfer.isLaserOn := false;
        added := [transfer];
      }
    }
    var cutPath := new LaserPaths.LaserPathData(current, speed, intensity, layer, None, true);
    cutPath.isLaserOn := true;
    added := added + [cutPath];
    ok := true;
  }

  /** The loop fails exactly when a kept curve other than the first
      follows a null entry. */
  lemma {:induction false} FailureCharacterized(curves: seq<Option<Curve>>, n: nat, layer: string,
                                                speed: real, intensity: real, sqrt: real -> real)
    requires n <= |curves|
    ensures Toolpaths(curves, n, layer, speed, intensity, sqrt).None? <==>
              exists i :: 0 < i < n && Kept(curves[i]) && curves[i - 1].None?
  {
    if n > 0 {
      FailureCharacterized(curves, n - 1, layer, speed, intensity, sqrt);
      if Toolpaths(curves, n, layer, speed, intensity, sqrt).None? {
        if Toolpaths(curves, n - 1, layer, speed, intensity, sqrt).Some? {
          assert 0 < n - 1 && Kept(curves[n - 1]) && curves[n - 2].None?;
        }
      }
    }
  }

  /** The entries with the laser on. */
  function OnEntries(r: seq<LaserPaths.PathRecord>): seq<LaserPaths.PathRecord>
  {
    if r == [] then []
    else OnEntries(r[..|r| - 1]) + (if r[|r| - 1].isLaserOn then [r[|r| - 1]] else [])
  }

  /** The kept curves, in order. */
  function KeptCurves(cs: seq<Option<Curve>>): seq<Curve>
  {
    if cs == [] then []
    else KeptCurves(cs[..|cs| - 1]) + (if Kept(cs[|cs| - 1]) then [cs[|cs| - 1].value] else [])
  }

  /** The cuts of a list of curves. */
  function Cuts(cs: seq<Curve>, layer: string, speed: real, intensity: real): (r: seq<LaserPaths.PathRecord>)
    ensures |r| == |cs|
    ensures forall k :: 0 <= k < |cs| ==> r[k] == CutRecord(cs[k], layer, speed, intensity)
  {
    seq(|cs|, k requires 0 <= k < |cs| => CutRecord(cs[k], layer, speed, intensity))
  }

  lemma {:induction false} OnEntriesAppend(a: seq<LaserPaths.PathRecord>, b: seq<LaserPaths.PathRecord>)
    ensures OnEntries(a + b) == OnEntries(a) + OnEntries(b)
    decreases |b|
  {
    if b == [] {
      assert a + b == a;
    } else {
      assert (a + b)[..|a + b| - 1] == a + b[..|b| - 1];
      OnEntriesAppend(a, b[..|b| - 1]);
    }
  }

  /** The entries of one curve: a cut for a kept curve, preceded by at
      most one transfer that ends where the cut starts; nothing otherwise. */
  lemma StepShape(curves: seq<Option<Curve>>, i: nat, layer: string, speed: real, intensity: real,
                  sqrt: real -> real)
    requires i < |curves|
    requires Step(curves, i, layer, speed, intensity, sqrt).Some?
    ensures var s := Step(curves, i, layer, speed, intensity, sqrt).value;
            && (!Kept(curves[i]) ==> s == [])
            && (Kept(curves[i]) ==>
                  var cut := CutRecord(curves[i].value, layer, speed, intensity);
                  && 1 <= |s| <= 2 && s[|s| - 1] == cut
                  && (|s| == 2 ==>
                        !s[0].isLaserOn && s[0].curve.Some? && s[0].calque == layer
                        && s[0].z.None? && s[0].intensite == speed && s[0].vitesse == 0.0
                        && s[0].curve.value.pointAtEnd == curves[i].value.pointAtStart))
  {
  }

  /** The laser-on entries of one step. */
  lemma StepOnEntries(s: seq<LaserPaths.PathRecord>, cut: LaserPaths.PathRecord)
    requires cut.isLaserOn
    requires 1 <= |s| <= 2 && s[|s| - 1] == cut && (|s| == 2 ==> !s[0].isLaserOn)
    ensures OnEntries(s) == [cut]
  {
    if |s| == 2 {
      assert s[..1][..0] == [];
      assert OnEntries(s[..1]) == OnEntries(s[..1][..0]) + [];
      assert OnEntries(s) == OnEntries(s[..1]) + [cut];
    } else {
      assert s[..0] == [];
      assert OnEntries(s) == OnEntries(s[..0]) + [cut];
    }
  }

  /** The fields every entry carries: a curve, the given layer, no Z and
      Intensite = speed; a cut has Vitesse = intensity; a transfer has
      Vitesse = 0 and is immediately followed by a cut that starts where
      its line ends. */
  predicate WellFormed(r: seq<LaserPaths.PathRecord>, layer: string, speed: real, intensity: real)
  {
    && (forall k :: 0 <= k < |r| ==>
          r[k].curve.Some? && r[k].calque == layer && r[k].z.None? && r[k].intensite == speed)
    && (forall k :: 0 <= k < |r| && r[k].isLaserOn ==> r[k].vitesse == intensity)
    && (forall k :: 0 <= k < |r| && !r[k].isLaserOn ==>
          r[k].vitesse == 0.0 && k + 1 < |r| && r[k + 1].isLaserOn
          && r[k].curve.value.pointAtEnd == r[k + 1].curve.value.pointAtStart)
  }

  /** Two well-formed lists make a well-formed list. */
  lemma WellFormedAppend(a: seq<LaserPaths.PathRecord>, b: seq<LaserPaths.PathRecord>,
                         layer: string, speed: real, intensity: real)
    requires WellFormed(a, layer, speed, intensity) && WellFormed(b, layer, speed, intensity)
    ensures WellFormed(a + b, layer, speed, intensity)
  {
    var r := a + b;
    forall k | 0 <= k < |r|
      ensures r[k].curve.Some? && r[k].calque == layer && r[k].z.None? && r[k].intensite == speed
      ensures r[k].isLaserOn ==> r[k].vitesse == intensity
      ensures !r[k].isLaserOn ==>
                r[k].vitesse == 0.0 && k + 1 < |r| && r[k + 1].isLaserOn
                && r[k].curve.value.pointAtEnd == r[k + 1].curve.value.pointAtStart
    {
      if k < |a| {
        assert r[k] == a[k];
        if k + 1 < |a| {
          assert r[k + 1] == a[k + 1];
        }
      } else {
        assert r[k] == b[k - |a|];
        if k + 1 < |r| {
          assert r[k + 1] == b[k + 1 - |a|];
        }
      }
    }
  }

  /** The entries of one curve are well formed. */
  lemma StepWellFormed(curves: seq<Option<Curve>>, i: nat, layer: string, speed: real,
                       intensity: real, sqrt: real -> real)
    requires i < |curves|
    requires Step(curves, i, layer, speed, intensity, sqrt).Some?
    ensures WellFormed(Step(curves, i, layer, speed, intensity, sqrt).value, layer, speed, intensity)
  {
    StepShape(curves, i, layer, speed, intensity, sqrt);
  }

  /** All entries are well formed. */
  lemma {:induction false} ToolpathsWellFormed(curves: seq<Option<Curve>>, n: nat, layer: string,
                                               speed: real, intensity: real, sqrt: real -> real)
    requires n <= |curves|
    requires Toolpaths(curves, n, layer, speed, intensity, sqrt).Some?
    ensures WellFormed(Toolpaths(curves, n, layer, speed, intensity, sqrt).value, layer, speed, intensity)
  {
    if n > 0 {
      ToolpathsWellFormed(curves, n - 1, layer, speed, intensity, sqrt);
      StepWellFormed(curves, n - 1, layer, speed, intensity, sqrt);
      var r0 := Toolpaths(curves, n - 1, layer, speed, intensity, sqrt).value;
      var s := Step(curves, n - 1, layer, speed, intensity, sqrt).value;
      WellFormedAppend(r0, s, layer, speed, intensity);
      assert Toolpaths(curves, n, layer, speed, intensity, sqrt).value == r0 + s;
    }
  }

  /** The laser-on entries are exactly the cuts of the kept curves, in
      input order, and there are at most two entries per kept curve. */
  lemma {:induction false} ToolpathsCuts(curves: seq<Option<Curve>>, n: nat, layer: string,
                                         speed: real, intensity: real, sqrt: real -> real)
    requires n <= |curves|
    requires Toolpaths(curves, n, layer, speed, intensity, sqrt).Some?
    ensures var r := Toolpaths(curves, n, layer, speed, intensity, sqrt).value;
            && OnEntries(r) == Cuts(KeptCurves(curves[..n]), layer, speed, intensity)
            && |r| <= 2 * |KeptCurves(curves[..n])|
  {
    if n > 0 {
      ToolpathsCuts(curves, n - 1, layer, speed, intensity, sqrt);
      StepShape(curves, n - 1, layer, speed, intensity, sqrt);
      var r0 := Toolpaths(curves, n - 1, layer, speed, intensity, sqrt).value;
      var s := Step(curves, n - 1, layer, speed, intensity, sqrt).value;
      assert Toolpaths(curves, n, layer, speed, intensity, sqrt).value == r0 + s;
      KeptCurvesSnoc(curves, n);
      OnEntriesAppend(r0, s);
      var kept0 := KeptCurves(curves[..n - 1]);
      if Kept(curves[n - 1]) {
        var c := curves[n - 1].value;
        var cut := CutRecord(c, layer, speed, intensity);
        StepOnEntries(s, cut);
        CutsSnoc(kept0, c, layer, speed, intensity);
      } else {
        assert s == [];
        assert r0 + s == r0;
      }
    }
  }

  /** One more input curve adds itself to the kept curves when it is
      kept. */
  lemma KeptCurvesSnoc(curves: seq<Option<Curve>>, n: nat)
    requires 0 < n <= |curves|
    ensures KeptCurves(curves[..n])
            == KeptCurves(curves[..n - 1]) + (if Kept(curves[n - 1]) then [curves[n - 1].value] else [])
  {
    assert curves[..n][..n - 1] == curves[..n - 1];
    assert curves[..n][n - 1] == curves[n - 1];
  }

  /** One more curve adds its cut. */
  lemma CutsSnoc(cs: seq<Curve>, c: Curve, layer: string, speed: real, intensity: real)
    ensures Cuts(cs + [c], layer, speed, intensity) == Cuts(cs, layer, speed, intensity)
                                                        + [CutRecord(c, layer, speed, intensity)]
  {
  }

  /** The shape of the output: the laser-on entries are exactly the cuts
      of the kept curves, in input order; there are at most two entries
      per kept curve; and every entry is well formed. */
  lemma ToolpathsShape(curves: seq<Option<Curve>>, n: nat, layer: string,
                       speed: real, intensity: real, sqrt: real -> real)
    requires n <= |curves|
    requires Toolpaths(curves, n, layer, speed, intensity, sqrt).Some?
    ensures var r := Toolpaths(curves, n, layer, speed, intensity, sqrt).value;
            && OnEntries(r) == Cuts(KeptCurves(curves[..n]), layer, speed, intensity)
            && |r| <= 2 * |KeptCurves(curves[..n])|
            && WellFormed(r, layer, speed, intensity)
  {
    ToolpathsCuts(curves, n, layer, speed, intensity, sqrt);
    ToolpathsWellFormed(curves, n, layer, speed, intensity, sqrt);
  }

  /** The gap is measured from the previous input curve even when that
      curve was skipped as invalid: a transfer then starts at the skipped
      curve's end. */
  lemma SkippedCurveStillMeasured(curves: seq<Option<Curve>>, i: nat, layer: string, speed: real,
                                  intensity: real, sqrt: real -> real)
    requires 0 < i < |curves| && Kept(curves[i])
    requires curves[i - 1].Some? && !Kept(curves[i - 1])
    requires Dist(curves[i - 1].value.pointAtEnd, curves[i].value.pointAtStart, sqrt) > GapTolerance
    ensures var s := Step(curves, i, layer, speed, intensity, sqrt);
            && s.Some? && |s.value| == 2 && !s.value[0].isLaserOn
            && s.value[0].curve == Some(LineCurveOf(curves[i - 1].value.pointAtEnd,
                                                    curves[i].value.pointAtStart, sqrt))
  {
  }
}
