/** GCodeExporterFULL: compiles a list of laser paths into a G-code program.
    The program is a fixed header, one block per path that is present,
    valid and inside the work area, then an optional return to the origin
    and the end of program. Each block is an optional Z line followed by
    the first representation of the curve that applies: line, arc (when
    the machine supports G2/G3), circle, simplified polyline, equidistant
    samples. The text is the sequence of lines given to AppendLine; the
    instructions behind the lines are the `Instr` values below. */
module GCodeExport {
  import opened Geometry
  import opened Machine
  import GeometryAnalyzer
  import GCodeText
  import LaserPaths

  /** One line of the program, before it is printed. */
  datatype Instr =
    | Banner
    | Units(inches: bool)
    | Absolute
    | SetZ(z: real)
    | Rapid(x: real, y: real)
    | LaserOn(power: real)
    | Linear(x: real, y: real, feed: real)
    | ArcMove(cmd: string, x: real, y: real, i: real, j: real, feed: real)
    | LaserOff
    | ReturnOrigin
    | End

  const BannerText := "; JEDI /// GCode Export/// By Dorian Vnh /// www.dv-concept.be"
  const WarningText := "Path exceeds CNC work area."

  /** The text of one line. Laser and linear lines go through the machine
      profile's templates; every other line has a fixed shape. */
  function Render(ins: Instr, profile: MachineProfile, fmt: Formatter): string
  {
    match ins
    case Banner => BannerText
    case Units(inches) => if inches then "G20 ; Units in inches" else "G21 ; Units in mm"
    case Absolute => "G90 ; Absolute positioning"
    case SetZ(z) => "G1 Z" + fmt.threeDecimals(z) + " ; Set Z height"
    case Rapid(x, y) => GCodeText.RapidLine(x, y, fmt)
    case LaserOn(power) => fmt.template(profile.commandLaserOn, [power])
    case Linear(x, y, feed) => fmt.template(profile.commandMoveLinear, [x, y, feed])
    case ArcMove(cmd, x, y, i, j, feed) => GCodeText.ArcLine(cmd, x, y, i, j, feed, fmt)
    case LaserOff => profile.commandLaserOff
    case ReturnOrigin => "G0 X0 Y0 ; Return to origin"
    case End => "M2 ; End of program"
  }

  function RenderAll(xs: seq<Instr>, profile: MachineProfile, fmt: Formatter): (r: seq<string>)
    ensures |r| == |xs|
    ensures forall k :: 0 <= k < |xs| ==> r[k] == Render(xs[k], profile, fmt)
  {
    seq(|xs|, k requires 0 <= k < |xs| => Render(xs[k], profile, fmt))
  }

  /** Printing distributes over concatenation. */
  lemma RenderAllAppend(xs: seq<Instr>, ys: seq<Instr>, profile: MachineProfile, fmt: Formatter)
    ensures RenderAll(xs + ys, profile, fmt) == RenderAll(xs, profile, fmt) + RenderAll(ys, profile, fmt)
  {
  }

  /** The header: banner, unit mode, absolute positioning. */
  function Header(useInches: bool): seq<Instr>
  {
    [Banner, Units(useInches), Absolute]
  }

  /** The trailer: the optional return to the origin and the end. */
  function Trailer(returnToOrigin: bool): seq<Instr>
  {
    (if returnToOrigin then [ReturnOrigin] else []) + [End]
  }

  /** Laser switched on before the motion and off after it, when asked. */
  function Bracket(on: bool, power: real, motion: seq<Instr>): seq<Instr>
  {
    if on then [LaserOn(power)] + motion + [LaserOff] else motion
  }

  /** One linear move per vertex, at the given feed. */
  function Moves(vs: seq<Point>, feed: real): (r: seq<Instr>)
    ensures |r| == |vs|
    ensures forall k :: 0 <= k < |vs| ==> r[k] == Linear(vs[k].x, vs[k].y, feed)
  {
    seq(|vs|, k requires 0 <= k < |vs| => Linear(vs[k].x, vs[k].y, feed))
  }

  /** The lines of one path and the points it records. */
  datatype Block = Block(instrs: seq<Instr>, points: seq<Point>)

  /** A run through a list of vertices: nothing for an empty list,
      otherwise a rapid move to the first vertex and a linear move to each
      of the others, recording the others. */
  function VertexRun(vs: seq<Point>, on: bool, power: real, speed: real): Block
  {
    if |vs| == 0 then Block([], [])
    else Block([Rapid(vs[0].x, vs[0].y)] + Bracket(on, power, Moves(vs[1..], speed)), vs[1..])
  }

  /** The curve is an ArcCurve whose arc is valid and the machine accepts
      G2/G3. */
  predicate ArcApplies(c: Curve, profile: MachineProfile)
  {
    c.kind.ArcCurve? && c.isValid && c.kind.arc.isValid && profile.supporteG2G3
  }

  /** The vertices of the last two representations: the polyline of the
      simplified curve when Simplify and TryGetPolyline both succeed, else
      DivideEquidistant of the curve itself, None when that returns
      null. */
  function FallbackVertices(c: Curve): Option<seq<Point>>
  {
    if c.simplified.Some? && c.simplified.value.polyline.Some? then c.simplified.value.polyline
    else c.samples
  }

  /** The motion reads the length of a null sample array: no earlier
      representation applies and DivideEquidistant returned null. */
  predicate MotionFails(c: Curve, profile: MachineProfile)
  {
    !c.kind.LineCurve? && !ArcApplies(c, profile) && c.circle.None? && FallbackVertices(c).None?
  }

  /** The motion of one valid curve, by the first representation that
      applies. */
  function Motion(c: Curve, on: bool, power: real, speed: real, profile: MachineProfile,
                  useMetric: bool): Block
    requires !MotionFails(c, profile)
  {
    if c.kind.LineCurve? then
      var pt := c.pointAtEnd;
      Block(Bracket(on, power, [Linear(pt.x, pt.y, speed)]), [pt])
    else if ArcApplies(c, profile) then
      var a := c.kind.arc;
      var cmd := GeometryAnalyzer.GetArcCommand(a.startPoint, a.endPoint, a.center);
      var ij := GeometryAnalyzer.GetIJ(a.startPoint, a.center, useMetric);
      Block([Rapid(a.startPoint.x, a.startPoint.y)]
            + Bracket(on, power, [ArcMove(cmd, a.endPoint.x, a.endPoint.y, ij.x, ij.y, speed)]),
            [a.startPoint, a.endPoint])
    else if c.circle.Some? then
      var start := PointAtPi(c.circle.value);
      var ij := GeometryAnalyzer.GetIJ(start, c.circle.value.center, useMetric);
      Block([Rapid(start.x, start.y)]
            + Bracket(on, power, [ArcMove("G2", start.x, start.y, ij.x, ij.y, speed)]),
            [start])
    else VertexRun(FallbackVertices(c).value, on, power, speed)
  }

  /** The Z height of a path: its own, else the machine's, else zero. */
  function ZHeight(rec: LaserPaths.PathRecord, cnc: Option<CNCSettings>): real
  {
    if rec.z.Some? then rec.z.value else if cnc.Some? then cnc.value.heightZ else 0.0
  }

  /** The bounding box leaves the work area [0, WidthX] x [0, DepthY]; never
      without machine settings. */
  predicate OutOfArea(bbox: BoundingBox, cnc: Option<CNCSettings>)
  {
    cnc.Some? && (bbox.max.x > cnc.value.widthX || bbox.max.y > cnc.value.depthY
                  || bbox.min.x < 0.0 || bbox.min.y < 0.0)
  }

  /** What becomes of one entry of the list; `Failed` ends SolveInstance
      with an exception. */
  datatype Outcome = Skipped | OutsideArea | Failed | Emitted(block: Block)

  function PathOutcome(rec: Option<LaserPaths.PathRecord>, cnc: Option<CNCSettings>,
                       profile: MachineProfile, includeZ: bool, useMetric: bool): Outcome
  {
    if rec.None? || rec.value.curve.None? || !rec.value.curve.value.isValid then Skipped
    else
      var r := rec.value;
      var c := r.curve.value;
      if OutOfArea(c.bbox, cnc) then OutsideArea
      else if MotionFails(c, profile) then Failed
      else
        var m := Motion(c, r.isLaserOn, r.intensite, r.vitesse, profile, useMetric);
        Emitted(Block((if includeZ then [SetZ(ZHeight(r, cnc))] else []) + m.instrs, m.points))
  }

  /** The instructions, points and warnings contributed by one outcome. */
  function OutcomeInstrs(o: Outcome): seq<Instr>
  {
    if o.Emitted? then o.block.instrs else []
  }

  function OutcomePoints(o: Outcome): seq<Point>
  {
    if o.Emitted? then o.block.points else []
  }

  function OutcomeWarnings(o: Outcome): seq<string>
  {
    if o.OutsideArea? then [WarningText] else []
  }

  /** The outcome of every entry of the list, in order. */
  function Outcomes(recs: seq<Option<LaserPaths.PathRecord>>, cnc: Option<CNCSettings>,
                    profile: MachineProfile, includeZ: bool, useMetric: bool): (os: seq<Outcome>)
    ensures |os| == |recs|
    ensures forall k :: 0 <= k < |recs| ==> os[k] == PathOutcome(recs[k], cnc, profile, includeZ, useMetric)
  {
    seq(|recs|, k requires 0 <= k < |recs| => PathOutcome(recs[k], cnc, profile, includeZ, useMetric))
  }

  /** The index of the first outcome that fails, |os| when none does: the
      foreach over the paths stops there. */
  function FirstFailure(os: seq<Outcome>): (k: nat)
    ensures k <= |os|
    ensures forall j :: 0 <= j < k ==> !os[j].Failed?
    ensures k < |os| ==> os[k].Failed?
  {
    if os == [] || os[0].Failed? then 0 else 1 + FirstFailure(os[1..])
  }

  /** The instructions, points and warnings of a list of outcomes, one
      outcome after the other. */
  function InstrsOf(os: seq<Outcome>): seq<Instr>
  {
    if os == [] then [] else InstrsOf(os[..|os| - 1]) + OutcomeInstrs(os[|os| - 1])
  }

  function PointsOf(os: seq<Outcome>): seq<Point>
  {
    if os == [] then [] else PointsOf(os[..|os| - 1]) + OutcomePoints(os[|os| - 1])
  }

  function WarningsOf(os: seq<Outcome>): seq<string>
  {
    if os == [] then [] else WarningsOf(os[..|os| - 1]) + OutcomeWarnings(os[|os| - 1])
  }

  /** The body of the program, the points and the warnings: those of the
      paths, in the order of the list. */
  function Body(recs: seq<Option<LaserPaths.PathRecord>>, cnc: Option<CNCSettings>,
                profile: MachineProfile, includeZ: bool, useMetric: bool): seq<Instr>
  {
    InstrsOf(Outcomes(recs, cnc, profile, includeZ, useMetric))
  }

  function BodyPoints(recs: seq<Option<LaserPaths.PathRecord>>, cnc: Option<CNCSettings>,
                      profile: MachineProfile, includeZ: bool, useMetric: bool): seq<Point>
  {
    PointsOf(Outcomes(recs, cnc, profile, includeZ, useMetric))
  }

  function Warnings(recs: seq<Option<LaserPaths.PathRecord>>, cnc: Option<CNCSettings>,
                    profile: MachineProfile, includeZ: bool, useMetric: bool): seq<string>
  {
    WarningsOf(Outcomes(recs, cnc, profile, includeZ, useMetric))
  }

  /** The whole program. */
  function Program(recs: seq<Option<LaserPaths.PathRecord>>, cnc: Option<CNCSettings>,
                   profile: MachineProfile, returnToOrigin: bool, useInches: bool,
                   includeZ: bool): seq<Instr>
  {
    Header(useInches) + Body(recs, cnc, profile, includeZ, !useInches) + Trailer(returnToOrigin)
  }

  /** The motion of one curve, printed line by line; `ok` is false where
      the source throws on a null sample array. */
  method EmitMotion(c: Curve, on: bool, power: real, speed: real, profile: MachineProfile,
                    useMetric: bool, fmt: Formatter)
    returns (ok: bool, lines: seq<string>, points: seq<Point>)
    ensures ok <==> !MotionFails(c, profile)
    ensures ok ==> lines == RenderAll(Motion(c, on, power, speed, profile, useMetric).instrs, profile, fmt)
    ensures ok ==> points == Motion(c, on, power, speed, profile, useMetric).points
  {
    ok := true;
    if c.kind.LineCurve? {
      var pt := c.pointAtEnd;
      lines := [];
      if on { lines := lines + [Render(LaserOn(power), profile, fmt)]; }
      lines := lines + [Render(Linear(pt.x, pt.y, speed), profile, fmt)];
      if on { lines := lines + [Render(LaserOff, profile, fmt)]; }
      points := [pt];
    } else if ArcApplies(c, profile) {
      var a := c.kind.arc;
      var start, end, center := a.startPoint, a.endPoint, a.center;
      var cmd := GeometryAnalyzer.GetArcCommand(start, end, center);
      var ij := GeometryAnalyzer.GetIJ(start, center, useMetric);
      lines := [Render(Rapid(start.x, start.y), profile, fmt)];
      if on { lines := lines + [Render(LaserOn(power), profile, fmt)]; }
      lines := lines + [Render(ArcMove(cmd, end.x, end.y, ij.x, ij.y, speed), profile, fmt)];
      if on { lines := lines + [Render(LaserOff, profile, fmt)]; }
      points := [start, end];
    } else if c.circle.Some? {
      var circle := c.circle.value;
      var start := PointAtPi(circle);
      var end := start;
      var ij := GeometryAnalyzer.GetIJ(start, circle.center, useMetric);
      lines := [Render(Rapid(start.x, start.y), profile, fmt)];
      if on { lines := lines + [Render(LaserOn(power), profile, fmt)]; }
      lines := lines + [Render(ArcMove("G2", end.x, end.y, ij.x, ij.y, speed), profile, fmt)];
      if on { lines := lines + [Render(LaserOff, profile, fmt)]; }
      points := [start];
    } else {
      var simplified := c.simplified;
      if simplified.Some? && simplified.value.polyline.Some? {
        lines, points := EmitVertexRun(simplified.value.polyline.value, on, power, speed, profile, fmt);
      } else {
        var pts := c.samples;
        if pts.None? {
          return false, [], [];
        }
        lines, points := EmitVertexRun(pts.value, on, power, speed, profile, fmt);
      }
    }
  }

  /** A polyline or a list of samples, printed line by line. */
  method EmitVertexRun(vs: seq<Point>, on: bool, power: real, speed: real,
                       profile: MachineProfile, fmt: Formatter)
    returns (lines: seq<string>, points: seq<Point>)
    ensures lines == RenderAll(VertexRun(vs, on, power, speed).instrs, profile, fmt)
    ensures points == VertexRun(vs, on, power, speed).points
  {
    lines, points := [], [];
    if |vs| > 0 {
      var head := [Rapid(vs[0].x, vs[0].y)] + (if on then [LaserOn(power)] else []);
      var headLines := RenderAll(head, profile, fmt);
      lines := headLines;
      for i := 1 to |vs|
        invariant lines == headLines + RenderAll(Moves(vs[1..i], speed), profile, fmt)
        invariant points == vs[1..i]
      {
        RenderedMovesSnoc(vs, i, speed, profile, fmt);
        lines := lines + [Render(Linear(vs[i].x, vs[i].y, speed), profile, fmt)];
        points := points + [vs[i]];
      }
      if on {
        lines := lines + [Render(LaserOff, profile, fmt)];
      }
      VertexRunRendered(vs, on, power, speed, profile, fmt);
      assert vs[1..|vs|] == vs[1..];
    }
  }

  /** One more vertex prints one more linear move. */
  lemma RenderedMovesSnoc(vs: seq<Point>, i: nat, speed: real, profile: MachineProfile, fmt: Formatter)
    requires 1 <= i < |vs|
    ensures RenderAll(Moves(vs[1..i + 1], speed), profile, fmt)
            == RenderAll(Moves(vs[1..i], speed), profile, fmt) + [Render(Linear(vs[i].x, vs[i].y, speed), profile, fmt)]
  {
  }

  /** The lines of a run: the rapid move and the optional laser-on line,
      the linear moves, then the optional laser-off line. */
  lemma VertexRunRendered(vs: seq<Point>, on: bool, power: real, speed: real,
                          profile: MachineProfile, fmt: Formatter)
    requires |vs| > 0
    ensures RenderAll(VertexRun(vs, on, power, speed).instrs, profile, fmt)
            == RenderAll([Rapid(vs[0].x, vs[0].y)] + (if on then [LaserOn(power)] else []), profile, fmt)
               + RenderAll(Moves(vs[1..], speed), profile, fmt)
               + (if on then [Render(LaserOff, profile, fmt)] else [])
  {
    var head := [Rapid(vs[0].x, vs[0].y)] + (if on then [LaserOn(power)] else []);
    var tail := if on then [LaserOff] else [];
    assert VertexRun(vs, on, power, speed).instrs == head + Moves(vs[1..], speed) + tail;
    RenderAllAppend(head, Moves(vs[1..], speed), profile, fmt);
    RenderAllAppend(head + Moves(vs[1..], speed), tail, profile, fmt);
  }

  /** The body of the foreach over the paths, for one path: nothing for a
      missing or invalid curve, a warning for a curve outside the work
      area, otherwise the optional Z line and the motion; `ok` is false
      where the motion throws. */
  method EmitPath(path: LaserPaths.LaserPathData?, cnc: Option<CNCSettings>,
                  profile: MachineProfile, includeZ: bool, useMetric: bool, fmt: Formatter)
    returns (ok: bool, lines: seq<string>, points: seq<Point>, warnings: seq<string>)
    ensures var o := PathOutcome(if path == null then None else Some(path.Record()),
                                 cnc, profile, includeZ, useMetric);
            && (ok <==> !o.Failed?)
            && (ok ==> lines == RenderAll(OutcomeInstrs(o), profile, fmt)
                       && points == OutcomePoints(o)
                       && warnings == OutcomeWarnings(o))
  {
    ok := true;
    lines, points, warnings := [], [], [];
    ghost var rec := if path == null then None else Some(path.Record());
    if path == null || path.curve.None? || !path.curve.value.isValid {
      assert PathOutcome(rec, cnc, profile, includeZ, useMetric) == Skipped;
      return;
    }
    var crv := path.curve.value;
    var power := path.intensite;
    var speed := path.vitesse;
    var z := if path.z.Some? then path.z.value else if cnc.Some? then cnc.value.heightZ else 0.0;
    var bbox := crv.bbox;
    if cnc.Some? && (bbox.max.x > cnc.value.widthX || bbox.max.y > cnc.value.depthY
                     || bbox.min.x < 0.0 || bbox.min.y < 0.0) {
      assert PathOutcome(rec, cnc, profile, includeZ, useMetric) == OutsideArea;
      warnings := warnings + [WarningText];
      return;
    }
    ok, lines, points := EmitBlock(crv, path.isLaserOn, power, speed, z, includeZ, profile, useMetric, fmt);
    assert z == ZHeight(rec.value, cnc);
  }

  /** The lines of a path that is emitted: the optional Z line, then the
      motion. */
  method EmitBlock(crv: Curve, on: bool, power: real, speed: real, z: real, includeZ: bool,
                   profile: MachineProfile, useMetric: bool, fmt: Formatter)
    returns (ok: bool, lines: seq<string>, points: seq<Point>)
    ensures ok <==> !MotionFails(crv, profile)
    ensures ok ==>
              var m := Motion(crv, on, power, speed, profile, useMetric);
              && lines == RenderAll((if includeZ then [SetZ(z)] else []) + m.instrs, profile, fmt)
              && points == m.points
  {
    lines := [];
    ghost var zPart := if includeZ then [SetZ(z)] else [];
    if includeZ {
      lines := lines + ["G1 Z" + fmt.threeDecimals(z) + " ; Set Z height"];
    }
    var motion;
    ok, motion, points := EmitMotion(crv, on, power, speed, profile, useMetric, fmt);
    if !ok {
      return;
    }
    ghost var m := Motion(crv, on, power, speed, profile, useMetric);
    RenderAllAppend(zPart, m.instrs, profile, fmt);
    lines := lines + motion;
  }

  /** One more path extends the body, its points and its warnings by its
      own. */
  lemma BodyStep(recs: seq<Option<LaserPaths.PathRecord>>, i: nat, cnc: Option<CNCSettings>,
                 profile: MachineProfile, includeZ: bool, useMetric: bool, fmt: Formatter)
    requires i < |recs|
    ensures var o := PathOutcome(recs[i], cnc, profile, includeZ, useMetric);
            && RenderAll(Body(recs[..i + 1], cnc, profile, includeZ, useMetric), profile, fmt)
               == RenderAll(Body(recs[..i], cnc, profile, includeZ, useMetric), profile, fmt)
                  + RenderAll(OutcomeInstrs(o), profile, fmt)
            && BodyPoints(recs[..i + 1], cnc, profile, includeZ, useMetric)
               == BodyPoints(recs[..i], cnc, profile, includeZ, useMetric) + OutcomePoints(o)
            && Warnings(recs[..i + 1], cnc, profile, includeZ, useMetric)
               == Warnings(recs[..i], cnc, profile, includeZ, useMetric) + OutcomeWarnings(o)
  {
    var o := PathOutcome(recs[i], cnc, profile, includeZ, useMetric);
    var os := Outcomes(recs, cnc, profile, includeZ, useMetric);
    assert Outcomes(recs[..i + 1], cnc, profile, includeZ, useMetric) == os[..i + 1];
    assert Outcomes(recs[..i], cnc, profile, includeZ, useMetric) == os[..i];
    assert os[..i + 1][..i] == os[..i];
    RenderAllAppend(Body(recs[..i], cnc, profile, includeZ, useMetric), OutcomeInstrs(o), profile, fmt);
  }

  /** The foreach over the paths: the lines of the body of the program,
      the points and the warnings of the paths before the first one that
      fails, which ends the loop; `ok` says whether none failed. */
  method EmitPaths(paths: seq<LaserPaths.LaserPathData?>, profile: MachineProfile,
                   cnc: Option<CNCSettings>, includeZ: bool, useMetric: bool, fmt: Formatter)
    returns (ok: bool, text: seq<string>, points: seq<Point>, warnings: seq<string>)
    ensures var recs := LaserPaths.Records(paths);
            var k := FirstFailure(Outcomes(recs, cnc, profile, includeZ, useMetric));
            && (ok <==> k == |paths|)
            && text == RenderAll(Body(recs[..k], cnc, profile, includeZ, useMetric), profile, fmt)
            && points == BodyPoints(recs[..k], cnc, profile, includeZ, useMetric)
            && warnings == Warnings(recs[..k], cnc, profile, includeZ, useMetric)
  {
    ghost var recs := LaserPaths.Records(paths);
    ghost var os := Outcomes(recs, cnc, profile, includeZ, useMetric);
    ghost var k := FirstFailure(os);
    text, points, warnings := [], [], [];
    for i := 0 to |paths|
      invariant i <= k
      invariant text == RenderAll(Body(recs[..i], cnc, profile, includeZ, useMetric), profile, fmt)
      invariant points == BodyPoints(recs[..i], cnc, profile, includeZ, useMetric)
      invariant warnings == Warnings(recs[..i], cnc, profile, includeZ, useMetric)
    {
      var pathOk, lines, pts, warns := EmitPath(paths[i], cnc, profile, includeZ, useMetric, fmt);
      OutcomeAt(paths, i, cnc, profile, includeZ, useMetric);
      FailureStep(os, i);
      if !pathOk {
        return false, text, points, warnings;
      }
      PathStep(paths, i, lines, pts, warns, cnc, profile, includeZ, useMetric, fmt);
      text := text + lines;
      points := points + pts;
      warnings := warnings + warns;
    }
    assert recs[..|paths|] == recs;
    ok := true;
  }

  /** The outcome of entry i of the list of paths. */
  lemma OutcomeAt(paths: seq<LaserPaths.LaserPathData?>, i: nat, cnc: Option<CNCSettings>,
                  profile: MachineProfile, includeZ: bool, useMetric: bool)
    requires i < |paths|
    ensures Outcomes(LaserPaths.Records(paths), cnc, profile, includeZ, useMetric)[i]
            == PathOutcome(if paths[i] == null then None else Some(paths[i].Record()),
                           cnc, profile, includeZ, useMetric)
  {
    assert LaserPaths.Records(paths)[i] == (if paths[i] == null then None else Some(paths[i].Record()));
  }

  /** The foreach, having come through the first i outcomes, stops at
      outcome i exactly when it fails. */
  lemma FailureStep(os: seq<Outcome>, i: nat)
    requires i <= FirstFailure(os) && i < |os|
    ensures os[i].Failed? <==> FirstFailure(os) == i
  {
  }

  /** What one path adds, tied to the records of all the paths. */
  lemma PathStep(paths: seq<LaserPaths.LaserPathData?>, i: nat, lines: seq<string>, pts: seq<Point>,
                 warns: seq<string>, cnc: Option<CNCSettings>, profile: MachineProfile,
                 includeZ: bool, useMetric: bool, fmt: Formatter)
    requires i < |paths|
    requires var o := PathOutcome(if paths[i] == null then None else Some(paths[i].Record()),
                                  cnc, profile, includeZ, useMetric);
             && lines == RenderAll(OutcomeInstrs(o), profile, fmt)
             && pts == OutcomePoints(o)
             && warns == OutcomeWarnings(o)
    ensures var recs := LaserPaths.Records(paths);
            && RenderAll(Body(recs[..i + 1], cnc, profile, includeZ, useMetric), profile, fmt)
               == RenderAll(Body(recs[..i], cnc, profile, includeZ, useMetric), profile, fmt) + lines
            && BodyPoints(recs[..i + 1], cnc, profile, includeZ, useMetric)
               == BodyPoints(recs[..i], cnc, profile, includeZ, useMetric) + pts
            && Warnings(recs[..i + 1], cnc, profile, includeZ, useMetric)
               == Warnings(recs[..i], cnc, profile, includeZ, useMetric) + warns
  {
    var recs := LaserPaths.Records(paths);
    assert recs[i] == (if paths[i] == null then None else Some(paths[i].Record()));
    BodyStep(recs, i, cnc, profile, includeZ, useMetric, fmt);
  }

  /** The printed program: the three header lines, the printed body, the
      optional return to the origin and the end line. */
  lemma ProgramLines(recs: seq<Option<LaserPaths.PathRecord>>, cnc: Option<CNCSettings>,
                     profile: MachineProfile, returnToOrigin: bool, useInches: bool,
                     includeZ: bool, fmt: Formatter)
    ensures RenderAll(Program(recs, cnc, profile, returnToOrigin, useInches, includeZ), profile, fmt)
            == [BannerText, if useInches then "G20 ; Units in inches" else "G21 ; Units in mm",
                "G90 ; Absolute positioning"]
               + RenderAll(Body(recs, cnc, profile, includeZ, !useInches), profile, fmt)
               + (if returnToOrigin then ["G0 X0 Y0 ; Return to origin"] else [])
               + ["M2 ; End of program"]
  {
    FrameLines(Body(recs, cnc, profile, includeZ, !useInches), profile, returnToOrigin, useInches, fmt);
  }

  /** The printed frame around any body. */
  lemma FrameLines(b: seq<Instr>, profile: MachineProfile, returnToOrigin: bool, useInches: bool,
                   fmt: Formatter)
    ensures RenderAll(Header(useInches) + b + Trailer(returnToOrigin), profile, fmt)
            == [BannerText, if useInches then "G20 ; Units in inches" else "G21 ; Units in mm",
                "G90 ; Absolute positioning"]
               + RenderAll(b, profile, fmt)
               + (if returnToOrigin then ["G0 X0 Y0 ; Return to origin"] else [])
               + ["M2 ; End of program"]
  {
    RenderAllAppend(Header(useInches), b, profile, fmt);
    RenderAllAppend(Header(useInches) + b, Trailer(returnToOrigin), profile, fmt);
    var tail := RenderAll(Trailer(returnToOrigin), profile, fmt);
    if returnToOrigin {
      assert tail == ["G0 X0 Y0 ; Return to origin", "M2 ; End of program"];
    } else {
      assert tail == ["M2 ; End of program"];
    }
  }

  /** SolveInstance: the program text, the points recorded for the paths,
      one warning per path outside the work area, and the new value of the
      global unit flag (millimetres unless inches are asked for). When a
      path fails, SolveInstance ends with an exception: `ok` is false, no
      text and no points are output, the unit flag is set all the same and
      the warnings of the paths before it stay. */
  method Export(paths: seq<LaserPaths.LaserPathData?>, profile: MachineProfile,
                cnc: Option<CNCSettings>, returnToOrigin: bool, useInches: bool,
                includeZ: bool, fmt: Formatter)
    returns (ok: bool, text: seq<string>, points: seq<Point>, warnings: seq<string>, useMetric: bool)
    ensures useMetric == !useInches
    ensures var recs := LaserPaths.Records(paths);
            var k := FirstFailure(Outcomes(recs, cnc, profile, includeZ, useMetric));
            && (ok <==> k == |paths|)
            && (ok ==> text == RenderAll(Program(recs, cnc, profile, returnToOrigin, useInches, includeZ),
                                         profile, fmt)
                       && points == BodyPoints(recs, cnc, profile, includeZ, useMetric)
                       && warnings == Warnings(recs, cnc, profile, includeZ, useMetric))
            && (!ok ==> text == [] && points == []
                        && warnings == Warnings(recs[..k], cnc, profile, includeZ, useMetric))
  {
    useMetric := !useInches;
    var header := [BannerText, if useInches then "G20 ; Units in inches" else "G21 ; Units in mm",
                   "G90 ; Absolute positioning"];
    var body;
    ok, body, points, warnings := EmitPaths(paths, profile, cnc, includeZ, useMetric, fmt);
    ghost var recs := LaserPaths.Records(paths);
    if !ok {
      return false, [], [], warnings, useMetric;
    }
    assert recs[..|paths|] == recs;
    var trailer := if returnToOrigin then ["G0 X0 Y0 ; Return to origin"] else [];
    trailer := trailer + ["M2 ; End of program"];
    text := header + body + trailer;
    ProgramLines(LaserPaths.Records(paths), cnc, profile, returnToOrigin, useInches, includeZ, fmt);
  }

  // ---------------------------------------------------------------------
  // Properties of the program

  /** The lines a path block can hold: none of the header or trailer. */
  predicate IsBlockInstr(ins: Instr)
  {
    ins.SetZ? || ins.Rapid? || ins.LaserOn? || ins.Linear? || ins.ArcMove? || ins.LaserOff?
  }

  /** A cutting move. */
  predicate IsMove(ins: Instr)
  {
    ins.Linear? || ins.ArcMove?
  }

  /** An optional positioning move followed by the bracketed cutting
      moves: with the laser, exactly one laser-on line, right after the
      positioning move, and the laser-off line last, every cutting move
      between them; without it, no laser line at all. */
  lemma BracketShape(pre: seq<Instr>, on: bool, power: real, moves: seq<Instr>)
    requires |pre| <= 1 && forall k :: 0 <= k < |pre| ==> pre[k].Rapid?
    requires forall k :: 0 <= k < |moves| ==> IsMove(moves[k])
    ensures var m := pre + Bracket(on, power, moves);
            && (!on ==> forall k :: 0 <= k < |m| ==> !m[k].LaserOn? && !m[k].LaserOff?)
            && (on ==>
                  |m| == |pre| + |moves| + 2
                  && m[|pre|] == LaserOn(power) && m[|m| - 1] == LaserOff
                  && (forall k :: 0 <= k < |m| && k != |pre| ==> !m[k].LaserOn?)
                  && (forall k :: 0 <= k < |m| - 1 ==> !m[k].LaserOff?)
                  && (forall k :: 0 <= k < |m| && IsMove(m[k]) ==> |pre| < k < |m| - 1))
  {
    var m := pre + Bracket(on, power, moves);
    if on {
      assert m == pre + [LaserOn(power)] + moves + [LaserOff];
      forall k | 0 <= k < |m|
        ensures k < |pre| ==> m[k] == pre[k]
        ensures |pre| < k < |m| - 1 ==> m[k] == moves[k - |pre| - 1]
      {
      }
    }
  }

  /** The laser bracketing of a motion: with the laser, one laser-on line
      with the path's power, after the positioning G0 when there is one and
      first otherwise, and one laser-off line, last, after every cutting
      move; without the laser, no laser line. An empty polyline or sample
      list gives no line at all. */
  lemma LaserBracketing(c: Curve, on: bool, power: real, speed: real, profile: MachineProfile,
                        useMetric: bool)
    requires !MotionFails(c, profile)
    ensures var m := Motion(c, on, power, speed, profile, useMetric).instrs;
            && (!on ==> forall k :: 0 <= k < |m| ==> !m[k].LaserOn? && !m[k].LaserOff?)
            && (on && m != [] ==>
                  var pos := if m[0].Rapid? then 1 else 0;
                  && pos < |m| - 1
                  && m[pos] == LaserOn(power) && m[|m| - 1] == LaserOff
                  && (forall k :: 0 <= k < |m| && k != pos ==> !m[k].LaserOn?)
                  && (forall k :: 0 <= k < |m| - 1 ==> !m[k].LaserOff?)
                  && (forall k :: 0 <= k < |m| && IsMove(m[k]) ==> pos < k < |m| - 1))
  {
    if c.kind.LineCurve? {
      var pt := c.pointAtEnd;
      BracketShape([], on, power, [Linear(pt.x, pt.y, speed)]);
      assert Motion(c, on, power, speed, profile, useMetric).instrs
          == [] + Bracket(on, power, [Linear(pt.x, pt.y, speed)]);
    } else if ArcApplies(c, profile) {
      var a := c.kind.arc;
      var cmd := GeometryAnalyzer.GetArcCommand(a.startPoint, a.endPoint, a.center);
      var ij := GeometryAnalyzer.GetIJ(a.startPoint, a.center, useMetric);
      BracketShape([Rapid(a.startPoint.x, a.startPoint.y)], on, power,
                   [ArcMove(cmd, a.endPoint.x, a.endPoint.y, ij.x, ij.y, speed)]);
    } else if c.circle.Some? {
      var start := PointAtPi(c.circle.value);
      var ij := GeometryAnalyzer.GetIJ(start, c.circle.value.center, useMetric);
      BracketShape([Rapid(start.x, start.y)], on, power,
                   [ArcMove("G2", start.x, start.y, ij.x, ij.y, speed)]);
    } else {
      var vs := FallbackVertices(c).value;
      if |vs| > 0 {
        BracketShape([Rapid(vs[0].x, vs[0].y)], on, power, Moves(vs[1..], speed));
      }
    }
  }

  /** Line branch: no positioning G0, a single linear move to the end
      point at the path's speed, between the laser lines when the laser is
      on; only the end point is recorded. */
  lemma LineBlock(c: Curve, on: bool, power: real, speed: real, profile: MachineProfile,
                  useMetric: bool)
    requires c.kind.LineCurve?
    ensures var m := Motion(c, on, power, speed, profile, useMetric);
            && |m.instrs| == (if on then 3 else 1)
            && m.instrs[if on then 1 else 0] == Linear(c.pointAtEnd.x, c.pointAtEnd.y, speed)
            && (forall k :: 0 <= k < |m.instrs| ==> !m.instrs[k].Rapid?)
            && m.points == [c.pointAtEnd]
  {
  }

  /** Arc branch (a valid ArcCurve on a machine with G2/G3): a G0 to the
      arc's start, then the direction GeometryAnalyzer.GetArcCommand gives,
      to the arc's end printed as it is, with I/J the offset from the start
      to the centre, divided by 25.4 in inch mode while the X/Y are not;
      the start and the end are recorded. */
  lemma ArcBlock(c: Curve, on: bool, power: real, speed: real, profile: MachineProfile,
                 useMetric: bool)
    requires ArcApplies(c, profile)
    ensures var a := c.kind.arc;
            var m := Motion(c, on, power, speed, profile, useMetric);
            && |m.instrs| == (if on then 4 else 2)
            && m.instrs[0] == Rapid(a.startPoint.x, a.startPoint.y)
            && m.points == [a.startPoint, a.endPoint]
            && (var mv := m.instrs[if on then 2 else 1];
                && mv.ArcMove?
                && mv.cmd == GeometryAnalyzer.GetArcCommand(a.startPoint, a.endPoint, a.center)
                && mv.x == a.endPoint.x && mv.y == a.endPoint.y && mv.feed == speed
                && (useMetric ==> a.startPoint.x + mv.i == a.center.x
                                  && a.startPoint.y + mv.j == a.center.y)
                && (!useMetric ==> mv.i * GeometryAnalyzer.MmPerInch == a.center.x - a.startPoint.x
                                   && mv.j * GeometryAnalyzer.MmPerInch == a.center.y - a.startPoint.y))
  {
  }

  /** Circle branch, reached whenever the curve is neither a line nor an
      arc the machine may print as one, G2/G3 support or not: a G0 to the
      point at angle pi and a "G2" back to that same point, with I/J the
      offset from it to the centre (in millimetres when metric); only the
      start is recorded. */
  lemma CircleBlock(c: Curve, on: bool, power: real, speed: real, profile: MachineProfile,
                    useMetric: bool)
    requires !c.kind.LineCurve? && !ArcApplies(c, profile) && c.circle.Some?
    ensures var start := PointAtPi(c.circle.value);
            var center := c.circle.value.center;
            var m := Motion(c, on, power, speed, profile, useMetric);
            && |m.instrs| == (if on then 4 else 2)
            && m.instrs[0] == Rapid(start.x, start.y)
            && m.points == [start]
            && (var mv := m.instrs[if on then 2 else 1];
                && mv.ArcMove? && mv.cmd == "G2"
                && mv.x == start.x && mv.y == start.y && mv.feed == speed
                && (useMetric ==> start.x + mv.i == center.x && start.y + mv.j == center.y))
  {
  }

  /** Polyline and sample branches: nothing at all for an empty vertex
      list; otherwise a G0 to vertex 0 and one linear move per later vertex,
      in order, at the path's speed, and only vertices 1..n-1 recorded. The
      simplified polyline is used when there is one, the samples
      otherwise. */
  lemma FallbackBlock(c: Curve, on: bool, power: real, speed: real, profile: MachineProfile,
                      useMetric: bool)
    requires !c.kind.LineCurve? && !ArcApplies(c, profile) && c.circle.None?
    requires FallbackVertices(c).Some?
    ensures var vs := FallbackVertices(c).value;
            var m := Motion(c, on, power, speed, profile, useMetric);
            && (vs == [] ==> m.instrs == [] && m.points == [])
            && (vs != [] ==>
                  var off := if on then 1 else 0;
                  && |m.instrs| == |vs| + 2 * off
                  && m.instrs[0] == Rapid(vs[0].x, vs[0].y)
                  && m.instrs[1 + off..|vs| + off] == Moves(vs[1..], speed)
                  && m.points == vs[1..])
  {
    var vs := FallbackVertices(c).value;
    FallbackIsRun(c, on, power, speed, profile, useMetric);
    VertexRunShape(vs, on, power, speed);
  }

  /** The fallback motion is the run through the polyline of the
      simplified curve, or else through the samples of the curve itself,
      whatever the polyline of the curve itself is. */
  lemma FallbackIsRun(c: Curve, on: bool, power: real, speed: real, profile: MachineProfile,
                      useMetric: bool)
    requires !c.kind.LineCurve? && !ArcApplies(c, profile) && c.circle.None?
    requires FallbackVertices(c).Some?
    ensures c.simplified.Some? && c.simplified.value.polyline.Some? ==>
              Motion(c, on, power, speed, profile, useMetric)
              == VertexRun(c.simplified.value.polyline.value, on, power, speed)
    ensures !(c.simplified.Some? && c.simplified.value.polyline.Some?) ==>
              Motion(c, on, power, speed, profile, useMetric) == VertexRun(c.samples.value, on, power, speed)
  {
  }

  /** A run is empty for no vertices; otherwise a G0 to vertex 0, then
      one linear move per later vertex, in order, inside the optional laser
      bracket, recording vertices 1..n-1. */
  lemma VertexRunShape(vs: seq<Point>, on: bool, power: real, speed: real)
    ensures var m := VertexRun(vs, on, power, speed);
            && (vs == [] ==> m.instrs == [] && m.points == [])
            && (vs != [] ==>
                  var off := if on then 1 else 0;
                  && |m.instrs| == |vs| + 2 * off
                  && m.instrs[0] == Rapid(vs[0].x, vs[0].y)
                  && m.instrs[1 + off..|vs| + off] == Moves(vs[1..], speed)
                  && m.points == vs[1..])
  {
    if vs != [] {
      var m := VertexRun(vs, on, power, speed);
      var mv := Moves(vs[1..], speed);
      var pre := [Rapid(vs[0].x, vs[0].y)] + (if on then [LaserOn(power)] else []);
      var post := if on then [LaserOff] else [];
      var off := if on then 1 else 0;
      assert m.instrs == pre + mv + post;
      assert |pre| == 1 + off && |post| == off;
      assert m.instrs[1 + off..|vs| + off] == mv by {
        MiddleSlice(pre, mv, post);
      }
    }
  }

  /** The middle part of a concatenation of three lists. */
  lemma MiddleSlice<T>(pre: seq<T>, mid: seq<T>, post: seq<T>)
    ensures (pre + mid + post)[|pre|..|pre| + |mid|] == mid
  {
    assert pre + mid + post == pre + (mid + post);
  }

  /** What becomes of one entry: a null entry or a missing or invalid
      curve is skipped without a warning; a curve whose bounding box leaves
      the work area [0, WidthX] x [0, DepthY] is skipped with a warning
      (never without machine settings); an entry whose motion would read a
      null sample array fails; every other entry is printed, led by its Z
      line when asked, at the path's own Z, else the machine's height,
      else 0. */
  lemma OutcomeCases(rec: Option<LaserPaths.PathRecord>, cnc: Option<CNCSettings>,
                     profile: MachineProfile, includeZ: bool, useMetric: bool)
    ensures var o := PathOutcome(rec, cnc, profile, includeZ, useMetric);
            && (o.Skipped? <==> rec.None? || rec.value.curve.None? || !rec.value.curve.value.isValid)
            && (o.OutsideArea? <==>
                  rec.Some? && LaserPaths.Usable(rec.value.curve) && cnc.Some?
                  && var b := rec.value.curve.value.bbox;
                     (b.max.x > cnc.value.widthX || b.max.y > cnc.value.depthY
                      || b.min.x < 0.0 || b.min.y < 0.0))
            && (o.Failed? <==>
                  rec.Some? && LaserPaths.Usable(rec.value.curve)
                  && !OutOfArea(rec.value.curve.value.bbox, cnc)
                  && MotionFails(rec.value.curve.value, profile))
            && (o.Emitted? && includeZ ==>
                  var r := rec.value;
                  && |o.block.instrs| > 0
                  && o.block.instrs[0]
                     == SetZ(if r.z.Some? then r.z.value else if cnc.Some? then cnc.value.heightZ else 0.0)
                  && o.block.instrs[1..] == Motion(r.curve.value, r.isLaserOn, r.intensite,
                                                   r.vitesse, profile, useMetric).instrs)
            && (o.Emitted? && !includeZ ==>
                  forall k :: 0 <= k < |o.block.instrs| ==> !o.block.instrs[k].SetZ?)
            && (o.Emitted? ==> forall k :: 0 <= k < |o.block.instrs| ==> IsBlockInstr(o.block.instrs[k]))
  {
    var o := PathOutcome(rec, cnc, profile, includeZ, useMetric);
    if o.Emitted? {
      var r := rec.value;
      MotionInstrs(r.curve.value, r.isLaserOn, r.intensite, r.vitesse, profile, useMetric);
    }
  }

  /** A motion holds only positioning, laser and cutting lines. */
  lemma MotionInstrs(c: Curve, on: bool, power: real, speed: real, profile: MachineProfile,
                     useMetric: bool)
    requires !MotionFails(c, profile)
    ensures var m := Motion(c, on, power, speed, profile, useMetric).instrs;
            forall k :: 0 <= k < |m| ==> IsBlockInstr(m[k]) && !m[k].SetZ?
  {
    if !c.kind.LineCurve? && !ArcApplies(c, profile) && c.circle.None? {
      var vs := FallbackVertices(c).value;
      if vs != [] {
        var m := Motion(c, on, power, speed, profile, useMetric).instrs;
        assert m == [Rapid(vs[0].x, vs[0].y)] + Bracket(on, power, Moves(vs[1..], speed));
      }
    }
  }

  /** One failing path anywhere in the list ends the foreach at or before
      it, whatever the paths after it are: the component then outputs
      nothing. */
  lemma FailedPathAborts(before: seq<Option<LaserPaths.PathRecord>>, rec: Option<LaserPaths.PathRecord>,
                         after: seq<Option<LaserPaths.PathRecord>>, cnc: Option<CNCSettings>,
                         profile: MachineProfile, includeZ: bool, useMetric: bool)
    requires PathOutcome(rec, cnc, profile, includeZ, useMetric).Failed?
    ensures FirstFailure(Outcomes(before + [rec] + after, cnc, profile, includeZ, useMetric)) <= |before|
  {
    var os := Outcomes(before + [rec] + after, cnc, profile, includeZ, useMetric);
    assert os[|before|].Failed?;
  }

  /** The body holds only block lines. */
  lemma BodyInstrs(recs: seq<Option<LaserPaths.PathRecord>>, cnc: Option<CNCSettings>,
                   profile: MachineProfile, includeZ: bool, useMetric: bool)
    ensures var b := Body(recs, cnc, profile, includeZ, useMetric);
            forall k :: 0 <= k < |b| ==> IsBlockInstr(b[k])
  {
    var os := Outcomes(recs, cnc, profile, includeZ, useMetric);
    forall k | 0 <= k < |os|
      ensures forall j :: 0 <= j < |OutcomeInstrs(os[k])| ==> IsBlockInstr(OutcomeInstrs(os[k])[j])
    {
      OutcomeCases(recs[k], cnc, profile, includeZ, useMetric);
    }
    InstrsOfBlock(os);
  }

  /** Outcomes made of block lines give block lines. */
  lemma {:induction false} InstrsOfBlock(os: seq<Outcome>)
    requires forall k :: 0 <= k < |os| ==>
               forall j :: 0 <= j < |OutcomeInstrs(os[k])| ==> IsBlockInstr(OutcomeInstrs(os[k])[j])
    ensures forall k :: 0 <= k < |InstrsOf(os)| ==> IsBlockInstr(InstrsOf(os)[k])
  {
    if os != [] {
      var front, o := os[..|os| - 1], OutcomeInstrs(os[|os| - 1]);
      InstrsOfBlock(front);
      var b0 := InstrsOf(front);
      forall k | 0 <= k < |InstrsOf(os)|
        ensures IsBlockInstr(InstrsOf(os)[k])
      {
        if k >= |b0| {
          assert InstrsOf(os)[k] == o[k - |b0|];
        } else {
          assert InstrsOf(os)[k] == b0[k];
        }
      }
    }
  }

  /** The frame of every program: exactly the three header lines first
      (banner, G20 in inches or G21 in millimetres, G90); the end of
      program as the last line and nowhere else; the return to the origin
      right before it when asked, and nowhere at all otherwise. */
  lemma ProgramFrame(recs: seq<Option<LaserPaths.PathRecord>>, cnc: Option<CNCSettings>,
                     profile: MachineProfile, returnToOrigin: bool, useInches: bool,
                     includeZ: bool)
    ensures var p := Program(recs, cnc, profile, returnToOrigin, useInches, includeZ);
            && |p| >= 4
            && p[..3] == [Banner, Units(useInches), Absolute]
            && (forall k :: 3 <= k < |p| ==> !p[k].Banner? && !p[k].Units? && !p[k].Absolute?)
            && p[|p| - 1] == End
            && (forall k :: 0 <= k < |p| - 1 ==> p[k] != End)
            && (returnToOrigin <==> p[|p| - 2] == ReturnOrigin)
            && (forall k :: 0 <= k < |p| && p[k] == ReturnOrigin ==> returnToOrigin && k == |p| - 2)
  {
    BodyInstrs(recs, cnc, profile, includeZ, !useInches);
    FrameAround(Body(recs, cnc, profile, includeZ, !useInches), returnToOrigin, useInches);
  }

  /** The header and trailer around any body of block instructions. */
  lemma FrameAround(b: seq<Instr>, returnToOrigin: bool, useInches: bool)
    requires forall k :: 0 <= k < |b| ==> IsBlockInstr(b[k])
    ensures var p := Header(useInches) + b + Trailer(returnToOrigin);
            && |p| >= 4
            && p[..3] == [Banner, Units(useInches), Absolute]
            && (forall k :: 3 <= k < |p| ==> !p[k].Banner? && !p[k].Units? && !p[k].Absolute?)
            && p[|p| - 1] == End
            && (forall k :: 0 <= k < |p| - 1 ==> p[k] != End)
            && (returnToOrigin <==> p[|p| - 2] == ReturnOrigin)
            && (forall k :: 0 <= k < |p| && p[k] == ReturnOrigin ==> returnToOrigin && k == |p| - 2)
  {
    var h, t := Header(useInches), Trailer(returnToOrigin);
    var p := h + b + t;
    forall k | 0 <= k < |p|
      ensures k < 3 ==> p[k] == h[k]
      ensures 3 <= k < 3 + |b| ==> p[k] == b[k - 3]
      ensures 3 + |b| <= k ==> p[k] == t[k - 3 - |b|]
    {
    }
    if !returnToOrigin && b == [] {
      assert p[|p| - 2] == Absolute;
    }
  }

  /** Concatenating outcome lists concatenates their instructions. */
  lemma {:induction false} InstrsOfAppend(x: seq<Outcome>, y: seq<Outcome>)
    ensures InstrsOf(x + y) == InstrsOf(x) + InstrsOf(y)
    decreases |y|
  {
    if y == [] {
      assert x + y == x;
    } else {
      assert (x + y)[..|x + y| - 1] == x + y[..|y| - 1];
      InstrsOfAppend(x, y[..|y| - 1]);
    }
  }

  /** Likewise their points. */
  lemma {:induction false} PointsOfAppend(x: seq<Outcome>, y: seq<Outcome>)
    ensures PointsOf(x + y) == PointsOf(x) + PointsOf(y)
    decreases |y|
  {
    if y == [] {
      assert x + y == x;
    } else {
      assert (x + y)[..|x + y| - 1] == x + y[..|y| - 1];
      PointsOfAppend(x, y[..|y| - 1]);
    }
  }

  /** Likewise their warnings. */
  lemma {:induction false} WarningsOfAppend(x: seq<Outcome>, y: seq<Outcome>)
    ensures WarningsOf(x + y) == WarningsOf(x) + WarningsOf(y)
    decreases |y|
  {
    if y == [] {
      assert x + y == x;
    } else {
      assert (x + y)[..|x + y| - 1] == x + y[..|y| - 1];
      WarningsOfAppend(x, y[..|y| - 1]);
    }
  }

  /** The program is built path by path, in the order of the list: the
      body, the points and the warnings of two lists one after the other
      are those of the first followed by those of the second. */
  lemma BodyAppend(a: seq<Option<LaserPaths.PathRecord>>, b: seq<Option<LaserPaths.PathRecord>>,
                   cnc: Option<CNCSettings>, profile: MachineProfile, includeZ: bool, useMetric: bool)
    ensures Body(a + b, cnc, profile, includeZ, useMetric)
            == Body(a, cnc, profile, includeZ, useMetric) + Body(b, cnc, profile, includeZ, useMetric)
    ensures BodyPoints(a + b, cnc, profile, includeZ, useMetric)
            == BodyPoints(a, cnc, profile, includeZ, useMetric)
               + BodyPoints(b, cnc, profile, includeZ, useMetric)
    ensures Warnings(a + b, cnc, profile, includeZ, useMetric)
            == Warnings(a, cnc, profile, includeZ, useMetric) + Warnings(b, cnc, profile, includeZ, useMetric)
  {
    var x := Outcomes(a, cnc, profile, includeZ, useMetric);
    var y := Outcomes(b, cnc, profile, includeZ, useMetric);
    assert Outcomes(a + b, cnc, profile, includeZ, useMetric) == x + y;
    InstrsOfAppend(x, y);
    PointsOfAppend(x, y);
    WarningsOfAppend(x, y);
  }

  /** A single path contributes exactly its outcome. */
  lemma BodySingle(rec: Option<LaserPaths.PathRecord>, cnc: Option<CNCSettings>,
                   profile: MachineProfile, includeZ: bool, useMetric: bool)
    ensures var o := PathOutcome(rec, cnc, profile, includeZ, useMetric);
            && Body([rec], cnc, profile, includeZ, useMetric) == OutcomeInstrs(o)
            && BodyPoints([rec], cnc, profile, includeZ, useMetric) == OutcomePoints(o)
            && Warnings([rec], cnc, profile, includeZ, useMetric) == OutcomeWarnings(o)
  {
    var o := PathOutcome(rec, cnc, profile, includeZ, useMetric);
    var os := Outcomes([rec], cnc, profile, includeZ, useMetric);
    assert os == [o];
    assert os[..0] == [];
    assert InstrsOf(os) == InstrsOf([]) + OutcomeInstrs(o);
    assert PointsOf(os) == PointsOf([]) + OutcomePoints(o);
    assert WarningsOf(os) == WarningsOf([]) + OutcomeWarnings(o);
  }

  /** A path skipped or outside the work area leaves no line and no point,
      and the paths after it are still processed: the export succeeds with
      it iff it succeeds without it, and the body is that of the list
      without it. Only a path outside the work area adds a warning, exactly
      one. (A failing path instead stops the foreach: FailedPathAborts.) */
  lemma DroppedPath(before: seq<Option<LaserPaths.PathRecord>>, rec: Option<LaserPaths.PathRecord>,
                    after: seq<Option<LaserPaths.PathRecord>>, cnc: Option<CNCSettings>,
                    profile: MachineProfile, includeZ: bool, useMetric: bool)
    requires PathOutcome(rec, cnc, profile, includeZ, useMetric).Skipped?
             || PathOutcome(rec, cnc, profile, includeZ, useMetric).OutsideArea?
    ensures FirstFailure(Outcomes(before + [rec] + after, cnc, profile, includeZ, useMetric))
              == |before| + 1 + |after|
            <==> FirstFailure(Outcomes(before + after, cnc, profile, includeZ, useMetric))
                   == |before| + |after|
    ensures Body(before + [rec] + after, cnc, profile, includeZ, useMetric)
            == Body(before + after, cnc, profile, includeZ, useMetric)
    ensures BodyPoints(before + [rec] + after, cnc, profile, includeZ, useMetric)
            == BodyPoints(before + after, cnc, profile, includeZ, useMetric)
    ensures Warnings(before + [rec] + after, cnc, profile, includeZ, useMetric)
            == Warnings(before, cnc, profile, includeZ, useMetric)
               + (if PathOutcome(rec, cnc, profile, includeZ, useMetric).OutsideArea?
                  then [WarningText] else [])
               + Warnings(after, cnc, profile, includeZ, useMetric)
  {
    var o := PathOutcome(rec, cnc, profile, includeZ, useMetric);
    var x := Outcomes(before, cnc, profile, includeZ, useMetric);
    var y := Outcomes(after, cnc, profile, includeZ, useMetric);
    assert Outcomes(before + [rec] + after, cnc, profile, includeZ, useMetric) == x + [o] + y;
    assert Outcomes(before + after, cnc, profile, includeZ, useMetric) == x + y;
    DroppedOutcome(x, o, y);
    NoFailureDropped(x, o, y);
  }

  /** Removing an outcome that does not fail keeps "no outcome fails". */
  lemma NoFailureDropped(x: seq<Outcome>, o: Outcome, y: seq<Outcome>)
    requires !o.Failed?
    ensures FirstFailure(x + [o] + y) == |x| + 1 + |y| <==> FirstFailure(x + y) == |x| + |y|
  {
    assert [o][1..] == [];
    assert FirstFailure([o]) == 1;
    FirstFailureAppend(x + [o], y);
    FirstFailureAppend(x, [o]);
    FirstFailureAppend(x, y);
  }

  /** The first failure of a concatenation is that of its first part, or,
      when the first part has none, the second part's shifted past it. */
  lemma {:induction false} FirstFailureAppend(x: seq<Outcome>, y: seq<Outcome>)
    ensures FirstFailure(x + y)
            == if FirstFailure(x) < |x| then FirstFailure(x) else |x| + FirstFailure(y)
  {
    if x == [] {
      assert x + y == y;
    } else if x[0].Failed? {
      assert (x + y)[0] == x[0];
    } else {
      assert (x + y)[0] == x[0];
      assert (x + y)[1..] == x[1..] + y;
      FirstFailureAppend(x[1..], y);
    }
  }

  /** An outcome without lines or points drops out of the concatenation. */
  lemma DroppedOutcome(x: seq<Outcome>, o: Outcome, y: seq<Outcome>)
    requires !o.Emitted?
    ensures InstrsOf(x + [o] + y) == InstrsOf(x + y)
    ensures PointsOf(x + [o] + y) == PointsOf(x + y)
    ensures WarningsOf(x + [o] + y) == WarningsOf(x) + OutcomeWarnings(o) + WarningsOf(y)
  {
    DroppedInstrs(x, o, y);
    DroppedPoints(x, o, y);
    DroppedWarnings(x, o, y);
  }

  lemma DroppedInstrs(x: seq<Outcome>, o: Outcome, y: seq<Outcome>)
    requires !o.Emitted?
    ensures InstrsOf(x + [o] + y) == InstrsOf(x + y)
  {
    var xo := x + [o];
    assert xo[..|x|] == x;
    assert InstrsOf(xo) == InstrsOf(x) + [];
    InstrsOfAppend(xo, y);
    InstrsOfAppend(x, y);
  }

  lemma DroppedPoints(x: seq<Outcome>, o: Outcome, y: seq<Outcome>)
    requires !o.Emitted?
    ensures PointsOf(x + [o] + y) == PointsOf(x + y)
  {
    var xo := x + [o];
    assert xo[..|x|] == x;
    assert PointsOf(xo) == PointsOf(x) + [];
    PointsOfAppend(xo, y);
    PointsOfAppend(x, y);
  }

  lemma DroppedWarnings(x: seq<Outcome>, o: Outcome, y: seq<Outcome>)
    ensures WarningsOf(x + [o] + y) == WarningsOf(x) + OutcomeWarnings(o) + WarningsOf(y)
  {
    var xo := x + [o];
    assert xo[..|x|] == x;
    WarningsOfAppend(xo, y);
  }

  /** Every warning is the work-area warning, there is at most one per
      path, and there is none without machine settings. */
  lemma WarningsBound(recs: seq<Option<LaserPaths.PathRecord>>, cnc: Option<CNCSettings>,
                      profile: MachineProfile, includeZ: bool, useMetric: bool)
    ensures var w := Warnings(recs, cnc, profile, includeZ, useMetric);
            && |w| <= |recs|
            && (forall k :: 0 <= k < |w| ==> w[k] == WarningText)
            && (cnc.None? ==> w == [])
  {
    WarningsOfBound(Outcomes(recs, cnc, profile, includeZ, useMetric));
  }

  /** At most one warning per outcome, all the same, and none when no
      outcome is outside the area. */
  lemma {:induction false} WarningsOfBound(os: seq<Outcome>)
    ensures var w := WarningsOf(os);
            && |w| <= |os|
            && (forall k :: 0 <= k < |w| ==> w[k] == WarningText)
            && ((forall k :: 0 <= k < |os| ==> !os[k].OutsideArea?) ==> w == [])
  {
    if os != [] {
      WarningsOfBound(os[..|os| - 1]);
    }
  }
}
