# JEDI toolpath core in Dafny

JEDI is a set of Grasshopper components that turn Rhino curves into laser
toolpaths and G-code. This project models the part of it that computes:

- **GCodeExporterFULL**: the G-code compiler. It emits a fixed header, then
  one block per laser path, then an optional return to the origin and
  `M2`. A path with a missing or invalid curve is skipped. A path outside
  the CNC work area is skipped with a warning. Each block has an optional
  Z line, then the first representation that applies: line, arc (only
  with G2/G3 support), circle, simplified polyline, equidistant samples.
  Each motion is bracketed by the laser on/off lines when the laser is on.
- **GeometryAnalyzer** and **ArcUtilities**: arc direction (G2/G3), I/J
  offsets, millimetre/inch conversion, and the centre of an arc given by
  its end points and radius.
- **GeometryToGCodeHelper**: the stand-alone arc and circle emitters.
- **LaserPathData**: a path's laser settings and the classification of its
  curve, computed by the constructor.
- **PathOptimizerV2**: greedy nearest-end-point ordering, repeated for a
  number of iterations, keeping the best total.
- **LASERPATH-S**: cut entries for a list of curves, with laser-off
  transfer moves inserted across gaps.
- **GCodeCommandBuilder**: a hand-written block of commands.
- **PathAnalysisComponent**: machining time and distance totals.
- **ZprofilMAPPER** and **LaserDynamiqueZpath**: a Z profile mapped onto the
  vertices of a curve by a formula in x, y and the length travelled.
- **DxfExportComponent.SanitizeLayerName**: layer names made safe for use
  as file names.

Rhino geometry is a datatype (`Geometry.Curve`). Its fields carry the
answers Rhino's own algorithms give about the curve: validity, end points,
TryGetCircle, TryGetPolyline, Simplify (itself a curve, or null),
DivideEquidistant (a point array, or null), the bounding box and the
length. The exporter walks the polyline of the simplified curve, or else
the samples of the original curve. The two Z mappers walk
`Simplify(...) ?? path`: its polyline, or else its own samples. A null
sample array is dereferenced by the exporter (`pts.Length`) and handed to
`new Polyline(...)` by the mappers. Both raise an exception, which the
model states as a failure outcome: the component outputs nothing. `Math.Sqrt` is a parameter `sqrt`, constrained where a
proof needs it by `IsSqrt`. .NET number formatting (`"0.###"`, `"0.#"`,
`string.Format` templates, `ToString`) is a `Formatter` record of functions.
The static mutable `GeometryAnalyzer.UseMetric` is an explicit `useMetric`
parameter; the exporter returns the value it sets. A StringBuilder becomes
the sequence of lines given to `AppendLine`. The exporter builds a
structured `Instr` program, and the lines are that program rendered.
Coordinates are exact reals.

The four places that decide an arc's direction use different operand
orders and thresholds. `DirectionConventions` states where they agree and
where they do not, without changing any of them.

The model follows the code as written, including these points where it
does less than its own names suggest:

- PathOptimizerV2 computes a `reverse` flag for the chosen path
  (PathOptimizerV2.cs:70, 84, 90) and never reads it. The path is added
  unreversed, and the position moves to its end point whichever end was
  nearer (PathOptimizerV2.cs:99-100).
- The total distance adds each path's start-to-end chord
  (PathOptimizerV2.cs:101), not the travel to the chosen end point.
- Arc direction is computed with different operand orders in different
  files (ArcUtilities.cs:40-46, ArcCircleInfo.cs:34-38 and 70-76,
  GeometryToGCodeHelper.cs:26-28, LaserPathData.cs:60-62).
- Invalid curves are skipped without a message by the exporter, the
  analysis and LASERPATH-S (GCodeExport-FULL.cs:77,
  PathAnalysisComponent.cs:48-51, LASERPATH-S.cs:52).
- LASERPATH-S passes (speed, intensity) to a constructor that takes
  (intensite, vitesse) (LASERPATH-S.cs:61, 67). So a cut stores the
  speed as Intensite and the intensity as Vitesse, and a transfer stores
  Intensite = speed and Vitesse = 0.

## Model

| member | source | states |
|---|---|---|
| GeometryAnalyzer.ConvertUnit | JEDI/Models/ArcCircleInfo.cs:85-89 | identity in millimetres; in inches each converted coordinate times 25.4 is the original |
| GeometryAnalyzer.GetArcCommand | JEDI/Models/ArcCircleInfo.cs:70-76 | only "G2" or "G3"; "G2" exactly when the z of (start − center) × (end − center) is negative |
| GeometryAnalyzer.GetIJ | JEDI/Models/ArcCircleInfo.cs:78-83 | metric: center − start; inches: I/J times 25.4 is center − start |
| GeometryAnalyzer.FromArcCurve | JEDI/Models/ArcCircleInfo.cs:20-48 | null exactly for an invalid curve or arc; otherwise converted start, end and centre, radius divided by 25.4 only in inches, clockwise iff ((s − c) × (e − s)) · normal > 0 |
| GeometryAnalyzer.FromCircle | JEDI/Models/ArcCircleInfo.cs:50-68 | start = end = the converted point at angle π, converted centre and radius, always clockwise |
| GeometryAnalyzer.SwapReversesCommand | JEDI/Models/ArcCircleInfo.cs:70-76 | swapping start and end negates the turn and flips G2/G3 when the turn is non-zero; a zero turn gives "G3" both ways |
| GeometryAnalyzer.CircleIJ | JEDI/Models/ArcCircleInfo.cs:78-83 | a full circle's metric I/J from the point at π is the radius along the circle's X axis |
| GeometryAnalyzer.InchOffsetsScale | JEDI/Models/ArcCircleInfo.cs:85-89 | inch-mode I/J times 25.4 is the metric I/J |
| Geometry.PointAtPi | JEDI/Models/ArcCircleInfo.cs:54 | the point at angle π lies one radius from the centre along −X of the circle's plane |
| Geometry.LineCurveOf | JEDI/Components/LASERPATH-S.cs:60 | a new LineCurve runs from a to b, is valid iff a ≠ b, and its bounding box holds both points |
| Geometry.DistMetric | JEDI/Components/PathOptimizerV2.cs:77-78 | DistanceTo is non-negative and symmetric |
| ArcUtilities.ChordFacts | JEDI/Models/ArcUtilities.cs:15-17 | the chord q is positive for distinct end points and q² is the squared distance |
| ArcUtilities.CenterDistanceFacts | JEDI/Models/ArcUtilities.cs:28 | when the chord fits, d = sqrt(r² − (q/2)²) is non-negative with d² + (q/2)² = r², positive when q < 2r |
| ArcUtilities.CenterOffset | JEDI/Models/ArcUtilities.cs:28-30 | the offset (ox, oy) is perpendicular to the chord, d long, to its left (cross product d·q), z = 0 |
| ArcUtilities.OffsetFacts | JEDI/Models/ArcUtilities.cs:29-30 | (−dy, dx) scaled by d/q is perpendicular, d long, with cross product d·q |
| ArcUtilities.TryGetArcCenter | JEDI/Models/ArcUtilities.cs:8-38 | no centre exactly when the chord exceeds 2·radius (so none for coincident ends and a negative radius); otherwise z = 0 and equidistant from both ends |
| ArcUtilities.EquidistantFromEnds | JEDI/Models/ArcUtilities.cs:25-35 | the midpoint plus or minus a perpendicular offset is equally far from both end points |
| ArcUtilities.CenterAtRadius | JEDI/Models/ArcUtilities.cs:25-37 | the centre found is at distance radius from both end points |
| ArcUtilities.CenterFromOrigin | JEDI/Models/ArcUtilities.cs:25-35 | the centre found is at distance radius from the origin |
| ArcUtilities.OffsetLength | JEDI/Models/ArcUtilities.cs:28-30 | ox² + oy² = r² − (q/2)² |
| ArcUtilities.CenterCoordinates | JEDI/Models/ArcUtilities.cs:25-35 | centre − origin is half the chord plus the offset (clockwise) or minus it |
| ArcUtilities.CenterSide | JEDI/Models/ArcUtilities.cs:32-35 | the "clockwise" centre gives GeometryAnalyzer a non-negative turn, the other a non-positive one, non-zero when q < 2r |
| ArcUtilities.CenterTurn | JEDI/Models/ArcUtilities.cs:32-35 | the turn about the centre found is d·q, negated for counter-clockwise |
| ArcUtilities.OffsetAreaSign | JEDI/Models/ArcUtilities.cs:28-30 | d·q ≥ 0, and > 0 when the chord is shorter than the diameter |
| ArcUtilities.CentersReflect | JEDI/Models/ArcUtilities.cs:32-35 | the two centres are mirror images through the chord midpoint |
| ArcUtilities.GetArcCommand | JEDI/Models/ArcUtilities.cs:40-46 | only "G2" or "G3"; "G2" exactly when ((start − center) × (end − start)).z < 0 |
| ArcUtilities.GetIJ | JEDI/Models/ArcUtilities.cs:48-51 | start + I/J is the centre, with no unit conversion |
| ArcUtilities.GetIJIgnoresUnits | JEDI/Models/ArcUtilities.cs:48-51 | equal to GeometryAnalyzer's metric I/J, and both components are 25.4 times its inch I/J |
| DirectionConventions.UtilitiesAgreeWithAnalyzer | JEDI/Models/ArcUtilities.cs:40-46 | ArcUtilities and GeometryAnalyzer always print the same code |
| DirectionConventions.HelperOpposesAnalyzer | JEDI/Models/GeometryToGCodeHelper.cs:26-28 | with normal +Z the helper always prints the other code than GeometryAnalyzer |
| DirectionConventions.HelperAgreesBelow | JEDI/Models/GeometryToGCodeHelper.cs:26-28 | with normal −Z they agree except on a zero turn (helper "G2", analyzer "G3") |
| DirectionConventions.ClockwiseMeansG3 | JEDI/Models/LaserPathData.cs:60-62 | IsClockwise iff the analyzer's turn is positive; a clockwise arc is printed "G3"; a non-zero "G3" arc is clockwise |
| DirectionConventions.ZeroTurnIsNotClockwise | JEDI/Models/LaserPathData.cs:60-62 | an arc with start = end is not clockwise yet is printed "G3" |
| DirectionConventions.FromArcCurveAgreesWithLaserPath | JEDI/Models/ArcCircleInfo.cs:34-38 | with normal +Z, FromArcCurve's Clockwise equals LaserPathData's IsClockwise |
| DirectionConventions.ClockwiseCentreGivesG3 | JEDI/Models/ArcUtilities.cs:32-35 | the centre found with clockwise = true makes both GetArcCommand print "G3" when q < 2r |
| DirectionConventions.HelperOffsetIsNegated | JEDI/Models/GeometryToGCodeHelper.cs:22 | the helper's I/J is the negation of both GetIJ (metric) |
| GeometryToGCodeHelper.HelperArcCommand | JEDI/Models/GeometryToGCodeHelper.cs:26-28 | only "G2" or "G3"; "G2" exactly when ((s − c) × (e − s)) · normal ≥ 0 |
| GeometryToGCodeHelper.BlockShape | JEDI/Models/GeometryToGCodeHelper.cs:30-39 | 2 lines without the laser, 4 with: G0 first, then M3, the cut and M5 last |
| GeometryToGCodeHelper.ExportArcToGCode | JEDI/Models/GeometryToGCodeHelper.cs:10-44 | "; Invalid arc" and no points for an invalid arc; otherwise the block with I/J = start − centre and points [start, end] |
| GeometryToGCodeHelper.ExportCircleToGCode | JEDI/Models/GeometryToGCodeHelper.cs:46-72 | "; Invalid circle" and no points for an invalid circle; otherwise a G2 from the point at π back to itself and points [start, start] |
| GeometryToGCodeHelper.CircleOffsetPointsAway | JEDI/Models/GeometryToGCodeHelper.cs:56 | the circle's printed I/J is minus the radius along the X axis |
| LaserPaths.Analyze | JEDI/Models/LaserPathData.cs:44-80 | defaults for a missing or invalid curve; centre set iff arc or circle; only arcs and circles can be clockwise; a circle is clockwise with start = end |
| LaserPaths.ClassificationOrder | JEDI/Models/LaserPathData.cs:51-79 | each type holds exactly when its test is the first to match: line, valid arc, circle, polyline, NURBS |
| LaserPaths.AnalysisPoints | JEDI/Models/LaserPathData.cs:48-70 | the curve's own end points except for a circle (the point at π); the arc's or circle's centre; arc direction from ((c − s) × (e − s)).z < 0 |
| LaserPaths.LaserPathData.constructor | JEDI/Models/LaserPathData.cs:32-42 | stores the arguments in order and the analysis of the curve |
| LaserPaths.LaserPathData.AnalyzeCurve | JEDI/Models/LaserPathData.cs:44-80 | from the defaults, sets the derived fields to the curve's analysis and changes no stored argument |
| LaserPaths.KeySeparates | JEDI/Models/LaserPathData.cs:82 | two group keys are equal iff the printed numbers and the layers are, when the numbers print without '_' |
| CommandBuilder.BuildBlock | JEDI/Components/GCodeCommandBuilder.cs:56-96 | nothing when disabled; otherwise the framed block of command lines |
| CommandBuilder.FrameSteps | JEDI/Components/GCodeCommandBuilder.cs:64-94 | appending the blank line, start marker, commands, return line and end marker in order builds the frame |
| CommandBuilder.AppendCommands | JEDI/Components/GCodeCommandBuilder.cs:71-87 | appends exactly the command lines of all entries |
| CommandBuilder.LinesOfSnoc | JEDI/Components/GCodeCommandBuilder.cs:78-86 | one more entry appends its own line, if any |
| CommandBuilder.FormatLine | JEDI/Components/GCodeCommandBuilder.cs:81-86 | the command, then " " and the parameter if any, then " ; " and the comment if any |
| CommandBuilder.ReadEntry | JEDI/Components/GCodeCommandBuilder.cs:74-76 | entry i of the loop; each part is blank iff empty |
| CommandBuilder.TrimmedBlank | JEDI/Components/GCodeCommandBuilder.cs:68 | a trimmed (upper-cased) part is blank iff empty iff the raw text was blank |
| CommandBuilder.FrameShape | JEDI/Components/GCodeCommandBuilder.cs:64-94 | blank line first if asked; markers iff named, END last; the command lines in the middle; the return line right after them |
| CommandBuilder.Entries | JEDI/Components/GCodeCommandBuilder.cs:71-76 | one entry per command |
| CommandBuilder.EntriesIndex | JEDI/Components/GCodeCommandBuilder.cs:71-76 | entry i is built from cmds[i] and the i-th parameter and comment |
| CommandBuilder.EntryOfEntries | JEDI/Components/GCodeCommandBuilder.cs:71-76 | the same for one index |
| CommandBuilder.Selected | JEDI/Components/GCodeCommandBuilder.cs:78-79 | the indices of the entries with a command, all in range |
| CommandBuilder.SelectedFacts | JEDI/Components/GCodeCommandBuilder.cs:78-79 | an index is selected iff its command is non-empty, in increasing order |
| CommandBuilder.LinesAreSelected | JEDI/Components/GCodeCommandBuilder.cs:78-86 | one line per non-blank command, in input order |
| CommandBuilder.CommandLineShape | JEDI/Components/GCodeCommandBuilder.cs:81-85 | the line starts with the command; " " + parameter follows iff present; " ; " + comment ends it iff present |
| CommandBuilder.MatchedByIndex | JEDI/Components/GCodeCommandBuilder.cs:74-76 | the entries depend only on the i-th trimmed parameter and comment |
| CommandBuilder.ExtrasIgnored | JEDI/Components/GCodeCommandBuilder.cs:75-76 | parameters and comments beyond the commands change nothing |
| CommandBuilder.MissingIsEmpty | JEDI/Components/GCodeCommandBuilder.cs:75-76 | missing parameters and comments behave as empty ones |
| Text.LeadCount | JEDI/Components/DxfExportComponent.cs:100 | no more leading characters than the string has |
| Text.TrailCount | JEDI/Components/DxfExportComponent.cs:100 | no more trailing characters than the string has |
| Text.LeadCountFacts | JEDI/Components/DxfExportComponent.cs:100 | the dropped leading characters all match, the first kept one does not |
| Text.TrailCountFacts | JEDI/Components/DxfExportComponent.cs:100 | the dropped trailing characters all match, the last kept one does not |
| Text.TrimWithSlice | JEDI/Components/DxfExportComponent.cs:100 | Trim(c) returns a contiguous slice, everything cut on either side matching |
| Text.TrailDropped | JEDI/Components/DxfExportComponent.cs:100 | everything cut off at the end matches |
| Text.TrimWithEnds | JEDI/Components/DxfExportComponent.cs:100 | the result neither starts nor ends with a matching character |
| Text.TrimWithShape | JEDI/Components/DxfExportComponent.cs:100 | both of the above |
| Text.TrimBlank | JEDI/Components/GCodeCommandBuilder.cs:74-78 | a trimmed string is blank iff empty iff the original was blank |
| Text.TrimWithNoop | JEDI/Components/DxfExportComponent.cs:100 | a string with no matching end is left unchanged |
| Text.ToUpper | JEDI/Components/GCodeCommandBuilder.cs:74 | same length |
| Text.ToLower | JEDI/Components/ZprofilMAPPER.cs:92 | same length |
| Text.ToUpperIndex | JEDI/Components/GCodeCommandBuilder.cs:74 | maps each character on its own, leaving no lower-case ASCII letter |
| Text.ToLowerIndex | JEDI/Components/ZprofilMAPPER.cs:92 | maps each character on its own, leaving no upper-case ASCII letter |
| Text.ToUpperKeepsBlank | JEDI/Components/GCodeCommandBuilder.cs:69 | upper-casing keeps a string blank or non-blank |
| Text.ReplaceAllFacts | JEDI/Components/ZprofilMAPPER.cs:95-97 | length grows by the occurrences; no c left unless the replacement has one; no change without c; other characters kept; nothing new but the replacement's |
| Text.SplitAtSeparator | JEDI/Models/LaserPathData.cs:82 | text joined around a separator absent from the first part splits back uniquely |
| DxfExport.SanitizeLayerName | JEDI/Components/DxfExportComponent.cs:94-101 | the loop of Replace calls then Trim('_') gives "Default" for a blank name and otherwise the underscored name trimmed of '_' |
| DxfExport.SanitizedSlice | JEDI/Components/DxfExportComponent.cs:97-100 | a non-blank name gives a middle slice of it, underscored, with only '_' or invalid characters cut off; never longer |
| DxfExport.TrimmedClean | JEDI/Components/DxfExportComponent.cs:100 | trimming '_' from valid-or-'_' text leaves only valid characters, no '_' at either end |
| DxfExport.SanitizedClean | JEDI/Components/DxfExportComponent.cs:97-100 | no invalid character is left, and no '_' at either end |
| DxfExport.Idempotent | JEDI/Components/DxfExportComponent.cs:94-101 | a second pass leaves a non-blank result unchanged |
| DxfExport.DefaultKept | JEDI/Components/DxfExportComponent.cs:96 | "Default" survives a second pass unless the platform forbids one of its letters |
| DxfExport.AllDotsGiveEmpty | JEDI/Components/DxfExportComponent.cs:97-100 | "..." sanitises to the empty string |
| DxfExport.NotIdempotentOnBlankResult | JEDI/Components/DxfExportComponent.cs:96-100 | "\t." gives "\t", which a second pass turns into "Default" |
| GCodeExport.RenderAllAppend | JEDI/Components/GCodeExport-FULL.cs:68-172 | appending lines commutes with rendering |
| GCodeExport.EmitMotion | JEDI/Components/GCodeExport-FULL.cs:93-166 | fails exactly where a null sample array is read; otherwise the lines and points of the curve's motion |
| GCodeExport.EmitVertexRun | JEDI/Components/GCodeExport-FULL.cs:137-164 | the lines and points of the run through a polyline or the samples |
| GCodeExport.RenderedMovesSnoc | JEDI/Components/GCodeExport-FULL.cs:142-146 | one more vertex appends one linear-move line |
| GCodeExport.VertexRunRendered | JEDI/Components/GCodeExport-FULL.cs:139-147 | G0 and the optional laser-on line, the move lines, then the optional laser-off line |
| GCodeExport.EmitPath | JEDI/Components/GCodeExport-FULL.cs:77-166 | fails exactly when the path's outcome is a failure; otherwise the lines, points and warnings of its outcome |
| GCodeExport.EmitBlock | JEDI/Components/GCodeExport-FULL.cs:90-166 | fails exactly when the motion does; otherwise the optional Z line then the motion |
| GCodeExport.BodyStep | JEDI/Components/GCodeExport-FULL.cs:75-167 | one more path extends lines, points and warnings by its own |
| GCodeExport.EmitPaths | JEDI/Components/GCodeExport-FULL.cs:75-167 | stops at the first failing path, succeeding iff there is none; the body lines, points and warnings of the paths before it, in list order |
| GCodeExport.FirstFailure | JEDI/Components/GCodeExport-FULL.cs:75-167 | the index the foreach stops at: no failure before it, a failure at it unless it is the end |
| GCodeExport.FailedPathAborts | JEDI/Components/GCodeExport-FULL.cs:150-153 | one failing path stops the foreach at or before it, whatever follows |
| GCodeExport.PathStep | JEDI/Components/GCodeExport-FULL.cs:75-167 | what one path adds, tied to the records of all paths |
| GCodeExport.ProgramLines | JEDI/Components/GCodeExport-FULL.cs:71-172 | the three header lines, the body, the optional return line, "M2 ; End of program" |
| GCodeExport.FrameLines | JEDI/Components/GCodeExport-FULL.cs:71-172 | the same around any body |
| GCodeExport.Export | JEDI/Components/GCodeExport-FULL.cs:44-188 | UseMetric = !useInches always; without a failing path, the program text, the points and one warning per path outside the area; with one, no text and no points, and the warnings of the paths before it |
| GCodeExport.BracketShape | JEDI/Components/GCodeExport-FULL.cs:96-98 | with the laser: one laser-on right after the G0, laser-off last, every cutting move between; without it: no laser line |
| GCodeExport.LaserBracketing | JEDI/Components/GCodeExport-FULL.cs:96-163 | the same for every motion, an empty run giving no line |
| GCodeExport.LineBlock | JEDI/Components/GCodeExport-FULL.cs:93-100 | no G0; one linear move to the end point; only the end point recorded |
| GCodeExport.ArcBlock | JEDI/Components/GCodeExport-FULL.cs:101-117 | G0 to the start, GetArcCommand to the unconverted end with unit-converted I/J, [start, end] recorded |
| GCodeExport.CircleBlock | JEDI/Components/GCodeExport-FULL.cs:118-131 | G0 to the point at π and "G2" back to it, even without G2/G3 support; only the start recorded |
| GCodeExport.FallbackBlock | JEDI/Components/GCodeExport-FULL.cs:132-165 | for the fallback vertices that exist: nothing for no vertices; else G0 to vertex 0, one linear move per later vertex, vertices 1..n−1 recorded |
| GCodeExport.FallbackIsRun | JEDI/Components/GCodeExport-FULL.cs:134-165 | the polyline of the simplified curve when Simplify and TryGetPolyline succeed, the samples of the original curve otherwise |
| GCodeExport.VertexRunShape | JEDI/Components/GCodeExport-FULL.cs:137-164 | a run's G0, its moves in order inside the bracket, and its recorded vertices |
| GCodeExport.OutcomeCases | JEDI/Components/GCodeExport-FULL.cs:77-153 | skipped iff missing or invalid; out of area iff the box leaves [0, WidthX] × [0, DepthY]; failed iff otherwise the motion reads a null sample array; else Z line at path Z, else HeightZ, else 0 |
| GCodeExport.MotionInstrs | JEDI/Components/GCodeExport-FULL.cs:93-166 | a motion holds only positioning, laser and cutting lines |
| GCodeExport.BodyInstrs | JEDI/Components/GCodeExport-FULL.cs:75-167 | the body holds no header or trailer line |
| GCodeExport.InstrsOfBlock | JEDI/Components/GCodeExport-FULL.cs:75-167 | outcomes made of block lines give block lines |
| GCodeExport.ProgramFrame | JEDI/Components/GCodeExport-FULL.cs:71-172 | header only at the start; M2 last and only there; return line just before it iff asked |
| GCodeExport.FrameAround | JEDI/Components/GCodeExport-FULL.cs:71-172 | the same around any body of block lines |
| GCodeExport.InstrsOfAppend | JEDI/Components/GCodeExport-FULL.cs:75-167 | lines of two outcome lists concatenate |
| GCodeExport.PointsOfAppend | JEDI/Components/GCodeExport-FULL.cs:75-167 | points of two outcome lists concatenate |
| GCodeExport.WarningsOfAppend | JEDI/Components/GCodeExport-FULL.cs:75-167 | warnings of two outcome lists concatenate |
| GCodeExport.BodyAppend | JEDI/Components/GCodeExport-FULL.cs:75-167 | paths are compiled one after the other, in list order |
| GCodeExport.BodySingle | JEDI/Components/GCodeExport-FULL.cs:75-167 | a single path contributes exactly its outcome |
| GCodeExport.DroppedPath | JEDI/Components/GCodeExport-FULL.cs:77-88 | a skipped or out-of-area path leaves no line or point; the export succeeds with it iff without it, and later paths still count; only one outside the area adds one warning |
| GCodeExport.FirstFailureAppend | JEDI/Components/GCodeExport-FULL.cs:75-167 | the foreach over two lists of paths stops in the first list if a path there fails, otherwise at the second list's first failure, shifted past the first list |
| GCodeExport.NoFailureDropped | JEDI/Components/GCodeExport-FULL.cs:75-167 | removing a non-failing path does not change whether the foreach runs to the end |
| GCodeExport.DroppedOutcome | JEDI/Components/GCodeExport-FULL.cs:77-88 | an outcome without lines drops out of the concatenation |
| GCodeExport.DroppedInstrs | JEDI/Components/GCodeExport-FULL.cs:77-88 | its lines drop out |
| GCodeExport.DroppedPoints | JEDI/Components/GCodeExport-FULL.cs:77-88 | its points drop out |
| GCodeExport.DroppedWarnings | JEDI/Components/GCodeExport-FULL.cs:84-88 | its warning, if any, stays in place |
| GCodeExport.WarningsBound | JEDI/Components/GCodeExport-FULL.cs:84-88 | every warning is the work-area one, at most one per path, none without CNC settings |
| GCodeExport.WarningsOfBound | JEDI/Components/GCodeExport-FULL.cs:84-88 | the same for any outcome list |
| PathOptimizer.ScanShape | JEDI/Components/PathOptimizerV2.cs:68-92 | the scan fails exactly on a null entry; otherwise bestIndex is −1 or in range |
| PathOptimizer.ConsiderStep | JEDI/Components/PathOptimizerV2.cs:80-91 | comparing one more path keeps the scan's promise |
| PathOptimizer.KeepStep | JEDI/Components/PathOptimizerV2.cs:80-91 | a path that improves on nothing leaves the choice's promise intact |
| PathOptimizer.TakeStep | JEDI/Components/PathOptimizerV2.cs:80-91 | a path that improves the minimum becomes the choice, with its nearer end |
| PathOptimizer.ScanFacts | JEDI/Components/PathOptimizerV2.cs:68-92 | the scan gives the least distance below double.MaxValue, its first index, the start winning ties |
| PathOptimizer.Pass | JEDI/Components/PathOptimizerV2.cs:61-103 | an ordering holds indices of the input list |
| PathOptimizer.SelectNearest | JEDI/Components/PathOptimizerV2.cs:68-92 | the inner for loop computes the scan, failing on a null entry |
| PathOptimizer.NullStopsScan | JEDI/Components/PathOptimizerV2.cs:75 | a null entry anywhere makes the scan throw |
| PathOptimizer.GreedyPass | JEDI/Components/PathOptimizerV2.cs:61-103 | one iteration: the ordering, failing on a null entry, with totalDist the sum of the chords |
| PathOptimizer.AfterAssociates | JEDI/Components/PathOptimizerV2.cs:99 | appending in two steps is appending once |
| PathOptimizer.PassUnfold | JEDI/Components/PathOptimizerV2.cs:94-102 | an ordering is the scanned path, then the ordering of the rest from its end point |
| PathOptimizer.Optimize | JEDI/Components/PathOptimizerV2.cs:38-115 | the warning exactly for no paths; the best-of-iterations loop gives the first pass's ordering, kept only below double.MaxValue; the output list is the ordered paths |
| PathOptimizer.PassPermutation | JEDI/Components/PathOptimizerV2.cs:99-102 | an ordering takes every available path exactly once |
| PathOptimizer.ScanPicksNearest | JEDI/Components/PathOptimizerV2.cs:72-91 | a path picked by the scan is a nearest one, the earliest on ties |
| PathOptimizer.PassStep | JEDI/Components/PathOptimizerV2.cs:66-103 | each step takes a nearest path and moves to its end point, whichever end was nearer |
| PathOptimizer.ChordSumAppend | JEDI/Components/PathOptimizerV2.cs:101 | the chord sum of a concatenation is the sum of the sums |
| PathOptimizer.ChordSumRemove | JEDI/Components/PathOptimizerV2.cs:101 | removing a path removes its chord |
| PathOptimizer.ChordSumPermutation | JEDI/Components/PathOptimizerV2.cs:100-101 | the chord sum does not depend on the order |
| PathOptimizer.ChordSumNonNegative | JEDI/Components/PathOptimizerV2.cs:101 | the total is not negative |
| PathOptimizer.OptimizationFacts | JEDI/Components/PathOptimizerV2.cs:50-113 | no paths iff empty; else a failure, or a permutation whose distance is the order-free chord sum below double.MaxValue, or no list with double.MaxValue |
| PathOptimizer.NullPathFails | JEDI/Components/PathOptimizerV2.cs:75 | any null path or curve makes the component throw when it iterates |
| ToolpathS.BuildToolpaths | JEDI/Components/LASERPATH-S.cs:47-70 | the entries of all curves, each a new object, or failure on a null previous curve |
| ToolpathS.EmitCurve | JEDI/Components/LASERPATH-S.cs:51-69 | the entries for one curve: nothing, a cut, or a transfer then a cut |
| ToolpathS.FailureCharacterized | JEDI/Components/LASERPATH-S.cs:56 | the loop throws iff a valid curve other than the first follows a null entry |
| ToolpathS.OnEntriesAppend | JEDI/Components/LASERPATH-S.cs:63-69 | the laser-on entries of a concatenation concatenate |
| ToolpathS.StepShape | JEDI/Components/LASERPATH-S.cs:52-69 | nothing for a null or invalid curve; else its cut, preceded by at most one laser-off transfer ending where the cut starts |
| ToolpathS.StepOnEntries | JEDI/Components/LASERPATH-S.cs:61-69 | the laser-on entry of a step is its cut |
| ToolpathS.WellFormedAppend | JEDI/Components/LASERPATH-S.cs:47-70 | well-formed lists concatenate into a well-formed list |
| ToolpathS.StepWellFormed | JEDI/Components/LASERPATH-S.cs:54-69 | each step's entries carry the layer, no Z and Intensite = speed; a transfer has Vitesse = 0 and its cut follows |
| ToolpathS.ToolpathsWellFormed | JEDI/Components/LASERPATH-S.cs:47-70 | all entries are well formed |
| ToolpathS.ToolpathsCuts | JEDI/Components/LASERPATH-S.cs:47-70 | the laser-on entries are the cuts of the valid curves in order, at most two entries per kept curve |
| ToolpathS.KeptCurvesSnoc | JEDI/Components/LASERPATH-S.cs:52 | one more curve is kept iff present and valid |
| ToolpathS.CutsSnoc | JEDI/Components/LASERPATH-S.cs:67-69 | one more kept curve adds its cut |
| ToolpathS.ToolpathsShape | JEDI/Components/LASERPATH-S.cs:47-70 | the cuts, the bound and the well-formedness together |
| ToolpathS.SkippedCurveStillMeasured | JEDI/Components/LASERPATH-S.cs:56-63 | the gap is measured from the raw previous curve, even one skipped as invalid |
| PathAnalysis.AccumulateSnoc | JEDI/Components/PathAnalysisComponent.cs:46-60 | one more path adds its contribution |
| PathAnalysis.AnalyzePaths | JEDI/Components/PathAnalysisComponent.cs:36-66 | the four totals accumulated over the paths in order |
| PathAnalysis.TimeCoversLength | JEDI/Components/PathAnalysisComponent.cs:54 | time times speed per second is the length |
| PathAnalysis.ContributionSplits | JEDI/Components/PathAnalysisComponent.cs:57-59 | a path's time goes to exactly one of on and off |
| PathAnalysis.TimeSplits | JEDI/Components/PathAnalysisComponent.cs:57-59 | totalTime = timeOn + timeOff |
| PathAnalysis.SkippedAddsNothing | JEDI/Components/PathAnalysisComponent.cs:48-51 | a null, invalid or non-positive-speed path changes no total |
| PathAnalysis.TotalsNonNegative | JEDI/Components/PathAnalysisComponent.cs:41-60 | with non-negative lengths no total is negative |
| PathAnalysis.SumOfAppend | JEDI/Components/PathAnalysisComponent.cs:46-60 | totals of a concatenation add up |
| PathAnalysis.SumOfRemove | JEDI/Components/PathAnalysisComponent.cs:46-60 | removing a path removes its contribution |
| PathAnalysis.SumOfPermutation | JEDI/Components/PathAnalysisComponent.cs:46-60 | totals do not depend on the order |
| PathAnalysis.OrderIndependent | JEDI/Components/PathAnalysisComponent.cs:41-60 | the four totals do not depend on the order of the paths |
| ZProfile.NoVariablesLeft | JEDI/Components/ZprofilMAPPER.cs:92-97 | no x, y or l is left when the printed numbers contain none |
| ZProfile.SubstituteWithoutVariables | JEDI/Components/ZprofilMAPPER.cs:92-97 | a formula without variables reaches the evaluator only lower-cased |
| ZProfile.Evaluate | JEDI/Components/ZprofilMAPPER.cs:88-109 | fails iff the evaluator throws, and then gives 0 |
| ZProfile.AccLenMonotone | JEDI/Components/ZprofilMAPPER.cs:64-81 | the length travelled starts at 0 and never decreases |
| ZProfile.Failures | JEDI/Components/ZprofilMAPPER.cs:104-108 | at most one error per vertex, none without the formula |
| ZProfile.MapVertices | JEDI/Components/ZprofilMAPPER.cs:63-82 | one point per vertex, X and Y kept, Z mapped (unchanged without the formula), one error per throw |
| ZProfile.SolveInstance | JEDI/Components/ZprofilMAPPER.cs:53-85 | an error and no profile exactly for an invalid curve; an exception exactly for a valid one whose walked curve has no polyline and a null DivideEquidistant; otherwise the mapped vertices |
| ZProfile.LengthUnusedWithoutFlag | JEDI/Components/ZprofilMAPPER.cs:75 | without useLength the Z at a vertex does not depend on the length travelled |
| DynamicZ.SolveInstance | JEDI/Components/LaserDynamiqueZpath.cs:62-101 | the same outcome as ZprofilMAPPER; a laser path exactly when there is a profile, wrapped in a new laser path with Intensite = power, Vitesse = speed, the layer, no Z, laser on |

## Left out

- File output: `File.WriteAllText` and its error message in the exporter, and the File3dm build and write of DxfExportComponent (grouping by layer, layer indices). Only `SanitizeLayerName` is modelled there.
- Grasshopper plumbing: reading inputs, setting outputs, icons, GUIDs. Runtime messages are a `warnings` sequence, or an error count where only their number matters.
- Rhino's algorithms are fields of `Curve`, at the tolerance the caller uses: classification, TryGetCircle, TryGetPolyline, Simplify, DivideEquidistant, GetBoundingBox, GetLength. The tolerance is not a separate input.
- DataTable.Compute with Convert.ToDouble is a parameter `compute` returning a number or an exception. The text of the error message (`ex.Message`) is not modelled.
- Polyline.ToNurbsCurve is a parameter `toNurbs`.
- Number formatting (`"0.###"`, `"0.#"`, `string.Format`, invariant-culture and current-culture `ToString`) is uninterpreted.
- Doubles are exact reals, so rounding in the sums and the time division is not modelled. `Math.Sqrt` is the parameter `sqrt`.
- ArcUtilities.TryGetArcCenter: it requires end points that differ in XY unless the radius is negative; a negative radius with coincident end points gives no centre, as in the source. With coincident end points and a radius ≥ 0 the source computes d / q with q = 0 (r / 0, or 0 / 0 when r = 0) and multiplies it by the zero dx and dy, so its centre is NaN. Reals have no NaN, so that case is excluded.
- Geometry.LineCurveOf: the DivideEquidistant points of a new line are taken to be its two end points. The real spacing depends on the tolerance. No caller reads them, since every reader handles a LineCurve before reaching the samples.
- Case mapping (`ToUpper`, `ToLowerInvariant`) is modelled for ASCII letters only. `Char.IsWhiteSpace` is modelled over the Unicode space characters.
- Null strings in the command builder's lists are not modelled. The source would throw on them.
- The exporter's `MachineProfile.Header`, `Footer`, `CommandMoveRapid` and `CommandMoveArc` are never emitted by the source. They are carried but unused.
- The optimizer's `reverse` flag and `keepGroups` input have no effect. The Info text `Best of N iterations | Distance: …` is not modelled.
- ZProfile.NoVariablesLeft: it assumes the printed numbers contain no "x", "y" or "l". The printing of a number is not modelled.
- DxfExport.Idempotent: it holds only when the first result is non-blank, and the platform's invalid characters must not include '_'. NotIdempotentOnBlankResult shows a non-blank name that is not idempotent.
- The GeometryToGCodeHelper emitters return their text without a final newline in the invalid case; the model gives that text as a single line.
