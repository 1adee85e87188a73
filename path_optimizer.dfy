/** PathOptimizerV2: orders laser paths greedily by nearest end point,
    repeating the ordering a number of times and keeping the best result.
    Paths are referred to by their index in the input list; the scan reads
    only each curve's start and end points. */
module PathOptimizer {
  import opened Geometry
  import LaserPaths
  import opened Sequences

  /** double.MaxValue, 1.7976931348623157E308, written out. */
  const MaxDouble: real := 179769313486231570000000000000000000000000000000000000000000000000000000000000000000000000000000000000000000000000000000000000000000000000000000000000000000000000000000000000000000000000000000000000000000000000000000000000000000000000000000000000000000000000000000000000000000000000000000000000000000000000000.0

  /** The two end points of a path's curve. */
  datatype Ends = Ends(start: Point, end: Point)

  /** The end points of every path; None where the entry or its curve is
      null, which the scan dereferences. */
  function EndsOf(paths: seq<LaserPaths.LaserPathData?>): (r: seq<Option<Ends>>)
    reads paths
    ensures |r| == |paths|
    ensures forall k :: 0 <= k < |paths| ==>
              (r[k].Some? <==> paths[k] != null && paths[k].curve.Some?)
  {
    seq(|paths|, k requires 0 <= k < |paths| reads paths =>
      if paths[k] == null || paths[k].curve.None? then None
      else Some(Ends(paths[k].curve.value.pointAtStart, paths[k].curve.value.pointAtEnd)))
  }

  /** The indices 0 .. n-1: the copy of the input list an ordering starts
      from. */
  function Range(n: nat): (r: seq<nat>)
    ensures |r| == n && forall k :: 0 <= k < n ==> r[k] == k
  {
    seq(n, k requires 0 <= k < n => k)
  }

  predicate InRange(ends: seq<Option<Ends>>, avail: seq<nat>)
  {
    forall k :: 0 <= k < |avail| ==> avail[k] < |ends|
  }

  /** Every listed path can be dereferenced. */
  predicate AllPresent(ends: seq<Option<Ends>>, avail: seq<nat>)
    requires InRange(ends, avail)
  {
    forall k :: 0 <= k < |avail| ==> ends[avail[k]].Some?
  }

  /** The position of the best candidate so far (-1 for none) and its
      distance. */
  datatype Choice = Choice(index: int, dist: real)

  function DistStart(e: Ends, pos: Point, sqrt: real -> real): real
  {
    Dist(pos, e.start, sqrt)
  }

  function DistEnd(e: Ends, pos: Point, sqrt: real -> real): real
  {
    Dist(pos, e.end, sqrt)
  }

  /** The nearer of a path's two end points, the start on a tie. */
  function Near(e: Ends, pos: Point, sqrt: real -> real): real
  {
    if DistEnd(e, pos, sqrt) < DistStart(e, pos, sqrt) then DistEnd(e, pos, sqrt)
    else DistStart(e, pos, sqrt)
  }

  /** One pass of the inner for loop: the start is compared first, then
      the end, each only on a strict improvement. */
  function Consider(c: Choice, i: nat, e: Ends, pos: Point, sqrt: real -> real): Choice
  {
    var c1 := if DistStart(e, pos, sqrt) < c.dist then Choice(i, DistStart(e, pos, sqrt)) else c;
    if DistEnd(e, pos, sqrt) < c1.dist then Choice(i, DistEnd(e, pos, sqrt)) else c1
  }

  /** The scan over the available paths, from minDist = double.MaxValue
      and bestIndex = -1; None when it dereferences a null path or
      curve. */
  function Scan(ends: seq<Option<Ends>>, avail: seq<nat>, pos: Point, sqrt: real -> real): Option<Choice>
    requires InRange(ends, avail)
  {
    if avail == [] then Some(Choice(-1, MaxDouble))
    else
      var prev := Scan(ends, avail[..|avail| - 1], pos, sqrt);
      var e := ends[avail[|avail| - 1]];
      if prev.None? || e.None? then None
      else Some(Consider(prev.value, |avail| - 1, e.value, pos, sqrt))
  }

  /** The scan fails exactly on a null entry; otherwise its index is -1 or
      the position of an available path. */
  lemma {:induction false} ScanShape(ends: seq<Option<Ends>>, avail: seq<nat>, pos: Point,
                                     sqrt: real -> real)
    requires InRange(ends, avail)
    ensures Scan(ends, avail, pos, sqrt).Some? <==> AllPresent(ends, avail)
    ensures Scan(ends, avail, pos, sqrt).Some? ==> -1 <= Scan(ends, avail, pos, sqrt).value.index < |avail|
  {
    if avail != [] {
      var front := avail[..|avail| - 1];
      ScanShape(ends, front, pos, sqrt);
      assert forall k :: 0 <= k < |front| ==> front[k] == avail[k];
      if !AllPresent(ends, avail) {
        var k :| 0 <= k < |avail| && ends[avail[k]].None?;
        if k < |avail| - 1 {
          assert front[k] == avail[k];
        }
      }
    }
  }

  /** What the scan over the available paths promises when it completes:
      -1 exactly when no end point is nearer than double.MaxValue;
      otherwise the position of a path whose nearer end point is at the
      least distance from the current position, with every path before it
      strictly farther (ties go to the lowest index). */
  predicate ScanResult(ends: seq<Option<Ends>>, avail: seq<nat>, pos: Point, sqrt: real -> real, c: Choice)
    requires InRange(ends, avail) && AllPresent(ends, avail)
  {
    && -1 <= c.index < |avail|
    && (c.index == -1 <==>
          forall k :: 0 <= k < |avail| ==>
            MaxDouble <= DistStart(ends[avail[k]].value, pos, sqrt)
            && MaxDouble <= DistEnd(ends[avail[k]].value, pos, sqrt))
    && (c.index == -1 ==> c.dist == MaxDouble)
    && (c.index >= 0 ==> c.dist == Near(ends[avail[c.index]].value, pos, sqrt) && c.dist < MaxDouble)
    && (forall k :: 0 <= k < |avail| ==>
          c.dist <= DistStart(ends[avail[k]].value, pos, sqrt)
          && c.dist <= DistEnd(ends[avail[k]].value, pos, sqrt))
    && (forall k :: 0 <= k < c.index ==>
          c.dist < DistStart(ends[avail[k]].value, pos, sqrt)
          && c.dist < DistEnd(ends[avail[k]].value, pos, sqrt))
  }

  /** Considering one more path keeps the scan's promise. */
  lemma ConsiderStep(ends: seq<Option<Ends>>, avail: seq<nat>, pos: Point, sqrt: real -> real, c: Choice)
    requires InRange(ends, avail) && AllPresent(ends, avail) && avail != []
    requires InRange(ends, avail[..|avail| - 1]) && AllPresent(ends, avail[..|avail| - 1])
    requires ScanResult(ends, avail[..|avail| - 1], pos, sqrt, c)
    ensures ScanResult(ends, avail, pos, sqrt, Consider(c, |avail| - 1, ends[avail[|avail| - 1]].value, pos, sqrt))
  {
    var front, i := avail[..|avail| - 1], |avail| - 1;
    var e := ends[avail[i]].value;
    var r := Consider(c, i, e, pos, sqrt);
    if r == c {
      KeepStep(ends, avail, pos, sqrt, c);
    } else {
      TakeStep(ends, avail, pos, sqrt, c);
    }
  }

  /** When the last path improves on nothing, the choice still keeps the
      promise. */
  lemma KeepStep(ends: seq<Option<Ends>>, avail: seq<nat>, pos: Point, sqrt: real -> real, c: Choice)
    requires InRange(ends, avail) && AllPresent(ends, avail) && avail != []
    requires InRange(ends, avail[..|avail| - 1]) && AllPresent(ends, avail[..|avail| - 1])
    requires ScanResult(ends, avail[..|avail| - 1], pos, sqrt, c)
    requires Consider(c, |avail| - 1, ends[avail[|avail| - 1]].value, pos, sqrt) == c
    ensures ScanResult(ends, avail, pos, sqrt, c)
  {
    var front := avail[..|avail| - 1];
    assert forall k :: 0 <= k < |front| ==> front[k] == avail[k];
  }

  /** When the last path improves on the choice, it becomes the choice and
      keeps the promise. */
  lemma TakeStep(ends: seq<Option<Ends>>, avail: seq<nat>, pos: Point, sqrt: real -> real, c: Choice)
    requires InRange(ends, avail) && AllPresent(ends, avail) && avail != []
    requires InRange(ends, avail[..|avail| - 1]) && AllPresent(ends, avail[..|avail| - 1])
    requires ScanResult(ends, avail[..|avail| - 1], pos, sqrt, c)
    requires Consider(c, |avail| - 1, ends[avail[|avail| - 1]].value, pos, sqrt) != c
    ensures ScanResult(ends, avail, pos, sqrt, Consider(c, |avail| - 1, ends[avail[|avail| - 1]].value, pos, sqrt))
  {
    var front, i := avail[..|avail| - 1], |avail| - 1;
    assert forall k :: 0 <= k < |front| ==> front[k] == avail[k];
    var e := ends[avail[i]].value;
    var r := Consider(c, i, e, pos, sqrt);
    assert r.index == i && r.dist < c.dist;
    assert r.dist == Near(e, pos, sqrt);
  }

  /** The scan fails exactly on a null entry; otherwise it keeps its
      promise. */
  lemma {:induction false} ScanFacts(ends: seq<Option<Ends>>, avail: seq<nat>, pos: Point,
                                     sqrt: real -> real)
    requires InRange(ends, avail)
    ensures Scan(ends, avail, pos, sqrt).Some? <==> AllPresent(ends, avail)
    ensures Scan(ends, avail, pos, sqrt).Some? ==> ScanResult(ends, avail, pos, sqrt, Scan(ends, avail, pos, sqrt).value)
  {
    ScanShape(ends, avail, pos, sqrt);
    if avail != [] && AllPresent(ends, avail) {
      var front := avail[..|avail| - 1];
      ScanFacts(ends, front, pos, sqrt);
      assert forall k :: 0 <= k < |front| ==> front[k] == avail[k];
      assert AllPresent(ends, front);
      ConsiderStep(ends, avail, pos, sqrt, Scan(ends, front, pos, sqrt).value);
    }
  }

  /** One ordering: repeatedly take the nearest path, append it, move to
      its end point whichever end was nearer, and remove it from the
      available ones. None when the ordering throws (a null path or curve,
      or no end point below double.MaxValue, which indexes at -1). */
  function Pass(ends: seq<Option<Ends>>, avail: seq<nat>, pos: Point, sqrt: real -> real)
    : (r: Option<seq<nat>>)
    requires InRange(ends, avail)
    ensures r.Some? ==> InRange(ends, r.value)
    decreases |avail|
  {
    if avail == [] then Some([])
    else
      var c := Scan(ends, avail, pos, sqrt);
      ScanShape(ends, avail, pos, sqrt);
      if c.None? || c.value.index < 0 then None
      else
        var b := c.value.index;
        var j := avail[b];
        var rest := Pass(ends, avail[..b] + avail[b + 1..], ends[j].value.end, sqrt);
        if rest.None? then None else Some([j] + rest.value)
  }

  /** The chord of a path, from its end point to its start point: what the
      ordering adds to its total for the path. */
  function Chord(e: Option<Ends>, sqrt: real -> real): real
  {
    if e.Some? then Dist(e.value.end, e.value.start, sqrt) else 0.0
  }

  function ChordSum(ends: seq<Option<Ends>>, order: seq<nat>, sqrt: real -> real): real
    requires InRange(ends, order)
  {
    if order == [] then 0.0
    else ChordSum(ends, order[..|order| - 1], sqrt) + Chord(ends[order[|order| - 1]], sqrt)
  }

  /** What the component reports. */
  datatype Run =
    | NoPaths                                   // warning, no output set
    | Failed                                    // an exception ends SolveInstance
    | Done(best: Option<seq<nat>>, distance: real)

  /** The result of the best-of-iterations loop. Every iteration computes
      the same ordering, so the first one is kept whenever its total is
      below double.MaxValue and no later one replaces it. */
  function Optimization(ends: seq<Option<Ends>>, start: Point, iterations: int,
                        sqrt: real -> real): Run
  {
    if |ends| == 0 then NoPaths
    else if iterations <= 0 then Done(None, MaxDouble)
    else
      var order := Pass(ends, Range(|ends|), start, sqrt);
      if order.None? then Failed
      else
        var d := ChordSum(ends, order.value, sqrt);
        if d < MaxDouble then Done(Some(order.value), d) else Done(None, MaxDouble)
  }

  // ---------------------------------------------------------------------
  // The component

  /** The inner for loop: bestIndex and minDist over the available paths;
      ok is false where a null path or curve is dereferenced. */
  method SelectNearest(ends: seq<Option<Ends>>, available: seq<nat>, currentPos: Point,
                       sqrt: real -> real)
    returns (ok: bool, bestIndex: int, minDist: real)
    requires InRange(ends, available)
    ensures ok <==> Scan(ends, available, currentPos, sqrt).Some?
    ensures ok ==> Scan(ends, available, currentPos, sqrt) == Some(Choice(bestIndex, minDist))
  {
    minDist := MaxDouble;
    bestIndex := -1;
    for i := 0 to |available|
      invariant Scan(ends, available[..i], currentPos, sqrt) == Some(Choice(bestIndex, minDist))
    {
      assert available[..i + 1][..i] == available[..i];
      var candidate := ends[available[i]];
      if candidate.None? {
        NullStopsScan(ends, available, i + 1, currentPos, sqrt);
        return false, bestIndex, minDist;
      }
      var start := candidate.value.start;
      var end := candidate.value.end;
      var distStart := Dist(currentPos, start, sqrt);
      var distEnd := Dist(currentPos, end, sqrt);
      if distStart < minDist {
        minDist := distStart;
        bestIndex := i;
      }
      if distEnd < minDist {
        minDist := distEnd;
        bestIndex := i;
      }
    }
    assert available[..|available|] == available;
    ok := true;
  }

  /** A failed prefix scan fails the whole scan. */
  lemma NullStopsScan(ends: seq<Option<Ends>>, avail: seq<nat>, n: nat, pos: Point, sqrt: real -> real)
    requires InRange(ends, avail) && 0 < n <= |avail|
    requires ends[avail[n - 1]].None?
    ensures Scan(ends, avail, pos, sqrt).None?
  {
    ScanShape(ends, avail, pos, sqrt);
  }

  /** The order of a run as a list of paths. */
  function PathsOf(paths: seq<LaserPaths.LaserPathData?>, order: seq<nat>): (r: seq<LaserPaths.LaserPathData?>)
    requires forall k :: 0 <= k < |order| ==> order[k] < |paths|
    ensures |r| == |order| && forall k :: 0 <= k < |order| ==> r[k] == paths[order[k]]
  {
    seq(|order|, k requires 0 <= k < |order| => paths[order[k]])
  }

  /** Pass, with the part already done in front. */
  function After(done: seq<nat>, rest: Option<seq<nat>>): Option<seq<nat>>
  {
    if rest.None? then None else Some(done + rest.value)
  }

  /** The body of one iteration: the while loop over the available paths.
      ok is false where the ordering throws; otherwise the order and its
      total distance. */
  method GreedyPass(ends: seq<Option<Ends>>, startPoint: Point, sqrt: real -> real)
    returns (ok: bool, current: seq<nat>, totalDist: real)
    ensures ok <==> Pass(ends, Range(|ends|), startPoint, sqrt).Some?
    ensures ok ==> current == Pass(ends, Range(|ends|), startPoint, sqrt).value
    ensures ok ==> InRange(ends, current) && totalDist == ChordSum(ends, current, sqrt)
  {
    var available := Range(|ends|);
    current := [];
    var currentPos := startPoint;
    totalDist := 0.0;
    if Pass(ends, available, currentPos, sqrt).Some? {
      assert current + Pass(ends, available, currentPos, sqrt).value
             == Pass(ends, available, currentPos, sqrt).value;
    }
    while |available| > 0
      invariant InRange(ends, available) && InRange(ends, current)
      invariant Pass(ends, Range(|ends|), startPoint, sqrt)
                == After(current, Pass(ends, available, currentPos, sqrt))
      invariant totalDist == ChordSum(ends, current, sqrt)
      decreases |available|
    {
      var found, bestIndex, minDist := SelectNearest(ends, available, currentPos, sqrt);
      if !found || bestIndex < 0 {
        ok := false;
        return;
      }
      PassUnfold(ends, available, currentPos, sqrt);
      var chosen := available[bestIndex];
      var rest := available[..bestIndex] + available[bestIndex + 1..];
      ghost var tail := Pass(ends, rest, ends[chosen].value.end, sqrt);
      AfterAssociates(current, [chosen], tail);
      assert (current + [chosen])[..|current|] == current;
      current := current + [chosen];
      currentPos := ends[chosen].value.end;
      totalDist := totalDist + Dist(currentPos, ends[chosen].value.start, sqrt);
      available := rest;
    }
    ok := true;
  }

  lemma AfterAssociates(a: seq<nat>, b: seq<nat>, rest: Option<seq<nat>>)
    ensures After(a, After(b, rest)) == After(a + b, rest)
  {
    if rest.Some? {
      assert a + (b + rest.value) == (a + b) + rest.value;
    }
  }

  /** One step of an ordering: the path the scan picks, then the ordering
      of the others from its end point. */
  lemma PassUnfold(ends: seq<Option<Ends>>, avail: seq<nat>, pos: Point, sqrt: real -> real)
    requires InRange(ends, avail) && avail != []
    requires Scan(ends, avail, pos, sqrt).Some? && Scan(ends, avail, pos, sqrt).value.index >= 0
    ensures var b := Scan(ends, avail, pos, sqrt).value.index;
            && b < |avail| && ends[avail[b]].Some?
            && InRange(ends, avail[..b] + avail[b + 1..])
            && Pass(ends, avail, pos, sqrt)
               == After([avail[b]], Pass(ends, avail[..b] + avail[b + 1..], ends[avail[b]].value.end, sqrt))
  {
    ScanShape(ends, avail, pos, sqrt);
  }

  /** SolveInstance: "No paths provided." for an empty list; otherwise
      `iterations` orderings, keeping one only when its total is strictly
      below the best so far. The input list and its paths are only
      read. */
  method Optimize(paths: seq<LaserPaths.LaserPathData?>, startPoint: Point, iterations: int,
                  sqrt: real -> real)
    returns (run: Run, bestResult: Option<seq<LaserPaths.LaserPathData?>>, warnings: seq<string>)
    ensures run == Optimization(EndsOf(paths), startPoint, iterations, sqrt)
    ensures warnings == (if |paths| == 0 then ["No paths provided."] else [])
    ensures run.Done? && run.best.Some? ==>
              (forall k :: 0 <= k < |run.best.value| ==> run.best.value[k] < |paths|)
              && bestResult == Some(PathsOf(paths, run.best.value))
    ensures !(run.Done? && run.best.Some?) ==> bestResult == None
  {
    warnings := [];
    bestResult := None;
    if |paths| == 0 {
      warnings := warnings + ["No paths provided."];
      return NoPaths, bestResult, warnings;
    }
    var ends := EndsOf(paths);
    var best: Option<seq<nat>> := None;
    var bestDistance := MaxDouble;
    var iter := 0;
    while iter < iterations
      invariant iter == 0 ==> best == None && bestDistance == MaxDouble
      invariant iter > 0 ==> Optimization(ends, startPoint, iterations, sqrt) == Done(best, bestDistance)
      invariant best.Some? ==> InRange(ends, best.value)
      invariant best.None? ==> bestDistance == MaxDouble
      decreases iterations - iter
    {
      var ok, current, totalDist := GreedyPass(ends, startPoint, sqrt);
      if !ok {
        return Failed, None, warnings;
      }
      if totalDist < bestDistance {
        bestDistance := totalDist;
        best := Some(current);
      }
      iter := iter + 1;
    }
    run := Done(best, bestDistance);
    if best.Some? {
      bestResult := Some(PathsOf(paths, best.value));
    }
  }

  // ---------------------------------------------------------------------
  // Properties of an ordering

  /** An ordering takes every available path exactly once. */
  lemma {:induction false} PassPermutation(ends: seq<Option<Ends>>, avail: seq<nat>, pos: Point,
                                           sqrt: real -> real)
    requires InRange(ends, avail)
    ensures Pass(ends, avail, pos, sqrt).Some? ==>
              multiset(Pass(ends, avail, pos, sqrt).value) == multiset(avail)
    decreases |avail|
  {
    if avail != [] && Pass(ends, avail, pos, sqrt).Some? {
      ScanShape(ends, avail, pos, sqrt);
      var b := Scan(ends, avail, pos, sqrt).value.index;
      var j := avail[b];
      var rest := avail[..b] + avail[b + 1..];
      var tail := Pass(ends, rest, ends[j].value.end, sqrt);
      assert Pass(ends, avail, pos, sqrt) == Some([j] + tail.value);
      PassPermutation(ends, rest, ends[j].value.end, sqrt);
      MultisetTakeOut(avail, b);
    }
  }

  /** The path at position b of the available ones has its nearer end
      point at the least distance from pos, and every path before it is
      strictly farther (ties go to the lowest position). */
  predicate NearestAt(ends: seq<Option<Ends>>, avail: seq<nat>, pos: Point, sqrt: real -> real, b: nat)
    requires InRange(ends, avail) && AllPresent(ends, avail) && b < |avail|
  {
    var best := Near(ends[avail[b]].value, pos, sqrt);
    && (forall k :: 0 <= k < |avail| ==>
          best <= DistStart(ends[avail[k]].value, pos, sqrt)
          && best <= DistEnd(ends[avail[k]].value, pos, sqrt))
    && (forall k :: 0 <= k < b ==>
          best < DistStart(ends[avail[k]].value, pos, sqrt)
          && best < DistEnd(ends[avail[k]].value, pos, sqrt))
  }

  /** A scan that picks a path picks a nearest one. */
  lemma ScanPicksNearest(ends: seq<Option<Ends>>, avail: seq<nat>, pos: Point, sqrt: real -> real)
    requires InRange(ends, avail)
    requires Scan(ends, avail, pos, sqrt).Some? && Scan(ends, avail, pos, sqrt).value.index >= 0
    ensures var b := Scan(ends, avail, pos, sqrt).value.index;
            && b < |avail| && AllPresent(ends, avail)
            && NearestAt(ends, avail, pos, sqrt, b)
  {
    ScanFacts(ends, avail, pos, sqrt);
  }

  /** Each step of an ordering: the first path taken is a nearest one,
      the lowest-indexed among equally near ones, and the rest of the
      ordering starts from its end point, whichever of its end points was
      the nearer. */
  lemma PassStep(ends: seq<Option<Ends>>, avail: seq<nat>, pos: Point, sqrt: real -> real)
    requires InRange(ends, avail) && avail != []
    requires Pass(ends, avail, pos, sqrt).Some?
    ensures var order := Pass(ends, avail, pos, sqrt).value;
            exists b :: 0 <= b < |avail| && avail[b] == order[0]
              && AllPresent(ends, avail)
              && NearestAt(ends, avail, pos, sqrt, b)
              && InRange(ends, avail[..b] + avail[b + 1..])
              && Pass(ends, avail[..b] + avail[b + 1..], ends[order[0]].value.end, sqrt)
                 == Some(order[1..])
  {
    ScanShape(ends, avail, pos, sqrt);
    PassUnfold(ends, avail, pos, sqrt);
    ScanPicksNearest(ends, avail, pos, sqrt);
    var b := Scan(ends, avail, pos, sqrt).value.index;
    var j := avail[b];
    var rest := avail[..b] + avail[b + 1..];
    var tail := Pass(ends, rest, ends[j].value.end, sqrt);
    var order := Pass(ends, avail, pos, sqrt).value;
    assert tail.Some? && order == [j] + tail.value;
    assert order[0] == j && order[1..] == tail.value;
  }

  /** The sum of the chords of a concatenation. */
  lemma {:induction false} ChordSumAppend(ends: seq<Option<Ends>>, a: seq<nat>, b: seq<nat>,
                                          sqrt: real -> real)
    requires InRange(ends, a) && InRange(ends, b)
    ensures InRange(ends, a + b)
    ensures ChordSum(ends, a + b, sqrt) == ChordSum(ends, a, sqrt) + ChordSum(ends, b, sqrt)
    decreases |b|
  {
    if b == [] {
      assert a + b == a;
    } else {
      var front := b[..|b| - 1];
      assert (a + b)[..|a + b| - 1] == a + front;
      ChordSumAppend(ends, a, front, sqrt);
    }
  }

  /** Taking one path out of an order takes its chord out of the sum. */
  lemma ChordSumRemove(ends: seq<Option<Ends>>, b: seq<nat>, j: nat, sqrt: real -> real)
    requires InRange(ends, b) && j < |b|
    ensures InRange(ends, b[..j] + b[j + 1..])
    ensures ChordSum(ends, b, sqrt)
            == ChordSum(ends, b[..j] + b[j + 1..], sqrt) + Chord(ends[b[j]], sqrt)
  {
    assert b == b[..j] + [b[j]] + b[j + 1..];
    ChordSumAppend(ends, b[..j], [b[j]], sqrt);
    ChordSumAppend(ends, b[..j] + [b[j]], b[j + 1..], sqrt);
    ChordSumAppend(ends, b[..j], b[j + 1..], sqrt);
    assert ChordSum(ends, [b[j]], sqrt) == Chord(ends[b[j]], sqrt) by {
      assert [b[j]][..0] == [];
    }
  }

  /** The sum of the chords does not depend on the order. */
  lemma {:induction false} ChordSumPermutation(ends: seq<Option<Ends>>, a: seq<nat>, b: seq<nat>,
                                               sqrt: real -> real)
    requires InRange(ends, a) && InRange(ends, b)
    requires multiset(a) == multiset(b)
    ensures ChordSum(ends, a, sqrt) == ChordSum(ends, b, sqrt)
    decreases |a|
  {
    if a != [] {
      var x := a[|a| - 1];
      var front := a[..|a| - 1];
      assert a == front + [x];
      assert x in multiset(b);
      var j :| 0 <= j < |b| && b[j] == x;
      MultisetRemove(front, x, b, j);
      ChordSumRemove(ends, b, j, sqrt);
      ChordSumPermutation(ends, front, b[..j] + b[j + 1..], sqrt);
    }
  }

  /** The chords are lengths, so their sum is not negative. */
  lemma {:induction false} ChordSumNonNegative(ends: seq<Option<Ends>>, order: seq<nat>,
                                               sqrt: real -> real)
    requires IsSqrt(sqrt) && InRange(ends, order)
    ensures 0.0 <= ChordSum(ends, order, sqrt)
  {
    if order != [] {
      ChordSumNonNegative(ends, order[..|order| - 1], sqrt);
      var e := ends[order[|order| - 1]];
      if e.Some? {
        DistMetric(e.value.end, e.value.start, sqrt);
      }
    }
  }

  /** What the component reports: for a non-empty list and at least one
      iteration, either a failure or an ordering that holds every input
      path exactly once, with as its distance the sum over all paths of
      their end-to-start chords, whatever the ordering; the distance is
      double.MaxValue with no list exactly when there is no iteration or
      that sum reaches it. */
  lemma OptimizationFacts(ends: seq<Option<Ends>>, start: Point, iterations: int, sqrt: real -> real)
    requires IsSqrt(sqrt)
    ensures var r := Optimization(ends, start, iterations, sqrt);
            && (r.NoPaths? <==> |ends| == 0)
            && (r.Failed? ==> iterations > 0 && |ends| > 0)
            && (r.Done? && r.best.Some? ==>
                  |r.best.value| == |ends|
                  && multiset(r.best.value) == multiset(Range(|ends|))
                  && r.distance == ChordSum(ends, Range(|ends|), sqrt)
                  && 0.0 <= r.distance < MaxDouble)
            && (r.Done? && r.best.None? ==>
                  r.distance == MaxDouble
                  && (iterations <= 0 || MaxDouble <= ChordSum(ends, Range(|ends|), sqrt)))
  {
    var n := |ends|;
    if n > 0 && iterations > 0 {
      var order := Pass(ends, Range(n), start, sqrt);
      if order.Some? {
        PassPermutation(ends, Range(n), start, sqrt);
        assert InRange(ends, order.value) by {
          forall k | 0 <= k < |order.value|
            ensures order.value[k] < n
          {
            assert order.value[k] in multiset(Range(n));
          }
        }
        ChordSumPermutation(ends, order.value, Range(n), sqrt);
        ChordSumNonNegative(ends, order.value, sqrt);
      }
    }
  }

  /** A null path or curve makes the component fail as soon as there is
      an iteration. */
  lemma NullPathFails(ends: seq<Option<Ends>>, start: Point, iterations: int, sqrt: real -> real)
    requires iterations > 0
    requires exists k :: 0 <= k < |ends| && ends[k].None?
    ensures Optimization(ends, start, iterations, sqrt) == Failed
  {
    var k :| 0 <= k < |ends| && ends[k].None?;
    ScanFacts(ends, Range(|ends|), start, sqrt);
    assert Range(|ends|)[k] == k;
  }
}
