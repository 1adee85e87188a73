/** PathAnalysisComponent: the estimated machining time and distance of a
    list of laser paths, split into laser-on and laser-off time. */
module PathAnalysis {
  import opened Geometry
  import opened LaserPaths
  import opened Sequences

  /** The four outputs: total time, laser-on time, laser-off time (all in
      seconds for a speed in mm/min) and total distance. */
  datatype Totals = Totals(totalTime: real, timeOn: real, timeOff: real, totalDistance: real)

  const Zero := Totals(0.0, 0.0, 0.0, 0.0)

  function Add(a: Totals, b: Totals): Totals
  {
    Totals(a.totalTime + b.totalTime, a.timeOn + b.timeOn, a.timeOff + b.timeOff,
           a.totalDistance + b.totalDistance)
  }

  /** A path is counted when it is present, its curve is present and valid,
      and its speed is positive. */
  predicate Counted(r: Option<PathRecord>)
  {
    r.Some? && Usable(r.value.curve) && r.value.vitesse > 0.0
  }

  /** The time of a counted path: its length over its speed per second. */
  function Time(r: PathRecord): real
    requires r.curve.Some? && r.vitesse > 0.0
  {
    r.curve.value.length / (r.vitesse / 60.0)
  }

  /** What one path adds to the totals. */
  function Contribution(r: Option<PathRecord>): Totals
  {
    if !Counted(r) then Zero
    else
      var t := Time(r.value);
      Totals(t, if r.value.isLaserOn then t else 0.0, if r.value.isLaserOn then 0.0 else t,
             r.value.curve.value.length)
  }

  /** The sum of the totals f gives to each element, added in list
      order. */
  function SumOf<T>(xs: seq<T>, f: T -> Totals): Totals
  {
    if xs == [] then Zero else Add(SumOf(xs[..|xs| - 1], f), f(xs[|xs| - 1]))
  }

  /** The totals of a list of paths, accumulated in list order. */
  function Accumulate(recs: seq<Option<PathRecord>>): Totals
  {
    SumOf(recs, Contribution)
  }

  /** One more path adds its contribution. */
  lemma AccumulateSnoc(recs: seq<Option<PathRecord>>, i: nat)
    requires i < |recs|
    ensures Accumulate(recs[..i + 1]) == Add(Accumulate(recs[..i]), Contribution(recs[i]))
  {
    assert recs[..i + 1][..i] == recs[..i];
  }

  /** SolveInstance: the four totals of the given paths. */
  method AnalyzePaths(paths: seq<LaserPathData?>)
    returns (totalTime: real, timeOn: real, timeOff: real, totalDistance: real)
    ensures Totals(totalTime, timeOn, timeOff, totalDistance) == Accumulate(Records(paths))
  {
    totalTime, timeOn, timeOff, totalDistance := 0.0, 0.0, 0.0, 0.0;
    ghost var recs := Records(paths);
    for i := 0 to |paths|
      invariant Totals(totalTime, timeOn, timeOff, totalDistance) == Accumulate(recs[..i])
    {
      AccumulateSnoc(recs, i);
      var path := paths[i];
      if path == null || path.curve.None? || !path.curve.value.isValid {
        continue;
      }
      var speed := path.vitesse;
      if speed <= 0.0 {
        continue;
      }
      assert recs[i] == Some(path.Record());
      var length := path.curve.value.length;
      var time := length / (speed / 60.0);
      assert Contribution(recs[i]) ==
        Totals(time, if path.isLaserOn then time else 0.0, if path.isLaserOn then 0.0 else time, length);
      totalDistance := totalDistance + length;
      totalTime := totalTime + time;
      if path.isLaserOn {
        timeOn := timeOn + time;
      } else {
        timeOff := timeOff + time;
      }
    }
    assert recs[..|paths|] == recs;
  }

  /** The time of a counted path travelled at its speed per second covers
      its length. */
  lemma TimeCoversLength(r: PathRecord)
    requires r.curve.Some? && r.vitesse > 0.0
    ensures Time(r) * (r.vitesse / 60.0) == r.curve.value.length
  {
  }

  /** One path's time goes either to the laser-on or to the laser-off
      time. */
  lemma ContributionSplits(r: Option<PathRecord>)
    ensures Contribution(r).totalTime == Contribution(r).timeOn + Contribution(r).timeOff
    ensures Contribution(r).timeOn == 0.0 || Contribution(r).timeOff == 0.0
  {
  }

  /** The total time is always the laser-on time plus the laser-off
      time. */
  lemma {:induction false} TimeSplits(recs: seq<Option<PathRecord>>)
    ensures Accumulate(recs).totalTime == Accumulate(recs).timeOn + Accumulate(recs).timeOff
  {
    if recs != [] {
      var init, last := recs[..|recs| - 1], recs[|recs| - 1];
      TimeSplits(init);
      ContributionSplits(last);
      assert Accumulate(recs) == Add(Accumulate(init), Contribution(last));
    }
  }

  /** A path that is not counted changes no total. */
  lemma SkippedAddsNothing(recs: seq<Option<PathRecord>>, r: Option<PathRecord>)
    requires !Counted(r)
    ensures Accumulate(recs + [r]) == Accumulate(recs)
  {
    assert (recs + [r])[..|recs|] == recs;
  }

  /** A quotient of a non-negative by a positive real is non-negative. */
  lemma DivNonNeg(a: real, b: real)
    requires 0.0 <= a && 0.0 < b
    ensures 0.0 <= a / b
  {
  }

  /** When every counted path has a non-negative length, as GetLength
      guarantees, no total is negative. */
  lemma {:induction false} TotalsNonNegative(recs: seq<Option<PathRecord>>)
    requires forall i :: 0 <= i < |recs| && Counted(recs[i]) ==> recs[i].value.curve.value.length >= 0.0
    ensures var t := Accumulate(recs);
            0.0 <= t.totalTime && 0.0 <= t.timeOn && 0.0 <= t.timeOff && 0.0 <= t.totalDistance
  {
    if recs != [] {
      var init := recs[..|recs| - 1];
      assert forall i :: 0 <= i < |init| ==> init[i] == recs[i];
      TotalsNonNegative(init);
      var r := recs[|recs| - 1];
      if Counted(r) {
        DivNonNeg(r.value.curve.value.length, r.value.vitesse / 60.0);
      }
    }
  }

  /** The sum over a concatenation is the sum of the sums. */
  lemma {:induction false} SumOfAppend<T>(a: seq<T>, b: seq<T>, f: T -> Totals)
    ensures SumOf(a + b, f) == Add(SumOf(a, f), SumOf(b, f))
    decreases |b|
  {
    if b == [] {
      assert a + b == a;
    } else {
      var front, last := b[..|b| - 1], b[|b| - 1];
      assert (a + b)[..|a + b| - 1] == a + front;
      assert (a + b)[|a + b| - 1] == last;
      SumOfAppend(a, front, f);
    }
  }

  /** Taking one element out of a list takes its share out of the sum. */
  lemma SumOfRemove<T>(b: seq<T>, j: nat, f: T -> Totals)
    requires j < |b|
    ensures SumOf(b, f) == Add(SumOf(b[..j] + b[j + 1..], f), f(b[j]))
  {
    var left, x, right := b[..j], b[j], b[j + 1..];
    assert b[..j + 1] == left + [x];
    assert b == b[..j + 1] + right;
    SumOfAppend(left, [x], f);
    SumOfAppend(left + [x], right, f);
    SumOfAppend(left, right, f);
    assert SumOf([x], f) == f(x) by {
      assert [x][..0] == [];
    }
    var l, r := SumOf(left, f), SumOf(right, f);
    assert SumOf(b, f) == Add(Add(l, f(x)), r);
    assert SumOf(left + right, f) == Add(l, r);
  }

  /** The sum does not depend on the order of the list. */
  lemma {:induction false} SumOfPermutation<T>(a: seq<T>, b: seq<T>, f: T -> Totals)
    requires multiset(a) == multiset(b)
    ensures SumOf(a, f) == SumOf(b, f)
    decreases |a|
  {
    if a == [] {
      assert |b| == |multiset(b)|;
    } else {
      var x, front := a[|a| - 1], a[..|a| - 1];
      assert a == front + [x];
      assert x in multiset(b);
      var j :| 0 <= j < |b| && b[j] == x;
      MultisetRemove(front, x, b, j);
      SumOfRemove(b, j, f);
      SumOfPermutation(front, b[..j] + b[j + 1..], f);
    }
  }

  /** The totals do not depend on the order of the paths. */
  lemma OrderIndependent(a: seq<Option<PathRecord>>, b: seq<Option<PathRecord>>)
    requires multiset(a) == multiset(b)
    ensures Accumulate(a) == Accumulate(b)
  {
    SumOfPermutation(a, b, Contribution);
  }
}
