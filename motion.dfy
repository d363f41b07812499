/**
 * The movement loop both detectors run over consecutive pointer samples:
 * segment lengths, per-pair time deltas, speeds, turning angles and the
 * count of zero-length ("fixed position") segments.
 *
 * `Math.sqrt` and `Math.atan2` are not modelled exactly: they are supplied
 * as a `MathOps` value, and the only facts used about them are the ones
 * `Lawful` states.
 */
module Motion {
  import opened Stats

  /** `Math.PI` */
  const Pi: real := 3.141592653589793

  datatype MathOps = MathOps(sqrt: real -> real, atan2: (real, real) -> real)

  /** The minimal laws the model assumes of the host's square root and arc tangent. */
  ghost predicate Lawful(m: MathOps)
  {
    && m.sqrt(0.0) == 0.0
    && (forall v: real :: m.sqrt(v) >= 0.0)
    && (forall y: real, x: real :: -Pi <= m.atan2(y, x) <= Pi)
  }

  datatype Point = Point(x: real, y: real)

  /** One pointer observation: client coordinates and a millisecond timestamp. */
  datatype MouseRecord = MouseRecord(x: real, y: real, timestamp: real)

  /** `Math.sqrt(Math.pow(x2 - x1, 2) + Math.pow(y2 - y1, 2))` */
  function Distance(m: MathOps, x1: real, y1: real, x2: real, y2: real): real
  {
    m.sqrt((x2 - x1) * (x2 - x1) + (y2 - y1) * (y2 - y1))
  }

  function SegmentLength(m: MathOps, a: MouseRecord, b: MouseRecord): real
  {
    Distance(m, a.x, a.y, b.x, b.y)
  }

  /** The heading change at `b` between segments a-b and b-c, folded into [0, Pi]. */
  function TurnAngle(m: MathOps, a: MouseRecord, b: MouseRecord, c: MouseRecord): real
  {
    var angle1 := m.atan2(b.y - a.y, b.x - a.x);
    var angle2 := m.atan2(c.y - b.y, c.x - b.x);
    var change := Abs(angle2 - angle1);
    if change > Pi then 2.0 * Pi - change else change
  }

  datatype Series = Series(speeds: seq<real>, timeDeltas: seq<real>, angles: seq<real>, fixedCount: nat)

  const NoSeries := Series([], [], [], 0)

  /** What iteration `i` of the loop (pair `s[i-1]`, `s[i]`) adds to the accumulators. */
  function Step(m: MathOps, s: seq<MouseRecord>, i: nat, acc: Series): Series
    requires 1 <= i < |s|
  {
    var prev, curr := s[i - 1], s[i];
    var distance := SegmentLength(m, prev, curr);
    var timeDelta := curr.timestamp - prev.timestamp;
    var moving := timeDelta > 0.0 && distance > 0.0;
    Series(
      if moving then acc.speeds + [distance / timeDelta] else acc.speeds,
      acc.timeDeltas + [timeDelta],
      if moving && i >= 2 then acc.angles + [TurnAngle(m, s[i - 2], prev, curr)] else acc.angles,
      if distance == 0.0 then acc.fixedCount + 1 else acc.fixedCount)
  }

  /** The accumulators after the pairs ending at indices 1 .. k-1. */
  function SeriesUpTo(m: MathOps, s: seq<MouseRecord>, k: nat): Series
    requires k <= |s|
    decreases k
  {
    if k <= 1 then NoSeries else Step(m, s, k - 1, SeriesUpTo(m, s, k - 1))
  }

  /** The loop is entered only with at least two samples. */
  function MovementSeries(m: MathOps, s: seq<MouseRecord>): Series
  {
    if |s| >= 2 then SeriesUpTo(m, s, |s|) else NoSeries
  }

  /** The first loop of `_calculateFeatures` (`totalDistance` is accumulated there but never read). */
  method ExtractSeries(m: MathOps, s: seq<MouseRecord>) returns (r: Series)
    ensures r == MovementSeries(m, s)
  {
    var fixedPositionCount: nat := 0;
    var speeds: seq<real> := [];
    var timeDeltas: seq<real> := [];
    var angles: seq<real> := [];
    if |s| >= 2 {
      for i := 1 to |s|
        invariant Series(speeds, timeDeltas, angles, fixedPositionCount) == SeriesUpTo(m, s, i)
      {
        var prev, curr := s[i - 1], s[i];
        var distance := SegmentLength(m, prev, curr);
        if distance == 0.0 {
          fixedPositionCount := fixedPositionCount + 1;
        }
        var timeDelta := curr.timestamp - prev.timestamp;
        timeDeltas := timeDeltas + [timeDelta];
        if timeDelta > 0.0 && distance > 0.0 {
          speeds := speeds + [distance / timeDelta];
          if i >= 2 {
            angles := angles + [TurnAngle(m, s[i - 2], prev, curr)];
          }
        }
      }
    }
    r := Series(speeds, timeDeltas, angles, fixedPositionCount);
  }

  /**
   * For k samples there are k-1 time deltas, each the difference of neighbouring
   * timestamps; at most k-1 segments are fixed; only moving segments yield a
   * speed, always positive, and only they can yield an angle.
   */
  lemma SeriesShape(m: MathOps, s: seq<MouseRecord>, k: nat)
    requires 1 <= k <= |s|
    ensures |SeriesUpTo(m, s, k).timeDeltas| == k - 1
    ensures forall i :: 0 <= i < k - 1 ==> SeriesUpTo(m, s, k).timeDeltas[i] == s[i + 1].timestamp - s[i].timestamp
    ensures SeriesUpTo(m, s, k).fixedCount <= k - 1
    ensures |SeriesUpTo(m, s, k).angles| <= |SeriesUpTo(m, s, k).speeds| <= k - 1
    ensures SeriesUpTo(m, s, k).fixedCount + |SeriesUpTo(m, s, k).speeds| <= k - 1
    ensures forall i :: 0 <= i < |SeriesUpTo(m, s, k).speeds| ==> SeriesUpTo(m, s, k).speeds[i] > 0.0
  {
    SeriesCounts(m, s, k);
    SeriesTimeDeltas(m, s, k);
    SeriesSpeedsPositive(m, s, k);
  }

  lemma {:induction false} SeriesCounts(m: MathOps, s: seq<MouseRecord>, k: nat)
    requires 1 <= k <= |s|
    ensures |SeriesUpTo(m, s, k).timeDeltas| == k - 1
    ensures |SeriesUpTo(m, s, k).angles| <= |SeriesUpTo(m, s, k).speeds|
    ensures SeriesUpTo(m, s, k).fixedCount + |SeriesUpTo(m, s, k).speeds| <= k - 1
  {
    if k > 1 {
      SeriesCounts(m, s, k - 1);
    }
  }

  lemma {:induction false} SeriesTimeDeltas(m: MathOps, s: seq<MouseRecord>, k: nat)
    requires 1 <= k <= |s|
    ensures |SeriesUpTo(m, s, k).timeDeltas| == k - 1
    ensures forall i :: 0 <= i < k - 1 ==> SeriesUpTo(m, s, k).timeDeltas[i] == s[i + 1].timestamp - s[i].timestamp
  {
    if k > 1 {
      SeriesTimeDeltas(m, s, k - 1);
      var acc, r := SeriesUpTo(m, s, k - 1).timeDeltas, SeriesUpTo(m, s, k).timeDeltas;
      assert r == acc + [s[k - 1].timestamp - s[k - 2].timestamp];
      assert forall i :: 0 <= i < k - 2 ==> r[i] == acc[i];
    }
  }

  lemma {:induction false} SeriesSpeedsPositive(m: MathOps, s: seq<MouseRecord>, k: nat)
    requires 1 <= k <= |s|
    ensures forall i :: 0 <= i < |SeriesUpTo(m, s, k).speeds| ==> SeriesUpTo(m, s, k).speeds[i] > 0.0
  {
    if k > 1 {
      SeriesSpeedsPositive(m, s, k - 1);
      var acc, r := SeriesUpTo(m, s, k - 1).speeds, SeriesUpTo(m, s, k).speeds;
      var prev, curr := s[k - 2], s[k - 1];
      var distance := SegmentLength(m, prev, curr);
      var timeDelta := curr.timestamp - prev.timestamp;
      if timeDelta > 0.0 && distance > 0.0 {
        assert distance / timeDelta > 0.0;
        assert r == acc + [distance / timeDelta];
      } else {
        assert r == acc;
      }
    }
  }

  /** No fixed segment is counted exactly when every segment has non-zero length. */
  lemma {:induction false} NoFixedIff(m: MathOps, s: seq<MouseRecord>, k: nat)
    requires 1 <= k <= |s|
    ensures SeriesUpTo(m, s, k).fixedCount == 0 <==> forall i :: 1 <= i < k ==> SegmentLength(m, s[i - 1], s[i]) != 0.0
  {
    if k > 1 {
      NoFixedIff(m, s, k - 1);
    }
  }

  /** Every segment is fixed exactly when the count reaches k-1. */
  lemma {:induction false} AllFixedIff(m: MathOps, s: seq<MouseRecord>, k: nat)
    requires 1 <= k <= |s|
    ensures SeriesUpTo(m, s, k).fixedCount == k - 1 <==> forall i :: 1 <= i < k ==> SegmentLength(m, s[i - 1], s[i]) == 0.0
  {
    if k > 1 {
      AllFixedIff(m, s, k - 1);
      SeriesShape(m, s, k - 1);
    }
  }

  /** With an arc tangent in [-Pi, Pi], every folded turning angle lies in [0, Pi]. */
  lemma TurnAngleInRange(m: MathOps, a: MouseRecord, b: MouseRecord, c: MouseRecord)
    requires Lawful(m)
    ensures 0.0 <= TurnAngle(m, a, b, c) <= Pi
  {
    var angle1 := m.atan2(b.y - a.y, b.x - a.x);
    var angle2 := m.atan2(c.y - b.y, c.x - b.x);
    assert -Pi <= angle1 <= Pi && -Pi <= angle2 <= Pi;
  }

  lemma {:induction false} AnglesInRangeUpTo(m: MathOps, s: seq<MouseRecord>, k: nat)
    requires Lawful(m) && k <= |s|
    ensures forall i :: 0 <= i < |SeriesUpTo(m, s, k).angles| ==> 0.0 <= SeriesUpTo(m, s, k).angles[i] <= Pi
  {
    if k > 1 {
      AnglesInRangeUpTo(m, s, k - 1);
      if k - 1 >= 2 {
        TurnAngleInRange(m, s[k - 3], s[k - 2], s[k - 1]);
      }
    }
  }

  /** Every curvature angle of a path lies in [0, Pi], and so does their mean. */
  lemma AnglesInRange(m: MathOps, s: seq<MouseRecord>)
    requires Lawful(m)
    ensures forall i :: 0 <= i < |MovementSeries(m, s).angles| ==> 0.0 <= MovementSeries(m, s).angles[i] <= Pi
    ensures 0.0 <= Mean(MovementSeries(m, s).angles) <= Pi
  {
    AnglesInRangeUpTo(m, s, |s|);
    if |MovementSeries(m, s).angles| > 0 {
      MeanBounds(MovementSeries(m, s).angles, 0.0, Pi);
    }
  }

  /** The timestamps of a path, in order. */
  function Timestamps(s: seq<MouseRecord>): (ts: seq<real>)
    ensures |ts| == |s| && forall i :: 0 <= i < |s| ==> ts[i] == s[i].timestamp
  {
    seq(|s|, i requires 0 <= i < |s| => s[i].timestamp)
  }

  lemma TimeDeltasAreIntervals(m: MathOps, s: seq<MouseRecord>)
    requires |s| >= 2
    ensures SeriesUpTo(m, s, |s|).timeDeltas == Intervals(Timestamps(s))
  {
    var r, ts := SeriesUpTo(m, s, |s|), Timestamps(s);
    SeriesShape(m, s, |s|);
    IntervalsShape(ts);
    assert |r.timeDeltas| == |Intervals(ts)|;
    forall i | 0 <= i < |s| - 1
      ensures r.timeDeltas[i] == Intervals(ts)[i]
    {
    }
  }

  /** The whole-path form of `SeriesShape`. */
  lemma MovementShape(m: MathOps, s: seq<MouseRecord>)
    ensures |MovementSeries(m, s).timeDeltas| == if |s| < 2 then 0 else |s| - 1
    ensures MovementSeries(m, s).timeDeltas == Intervals(Timestamps(s))
    ensures |s| >= 1 ==> MovementSeries(m, s).fixedCount <= |s| - 1
    ensures |s| < 2 ==> MovementSeries(m, s) == NoSeries
  {
    if |s| >= 2 {
      SeriesShape(m, s, |s|);
      TimeDeltasAreIntervals(m, s);
    } else {
      assert Intervals(Timestamps(s)) == [];
    }
  }

  lemma {:induction false} StationaryUpTo(m: MathOps, s: seq<MouseRecord>, k: nat)
    requires Lawful(m) && 1 <= k <= |s|
    requires forall i :: 0 <= i < |s| ==> s[i].x == s[0].x && s[i].y == s[0].y
    ensures SeriesUpTo(m, s, k) == Series([], SeriesUpTo(m, s, k).timeDeltas, [], k - 1)
  {
    if k > 1 {
      StationaryUpTo(m, s, k - 1);
      var a, b := s[k - 2], s[k - 1];
      assert a.x == b.x && a.y == b.y;
      assert (b.x - a.x) * (b.x - a.x) + (b.y - a.y) * (b.y - a.y) == 0.0;
      assert SegmentLength(m, s[k - 2], s[k - 1]) == m.sqrt(0.0);
    }
  }

  /** A pointer that never leaves its spot: every segment is fixed, and there are no speeds or angles. */
  lemma StationaryPath(m: MathOps, s: seq<MouseRecord>)
    requires Lawful(m) && |s| >= 2
    requires forall i :: 0 <= i < |s| ==> s[i].x == s[0].x && s[i].y == s[0].y
    ensures MovementSeries(m, s).fixedCount == |s| - 1
    ensures MovementSeries(m, s).speeds == [] && MovementSeries(m, s).angles == []
  {
    StationaryUpTo(m, s, |s|);
  }
}
