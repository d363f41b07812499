/**
 * The earlier `BotDetector`: the same capture handlers and movement loop as
 * the real-time detector, but with unbounded buffers, no trust or movement
 * evidence on clicks, click pairing by the two records right before a click,
 * a viewport aspect-ratio feature, one weight profile, a score floored at 0
 * and not clamped above, and a `stopTracking` that fails when not started.
 */
module Classic {
  import opened Wrappers
  import opened Stats
  import opened Motion
  import opened RealTimeFeatures
  import RealTimeScoring

  /** An entry of the event log: kind, target, time and whether it is a pairing candidate. */
  datatype LogEntry = LogEntry(kind: EventKind, target: Target, timestamp: real, isPrecedingEvent: bool)

  datatype ClassicFeatures = ClassicFeatures(
    speedVariance: real,
    timeDeltaVariance: real,
    pathCurvature: real,
    timeToFirstInteraction: real,
    keyInterEventVariance: real,
    clickDurationVariance: real,
    hasClickWithoutPrecedingEvents: real,
    screenAspectRatioDeviation: real,
    totalMoveEvents: nat,
    tabKeyUsage: real,
    fixedPositionCount: nat)

  /** The one weight profile of the detector. */
  datatype ClassicWeights = ClassicWeights(
    speedVariance: real,
    timeDeltaVariance: real,
    pathCurvature: real,
    timeToFirstInteraction: real,
    keyInterEventVariance: real,
    clickDurationVariance: real,
    hasClickWithoutPrecedingEvents: real,
    screenAspectRatioDeviation: real,
    totalMoveEvents: real,
    tabKeyUsage: real,
    fixedPositionCount: real)

  const Weights: ClassicWeights := ClassicWeights(0.3, 0.3, 0.25, 0.05, 0.04, 0.03, 0.8, 0.02, 0.01, -0.2, 0.01)

  const ClassicThreshold: real := 0.5

  /** The 16:9 reference of the aspect-ratio feature. */
  const ReferenceAspectRatio: real := 16.0 / 9.0

  const NotStartedMessage: string := "Mouse bot detection not started!"

  // ---------------------------------------------------------------------
  // Click pairing

  /** `eventRecords.slice(Math.max(0, i - 2), i).some(e => e.isPrecedingEvent)` */
  predicate AdjacentPair(e: seq<LogEntry>, i: nat)
    requires i <= |e|
  {
    exists k :: (if i >= 2 then i - 2 else 0) <= k < i && e[k].isPrecedingEvent
  }

  /** The counters of the click loop after the first `k` records (no movement evidence: `unmoved` stays 0). */
  function PairTallyUpTo(e: seq<LogEntry>, k: nat): Tally
    requires k <= |e|
    decreases k
  {
    if k == 0 then Tally(0, 0, 0)
    else
      var acc := PairTallyUpTo(e, k - 1);
      if e[k - 1].kind != Click then acc
      else Tally(acc.clicks + 1, acc.pairs + (if AdjacentPair(e, k - 1) then 1 else 0), 0)
  }

  /** The `for (let i = 0; i < this.eventRecords.length; i++)` loop counting clicks and paired clicks. */
  method TallyPairs(e: seq<LogEntry>) returns (tally: Tally)
    ensures tally == PairTallyUpTo(e, |e|)
  {
    var clickCount, eventPairCount := 0, 0;
    for i := 0 to |e|
      invariant Tally(clickCount, eventPairCount, 0) == PairTallyUpTo(e, i)
    {
      if e[i].kind == Click {
        clickCount := clickCount + 1;
        var isPaired := (i >= 1 && e[i - 1].isPrecedingEvent) || (i >= 2 && e[i - 2].isPrecedingEvent);
        assert isPaired == AdjacentPair(e, i) by {
          if isPaired {
            assert e[i - 1].isPrecedingEvent || e[i - 2].isPrecedingEvent;
          }
        }
        if isPaired {
          eventPairCount := eventPairCount + 1;
        }
      }
    }
    tally := Tally(clickCount, eventPairCount, 0);
  }

  /** Paired clicks are among the clicks, and a log without clicks counts none. */
  lemma {:induction false} PairTallyBounds(e: seq<LogEntry>, k: nat)
    requires k <= |e|
    ensures PairTallyUpTo(e, k).pairs <= PairTallyUpTo(e, k).clicks
    ensures PairTallyUpTo(e, k).clicks == 0 <==> forall i :: 0 <= i < k ==> e[i].kind != Click
  {
    if k > 0 {
      PairTallyBounds(e, k - 1);
    }
  }

  /** When each click has a pairing candidate among the two records before it, every click is paired. */
  lemma {:induction false} AllAdjacentPaired(e: seq<LogEntry>, k: nat)
    requires k <= |e|
    requires forall i :: 0 <= i < k && e[i].kind == Click ==> AdjacentPair(e, i)
    ensures PairTallyUpTo(e, k).pairs == PairTallyUpTo(e, k).clicks
  {
    if k > 0 {
      AllAdjacentPaired(e, k - 1);
    }
  }

  /** When no click has a pairing candidate right before it, no click is paired. */
  lemma {:induction false} NoneAdjacentPaired(e: seq<LogEntry>, k: nat)
    requires k <= |e|
    requires forall i :: 0 <= i < k && e[i].kind == Click ==> !AdjacentPair(e, i)
    ensures PairTallyUpTo(e, k).pairs == 0
  {
    if k > 0 {
      NoneAdjacentPaired(e, k - 1);
    }
  }

  /**
   * Only the two records right before a click decide: a mousedown/mouseup
   * pair three records back does not pair it.
   */
  lemma PairThreeBackIsMissed(t: Target)
    ensures var e := [LogEntry(MouseDown, t, 0.0, true), LogEntry(MouseUp, t, 10.0, true),
                      LogEntry(MouseMove, t, 20.0, false), LogEntry(KeyDown, t, 30.0, false),
                      LogEntry(Click, t, 40.0, false)];
      PairTallyUpTo(e, |e|) == Tally(1, 0, 0) && PrecedingEventsFlag(PairTallyUpTo(e, |e|)) == 1.0
  {
    var e := [LogEntry(MouseDown, t, 0.0, true), LogEntry(MouseUp, t, 10.0, true),
              LogEntry(MouseMove, t, 20.0, false), LogEntry(KeyDown, t, 30.0, false),
              LogEntry(Click, t, 40.0, false)];
    assert !AdjacentPair(e, 4) by {
      forall k | 2 <= k < 4 ensures !e[k].isPrecedingEvent { }
    }
    assert PairTallyUpTo(e, 4) == Tally(0, 0, 0);
  }

  // ---------------------------------------------------------------------
  // Features

  /** The detector state `_calculateFeatures` reads. */
  datatype ClassicState = ClassicState(
    mouse: seq<MouseRecord>,
    events: seq<LogEntry>,
    keyPresses: seq<real>,
    clickDurations: seq<real>,
    tabPressCount: nat,
    pageLoadTime: real)

  function EntryTime(e: LogEntry): real
  {
    e.timestamp
  }

  /** `Math.abs(window.innerWidth / window.innerHeight - 16 / 9)`, the viewport ratio supplied by the host. */
  function AspectRatioDeviation(aspectRatio: real): (r: real)
    ensures r >= 0.0
    ensures r == 0.0 <==> aspectRatio == ReferenceAspectRatio
  {
    Abs(aspectRatio - ReferenceAspectRatio)
  }

  /** The feature set `_calculateFeatures()` computes from the detector state. */
  function FeaturesOf(m: MathOps, st: ClassicState, aspectRatio: real): ClassicFeatures
  {
    var series := MovementSeries(m, st.mouse);
    var keyInterEvents := Intervals(st.keyPresses);
    ClassicFeatures(
      Variance(series.speeds, Mean(series.speeds)),
      Variance(series.timeDeltas, Mean(series.timeDeltas)),
      Variance(series.angles, Mean(series.angles)),
      FirstInteractionDelay(st.events, EntryTime, st.mouse, st.pageLoadTime),
      Variance(keyInterEvents, Mean(keyInterEvents)),
      Variance(st.clickDurations, Mean(st.clickDurations)),
      PrecedingEventsFlag(PairTallyUpTo(st.events, |st.events|)),
      AspectRatioDeviation(aspectRatio),
      |st.mouse|,
      TabUsage(st.tabPressCount, |st.keyPresses|),
      series.fixedCount)
  }

  /**
   * Every computed feature set: non-negative variances, a 0/1 pairing flag
   * that is 1 exactly when fewer than half the clicks are paired, a
   * non-negative aspect deviation, and a tab usage in [0, 1] (0 without key
   * presses) as long as every counted Tab press was also logged.
   */
  lemma FeaturesShape(m: MathOps, st: ClassicState, aspectRatio: real)
    requires st.tabPressCount <= |st.keyPresses|
    ensures var f := FeaturesOf(m, st, aspectRatio);
      var t := PairTallyUpTo(st.events, |st.events|);
      && f.speedVariance >= 0.0 && f.timeDeltaVariance >= 0.0 && f.pathCurvature >= 0.0
      && f.keyInterEventVariance >= 0.0 && f.clickDurationVariance >= 0.0
      && (f.hasClickWithoutPrecedingEvents == 1.0 <==> t.clicks > 0 && (t.pairs as real) < (t.clicks as real) * 0.5)
      && (f.hasClickWithoutPrecedingEvents == 0.0 || f.hasClickWithoutPrecedingEvents == 1.0)
      && f.screenAspectRatioDeviation >= 0.0
      && 0.0 <= f.tabKeyUsage <= 1.0
      && (st.keyPresses == [] ==> f.tabKeyUsage == 0.0)
      && (|st.mouse| >= 1 ==> f.fixedPositionCount <= |st.mouse| - 1)
  {
    MovementShape(m, st.mouse);
  }

  // ---------------------------------------------------------------------
  // Scoring

  /** The sum `_calculateSuspicionScore` accumulates before flooring. */
  function RawScore(f: ClassicFeatures): real
  {
    var w := Weights;
    w.speedVariance * RealTimeScoring.Inverted(f.speedVariance, 100.0)
    + w.timeDeltaVariance * RealTimeScoring.Inverted(f.timeDeltaVariance, 10.0)
    + w.pathCurvature * RealTimeScoring.Inverted(f.pathCurvature, 1.0)
    + w.timeToFirstInteraction * Max(0.0, 1.0 - Normalize(f.timeToFirstInteraction, 0.0, 5000.0))
    + w.keyInterEventVariance * RealTimeScoring.Inverted(f.keyInterEventVariance, 100.0)
    + w.clickDurationVariance * RealTimeScoring.Inverted(f.clickDurationVariance, 100.0)
    + w.hasClickWithoutPrecedingEvents * f.hasClickWithoutPrecedingEvents
    + w.screenAspectRatioDeviation * Normalize(f.screenAspectRatioDeviation, 0.0, 1.0)
    + w.fixedPositionCount * Normalize(f.fixedPositionCount as real, 0.0, if f.totalMoveEvents == 0 then 1.0 else f.totalMoveEvents as real)
    + w.tabKeyUsage * Normalize(f.tabKeyUsage, 0.0, 0.5)
  }

  /** `_calculateSuspicionScore`: `Math.max(0, score)`, with no upper clamp. */
  function SuspicionScore(f: ClassicFeatures): (r: real)
    ensures r >= 0.0
    ensures r >= RawScore(f) && (RawScore(f) >= 0.0 ==> r == RawScore(f))
  {
    Max(0.0, RawScore(f))
  }

  /** With a 0/1 pairing flag the score never exceeds the sum of the positive weights, 1.8. */
  lemma ScoreAtMost(f: ClassicFeatures)
    requires f.hasClickWithoutPrecedingEvents == 0.0 || f.hasClickWithoutPrecedingEvents == 1.0
    ensures SuspicionScore(f) <= 1.8
  {
    var w := Weights;
    assert w.tabKeyUsage * Normalize(f.tabKeyUsage, 0.0, 0.5) <= 0.0;
  }

  /**
   * The score is not clamped above: perfectly regular movement, an instant
   * first interaction, an unpaired click and a viewport far from 16:9 score
   * at least 1.79.
   */
  lemma ScoreCanExceedOne(f: ClassicFeatures)
    requires f.speedVariance <= 0.0 && f.timeDeltaVariance <= 0.0 && f.pathCurvature <= 0.0
    requires f.keyInterEventVariance <= 0.0 && f.clickDurationVariance <= 0.0
    requires f.timeToFirstInteraction <= 0.0 && f.hasClickWithoutPrecedingEvents == 1.0
    requires f.screenAspectRatioDeviation >= 1.0 && f.tabKeyUsage <= 0.0
    ensures SuspicionScore(f) >= 1.79 && SuspicionScore(f) > 1.0
  {
    var w := Weights;
    var a := w.speedVariance * RealTimeScoring.Inverted(f.speedVariance, 100.0);
    var b := w.timeDeltaVariance * RealTimeScoring.Inverted(f.timeDeltaVariance, 10.0);
    var c := w.pathCurvature * RealTimeScoring.Inverted(f.pathCurvature, 1.0);
    var d := w.timeToFirstInteraction * Max(0.0, 1.0 - Normalize(f.timeToFirstInteraction, 0.0, 5000.0));
    var e := w.keyInterEventVariance * RealTimeScoring.Inverted(f.keyInterEventVariance, 100.0);
    var g := w.clickDurationVariance * RealTimeScoring.Inverted(f.clickDurationVariance, 100.0);
    var h := w.hasClickWithoutPrecedingEvents * f.hasClickWithoutPrecedingEvents;
    var i := w.screenAspectRatioDeviation * Normalize(f.screenAspectRatioDeviation, 0.0, 1.0);
    var j := w.fixedPositionCount * Normalize(f.fixedPositionCount as real, 0.0, if f.totalMoveEvents == 0 then 1.0 else f.totalMoveEvents as real);
    var k := w.tabKeyUsage * Normalize(f.tabKeyUsage, 0.0, 0.5);
    assert RawScore(f) == a + b + c + d + e + g + h + i + j + k;
    assert a == 0.3 && b == 0.3 && c == 0.25 && d == 0.05 && e == 0.04 && g == 0.03;
    assert h == 0.8 && i == 0.02 && j >= 0.0 && k == 0.0;
  }

  /** Tab usage is the only negative weight: more of it never raises the score. */
  lemma TabUsageOnlyLowers(f: ClassicFeatures, u: real)
    requires f.tabKeyUsage <= u
    ensures SuspicionScore(f.(tabKeyUsage := u)) <= SuspicionScore(f)
  {
    var g := f.(tabKeyUsage := u);
    assert Normalize(f.tabKeyUsage, 0.0, 0.5) <= Normalize(u, 0.0, 0.5);
    assert RawScore(g) - RawScore(f) == Weights.tabKeyUsage * (Normalize(u, 0.0, 0.5) - Normalize(f.tabKeyUsage, 0.0, 0.5));
  }

  /** An unpaired-click flag alone puts the verdict over the threshold. */
  lemma UnpairedClickIsBot(f: ClassicFeatures)
    requires f.hasClickWithoutPrecedingEvents == 1.0 && f.tabKeyUsage <= 0.0
    ensures SuspicionScore(f) >= 0.8 && SuspicionScore(f) > ClassicThreshold
  {
    assert Normalize(f.tabKeyUsage, 0.0, 0.5) == 0.0;
  }

  datatype ClassicResult = ClassicResult(score: real, isBot: bool, features: ClassicFeatures)

  /** The result of `stopTracking`: the floored score and the verdict at 0.5. */
  function Verdict(f: ClassicFeatures): (r: ClassicResult)
    ensures r.score >= 0.0 && (r.isBot <==> r.score > ClassicThreshold) && r.features == f
  {
    var score := SuspicionScore(f);
    ClassicResult(score, score > ClassicThreshold, f)
  }

  // ---------------------------------------------------------------------
  // The detector

  /** The record the first mouse move or key press logs when the log is empty. */
  function ClassicFirstInteraction(kind: EventKind, target: Option<nat>, timestamp: real): (r: LogEntry)
    ensures !r.isPrecedingEvent
  {
    LogEntry(kind, TargetOf(target), timestamp, false)
  }

  class BotDetector {
    /** The host's `Math.sqrt` and `Math.atan2`. */
    const math: MathOps
    /** `performance.now()` when the detector was created. */
    const pageLoadTime: real

    var mouseRecords: seq<MouseRecord>
    var eventRecords: seq<LogEntry>
    var keyPressRecords: seq<real>
    var clickDurations: seq<real>
    var mousedownTimestamp: Option<real>
    var tracking: bool
    var tabPressCount: nat

    /**
     * Every counted Tab press is a logged key press, and only mousedown and
     * mouseup records are pairing candidates.
     */
    ghost predicate Valid()
      reads this
    {
      && tabPressCount <= |keyPressRecords|
      && forall i :: 0 <= i < |eventRecords| && eventRecords[i].isPrecedingEvent ==>
           eventRecords[i].kind == MouseDown || eventRecords[i].kind == MouseUp
    }

    function State(): ClassicState
      reads this
    {
      ClassicState(mouseRecords, eventRecords, keyPressRecords, clickDurations, tabPressCount, pageLoadTime)
    }

    constructor (pageLoadTime: real, math: MathOps)
      ensures Valid()
      ensures this.pageLoadTime == pageLoadTime && this.math == math
      ensures mouseRecords == [] && eventRecords == [] && keyPressRecords == [] && clickDurations == []
      ensures mousedownTimestamp == None && !tracking && tabPressCount == 0
    {
      this.math := math;
      this.pageLoadTime := pageLoadTime;
      mouseRecords, eventRecords, keyPressRecords, clickDurations := [], [], [], [];
      mousedownTimestamp, tracking, tabPressCount := None, false, 0;
    }

    /** `startTracking`: a no-op while tracking, otherwise enters Tracking. */
    method StartTracking()
      modifies this`tracking
      ensures tracking
      ensures old(tracking) ==> unchanged(this)
    {
      if tracking {
        return;
      }
      tracking := true;
    }

    /**
     * `stopTracking`: fails when not tracking and changes nothing; otherwise
     * leaves Tracking and returns the verdict on the features of everything
     * recorded. `aspectRatio` is the viewport ratio the host reports.
     */
    method StopTracking(aspectRatio: real) returns (result: Result<ClassicResult, string>)
      modifies this`tracking
      ensures !old(tracking) ==> result == Failure(NotStartedMessage) && unchanged(this)
      ensures old(tracking) ==> !tracking && result == Success(Verdict(FeaturesOf(math, State(), aspectRatio)))
    {
      if !tracking {
        return Failure(NotStartedMessage);
      }
      tracking := false;
      var verdict := SessionResult(aspectRatio);
      result := Success(verdict);
    }

    /** The successful branch of `stopTracking`: the features of everything recorded, scored and judged. */
    method SessionResult(aspectRatio: real) returns (verdict: ClassicResult)
      ensures verdict == Verdict(FeaturesOf(math, State(), aspectRatio))
    {
      var features := CalculateFeatures(aspectRatio);
      var score := CalculateSuspicionScore(features);
      verdict := ClassicResult(score, score > ClassicThreshold, features);
    }

    /** `_handleMouseMove`: appends the sample; logs a first interaction when the log is empty. */
    method HandleMouseMove(x: real, y: real, timestamp: real, target: Option<nat>)
      requires Valid()
      modifies this`mouseRecords, this`eventRecords
      ensures Valid()
      ensures mouseRecords == old(mouseRecords) + [MouseRecord(x, y, timestamp)]
      ensures eventRecords == if old(eventRecords) == [] then [ClassicFirstInteraction(MouseMove, target, timestamp)] else old(eventRecords)
    {
      mouseRecords := mouseRecords + [MouseRecord(x, y, timestamp)];
      if |eventRecords| == 0 {
        eventRecords := eventRecords + [ClassicFirstInteraction(MouseMove, target, timestamp)];
      }
    }

    /**
     * `_handleKeyDown`: appends the timestamp, counts a Tab (by `key` or
     * `code`), and logs a first interaction when the log is empty; that record
     * carries the type 'mousedown', as written, but is not a pairing candidate.
     */
    method HandleKeyDown(timestamp: real, key: string, code: string, target: Option<nat>)
      requires Valid()
      modifies this`keyPressRecords, this`tabPressCount, this`eventRecords
      ensures Valid()
      ensures keyPressRecords == old(keyPressRecords) + [timestamp]
      ensures tabPressCount == old(tabPressCount) + (if key == "Tab" || code == "Tab" then 1 else 0)
      ensures eventRecords == if old(eventRecords) == [] then [ClassicFirstInteraction(MouseDown, target, timestamp)] else old(eventRecords)
    {
      keyPressRecords := keyPressRecords + [timestamp];
      if key == "Tab" || code == "Tab" {
        tabPressCount := tabPressCount + 1;
      }
      if |eventRecords| == 0 {
        eventRecords := eventRecords + [ClassicFirstInteraction(MouseDown, target, timestamp)];
      }
    }

    /** `_handleMouseDown`: opens the mousedown marker and logs a pairing candidate. */
    method HandleMouseDown(timestamp: real, target: Option<nat>)
      requires Valid()
      modifies this`mousedownTimestamp, this`eventRecords
      ensures Valid()
      ensures mousedownTimestamp == Some(timestamp)
      ensures eventRecords == old(eventRecords) + [LogEntry(MouseDown, TargetOf(target), timestamp, true)]
    {
      mousedownTimestamp := Some(timestamp);
      eventRecords := eventRecords + [LogEntry(MouseDown, TargetOf(target), timestamp, true)];
    }

    /**
     * `_handleMouseUp`: logs a pairing candidate; if the mousedown marker is
     * open, appends one duration (up - down) and resets the marker.
     */
    method HandleMouseUp(timestamp: real, target: Option<nat>)
      requires Valid()
      modifies this`mousedownTimestamp, this`eventRecords, this`clickDurations
      ensures Valid()
      ensures eventRecords == old(eventRecords) + [LogEntry(MouseUp, TargetOf(target), timestamp, true)]
      ensures old(mousedownTimestamp).Some? ==> clickDurations == old(clickDurations) + [timestamp - old(mousedownTimestamp).value]
      ensures old(mousedownTimestamp).None? ==> clickDurations == old(clickDurations)
      ensures mousedownTimestamp == None
    {
      eventRecords := eventRecords + [LogEntry(MouseUp, TargetOf(target), timestamp, true)];
      if mousedownTimestamp.Some? {
        clickDurations := clickDurations + [timestamp - mousedownTimestamp.value];
        mousedownTimestamp := None;
      }
    }

    /** `_handleClick`: logs the click, which is never a pairing candidate. */
    method HandleClick(timestamp: real, target: Option<nat>)
      requires Valid()
      modifies this`eventRecords
      ensures Valid()
      ensures eventRecords == old(eventRecords) + [LogEntry(Click, TargetOf(target), timestamp, false)]
    {
      eventRecords := eventRecords + [LogEntry(Click, TargetOf(target), timestamp, false)];
    }

    /** `_calculateFeatures()`: the movement loop, the key intervals and the click loop over the whole record. */
    method CalculateFeatures(aspectRatio: real) returns (features: ClassicFeatures)
      ensures features == FeaturesOf(math, State(), aspectRatio)
    {
      var series := ExtractSeries(math, mouseRecords);
      var keyInterEvents := ComputeIntervals(keyPressRecords);
      var tally := TallyPairs(eventRecords);
      features := ClassicFeatures(
        Variance(series.speeds, Mean(series.speeds)),
        Variance(series.timeDeltas, Mean(series.timeDeltas)),
        Variance(series.angles, Mean(series.angles)),
        FirstInteractionDelay(eventRecords, EntryTime, mouseRecords, pageLoadTime),
        Variance(keyInterEvents, Mean(keyInterEvents)),
        Variance(clickDurations, Mean(clickDurations)),
        PrecedingEventsFlag(tally),
        AspectRatioDeviation(aspectRatio),
        |mouseRecords|,
        TabUsage(tabPressCount, |keyPressRecords|),
        series.fixedCount);
    }

    /** `_calculateSuspicionScore(features)`: the terms accumulated one by one, floored at 0. */
    method CalculateSuspicionScore(features: ClassicFeatures) returns (score: real)
      ensures score == SuspicionScore(features)
      ensures score >= 0.0
    {
      var weights := Weights;
      score := 0.0;
      score := score + weights.speedVariance * (1.0 - Normalize(features.speedVariance, 0.0, 100.0));
      score := score + weights.timeDeltaVariance * (1.0 - Normalize(features.timeDeltaVariance, 0.0, 10.0));
      score := score + weights.pathCurvature * (1.0 - Normalize(features.pathCurvature, 0.0, 1.0));
      var normalizedTTFI := 1.0 - Normalize(features.timeToFirstInteraction, 0.0, 5000.0);
      score := score + weights.timeToFirstInteraction * Max(0.0, normalizedTTFI);
      score := score + weights.keyInterEventVariance * (1.0 - Normalize(features.keyInterEventVariance, 0.0, 100.0));
      score := score + weights.clickDurationVariance * (1.0 - Normalize(features.clickDurationVariance, 0.0, 100.0));
      score := score + weights.hasClickWithoutPrecedingEvents * features.hasClickWithoutPrecedingEvents;
      score := score + weights.screenAspectRatioDeviation * Normalize(features.screenAspectRatioDeviation, 0.0, 1.0);
      var moves := if features.totalMoveEvents == 0 then 1.0 else features.totalMoveEvents as real;
      score := score + weights.fixedPositionCount * Normalize(features.fixedPositionCount as real, 0.0, moves);
      var normalizedTabUsage := Normalize(features.tabKeyUsage, 0.0, 0.5);
      score := score + weights.tabKeyUsage * normalizedTabUsage;
      score := Max(0.0, score);
    }
  }

  /**
   * Starting twice is the same as starting once, and stopping a started
   * detector leaves it stopped with a verdict; stopping again then fails.
   */
  method StartStopLifecycle(m: MathOps, aspectRatio: real) returns (first: Result<ClassicResult, string>, second: Result<ClassicResult, string>)
    ensures first.Success? && first.value.score >= 0.0
    ensures second == Failure(NotStartedMessage)
  {
    var d := new BotDetector(0.0, m);
    d.StartTracking();
    d.StartTracking();
    first := d.StopTracking(aspectRatio);
    second := d.StopTracking(aspectRatio);
  }
}
