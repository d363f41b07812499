/**
 * The `RealTimeBotDetector` class: capped capture buffers filled by five
 * event handlers, the Idle/Tracking state machine with its periodic analysis
 * tick, the monotone peak score and the final verdict of `stopTracking`.
 *
 * Listener registration, the interval timer, the update callback and the
 * clocks are host plumbing: the handlers are methods the host calls with the
 * event's data and timestamp, the tick is a method the host calls once per
 * interval and returns what it would pass to the callback.
 */
module RealTime {
  import opened Wrappers
  import opened Stats
  import opened Motion
  import opened Capped
  import opened StaticSignals
  import opened RealTimeFeatures
  import opened RealTimeScoring

  /** Capacities of the bounded buffers. */
  const MaxRealTimeEvents: nat := 500
  const MaxHistorySize: nat := 10000
  const MaxEventRecords: nat := 5000
  const MaxKeyRecords: nat := 2000

  /** The record `_recordFirstInteraction` appends: not a pairing candidate, no trust or movement data. */
  function FirstInteraction(kind: EventKind, target: Option<nat>, timestamp: real): EventRecord
  {
    EventRecord(kind, TargetOf(target), timestamp, false, None, None)
  }

  /** `eventRecords.filter(r => r.type === 'click').length` */
  function CountClicks(e: seq<EventRecord>): (r: nat)
    ensures r <= |e|
  {
    if e == [] then 0 else CountClicks(e[..|e| - 1]) + (if e[|e| - 1].kind == Click then 1 else 0)
  }

  /** The click count of the critical override is the click count of the feature tally. */
  lemma {:induction false} CountClicksIsTallied(m: MathOps, e: seq<EventRecord>, h: seq<MouseRecord>, layout: Layout, k: nat)
    requires k <= |e|
    ensures CountClicks(e[..k]) == TallyUpTo(m, e, h, layout, k).clicks
  {
    if k > 0 {
      CountClicksIsTallied(m, e, h, layout, k - 1);
      assert e[..k][..k - 1] == e[..k - 1];
    }
  }

  class RealTimeBotDetector {
    /** The host's `Math.sqrt` and `Math.atan2`. */
    const math: MathOps
    /** `performance.now()` when the detector was created. */
    const pageLoadTime: real

    var mouseRecordsBuffer: seq<MouseRecord>   // sliding window
    var fullMouseHistory: seq<MouseRecord>     // history for the final verdict
    var eventRecords: seq<EventRecord>
    var keyPressRecords: seq<real>
    var clickDurations: seq<real>              // never trimmed
    var mousedownTimestamp: Option<real>
    var tracking: bool
    var tabPressCount: nat                     // never trimmed
    var initialMousePosition: Option<Point>
    var highestSuspicionScore: real
    var isStaticBot: bool

    /** Buffers within their caps, and the window the newest part of the history. */
    ghost predicate BuffersValid()
      reads this`mouseRecordsBuffer, this`fullMouseHistory, this`eventRecords, this`keyPressRecords
    {
      && |mouseRecordsBuffer| <= MaxRealTimeEvents
      && |fullMouseHistory| <= MaxHistorySize
      && |eventRecords| <= MaxEventRecords
      && |keyPressRecords| <= MaxKeyRecords
      && SuffixOf(mouseRecordsBuffer, fullMouseHistory)
    }

    /** The buffer invariant, the peak a score in [0, 1], and 1 for a static bot. */
    ghost predicate Valid()
      reads this`mouseRecordsBuffer, this`fullMouseHistory, this`eventRecords, this`keyPressRecords
      reads this`highestSuspicionScore, this`isStaticBot
    {
      && BuffersValid()
      && 0.0 <= highestSuspicionScore <= 1.0
      && (isStaticBot ==> highestSuspicionScore == 1.0)
    }

    /** The state `_calculateFeatures` reads. */
    function State(): Snapshot
      reads this`eventRecords, this`fullMouseHistory, this`keyPressRecords, this`clickDurations
      reads this`tabPressCount, this`initialMousePosition
    {
      RealTimeFeatures.Snapshot(eventRecords, fullMouseHistory, keyPressRecords, clickDurations, tabPressCount, initialMousePosition, pageLoadTime)
    }

    constructor (pageLoadTime: real, math: MathOps)
      ensures Valid()
      ensures this.pageLoadTime == pageLoadTime && this.math == math
      ensures mouseRecordsBuffer == [] && fullMouseHistory == [] && eventRecords == []
      ensures keyPressRecords == [] && clickDurations == []
      ensures mousedownTimestamp == None && initialMousePosition == None
      ensures !tracking && tabPressCount == 0 && highestSuspicionScore == 0.0 && !isStaticBot
    {
      this.math := math;
      this.pageLoadTime := pageLoadTime;
      mouseRecordsBuffer, fullMouseHistory, eventRecords := [], [], [];
      keyPressRecords, clickDurations := [], [];
      mousedownTimestamp, initialMousePosition := None, None;
      tracking, tabPressCount, highestSuspicionScore, isStaticBot := false, 0, 0.0, false;
    }

    /**
     * `startTracking`: a no-op while tracking; otherwise re-arms the one-shot
     * initial-position capture, runs the static checks (a static bot's peak
     * becomes 1) and enters Tracking. The buffers are not reset.
     */
    method StartTracking(env: Environment)
      requires Valid()
      modifies this`tracking, this`initialMousePosition, this`isStaticBot, this`highestSuspicionScore
      ensures Valid()
      ensures old(tracking) ==> unchanged(this)
      ensures !old(tracking) ==>
        && tracking
        && initialMousePosition == None
        && isStaticBot == CheckStaticSignals(env)
        && highestSuspicionScore == (if isStaticBot then 1.0 else old(highestSuspicionScore))
    {
      if tracking {
        return;
      }
      initialMousePosition := None;
      isStaticBot := CheckStaticSignals(env);
      if isStaticBot {
        highestSuspicionScore := 1.0;
      }
      tracking := true;
    }

    /** `_recordFirstInteraction`: appends a first-interaction record to the capped event log. */
    method RecordFirstInteraction(kind: EventKind, target: Option<nat>, timestamp: real)
      requires Valid()
      modifies this`eventRecords
      ensures Valid()
      ensures eventRecords == PushCapped(old(eventRecords), FirstInteraction(kind, target, timestamp), MaxEventRecords)
      ensures old(eventRecords) == [] ==> eventRecords == [FirstInteraction(kind, target, timestamp)]
    {
      PushCappedEvictsOldest(eventRecords, FirstInteraction(kind, target, timestamp), MaxEventRecords);
      eventRecords := eventRecords + [FirstInteraction(kind, target, timestamp)];
      if |eventRecords| > MaxEventRecords {
        eventRecords := eventRecords[1..];
      }
    }

    /** The two capped pushes of `_handleMouseMove`: the same record joins the window and the history. */
    method RecordMouse(record: MouseRecord)
      requires Valid()
      modifies this`mouseRecordsBuffer, this`fullMouseHistory
      ensures Valid()
      ensures mouseRecordsBuffer == PushCapped(old(mouseRecordsBuffer), record, MaxRealTimeEvents)
      ensures fullMouseHistory == PushCapped(old(fullMouseHistory), record, MaxHistorySize)
    {
      PushCappedEvictsOldest(mouseRecordsBuffer, record, MaxRealTimeEvents);
      PushCappedEvictsOldest(fullMouseHistory, record, MaxHistorySize);
      PushCappedKeepsSuffix(mouseRecordsBuffer, fullMouseHistory, record, MaxRealTimeEvents, MaxHistorySize);
      mouseRecordsBuffer := mouseRecordsBuffer + [record];
      if |mouseRecordsBuffer| > MaxRealTimeEvents {
        mouseRecordsBuffer := mouseRecordsBuffer[1..];
      }
      fullMouseHistory := fullMouseHistory + [record];
      if |fullMouseHistory| > MaxHistorySize {
        fullMouseHistory := fullMouseHistory[1..];
      }
    }

    /**
     * `_handleMouseMove`: captures the initial position once, appends the same
     * record to window and history (each capped), and records a first
     * interaction when the event log is empty.
     */
    method HandleMouseMove(x: real, y: real, timestamp: real, target: Option<nat>)
      requires Valid()
      modifies this`initialMousePosition, this`mouseRecordsBuffer, this`fullMouseHistory, this`eventRecords
      ensures Valid()
      ensures initialMousePosition == if old(initialMousePosition).None? then Some(Point(x, y)) else old(initialMousePosition)
      ensures mouseRecordsBuffer == PushCapped(old(mouseRecordsBuffer), MouseRecord(x, y, timestamp), MaxRealTimeEvents)
      ensures fullMouseHistory == PushCapped(old(fullMouseHistory), MouseRecord(x, y, timestamp), MaxHistorySize)
      ensures eventRecords == if old(eventRecords) == [] then [FirstInteraction(MouseMove, target, timestamp)] else old(eventRecords)
    {
      var record := MouseRecord(x, y, timestamp);
      if initialMousePosition.None? {
        initialMousePosition := Some(Point(x, y));
      }
      RecordMouse(record);
      if |eventRecords| == 0 {
        RecordFirstInteraction(MouseMove, target, timestamp);
      }
    }

    /**
     * `_handleKeyDown`: appends the timestamp to the capped key log, counts a
     * Tab (by `key` or `code`) without any cap, and records a first interaction
     * when the event log is empty.
     */
    method HandleKeyDown(timestamp: real, key: string, code: string, target: Option<nat>)
      requires Valid()
      modifies this`keyPressRecords, this`tabPressCount, this`eventRecords
      ensures Valid()
      ensures keyPressRecords == PushCapped(old(keyPressRecords), timestamp, MaxKeyRecords)
      ensures tabPressCount == old(tabPressCount) + (if key == "Tab" || code == "Tab" then 1 else 0)
      ensures eventRecords == if old(eventRecords) == [] then [FirstInteraction(KeyDown, target, timestamp)] else old(eventRecords)
    {
      PushCappedEvictsOldest(keyPressRecords, timestamp, MaxKeyRecords);
      keyPressRecords := keyPressRecords + [timestamp];
      if |keyPressRecords| > MaxKeyRecords {
        keyPressRecords := keyPressRecords[1..];
      }
      if key == "Tab" || code == "Tab" {
        tabPressCount := tabPressCount + 1;
      }
      if |eventRecords| == 0 {
        RecordFirstInteraction(KeyDown, target, timestamp);
      }
    }

    /** `_handleMouseDown`: opens the mousedown marker and logs a pairing candidate. */
    method HandleMouseDown(timestamp: real, target: Option<nat>, isTrusted: bool, hasMovementData: bool)
      requires Valid()
      modifies this`mousedownTimestamp, this`eventRecords
      ensures Valid()
      ensures mousedownTimestamp == Some(timestamp)
      ensures eventRecords == PushCapped(old(eventRecords),
        EventRecord(MouseDown, TargetOf(target), timestamp, true, Some(isTrusted), Some(hasMovementData)), MaxEventRecords)
    {
      mousedownTimestamp := Some(timestamp);
      var record := EventRecord(MouseDown, TargetOf(target), timestamp, true, Some(isTrusted), Some(hasMovementData));
      PushCappedEvictsOldest(eventRecords, record, MaxEventRecords);
      eventRecords := eventRecords + [record];
      if |eventRecords| > MaxEventRecords {
        eventRecords := eventRecords[1..];
      }
    }

    /**
     * `_handleMouseUp`: logs a pairing candidate; if a mousedown marker is open,
     * appends one duration (up - down) and closes the marker.
     */
    method HandleMouseUp(timestamp: real, target: Option<nat>, isTrusted: bool, hasMovementData: bool)
      requires Valid()
      modifies this`mousedownTimestamp, this`eventRecords, this`clickDurations
      ensures Valid()
      ensures eventRecords == PushCapped(old(eventRecords),
        EventRecord(MouseUp, TargetOf(target), timestamp, true, Some(isTrusted), Some(hasMovementData)), MaxEventRecords)
      ensures old(mousedownTimestamp).Some? ==> clickDurations == old(clickDurations) + [timestamp - old(mousedownTimestamp).value]
      ensures old(mousedownTimestamp).None? ==> clickDurations == old(clickDurations)
      ensures mousedownTimestamp == None
    {
      var record := EventRecord(MouseUp, TargetOf(target), timestamp, true, Some(isTrusted), Some(hasMovementData));
      PushCappedEvictsOldest(eventRecords, record, MaxEventRecords);
      eventRecords := eventRecords + [record];
      if |eventRecords| > MaxEventRecords {
        eventRecords := eventRecords[1..];
      }
      if mousedownTimestamp.Some? {
        clickDurations := clickDurations + [timestamp - mousedownTimestamp.value];
        mousedownTimestamp := None;
      }
    }

    /** `_handleClick`: logs the click with its trust flag and whether it carried movement fields. */
    method HandleClick(timestamp: real, target: Option<nat>, isTrusted: bool, hasMovementData: bool)
      requires Valid()
      modifies this`eventRecords
      ensures Valid()
      ensures eventRecords == PushCapped(old(eventRecords),
        EventRecord(Click, TargetOf(target), timestamp, false, Some(isTrusted), Some(hasMovementData)), MaxEventRecords)
    {
      var record := EventRecord(Click, TargetOf(target), timestamp, false, Some(isTrusted), Some(hasMovementData));
      PushCappedEvictsOldest(eventRecords, record, MaxEventRecords);
      eventRecords := eventRecords + [record];
      if |eventRecords| > MaxEventRecords {
        eventRecords := eventRecords[1..];
      }
    }

    /** `_calculateFeatures(mouseData)`: movement features of `mouseData`, the rest from the detector's logs. */
    method CalculateFeatures(mouseData: seq<MouseRecord>, layout: Layout) returns (features: FeatureSet)
      ensures features == Features(math, State(), mouseData, layout)
    {
      var series := ExtractSeries(math, mouseData);
      var keyInterEvents := ComputeIntervals(keyPressRecords);
      var tally := TallyClicks(math, eventRecords, fullMouseHistory, layout);
      var timeToFirstInteraction := FirstInteractionDelay(eventRecords, EventTime, mouseData, pageLoadTime);
      var atOrigin := if initialMousePosition == Some(Point(0.0, 0.0)) then 1.0 else 0.0;
      features := FeatureSet(
        Variance(series.speeds, Mean(series.speeds)),
        Variance(series.timeDeltas, Mean(series.timeDeltas)),
        Variance(series.angles, Mean(series.angles)),
        Variance(keyInterEvents, Mean(keyInterEvents)),
        Variance(clickDurations, Mean(clickDurations)),
        timeToFirstInteraction,
        PrecedingEventsFlag(tally),
        MovementFlag(tally, |fullMouseHistory|),
        |mouseData|,
        TabUsage(tabPressCount, |keyPressRecords|),
        series.fixedCount,
        atOrigin);
    }

    /**
     * `_calculateScore(features, REALTIME_WEIGHTS)`: the gated terms accumulated
     * one by one, then clamped. The real-time profile is the only weight set
     * the detector ever scores with.
     */
    method CalculateScore(features: FeatureSet) returns (score: real)
      ensures score == ScoreOf(features, RealTimeWeights, |keyPressRecords|, |clickDurations|)
    {
      var weights := RealTimeWeights;
      ghost var keyCount, durationCount := |keyPressRecords|, |clickDurations|;
      score := 0.0;
      if features.totalMoveEvents >= MinMouseEvents {
        score := score + weights.speedVariance * Inverted(features.speedVariance, 5.0);
        score := score + weights.timeDeltaVariance * Inverted(features.timeDeltaVariance, 50.0);
        score := score + weights.pathCurvature * Inverted(features.pathCurvature, 0.3);
        score := score + weights.fixedPositionCount
          * Normalize(features.fixedPositionCount as real, 0.0, features.totalMoveEvents as real);
        assert score == MovementTerms(features, weights);
      }
      assert score == GatedMovement(features, weights);
      ghost var gated := score;
      if |keyPressRecords| >= MinKeyEvents {
        score := score + weights.keyInterEventVariance * Inverted(features.keyInterEventVariance, 10000.0);
      }
      assert score == gated + KeyTerm(features, weights, keyCount);
      ghost var keyed := score;
      if |clickDurations| >= MinClickEvents {
        score := score + weights.clickDurationVariance * Inverted(features.clickDurationVariance, 10000.0);
      }
      assert score == keyed + ClickTerm(features, weights, durationCount);
      ghost var direct := score;
      score := score + weights.hasClickWithoutPrecedingEvents * features.hasClickWithoutPrecedingEvents;
      score := score + weights.hasClickWithoutMouseMovement * features.hasClickWithoutMouseMovement;
      score := score + weights.initialMousePositionAtOrigin * features.initialMousePositionAtOrigin;
      assert score == direct + DirectTerms(features, weights);
      var normalizedTTFI := 1.0 - Normalize(features.timeToFirstInteraction, 0.0, 5000.0);
      score := score + weights.timeToFirstInteraction * Max(0.0, normalizedTTFI);
      var normalizedTabUsage := Normalize(features.tabKeyUsage, 0.0, 0.5);
      score := score + weights.tabKeyUsage * normalizedTabUsage;
      assert score == RawScore(features, weights, keyCount, durationCount);
      score := Max(0.0, Min(1.0, score));
    }

    /** `_generateResult(mouseData)`: features of `mouseData` scored with the real-time profile. */
    method GenerateResult(mouseData: seq<MouseRecord>, layout: Layout, now: real) returns (result: SuspicionResult)
      ensures result == RealTimeResult(Features(math, State(), mouseData, layout), |keyPressRecords|, |clickDurations|, now)
    {
      var features := CalculateFeatures(mouseData, layout);
      var score := CalculateScore(features);
      result := SuspicionResult(now, score, score > BotThreshold, Computed(features));
    }

    /**
     * `_runAnalysis`, the periodic tick: nothing when idle; the maximal result
     * for a static bot; nothing while window and event log are empty; otherwise
     * the live result of the window, which raises the peak if it is higher.
     */
    method RunAnalysis(layout: Layout, now: real) returns (emitted: Option<SuspicionResult>)
      requires Valid()
      modifies this`highestSuspicionScore
      ensures Valid()
      ensures highestSuspicionScore >= old(highestSuspicionScore)
      ensures !tracking ==> emitted == None && highestSuspicionScore == old(highestSuspicionScore)
      ensures tracking && isStaticBot ==>
        emitted == Some(StaticResult(now)) && highestSuspicionScore == old(highestSuspicionScore) == 1.0
      ensures tracking && !isStaticBot && mouseRecordsBuffer == [] && eventRecords == [] ==>
        emitted == None && highestSuspicionScore == old(highestSuspicionScore)
      ensures tracking && !isStaticBot && (mouseRecordsBuffer != [] || eventRecords != []) ==>
        && emitted == Some(RealTimeResult(Features(math, State(), mouseRecordsBuffer, layout),
                                          |keyPressRecords|, |clickDurations|, now))
        && highestSuspicionScore == Max(old(highestSuspicionScore), emitted.value.score)
    {
      if !tracking {
        return None;
      }
      if isStaticBot {
        return Some(SuspicionResult(now, 1.0, true, StaticStub));
      }
      if |mouseRecordsBuffer| == 0 && |eventRecords| == 0 {
        return None;
      }
      var currentResult := LiveTick(layout, now);
      emitted := Some(currentResult);
    }

    /** The tick on a tracked, non-static session with data: the live window result, which raises the peak if it is higher. */
    method LiveTick(layout: Layout, now: real) returns (result: SuspicionResult)
      requires Valid()
      modifies this`highestSuspicionScore
      ensures Valid()
      ensures result == RealTimeResult(Features(math, State(), mouseRecordsBuffer, layout), |keyPressRecords|, |clickDurations|, now)
      ensures highestSuspicionScore == Max(old(highestSuspicionScore), result.score)
    {
      result := GenerateResult(mouseRecordsBuffer, layout, now);
      UpdatePeak(result.score);
    }

    /** `Math.max(this.highestSuspicionScore, score)`: the peak becomes the larger of itself and a score in [0, 1]. */
    method UpdatePeak(score: real)
      requires Valid() && 0.0 <= score <= 1.0
      modifies this`highestSuspicionScore
      ensures Valid()
      ensures highestSuspicionScore == Max(old(highestSuspicionScore), score)
    {
      if score > highestSuspicionScore {
        highestSuspicionScore := score;
      }
    }

    /**
     * `stopTracking`. When idle: the live result of the window, and no state
     * changes. Otherwise: back to Idle, and the final verdict on the features
     * of the full history, starting from the peak.
     */
    method StopTracking(layout: Layout, now: real) returns (result: SuspicionResult)
      requires Valid()
      modifies this`tracking, this`highestSuspicionScore
      ensures Valid()
      ensures !old(tracking) ==>
        && unchanged(this)
        && result == RealTimeResult(Features(math, State(), mouseRecordsBuffer, layout),
                                    |keyPressRecords|, |clickDurations|, now)
      ensures old(tracking) ==>
        && !tracking
        && highestSuspicionScore == old(SessionVerdict(layout)).peak
        && result == FinalResult(old(SessionVerdict(layout)), now)
    {
      if !tracking {
        result := GenerateResult(mouseRecordsBuffer, layout, now);
      } else {
        result := EndSession(layout, now);
      }
    }

    /** The tracking branch of `stopTracking`: leave Tracking, then judge the whole session. */
    method EndSession(layout: Layout, now: real) returns (result: SuspicionResult)
      requires Valid()
      modifies this`tracking, this`highestSuspicionScore
      ensures Valid()
      ensures !tracking
      ensures highestSuspicionScore == old(SessionVerdict(layout)).peak
      ensures result == FinalResult(old(SessionVerdict(layout)), now)
    {
      var verdict := JudgeSession(layout);
      tracking := false;
      UpdatePeak(verdict.peak);
      result := FinalResult(verdict, now);
    }

    /** The verdict on the full history, which never lowers the peak. */
    method JudgeSession(layout: Layout) returns (verdict: Verdict)
      requires Valid()
      ensures verdict == SessionVerdict(layout)
      ensures highestSuspicionScore <= verdict.peak <= 1.0
    {
      var sessionFeatures := CalculateFeatures(fullMouseHistory, layout);
      var clickEvents := CountClicks(eventRecords);
      verdict := FinalVerdict(highestSuspicionScore, sessionFeatures, clickEvents, |fullMouseHistory|);
      FinalVerdictBounds(highestSuspicionScore, sessionFeatures, clickEvents, |fullMouseHistory|);
    }

    /**
     * The verdict `stopTracking` reaches when tracking: the features of the
     * full history, the captured click count and the history length, from the peak.
     */
    function SessionVerdict(layout: Layout): Verdict
      reads this
    {
      FinalVerdict(highestSuspicionScore, Features(math, State(), fullMouseHistory, layout),
                   CountClicks(eventRecords), |fullMouseHistory|)
    }
  }

  /**
   * The key log is capped but the Tab counter is not: 2001 Tab presses leave
   * 2000 key records and a raw `tabKeyUsage` above 1.
   */
  method TabUsageUnbounded(m: MathOps, layout: Layout) returns (usage: real)
    ensures usage > 1.0
  {
    var d := new RealTimeBotDetector(0.0, m);
    var i := 0;
    while i < MaxKeyRecords + 1
      invariant 0 <= i <= MaxKeyRecords + 1
      invariant d.Valid()
      invariant |d.keyPressRecords| == if i <= MaxKeyRecords then i else MaxKeyRecords
      invariant d.tabPressCount == i
    {
      PushCappedEvictsOldest(d.keyPressRecords, i as real, MaxKeyRecords);
      d.HandleKeyDown(i as real, "Tab", "Tab", None);
      i := i + 1;
    }
    var features := d.CalculateFeatures([], layout);
    usage := features.tabKeyUsage;
  }
}
