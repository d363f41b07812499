/**
 * Scoring of the real-time detector: the gated weighted sum
 * (`_calculateScore`), the final verdict of `stopTracking` (peak score,
 * critical override, redemption bonuses, critical-fail floor) and the
 * result records handed to callers.
 */
module RealTimeScoring {
  import opened Stats
  import opened RealTimeFeatures

  /** One weight per feature, as the source's `Record<keyof FeatureSet, number>`. */
  datatype Weights = Weights(
    speedVariance: real,
    timeDeltaVariance: real,
    pathCurvature: real,
    hasClickWithoutPrecedingEvents: real,
    hasClickWithoutMouseMovement: real,
    initialMousePositionAtOrigin: real,
    timeToFirstInteraction: real,
    keyInterEventVariance: real,
    clickDurationVariance: real,
    fixedPositionCount: real,
    tabKeyUsage: real,
    totalMoveEvents: real)

  /** The aggressive profile used for live scores and the peak. */
  const RealTimeWeights: Weights := Weights(0.3, 0.3, 0.25, 0.8, 0.85, 0.9, 0.05, 0.04, 0.03, 0.01, 0.0, 0.0)

  /** Redemption bonuses of the final verdict. */
  const TabRedemptionWeight: real := -0.3
  const CurvatureRedemptionWeight: real := -0.15

  const BotThreshold: real := 0.5

  /** Minimum evidence before a variance term is scored. */
  const MinMouseEvents: nat := 20
  const MinKeyEvents: nat := 5
  const MinClickEvents: nat := 3

  /** The critical override and the critical-fail floor of the final verdict. */
  const CriticalHistory: nat := 10
  const CriticalPeak: real := 0.9
  const CriticalFloor: real := 0.8

  /** `1 - _normalizeVariance(v, 0, max)`: low variance is the suspicious direction. */
  function Inverted(v: real, max: real): (r: real)
    ensures 0.0 <= r <= 1.0
  {
    1.0 - Normalize(v, 0.0, max)
  }

  function MovementTerms(f: FeatureSet, w: Weights): real
  {
    w.speedVariance * Inverted(f.speedVariance, 5.0)
    + w.timeDeltaVariance * Inverted(f.timeDeltaVariance, 50.0)
    + w.pathCurvature * Inverted(f.pathCurvature, 0.3)
    + w.fixedPositionCount * Normalize(f.fixedPositionCount as real, 0.0, f.totalMoveEvents as real)
  }

  function DirectTerms(f: FeatureSet, w: Weights): real
  {
    w.hasClickWithoutPrecedingEvents * f.hasClickWithoutPrecedingEvents
    + w.hasClickWithoutMouseMovement * f.hasClickWithoutMouseMovement
    + w.initialMousePositionAtOrigin * f.initialMousePositionAtOrigin
  }

  /** `Math.max(0, 1 - _normalizeValue(ttfi, 0, 5000))`: a fast first interaction is suspicious. */
  function TtfiTerm(f: FeatureSet, w: Weights): real
  {
    w.timeToFirstInteraction * Max(0.0, 1.0 - Normalize(f.timeToFirstInteraction, 0.0, 5000.0))
  }

  function TabTerm(f: FeatureSet, w: Weights): real
  {
    w.tabKeyUsage * Normalize(f.tabKeyUsage, 0.0, 0.5)
  }

  /** The movement terms, scored only from 20 moves on. */
  function GatedMovement(f: FeatureSet, w: Weights): real
  {
    if f.totalMoveEvents >= MinMouseEvents then MovementTerms(f, w) else 0.0
  }

  /** The key-timing term, scored only from 5 key presses on. */
  function KeyTerm(f: FeatureSet, w: Weights, keyCount: nat): real
  {
    if keyCount >= MinKeyEvents then w.keyInterEventVariance * Inverted(f.keyInterEventVariance, 10000.0) else 0.0
  }

  /** The click-duration term, scored only from 3 durations on. */
  function ClickTerm(f: FeatureSet, w: Weights, durationCount: nat): real
  {
    if durationCount >= MinClickEvents then w.clickDurationVariance * Inverted(f.clickDurationVariance, 10000.0) else 0.0
  }

  /** The sum accumulated by `_calculateScore` before clamping; `keyCount` and `durationCount` gate two terms. */
  function RawScore(f: FeatureSet, w: Weights, keyCount: nat, durationCount: nat): real
  {
    GatedMovement(f, w) + KeyTerm(f, w, keyCount) + ClickTerm(f, w, durationCount)
    + DirectTerms(f, w) + TtfiTerm(f, w) + TabTerm(f, w)
  }

  /** `_calculateScore(features, weights)`: the clamped weighted sum. */
  function ScoreOf(f: FeatureSet, w: Weights, keyCount: nat, durationCount: nat): (r: real)
    ensures 0.0 <= r <= 1.0
  {
    Clamp01(RawScore(f, w, keyCount, durationCount))
  }

  /** The flag, first-interaction and Tab terms read only their own features. */
  lemma UngatedTermsAgree(f: FeatureSet, g: FeatureSet, w: Weights)
    requires f.hasClickWithoutPrecedingEvents == g.hasClickWithoutPrecedingEvents
    requires f.hasClickWithoutMouseMovement == g.hasClickWithoutMouseMovement
    requires f.initialMousePositionAtOrigin == g.initialMousePositionAtOrigin
    requires f.timeToFirstInteraction == g.timeToFirstInteraction && f.tabKeyUsage == g.tabKeyUsage
    ensures DirectTerms(f, w) == DirectTerms(g, w) && TtfiTerm(f, w) == TtfiTerm(g, w) && TabTerm(f, w) == TabTerm(g, w)
  {
  }

  /** Below 20 moves the movement features have no influence on the score. */
  lemma MovementTermsGated(f: FeatureSet, w: Weights, keyCount: nat, durationCount: nat, a: real, b: real, c: real, n: nat)
    requires f.totalMoveEvents < MinMouseEvents
    ensures ScoreOf(f.(speedVariance := a, timeDeltaVariance := b, pathCurvature := c, fixedPositionCount := n), w, keyCount, durationCount)
      == ScoreOf(f, w, keyCount, durationCount)
  {
    var g := f.(speedVariance := a, timeDeltaVariance := b, pathCurvature := c, fixedPositionCount := n);
    UngatedTermsAgree(g, f, w);
    assert GatedMovement(g, w) == 0.0 == GatedMovement(f, w);
    assert KeyTerm(g, w, keyCount) == KeyTerm(f, w, keyCount);
    assert ClickTerm(g, w, durationCount) == ClickTerm(f, w, durationCount);
    assert RawScore(g, w, keyCount, durationCount) == RawScore(f, w, keyCount, durationCount);
  }

  /** Below 5 key presses the key-timing feature has no influence on the score. */
  lemma KeyTermGated(f: FeatureSet, w: Weights, keyCount: nat, durationCount: nat, a: real)
    requires keyCount < MinKeyEvents
    ensures ScoreOf(f.(keyInterEventVariance := a), w, keyCount, durationCount) == ScoreOf(f, w, keyCount, durationCount)
  {
    var g := f.(keyInterEventVariance := a);
    UngatedTermsAgree(g, f, w);
    assert GatedMovement(g, w) == GatedMovement(f, w);
    assert KeyTerm(g, w, keyCount) == 0.0 == KeyTerm(f, w, keyCount);
    assert ClickTerm(g, w, durationCount) == ClickTerm(f, w, durationCount);
    assert RawScore(g, w, keyCount, durationCount) == RawScore(f, w, keyCount, durationCount);
  }

  /** Below 3 click durations the click-duration feature has no influence on the score. */
  lemma ClickDurationTermGated(f: FeatureSet, w: Weights, keyCount: nat, durationCount: nat, a: real)
    requires durationCount < MinClickEvents
    ensures ScoreOf(f.(clickDurationVariance := a), w, keyCount, durationCount) == ScoreOf(f, w, keyCount, durationCount)
  {
    var g := f.(clickDurationVariance := a);
    UngatedTermsAgree(g, f, w);
    assert GatedMovement(g, w) == GatedMovement(f, w);
    assert KeyTerm(g, w, keyCount) == KeyTerm(f, w, keyCount);
    assert ClickTerm(g, w, durationCount) == 0.0 == ClickTerm(f, w, durationCount);
    assert RawScore(g, w, keyCount, durationCount) == RawScore(f, w, keyCount, durationCount);
  }

  /** Under the real-time profile no term is negative. */
  lemma RealTimeTermsNonNegative(f: FeatureSet, keyCount: nat, durationCount: nat)
    requires WellFormed(f)
    ensures RawScore(f, RealTimeWeights, keyCount, durationCount) >= DirectTerms(f, RealTimeWeights) >= 0.0
  {
    var w := RealTimeWeights;
    assert MovementTerms(f, w) >= 0.0;
    assert TtfiTerm(f, w) >= 0.0;
    assert TabTerm(f, w) == 0.0;
  }

  /**
   * A raised flag alone makes a live score a bot verdict: at least 0.8 for an
   * unpaired click, 0.85 for a click without movement, 0.9 for a pointer that
   * started at the origin.
   */
  lemma RealTimeFlagFloors(f: FeatureSet, keyCount: nat, durationCount: nat)
    requires WellFormed(f)
    ensures f.hasClickWithoutPrecedingEvents == 1.0 ==> ScoreOf(f, RealTimeWeights, keyCount, durationCount) >= 0.8
    ensures f.hasClickWithoutMouseMovement == 1.0 ==> ScoreOf(f, RealTimeWeights, keyCount, durationCount) >= 0.85
    ensures f.initialMousePositionAtOrigin == 1.0 ==> ScoreOf(f, RealTimeWeights, keyCount, durationCount) >= 0.9
  {
    RealTimeTermsNonNegative(f, keyCount, durationCount);
  }

  /**
   * Human-looking evidence scores 0 live: no flags, every scored variance at or
   * above the top of its range, no fixed segments and a first interaction at
   * least 5 s after page load.
   */
  lemma HumanLikeScoresZero(f: FeatureSet, keyCount: nat, durationCount: nat)
    requires WellFormed(f)
    requires f.hasClickWithoutPrecedingEvents == 0.0 && f.hasClickWithoutMouseMovement == 0.0
    requires f.initialMousePositionAtOrigin == 0.0
    requires f.speedVariance >= 5.0 && f.timeDeltaVariance >= 50.0 && f.pathCurvature >= 0.3 && f.fixedPositionCount == 0
    requires keyCount >= MinKeyEvents ==> f.keyInterEventVariance >= 10000.0
    requires durationCount >= MinClickEvents ==> f.clickDurationVariance >= 10000.0
    requires f.timeToFirstInteraction >= 5000.0
    ensures ScoreOf(f, RealTimeWeights, keyCount, durationCount) == 0.0
  {
    var w := RealTimeWeights;
    assert TtfiTerm(f, w) == 0.0;
    if f.totalMoveEvents >= MinMouseEvents {
      assert Normalize(f.fixedPositionCount as real, 0.0, f.totalMoveEvents as real) == 0.0;
      assert MovementTerms(f, w) == 0.0;
    }
    assert RawScore(f, w, keyCount, durationCount) == 0.0;
  }

  // ---------------------------------------------------------------------
  // Results

  /** A computed feature set, or the partial object a static-bot tick emits (speedVariance 0, hasClickWithoutPrecedingEvents 1). */
  datatype Report = Computed(features: FeatureSet) | StaticStub

  datatype SuspicionResult = SuspicionResult(timestamp: real, score: real, isBot: bool, report: Report)

  /** `_generateResult`: live score of a feature set and the verdict at the shared threshold. */
  function RealTimeResult(f: FeatureSet, keyCount: nat, durationCount: nat, now: real): (r: SuspicionResult)
    ensures 0.0 <= r.score <= 1.0
    ensures r.isBot <==> r.score > BotThreshold
    ensures r.report == Computed(f)
  {
    var score := ScoreOf(f, RealTimeWeights, keyCount, durationCount);
    SuspicionResult(now, score, score > BotThreshold, Computed(f))
  }

  /** What a tick emits for a static bot, without computing anything. */
  function StaticResult(now: real): (r: SuspicionResult)
    ensures r.score == 1.0 && r.isBot
  {
    SuspicionResult(now, 1.0, true, StaticStub)
  }

  // ---------------------------------------------------------------------
  // The final verdict

  datatype Verdict = Verdict(peak: real, features: FeatureSet, score: real)

  /** No click was captured and there is almost no movement: the stop button was pressed synthetically. */
  predicate Critical(clickEvents: nat, historyLength: nat)
  {
    clickEvents == 0 && historyLength < CriticalHistory
  }

  predicate CriticalFail(f: FeatureSet)
  {
    f.hasClickWithoutPrecedingEvents == 1.0 || f.hasClickWithoutMouseMovement == 1.0
  }

  /**
   * The final computation of `stopTracking` on the full-history features:
   * the new peak, the possibly overridden features and the final score.
   */
  function FinalVerdict(peak: real, f: FeatureSet, clickEvents: nat, historyLength: nat): (v: Verdict)
    ensures 0.0 <= v.score <= 1.0
    ensures Critical(clickEvents, historyLength) ==>
      v.features.hasClickWithoutPrecedingEvents == 1.0 && v.features.hasClickWithoutMouseMovement == 1.0
      && v.peak >= CriticalPeak
    ensures !Critical(clickEvents, historyLength) ==> v.features == f && v.peak == peak
    ensures CriticalFail(v.features) ==> v.score >= CriticalFloor
  {
    var critical := Critical(clickEvents, historyLength);
    var newPeak := if critical then Max(peak, CriticalPeak) else peak;
    var features := if critical then f.(hasClickWithoutMouseMovement := 1.0, hasClickWithoutPrecedingEvents := 1.0) else f;
    var tabBonus := Normalize(features.tabKeyUsage, 0.0, 0.5) * TabRedemptionWeight;
    var curvatureBonus := Normalize(features.pathCurvature, 0.0, 1.0) * CurvatureRedemptionWeight;
    var redeemed := newPeak + tabBonus + curvatureBonus;
    var floored := if CriticalFail(features) then Max(redeemed, CriticalFloor) else redeemed;
    Verdict(newPeak, features, Clamp01(floored))
  }

  /**
   * With a peak in [0, 1], the new peak stays in [0, 1] and does not drop;
   * without a critical fail both redemption bonuses can only lower the
   * score, so it is at most the peak.
   */
  lemma FinalVerdictBounds(peak: real, f: FeatureSet, clickEvents: nat, historyLength: nat)
    requires 0.0 <= peak <= 1.0
    ensures var v := FinalVerdict(peak, f, clickEvents, historyLength);
      peak <= v.peak <= 1.0 && (!CriticalFail(v.features) ==> v.score <= v.peak)
  {
  }

  /** Redemption cannot rescue a critical fail: the verdict is a bot even with maximal bonuses. */
  lemma CriticalFailIsBot(peak: real, f: FeatureSet, clickEvents: nat, historyLength: nat)
    requires CriticalFail(f) || Critical(clickEvents, historyLength)
    ensures FinalVerdict(peak, f, clickEvents, historyLength).score > BotThreshold
  {
  }

  /** `stopTracking`'s result: the final score and the verdict at the shared threshold. */
  function FinalResult(v: Verdict, now: real): (r: SuspicionResult)
    ensures r.score == v.score && (r.isBot <==> r.score > BotThreshold)
  {
    SuspicionResult(now, v.score, v.score > BotThreshold, Computed(v.features))
  }
}
