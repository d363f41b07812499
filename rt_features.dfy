/**
 * The feature extractor of the real-time detector (`_calculateFeatures`):
 * the event records it reads, the two backward scans that decide whether a
 * click was paired with a mousedown/mouseup and preceded by movement, the
 * tally of clicks, and the feature set as a function of a snapshot of the
 * detector's buffers.
 */
module RealTimeFeatures {
  import opened Wrappers
  import opened Stats
  import opened Motion

  datatype EventKind = MouseMove | MouseDown | MouseUp | Click | KeyDown

  /** `event.target ?? 'document'`: the fallback string, or an event target (identified by a number). */
  datatype Target = DocumentFallback | Element(id: nat)

  function TargetOf(target: Option<nat>): Target
  {
    match target
    case None => DocumentFallback
    case Some(id) => Element(id)
  }

  /** `isTrusted` and `hasMovementData` are absent (`None`) on first-interaction records. */
  datatype EventRecord = EventRecord(
    kind: EventKind,
    target: Target,
    timestamp: real,
    isPrecedingEvent: bool,
    isTrusted: Option<bool>,
    hasMovementData: Option<bool>)

  datatype FeatureSet = FeatureSet(
    speedVariance: real,
    timeDeltaVariance: real,
    pathCurvature: real,
    keyInterEventVariance: real,
    clickDurationVariance: real,
    timeToFirstInteraction: real,
    hasClickWithoutPrecedingEvents: real,
    hasClickWithoutMouseMovement: real,
    totalMoveEvents: nat,
    tabKeyUsage: real,
    fixedPositionCount: nat,
    initialMousePositionAtOrigin: real)

  /** The 0/1 flags of a feature set are 0 or 1 and the variances are non-negative. */
  ghost predicate WellFormed(f: FeatureSet)
  {
    && (f.hasClickWithoutPrecedingEvents == 0.0 || f.hasClickWithoutPrecedingEvents == 1.0)
    && (f.hasClickWithoutMouseMovement == 0.0 || f.hasClickWithoutMouseMovement == 1.0)
    && (f.initialMousePositionAtOrigin == 0.0 || f.initialMousePositionAtOrigin == 1.0)
    && f.speedVariance >= 0.0 && f.timeDeltaVariance >= 0.0 && f.pathCurvature >= 0.0
    && f.keyInterEventVariance >= 0.0 && f.clickDurationVariance >= 0.0
    && f.tabKeyUsage >= 0.0
  }

  /**
   * The page layout when the features are computed: the centre of the bounding
   * box of each target that is an HTMLElement, `None` for any other target.
   */
  type Layout = nat -> Option<Point>

  function ClickCentre(layout: Layout, target: Target): Option<Point>
  {
    match target
    case DocumentFallback => None
    case Element(id) => layout(id)
  }

  /** mousedown/mouseup must lie within this many ms before the click */
  const PairWindowMs: real := 500.0
  /** movement must lie within this many ms before the click */
  const MovementWindowMs: real := 2000.0
  /** a pointer within this many px of the target's centre counts as near */
  const NearClickPx: real := 50.0
  /** this much history excuses a click without recent movement */
  const ReasonableHistory: nat := 20
  /** less history than this, with any click, raises the movement flag */
  const AlmostNoActivity: nat := 5
  /** time to first interaction when nothing has happened yet */
  const NoInteractionTtfi: real := 10000.0

  // ---------------------------------------------------------------------
  // Pairing a click with a preceding mousedown and mouseup

  /**
   * Where the backward scan from index `j` stops: it walks back over records
   * at most `PairWindowMs` before `t` and stops at the first one that is not.
   */
  function ScanStart(e: seq<EventRecord>, j: nat, t: real): (r: nat)
    requires j <= |e|
    ensures r <= j
    ensures forall k :: r <= k < j ==> t - e[k].timestamp <= PairWindowMs
    ensures r > 0 ==> t - e[r - 1].timestamp > PairWindowMs
    decreases j
  {
    if j > 0 && t - e[j - 1].timestamp <= PairWindowMs then ScanStart(e, j - 1, t) else j
  }

  predicate HasMatch(e: seq<EventRecord>, lo: nat, hi: nat, kind: EventKind, target: Target)
    requires lo <= hi <= |e|
  {
    exists k :: lo <= k < hi && e[k].kind == kind && e[k].target == target
  }

  /** Widening the scanned range by one record to the left adds exactly that record's match. */
  lemma HasMatchStep(e: seq<EventRecord>, lo: nat, hi: nat, kind: EventKind, target: Target)
    requires 0 < lo <= hi <= |e|
    ensures HasMatch(e, lo - 1, hi, kind, target) <==>
      HasMatch(e, lo, hi, kind, target) || (e[lo - 1].kind == kind && e[lo - 1].target == target)
  {
    if HasMatch(e, lo - 1, hi, kind, target) && !(e[lo - 1].kind == kind && e[lo - 1].target == target) {
      var k :| lo - 1 <= k < hi && e[k].kind == kind && e[k].target == target;
      assert lo <= k;
    }
  }

  /** The click at `i` is paired: the scanned records hold a mousedown and a mouseup on its target. */
  predicate PairedClick(e: seq<EventRecord>, i: nat)
    requires i < |e|
  {
    var lo := ScanStart(e, i, e[i].timestamp);
    HasMatch(e, lo, i, MouseDown, e[i].target) && HasMatch(e, lo, i, MouseUp, e[i].target)
  }

  /** The inner `for (let j = i - 1; j >= 0 && clickTime - e[j].timestamp <= 500; j--)` loop. */
  method ScanForPair(e: seq<EventRecord>, i: nat) returns (paired: bool)
    requires i < |e|
    ensures paired == PairedClick(e, i)
  {
    var clickTime := e[i].timestamp;
    var target := e[i].target;
    var foundMousedown, foundMouseup := false, false;
    paired := false;
    var j: int := i - 1;
    while j >= 0 && clickTime - e[j].timestamp <= PairWindowMs
      invariant -1 <= j < i
      invariant ScanStart(e, i, clickTime) == ScanStart(e, j + 1, clickTime)
      invariant foundMousedown == HasMatch(e, j + 1, i, MouseDown, target)
      invariant foundMouseup == HasMatch(e, j + 1, i, MouseUp, target)
      invariant !(foundMousedown && foundMouseup) && !paired
      decreases j
    {
      HasMatchStep(e, j + 1, i, MouseDown, target);
      HasMatchStep(e, j + 1, i, MouseUp, target);
      var prevEvent := e[j];
      if prevEvent.kind == MouseDown && prevEvent.target == target {
        foundMousedown := true;
      }
      if prevEvent.kind == MouseUp && prevEvent.target == target {
        foundMouseup := true;
      }
      if foundMousedown && foundMouseup {
        assert ScanStart(e, j + 1, clickTime) == ScanStart(e, j, clickTime) <= j;
        paired := true;
        break;
      }
      j := j - 1;
    }
  }

  /**
   * With timestamps that do not decrease, a mousedown and a mouseup on the
   * click's target, both within the window before the click, pair it.
   */
  lemma PairWithinWindowIsFound(e: seq<EventRecord>, i: nat, d: nat, u: nat)
    requires i < |e| && d < i && u < i
    requires forall a, b :: 0 <= a < b <= i ==> e[a].timestamp <= e[b].timestamp
    requires e[d].kind == MouseDown && e[d].target == e[i].target
    requires e[u].kind == MouseUp && e[u].target == e[i].target
    requires e[i].timestamp - e[d].timestamp <= PairWindowMs
    requires e[i].timestamp - e[u].timestamp <= PairWindowMs
    ensures PairedClick(e, i)
  {
    var t := e[i].timestamp;
    var lo := ScanStart(e, i, t);
    var first := if d < u then d else u;
    assert lo <= first;
  }

  // ---------------------------------------------------------------------
  // Movement before a click

  /** Index of the last of the first `k` history records that is not after `t`. */
  function LatestNotAfter(h: seq<MouseRecord>, k: nat, t: real): (r: Option<nat>)
    requires k <= |h|
    ensures r.Some? ==> r.value < k && h[r.value].timestamp <= t
    ensures r.Some? ==> forall j :: r.value < j < k ==> h[j].timestamp > t
    ensures r.None? ==> forall j :: 0 <= j < k ==> h[j].timestamp > t
    decreases k
  {
    if k == 0 then None
    else if t - h[k - 1].timestamp < 0.0 then LatestNotAfter(h, k - 1, t)
    else Some(k - 1)
  }

  datatype Evidence = Evidence(foundMovement: bool, nearClick: bool)

  /**
   * What the backward scan over the history concludes. It skips records after
   * the click and decides on the FIRST record at or before it: recent if within
   * `MovementWindowMs`, near if within `NearClickPx` of the target's centre.
   */
  function MovementEvidence(m: MathOps, h: seq<MouseRecord>, t: real, centre: Option<Point>): Evidence
  {
    match LatestNotAfter(h, |h|, t)
    case None => Evidence(false, false)
    case Some(j) =>
      Evidence(
        t - h[j].timestamp <= MovementWindowMs,
        centre.Some? && Distance(m, h[j].x, h[j].y, centre.value.x, centre.value.y) <= NearClickPx)
  }

  /** The backward loop over `fullMouseHistory`. */
  method ScanMovement(m: MathOps, h: seq<MouseRecord>, t: real, centre: Option<Point>)
    returns (foundMouseMovement: bool, mouseWasNearClickLocation: bool)
    ensures Evidence(foundMouseMovement, mouseWasNearClickLocation) == MovementEvidence(m, h, t, centre)
  {
    foundMouseMovement, mouseWasNearClickLocation := false, false;
    if |h| > 0 {
      var j: int := |h| - 1;
      while j >= 0
        invariant -1 <= j < |h|
        invariant LatestNotAfter(h, |h|, t) == LatestNotAfter(h, j + 1, t)
        invariant !foundMouseMovement && !mouseWasNearClickLocation
        decreases j
      {
        var mouseRecord := h[j];
        var timeDiff := t - mouseRecord.timestamp;
        if timeDiff < 0.0 {
          j := j - 1;
          continue;
        }
        if centre.Some? {
          var distance := Distance(m, mouseRecord.x, mouseRecord.y, centre.value.x, centre.value.y);
          if distance <= NearClickPx {
            mouseWasNearClickLocation := true;
          }
        }
        if timeDiff <= MovementWindowMs {
          foundMouseMovement := true;
          break;
        }
        // timeDiff > MovementWindowMs: gone too far back
        break;
      }
    }
  }

  /**
   * "Recent movement" holds exactly when the latest history record at or
   * before the click lies within the movement window.
   */
  lemma RecentMovementIff(m: MathOps, h: seq<MouseRecord>, t: real, centre: Option<Point>)
    ensures MovementEvidence(m, h, t, centre).foundMovement <==>
      exists j :: 0 <= j < |h| && h[j].timestamp <= t && t - h[j].timestamp <= MovementWindowMs
        && (forall k :: j < k < |h| ==> h[k].timestamp > t)
  {
    var r := LatestNotAfter(h, |h|, t);
    if r.Some? {
      var j := r.value;
      assert forall j' ::
          0 <= j' < |h| && h[j'].timestamp <= t && (forall k :: j' < k < |h| ==> h[k].timestamp > t) ==> j' == j;
    }
  }

  /**
   * Only the latest record at or before the click is looked at: whatever the
   * records before it are, the evidence is the same.
   */
  lemma EvidenceIgnoresOlderRecords(m: MathOps, h: seq<MouseRecord>, p: seq<MouseRecord>, t: real, centre: Option<Point>, j: nat)
    requires LatestNotAfter(h, |h|, t) == Some(j)
    ensures MovementEvidence(m, p + h[j..], t, centre) == MovementEvidence(m, h, t, centre)
  {
    var h' := p + h[j..];
    var k := |p|;
    assert h'[k] == h[j];
    forall i | k < i < |h'| ensures h'[i].timestamp > t {
      assert h'[i] == h[j + (i - k)];
    }
    assert LatestNotAfter(h', |h'|, t) == Some(k);
  }

  /**
   * A concrete case of the one-record scan: the pointer rested exactly on the
   * target long ago, then moved 1000 px away; a click 4900 ms later is judged
   * neither recent nor near, although an older record was on the target.
   */
  lemma NearOlderRecordDoesNotCount(m: MathOps)
    requires Lawful(m)
    requires Distance(m, 1000.0, 0.0, 0.0, 0.0) > NearClickPx
    ensures Distance(m, 0.0, 0.0, 0.0, 0.0) <= NearClickPx
    ensures MovementEvidence(m, [MouseRecord(0.0, 0.0, 0.0), MouseRecord(1000.0, 0.0, 100.0)], 5000.0, Some(Point(0.0, 0.0)))
            == Evidence(false, false)
  {
    var h := [MouseRecord(0.0, 0.0, 0.0), MouseRecord(1000.0, 0.0, 100.0)];
    assert LatestNotAfter(h, 2, 5000.0) == Some(1);
    assert 0.0 * 0.0 + 0.0 * 0.0 == 0.0;
  }

  /** A trusted click counts as without movement: no recent movement, little history, not near. */
  predicate ClickWithoutMovement(m: MathOps, h: seq<MouseRecord>, t: real, centre: Option<Point>)
  {
    var ev := MovementEvidence(m, h, t, centre);
    !ev.foundMovement && !(|h| >= ReasonableHistory) && !ev.nearClick
  }

  // ---------------------------------------------------------------------
  // The click loop

  datatype Tally = Tally(clicks: nat, pairs: nat, unmoved: nat)

  /** The counters after the first `k` event records. An untrusted click skips both scans. */
  function TallyUpTo(m: MathOps, e: seq<EventRecord>, h: seq<MouseRecord>, layout: Layout, k: nat): Tally
    requires k <= |e|
    decreases k
  {
    if k == 0 then Tally(0, 0, 0)
    else
      var acc := TallyUpTo(m, e, h, layout, k - 1);
      var r := e[k - 1];
      if r.kind != Click then acc
      else if r.isTrusted == Some(false) then Tally(acc.clicks + 1, acc.pairs, acc.unmoved + 1)
      else
        Tally(
          acc.clicks + 1,
          acc.pairs + (if PairedClick(e, k - 1) then 1 else 0),
          acc.unmoved + (if ClickWithoutMovement(m, h, r.timestamp, ClickCentre(layout, r.target)) then 1 else 0))
  }

  /** The outer `for (let i = 0; i < this.eventRecords.length; i++)` loop over clicks. */
  method TallyClicks(m: MathOps, e: seq<EventRecord>, h: seq<MouseRecord>, layout: Layout) returns (tally: Tally)
    ensures tally == TallyUpTo(m, e, h, layout, |e|)
  {
    var clickCount, eventPairCount, clicksWithoutMouseMovement := 0, 0, 0;
    for i := 0 to |e|
      invariant Tally(clickCount, eventPairCount, clicksWithoutMouseMovement) == TallyUpTo(m, e, h, layout, i)
    {
      if e[i].kind == Click {
        clickCount := clickCount + 1;
        var clickEvent := e[i];
        if clickEvent.isTrusted == Some(false) {
          clicksWithoutMouseMovement := clicksWithoutMouseMovement + 1;
          continue;
        }
        var paired := ScanForPair(e, i);
        if paired {
          eventPairCount := eventPairCount + 1;
        }
        var foundMouseMovement, mouseWasNearClickLocation :=
          ScanMovement(m, h, clickEvent.timestamp, ClickCentre(layout, clickEvent.target));
        var hasReasonableMouseHistory := |h| >= ReasonableHistory;
        if !foundMouseMovement && !hasReasonableMouseHistory && !mouseWasNearClickLocation {
          clicksWithoutMouseMovement := clicksWithoutMouseMovement + 1;
        }
      }
    }
    tally := Tally(clickCount, eventPairCount, clicksWithoutMouseMovement);
  }

  /** Paired and unmoved clicks are among the clicks; the counters never decrease. */
  lemma {:induction false} TallyBounds(m: MathOps, e: seq<EventRecord>, h: seq<MouseRecord>, layout: Layout, k: nat)
    requires k <= |e|
    ensures TallyUpTo(m, e, h, layout, k).pairs <= TallyUpTo(m, e, h, layout, k).clicks
    ensures TallyUpTo(m, e, h, layout, k).unmoved <= TallyUpTo(m, e, h, layout, k).clicks
  {
    if k > 0 {
      TallyBounds(m, e, h, layout, k - 1);
    }
  }

  lemma {:induction false} TallyMonotone(m: MathOps, e: seq<EventRecord>, h: seq<MouseRecord>, layout: Layout, j: nat, k: nat)
    requires j <= k <= |e|
    ensures TallyUpTo(m, e, h, layout, j).unmoved <= TallyUpTo(m, e, h, layout, k).unmoved
    ensures TallyUpTo(m, e, h, layout, j).clicks <= TallyUpTo(m, e, h, layout, k).clicks
    decreases k
  {
    if j < k {
      TallyMonotone(m, e, h, layout, j, k - 1);
    }
  }

  /** The tally counts no clicks exactly when there is no click record. */
  lemma {:induction false} NoClicksIff(m: MathOps, e: seq<EventRecord>, h: seq<MouseRecord>, layout: Layout, k: nat)
    requires k <= |e|
    ensures TallyUpTo(m, e, h, layout, k).clicks == 0 <==> forall i :: 0 <= i < k ==> e[i].kind != Click
  {
    if k > 0 {
      NoClicksIff(m, e, h, layout, k - 1);
      TallyMonotone(m, e, h, layout, 0, k - 1);
    }
  }

  /** Every click trusted and paired: every click is counted as paired. */
  lemma {:induction false} AllPairedTally(m: MathOps, e: seq<EventRecord>, h: seq<MouseRecord>, layout: Layout, k: nat)
    requires k <= |e|
    requires forall i :: 0 <= i < k && e[i].kind == Click ==> e[i].isTrusted != Some(false) && PairedClick(e, i)
    ensures TallyUpTo(m, e, h, layout, k).pairs == TallyUpTo(m, e, h, layout, k).clicks
  {
    if k > 0 {
      AllPairedTally(m, e, h, layout, k - 1);
    }
  }

  // ---------------------------------------------------------------------
  // The feature set

  /** The detector state `_calculateFeatures` reads besides the samples it is given. */
  datatype Snapshot = Snapshot(
    events: seq<EventRecord>,
    history: seq<MouseRecord>,
    keyPresses: seq<real>,
    clickDurations: seq<real>,
    tabPressCount: nat,
    initialPosition: Option<Point>,
    pageLoadTime: real)

  /**
   * `eventRecords[0] || mouseData[0]`, measured from page load; 10000 when there
   * is neither. Both detectors compute it the same way over their own event
   * record types, so `stamp` reads the timestamp of an event record.
   */
  function FirstInteractionDelay<E>(events: seq<E>, stamp: E -> real, mouseData: seq<MouseRecord>, pageLoadTime: real): (r: real)
    ensures events == [] && mouseData == [] ==> r == NoInteractionTtfi
    ensures events != [] ==> r == stamp(events[0]) - pageLoadTime
    ensures events == [] && mouseData != [] ==> r == mouseData[0].timestamp - pageLoadTime
  {
    if |events| > 0 then stamp(events[0]) - pageLoadTime
    else if |mouseData| > 0 then mouseData[0].timestamp - pageLoadTime
    else NoInteractionTtfi
  }

  function EventTime(e: EventRecord): real
  {
    e.timestamp
  }

  /** Tab presses per recorded key press, 0 without key presses (not bounded by 1: see `TabUsageUnbounded`). */
  function TabUsage(tabPressCount: nat, keyCount: nat): (r: real)
    ensures r >= 0.0
    ensures keyCount == 0 ==> r == 0.0
    ensures keyCount > 0 && tabPressCount <= keyCount ==> r <= 1.0
    ensures keyCount > 0 && tabPressCount > keyCount ==> r > 1.0
  {
    if keyCount > 0 then
      var r := (tabPressCount as real) / (keyCount as real);
      NonNegativeRatio(tabPressCount as real, keyCount as real);
      r
    else 0.0
  }

  /** `hasClickWithoutPrecedingEvents`: some click, and fewer than half of the clicks paired. */
  function PrecedingEventsFlag(t: Tally): (r: real)
    ensures r == 1.0 <==> t.clicks > 0 && (t.pairs as real) < (t.clicks as real) * 0.5
    ensures r == 0.0 || r == 1.0
  {
    if t.clicks > 0 && (t.pairs as real) < (t.clicks as real) * 0.5 then 1.0 else 0.0
  }

  /** `hasClickWithoutMouseMovement`: some click, and a click flagged or almost no history. */
  function MovementFlag(t: Tally, historyLength: nat): (r: real)
    ensures r == 1.0 <==> t.clicks > 0 && (t.unmoved > 0 || historyLength < AlmostNoActivity)
    ensures r == 0.0 || r == 1.0
  {
    if t.clicks > 0 && (t.unmoved > 0 || historyLength < AlmostNoActivity) then 1.0 else 0.0
  }

  /** The feature set `_calculateFeatures(mouseData)` computes from a snapshot of the detector. */
  function Features(m: MathOps, st: Snapshot, mouseData: seq<MouseRecord>, layout: Layout): FeatureSet
  {
    var series := MovementSeries(m, mouseData);
    var keyInterEvents := Intervals(st.keyPresses);
    var tally := TallyUpTo(m, st.events, st.history, layout, |st.events|);
    FeatureSet(
      Variance(series.speeds, Mean(series.speeds)),
      Variance(series.timeDeltas, Mean(series.timeDeltas)),
      Variance(series.angles, Mean(series.angles)),
      Variance(keyInterEvents, Mean(keyInterEvents)),
      Variance(st.clickDurations, Mean(st.clickDurations)),
      FirstInteractionDelay(st.events, EventTime, mouseData, st.pageLoadTime),
      PrecedingEventsFlag(tally),
      MovementFlag(tally, |st.history|),
      |mouseData|,
      TabUsage(st.tabPressCount, |st.keyPresses|),
      series.fixedCount,
      if st.initialPosition == Some(Point(0.0, 0.0)) then 1.0 else 0.0)
  }

  /** Every computed feature set has 0/1 flags, non-negative variances and usage. */
  lemma FeaturesWellFormed(m: MathOps, st: Snapshot, mouseData: seq<MouseRecord>, layout: Layout)
    ensures WellFormed(Features(m, st, mouseData, layout))
    ensures Features(m, st, mouseData, layout).totalMoveEvents == |mouseData|
  {
  }

  /** Fewer than two samples: every movement feature is 0. */
  lemma SparseMovementIsNeutral(m: MathOps, st: Snapshot, mouseData: seq<MouseRecord>, layout: Layout)
    requires |mouseData| < 2
    ensures var f := Features(m, st, mouseData, layout);
      f.speedVariance == 0.0 && f.timeDeltaVariance == 0.0 && f.pathCurvature == 0.0 && f.fixedPositionCount == 0
  {
    MovementShape(m, mouseData);
  }

  /** An untrusted click anywhere in the event log raises the movement flag. */
  lemma UntrustedClickRaisesMovementFlag(m: MathOps, st: Snapshot, mouseData: seq<MouseRecord>, layout: Layout, i: nat)
    requires i < |st.events| && st.events[i].kind == Click && st.events[i].isTrusted == Some(false)
    ensures Features(m, st, mouseData, layout).hasClickWithoutMouseMovement == 1.0
  {
    TallyMonotone(m, st.events, st.history, layout, i + 1, |st.events|);
  }

  /** Without click records neither click flag is raised. */
  lemma NoClickNoClickFlags(m: MathOps, st: Snapshot, mouseData: seq<MouseRecord>, layout: Layout)
    requires forall i :: 0 <= i < |st.events| ==> st.events[i].kind != Click
    ensures Features(m, st, mouseData, layout).hasClickWithoutPrecedingEvents == 0.0
    ensures Features(m, st, mouseData, layout).hasClickWithoutMouseMovement == 0.0
  {
    NoClicksIff(m, st.events, st.history, layout, |st.events|);
  }

  /** When every click is trusted and paired, the preceding-events flag stays down. */
  lemma PairedClicksNoPrecedingFlag(m: MathOps, st: Snapshot, mouseData: seq<MouseRecord>, layout: Layout)
    requires forall i :: 0 <= i < |st.events| && st.events[i].kind == Click ==>
      st.events[i].isTrusted != Some(false) && PairedClick(st.events, i)
    ensures Features(m, st, mouseData, layout).hasClickWithoutPrecedingEvents == 0.0
  {
    AllPairedTally(m, st.events, st.history, layout, |st.events|);
  }
}
