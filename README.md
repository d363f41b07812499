# Bot-detection engine of the clickers site, in Dafny

This project models the client-side bot detector of the clickers site, and
proves properties about it. It covers two detector classes and two small
helpers from the component folder:

- **`RealTimeBotDetector`** (`rt_detector.dfy`, built on `stats.dfy`,
  `capped.dfy`, `motion.dfy`, `rt_features.dfy`, `rt_scoring.dfy` and
  `static_signals.dfy`). It is a class with these parts:
  - capped capture buffers: a 500-record mouse window, a 10000-record mouse
    history, a 5000-record event log and a 2000-record key log, each trimmed by
    push-then-shift;
  - an unbounded click-duration log;
  - the mousedown marker and the one-shot initial-position capture;
  - the Idle/Tracking state machine with its periodic analysis tick and a
    monotone peak score;
  - the feature extractor, whose loops run over consecutive mouse samples,
    with a backward pairing scan and a backward movement scan per click;
  - the gated weighted-sum scorer, clamped to [0, 1];
  - the final verdict of `stopTracking`: peak, critical override, redemption
    bonuses, a critical-fail floor of 0.8 and the threshold 0.5;
  - the ordered static checks over an environment record.
- **`BotDetector`** (`classic.dfy`), the earlier detector:
  - unbounded buffers;
  - click pairing by "one of the two records right before the click is a
    down/up";
  - a viewport aspect-ratio feature and one weight profile;
  - a score floored at 0 and not clamped above;
  - a `stopTracking` that fails when the detector was not started.
- **`escapeHtml`** of the video hero (`html_escape.dfy`): entity substitution
  for `& < > " '`, with a decoder that proves no information is lost.
- **`validateField`, `setValue`, `setError` and `clear`** of the text field
  (`text_field.dfy`). The ordered first-failure decision runs required, then
  e-mail shape, then date shape and parse, then the custom validator. The field
  state is the value, the error text and the error visibility.

Arithmetic is over `real`. `Math.sqrt` and `Math.atan2` are fields of a
`MathOps` value. Lemmas that need their behaviour assume only this
(`Motion.Lawful`): `sqrt` is non-negative, `sqrt(0) = 0`, and `atan2` lies in
[-π, π]. The imperative parts of the source stay imperative:
- handlers that push and shift are methods of a class that modify its fields;
- the feature loops are `while` loops whose invariants tie them to recursive
  "up to index k" functions;
- the score accumulations are `+=` sequences proved equal to their
  specification functions.

Three behaviours of the source are kept as written:
- **Restarting keeps old data.** Neither detector's `startTracking` resets
  the buffers, so a restarted detector keeps its earlier data.
- **`BotDetector.stopTracking` throws when idle.** It does not return a
  snapshot; the model returns `Failure("Mouse bot detection not started!")`
  and changes nothing.
- **`RealTimeBotDetector.stopTracking` when idle** returns the live result of
  the window and changes nothing.

## Model

| member | source | states |
|---|---|---|
| Capped.PushCapped | src/RealTimeBotDetector.ts:289-292 | no contract of its own: `push` then `shift` past the cap; what it keeps and evicts is stated by `PushCappedEvictsOldest` and `PushCappedKeepsSuffix` |
| Capped.PushCappedEvictsOldest | src/RealTimeBotDetector.ts:289-299 | push-then-shift keeps a buffer within its cap, ends with the new record, appends when below the cap and evicts exactly the oldest record when full |
| Capped.PushCappedKeepsSuffix | src/RealTimeBotDetector.ts:286-299 | pushing the same record to the window and the history keeps the window equal to the newest part of the history |
| Stats.Clamp01 | src/RealTimeBotDetector.ts:666 | the clamp lies in [0, 1], is the identity inside it, and is 0 below it and 1 above it |
| Stats.Mean | src/RealTimeBotDetector.ts:671-674 | the mean of an empty series is 0 |
| Stats.Variance | src/RealTimeBotDetector.ts:676-679 | the variance of fewer than two samples is 0, and it is never negative |
| Stats.Normalize | src/RealTimeBotDetector.ts:681-684 | 0 when max = min; otherwise in [0, 1]: exactly (v - min)/(max - min) inside the range, 0 below it and 1 above it |
| Stats.ComputeIntervals | src/RealTimeBotDetector.ts:493-497 | the loop builds exactly the consecutive differences of the key timestamps |
| Stats.IntervalsShape | src/RealTimeBotDetector.ts:493-497 | n timestamps give n - 1 intervals (none for fewer than two), the i-th being s[i+1] - s[i] |
| Stats.SquaredDeviationsNonNegative | src/RealTimeBotDetector.ts:676-679 | the sum of squared deviations is never negative |
| Stats.ConstantSeriesHasNoVariance | src/RealTimeBotDetector.ts:671-679 | a constant series has that constant as its mean and zero variance |
| Stats.MeanBounds | src/RealTimeBotDetector.ts:671-674 | the mean of a non-empty series lies between any lower and upper bound of its samples |
| Motion.ExtractSeries | src/RealTimeBotDetector.ts:452-477 | the sample loop computes exactly the speed, time-delta and angle series and the fixed-position count of the specification function |
| Motion.SeriesShape | src/RealTimeBotDetector.ts:452-477 | after k samples there are k - 1 time deltas, each the difference of consecutive timestamps; the fixed count plus the speeds are at most k - 1, the angles are no more than the speeds, and every speed is positive |
| Motion.SeriesCounts | src/RealTimeBotDetector.ts:453-466 | after k samples there are k - 1 time deltas, no more angles than speeds, and fixed segments plus speeds number at most k - 1 |
| Motion.SeriesTimeDeltas | src/RealTimeBotDetector.ts:462-463 | the i-th time delta is the difference of the timestamps of samples i + 1 and i |
| Motion.SeriesSpeedsPositive | src/RealTimeBotDetector.ts:465-466 | every recorded speed is positive, since only moving segments with a positive time delta yield one |
| Motion.TimeDeltasAreIntervals | src/RealTimeBotDetector.ts:462-463 | the time-delta series is exactly the intervals of the timestamps |
| Motion.NoFixedIff | src/RealTimeBotDetector.ts:457-459 | the fixed-position count is 0 exactly when no consecutive pair has zero distance |
| Motion.AllFixedIff | src/RealTimeBotDetector.ts:457-459 | the fixed-position count is n - 1 exactly when every consecutive pair has zero distance |
| Motion.TurnAngleInRange | src/RealTimeBotDetector.ts:469-473 | the folded turn angle lies in [0, π] |
| Motion.AnglesInRange | src/RealTimeBotDetector.ts:467-481 | every curvature angle, and therefore their mean, lies in [0, π] |
| Motion.MovementShape | src/RealTimeBotDetector.ts:452-487 | the time deltas are the intervals of the timestamps, the fixed count is at most n - 1, and fewer than two samples give empty series |
| Motion.StationaryPath | src/RealTimeBotDetector.ts:457-466 | a path that never moves has n - 1 fixed positions and no speeds or angles |
| RealTimeFeatures.ScanStart | src/RealTimeBotDetector.ts:524 | the backward pairing scan visits exactly the records at most 500 ms before the click, stopping at the first older one |
| RealTimeFeatures.HasMatchStep | src/RealTimeBotDetector.ts:525-531 | stepping the backward scan one record further finds a match exactly when one was found already or that record matches |
| RealTimeFeatures.ScanForPair | src/RealTimeBotDetector.ts:520-536 | the nested scan reports a pair exactly when a mousedown and a mouseup on the click's target lie in the contiguous 500 ms window before it |
| RealTimeFeatures.PairWithinWindowIsFound | src/RealTimeBotDetector.ts:524-533 | with ordered timestamps, a same-target down and up within 500 ms before a click always pair it |
| RealTimeFeatures.LatestNotAfter | src/RealTimeBotDetector.ts:557-562 | the movement scan skips the records after the click and stops at the latest one not after it, if any |
| RealTimeFeatures.ScanMovement | src/RealTimeBotDetector.ts:538-584 | the backward loop computes exactly the movement evidence of the specification function |
| RealTimeFeatures.RecentMovementIff | src/RealTimeBotDetector.ts:557-583 | "recent movement" holds exactly when the latest history record at or before the click is within 2000 ms of it |
| RealTimeFeatures.EvidenceIgnoresOlderRecords | src/RealTimeBotDetector.ts:576-582 | records older than that latest one never change the evidence: the loop inspects only one record |
| RealTimeFeatures.NearOlderRecordDoesNotCount | src/RealTimeBotDetector.ts:565-582 | an older record right at the click centre is not looked at once a newer, far, stale record is found |
| RealTimeFeatures.TallyClicks | src/RealTimeBotDetector.ts:506-597 | the click loop computes exactly the click, pair and unmoved-click counts of the specification function |
| RealTimeFeatures.TallyBounds | src/RealTimeBotDetector.ts:506-597 | paired clicks and clicks without movement never outnumber the clicks |
| RealTimeFeatures.TallyMonotone | src/RealTimeBotDetector.ts:506-597 | the counts of clicks and of unmoved clicks only grow as the log is scanned |
| RealTimeFeatures.NoClicksIff | src/RealTimeBotDetector.ts:506-508 | the click count is 0 exactly when the log holds no click |
| RealTimeFeatures.AllPairedTally | src/RealTimeBotDetector.ts:514-536 | when every click is trusted and paired, the pair count equals the click count |
| RealTimeFeatures.FirstInteractionDelay | src/RealTimeBotDetector.ts:490-491 | the delay is measured from the first event record, else from the first mouse sample, else it is 10000; `BotDetector` (src/BotDetector.ts:266-272) computes it the same way and uses the same function |
| RealTimeFeatures.TabUsage | src/RealTimeBotDetector.ts:608 | tab usage is 0 with no key records, at most 1 when every Tab press is still logged, and above 1 when more Tabs were counted than keys are logged |
| Stats.NonNegativeRatio | src/RealTimeBotDetector.ts:608 | a ratio of a count to a positive count is non-negative, and at most 1 exactly when the numerator is at most the denominator |
| RealTimeFeatures.PrecedingEventsFlag | src/RealTimeBotDetector.ts:605 | the flag is 0 or 1, and 1 exactly when there are clicks and fewer than half of them are paired |
| RealTimeFeatures.MovementFlag | src/RealTimeBotDetector.ts:603-606 | the flag is 0 or 1, and 1 exactly when there are clicks and either one was flagged or the history has fewer than 5 samples |
| RealTimeFeatures.Features | src/RealTimeBotDetector.ts:443-616 | no contract of its own: the feature record `_calculateFeatures` returns; `CalculateFeatures` is proved to compute it and `FeaturesWellFormed` states its shape |
| RealTimeFeatures.FeaturesWellFormed | src/RealTimeBotDetector.ts:443-616 | every computed feature set has non-negative variances, 0/1 flags, and a move count equal to the samples given |
| RealTimeFeatures.SparseMovementIsNeutral | src/RealTimeBotDetector.ts:452-487 | fewer than two samples give zero movement variances and no fixed positions |
| RealTimeFeatures.UntrustedClickRaisesMovementFlag | src/RealTimeBotDetector.ts:514-518 | one untrusted click is enough to raise the no-movement flag |
| RealTimeFeatures.NoClickNoClickFlags | src/RealTimeBotDetector.ts:603-606 | without clicks, both click flags are 0 |
| RealTimeFeatures.PairedClicksNoPrecedingFlag | src/RealTimeBotDetector.ts:605 | when every click is trusted and paired, the missing-events flag is 0 |
| RealTimeScoring.Inverted | src/RealTimeBotDetector.ts:635-637 | the inverted normalised variance lies in [0, 1] |
| RealTimeScoring.RawScore | src/RealTimeBotDetector.ts:618-665 | no contract of its own: the gated weighted sum before clamping; `RealTimeTermsNonNegative` bounds it below, and the three gated lemmas state which features the clamped score ignores |
| RealTimeScoring.ScoreOf | src/RealTimeBotDetector.ts:618-666 | the real-time score lies in [0, 1] |
| RealTimeScoring.MovementTermsGated | src/RealTimeBotDetector.ts:634-639 | with fewer than 20 moves, the movement variances and the fixed count do not affect the score |
| RealTimeScoring.KeyTermGated | src/RealTimeBotDetector.ts:643-645 | with fewer than 5 key presses, the key variance does not affect the score |
| RealTimeScoring.ClickDurationTermGated | src/RealTimeBotDetector.ts:649-651 | with fewer than 3 durations, the click-duration variance does not affect the score |
| RealTimeScoring.RealTimeTermsNonNegative | src/RealTimeBotDetector.ts:653-660 | under the real-time weights every term is non-negative and the raw score is at least the flag terms |
| RealTimeScoring.RealTimeFlagFloors | src/RealTimeBotDetector.ts:654-656 | under the real-time weights, each raised flag alone puts the score at or above its weight (0.8, 0.85, 0.9) |
| RealTimeScoring.HumanLikeScoresZero | src/RealTimeBotDetector.ts:618-666 | no flags, enough variance everywhere and a slow first interaction give a score of exactly 0 |
| RealTimeScoring.RealTimeResult | src/RealTimeBotDetector.ts:431-441 | a live result has a score in [0, 1], is a bot exactly when the score exceeds 0.5, and carries the features |
| RealTimeScoring.StaticResult | src/RealTimeBotDetector.ts:398-410 | the static-bot tick reports score 1 and a bot |
| RealTimeScoring.FinalVerdict | src/RealTimeBotDetector.ts:186-218 | the final score lies in [0, 1]; the critical override raises the peak to at least 0.9 and both click flags to 1, otherwise features and peak are kept; a critical fail scores at least 0.8 |
| RealTimeScoring.FinalVerdictBounds | src/RealTimeBotDetector.ts:196-218 | without a critical fail, the final score is at most the peak, because both redemption bonuses are at most 0; the new peak is at least the old one |
| RealTimeScoring.CriticalFailIsBot | src/RealTimeBotDetector.ts:186-221 | a critical fail or the zero-click override always ends in a bot verdict |
| RealTimeScoring.FinalResult | src/RealTimeBotDetector.ts:220-225 | the final result carries the verdict's score and is a bot exactly when it exceeds 0.5 |
| StaticSignals.LowerChar | src/RealTimeBotDetector.ts:236 | lower-casing maps A-Z into a-z and leaves every other character alone |
| StaticSignals.ToLower | src/RealTimeBotDetector.ts:236 | lower-casing keeps the length and lower-cases character by character |
| StaticSignals.ContainsIff | src/RealTimeBotDetector.ts:239 | the substring test holds exactly when the keyword occurs at some position |
| StaticSignals.OccursInTail | src/RealTimeBotDetector.ts:239 | when the keyword does not start the string, each occurrence is an occurrence in its tail |
| StaticSignals.GptBotKeywordIsRedundant | src/RealTimeBotDetector.ts:237-239 | every user agent containing "gptbot" already contains "bot" |
| StaticSignals.HasBotKeyword | src/RealTimeBotDetector.ts:236-239 | no contract of its own: some keyword occurs in the lower-cased agent string; `GptBotKeywordIsRedundant` shows the last keyword never decides |
| StaticSignals.Matches | src/RealTimeBotDetector.ts:228-275 | no contract of its own: the condition of each of the six checks; `FirstSignalIsFirstMatch` and `CheckStaticSignals` are stated in its terms |
| StaticSignals.FirstSignal | src/RealTimeBotDetector.ts:228-277 | the reported signal is one that holds in the environment |
| StaticSignals.FirstSignalIsFirstMatch | src/RealTimeBotDetector.ts:228-277 | no earlier check holds before the reported one, and none is reported exactly when no check holds |
| StaticSignals.CheckStaticSignals | src/RealTimeBotDetector.ts:228-277 | the environment is flagged exactly when some check holds; a webdriver flag always flags it |
| RealTime.CountClicks | src/RealTimeBotDetector.ts:186 | the click count never exceeds the log length |
| RealTime.CountClicksIsTallied | src/RealTimeBotDetector.ts:186 | the click count of the critical override equals the click count of the feature loop |
| RealTime.RealTimeBotDetector.constructor | src/RealTimeBotDetector.ts:92-105 | a new detector is idle, with empty buffers, no marker, no initial position, a zero Tab count and a zero peak |
| RealTime.RealTimeBotDetector.StartTracking | src/RealTimeBotDetector.ts:121-165 | while tracking, nothing changes; otherwise it re-arms the initial-position capture, records the static verdict, sets the peak to 1 for a static bot and starts tracking |
| RealTime.RealTimeBotDetector.RecordFirstInteraction | src/RealTimeBotDetector.ts:379-390 | appends a non-pairing first-interaction record to the capped event log; on an empty log it is the only record |
| RealTime.RealTimeBotDetector.RecordMouse | src/RealTimeBotDetector.ts:286-299 | appends the same record to the capped window and the capped history |
| RealTime.RealTimeBotDetector.HandleMouseMove | src/RealTimeBotDetector.ts:279-304 | captures the initial position only on the first move, pushes to window and history, and logs a first interaction only when the event log is empty |
| RealTime.RealTimeBotDetector.HandleKeyDown | src/RealTimeBotDetector.ts:306-321 | pushes the key time to the capped key log, counts a Tab by key or code, and logs a first interaction only on an empty event log |
| RealTime.RealTimeBotDetector.HandleMouseDown | src/RealTimeBotDetector.ts:323-337 | opens the mousedown marker and pushes a pairing record to the capped event log |
| RealTime.RealTimeBotDetector.HandleMouseUp | src/RealTimeBotDetector.ts:339-358 | pushes a pairing record; appends one duration (up - down) exactly when a marker is open, and then clears the marker |
| RealTime.RealTimeBotDetector.HandleClick | src/RealTimeBotDetector.ts:360-377 | pushes a non-pairing click record with its trust and movement data to the capped event log |
| RealTime.RealTimeBotDetector.CalculateFeatures | src/RealTimeBotDetector.ts:443-616 | the extractor's loops compute exactly the feature set of the specification function |
| RealTime.RealTimeBotDetector.CalculateScore | src/RealTimeBotDetector.ts:618-666 | the `+=` accumulation computes exactly the gated, clamped score |
| RealTime.RealTimeBotDetector.GenerateResult | src/RealTimeBotDetector.ts:431-441 | the live result is the scored feature set of the given samples |
| RealTime.RealTimeBotDetector.RunAnalysis | src/RealTimeBotDetector.ts:395-429 | the peak never decreases; an idle tick does nothing; a static bot always gets score 1 and a bot verdict; a tick with no data does nothing; otherwise it emits the live result and raises the peak to it |
| RealTime.RealTimeBotDetector.LiveTick | src/RealTimeBotDetector.ts:418-424 | the live result of the window, with the peak raised to its score when that is higher |
| RealTime.RealTimeBotDetector.StopTracking | src/RealTimeBotDetector.ts:167-226 | idle: the live window result, with no state change; tracking: it stops and returns the final verdict on the full history, starting from the peak |
| RealTime.RealTimeBotDetector.EndSession | src/RealTimeBotDetector.ts:178-225 | leaves Tracking, sets the peak to the verdict's peak (raised only by the critical override) and returns the final verdict on the full history |
| RealTime.RealTimeBotDetector.UpdatePeak | src/RealTimeBotDetector.ts:189 | the peak becomes the larger of itself and a score in [0, 1], and the detector invariant is kept |
| RealTime.RealTimeBotDetector.JudgeSession | src/RealTimeBotDetector.ts:181-218 | computes the verdict on the full history, whose peak is never below the current peak and at most 1 |
| RealTime.TabUsageUnbounded | src/RealTimeBotDetector.ts:306-321 | 2001 Tab presses leave a raw tab usage above 1, because the Tab count is never trimmed |
| Classic.TallyPairs | src/BotDetector.ts:293-306 | the pairing loop computes exactly the click and pair counts of the specification function |
| Classic.PairTallyBounds | src/BotDetector.ts:293-306 | pairs never outnumber clicks, and there are no clicks exactly when the log holds none |
| Classic.AllAdjacentPaired | src/BotDetector.ts:295-306 | when each click has a down/up among its two preceding records, every click is paired |
| Classic.NoneAdjacentPaired | src/BotDetector.ts:295-306 | when no click has one there, the pair count is 0 |
| Classic.PairThreeBackIsMissed | src/BotDetector.ts:299-301 | a down/up three records before a click does not pair it, and the missing-events flag is raised |
| Classic.AspectRatioDeviation | src/BotDetector.ts:313-315 | the deviation is non-negative and 0 exactly at 16:9 |
| Classic.FeaturesOf | src/BotDetector.ts:204-318 | no contract of its own: the feature record `_calculateFeatures` returns; `BotDetector.CalculateFeatures` is proved to compute it and `FeaturesShape` states its shape |
| Classic.FeaturesShape | src/BotDetector.ts:204-318 | non-negative variances; a 0/1 flag raised exactly when under half the clicks are paired; tab usage in [0, 1] and 0 without keys; at most n - 1 fixed positions |
| Classic.RawScore | src/BotDetector.ts:323-362 | no contract of its own: the unclamped weighted sum; `SuspicionScore` floors it at 0, and `ScoreAtMost`, `TabUsageOnlyLowers` and `UnpairedClickIsBot` bound the floored score |
| Classic.SuspicionScore | src/BotDetector.ts:322-364 | the score is the raw sum floored at 0: never negative, and equal to the sum whenever that is non-negative |
| Classic.ScoreAtMost | src/BotDetector.ts:322-364 | with a 0/1 flag the score is at most 1.8, the sum of the positive weights |
| Classic.ScoreCanExceedOne | src/BotDetector.ts:322-364 | regular movement, an instant interaction, an unpaired click and a far-off aspect ratio score at least 1.79: the score is not clamped above |
| Classic.TabUsageOnlyLowers | src/BotDetector.ts:359-362 | more Tab usage never raises the score |
| Classic.UnpairedClickIsBot | src/BotDetector.ts:349 | the missing-events flag without Tab usage gives at least 0.8, a bot |
| Classic.Verdict | src/BotDetector.ts:120-127 | the result carries the features and a non-negative score, and is a bot exactly when the score exceeds 0.5 |
| Classic.ClassicFirstInteraction | src/BotDetector.ts:138-146 | a first-interaction record is never a pairing candidate |
| Classic.BotDetector.constructor | src/BotDetector.ts:77-94 | a new detector is idle, with empty buffers, no marker and a zero Tab count |
| Classic.BotDetector.StartTracking | src/BotDetector.ts:96-106 | afterwards it is tracking; while already tracking nothing changes |
| Classic.BotDetector.StopTracking | src/BotDetector.ts:108-128 | idle: the "not started" error, with no state change; tracking: it stops and returns the verdict on the current features |
| Classic.BotDetector.SessionResult | src/BotDetector.ts:120-127 | the verdict on the features of everything recorded |
| Classic.BotDetector.HandleMouseMove | src/BotDetector.ts:130-147 | appends the sample, and logs a non-pairing first interaction only on an empty event log |
| Classic.BotDetector.HandleKeyDown | src/BotDetector.ts:149-166 | appends the key time, counts a Tab by key or code, and logs a first interaction only on an empty event log |
| Classic.BotDetector.HandleMouseDown | src/BotDetector.ts:168-176 | opens the marker and appends a pairing record |
| Classic.BotDetector.HandleMouseUp | src/BotDetector.ts:178-191 | appends a pairing record; appends one duration exactly when a marker is open, then clears it |
| Classic.BotDetector.HandleClick | src/BotDetector.ts:193-200 | appends a non-pairing click record |
| Classic.BotDetector.CalculateFeatures | src/BotDetector.ts:204-318 | the loops compute exactly the feature set of the specification function |
| Classic.BotDetector.CalculateSuspicionScore | src/BotDetector.ts:322-365 | the `+=` accumulation computes exactly the floored score, which is never negative |
| Classic.StartStopLifecycle | src/BotDetector.ts:96-128 | start then stop succeeds with a non-negative score; a second stop fails with the "not started" error |
| HtmlEscape.Escape | src/components/VideoHero.ts:76-78 | escaping never shortens a string, and a non-empty result starts with the first character or an entity |
| HtmlEscape.EscapeChar | src/components/VideoHero.ts:77 | other characters stand for themselves; each of the five becomes an entity of at least four characters from `&` to `;` |
| HtmlEscape.EscapeTable | src/components/VideoHero.ts:77 | `& < > " '` become `&amp; &lt; &gt; &quot; &#39;`, and every other character is kept |
| HtmlEscape.EscapeConcat | src/components/VideoHero.ts:77 | escaping distributes over concatenation |
| HtmlEscape.PlainIsUnchanged | src/components/VideoHero.ts:77 | text without the five characters is returned unchanged |
| HtmlEscape.EscapeIdentityIff | src/components/VideoHero.ts:77 | escaping leaves a text unchanged exactly when none of the five characters occur |
| HtmlEscape.EscapeLength | src/components/VideoHero.ts:77 | the output is never shorter, and equally long exactly when none of the five characters occur |
| HtmlEscape.EscapeHasNoMarkup | src/components/VideoHero.ts:77 | the output contains no `<`, `>`, `"` or `'` |
| HtmlEscape.UnescapeStep | src/components/VideoHero.ts:77 | decoding one escaped character gives it back, whatever follows |
| HtmlEscape.UnescapeEscape | src/components/VideoHero.ts:76-78 | decoding an escaped text gives the text back, so escaping loses nothing |
| TextField.Trim | src/components/TextField.ts:70 | trimming never lengthens a string |
| TextField.TrimStartBlank | src/components/TextField.ts:70 | trimming the start empties a text exactly when it is all white space, and otherwise leaves a non-space first character |
| TextField.TrimEmptyIffBlank | src/components/TextField.ts:70 | `trim()` is empty exactly when the value is all white space |
| TextField.EmailShape | src/components/TextField.ts:77-78 | no contract of its own: the pattern as an `@` split and a later `.` split into three parts; `EmailShapeIff` states its meaning character by character |
| TextField.EmailShapeIff | src/components/TextField.ts:77-78 | the e-mail pattern holds exactly when the value has an `@`, then a later `.`, with non-empty parts free of white space and `@` around them |
| TextField.SplitIsPlain | src/components/TextField.ts:77-78 | a split the pattern accepts makes its `@` the only one, with no white space anywhere and the `.` at least two characters later and not last |
| TextField.EmailPartAt | src/components/TextField.ts:77 | every character of an accepted part is neither white space nor `@` |
| TextField.RequiredBlankFails | src/components/TextField.ts:70-74 | a required blank value fails with "<label> is required", and with "This field is required" without a label |
| TextField.BadEmailFails | src/components/TextField.ts:76-83 | a non-blank e-mail value without the e-mail shape fails with the e-mail message |
| TextField.DateShape | src/components/TextField.ts:86-87 | no contract of its own: ten characters dddd-dd-dd; `BadDateFails` states how it decides the format message |
| TextField.BadDateFails | src/components/TextField.ts:85-99 | a non-blank date value fails with the format message unless it is dddd-dd-dd, and then with the date message if it does not parse |
| TextField.OptionalBlankSkipsFormats | src/components/TextField.ts:76-110 | an optional blank value skips the format checks: only a custom message can reject it |
| TextField.CustomOnlyAfterBuiltIns | src/components/TextField.ts:101-108 | the custom answer matters only when every built-in check passes, and then a non-empty answer is the message |
| TextField.Validate | src/components/TextField.ts:67-111 | a rejection always carries a non-empty message; a required blank value and a non-empty custom answer are always rejected |
| TextField.AcceptedIff | src/components/TextField.ts:67-111 | a value is accepted exactly when no built-in check fails and the custom validator has no message |
| TextField.TextFieldWidget.constructor | src/components/TextField.ts:48-64 | a new field holds its initial value and a hidden, empty error |
| TextField.TextFieldWidget.ValidateField | src/components/TextField.ts:67-111 | returns whether the decision accepts the value; a rejection shows its message, an acceptance leaves the error hidden |
| TextField.TextFieldWidget.GetValue | src/components/TextField.ts:125 | no contract of its own: reads the current value, which `SetValue`, `Clear` and `ValidateField` state in full |
| TextField.TextFieldWidget.SetValue | src/components/TextField.ts:126-128 | replaces the value and nothing else |
| TextField.TextFieldWidget.SetError | src/components/TextField.ts:129-136 | a non-empty message is shown; `null` or an empty message hides the error and keeps its text |
| TextField.TextFieldWidget.Clear | src/components/TextField.ts:138-141 | empties the value and hides the error, and changes nothing else |
| TextField.ClearedOptionalFieldValidates | src/components/TextField.ts:138-141 | a cleared optional field with no validator validates |

## Left out

- Listener registration and removal, `AbortController`, `setInterval`/`clearInterval` and `console.log` are host plumbing. The handlers and the analysis tick are methods the host calls.
- `RealTime.RealTimeBotDetector.RunAnalysis`: the update callback is not modelled. The tick returns what it would pass to the callback (`None` when it passes nothing).
- Clock reads (`performance.now()`, `Date.now()`) are parameters: event timestamps, the page-load time given to the constructor, and the `now` of a result.
- Reads of `navigator`, `window.screen` and `window.chrome` are an `Environment` record. `getBoundingClientRect` is a `Layout` from target to optional click centre. `innerWidth / innerHeight` is an aspect-ratio parameter.
- Event targets are element identities or the `'document'` fallback. The fallback never has a centre.
- IEEE-754 rounding, NaN and infinities are not modelled: numbers are reals. `Math.sqrt` and `Math.atan2` are abstract beyond the range facts of `Motion.Lawful`.
- The static-bot tick result carries a partial feature object in the source (`{speedVariance: 0, hasClickWithoutPrecedingEvents: 1}`). The model marks it as a stub report and keeps only its score and verdict.
- StaticSignals.LowerChar: only ASCII `A`-`Z` are lower-cased, while `toLowerCase` lower-cases all of Unicode (É becomes é). The keyword verdict of `CheckStaticSignals` is still that of the source: the only non-ASCII characters whose lower case contains an ASCII letter are U+0130 (`i` then U+0307) and U+212A (`k`); no keyword contains `k`, and the one `i` of a keyword (in "spider") is followed by `d`, never by U+0307. The model does not state that Unicode table.
- StaticSignals.ToLower: the result keeps the length of its input, while `toLowerCase` can lengthen a string (U+0130 becomes two code points). Containment of an ASCII keyword does not depend on it, for the reason given for `LowerChar`.
- `new Date(value)` in the text field is a foreign parser. Whether it yields a valid date is an input (`dateIsValid`).
- The DOM builders of the text field and the video hero are not part of this model. This covers element creation, classes and the `onChange` listener; the `getValue` accessor is `TextField.TextFieldWidget.GetValue`.
- The `totalDistance` accumulators of both detectors are computed but never read, so they are not modelled.
- The `totalMoveEvents` weight of `BotDetector` (0.01) is declared but never used by its score, so it contributes nothing in the model either.
