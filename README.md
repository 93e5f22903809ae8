# B-Ball-Metrics core, modelled in Dafny

B-Ball-Metrics is a tennis analytics pipeline. This project models the parts of
it that are bookkeeping rather than library calls, and proves properties of them.

- **Serve analysis** (`serve_analyzer.dfy`): ball-candidate detection from contours,
  with a size filter and a greedy 20 px deduplication. Also the frame-by-frame
  trajectory tracker, the serve metrics, and the trajectory smoothness score.
- **Court calibration** (`homography_utils.dfy`): the Hough line-length filter, the
  placeholder corner finder, and the manual demonstration corners. Also the
  two-state `CourtCalibrator` (uncalibrated or calibrated) with its guarded
  transforms, and the ball-speed accumulation.
- **Elo ratings** (`ratings.dfy`): the surface-specific rating store with its
  default rating and its append-only history, plus the chronological replay that
  produces each match's before/after ratings and `elo_diff`.
- **Match features** (`build_features.dfy`): surface-name normalisation,
  head-to-head records kept per unordered player pair, and rolling form over
  each player's earlier matches.
- **Momentum sequences** (`train_momentum.dfy`): per-game running counts, a
  five-game window, the bounded momentum score, and the "server wins the next
  game" target.
- **Player archetypes** (`cluster_archetypes.dfy`): per-player statistics, the
  HDBSCAN acceptance test with its KMeans fallback count, and the if/elif ladder
  that names each cluster.
- **Outcome-model training** (`train_outcome.dfy`): the target column, the
  year-based three-way split, the splits that get metrics, and the importance
  mapping ordered by decreasing importance.
- **Explanations** (`explain.dfy`): the top-ten feature summary and the insight
  list built from an ordered importance mapping.

`wrappers.dfy` holds `Option`, `Result`, `Min` and `Max`. `matches.dfy` holds
the match row shared by the rating and feature builders.

Foreign calls and numeric library code become inputs:

- OpenCV's contours (area, zeroth moment, centroid) and HoughLinesP's segments
  arrive per frame.
- Applying and inverting a homography are functions given by the caller. A
  homography is represented by the corner correspondence it was computed from.
- `sqrt`, `np.linalg.norm` and `10 ** x` are function parameters. The Elo
  exponential has positive values, and the sum-of-expected-scores proof assumes
  `10^(-x) * 10^x = 1`.
- The normal draws of the break-point branch are given per player.
- HDBSCAN's labels (or its failure) and KMeans' labels are given.

The Python code's own state is modelled as state:

- The calibrator and the Elo store are classes whose methods update their fields.
- The loops over contours, candidates, frames, toss points, trajectory triples,
  matches, players, labels and top features are `while` loops in methods. Each is
  proved against a recursive specification function.
- Two loops build a value and are modelled as functions: the `enumerate` loop
  filling the importance dict (src/ml/explain.py:71-72, `ImportanceSummary` via
  `ZipDict`), and the loop over the evaluated splits
  (src/ml/train_outcome.py:143-165, `EvaluatedSplits`).

Integers are exact, and the pixel tests are stated on squared distances:

- `distance < 20` is `dx² + dy² < 400`.
- `length > 200` is `dx² + dy² > 40000`.
- The smoothness test `angle > π/4` on non-zero step vectors is `dot ≤ 0 ∨ 2·dot² < |v1|²·|v2|²`.
  `ServeAnalysis.TurnsSharplyIsCosineTest` proves it equivalent to the cosine test.

Where the source raises, the model returns `None` or `Failure`. This covers the
tracker dereferencing a `None` slot, the transforms of an uncalibrated court, and
a cluster-label list of the wrong length. The model also keeps two behaviours of
the code that a reader might not expect:

- A self-match in `update_ratings` stores the loser's update last.
- Python's `s[-k:]` with `k = 0` keeps the whole list.

## Model

| member | source | states |
|---|---|---|
| ServeAnalysis.BallCentroidsExact | src/cv/serve_analyzer.py:138-167 | a centroid is kept iff it belongs to a contour with 20 < area < 300 and positive mass |
| ServeAnalysis.BallCentroidsAppend | src/cv/serve_analyzer.py:138-167 | the filter commutes with concatenation, so motion centroids precede colour centroids in contour order |
| ServeAnalysis.CentroidsOf | src/cv/serve_analyzer.py:138-146 | the contour loop returns exactly the ball-sized centroids in order |
| ServeAnalysis.DedupSeparated | src/cv/serve_analyzer.py:170-180 | every pair of retained candidates has squared distance at least 400 (distance at least 20) |
| ServeAnalysis.DedupSubsequence | src/cv/serve_analyzer.py:170-182 | the retained candidates are the input at strictly increasing positions (order-preserving subsequence) |
| ServeAnalysis.DedupKeepsFirst | src/cv/serve_analyzer.py:170-182 | a non-empty input keeps its first candidate, first |
| ServeAnalysis.DedupCovers | src/cv/serve_analyzer.py:171-180 | every input candidate is within 20 px of some retained candidate |
| ServeAnalysis.DedupCandidates | src/cv/serve_analyzer.py:169-182 | the nested duplicate-removal loop computes the greedy deduplication |
| ServeAnalysis.DetectBallCandidates | src/cv/serve_analyzer.py:122-182 | motion centroids then colour centroids, deduplicated; the result is 20 px separated |
| ServeAnalysis.NearestIndex | src/cv/serve_analyzer.py:198-199 | `min` by distance: the chosen candidate is no farther than any other and strictly nearer than every earlier one |
| ServeAnalysis.Extrapolate | src/cv/serve_analyzer.py:209-213 | the predicted point continues the last step: same displacement as from second-last to last |
| ServeAnalysis.TrackSlotsSnoc | src/cv/serve_analyzer.py:189-219 | one more frame is one more tracker step, and a raise stays a raise |
| ServeAnalysis.TrackFrame | src/cv/serve_analyzer.py:193-219 | the loop body computes the tracker step; on success it appends exactly one slot and keeps the earlier ones |
| ServeAnalysis.TrackBallTrajectory | src/cv/serve_analyzer.py:184-224 | the frame loop plus the `None` filter give the tracker's result, or None where the source raises |
| ServeAnalysis.PositionsOfAllAt | src/cv/serve_analyzer.py:221-222 | a trajectory without `None` entries passes the filter unchanged |
| ServeAnalysis.TrackFromFirstDetection | src/cv/serve_analyzer.py:189-219 | when the first frame has a candidate the tracker never raises and every frame adds one non-None point |
| ServeAnalysis.TrackLengthFromFirstDetection | src/cv/serve_analyzer.py:184-224 | when the first frame has a candidate the trajectory has exactly one point per frame |
| ServeAnalysis.CrashPersists | src/cv/serve_analyzer.py:195-213 | once a prefix of frames raises, the whole sequence raises |
| ServeAnalysis.TrackTotality | src/cv/serve_analyzer.py:193-219 | the tracker succeeds iff there are no frames, the first frame has a candidate, or there are at most two frames and all are empty |
| ServeAnalysis.StepPicksNearest | src/cv/serve_analyzer.py:193-204 | with candidates and a last point, the appended point is a nearest candidate, earliest on ties |
| ServeAnalysis.ExtrapolationScenario | src/cv/serve_analyzer.py:205-213 | a ball at (100,100), (110,90) then lost for a frame is continued to (120,80) |
| ServeAnalysis.FindTossPeak | src/cv/serve_analyzer.py:236-243 | the toss peak is the first index of the least y among the first 20 points, and minY is its y |
| ServeAnalysis.TossPeakUnique | src/cv/serve_analyzer.py:237-245 | the toss peak is unique and the toss height is never negative |
| ServeAnalysis.DirectionOf | src/cv/serve_analyzer.py:267-273 | unknown iff at most 10 points; right iff more than 10 points and the last x exceeds the first |
| ServeAnalysis.Timestamps | src/cv/serve_analyzer.py:234 | one timestamp per point, starting at 0; at a positive frame rate they increase strictly, by 1/fps per frame |
| ServeAnalysis.TimestampsTotalTime | src/cv/serve_analyzer.py:234 | with these timestamps every step counts toward the speed's total time, so k steps take k/fps seconds |
| ServeAnalysis.BallSpeedNonNegative | src/cv/serve_analyzer.py:250-265 | calibrated or not, the reported speed is never negative given a non-negative square root |
| ServeAnalysis.TurnsSharplyIsCosineTest | src/cv/serve_analyzer.py:303-315 | the integer direction-change test equals "cos ≤ 0 or cos² < 1/2", i.e. angle > 45° |
| ServeAnalysis.DirectionChangesBound | src/cv/serve_analyzer.py:297-315 | at most one change per consecutive triple: changes ≤ n − 2 |
| ServeAnalysis.SmoothnessInUnitInterval | src/cv/serve_analyzer.py:288-321 | smoothness lies in [0,1]; from 3 points it is 1 − c/(n − 2) with 0 ≤ c ≤ n − 2 |
| ServeAnalysis.RepeatedPointIsNoChange | src/cv/serve_analyzer.py:308 | a triple with a zero step vector is never counted |
| ServeAnalysis.ConstantStepNoChanges | src/cv/serve_analyzer.py:297-315 | equal consecutive steps give no direction change |
| ServeAnalysis.StraightLineIsSmooth | src/cv/serve_analyzer.py:317-319 | a constant-step straight trajectory scores exactly 1.0 |
| ServeAnalysis.ZigZagAllChanges | src/cv/serve_analyzer.py:297-315 | non-zero perpendicular consecutive steps count a change at every triple |
| ServeAnalysis.ZigZagIsRough | src/cv/serve_analyzer.py:317-319 | a right-angle zig-zag scores exactly 0.0 |
| ServeAnalysis.EveryTripleTurns | src/cv/serve_analyzer.py:317-319 | a change at every triple gives smoothness 0.0 |
| ServeAnalysis.CalculateTrajectorySmoothness | src/cv/serve_analyzer.py:288-321 | the counting loop returns the smoothness score: 0.0 below three points, else in [0,1] |
| ServeAnalysis.ServeAnalyzer.constructor | src/cv/serve_analyzer.py:18-19 | a fresh analyzer owns a fresh, uncalibrated calibrator holding the court outline |
| ServeAnalysis.ServeAnalyzer.CalibrateCourtFromFrame | src/cv/serve_analyzer.py:114-120 | always succeeds, using the manual demonstration corners and the homography computed from them; the court outline is unchanged |
| ServeAnalysis.ServeAnalyzer.AnalyzeServeMetrics | src/cv/serve_analyzer.py:226-286 | error iff fewer than 3 points; otherwise toss peak, non-negative toss height, contact = peak + 3, speed by calibration state, direction, length, total time and smoothness |
| HomographyUtils.LongLinesExact | src/cv/homography_utils.py:58-66 | a segment is kept iff it is in the input and longer than 200 px |
| HomographyUtils.LongLinesAppend | src/cv/homography_utils.py:59-66 | filtering commutes with concatenation, so kept lines keep their input order |
| HomographyUtils.DetectCourtLines | src/cv/homography_utils.py:55-66 | no Hough output gives no lines; otherwise the loop keeps exactly the long segments |
| HomographyUtils.FindCourtCorners | src/cv/homography_utils.py:72-87 | None iff fewer than 4 lines; otherwise BL, BR, TR, TL at (0.1w,0.8h), (0.9w,0.8h), (0.9w,0.2h), (0.1w,0.2h) |
| HomographyUtils.FindCourtCornersIgnoresGeometry | src/cv/homography_utils.py:78-87 | with at least 4 lines, the corners do not depend on the lines |
| HomographyUtils.FindCourtCornersWellFormed | src/cv/homography_utils.py:80-85 | for a non-empty frame the corners are in canonical order and inside the frame |
| HomographyUtils.ManualCalibrationPoints | src/cv/homography_utils.py:216-228 | BL, BR, TR, TL at 0.15/0.85 of the width and 0.85/0.25 of the height |
| HomographyUtils.ManualCalibrationPointsWellFormed | src/cv/homography_utils.py:221-226 | the manual corners are in canonical order and inside the frame |
| HomographyUtils.ProjectAllAppend | src/cv/homography_utils.py:121-127 | projecting a batch is projecting its parts and concatenating, so points are transformed independently and in order |
| HomographyUtils.CourtCalibrator.constructor | src/cv/homography_utils.py:16-31 | a new calibrator is uncalibrated, has no corners, and holds the court outline |
| HomographyUtils.CourtCalibrator.CalibrateCourt | src/cv/homography_utils.py:89-109 | manual corners win; otherwise the corners come from the line filter. The corners are always overwritten; success iff corners exist; the homography changes only on success |
| HomographyUtils.CourtCalibrator.PixelToCourtCoords | src/cv/homography_utils.py:111-127 | fails iff uncalibrated; otherwise maps each point through the homography |
| HomographyUtils.CourtCalibrator.CourtToPixelCoords | src/cv/homography_utils.py:129-148 | fails when uncalibrated (checked first) or the matrix is singular, and succeeds exactly when calibrated with an invertible matrix, mapping each point through the inverse |
| HomographyUtils.CourtCalibrator.PixelToCourtBatches | src/cv/homography_utils.py:117-127 | transforming a batch is transforming its parts and concatenating |
| HomographyUtils.TotalsNonNegative | src/cv/homography_utils.py:244-255 | accumulated distance and time are never negative |
| HomographyUtils.CourtSpeedNonNegative | src/cv/homography_utils.py:257-263 | the estimated speed is never negative |
| HomographyUtils.NonPositiveStepIgnored | src/cv/homography_utils.py:247-255 | a step with non-positive time difference leaves both the distance and the time total unchanged |
| HomographyUtils.PositiveStepCounted | src/cv/homography_utils.py:247-255 | a step with positive time difference adds its court distance and its duration |
| HomographyUtils.NonPositiveStepsIgnored | src/cv/homography_utils.py:247-255 | when no step has a positive time difference, both totals are 0 |
| HomographyUtils.EstimateBallSpeed | src/cv/homography_utils.py:231-263 | 0 below two positions; fails when uncalibrated; otherwise 3.6 · distance / time over the positive-time steps |
| HomographyUtils.TenfoldScaleSpeed | src/cv/homography_utils.py:247-263 | 10 m in 1/30 s is 1080 km/h |
| Ratings.ExpectedScore | src/features/ratings.py:22-24 | the expected score lies strictly between 0 and 1 |
| Ratings.ExpectedScoresComplementary | src/features/ratings.py:22-24 | the two players' expected scores add up to 1 |
| Ratings.EloUpdate | src/features/ratings.py:34-40 | with K > 0 the winner strictly rises and the loser strictly falls; with K = 0 nothing moves |
| Ratings.EloUpdateConservesSum | src/features/ratings.py:34-40 | an update keeps the sum of the two ratings |
| Ratings.WithRating | src/features/ratings.py:43-44 | the written entry reads the new value and every other (player, surface) entry is unchanged |
| Ratings.TennisEloRating.constructor | src/features/ratings.py:16-20 | K and initial rating as given, an empty table and an empty history |
| Ratings.TennisEloRating.GetRating | src/features/ratings.py:69-71 | a stored entry, or the initial rating for a pair never updated |
| Ratings.TennisEloRating.UpdateRatings | src/features/ratings.py:26-67 | returns the Elo update of the two old ratings; writes only the two entries (loser last); appends the winner's then the loser's record |
| Ratings.EloTableLength | src/features/ratings.py:96-115 | one Elo row per match |
| Ratings.EloTableRow | src/features/ratings.py:102-115 | row i is computed from the ratings left by matches 0..i−1 |
| Ratings.RatingHistoryLength | src/features/ratings.py:47-65 | the history holds exactly two records per match |
| Ratings.RatingHistorySnoc | src/features/ratings.py:47-65 | a match appends its two records after the earlier history |
| Ratings.RatingHistoryRecords | src/features/ratings.py:47-65 | record 2i is match i's winner record and 2i+1 its loser record, matching row i |
| Ratings.EloRowInvariants | src/features/ratings.py:103-122 | elo_diff is winner-before minus loser-before, both read before the update; with K > 0 the winner gains and the loser loses |
| Ratings.UninvolvedKeepsInitial | src/features/ratings.py:26-44 | a player who never plays on a surface still reads the initial rating there |
| Ratings.ComputeEloRatings | src/features/ratings.py:79-122 | the loop produces the replay's Elo rows and the store's history |
| BuildFeatures.TitleFrom | src/features/build_features.py:72 | title-casing keeps the length and which characters are letters |
| BuildFeatures.TitleFromIdempotent | src/features/build_features.py:72 | title-casing twice is title-casing once |
| BuildFeatures.NormalizeSurface | src/features/build_features.py:71-80 | the result is Hard, Clay or Grass; Clay (Grass) iff the title-cased value is Clay (Grass) |
| BuildFeatures.NormalizeSurfaceExamples | src/features/build_features.py:72-80 | "clay" → Clay, "GRASS" → Grass, Carpet → Hard, missing → Hard |
| BuildFeatures.NormalizeSurfaceIdempotent | src/features/build_features.py:72-80 | normalising a normalised surface changes nothing |
| BuildFeatures.Key | src/features/build_features.py:184 | the key is the sorted pair of the two ids |
| BuildFeatures.KeySymmetric | src/features/build_features.py:184 | (a,b) and (b,a) share one key |
| BuildFeatures.MeetingsWonBound | src/features/build_features.py:190-196 | head-to-head wins never exceed meetings |
| BuildFeatures.MeetingsWonPartition | src/features/build_features.py:186-205 | two distinct players' head-to-head wins add up to their meetings |
| BuildFeatures.Pct | src/features/build_features.py:198-201 | the win share is in [0,1] and 0.5 with no meeting |
| BuildFeatures.H2HRowConsistent | src/features/build_features.py:190-201 | losses = matches − wins, 0 ≤ wins ≤ matches, share in [0,1], 0.5 without a meeting |
| BuildFeatures.RecordsInsert | src/features/build_features.py:186-187 | a new pair's zero record agrees with the count of earlier meetings |
| BuildFeatures.RecordsStep | src/features/build_features.py:203-205 | counting the match (matches + 1, only the winner's wins + 1) gives the records of one more match |
| BuildFeatures.HeadToHeadStep | src/features/build_features.py:180-205 | the row is the pair's record before the match, and the records then count the match |
| BuildFeatures.AddHeadToHeadFeatures | src/features/build_features.py:162-207 | one row per match, each from the pair's meetings strictly before it |
| BuildFeatures.WithinHorizon | src/features/build_features.py:242-243 | an entry is kept iff it is at most 365 days old |
| BuildFeatures.TailSlice | src/features/build_features.py:243 | Python `s[-k:]` is always a suffix of `s`: of length min(k, len(s)) for k > 0, the whole list for k = 0, and len(s) − min(−k, len(s)) for k < 0 |
| BuildFeatures.OnSurface | src/features/build_features.py:247-249 | an entry is kept iff it is on the surface; no more entries and no more wins than the input |
| BuildFeatures.FormOf | src/features/build_features.py:241-257 | wins ≤ matches ≤ window, surface counts ≤ overall counts, shares in [0,1], 0.5 on an empty denominator |
| BuildFeatures.RecentWithinHorizon | src/features/build_features.py:242-243 | every counted entry comes from the history and lies within 365 days |
| BuildFeatures.HistoryCounts | src/features/build_features.py:277-290 | a history has one entry per match played and its won entries are the wins |
| BuildFeatures.HistoryAt | src/features/build_features.py:277-290 | a match adds a won entry to the winner's history and a lost entry to the loser's |
| BuildFeatures.RollingFormStep | src/features/build_features.py:230-290 | the row is both players' form before the match, and the histories then include it |
| BuildFeatures.AddRollingFormFeatures | src/features/build_features.py:211-292 | one row per match, each from both players' earlier matches |
| TrainMomentum.GamesWon | src/ml/train_momentum.py:108-109 | a player's game count never exceeds the games played |
| TrainMomentum.GamesWonSplit | src/ml/train_momentum.py:108-110 | p1 + p2 games ≤ games, with equality when every winner is 0 or 1 |
| TrainMomentum.MomentumScore | src/ml/train_momentum.py:125-129 | the score lies in [−1,1] and is positive iff player 1 won more recent games |
| TrainMomentum.RecentGames | src/ml/train_momentum.py:112-115 | the window holds min(i + 1, 5) games and ends with the current game |
| TrainMomentum.MatchRows | src/ml/train_momentum.py:104-137 | no rows below 5 games; otherwise one row per game but the last |
| TrainMomentum.KeptRowsHaveTargets | src/ml/train_momentum.py:131-137 | row i's target is "winner == server" of game i+1 |
| TrainMomentum.RowCounts | src/ml/train_momentum.py:107-129 | total = p1 + p2 ≤ i+1 (= i+1 when winners are 0/1); recent counts ≤ 5; score in [−1,1] |
| TrainMomentum.BreakPointsRunningTotals | src/ml/train_momentum.py:117-123 | the break-point columns are running totals, or all 0 without the column |
| TrainMomentum.ShortMatchesOnly | src/ml/train_momentum.py:104-105 | matches all shorter than 5 games give no rows |
| TrainMomentum.AllRowsHaveTargets | src/ml/train_momentum.py:131-139 | every row of the result has a target |
| TrainMomentum.CreateMomentumSequences | src/ml/train_momentum.py:94-147 | the loop over matches concatenates every match's rows, skipping short matches |
| TrainMomentum.Targets | src/ml/train_momentum.py:172-178 | the filtered targets are 0/1 and no more than the rows |
| TrainMomentum.TargetsKeepAll | src/ml/train_momentum.py:175-178 | with every target present the filter drops nothing, and row i's target is 1 exactly when the server won the next game |
| TrainMomentum.TargetFilterKeepsEverything | src/ml/train_momentum.py:172-178 | on the built sequences the missing-target filter keeps every row |
| ClusterArchetypes.PlayerMatches | src/ml/cluster_archetypes.py:38-40 | a match is selected iff the player won or lost it |
| ClusterArchetypes.WonBy | src/ml/cluster_archetypes.py:47 | the wins never exceed the matches |
| ClusterArchetypes.Share | src/ml/cluster_archetypes.py:48 | the win share lies in [0,1] |
| ClusterArchetypes.SurfaceStat | src/ml/cluster_archetypes.py:51-60 | the surface share lies in [0,1]; a surface never played gets 0.5 and 0 matches |
| ClusterArchetypes.RecentForm | src/ml/cluster_archetypes.py:88-91 | the share over the last at most 20 matches, in [0,1]; 0.5 without matches |
| ClusterArchetypes.BigMatches | src/ml/cluster_archetypes.py:85 | the G/M/A count never exceeds the matches |
| ClusterArchetypes.BigMatchPctAsWrittenWithoutColumn | src/ml/cluster_archetypes.py:85-86 | as written, with no tourney_level column every player's share is 1.0 |
| ClusterArchetypes.BigMatchPct | src/ml/cluster_archetypes.py:85-86 | the corrected share: in [0,1], 0 without the column, as written with it |
| ClusterArchetypes.Clamp01 | src/ml/cluster_archetypes.py:103-104 | the clamp lands in [0,1] and keeps values already there |
| ClusterArchetypes.StyleEstimatesWithoutBreakPoints | src/ml/cluster_archetypes.py:78-81 | without break-point data, hold is in [0.625,0.775] and return in [0.125,0.275] |
| ClusterArchetypes.Appearances | src/ml/cluster_archetypes.py:27-29 | winners then losers: two appearances per match |
| ClusterArchetypes.DistinctIds | src/ml/cluster_archetypes.py:29-31 | distinct ids, containing exactly the ids that appear |
| ClusterArchetypes.OnSurface | src/ml/cluster_archetypes.py:52-53 | a match is kept iff it is one of the player's matches on that surface; no more matches than the input |
| ClusterArchetypes.PlayerStatsOf | src/ml/cluster_archetypes.py:37-111 | no row iff fewer than 10 matches; a row has the player's id and match count, and all shares and rates in [0,1] |
| ClusterArchetypes.PlayerStatsBigMatchShare | src/ml/cluster_archetypes.py:85-86 | a row carries the corrected big-match share: the as-written share when `tourney_level` exists, 0 where the code as written gives 1.0 |
| ClusterArchetypes.StatsForProperties | src/ml/cluster_archetypes.py:31-111 | at most one row per listed player: every row is valid and belongs to a listed player, and no player appears twice |
| ClusterArchetypes.StatsForOwnRows | src/ml/cluster_archetypes.py:31-111 | every row is exactly the statistics computed for the player whose id it carries |
| ClusterArchetypes.StatsForComplete | src/ml/cluster_archetypes.py:31-43 | every listed player with at least 10 matches has a row |
| ClusterArchetypes.StatsWithoutBreakPoints | src/ml/cluster_archetypes.py:78-104 | without break-point data every row's hold is ≤ 0.775 and its return ≤ 0.275 |
| ClusterArchetypes.CalculatePlayerStatistics | src/ml/cluster_archetypes.py:19-116 | the loop over the distinct player ids yields valid rows, each one the statistics of its own player; no player has two rows, and every player with at least 10 matches has one |
| ClusterArchetypes.MinClusterSize | src/ml/cluster_archetypes.py:189 | `max(5, n // 20)`: at least 5 and at least n // 20 |
| ClusterArchetypes.KMeansClusterCount | src/ml/cluster_archetypes.py:209 | the fallback count lies in [3,6] |
| ClusterArchetypes.LabelSet | src/ml/cluster_archetypes.py:197 | the set of labels holds exactly the labels that occur |
| ClusterArchetypes.ClusterCount | src/ml/cluster_archetypes.py:197 | the number of distinct non-noise labels |
| ClusterArchetypes.NoiseCount | src/ml/cluster_archetypes.py:198 | the noise count is 0 iff −1 does not occur |
| ClusterArchetypes.HdbscanAcceptedExact | src/ml/cluster_archetypes.py:197-201 | HDBSCAN is accepted iff there are points, at least 2 clusters, and 2·noise ≤ n |
| ClusterArchetypes.PerformClustering | src/ml/cluster_archetypes.py:181-215 | HDBSCAN's labels iff it succeeded and was accepted; otherwise KMeans with the fallback count in [3,6] |
| ClusterArchetypes.Archetype | src/ml/cluster_archetypes.py:246-258 | each label iff its test is the first one to hold, in ladder order; never "Unique Style" |
| ClusterArchetypes.Members | src/ml/cluster_archetypes.py:235-238 | a cluster's members come from the table, and an occurring label has at least one |
| ClusterArchetypes.MembersExact | src/ml/cluster_archetypes.py:235-238 | the members are exactly the rows labelled c, one entry per such row, which fixes the means the label is chosen from |
| ClusterArchetypes.MeanBound | src/ml/cluster_archetypes.py:241-244 | a cluster mean never exceeds a bound that holds for every member |
| ClusterArchetypes.LabelFor | src/ml/cluster_archetypes.py:230-260 | "Unique Style" iff the cluster is noise |
| ClusterArchetypes.NoServeOrReturnArchetypes | src/ml/cluster_archetypes.py:241-250 | with hold ≤ 0.775 and return ≤ 0.275 everywhere, no cluster is a Serve Cannon or an Aggressive Returner |
| ClusterArchetypes.AssignArchetypeLabels | src/ml/cluster_archetypes.py:218-263 | None iff the lengths differ; otherwise one map entry per distinct label, each the cluster's label, and every row gets its cluster's label |
| TrainOutcome.Target | src/ml/train_outcome.py:23 | target is 1 iff elo_diff is present and positive, else 0 |
| TrainOutcome.Targets | src/ml/train_outcome.py:66-69 | one 0/1 target per row, so the missing-target filter keeps every row |
| TrainOutcome.SplitOf | src/ml/train_outcome.py:82-85 | train iff year ≤ 2022, val iff 2023, test iff ≥ 2024, none iff no year |
| TrainOutcome.IndicesOf | src/ml/train_outcome.py:87-89 | ascending positions into the sorted frame, exactly the rows of the split |
| TrainOutcome.TemporalSplitsPartition | src/ml/train_outcome.py:83-89 | the three splits are pairwise disjoint and cover exactly the rows with a year |
| TrainOutcome.SplitSizes | src/ml/train_outcome.py:83-89 | the split sizes add up to the number of rows with a year |
| TrainOutcome.EvaluatedSplits | src/ml/train_outcome.py:143-145 | a split gets metrics iff it is non-empty, in train, val, test order |
| TrainOutcome.Put | src/ml/train_outcome.py:176 | dict assignment: a new key goes last, a present key is updated in place |
| TrainOutcome.DictOf | src/ml/train_outcome.py:176 | building a dict gives distinct keys, exactly the keys of the pairs |
| TrainOutcome.DictOfDistinct | src/ml/train_outcome.py:176 | pairs with distinct keys come out of the dict unchanged and in order |
| TrainOutcome.ZipDict | src/ml/train_outcome.py:176 | distinct keys, exactly the names up to the shorter list |
| TrainOutcome.ZipDictDistinct | src/ml/train_outcome.py:176 | with distinct names the dict is the zipped pairs in order |
| TrainOutcome.DictOfLast | src/ml/train_outcome.py:176 | every dict entry is the last pair assigned to its key |
| TrainOutcome.ZipDictValues | src/ml/train_outcome.py:176 | each name carries the score at its last position among the zipped pairs |
| TrainOutcome.Insert | src/ml/train_outcome.py:179-180 | insertion adds exactly the one entry (as a multiset) |
| TrainOutcome.InsertSorted | src/ml/train_outcome.py:179-180 | inserting into an ordered mapping keeps it ordered |
| TrainOutcome.InsertKeys | src/ml/train_outcome.py:179-180 | inserting a new key keeps the keys distinct and adds just that key |
| TrainOutcome.SortByImportance | src/ml/train_outcome.py:179-180 | the result is ordered by non-increasing importance and is a permutation of the input |
| TrainOutcome.SortKeepsKeys | src/ml/train_outcome.py:179-180 | sorting keeps the length and the key set, and keeps keys distinct |
| TrainOutcome.SortSortedIsIdentity | src/ml/train_outcome.py:179-180 | an already-ordered mapping is unchanged, ties included |
| TrainOutcome.FeatureImportance | src/ml/train_outcome.py:172-182 | ordered by non-increasing importance, distinct keys, exactly the named scores; as a multiset it equals the zipped dict, so every name keeps its score |
| Explain.ImportanceSummary | src/ml/explain.py:70-79 | ordered by non-increasing importance, distinct keys, exactly the columns; every entry pairs a column with its importance (the last one for a repeated column) |
| Explain.TopFeatures | src/ml/explain.py:83 | the first min(10, n) keys of the mapping, in order |
| Explain.TopFeaturesAreMostImportant | src/ml/explain.py:75-83 | no feature outside the top ten is more important than one inside it |
| Explain.SummaryOfDistinctColumns | src/ml/explain.py:70-83 | distinct columns give one entry each, each column with its own importance, and min(10, n) top features |
| Explain.ExplanationExamples | src/ml/explain.py:154-197 | known features get their canned text; unknown ones "Feature: <name>" |
| Explain.RankedInsights | src/ml/explain.py:195-199 | the first k features as ranked insights with ranks 1..k |
| Explain.KeyFactors | src/ml/explain.py:195-205 | the first k features as key factors with ranks 1..k, in mapping order |
| Explain.RankTopFeatures | src/ml/explain.py:194-205 | the loop produces the ranked insights and key factors of the first min(3, n) features |
| Explain.AddGeneralInsights | src/ml/explain.py:207-215 | the three conditional insights are appended after the ranked ones, in order |
| Explain.GenerateExplanationInsights | src/ml/explain.py:180-222 | failure gives exactly the failure insight and no key factors; success gives min(3, n) key factors, the insight list, complexity (default 0) and quality high iff ≥ 3 insights |
| Explain.GeneralInsightConditions | src/ml/explain.py:207-215 | Elo insight iff elo_diff's importance > 0.1; recent / h2h insight iff a top-five name contains the substring |
| Explain.QualityRules | src/ml/explain.py:221 | at least three features always give at least three insights; count = min(3, n) + general ones (≤ 3) |
| Explain.EmptyMappingHasNoInsights | src/ml/explain.py:186-215 | an empty mapping gives no insight at all |
| Explain.RecentFeatureInTopFive | src/ml/explain.py:211-212 | a "winner_recent_win_pct" among the first five brings the recent-form insight |

## Left out

- OpenCV image processing is not modelled: MOG2 background subtraction, morphology, HSV masks, Canny and HoughLinesP. Contours and segments are inputs.
- The homography linear algebra is not modelled: getPerspectiveTransform, the matrix inverse and perspectiveTransform. It is an abstract projection with no round-trip claim.
- `sqrt`, `np.linalg.norm` and `10 ** x` are function parameters. Float rounding, `float32` storage, `round(...)` in the metrics and smoothness, and the `:.3f` text are left out. Reals are exact.
- ServeAnalysis.TurnsSharplyIsCosineTest: the angle test is exact over the reals, so a turn of exactly 45° is not a change. An example is the step (1,0) followed by (1,1), where 2·dot² = |v1|²·|v2|². The float `arccos` at src/cv/serve_analyzer.py:309-314 probably lands just above π/4 there and counts a change (not executed).
- Python's `int(M['m10'] / M['m00'])` centroid truncation happens inside OpenCV's moments step. The centroid is an input.
- Video loading, synthetic frames, drawing, GIF creation and the batch `analyze_all_serves` are left out. They are I/O and rendering.
- save_calibration/load_calibration are JSON persistence and are not modelled.
- The pandas `sort_values('date')` steps are not modelled, because they are library sorts. These are in `compute_elo_ratings`, both feature builders, `create_temporal_splits` and the recent-form tail. Those operations take their rows already in date order.
- Momentum input arrives grouped by match, in first-appearance order, with each match's games sorted by game number.
- NaN player ids (skipped at src/ml/cluster_archetypes.py:32-33) are not representable, because ids are integers.
- Other pandas and NumPy plumbing is not modelled: the median fill, label encoders, DataFrame assembly and `create_current_ratings_table`.
- Gradient boosting, CatBoost, UMAP, the HDBSCAN and KMeans fitting, SHAP values and the sklearn metrics are not modelled. Their outputs (labels, importances, model complexity) are inputs.
- The `np.random.normal` draws of the break-point branch are a per-player input.
- The caching decorators, logging `print`s and file saving are left out.
- ClusterArchetypes.PlayerStatsOf: the row's big-match share is the corrected `BigMatchPct`. Without a `tourney_level` column that is 0.0, where src/ml/cluster_archetypes.py:85-86 as written gives 1.0 (see Findings and `PlayerStatsBigMatchShare`). With the column the two agree.
- ClusterArchetypes.CalculatePlayerStatistics: inherits that substitution, so without a `tourney_level` column its rows carry 0.0, not the as-written 1.0.
- TrainMomentum.MatchRows: one flag stands for both break-point columns. src/ml/train_momentum.py:117-123 tests only `break_points_faced`, then reads `break_points_saved`, which raises KeyError when only the first column exists. That error path is not modelled.
- BuildFeatures.TitleFrom: only ASCII `str.title` is modelled. Python title-cases all of Unicode and can change the length, for example 'ß' becomes 'Ss'.
- ClusterArchetypes.AssignArchetypeLabels: the loop visits labels in row order rather than `sorted(set(...))`. Each label's value depends only on the table, so the resulting map is the same; the visit order is not modelled.
- TrainOutcome.SortByImportance: stability is proved only for already-ordered input (`SortSortedIsIdentity`). The general "equal importances keep their order" property is not stated.
- ServeAnalysis.ServeAnalyzer.AnalyzeServeMetrics: `toss_height_pixels` is not passed through `int(...)`, which is the identity on integer pixels. The `round` calls are left out.
- Explain.GenerateExplanationInsights: insights are values (rank, text, importance), not the formatted sentences.

## Findings

| source | as written | input that shows it | evidently intended | confidence | as-written member | corrected member |
|---|---|---|---|---|---|---|
| src/ml/cluster_archetypes.py:85-86 | without a `tourney_level` column the selector is `player_matches[[]]`, which selects no columns but keeps every row, so `big_match_pct = total / total` | a match table without `tourney_level`; any player with 10 or more matches | a zero share when the tournament level is not recorded | not executed | ClusterArchetypes.BigMatchPctAsWrittenWithoutColumn | ClusterArchetypes.BigMatchPct |
