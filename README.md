# Composition analysis and coaching, modelled in Dafny

This project models the analysis and coaching engine under `src/cv/` of a
photo-composition assistant. The engine has three layers.

* **Rule analyzers** turn image features into bounded scores:
  * rule-of-thirds and golden-ratio (phi) grid proximity (`thirds.ts`, `phi.ts`);
  * golden-spiral edge fitting (`spiral.ts`);
  * vertical-symmetry IoU against a mirrored, column-rolled copy of the edge map (`symmetry.ts`);
  * diagonal band density (`diagonal.ts`);
  * horizon estimation by a length-weighted mean of near-horizontal segments (`horizon.ts`);
  * vanishing-point estimation by two-line RANSAC (`leading.ts`).
* **The scorer** (`scoring.ts`) blends the analyzer outputs into seven scores
  between 0 and 100. It sorts them by score and then by key, and filters the
  top matches.
* **The coach** (`coach.ts`) turns the analyzer outputs into at most three
  prioritised pan or rotate nudges.

The OpenCV products are inputs to the model:
* the edge map is a two-dimensional `array2<byte>` (`Edges`);
* the Hough segments are a `seq<Segment>` of integer 4-tuples (`Segments`);
* the `Math.random()` draws of the RANSAC loop are a sequence of pairs in
  [0, 1) (`Leading.Draw`).

JavaScript numbers are modelled as `real`. `Math.exp`, `Math.sqrt`, `Math.sin`,
`Math.cos` and `Math.atan2` are function-valued fields of a `MathLib` record
(`Numeric`). The proofs rely only on the laws stated about them:
* `ExpLaws`: `exp(0) = 1`, and `0 < exp(t) <= 1` for `t <= 0`;
* `SqrtLaws`: `sqrt` returns the non-negative root;
* `SinAtan2Law`: `sin(atan2(dy, dx)) * hypot(dx, dy) = dy`.

Length and distance thresholds (`len < 40`, `len < 30`, `dist > 0.03`) compare
the `Math.hypot` value itself, `Hypot(m.sqrt, ·)`, as the source does. Lemmas
then restate them on squared lengths: `Segments.LengthAtLeast`,
`Leading.CandidateIff`, `Coach.SpiralSpec`. Squared distances appear in two places:
* the nearest-point searches of `thirds.ts`, `phi.ts` and the coach
  (`Geometry.NearestAmong`), where the coach's `bestD = 9` becomes the bound 81;
* the `kept` sort of `leading.ts`, ordered by `lq - lp`, which `Leading.Kept`
  keys by the squared length (`Leading.LineKey`).

`Numeric.SqrtMonotone` shows that both give the same choice and the same order.

Modules follow the source:
* `Thirds`, `Phi` and their shared `Grid`;
* `Spiral`, with the generic counting helpers of `Edges`;
* `Symmetry`, with `Roll` (`rollCols`), `Bitwise` (pixel AND/OR) and `Argmax`;
* `Diagonal`, with the strided loops of `Sampling`;
* `Horizon` and `Leading`, on the segment helpers of `Segments`;
* `Scoring` and `Coach`, on the result records of `Types` and the stable sort of `Sorting`.

Loops in the source are `method`s with loop invariants. Each is proved equal to
a specification function, and the properties are lemmas about those functions.
`rollCols`' region copies work on arrays in place.

## Model

| member | source | states |
|---|---|---|
| Numeric.Clamp | src/cv/analyzers/spiral.ts:3-4 | `Math.max(lo, Math.min(hi, v))` lies in [lo, hi], is `v` inside the range and the nearer bound outside it |
| Numeric.Clamp01 | src/cv/coach.ts:25 | `clamp01` lies in [0, 1], is the identity on [0, 1], 0 below and 1 above |
| Numeric.ClampMirror | src/cv/analyzers/spiral.ts:18-24 | clamping to [0, 1] commutes with the mirror `v ↦ 1 − v` |
| Numeric.ClampInt | src/cv/analyzers/spiral.ts:48-51 | the integer clamp of a window bound lies in [lo, hi] and is the identity inside |
| Numeric.Round | src/cv/analyzers/symmetry.ts:30 | `Math.round` returns the integer within half a unit below or strictly less than half above |
| Numeric.JsRem | src/cv/analyzers/symmetry.ts:68 | JavaScript `%` truncates: the remainder lies strictly between −b and b, is Euclidean for a non-negative dividend and non-positive for a negative one |
| Numeric.SqrtMonotone | src/cv/analyzers/thirds.ts:26-27 | comparing square roots is comparing their arguments, so the hypot comparison and the squared-distance comparison agree |
| Numeric.HypotCompare | src/cv/coach.ts:137-138 | a hypot is above or below a constant `c ≥ 0` exactly when the squared length is above or below `c²` |
| Geometry.FindNearest | src/cv/analyzers/thirds.ts:24-31 | the search loop computes `NearestAmong`, the fold over the targets in list order |
| Geometry.NearestAmongSpec | src/cv/analyzers/thirds.ts:24-31 | the initial state survives when no target beats its bound; otherwise the result is the first target at minimal distance, with its squared distance |
| Geometry.NearestFromInfinity | src/cv/analyzers/thirds.ts:24-31 | from `bestD = Infinity`, a non-empty list always yields its first nearest target |
| Segments.LengthSquared | src/cv/analyzers/horizon.ts:17 | a segment's `Math.hypot` length is non-negative and its square is the squared length |
| Segments.LengthAtLeast | src/cv/analyzers/horizon.ts:18 | `!(len < c)` holds exactly when the squared length is at least `c²` |
| Segments.NearHorizontalIff | src/cv/analyzers/horizon.ts:20-21 | for a segment of positive length, `|sin(atan2(dy, dx))| < 0.2` holds exactly when `25·dy² < dx² + dy²` |
| Edges.Hit | src/cv/analyzers/spiral.ts:56 | `ucharAt(y, x) > 0 ? 1 : 0` is 1 exactly for a non-zero pixel |
| Edges.RowHits | src/cv/analyzers/spiral.ts:55-58 | the edge count of a row segment is at most the number of its pixels |
| Edges.RectHits | src/cv/analyzers/spiral.ts:54-59 | the edge count of a rectangle is at most its area |
| Edges.CountRow | src/cv/analyzers/symmetry.ts:42-43 | `countNonZero` of a row is at most its length |
| Sampling.RowsBound | src/cv/analyzers/diagonal.ts:13-21 | the strided loops keep `sum <= cnt` |
| Sampling.Density | src/cv/analyzers/diagonal.ts:22 | `cnt > 0 ? sum / cnt : 0` lies in [0, 1] when `sum <= cnt`, is 0 without samples or edges, and 1 when every sample is an edge |
| Sampling.SampleRow | src/cv/analyzers/diagonal.ts:14-20 | the inner loop adds the tally of row `y` at the columns `0, step, 2 step, …`, reading only pixels inside the map |
| Sampling.RowStep | src/cv/analyzers/diagonal.ts:15-19 | one sample adds an edge and a count when it is in the band and nothing otherwise |
| Sampling.SampleRows | src/cv/analyzers/diagonal.ts:13-21 | the two strided loops compute the tally of the rows `0, step, …` and end with `sum <= cnt` |
| Diagonal.Band | src/cv/analyzers/diagonal.ts:6 | the band half-width is at least 1 and at least the rounded 1% of the shorter side |
| Diagonal.Step | src/cv/analyzers/diagonal.ts:12 | the sampling stride is at least 1 and at least `floor(min(W, H) / 512)` |
| Diagonal.BandDensity | src/cv/analyzers/diagonal.ts:8-23 | `bandDensity(tlbr)` computes the density of the band's samples, in [0, 1] |
| Diagonal.BandDensityBounds | src/cv/analyzers/diagonal.ts:22 | the density of either band lies in [0, 1] |
| Diagonal.DiagonalOf | src/cv/analyzers/diagonal.ts:3-29 | the value `scoreDiagonal` returns; its properties are the contracts of `Diagonal.ScoreDiagonal` and `Diagonal.ZeroMapDiagonal` |
| Diagonal.ScoreDiagonal | src/cv/analyzers/diagonal.ts:3-29 | the score is the larger of the two densities, in [0, 1]; `best` is TLBR exactly when the TLBR density is at least the TRBL one |
| Diagonal.ZeroMapDiagonal | src/cv/analyzers/diagonal.ts:17-28 | a map without edges scores 0 and the tie goes to TLBR |
| Grid.GaussianScore | src/cv/analyzers/thirds.ts:5-7 | `exp(−d²/s²)`; its range and its value at 0 are stated by `Grid.GaussianBounds` and `Grid.GaussianAtZero` |
| Grid.GaussianBounds | src/cv/analyzers/thirds.ts:5-7 | `gaussianScore` lies in (0, 1] |
| Grid.GaussianAtZero | src/cv/analyzers/thirds.ts:5-7 | distance 0 scores exactly 1 |
| Grid.LineDistance | src/cv/analyzers/thirds.ts:40 | the horizon distance is the smaller of the distances to the two lines |
| Grid.BlendBounds | src/cv/analyzers/thirds.ts:44-49 | the 0.6/0.4 blend, or the single present score, lies between the two scores and in [0, 1] |
| Grid.NearestIndex | src/cv/analyzers/thirds.ts:24-31 | the selected index, if any, is a valid target index |
| Grid.GridOf | src/cv/analyzers/thirds.ts:9-52 | the value `scoreThirds` and `scorePhi` return; its properties are the contracts of `Grid.GridAbsent`, `Grid.GridBestNearest`, `Grid.GridBounds` and `Grid.GridOnPoint` |
| Grid.ScoreGrid | src/cv/analyzers/thirds.ts:9-52 | the shared body of `scoreThirds` and `scorePhi` computes `GridOf` |
| Grid.GridAbsent | src/cv/analyzers/thirds.ts:20-49 | no subject gives subject score 0 and no best point; no horizon gives horizon score 0; neither gives overall 0 |
| Grid.GridBestNearest | src/cv/analyzers/thirds.ts:23-31 | with a subject, `best` is the first grid point at minimal distance |
| Grid.GridBounds | src/cv/analyzers/thirds.ts:32-49 | all three scores lie in [0, 1], and a present subject or horizon scores above 0 |
| Grid.GridOnPoint | src/cv/analyzers/thirds.ts:32-35 | a subject exactly on a grid point scores 1 |
| Thirds.ScoreThirds | src/cv/analyzers/thirds.ts:9-52 | `scoreThirds` computes `ThirdsOf` |
| Thirds.ThirdsBestNearest | src/cv/analyzers/thirds.ts:13-31 | `best` is one of the four thirds points, none is strictly closer, and ties go to the earliest |
| Thirds.ThirdsAbsent | src/cv/analyzers/thirds.ts:20-49 | no subject gives 0 and no best point, no horizon gives 0, neither gives overall 0 |
| Thirds.ThirdsOnPoint | src/cv/analyzers/thirds.ts:32-35 | a subject exactly on a thirds point scores 1 |
| Thirds.ThirdsBounds | src/cv/analyzers/thirds.ts:32-49 | all scores lie in [0, 1] and `overall` lies between the subject and horizon scores |
| Phi.Golden | src/cv/analyzers/phi.ts:2 | `GOLDEN` is at least 1/2 |
| Phi.PhiPoints | src/cv/analyzers/phi.ts:14-21 | the targets are the four combinations of `a` and `b` |
| Phi.PhiLines | src/cv/analyzers/phi.ts:14-15 | `b = 1 − a` and `0 < b < 1/2 < a < 1` |
| Phi.ScorePhi | src/cv/analyzers/phi.ts:10-59 | `scorePhi` computes `PhiOf` |
| Phi.PhiBestNearest | src/cv/analyzers/phi.ts:26-39 | `best` is the first golden point at minimal distance |
| Phi.PhiAbsent | src/cv/analyzers/phi.ts:23-56 | no subject gives 0 and no best point, no horizon gives 0, neither gives overall 0 |
| Phi.PhiOnPoint | src/cv/analyzers/phi.ts:35-38 | a subject exactly on a golden point scores 1 |
| Phi.PhiBounds | src/cv/analyzers/phi.ts:35-56 | all scores lie in [0, 1] and `overall` lies between the subject and horizon scores |
| Horizon.Qualifying | src/cv/analyzers/horizon.ts:9-25 | the qualifying segments are segments of the input that pass both filters |
| Horizon.Entries | src/cv/analyzers/horizon.ts:9-25 | every pushed weight is at least 40 |
| Horizon.CollectHorizontal | src/cv/analyzers/horizon.ts:9-25 | the filtering loop builds `horiz` as `Entries` |
| Horizon.EntriesOfQualifying | src/cv/analyzers/horizon.ts:18-24 | each qualifying segment contributes its own entry, in order, and nothing else contributes |
| Horizon.QualifyingCount | src/cv/analyzers/horizon.ts:18-24 | a qualifying segment contributes as often as it occurs; a non-qualifying one never does |
| Horizon.SumWAtLeast | src/cv/analyzers/horizon.ts:28 | `sumW` is at least 40 per entry, so it is positive when there is an entry |
| Horizon.SumYWBetween | src/cv/analyzers/horizon.ts:29 | the weighted sum lies between the lowest and highest height times the total weight |
| Horizon.HorizonOf | src/cv/analyzers/horizon.ts:9-32 | the value `estimateHorizon` returns from the segments; its properties are the contracts of `Horizon.HorizonDefault`, `Horizon.HorizonConfidence`, `Horizon.HorizonBetween` and `Horizon.HorizonHeight` |
| Horizon.EstimateHorizon | src/cv/analyzers/horizon.ts:2-36 | `estimateHorizon` after `HoughLinesP` computes `HorizonOf` |
| Horizon.HorizonDefault | src/cv/analyzers/horizon.ts:18-26 | no segment qualifies exactly when there are no entries; then the result is `{y: 0.5, conf: 0}`, and otherwise `conf > 0` |
| Horizon.HorizonConfidence | src/cv/analyzers/horizon.ts:31 | `conf = clamp(sumW / (2·cols), 0, 1)`, in [0, 1] |
| Horizon.HorizonBetween | src/cv/analyzers/horizon.ts:28-32 | the pixel height lies between the lowest and highest midpoint of the qualifying segments |
| Horizon.HorizonHeight | src/cv/analyzers/horizon.ts:32 | the returned height is the weighted mean divided by the row count |
| Horizon.MeanBetween | src/cv/analyzers/horizon.ts:28-29 | a length-weighted mean lies between the least and greatest height |
| Leading.Candidates | src/cv/analyzers/leading.ts:15-39 | `arr` has at most one line per segment, each built from an input segment |
| Leading.CollectCandidates | src/cv/analyzers/leading.ts:15-39 | the filtering loop builds `arr` as `Candidates` |
| Leading.NormalLength | src/cv/analyzers/leading.ts:29-32 | the normal `(a, b)` before scaling is as long as the segment |
| Leading.CandidateIff | src/cv/analyzers/leading.ts:21-33 | a segment is a candidate exactly when its squared length is at least 900 and `25·dy² ≥ dx² + dy²`; the zero-norm guard never rejects a segment that passed the length test |
| Leading.UnitNormal | src/cv/analyzers/leading.ts:32-36 | a candidate's normal has unit length, so `|a·x + b·y + c|` is a distance in pixels |
| Leading.EndPointsOnLine | src/cv/analyzers/leading.ts:29-38 | both end points of a candidate's segment lie on its line |
| Leading.HorizonDisjoint | src/cv/analyzers/leading.ts:24-27 | a segment the horizon estimator uses is never a leading-lines candidate |
| Leading.Pick | src/cv/analyzers/leading.ts:53-54 | `(Math.random() * n) \| 0` is a valid index |
| Leading.Inliers | src/cv/analyzers/leading.ts:65-69 | the inlier count never exceeds the number of candidates |
| Leading.CountInliers | src/cv/analyzers/leading.ts:65-69 | the inner loop computes `Inliers` |
| Leading.Intersection | src/cv/analyzers/leading.ts:62-63 | Cramer's rule for `(vx, vy)`; `Leading.IntersectionOnBoth` proves the point lies on both lines |
| Leading.IntersectionOnBoth | src/cv/analyzers/leading.ts:59-63 | the Cramer's-rule point satisfies both lines' equations exactly |
| Leading.ProposalInliers | src/cv/analyzers/leading.ts:53-69 | an accepted trial picks two different lines, its point lies on both, and it counts between 2 and n inliers |
| Leading.Proposals | src/cv/analyzers/leading.ts:52-69 | there is one trial outcome per draw |
| Leading.BestOfIndex | src/cv/analyzers/leading.ts:70-73 | the RANSAC state is the initial one or that of one trial that beat it |
| Leading.BestIndexFirst | src/cv/analyzers/leading.ts:70-73 | the held trial is the earliest with the most inliers, and there is none exactly when no trial beats the initial state |
| Leading.Trial | src/cv/analyzers/leading.ts:53-69 | one iteration up to the comparison computes `Propose`, `None` where the body continues |
| Leading.RunRansac | src/cv/analyzers/leading.ts:46-74 | the RANSAC loop computes the fold of the trials from `bestIn = −1` at the centre |
| Leading.KeptSpec | src/cv/analyzers/leading.ts:77-82 | `kept` has `min(100, n)` segments in non-increasing length, each the segment of a candidate, and holds no segment more often than the candidates do; they are the longest: a candidate left out comes after 100 kept segments at least as long as its own |
| Leading.LeadingOf | src/cv/analyzers/leading.ts:15-85 | the value `analyzeLeading` returns from the segments and draws; its properties are the contracts of `Leading.LeadingPresence`, `Leading.LeadingConvergence` and `Leading.KeptSpec` |
| Leading.AnalyzeLeading | src/cv/analyzers/leading.ts:4-89 | `analyzeLeading` after `HoughLinesP` computes `LeadingOf` |
| Leading.LeadingPresence | src/cv/analyzers/leading.ts:41-43 | fewer than two candidates give `{0, null, []}`; `vp` is present exactly when there are at least two |
| Leading.LeadingConvergence | src/cv/analyzers/leading.ts:46-84 | no accepted trial leaves `vp` at the centre and convergence `−1/n`; otherwise the earliest trial with the most inliers wins, and convergence lies in [2/n, 1] |
| Leading.ConvergenceOf | src/cv/analyzers/leading.ts:70-84 | the convergence and point of a fold over trials that each count between 2 and n inliers |
| Leading.Chosen | src/cv/analyzers/leading.ts:46-73 | from `bestIn = −1`, the initial state survives exactly when no trial is accepted |
| Leading.PairAccepted | src/cv/analyzers/leading.ts:55-60 | with two non-parallel candidates, a trial that picks two different indices is accepted |
| Leading.TwoLinesBest | src/cv/analyzers/leading.ts:52-74 | two non-parallel candidates and one trial picking both end with 2 inliers at a point on both lines |
| Leading.TwoLinesConverge | src/cv/analyzers/leading.ts:52-85 | then the vanishing point lies on both lines and the convergence is 1 |
| Leading.VerticalCandidate | src/cv/analyzers/leading.ts:21-38 | a vertical 40-pixel segment is a candidate with normal (−1, 0) |
| Leading.TwoCandidates | src/cv/analyzers/leading.ts:15-39 | two candidate segments give two candidates, in order |
| Leading.ParallelStays | src/cv/analyzers/leading.ts:55-60 | on two parallel lines no trial is accepted and the state stays initial |
| Leading.ParallelPairNegative | src/cv/analyzers/leading.ts:46-84 | as written, two vertical segments yield convergence −1/2 |
| Leading.BestInRange | src/cv/analyzers/leading.ts:46-73 | `bestIn` ends at −1 or between 2 and the number of candidates |
| Leading.CorrectedConvergenceRange | src/cv/analyzers/leading.ts:84 | the corrected convergence lies in [0, 1], agrees with the source's whenever that is not negative, and is 0 otherwise |
| Bitwise.AndNat | src/cv/analyzers/symmetry.ts:39 | a bitwise AND is at most either operand |
| Bitwise.OrNat | src/cv/analyzers/symmetry.ts:40 | a bitwise OR is at least either operand and at most their sum |
| Bitwise.OrNatBelow | src/cv/analyzers/symmetry.ts:40 | the OR of two 8-bit values is an 8-bit value |
| Bitwise.PixelLaws | src/cv/analyzers/symmetry.ts:39-43 | AND and OR of a pixel with itself give the pixel; an AND is non-zero only where both are; an OR is non-zero exactly where either is |
| Bitwise.AndDisjointBits | src/cv/analyzers/symmetry.ts:39 | non-binary pixels 1 and 2 AND to 0 and OR to 3 |
| Roll.KMod | src/cv/analyzers/symmetry.ts:68 | `kMod` lies in [0, w) for every integer k, equals k for `0 ≤ k < w`, and `k + w` for `−w < k < 0` |
| Roll.KModNeg | src/cv/analyzers/symmetry.ts:68 | the wrapped shifts of k and −k add up to 0 or w |
| Roll.RollRowAt | src/cv/analyzers/symmetry.ts:72-80 | pixel x of a rolled row is pixel `x − kMod` of the row, wrapping |
| Roll.RollGrid | src/cv/analyzers/symmetry.ts:64-89 | rolling keeps the dimensions |
| Roll.RollMoves | src/cv/analyzers/symmetry.ts:64-88 | source column c lands in column `(c + kMod) mod w`, in the same row |
| Roll.RollRestores | src/cv/analyzers/symmetry.ts:64-88 | rolling by k and then by −k gives the map back |
| Roll.RollCount | src/cv/analyzers/symmetry.ts:73-80 | rolling preserves the count of non-zero pixels |
| Roll.CopyBlock | src/cv/analyzers/symmetry.ts:73-80 | an ROI `copyTo` writes the block and leaves every other pixel of the destination unchanged |
| Roll.RollCols | src/cv/analyzers/symmetry.ts:64-89 | `rollCols` returns a fresh map of the same size equal to the value-level roll; `k = 0` is a copy |
| Symmetry.Down | src/cv/analyzers/symmetry.ts:9 | the downscaling factor is at least 1 (the resize that uses it is an input, see Left out) |
| Symmetry.DownBounds | src/cv/analyzers/symmetry.ts:9 | maps with a shorter side under 480 are not downscaled; larger ones get a shorter side between 240 and 400 |
| Symmetry.FlipGridAt | src/cv/analyzers/symmetry.ts:25 | pixel x of the flipped map is pixel `w − 1 − x` of the map |
| Symmetry.FlipTwice | src/cv/analyzers/symmetry.ts:25 | flipping twice gives the map back |
| Symmetry.CombineAt | src/cv/analyzers/symmetry.ts:39-40 | each pixel of `bitwise_and` / `bitwise_or` is the operation on the two pixels |
| Symmetry.Shift | src/cv/analyzers/symmetry.ts:29-32 | the shift of a candidate is 0 for a map without columns |
| Symmetry.FlipOfGrid | src/cv/analyzers/symmetry.ts:25 | an array holding the mirror image pixel by pixel holds `FlipGrid` |
| Symmetry.SymmetryOf | src/cv/analyzers/symmetry.ts:21-57 | the value `scoreSymmetry` returns from the downscaled map; its properties are the contracts of `Symmetry.SymmetryChoice`, `Symmetry.CandidateIou` and `Symmetry.SymmetricResult` |
| Symmetry.ScoreSymmetry | src/cv/analyzers/symmetry.ts:4-58 | `scoreSymmetry`, from the downscaled map and its flip, computes `SymmetryOf` |
| Symmetry.BestCandidate | src/cv/analyzers/symmetry.ts:28-51 | the candidate loop computes the first-best fold over the scores |
| Symmetry.Consider | src/cv/analyzers/symmetry.ts:44-46 | one pass keeps the candidate exactly when its score beats the best so far |
| Symmetry.ScoreCandidate | src/cv/analyzers/symmetry.ts:29-44 | one candidate's score is the IoU of the map with its rolled mirror image |
| Symmetry.AndWithinOr | src/cv/analyzers/symmetry.ts:42-43 | `sAnd <= sOr` |
| Symmetry.CandidateIou | src/cv/analyzers/symmetry.ts:37-44 | a candidate scores `sAnd / sOr` when the union is non-empty and 0 otherwise, in [0, 1]; `Math.min(1, ·)` never cuts |
| Symmetry.SymmetryChoice | src/cv/analyzers/symmetry.ts:21-22 | the result is (0, 0.5) exactly when no candidate scores above 0; otherwise it is the first candidate with the greatest score, and the score lies in [0, 1] |
| Symmetry.ShiftCentre | src/cv/analyzers/symmetry.ts:29-32 | the 0% candidate's shift is 0 for an even width and 1 for an odd one |
| Symmetry.SelfIou | src/cv/analyzers/symmetry.ts:37-44 | a non-empty map matched against itself has IoU 1 |
| Symmetry.SymmetricCentre | src/cv/analyzers/symmetry.ts:25-44 | for an even-width non-empty map equal to its flip, the 0% candidate has shift 0 and IoU 1 |
| Symmetry.SymmetricResult | src/cv/analyzers/symmetry.ts:21-46 | such a map scores 1, at the centre axis or one of the two to its left |
| Symmetry.OddWidthCentreMisses | src/cv/analyzers/symmetry.ts:29-32 | as written, the mirror-symmetric map `[[0, 1, 0]]` gets shift 1 and IoU 0 at the 0% candidate |
| Symmetry.CorrectedCentre | src/cv/analyzers/symmetry.ts:29-34 | with the shift measured from the rounded centre, every non-empty map equal to its flip has IoU 1 at the 0% candidate, whatever its width's parity |
| Symmetry.CorrectedAgreesEven | src/cv/analyzers/symmetry.ts:30-32 | the corrected shift agrees with the source's on even widths |
| Argmax.BestIdxFirst | src/cv/analyzers/symmetry.ts:46 | a strict-improvement fold from 0 holds no candidate exactly when none scores above 0; otherwise it holds the first with the greatest, positive score |
| Spiral.ClampPoint | src/cv/analyzers/spiral.ts:24 | the clamped point lies in the unit square and equals the point when that already does |
| Spiral.Spiral | src/cv/analyzers/spiral.ts:12 | a spiral has 160 points |
| Spiral.BuildSpiral | src/cv/analyzers/spiral.ts:6-27 | `buildSpiral` returns 160 points of the unit square, the eye being the first |
| Spiral.ComputePoint | src/cv/analyzers/spiral.ts:13-24 | one pass of the loop computes the mirrored, clamped point |
| Spiral.SpiralMirrors | src/cv/analyzers/spiral.ts:18-24 | orientations 1, 2 and 3 are point for point the x-, y- and double mirror of orientation 0 |
| Spiral.Radius | src/cv/analyzers/spiral.ts:42 | the window radius is at least 1 |
| Spiral.PixelOf | src/cv/analyzers/spiral.ts:46-47 | a normalized coordinate in [0, 1] maps to a pixel index inside the map |
| Spiral.WindowAt | src/cv/analyzers/spiral.ts:48-51 | the clamped window lies within the map, holds the point's own pixel and spans at most `2r + 1` pixels per axis |
| Spiral.Area | src/cv/analyzers/spiral.ts:52-59 | every window has at least one pixel |
| Spiral.Ratio | src/cv/analyzers/spiral.ts:60 | `sum / cnt` lies in [0, 1] when `sum <= cnt`, and is 0 without edges |
| Spiral.WindowDensity | src/cv/analyzers/spiral.ts:52-60 | the window's share of edge pixels lies in [0, 1] |
| Spiral.CountWindow | src/cv/analyzers/spiral.ts:52-59 | the nested loops count the window's edge pixels and its area |
| Spiral.CountRow | src/cv/analyzers/spiral.ts:55-58 | the inner loop counts one row of the window |
| Spiral.RowStep | src/cv/analyzers/spiral.ts:56 | one more pixel adds its hit to the row count |
| Spiral.PointDensity | src/cv/analyzers/spiral.ts:46-60 | one pass of the point loop computes the density of the point's window |
| Spiral.DensitySum | src/cv/analyzers/spiral.ts:45-61 | the running `s` after n points lies in [0, n] |
| Spiral.MeanDensity | src/cv/analyzers/spiral.ts:63 | the mean density lies in [0, 1] |
| Spiral.ScoreOrientation | src/cv/analyzers/spiral.ts:41-70 | one pass of the orientation loop computes the orientation's score and eye |
| Spiral.Damp | src/cv/analyzers/spiral.ts:65-70 | the falloff as written is the damping of the mean by the subject's distance to the eye |
| Spiral.SumDensities | src/cv/analyzers/spiral.ts:45-61 | the point loop computes `DensitySum` |
| Spiral.FalloffBounds | src/cv/analyzers/spiral.ts:69 | the falloff lies in (0, 1] and is 1 for a subject on the eye |
| Spiral.OrientationBounds | src/cv/analyzers/spiral.ts:52-70 | the mean density lies in [0, 1] and the score lies between 0 and it: a subject never raises it |
| Spiral.SpiralOf | src/cv/analyzers/spiral.ts:29-80 | the value `scoreSpiral` returns; its properties are the contracts of `Spiral.SpiralChoice`, `Spiral.OrientationBounds` and `Spiral.ZeroMapSpiral` |
| Spiral.ScoreSpiral | src/cv/analyzers/spiral.ts:29-80 | `scoreSpiral` computes `SpiralOf` |
| Spiral.Consider | src/cv/analyzers/spiral.ts:41-76 | one pass keeps the orientation exactly when its score beats the best so far |
| Spiral.BestFromIndex | src/cv/analyzers/spiral.ts:72-76 | the fold holds the initial state or the orientation the first-best selection picks |
| Spiral.SpiralChoice | src/cv/analyzers/spiral.ts:35-79 | the eye is present exactly when some orientation scores above 0, and then the orientation is the first with the greatest score; otherwise the result is (0, 0, null); the score is clamped to [0, 1] and the clamp changes nothing under the law of `exp` |
| Spiral.ZeroMapSpiral | src/cv/analyzers/spiral.ts:35-79 | a map without edges gives (0, 0, null) whatever the subject |
| Sorting.InsertMultiset | src/cv/scoring.ts:120 | insertion adds exactly the inserted element |
| Sorting.InsertSorted | src/cv/scoring.ts:120 | inserting into a sorted sequence keeps it sorted |
| Sorting.SortPermutation | src/cv/scoring.ts:120 | the sort is a permutation of its input |
| Sorting.SortSorted | src/cv/scoring.ts:120 | the sort orders by key descending, then by rank ascending |
| Sorting.SortStable | src/cv/coach.ts:178 | elements tying on key and rank keep their input order, as the stable `Array.prototype.sort` does |
| Sorting.SortedUnique | src/cv/scoring.ts:120 | under a comparator that orders every two distinct elements, any two sorted permutations coincide |
| Sorting.PermutationDistinct | src/cv/scoring.ts:120 | a permutation of a sequence told apart by `f` is told apart too |
| Sorting.Take | src/cv/coach.ts:178 | `slice(0, n)` keeps the first `min(n, length)` elements |
| Scoring.KeyRankIsNameOrder | src/cv/scoring.ts:4-11 | the keys' ranks follow their first letters, which all differ, so `localeCompare` orders them by rank |
| Scoring.ItemFor | src/cv/scoring.ts:68-117 | the row built for a key carries that key |
| Scoring.Items | src/cv/scoring.ts:68-117 | seven rows are built |
| Scoring.RuleScoresOf | src/cv/scoring.ts:68-121 | the value `computeRuleScores` returns; its properties are the contracts of `Scoring.RuleScoresContent`, `Scoring.RuleScoresOrdered` and `Scoring.RuleScoresDetermined` |
| Scoring.ComputeRuleScores | src/cv/scoring.ts:26-122 | `computeRuleScores` computes `RuleScoresOf`, the stable sort of the items |
| Scoring.ItemsByKey | src/cv/scoring.ts:68-117 | every built row is the row built for its key |
| Scoring.ItemsKeys | src/cv/scoring.ts:68-117 | the built rows have distinct keys, and every key has its row |
| Scoring.RuleScoresContent | src/cv/scoring.ts:68-120 | the output has seven rows, one per key, each the row built for its key, and is a permutation of the items |
| Scoring.SortedByScoreThenKey | src/cv/scoring.ts:120 | rows with distinct keys are sorted by non-increasing score, and equal scores by key |
| Scoring.RuleScoresOrdered | src/cv/scoring.ts:120 | the output is ordered by non-increasing score, equal scores by key |
| Scoring.RuleScoresDetermined | src/cv/scoring.ts:120 | every arrangement of the items that the comparator accepts is the output |
| Scoring.LeadingBlendBounds | src/cv/scoring.ts:51-53 | the bonus lies in [0, 0.15], the blend in [0, 1], and at least the bonus for a convergence in [0, 1] |
| Scoring.HorizonThirdsBounds | src/cv/scoring.ts:62-65 | horizon on thirds lies in [0, 1] and is 0 without a horizon |
| Scoring.PercentBounds | src/cv/scoring.ts:71 | a value in [0, 1] becomes a score in [0, 100]; 0 and 1 map to 0 and 100 |
| Scoring.ScoreBounds | src/cv/scoring.ts:68-117 | the leading-lines and horizon-on-thirds scores always lie in [0, 100]; the others do when the values they copy lie in [0, 1] |
| Scoring.ReasonText | src/cv/scoring.ts:73-115 | the reason templates of the seven rows; `Scoring.GridReasonCases`, `Scoring.LeadingRow` and `Scoring.HorizonRow` state the texts case by case |
| Scoring.HorizonRow | src/cv/scoring.ts:109-116 | without a horizon the row scores 0 with reason "no horizon"; with one the reason reports the confidence and the alignment |
| Scoring.LeadingRow | src/cv/scoring.ts:95 | the symmetry part of the leading-lines reason appears exactly when the bonus is positive |
| Scoring.GridReasonCases | src/cv/scoring.ts:29-35 | the thirds or phi reason is "low subject/horizon confidence" exactly when no part applies; the subject part appears only for subject confidence above 0.3 |
| Scoring.Prefix | src/cv/scoring.ts:126 | `slice(0, end)` keeps the first elements, counting a negative end from the back |
| Scoring.Qualifying | src/cv/scoring.ts:126 | the filter returns no more rows than it is given |
| Scoring.QualifyingMembers | src/cv/scoring.ts:126 | the filter keeps exactly the rows scoring at least `minScore` |
| Scoring.QualifyingSorted | src/cv/scoring.ts:126 | the filter keeps the order of a sorted input |
| Scoring.TopMatches | src/cv/scoring.ts:125-127 | `topMatches`; its properties are the contracts of `Scoring.TopMatchesSpec` and `Scoring.DefaultTopMatches` |
| Scoring.TopMatchesSpec | src/cv/scoring.ts:125-127 | at most `max` rows, each scoring at least `minScore`, the first qualifying rows in input order; fewer only when no other row qualifies |
| Scoring.DefaultTopMatches | src/cv/scoring.ts:125 | with the defaults, at most three rows, each scoring at least 55 |
| Coach.Near | src/cv/coach.ts:26 | `near(v, tol)`: `|v| <= tol`, the gate `Coach.ThirdsSpec`, `Coach.HorizonSpec` and `Coach.SymmetrySpec` state in full |
| Coach.SafeRatio | src/cv/coach.ts:181-184 | an effort below 1 counts as 1: the ratio is the gain itself for an effort up to 1, times the effort it is the gain for a larger one, and for a non-negative gain it lies between 0 and the gain |
| Coach.Cap | src/cv/coach.ts:27 | `cap` lies in [−0.25, 0.25] and is the identity inside it |
| Coach.CapFirst | src/cv/coach.ts:194-196 | capitalising keeps the length and the rest of the string; a lower-case ASCII first letter becomes its upper-case form, any other first character is kept |
| Coach.PanParts | src/cv/coach.ts:187-189 | the direction words, opposite to the subject's move; `Coach.PhrasePanBase` proves that there are none exactly when both moves are within 2% |
| Coach.JoinAnd | src/cv/coach.ts:191 | `parts.join(" and ")` |
| Coach.PhrasePan | src/cv/coach.ts:186-192 | `phrasePan`; `Coach.PhrasePanBase` states its fallback and its `" – " + base` ending |
| Coach.MessageText | src/cv/coach.ts:64-166 | the message templates of the six blocks, as rendered from the structured `Message`; `Coach.ThirdsSpec` fixes which message the thirds block carries |
| Coach.PhrasePanBase | src/cv/coach.ts:186-192 | the message is the bare base exactly when both offsets are within 2%; otherwise it ends in " – " and the base |
| Coach.Choice | src/cv/coach.ts:42-50 | the loop from `T = targets[0]`, `bestD = 9` always holds a target and a bound |
| Coach.TargetNearest | src/cv/coach.ts:36-50 | if some target is nearer than 9, `T` is the first nearest and `bestD` its distance; otherwise `T` stays the first target and `bestD` 9; a subject in the frame is always in the first case |
| Coach.ThirdsTip | src/cv/coach.ts:51-69 | the thirds suggestion has rule thirds |
| Coach.HorizonTarget | src/cv/coach.ts:76 | the target is 1/3 exactly when 1/3 is strictly closer, and 2/3 otherwise |
| Coach.HorizonTip | src/cv/coach.ts:75-87 | the horizon suggestion has rule horizon |
| Coach.DiagonalTip | src/cv/coach.ts:93-104 | the diagonal suggestion has rule diagonal |
| Coach.SymmetryTip | src/cv/coach.ts:110-119 | the symmetry suggestion has rule symmetry |
| Coach.SpiralTip | src/cv/coach.ts:125-151 | the spiral suggestion has rule spiral |
| Coach.LeadingTip | src/cv/coach.ts:157-174 | the leading-lines suggestion has rule leading |
| Coach.ThirdsGainBounds | src/cv/coach.ts:60 | the thirds gain lies in [0, 100) |
| Coach.HorizonReach | src/cv/coach.ts:76-77 | a horizon inside the frame is at most 1/3 from its target |
| Coach.ThirdsFacts | src/cv/coach.ts:33-71 | the thirds block emits at most one capped suggestion whose priority is its gain per effort; its gain lies in range under the laws of `exp` and `sqrt` |
| Coach.HorizonFacts | src/cv/coach.ts:73-89 | the horizon block emits at most one capped suggestion; its priority is its gain per effort for a horizon inside the frame |
| Coach.DiagonalFacts | src/cv/coach.ts:91-106 | the diagonal block emits at most one suggestion whose priority is its gain per effort; its gain lies in range for a non-negative score |
| Coach.SymmetryFacts | src/cv/coach.ts:108-121 | the symmetry block emits at most one capped suggestion; its priority is its gain per effort for an axis inside the frame |
| Coach.SpiralFacts | src/cv/coach.ts:123-153 | the spiral block emits at most one capped suggestion whose priority is its gain per effort |
| Coach.LeadingFacts | src/cv/coach.ts:155-175 | the leading-lines block emits at most one capped suggestion whose priority is its gain per effort |
| Coach.ThirdsBlock | src/cv/coach.ts:33-71 | the thirds block; `Coach.ThirdsSpec` and `Coach.ThirdsFacts` state when it fires and what it suggests |
| Coach.HorizonBlock | src/cv/coach.ts:73-89 | the horizon block; stated by `Coach.HorizonSpec` and `Coach.HorizonFacts` |
| Coach.DiagonalBlock | src/cv/coach.ts:91-106 | the diagonal block; stated by `Coach.DiagonalSpec` and `Coach.DiagonalFacts` |
| Coach.SymmetryBlock | src/cv/coach.ts:108-121 | the symmetry block; stated by `Coach.SymmetrySpec` and `Coach.SymmetryFacts` |
| Coach.SpiralBlock | src/cv/coach.ts:123-153 | the spiral block; stated by `Coach.SpiralSpec` and `Coach.SpiralFacts` |
| Coach.LeadingBlock | src/cv/coach.ts:155-175 | the leading-lines block; stated by `Coach.LeadingSpec` and `Coach.LeadingFacts` |
| Coach.Candidates | src/cv/coach.ts:31-175 | `out` before sorting; stated by `Coach.CandidatesFacts` |
| Coach.CandidatesFacts | src/cv/coach.ts:31-175 | `out` holds at most six suggestions, one per block, in block order, all pans capped; priorities are gains per effort and gains lie in range under the stated conditions |
| Coach.Top | src/cv/coach.ts:178 | the sort by priority and `slice(0, 3)`; stated by `Coach.TopShape`, `Coach.TopOrdered`, `Coach.TopDistinct` and `Coach.TopKeepsBest` |
| Coach.TopShape | src/cv/coach.ts:178 | the sorted, sliced list has `min(3, n)` elements, all from the input |
| Coach.TopOrdered | src/cv/coach.ts:178 | it is ordered by non-increasing priority, and equal priorities keep block order |
| Coach.TopDistinct | src/cv/coach.ts:178 | no two kept suggestions come from the same block |
| Coach.TopKeepsBest | src/cv/coach.ts:178 | a dropped suggestion comes after three kept ones of at least its priority |
| Coach.SuggestShape | src/cv/coach.ts:29-179 | a null analysis gives `[]`; otherwise at most three suggestions from the candidates, with distinct rules, never phi, all pans within ±25% |
| Coach.SuggestOrdered | src/cv/coach.ts:178 | the suggestions are in non-increasing priority, ties in block order thirds, horizon, diagonal, symmetry, spiral, leading; every dropped candidate comes after three of at least its priority |
| Coach.PriorityIsRatio | src/cv/coach.ts:68-173 | every suggestion's priority is `estGain / max(1, effort)` when the horizon and the symmetry axis lie inside the frame |
| Coach.PriorityBeyondFrame | src/cv/coach.ts:84-86 | for a horizon at y = 2 the gain saturates at 100, and the stated priority is no longer gain per effort |
| Coach.GainBounds | src/cv/coach.ts:60-168 | every estimated gain lies in [0, 100] and every effort is non-negative, under the laws of `exp` and `sqrt` and a non-negative diagonal score |
| Coach.ThirdsSpec | src/cv/coach.ts:34-64 | the thirds block fires exactly for confidence above 0.3 and an offset above 1% on some axis; it pans by `cap(−0.5·offset)` |
| Coach.HorizonSpec | src/cv/coach.ts:74-83 | the horizon block fires exactly for confidence above 0.3 and a distance above 1.5%; it pans `(0, cap(−0.6·dy))` |
| Coach.DiagonalSpec | src/cv/coach.ts:92-98 | the diagonal block fires exactly for a score below 0.85, without a confidence gate; it rotates −3° for TLBR and +3° for TRBL |
| Coach.SymmetrySpec | src/cv/coach.ts:109-115 | the symmetry block fires exactly for a score above 0.4 and an axis more than 1.5% off centre; it pans `(cap(0.6·dx), 0)` |
| Coach.SpiralSpec | src/cv/coach.ts:124-142 | the spiral block fires exactly with an eye more than 3% from the subject or a score below 0.75; it pans toward the eye and rotates 2° |
| Coach.LeadingSpec | src/cv/coach.ts:156-168 | the leading-lines block fires exactly with a vanishing point; it pans `(0, −0.04)` with gain 25 below convergence 0.8 and 12 from it |
| Coach.PushThirds | src/cv/coach.ts:33-71 | the thirds block, with its search loop, appends `ThirdsBlock` |
| Coach.PushHorizon | src/cv/coach.ts:73-89 | the horizon block appends `HorizonBlock` |
| Coach.PushDiagonal | src/cv/coach.ts:91-106 | the diagonal block appends `DiagonalBlock` |
| Coach.PushSymmetry | src/cv/coach.ts:108-121 | the symmetry block appends `SymmetryBlock` |
| Coach.PushSpiral | src/cv/coach.ts:123-153 | the spiral block appends `SpiralBlock` |
| Coach.PushLeading | src/cv/coach.ts:155-175 | the leading-lines block appends `LeadingBlock` |
| Coach.SuggestOf | src/cv/coach.ts:29-179 | the value `suggest` returns; stated by `Coach.SuggestShape`, `Coach.SuggestOrdered`, `Coach.PriorityIsRatio` and `Coach.GainBounds` |
| Coach.Suggest | src/cv/coach.ts:29-179 | `suggest` computes `SuggestOf`: the six blocks in source order, sorted by priority and cut to three |

## Left out

- OpenCV calls are not modelled. Their products are inputs: the `HoughLinesP` segments, `cv.resize` with `INTER_AREA` (the downscaled map is an input of `Symmetry.ScoreSymmetry`, so its size is not tied to `Symmetry.Down`, which is modelled on its own), and `cv.flip` (its result is required to be the mirror image). `Mat` allocation and `delete` are left out too.
- `Math.random()` is replaced by an injected sequence of 200 draws in [0, 1).
- Floating point is not modelled: arithmetic is exact over the reals. NaN, infinities, rounding error and `toFixed` formatting are left out. Scoring reasons take the number formatter as a parameter.
- `exp`, `sqrt`, `sin`, `cos` and `atan2` are parameters constrained only by the laws listed above. The spiral's point coordinates are therefore not computed numerically.
- `Diagonal.Slope`: for a map without columns it is taken as 0 instead of JavaScript's infinity or NaN. No pixel is sampled then, so the value is never used.
- Spiral and Horizon: the edge map must have at least one row and one column, which the source assumes without checking. For Horizon this holds at the only call site, which never builds a map smaller than 1×1. It is also required on the no-entry branch, where the source returns `{y: 0.5, conf: 0}` without dividing.
- `Edges.Pixel` reads 0 outside the map. Every read the model makes is proved to lie inside it.
- The scorer and the coach take the analyzer results as a complete `Types.Analysis` record. The subject and the diagonal result are always present. The optional-chaining defaults (`?.`, `?? 0`, `|| 0`) are therefore not modelled; on real numbers they change nothing.
- Scoring: the `"n/a"` fallback for a missing diagonal `best` cannot occur, because the diagonal result is always present.
- Scoring: labels are a function of the key.
- The coach's `inv = 1 / (analysis.scale || 1)` and the vanishing-point coordinates are computed but never used by the source, so they are not modelled. The source never emits a `Zoom` nudge, and the datatype keeps the `Zoom` constructor only for fidelity.
- Coach: messages are a structured `Coach.Message` value, rendered to the source's strings by `Coach.MessageText`.
- Coach.PhrasePanBase: proves the fallback case and the `" – " + base` suffix only. The exact direction words and their joining are defined in `PanParts`/`JoinAnd` but not proved.
- Coach.CapFirst: upper-cases ASCII letters only, where `toUpperCase` also maps other scripts.
- Coach.PriorityIsRatio: requires the horizon y and the symmetry axis to lie in [0, 1]. Outside the frame the gain is capped at 100 and the stated priority is no longer gain per effort (`Coach.PriorityBeyondFrame`).
- Two comparisons use squared distances instead of `Math.hypot` values:
  - the nearest-point searches (thirds, phi and the coach's `bestD < 9`);
  - the leading-lines `kept` sort (`Leading.LineKey`).

  `Numeric.SqrtMonotone` (with `Coach.TargetNearest` for the coach) shows that the choice and the order are the same. Length and distance thresholds keep the hypot.
- The `phi` rule of a suggestion exists in the type but no block emits it. `Coach.SuggestShape` proves that it never appears.
- Symmetry: the model proves the odd-width shift of the 0% candidate (see Findings). It does not quantify how rolling the mirror image by `shift` moves the mirror axis by only `shift / 2`.

## Findings

| source | as written | input that shows it | evidently intended | confidence | as-written member | corrected member |
|---|---|---|---|---|---|---|
| src/cv/analyzers/leading.ts:46, 84 | `bestIn` starts at −1, and `convergence = bestIn / arr.length` is reported even when no RANSAC trial passes the `i ≠ j` and determinant guards | two vertical 40-pixel segments at different columns: both are candidates, every trial picks one line twice or the parallel pair, and convergence is −1/2 | a convergence in [0, 1], 0 when no trial is accepted | not executed | Leading.ParallelPairNegative | Leading.CorrectedConvergenceRange |
| src/cv/analyzers/symmetry.ts:30-32 | `shift = round(axisNorm · cols) − floor(cols / 2)`, so for an odd width the 0% candidate rolls the mirror image by one column | the map `[[0, 1, 0]]` (width 3) equals its mirror image, yet the 0% candidate has shift 1 and IoU 0 | the 0% candidate compares the map with its unshifted mirror image, for IoU 1 on a mirror-symmetric map | not executed | Symmetry.OddWidthCentreMisses | Symmetry.CorrectedCentre |
