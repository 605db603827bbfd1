/** The rule-of-thirds analyzer (src/cv/analyzers/thirds.ts): the grid of
    the four intersections of the lines at 1/3 and 2/3. */
module Thirds {
  import opened Numeric
  import opened Geometry
  import opened Types
  import opened Grid

  /** The four thirds points, in the order the source lists them. */
  const ThirdsPoints: seq<Point> :=
    [Point(1.0 / 3.0, 1.0 / 3.0), Point(2.0 / 3.0, 1.0 / 3.0),
     Point(1.0 / 3.0, 2.0 / 3.0), Point(2.0 / 3.0, 2.0 / 3.0)]

  /** What `scoreThirds(subject, horizonY)` returns. */
  function ThirdsOf(m: MathLib, subject: Option<Point>, horizonY: Option<real>): GridScore
  {
    GridOf(m, ThirdsPoints, 1.0 / 3.0, 2.0 / 3.0, subject, horizonY)
  }

  /** `scoreThirds`. */
  method ScoreThirds(m: MathLib, subject: Option<Point>, horizonY: Option<real>) returns (r: GridScore)
    ensures r == ThirdsOf(m, subject, horizonY)
  {
    r := ScoreGrid(m, ThirdsPoints, 1.0 / 3.0, 2.0 / 3.0, subject, horizonY);
  }

  /** With a subject, `best` is one of the four thirds points, no thirds
      point is strictly closer to the subject, and of equally close points
      the first listed wins. */
  lemma ThirdsBestNearest(m: MathLib, s: Point, horizonY: Option<real>)
    ensures var g := ThirdsOf(m, Some(s), horizonY);
            exists k: nat :: FirstNearest(s, ThirdsPoints, k) && g.best == Some(ThirdsPoints[k])
  {
    GridBestNearest(m, ThirdsPoints, 1.0 / 3.0, 2.0 / 3.0, s, horizonY);
  }

  /** No subject: subject score 0 and no best point. No horizon: horizon
      score 0. Neither: overall 0. */
  lemma ThirdsAbsent(m: MathLib, subject: Option<Point>, horizonY: Option<real>)
    ensures var g := ThirdsOf(m, subject, horizonY);
            (subject.None? ==> g.subjectScore == 0.0 && g.best.None?) &&
            (horizonY.None? ==> g.horizonScore == 0.0) &&
            (subject.None? && horizonY.None? ==> g.overall == 0.0)
  {
    GridAbsent(m, ThirdsPoints, 1.0 / 3.0, 2.0 / 3.0, subject, horizonY);
  }

  /** A subject exactly on a thirds point scores 1. */
  lemma ThirdsOnPoint(m: MathLib, k: nat, horizonY: Option<real>)
    requires Lawful(m) && k < 4
    ensures ThirdsOf(m, Some(ThirdsPoints[k]), horizonY).subjectScore == 1.0
  {
    GridOnPoint(m, ThirdsPoints, 1.0 / 3.0, 2.0 / 3.0, k, horizonY);
  }

  /** All scores lie in [0, 1], and `overall` lies between the two scores. */
  lemma ThirdsBounds(m: MathLib, subject: Option<Point>, horizonY: Option<real>)
    requires ExpLaws(m.exp)
    ensures var g := ThirdsOf(m, subject, horizonY);
            0.0 <= g.subjectScore <= 1.0 && 0.0 <= g.horizonScore <= 1.0 && 0.0 <= g.overall <= 1.0 &&
            Min(g.subjectScore, g.horizonScore) <= g.overall <= Max(g.subjectScore, g.horizonScore)
  {
    var g := ThirdsOf(m, subject, horizonY);
    GridBounds(m, ThirdsPoints, 1.0 / 3.0, 2.0 / 3.0, subject, horizonY);
    BlendBounds(subject.Some?, horizonY.Some?, g.subjectScore, g.horizonScore);
  }
}
