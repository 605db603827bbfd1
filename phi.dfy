/** The golden-ratio grid analyzer (src/cv/analyzers/phi.ts): the grid of
    the lines at `b = 1 - 1/φ` and `a = 1/φ`, φ = (1 + √5) / 2. */
module Phi {
  import opened Numeric
  import opened Geometry
  import opened Types
  import opened Grid

  /** `GOLDEN`, `(1 + Math.sqrt(5)) / 2`. */
  function Golden(sqrt: real -> real): (g: real)
    requires SqrtLaws(sqrt)
    ensures g >= 0.5
  {
    (1.0 + sqrt(5.0)) / 2.0
  }

  /** `a = 1 / GOLDEN`. */
  function PhiA(sqrt: real -> real): real
    requires SqrtLaws(sqrt)
  {
    1.0 / Golden(sqrt)
  }

  /** `b = 1 - 1 / GOLDEN`. */
  function PhiB(sqrt: real -> real): real
    requires SqrtLaws(sqrt)
  {
    1.0 - 1.0 / Golden(sqrt)
  }

  /** The four golden points, in the order the source lists them. */
  function PhiPoints(sqrt: real -> real): (ps: seq<Point>)
    requires SqrtLaws(sqrt)
    ensures |ps| == 4
  {
    var a, b := PhiA(sqrt), PhiB(sqrt);
    [Point(a, a), Point(a, b), Point(b, a), Point(b, b)]
  }

  /** The two lines are mirror images in the unit interval, `a` lies above
      the middle, so `a > b`, and both lie strictly inside (0, 1). */
  lemma PhiLines(sqrt: real -> real)
    requires SqrtLaws(sqrt)
    ensures PhiB(sqrt) == 1.0 - PhiA(sqrt)
    ensures 0.0 < PhiB(sqrt) < 0.5 < PhiA(sqrt) < 1.0
  {
    var r := sqrt(5.0);
    assert Sq(r) == 5.0;
    SquareMonotone(r, 3.0);
    SquareMonotone(1.0, r);
    assert 1.0 < r < 3.0;
    var g := Golden(sqrt);
    assert 1.0 < g < 2.0;
    Reciprocal(g);
  }

  lemma Reciprocal(g: real)
    requires 1.0 < g < 2.0
    ensures 0.5 < 1.0 / g < 1.0
  {
  }

  /** What `scorePhi(subject, horizonY)` returns. */
  function PhiOf(m: MathLib, subject: Option<Point>, horizonY: Option<real>): GridScore
    requires SqrtLaws(m.sqrt)
  {
    GridOf(m, PhiPoints(m.sqrt), PhiA(m.sqrt), PhiB(m.sqrt), subject, horizonY)
  }

  /** `scorePhi`. */
  method ScorePhi(m: MathLib, subject: Option<Point>, horizonY: Option<real>) returns (r: GridScore)
    requires SqrtLaws(m.sqrt)
    ensures r == PhiOf(m, subject, horizonY)
  {
    r := ScoreGrid(m, PhiPoints(m.sqrt), PhiA(m.sqrt), PhiB(m.sqrt), subject, horizonY);
  }

  /** With a subject, `best` is the first golden point at minimal distance. */
  lemma PhiBestNearest(m: MathLib, s: Point, horizonY: Option<real>)
    requires SqrtLaws(m.sqrt)
    ensures var g := PhiOf(m, Some(s), horizonY);
            exists k: nat :: FirstNearest(s, PhiPoints(m.sqrt), k) && g.best == Some(PhiPoints(m.sqrt)[k])
  {
    GridBestNearest(m, PhiPoints(m.sqrt), PhiA(m.sqrt), PhiB(m.sqrt), s, horizonY);
  }

  /** No subject: subject score 0 and no best point. No horizon: horizon
      score 0. Neither: overall 0. */
  lemma PhiAbsent(m: MathLib, subject: Option<Point>, horizonY: Option<real>)
    requires SqrtLaws(m.sqrt)
    ensures var g := PhiOf(m, subject, horizonY);
            (subject.None? ==> g.subjectScore == 0.0 && g.best.None?) &&
            (horizonY.None? ==> g.horizonScore == 0.0) &&
            (subject.None? && horizonY.None? ==> g.overall == 0.0)
  {
    GridAbsent(m, PhiPoints(m.sqrt), PhiA(m.sqrt), PhiB(m.sqrt), subject, horizonY);
  }

  /** A subject exactly on a golden point scores 1. */
  lemma PhiOnPoint(m: MathLib, k: nat, horizonY: Option<real>)
    requires Lawful(m) && k < 4
    ensures PhiOf(m, Some(PhiPoints(m.sqrt)[k]), horizonY).subjectScore == 1.0
  {
    GridOnPoint(m, PhiPoints(m.sqrt), PhiA(m.sqrt), PhiB(m.sqrt), k, horizonY);
  }

  /** All scores lie in [0, 1], and `overall` lies between the two scores. */
  lemma PhiBounds(m: MathLib, subject: Option<Point>, horizonY: Option<real>)
    requires SqrtLaws(m.sqrt) && ExpLaws(m.exp)
    ensures var g := PhiOf(m, subject, horizonY);
            0.0 <= g.subjectScore <= 1.0 && 0.0 <= g.horizonScore <= 1.0 && 0.0 <= g.overall <= 1.0 &&
            Min(g.subjectScore, g.horizonScore) <= g.overall <= Max(g.subjectScore, g.horizonScore)
  {
    var g := PhiOf(m, subject, horizonY);
    GridBounds(m, PhiPoints(m.sqrt), PhiA(m.sqrt), PhiB(m.sqrt), subject, horizonY);
    BlendBounds(subject.Some?, horizonY.Some?, g.subjectScore, g.horizonScore);
  }
}
