/** What thirds.ts and phi.ts have in common: the subject is scored by its
    distance to the nearest of four grid points, the horizon by its distance
    to the nearer of two grid lines, each through a Gaussian falloff, and the
    two scores are blended. The two files differ only in the grid. */
module Grid {
  import opened Numeric
  import opened Geometry
  import opened Types

  /** Softness for the subject's distance to a grid point. */
  const Sigma: real := 0.12
  /** Softness for the horizon's distance to a grid line. */
  const Tau: real := 0.07

  /** `gaussianScore(d, s)`: `Math.exp(-(d * d) / (s * s))`. */
  function GaussianScore(exp: real -> real, d: real, s: real): real
    requires s > 0.0
  {
    exp(-Sq(d) / Sq(s))
  }

  /** The falloff lies in (0, 1]. */
  lemma GaussianBounds(exp: real -> real, d: real, s: real)
    requires ExpLaws(exp) && s > 0.0
    ensures 0.0 < GaussianScore(exp, d, s) <= 1.0
  {
    NegativeQuotient(Sq(d), Sq(s));
  }

  /** Distance zero scores exactly 1. */
  lemma GaussianAtZero(exp: real -> real, s: real)
    requires ExpLaws(exp) && s > 0.0
    ensures GaussianScore(exp, 0.0, s) == 1.0
  {
    assert Sq(0.0) == 0.0;
  }

  lemma NegativeQuotient(a: real, b: real)
    requires 0.0 <= a && 0.0 < b
    ensures -a / b <= 0.0
  {
  }

  /** The horizon's distance to the nearer of the lines `t1` and `t2`. */
  function LineDistance(y: real, t1: real, t2: real): (d: real)
    ensures 0.0 <= d
    ensures d <= Abs(y - t1) && d <= Abs(y - t2)
    ensures d == Abs(y - t1) || d == Abs(y - t2)
  {
    Min(Abs(y - t1), Abs(y - t2))
  }

  /** `overall`: the 0.6/0.4 blend when both a subject and a horizon are
      given, otherwise the score of whichever is given. */
  function Blend(haveSubject: bool, haveHorizon: bool, s: real, h: real): real
  {
    if haveSubject && haveHorizon then 0.6 * s + 0.4 * h
    else if haveSubject then s
    else h
  }

  /** The blend of two scores in [0, 1] is in [0, 1]. */
  lemma BlendBounds(haveSubject: bool, haveHorizon: bool, s: real, h: real)
    requires 0.0 <= s <= 1.0 && 0.0 <= h <= 1.0
    ensures 0.0 <= Blend(haveSubject, haveHorizon, s, h) <= 1.0
    ensures Min(s, h) <= Blend(haveSubject, haveHorizon, s, h) <= Max(s, h)
  {
  }

  /** The distance compared in the search, `Math.hypot` of the offset. */
  function Distance(sqrt: real -> real, p: Point, q: Point): real
  {
    Hypot(sqrt, p.x - q.x, p.y - q.y)
  }

  /** The index of the nearest target, as the search loop selects it from an
      `Infinity` bound. */
  function NearestIndex(s: Point, targets: seq<Point>): (k: Option<nat>)
    ensures k.Some? ==> k.value < |targets|
  {
    NearestFromInfinityIndex(s, targets);
    NearestAmong(s, targets, Nearest(None, None)).best
  }

  lemma NearestFromInfinityIndex(s: Point, targets: seq<Point>)
    ensures var n := NearestAmong(s, targets, Nearest(None, None));
            n.best.Some? ==> n.best.value < |targets|
  {
    if |targets| > 0 {
      NearestFromInfinity(s, targets);
    }
  }

  /** What `scoreThirds` and `scorePhi` return, for the four grid points
      `targets` and the two grid lines `t1`, `t2`. */
  function GridOf(m: MathLib, targets: seq<Point>, t1: real, t2: real,
                  subject: Option<Point>, horizonY: Option<real>): GridScore
  {
    var best := if subject.None? then None
                else match NearestIndex(subject.value, targets)
                  case None => None
                  case Some(k) => Some(targets[k]);
    var subjectScore :=
      if subject.None? then 0.0
      else GaussianScore(m.exp, if best.Some? then Distance(m.sqrt, subject.value, best.value) else 1.0, Sigma);
    var horizonScore :=
      if horizonY.None? then 0.0 else GaussianScore(m.exp, LineDistance(horizonY.value, t1, t2), Tau);
    GridScore(subjectScore, horizonScore,
              Blend(subject.Some?, horizonY.Some?, subjectScore, horizonScore), best)
  }

  /** The body shared by `scoreThirds` and `scorePhi`: the nearest-point loop
      followed by the two falloffs and the blend. The loop compares squared
      distances, which orders the targets as the source's `Math.hypot`
      comparison does (`Numeric.SqrtMonotone`). */
  method ScoreGrid(m: MathLib, targets: seq<Point>, t1: real, t2: real,
                   subject: Option<Point>, horizonY: Option<real>) returns (r: GridScore)
    ensures r == GridOf(m, targets, t1, t2, subject, horizonY)
  {
    var subjectScore := 0.0;
    var best: Option<Point> := None;
    if subject.Some? {
      var n := FindNearest(subject.value, targets, Nearest(None, None));
      NearestFromInfinityIndex(subject.value, targets);
      if n.best.Some? {
        best := Some(targets[n.best.value]);
      }
      var d := if best.Some? then Distance(m.sqrt, subject.value, best.value) else 1.0;
      subjectScore := GaussianScore(m.exp, d, Sigma);
    }
    var horizonScore := 0.0;
    if horizonY.Some? {
      var d := LineDistance(horizonY.value, t1, t2);
      horizonScore := GaussianScore(m.exp, d, Tau);
    }
    var haveBoth := subject.Some? && horizonY.Some?;
    var overall := if haveBoth then 0.6 * subjectScore + 0.4 * horizonScore
                   else if subject.Some? then subjectScore
                   else horizonScore;
    r := GridScore(subjectScore, horizonScore, overall, best);
  }

  /** Without a subject there is no subject score and no best point; without
      a horizon there is no horizon score. */
  lemma GridAbsent(m: MathLib, targets: seq<Point>, t1: real, t2: real,
                   subject: Option<Point>, horizonY: Option<real>)
    ensures var g := GridOf(m, targets, t1, t2, subject, horizonY);
            (subject.None? ==> g.subjectScore == 0.0 && g.best.None?) &&
            (horizonY.None? ==> g.horizonScore == 0.0) &&
            (subject.None? && horizonY.None? ==> g.overall == 0.0)
  {
  }

  /** With a subject and a non-empty grid, `best` is the first grid point at
      minimal distance from the subject: no point is strictly closer, and
      every earlier point is strictly farther. */
  lemma GridBestNearest(m: MathLib, targets: seq<Point>, t1: real, t2: real, s: Point, horizonY: Option<real>)
    requires |targets| > 0
    ensures var g := GridOf(m, targets, t1, t2, Some(s), horizonY);
            exists k: nat :: FirstNearest(s, targets, k) && g.best == Some(targets[k])
  {
    NearestFromInfinity(s, targets);
    var k := NearestAmong(s, targets, Nearest(None, None)).best.value;
    assert FirstNearest(s, targets, k);
  }

  /** All three scores lie in [0, 1]; a present subject or horizon scores
      strictly above 0. */
  lemma GridBounds(m: MathLib, targets: seq<Point>, t1: real, t2: real,
                   subject: Option<Point>, horizonY: Option<real>)
    requires ExpLaws(m.exp)
    ensures var g := GridOf(m, targets, t1, t2, subject, horizonY);
            0.0 <= g.subjectScore <= 1.0 && 0.0 <= g.horizonScore <= 1.0 && 0.0 <= g.overall <= 1.0 &&
            (subject.Some? ==> g.subjectScore > 0.0) && (horizonY.Some? ==> g.horizonScore > 0.0)
  {
    var g := GridOf(m, targets, t1, t2, subject, horizonY);
    if subject.Some? {
      var d := if g.best.Some? then Distance(m.sqrt, subject.value, g.best.value) else 1.0;
      GaussianBounds(m.exp, d, Sigma);
    }
    if horizonY.Some? {
      GaussianBounds(m.exp, LineDistance(horizonY.value, t1, t2), Tau);
    }
    BlendBounds(subject.Some?, horizonY.Some?, g.subjectScore, g.horizonScore);
  }

  /** A subject exactly on a grid point scores 1. */
  lemma GridOnPoint(m: MathLib, targets: seq<Point>, t1: real, t2: real, k: nat, horizonY: Option<real>)
    requires Lawful(m) && k < |targets|
    ensures GridOf(m, targets, t1, t2, Some(targets[k]), horizonY).subjectScore == 1.0
  {
    var s := targets[k];
    NearestFromInfinity(s, targets);
    var j := NearestAmong(s, targets, Nearest(None, None)).best.value;
    assert FirstNearest(s, targets, j);
    Dist2Self(s);
    assert Dist2(s, targets[j]) == 0.0;
    SqrtZero(m.sqrt);
    GaussianAtZero(m.exp, Sigma);
  }
}
