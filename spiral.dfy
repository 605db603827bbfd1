/** The golden-spiral analyzer (src/cv/analyzers/spiral.ts): a logarithmic
    spiral of 160 points is laid over the edge map in each of four mirror
    orientations; an orientation scores the mean edge density of small
    windows around its points, damped by the distance from the subject to
    the spiral's eye, and the first best orientation wins. */
module Spiral {
  import opened Numeric
  import opened Geometry
  import opened Edges
  import opened Types
  import opened Argmax

  /** The spiral's constants: `turns`, `K`, `a`, `b`, and `Math.PI`. */
  const Turns: real := 1.1
  const K: nat := 160
  const A: real := 0.12
  const B: real := 2.0
  const Pi: real := 3.141592653589793

  // ----- buildSpiral -----

  /** Point `i` of the spiral as computed, before mirroring and clamping. */
  function RawPoint(m: MathLib, i: nat): Point
  {
    var t := i as real / (K - 1) as real;
    var r := A * m.exp(B * t * Turns);
    var ang := Pi * 2.0 * t * Turns;
    Point(0.5 + r * m.cos(ang), 0.5 + r * m.sin(ang))
  }

  /** The mirroring of orientation `o`: 1 mirrors `x`, 2 mirrors `y`, 3
      mirrors both. */
  function Orient(p: Point, o: Orientation): Point
  {
    var x := if o == 1 || o == 3 then 1.0 - p.x else p.x;
    var y := if o == 2 || o == 3 then 1.0 - p.y else p.y;
    Point(x, y)
  }

  /** Both coordinates clamped to [0, 1]. */
  function ClampPoint(p: Point): (q: Point)
    ensures InUnitSquare(q)
    ensures InUnitSquare(p) ==> q == p
  {
    Point(Clamp(p.x, 0.0, 1.0), Clamp(p.y, 0.0, 1.0))
  }

  /** What `buildSpiral(o)` pushes as point `i`. */
  function SpiralPoint(m: MathLib, o: Orientation, i: nat): Point
  {
    ClampPoint(Orient(RawPoint(m, i), o))
  }

  /** `pts` of `buildSpiral(o)`. */
  function Spiral(m: MathLib, o: Orientation): (pts: seq<Point>)
    ensures |pts| == K
  {
    seq(K, i requires 0 <= i < K => SpiralPoint(m, o, i))
  }

  /** `buildSpiral`: 160 points in the unit square, the eye being the first. */
  method BuildSpiral(m: MathLib, o: Orientation) returns (pts: seq<Point>, eye: Point)
    ensures pts == Spiral(m, o)
    ensures |pts| == 160 && eye == pts[0]
    ensures forall i :: 0 <= i < |pts| ==> InUnitSquare(pts[i])
  {
    ghost var spec := Spiral(m, o);
    pts := [];
    var i := 0;
    while i < K
      invariant 0 <= i <= K
      invariant pts == spec[..i]
    {
      var p := ComputePoint(m, o, i);
      assert spec[..i + 1] == spec[..i] + [p];
      pts := pts + [p];
      i := i + 1;
    }
    assert spec[..K] == spec;
    eye := pts[0];
  }

  /** The body of the loop of `buildSpiral`: point `i`, mirrored and
      clamped. */
  method ComputePoint(m: MathLib, o: Orientation, i: nat) returns (p: Point)
    ensures p == SpiralPoint(m, o, i)
  {
    var t := i as real / (K - 1) as real;
    var r := A * m.exp(B * t * Turns);
    var ang := Pi * 2.0 * t * Turns;
    var x := 0.5 + r * m.cos(ang);
    var y := 0.5 + r * m.sin(ang);
    ghost var q := RawPoint(m, i);
    assert x == q.x && y == q.y;
    if o == 1 {
      x := 1.0 - x;
    }
    if o == 2 {
      y := 1.0 - y;
    }
    if o == 3 {
      x := 1.0 - x;
      y := 1.0 - y;
    }
    assert Orient(q, o) == Point(x, y);
    p := Point(Clamp(x, 0.0, 1.0), Clamp(y, 0.0, 1.0));
  }

  /** Orientations 1, 2 and 3 are point for point the mirror images of
      orientation 0 in `x`, in `y` and in both, because clamping to [0, 1]
      commutes with `v ↦ 1 − v`. */
  lemma SpiralMirrors(m: MathLib, i: nat)
    ensures var p := SpiralPoint(m, 0, i);
            && SpiralPoint(m, 1, i) == Point(1.0 - p.x, p.y)
            && SpiralPoint(m, 2, i) == Point(p.x, 1.0 - p.y)
            && SpiralPoint(m, 3, i) == Point(1.0 - p.x, 1.0 - p.y)
  {
    var q := RawPoint(m, i);
    ClampMirror(q.x);
    ClampMirror(q.y);
  }

  // ----- The window around a point -----

  function MinNat(a: nat, b: nat): nat { if a <= b then a else b }

  /** `Math.max(1, Math.round(Math.min(W, H) * 0.01))`: the window radius. */
  function Radius(w: nat, h: nat): (r: int)
    ensures r >= 1
    ensures r == 1 || r == Round(MinNat(w, h) as real * 0.01)
  {
    var q := Round(MinNat(w, h) as real * 0.01);
    if q < 1 then 1 else q
  }

  /** `Math.round(v * (n - 1))`: a normalized coordinate as a pixel index. */
  function PixelOf(v: real, n: nat): (r: int)
    requires n >= 1
    ensures 0.0 <= v <= 1.0 ==> 0 <= r < n
  {
    if 0.0 <= v <= 1.0 then
      ScaleUnit(v, (n - 1) as real);
      Round(v * (n - 1) as real)
    else
      Round(v * (n - 1) as real)
  }

  lemma ScaleUnit(v: real, c: real)
    requires 0.0 <= v <= 1.0 && 0.0 <= c
    ensures 0.0 <= v * c <= c
  {
    assert c - v * c == (1.0 - v) * c;
  }

  /** The inclusive pixel window `[x0, x1] × [y0, y1]`. */
  datatype Window = Window(x0: int, x1: int, y0: int, y1: int)

  predicate WithinMap(win: Window, w: nat, h: nat)
  {
    0 <= win.x0 <= win.x1 < w && 0 <= win.y0 <= win.y1 < h
  }

  /** The window of radius `rad` around point `p` of a `w × h` map, its
      bounds clamped to the map. Whatever the point, the window is non-empty
      and lies within the map; for a point of the unit square it holds the
      point's own pixel. */
  function WindowAt(w: nat, h: nat, rad: int, p: Point): (win: Window)
    requires w >= 1 && h >= 1 && rad >= 0
    ensures WithinMap(win, w, h)
    ensures InUnitSquare(p) ==>
              win.x0 <= PixelOf(p.x, w) <= win.x1 && win.y0 <= PixelOf(p.y, h) <= win.y1
    ensures win.x1 - win.x0 <= 2 * rad && win.y1 - win.y0 <= 2 * rad
  {
    var x, y := PixelOf(p.x, w), PixelOf(p.y, h);
    Window(ClampInt(x - rad, 0, w - 1), ClampInt(x + rad, 0, w - 1),
           ClampInt(y - rad, 0, h - 1), ClampInt(y + rad, 0, h - 1))
  }

  /** The number of pixels of the window: the final `cnt`. */
  function Area(win: Window): (n: int)
    requires win.x0 <= win.x1 && win.y0 <= win.y1
    ensures n >= 1
  {
    var dy, dx := win.y1 + 1 - win.y0, win.x1 + 1 - win.x0;
    assert dy * dx >= 1 * dx;
    dy * dx
  }

  /** `sum / cnt` of a count of edges among `cnt >= 1` pixels. */
  function Ratio(sum: nat, cnt: int): (r: real)
    requires cnt >= 1
    ensures sum <= cnt ==> 0.0 <= r <= 1.0
    ensures sum == 0 ==> r == 0.0
  {
    if sum <= cnt then Share(sum, cnt); sum as real / cnt as real
    else sum as real / cnt as real
  }

  lemma Share(sum: nat, cnt: int)
    requires 0 < cnt && sum <= cnt
    ensures 0.0 <= sum as real / cnt as real <= 1.0
  {
    var q := sum as real / cnt as real;
    assert q * cnt as real == sum as real;
    if q > 1.0 {
      MulStrict(1.0, q, cnt as real);
    }
  }

  /** The window's share of edge pixels, in [0, 1]. */
  function WindowDensity(e: EdgeMap, win: Window): (d: real)
    requires WithinMap(win, e.w, e.h)
    ensures 0.0 <= d <= 1.0
  {
    Ratio(RectHits(e, win.y0, win.y1 + 1, win.x0, win.x1 + 1), Area(win))
  }

  /** The two nested loops over the window: `sum` edge pixels among `cnt`
      pixels. */
  method CountWindow(a: array2<byte>, win: Window) returns (sum: nat, cnt: int)
    requires WithinMap(win, a.Length1, a.Length0)
    ensures sum == RectHits(MapOf(a), win.y0, win.y1 + 1, win.x0, win.x1 + 1)
    ensures cnt == Area(win)
  {
    ghost var e := MapOf(a);
    ghost var width := win.x1 + 1 - win.x0;
    sum, cnt := 0, 0;
    var yy := win.y0;
    while yy <= win.y1
      invariant win.y0 <= yy <= win.y1 + 1
      invariant sum == RectHits(e, win.y0, yy, win.x0, win.x1 + 1)
      invariant cnt == Repeat(yy - win.y0, width)
    {
      var rowSum, rowCnt := CountRow(a, e, yy, win.x0, win.x1);
      assert RectHits(e, win.y0, yy + 1, win.x0, win.x1 + 1) == sum + rowSum;
      sum, cnt := sum + rowSum, cnt + rowCnt;
      yy := yy + 1;
    }
    RepeatIsProduct(yy - win.y0, width);
  }

  /** The inner loop of `CountWindow`: row `y` from column `x0` to `x1`. */
  method CountRow(a: array2<byte>, ghost e: EdgeMap, y: int, x0: int, x1: int) returns (sum: nat, cnt: int)
    requires e == MapOf(a) && 0 <= y < a.Length0 && 0 <= x0 && x0 <= x1 + 1 && x1 < a.Length1
    ensures sum == RowHits(e, y, x0, x1 + 1) && cnt == x1 + 1 - x0
  {
    sum, cnt := 0, 0;
    var xx := x0;
    while xx <= x1
      invariant x0 <= xx <= x1 + 1
      invariant sum == RowHits(e, y, x0, xx)
      invariant cnt == xx - x0
    {
      RowStep(a, y, x0, xx);
      sum := sum + (if a[y, xx] > 0 then 1 else 0);
      cnt := cnt + 1;
      xx := xx + 1;
    }
  }

  /** One more column of a row's count. */
  lemma RowStep(a: array2<byte>, y: int, lo: int, x: int)
    requires 0 <= y < a.Length0 && 0 <= x < a.Length1 && lo <= x
    ensures RowHits(MapOf(a), y, lo, x + 1) == RowHits(MapOf(a), y, lo, x) + Hit(a[y, x])
  {
    PixelAt(a, y, x);
  }

  /** `width` added `rows` times. */
  function Repeat(rows: nat, width: int): int
  {
    if rows == 0 then 0 else Repeat(rows - 1, width) + width
  }

  lemma {:induction false} RepeatIsProduct(rows: nat, width: int)
    ensures Repeat(rows, width) == rows * width
  {
    if rows > 0 {
      RepeatIsProduct(rows - 1, width);
    }
  }

  /** The body of the loop over the points: the window of point `p` and
      the share of edges in it. */
  method PointDensity(a: array2<byte>, ghost e: EdgeMap, r: int, p: Point) returns (d: real)
    requires a.Length0 >= 1 && a.Length1 >= 1 && r >= 0
    requires e == MapOf(a)
    ensures d == WindowDensity(e, WindowAt(e.w, e.h, r, p))
  {
    var w, h := a.Length1, a.Length0;
    var x, y := PixelOf(p.x, w), PixelOf(p.y, h);
    var win := Window(ClampInt(x - r, 0, w - 1), ClampInt(x + r, 0, w - 1),
                      ClampInt(y - r, 0, h - 1), ClampInt(y + r, 0, h - 1));
    assert win == WindowAt(w, h, r, p);
    var sum, cnt := CountWindow(a, win);
    d := sum as real / cnt as real;
  }

  // ----- One orientation -----

  /** `s` after the first `n` points of `pts`: the sum of their windows'
      densities, at most one per point. */
  function DensitySum(e: EdgeMap, rad: int, pts: seq<Point>, n: nat): (s: real)
    requires e.w >= 1 && e.h >= 1 && rad >= 0 && n <= |pts|
    ensures 0.0 <= s <= n as real
  {
    if n == 0 then 0.0
    else DensitySum(e, rad, pts, n - 1) + WindowDensity(e, WindowAt(e.w, e.h, rad, pts[n - 1]))
  }

  /** `s / pts.length`: the mean window density over the points of `pts`. */
  function MeanDensity(e: EdgeMap, pts: seq<Point>): (d: real)
    requires e.w >= 1 && e.h >= 1 && |pts| > 0
    ensures 0.0 <= d <= 1.0
  {
    var sum := DensitySum(e, Radius(e.w, e.h), pts, |pts|);
    MeanBounds(sum, |pts| as real);
    sum / |pts| as real
  }

  lemma MeanBounds(sum: real, n: real)
    requires 0.0 < n && 0.0 <= sum <= n
    ensures 0.0 <= sum / n <= 1.0
  {
    var q := sum / n;
    assert q * n == sum;
    if q > 1.0 {
      MulStrict(1.0, q, n);
    }
  }

  /** `Math.exp(-(dx * dx + dy * dy) / (k * k))` with `k = 0.18`: the
      falloff with the distance from the subject `c` to the eye. */
  function Falloff(m: MathLib, c: Point, eye: Point): real
  {
    m.exp(-Dist2(c, eye) / (0.18 * 0.18))
  }

  /** A mean density, damped by the falloff when there is a subject. */
  function Damped(m: MathLib, mean: real, subject: Option<Point>, eye: Point): real
  {
    match subject
    case None => mean
    case Some(c) => mean * Falloff(m, c, eye)
  }

  /** The score `s` of orientation `o`. */
  function OrientationScore(m: MathLib, e: EdgeMap, subject: Option<Point>, o: Orientation): real
    requires e.w >= 1 && e.h >= 1
  {
    var pts := Spiral(m, o);
    Damped(m, MeanDensity(e, pts), subject, pts[0])
  }

  /** One pass of the orientation loop up to the comparison with
      `bestScore`. */
  method ScoreOrientation(m: MathLib, a: array2<byte>, ghost e: EdgeMap, subject: Option<Point>, o: Orientation)
    returns (s: real, eye: Point)
    requires a.Length0 >= 1 && a.Length1 >= 1
    requires e == MapOf(a)
    ensures s == OrientationScore(m, e, subject, o)
    ensures eye == SpiralPoint(m, o, 0)
  {
    var w, h := a.Length1, a.Length0;
    var pts;
    pts, eye := BuildSpiral(m, o);
    s := SumDensities(a, e, Radius(w, h), pts);
    s := s / |pts| as real;
    if subject.Some? {
      var dx := subject.value.x - eye.x;
      var dy := subject.value.y - eye.y;
      var k := 0.18;
      s := Damp(m, s, subject.value, eye, dx, dy, k);
    }
  }

  /** `s *= Math.exp(-(dx * dx + dy * dy) / (k * k))`. */
  function Damp(m: MathLib, s: real, c: Point, eye: Point, dx: real, dy: real, k: real): (r: real)
    requires dx == c.x - eye.x && dy == c.y - eye.y && k == 0.18
    ensures r == Damped(m, s, Some(c), eye)
  {
    assert dx * dx + dy * dy == Dist2(c, eye) && k * k == 0.18 * 0.18;
    s * m.exp(-(dx * dx + dy * dy) / (k * k))
  }

  /** The loop over the points: the sum of their window densities. */
  method SumDensities(a: array2<byte>, ghost e: EdgeMap, r: int, pts: seq<Point>) returns (s: real)
    requires a.Length0 >= 1 && a.Length1 >= 1 && r >= 0
    requires e == MapOf(a)
    ensures s == DensitySum(e, r, pts, |pts|)
  {
    s := 0.0;
    for i := 0 to |pts|
      invariant s == DensitySum(e, r, pts, i)
    {
      var d := PointDensity(a, e, r, pts[i]);
      s := s + d;
    }
  }

  /** The falloff lies in (0, 1]: it never raises the score. */
  lemma FalloffBounds(m: MathLib, c: Point, eye: Point)
    requires ExpLaws(m.exp)
    ensures 0.0 < Falloff(m, c, eye) <= 1.0
    ensures c == eye ==> Falloff(m, c, eye) == 1.0
  {
    var d := Dist2(c, eye);
    NonPositiveQuotient(d, 0.18 * 0.18);
    if c == eye {
      Dist2Self(c);
    }
  }

  lemma NonPositiveQuotient(d: real, k: real)
    requires 0.0 <= d && 0.0 < k
    ensures -d / k <= 0.0
  {
  }

  /** The mean density lies in [0, 1], and so does the score of every
      orientation; a subject never raises it above the mean density. */
  lemma OrientationBounds(m: MathLib, e: EdgeMap, subject: Option<Point>, o: Orientation)
    requires e.w >= 1 && e.h >= 1
    requires ExpLaws(m.exp)
    ensures var mean := MeanDensity(e, Spiral(m, o));
            && 0.0 <= mean <= 1.0
            && 0.0 <= OrientationScore(m, e, subject, o) <= mean
  {
    var pts := Spiral(m, o);
    DampedBounds(m, MeanDensity(e, pts), subject, pts[0]);
  }

  lemma DampedBounds(m: MathLib, mean: real, subject: Option<Point>, eye: Point)
    requires ExpLaws(m.exp) && 0.0 <= mean
    ensures 0.0 <= Damped(m, mean, subject, eye) <= mean
    ensures mean == 0.0 ==> Damped(m, mean, subject, eye) == 0.0
  {
    if subject.Some? {
      FalloffBounds(m, subject.value, eye);
      ScaleDown(mean, Falloff(m, subject.value, eye));
    }
  }

  lemma ScaleDown(s: real, f: real)
    requires 0.0 <= s && 0.0 < f <= 1.0
    ensures 0.0 <= s * f <= s
  {
    assert s - s * f == s * (1.0 - f);
  }

  // ----- scoreSpiral -----

  /** The update `if (s > bestScore) { bestScore = s; bestOri = ori; bestEye = eye; }`. */
  function Better(b: SpiralResult, o: Orientation, s: real, eye: Point): SpiralResult
  {
    if s > b.score then SpiralResult(s, o, Some(eye)) else b
  }

  /** `bestScore`, `bestOri` and `bestEye` after the orientations
      `0 .. n - 1`, from `(0, 0, null)`. */
  function BestFrom(scores: seq<real>, eyes: seq<Point>, n: nat): SpiralResult
    requires n <= |scores| == |eyes| <= 4
  {
    if n == 0 then SpiralResult(0.0, 0, None)
    else Better(BestFrom(scores, eyes, n - 1), n - 1, scores[n - 1], eyes[n - 1])
  }

  /** The score of each orientation, in the order `[0, 1, 2, 3]`. */
  function Scores(m: MathLib, e: EdgeMap, subject: Option<Point>): (s: seq<real>)
    requires e.w >= 1 && e.h >= 1
    ensures |s| == 4
  {
    seq(4, o requires 0 <= o < 4 requires e.w >= 1 && e.h >= 1 => OrientationScore(m, e, subject, o))
  }

  /** The eye of each orientation. */
  function Eyes(m: MathLib): (e: seq<Point>)
    ensures |e| == 4
  {
    seq(4, o requires 0 <= o < 4 => SpiralPoint(m, o, 0))
  }

  /** What `scoreSpiral(edges, subject)` returns. */
  function SpiralOf(m: MathLib, e: EdgeMap, subject: Option<Point>): SpiralResult
    requires e.w >= 1 && e.h >= 1
  {
    var s := Scores(m, e, subject);
    var b := BestFrom(s, Eyes(m), |s|);
    SpiralResult(Clamp(b.score, 0.0, 1.0), b.orientation, b.eye)
  }

  /** `scoreSpiral`. */
  method ScoreSpiral(m: MathLib, a: array2<byte>, subject: Option<Point>) returns (res: SpiralResult)
    requires a.Length0 >= 1 && a.Length1 >= 1
    ensures res == SpiralOf(m, MapOf(a), subject)
  {
    ghost var e := MapOf(a);
    ghost var scores, eyes := Scores(m, e, subject), Eyes(m);
    var bestScore, bestOri: Orientation, bestEye: Option<Point> := 0.0, 0, None;
    var orientations: seq<Orientation> := [0, 1, 2, 3];
    for i := 0 to 4
      invariant SpiralResult(bestScore, bestOri, bestEye) == BestFrom(scores, eyes, i)
    {
      var ori := orientations[i];
      assert ori == i && scores[i] == OrientationScore(m, e, subject, ori) && eyes[i] == SpiralPoint(m, ori, 0);
      assert BestFrom(scores, eyes, i + 1) == Better(BestFrom(scores, eyes, i), i, scores[i], eyes[i]);
      bestScore, bestOri, bestEye := Consider(m, a, e, subject, ori, bestScore, bestOri, bestEye);
    }
    res := SpiralResult(Clamp(bestScore, 0.0, 1.0), bestOri, bestEye);
  }

  /** One pass of the orientation loop: the orientation's score, and the
      update of the best so far. */
  method Consider(m: MathLib, a: array2<byte>, ghost e: EdgeMap, subject: Option<Point>, ori: Orientation,
                  bestScore: real, bestOri: Orientation, bestEye: Option<Point>)
    returns (bestScore': real, bestOri': Orientation, bestEye': Option<Point>)
    requires e == MapOf(a) && a.Length0 >= 1 && a.Length1 >= 1
    ensures SpiralResult(bestScore', bestOri', bestEye') ==
            Better(SpiralResult(bestScore, bestOri, bestEye), ori, OrientationScore(m, e, subject, ori), SpiralPoint(m, ori, 0))
  {
    var s, eye := ScoreOrientation(m, a, e, subject, ori);
    bestScore', bestOri', bestEye' := bestScore, bestOri, bestEye;
    if s > bestScore {
      bestScore', bestOri', bestEye' := s, ori, Some(eye);
    }
  }

  /** The fold holds the candidate `BestIdx` picks among the first `n`. */
  lemma {:induction false} BestFromIndex(scores: seq<real>, eyes: seq<Point>, n: nat)
    requires n <= |scores| == |eyes| <= 4
    ensures var k := BestIdx(scores[..n]);
            (k < 0 ==> BestFrom(scores, eyes, n) == SpiralResult(0.0, 0, None)) &&
            (k >= 0 ==> BestFrom(scores, eyes, n) == SpiralResult(scores[k], k, Some(eyes[k])))
  {
    if n > 0 {
      BestFromIndex(scores, eyes, n - 1);
      assert scores[..n][..n - 1] == scores[..n - 1];
    }
  }

  /** The eye is present exactly when some orientation scores above 0; the
      orientation returned is then the first with the greatest score, and
      otherwise the result is `(0, 0, null)`. The score is clamped to
      [0, 1], and with the law of `exp` the clamp changes nothing. */
  lemma SpiralChoice(m: MathLib, e: EdgeMap, subject: Option<Point>)
    requires e.w >= 1 && e.h >= 1
    ensures var r := SpiralOf(m, e, subject);
            var s := Scores(m, e, subject);
            && 0.0 <= r.score <= 1.0
            && (r.eye.Some? <==> exists j :: 0 <= j < 4 && s[j] > 0.0)
            && (r.eye.None? ==> r == SpiralResult(0.0, 0, None))
            && (r.eye.Some? ==> FirstBest(s, r.orientation) && r.eye == Some(SpiralPoint(m, r.orientation, 0))
                                && r.score == Clamp(s[r.orientation], 0.0, 1.0))
            && (ExpLaws(m.exp) && r.eye.Some? ==> r.score == s[r.orientation])
  {
    var s := Scores(m, e, subject);
    BestFromIndex(s, Eyes(m), 4);
    assert s[..4] == s;
    BestIdxFirst(s);
    var k := BestIdx(s);
    if k >= 0 && ExpLaws(m.exp) {
      OrientationBounds(m, e, subject, k);
    }
  }

  // ----- An empty edge map -----

  lemma {:induction false} RowHitsZero(e: EdgeMap, y: int, lo: int, hi: int)
    requires Blank(e)
    ensures RowHits(e, y, lo, hi) == 0
    decreases hi - lo
  {
    if lo < hi {
      RowHitsZero(e, y, lo, hi - 1);
    }
  }

  lemma {:induction false} RectHitsZero(e: EdgeMap, ylo: int, yhi: int, xlo: int, xhi: int)
    requires Blank(e) && xlo <= xhi
    ensures RectHits(e, ylo, yhi, xlo, xhi) == 0
    decreases yhi - ylo
  {
    if ylo < yhi {
      RectHitsZero(e, ylo, yhi - 1, xlo, xhi);
      RowHitsZero(e, yhi - 1, xlo, xhi);
    }
  }

  lemma {:induction false} DensitySumZero(e: EdgeMap, rad: int, pts: seq<Point>, n: nat)
    requires Blank(e)
    requires e.w >= 1 && e.h >= 1 && rad >= 0 && n <= |pts|
    ensures DensitySum(e, rad, pts, n) == 0.0
  {
    if n > 0 {
      DensitySumZero(e, rad, pts, n - 1);
      WindowZero(e, WindowAt(e.w, e.h, rad, pts[n - 1]));
    }
  }

  lemma WindowZero(e: EdgeMap, win: Window)
    requires Blank(e) && WithinMap(win, e.w, e.h)
    ensures WindowDensity(e, win) == 0.0
  {
    RectHitsZero(e, win.y0, win.y1 + 1, win.x0, win.x1 + 1);
  }

  /** A map without edges scores 0 in every orientation, so the result is
      `(0, 0, null)` whatever the subject. */
  lemma ZeroMapSpiral(m: MathLib, e: EdgeMap, subject: Option<Point>)
    requires Blank(e)
    requires e.w >= 1 && e.h >= 1
    ensures SpiralOf(m, e, subject) == SpiralResult(0.0, 0, None)
  {
    var s := Scores(m, e, subject);
    forall j | 0 <= j < 4
      ensures s[j] <= 0.0
    {
      OrientationZero(m, e, subject, j);
    }
    SpiralChoice(m, e, subject);
  }

  lemma OrientationZero(m: MathLib, e: EdgeMap, subject: Option<Point>, o: Orientation)
    requires Blank(e)
    requires e.w >= 1 && e.h >= 1
    ensures OrientationScore(m, e, subject, o) == 0.0
  {
    var pts := Spiral(m, o);
    MeanZero(e, pts);
    if subject.Some? {
      ZeroTimes(MeanDensity(e, pts), Falloff(m, subject.value, pts[0]));
    }
  }

  lemma MeanZero(e: EdgeMap, pts: seq<Point>)
    requires Blank(e)
    requires e.w >= 1 && e.h >= 1 && |pts| > 0
    ensures MeanDensity(e, pts) == 0.0
  {
    var sum := DensitySum(e, Radius(e.w, e.h), pts, |pts|);
    DensitySumZero(e, Radius(e.w, e.h), pts, |pts|);
    assert sum / |pts| as real == 0.0;
  }

  lemma ZeroTimes(x: real, f: real)
    requires x == 0.0
    ensures x * f == 0.0
  {
  }
}
