/** The diagonal-method analyzer (src/cv/analyzers/diagonal.ts): the share
    of edge pixels among the pixels sampled on a strided grid that lie
    within a band around each image diagonal. */
module Diagonal {
  import opened Numeric
  import opened Edges
  import opened Types
  import opened Sampling

  function MinInt(a: int, b: int): int { if a <= b then a else b }

  /** `Math.max(1, Math.round(Math.min(W, H) * 0.01))`: the band half-width. */
  function Band(w: nat, h: nat): (r: int)
    ensures r >= 1 && r >= Round(MinInt(w, h) as real * 0.01)
  {
    var b := Round(MinInt(w, h) as real * 0.01);
    if b < 1 then 1 else b
  }

  /** `Math.max(1, Math.floor(Math.min(W, H) / 512))`: the sampling stride. */
  function Step(w: nat, h: nat): (r: int)
    ensures r >= 1 && r >= MinInt(w, h) / 512
  {
    var s := MinInt(w, h) / 512;
    if s < 1 then 1 else s
  }

  /** `H / W`. A map without columns samples no pixel, and its slope, which
      JavaScript makes infinite or `NaN`, is then never used; the model takes
      0 for it. */
  function Slope(w: nat, h: nat): real
  {
    if w > 0 then h as real / w as real else 0.0
  }

  /** `Math.abs(y - yDiag) <= band`, where the diagonal runs from the top-left
      to the bottom-right corner (`tlbr`) or from the bottom-left to the
      top-right one, with `slope = H / W` computed once by the caller. */
  predicate InBand(tlbr: bool, slope: real, h: int, band: int, x: int, y: int)
  {
    var yDiag := if tlbr then slope * x as real else -slope * x as real + h as real;
    Abs(y as real - yDiag) <= band as real
  }

  /** The band test of `bandDensity(tlbr)` on a `w` by `h` map. */
  function BandTest(tlbr: bool, w: nat, h: nat): (int, int) -> bool
  {
    (x: int, y: int) => InBand(tlbr, Slope(w, h), h, Band(w, h), x, y)
  }

  /** What `bandDensity(tlbr)` returns for the map `a`. */
  function BandDensityOf(e: EdgeMap, tlbr: bool): real
  {
    var w, h := e.w, e.h;
    Density(Rows(e, BandTest(tlbr, w, h), Step(w, h), 0))
  }

  /** `bandDensity`: the share of edges among the band's samples, in [0, 1]. */
  method BandDensity(a: array2<byte>, tlbr: bool) returns (d: real)
    ensures d == BandDensityOf(MapOf(a), tlbr)
    ensures 0.0 <= d <= 1.0
  {
    var w, h := a.Length1, a.Length0;
    var sum, cnt := SampleRows(a, BandTest(tlbr, w, h), Step(w, h));
    d := if cnt > 0 then sum as real / cnt as real else 0.0;
  }

  /** The density of either band lies in [0, 1]. */
  lemma BandDensityBounds(e: EdgeMap, tlbr: bool)
    ensures 0.0 <= BandDensityOf(e, tlbr) <= 1.0
  {
    var w, h := e.w, e.h;
    RowsBound(e, BandTest(tlbr, w, h), Step(w, h), 0);
  }

  /** What `scoreDiagonal` returns: the better diagonal, TLBR on a tie. */
  function DiagonalOf(e: EdgeMap): DiagonalResult
  {
    var t, r := BandDensityOf(e, true), BandDensityOf(e, false);
    DiagonalResult(Max(t, r), if t >= r then TLBR else TRBL)
  }

  /** `scoreDiagonal`. */
  method ScoreDiagonal(a: array2<byte>) returns (r: DiagonalResult)
    ensures var e := MapOf(a);
            && r == DiagonalOf(e)
            && 0.0 <= r.score <= 1.0
            && (r.best == TLBR <==> BandDensityOf(e, true) >= BandDensityOf(e, false))
            && (r.score == BandDensityOf(e, true) || r.score == BandDensityOf(e, false))
            && r.score >= BandDensityOf(e, true) && r.score >= BandDensityOf(e, false)
  {
    var sT := BandDensity(a, true);
    var sR := BandDensity(a, false);
    BandDensityBounds(MapOf(a), true);
    BandDensityBounds(MapOf(a), false);
    var best := if sT >= sR then TLBR else TRBL;
    r := DiagonalResult(Max(sT, sR), best);
  }

  /** A map without edges scores 0, and the tie goes to TLBR. */
  lemma ZeroMapDiagonal(e: EdgeMap)
    requires Blank(e)
    ensures DiagonalOf(e) == DiagonalResult(0.0, TLBR)
  {
    var w, h := e.w, e.h;
    ZeroRows(e, BandTest(true, w, h), Step(w, h), 0);
    ZeroRows(e, BandTest(false, w, h), Step(w, h), 0);
  }
}
