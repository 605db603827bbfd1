/** Line segments as `cv.HoughLinesP` reports them (integer end points in the
    downscaled image) and the two tests that horizon.ts and leading.ts apply
    to them: a minimum length and the near-horizontal angle test. */
module Segments {
  import opened Numeric

  /** `[x1, y1, x2, y2]` in pixels of the small image. */
  datatype Segment = Segment(x1: int, y1: int, x2: int, y2: int)

  function DX(s: Segment): real { (s.x2 - s.x1) as real }
  function DY(s: Segment): real { (s.y2 - s.y1) as real }

  /** Squared length of the segment. */
  function Len2(s: Segment): (r: real)
    ensures r >= 0.0
  {
    Sq(DX(s)) + Sq(DY(s))
  }

  /** `Math.hypot(dx, dy)`: the segment's length. */
  function Length(m: MathLib, s: Segment): real
  {
    Hypot(m.sqrt, DX(s), DY(s))
  }

  /** `Math.abs(Math.sin(Math.atan2(dy, dx))) < 0.2`. */
  predicate NearHorizontal(m: MathLib, s: Segment)
  {
    Abs(m.sin(m.atan2(DY(s), DX(s)))) < 0.2
  }

  /** The length of a segment is the square root of its squared length. */
  lemma LengthSquared(m: MathLib, s: Segment)
    requires Lawful(m)
    ensures Length(m, s) >= 0.0
    ensures Sq(Length(m, s)) == Len2(s)
  {
  }

  /** A length threshold `c` is a squared-length threshold `c * c`. */
  lemma LengthAtLeast(m: MathLib, s: Segment, c: real)
    requires Lawful(m) && c >= 0.0
    ensures !(Length(m, s) < c) <==> Len2(s) >= Sq(c)
  {
    HypotCompare(m.sqrt, DX(s), DY(s), c);
  }

  /** For a segment of positive length the angle test is a comparison of
      squares: the sine of the angle is `dy / length`, so `|sin| < 0.2` holds
      exactly when `25 * dy * dy < dx * dx + dy * dy`. */
  lemma NearHorizontalIff(m: MathLib, s: Segment)
    requires Lawful(m) && Len2(s) > 0.0
    ensures NearHorizontal(m, s) <==> 25.0 * Sq(DY(s)) < Len2(s)
  {
    var len := Length(m, s);
    LengthSquared(m, s);
    PositiveRoot(len, Len2(s));
    SineBound(m.sin(m.atan2(DY(s), DX(s))), len, DY(s), Len2(s));
  }

  /** `|sin| < 0.2` for a vector of length `len > 0` whose y component is
      `sin * len`, in squares. */
  lemma SineBound(sn: real, len: real, dy: real, len2: real)
    requires 0.0 < len && sn * len == dy && Sq(len) == len2
    ensures Abs(sn) < 0.2 <==> 25.0 * Sq(dy) < len2
  {
    AbsScale(sn, len);
    ScaledBelow(Abs(sn), len, Abs(dy));
    SquareMonotone(Abs(dy), 0.2 * len);
    assert Abs(dy) * Abs(dy) == Sq(dy);
    assert (0.2 * len) * (0.2 * len) == 0.04 * Sq(len);
  }

  lemma PositiveRoot(len: real, len2: real)
    requires 0.0 <= len && Sq(len) == len2 && 0.0 < len2
    ensures 0.0 < len
  {
  }

  lemma ScaledBelow(a: real, len: real, alen: real)
    requires 0.0 < len && a * len == alen
    ensures a < 0.2 <==> alen < 0.2 * len
  {
    MulStrict(a, 0.2, len);
  }
}
