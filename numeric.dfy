/** Numeric helpers shared by the analyzers, the scorer and the coach.
    JavaScript numbers are modelled as mathematical reals; the few JavaScript
    operators whose meaning differs from Dafny's (Math.round, the truncating
    `%`) are written out. The transcendental functions of `Math` are not
    definable here, so they travel as function-valued parameters in a
    `MathLib` record, constrained only by the laws the proofs need. */
module Numeric {

  datatype Option<+T> = None | Some(value: T)

  function Min(a: real, b: real): (r: real)
    ensures r <= a && r <= b && (r == a || r == b)
  {
    if a <= b then a else b
  }

  function Max(a: real, b: real): (r: real)
    ensures r >= a && r >= b && (r == a || r == b)
  {
    if a >= b then a else b
  }

  function Abs(x: real): (r: real)
    ensures r >= 0.0 && (r == x || r == -x)
  {
    if x < 0.0 then -x else x
  }

  /** `Math.max(lo, Math.min(hi, v))` (spiral.ts `clamp`, horizon.ts conf). */
  function Clamp(v: real, lo: real, hi: real): (r: real)
    ensures lo <= hi ==> lo <= r <= hi
    ensures lo <= v <= hi ==> r == v
    ensures lo <= hi && v < lo ==> r == lo
    ensures lo <= hi && v > hi ==> r == hi
  {
    Max(lo, Min(hi, v))
  }

  /** `clamp01` of coach.ts and scoring.ts. */
  function Clamp01(x: real): (r: real)
    ensures 0.0 <= r <= 1.0
    ensures 0.0 <= x <= 1.0 ==> r == x
    ensures x < 0.0 ==> r == 0.0
    ensures x > 1.0 ==> r == 1.0
  {
    Clamp(x, 0.0, 1.0)
  }

  /** Clamping commutes with the mirror `v ↦ 1 − v` of the unit interval. */
  lemma ClampMirror(v: real)
    ensures Clamp(1.0 - v, 0.0, 1.0) == 1.0 - Clamp(v, 0.0, 1.0)
  {
  }

  /** `Math.max(lo, Math.min(hi, v))` on integer pixel coordinates. */
  function ClampInt(v: int, lo: int, hi: int): (r: int)
    ensures lo <= hi ==> lo <= r <= hi
    ensures lo <= v <= hi ==> r == v
  {
    if hi < v then (if lo > hi then lo else hi) else if v < lo then lo else v
  }

  /** JavaScript's `Math.round`: the nearest integer, halves rounded up. */
  function Round(x: real): (r: int)
    ensures r as real - 0.5 <= x < r as real + 0.5
  {
    (x + 0.5).Floor
  }

  /** JavaScript's `%` on integers, which truncates toward zero (the result
      takes the sign of the dividend), unlike Dafny's Euclidean `%`. */
  function JsRem(a: int, b: int): (r: int)
    requires b > 0
    ensures -b < r < b
    ensures a >= 0 ==> r == a % b
    ensures a < 0 ==> r <= 0
  {
    if a >= 0 then a % b else -((-a) % b)
  }

  /** The functions of JavaScript's `Math` that the core calls and that have no
      closed form over the reals. */
  datatype MathLib = MathLib(exp: real -> real, sqrt: real -> real, sin: real -> real,
                             cos: real -> real, atan2: (real, real) -> real)

  /** The two facts about `Math.exp` the proofs use. */
  ghost predicate ExpLaws(exp: real -> real)
  {
    && exp(0.0) == 1.0
    && forall t :: t <= 0.0 ==> 0.0 < exp(t) <= 1.0
  }

  /** `Math.sqrt` returns the non-negative square root. */
  ghost predicate SqrtLaws(sqrt: real -> real)
  {
    forall x :: 0.0 <= x ==> 0.0 <= sqrt(x) && Sq(sqrt(x)) == x
  }

  /** The sine of the angle of the vector (dx, dy), times its length, is dy:
      `Math.sin(Math.atan2(dy, dx)) * Math.hypot(dx, dy) == dy`. */
  ghost predicate SinAtan2Law(sin: real -> real, atan2: (real, real) -> real, sqrt: real -> real)
  {
    forall dx, dy {:trigger atan2(dy, dx)} :: sin(atan2(dy, dx)) * sqrt(Sq(dx) + Sq(dy)) == dy
  }

  ghost predicate Lawful(m: MathLib)
  {
    ExpLaws(m.exp) && SqrtLaws(m.sqrt) && SinAtan2Law(m.sin, m.atan2, m.sqrt)
  }

  /** `Math.hypot(dx, dy)`. */
  function Hypot(sqrt: real -> real, dx: real, dy: real): real
  {
    sqrt(Sq(dx) + Sq(dy))
  }

  /** `x * x`. Squares are compared through this function rather than as
      bare products, which keeps the solver's treatment of them uniform. */
  function Sq(x: real): (r: real)
    ensures r >= 0.0
    ensures x != 0.0 ==> r > 0.0
  {
    if x < 0.0 then
      SquareMonotone(0.0, -x);
      assert (-x) * (-x) == x * x;
      x * x
    else
      SquareMonotone(0.0, x);
      x * x
  }

  lemma MulPositive(a: real, b: real)
    requires 0.0 < a && 0.0 < b
    ensures 0.0 < a * b
  {
  }

  /** Multiplying by a positive factor preserves a strict order. */
  lemma MulStrict(a: real, b: real, c: real)
    requires 0.0 < c
    ensures a < b <==> a * c < b * c
  {
    if a < b {
      MulPositive(b - a, c);
      assert (b - a) * c == b * c - a * c;
    } else if b < a {
      MulPositive(a - b, c);
      assert (a - b) * c == a * c - b * c;
    }
  }

  /** A positive factor passes through `Abs`. */
  lemma AbsScale(x: real, c: real)
    requires 0.0 < c
    ensures Abs(x) * c == Abs(x * c)
  {
    if x < 0.0 {
      assert (-x) * c == -(x * c);
      MulStrict(x, 0.0, c);
    } else {
      MulStrict(0.0, x, c);
    }
  }

  lemma SquareMonotone(a: real, b: real)
    requires 0.0 <= a && 0.0 <= b
    ensures a < b <==> a * a < b * b
  {
    if a < b {
      assert a * (b - a) >= 0.0 && a * (b - a) == a * b - a * a;
      assert b * (b - a) > 0.0 && b * (b - a) == b * b - a * b;
      assert a * a < b * b;
    } else {
      assert b * (a - b) >= 0.0 && b * (a - b) == b * a - b * b;
      assert a * (a - b) >= 0.0 && a * (a - b) == a * a - a * b;
      assert b * b <= a * a;
    }
  }

  /** Comparing square roots is comparing their arguments; this is why the
      model compares squared distances wherever the source compares
      `Math.hypot` values. */
  lemma SqrtMonotone(sqrt: real -> real, a: real, b: real)
    requires SqrtLaws(sqrt)
    requires 0.0 <= a && 0.0 <= b
    ensures sqrt(a) < sqrt(b) <==> a < b
    ensures sqrt(a) <= sqrt(b) <==> a <= b
  {
    SquareMonotone(sqrt(a), sqrt(b));
    SquareMonotone(sqrt(b), sqrt(a));
  }

  /** The square root of zero is zero. */
  lemma SqrtZero(sqrt: real -> real)
    requires SqrtLaws(sqrt)
    ensures sqrt(0.0) == 0.0
  {
    assert Sq(sqrt(0.0)) == 0.0;
  }

  /** A hypot compared with a constant `c ≥ 0` is the squared length compared
      with `c * c`. */
  lemma HypotCompare(sqrt: real -> real, dx: real, dy: real, c: real)
    requires SqrtLaws(sqrt)
    requires 0.0 <= c
    ensures Hypot(sqrt, dx, dy) > c <==> Sq(dx) + Sq(dy) > Sq(c)
    ensures Hypot(sqrt, dx, dy) < c <==> Sq(dx) + Sq(dy) < Sq(c)
  {
    var s := Hypot(sqrt, dx, dy);
    assert 0.0 <= s && Sq(s) == Sq(dx) + Sq(dy);
    SquareMonotone(s, c);
    SquareMonotone(c, s);
  }
}
