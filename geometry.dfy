/** Points in normalized frame space and the "nearest target" search that
    thirds.ts, phi.ts and coach.ts each run as a `for` loop over a short
    list of target points: keep the first target whose distance is strictly
    below the best distance seen so far. */
module Geometry {
  import opened Numeric

  /** A point in normalized space, origin top-left, both axes nominally in [0,1]. */
  datatype Point = Point(x: real, y: real)

  predicate InUnitSquare(p: Point)
  {
    0.0 <= p.x <= 1.0 && 0.0 <= p.y <= 1.0
  }

  /** Squared Euclidean distance: `Math.hypot(dx, dy)` squared. */
  function Dist2(p: Point, q: Point): (r: real)
    ensures r >= 0.0
  {
    Sq(p.x - q.x) + Sq(p.y - q.y)
  }

  /** A subject exactly on a target is at distance zero. */
  lemma Dist2Self(p: Point)
    ensures Dist2(p, p) == 0.0
  {
  }

  /** The state of the search loop: the index of the best target so far (the
      source's `best`/`T`) and the squared best distance (`bestD` squared;
      `None` stands for the `Infinity` that thirds.ts and phi.ts start from). */
  datatype Nearest = Nearest(best: Option<nat>, bound: Option<real>)

  predicate Below(d: real, bound: Option<real>)
  {
    bound.None? || d < bound.value
  }

  /** One iteration: `if (d < bestD) { bestD = d; best = p; }`. */
  function Improve(n: Nearest, s: Point, ts: seq<Point>, k: nat): Nearest
    requires k < |ts|
  {
    var d := Dist2(s, ts[k]);
    if Below(d, n.bound) then Nearest(Some(k), Some(d)) else n
  }

  /** The loop over all of `ts`, in list order, from the initial state `init`. */
  function NearestAmong(s: Point, ts: seq<Point>, init: Nearest): Nearest
    decreases |ts|
  {
    if |ts| == 0 then init
    else Improve(NearestAmong(s, ts[..|ts| - 1], init), s, ts, |ts| - 1)
  }

  /** The search loop as the source writes it. */
  method FindNearest(s: Point, ts: seq<Point>, init: Nearest) returns (n: Nearest)
    ensures n == NearestAmong(s, ts, init)
  {
    n := init;
    for i := 0 to |ts|
      invariant n == NearestAmong(s, ts[..i], init)
    {
      assert ts[..i + 1][..i] == ts[..i];
      n := Improve(n, s, ts[..i + 1], i);
    }
    assert ts[..|ts|] == ts;
  }

  /** `k` is the first index of `ts` at minimal distance from `s`. */
  ghost predicate FirstNearest(s: Point, ts: seq<Point>, k: nat)
  {
    && k < |ts|
    && (forall j :: 0 <= j < |ts| ==> Dist2(s, ts[k]) <= Dist2(s, ts[j]))
    && (forall j :: 0 <= j < k ==> Dist2(s, ts[k]) < Dist2(s, ts[j]))
  }

  /** What the search computes: if no target is strictly below the initial
      bound, the initial state survives unchanged; otherwise the result is the
      first target at minimal distance, with its squared distance. */
  lemma {:induction false} NearestAmongSpec(s: Point, ts: seq<Point>, init: Nearest)
    ensures (forall j :: 0 <= j < |ts| ==> !Below(Dist2(s, ts[j]), init.bound)) ==>
              NearestAmong(s, ts, init) == init
    ensures (exists j :: 0 <= j < |ts| && Below(Dist2(s, ts[j]), init.bound)) ==>
              var n := NearestAmong(s, ts, init);
              n.best.Some? && FirstNearest(s, ts, n.best.value) &&
              n.bound == Some(Dist2(s, ts[n.best.value]))
    decreases |ts|
  {
    if |ts| > 0 {
      var pre, last := ts[..|ts| - 1], |ts| - 1;
      NearestAmongSpec(s, pre, init);
      var m := NearestAmong(s, pre, init);
      assert NearestAmong(s, ts, init) == Improve(m, s, ts, last);
      if exists j :: 0 <= j < |pre| && Below(Dist2(s, pre[j]), init.bound) {
        NearerLast(s, ts, m.best.value);
      } else {
        assert forall j :: 0 <= j < last ==> ts[j] == pre[j];
        if Below(Dist2(s, ts[last]), init.bound) {
          FirstBelow(s, ts, init.bound);
        }
      }
    }
  }

  /** One more target after the first nearest `k` of the others: it takes
      over exactly when it is strictly nearer. */
  lemma NearerLast(s: Point, ts: seq<Point>, k: nat)
    requires |ts| > 0 && FirstNearest(s, ts[..|ts| - 1], k)
    ensures var last := |ts| - 1;
            if Dist2(s, ts[last]) < Dist2(s, ts[k]) then FirstNearest(s, ts, last)
            else FirstNearest(s, ts, k)
  {
    var pre, last := ts[..|ts| - 1], |ts| - 1;
    assert forall j :: 0 <= j < last ==> ts[j] == pre[j];
  }

  /** A last target that alone is below the bound is the first nearest. */
  lemma FirstBelow(s: Point, ts: seq<Point>, bound: Option<real>)
    requires |ts| > 0
    requires forall j :: 0 <= j < |ts| - 1 ==> !Below(Dist2(s, ts[j]), bound)
    requires Below(Dist2(s, ts[|ts| - 1]), bound)
    ensures FirstNearest(s, ts, |ts| - 1)
  {
  }

  /** Starting from `Infinity` over a non-empty target list always selects
      the first nearest target. */
  lemma NearestFromInfinity(s: Point, ts: seq<Point>)
    requires |ts| > 0
    ensures var n := NearestAmong(s, ts, Nearest(None, None));
            n.best.Some? && FirstNearest(s, ts, n.best.value) &&
            n.bound == Some(Dist2(s, ts[n.best.value]))
  {
    assert Below(Dist2(s, ts[0]), None);
    NearestAmongSpec(s, ts, Nearest(None, None));
  }
}
