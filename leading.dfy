/** The leading-lines analyzer (src/cv/analyzers/leading.ts): the long,
    not near-horizontal Hough segments become implicit lines with a unit
    normal; a two-line RANSAC over pairs drawn at random proposes their
    intersections as vanishing points and keeps the one with the most lines
    passing within 6 pixels; the longest 100 segments are kept for display.
    `Math.random` is replaced by an injected sequence of draws. */
module Leading {
  import opened Numeric
  import opened Geometry
  import opened Segments
  import opened Types
  import opened Sorting
  import Horizon

  /** Segments shorter than this are dropped. */
  const MinLength: real := 30.0
  /** Guard against a zero normal. */
  const NormEps: real := 0.000001
  /** Guard against near-parallel pairs. */
  const DetEps: real := 0.000001
  /** `EPS`: the inlier distance in pixels. */
  const InlierTol: real := 6.0
  /** `ITERS`: the number of RANSAC trials. */
  const Iters: nat := 200
  /** How many segments are kept for display. */
  const KeepMax: nat := 100

  /** An element of `arr`: the line `a x + b y + c = 0` through `seg`. */
  datatype Line = Line(a: real, b: real, c: real, seg: Segment)

  /** The coefficients before normalisation. */
  function NormalA(s: Segment): real { (s.y1 - s.y2) as real }
  function NormalB(s: Segment): real { (s.x2 - s.x1) as real }
  function Offset(s: Segment): real { (s.x1 * s.y2 - s.x2 * s.y1) as real }

  /** What one iteration of the filtering loop pushes for `s`, if anything. */
  function CandidateOf(m: MathLib, s: Segment): Option<Line>
  {
    if Length(m, s) < MinLength then None
    else if NearHorizontal(m, s) then None
    else
      var n := Hypot(m.sqrt, NormalA(s), NormalB(s));
      if n < NormEps then None
      else Some(Line(NormalA(s) / n, NormalB(s) / n, Offset(s) / n, s))
  }

  /** `arr` after the filtering loop, in input order. */
  function Candidates(m: MathLib, lines: seq<Segment>): (arr: seq<Line>)
    ensures |arr| <= |lines|
    ensures forall i :: 0 <= i < |arr| ==> arr[i].seg in lines
    decreases |lines|
  {
    if |lines| == 0 then []
    else
      var init := Candidates(m, lines[..|lines| - 1]);
      match CandidateOf(m, lines[|lines| - 1])
      case None => init
      case Some(l) => init + [l]
  }

  /** The filtering loop. */
  method CollectCandidates(m: MathLib, lines: seq<Segment>) returns (arr: seq<Line>)
    ensures arr == Candidates(m, lines)
  {
    arr := [];
    for i := 0 to |lines|
      invariant arr == Candidates(m, lines[..i])
    {
      assert lines[..i + 1][..i] == lines[..i];
      var s := lines[i];
      var len := Length(m, s);
      if len < MinLength {
        continue;
      }
      if NearHorizontal(m, s) {
        continue;
      }
      var a, b, c := NormalA(s), NormalB(s), Offset(s);
      var n := Hypot(m.sqrt, a, b);
      if n < NormEps {
        continue;
      }
      a, b, c := a / n, b / n, c / n;
      arr := arr + [Line(a, b, c, s)];
    }
    assert lines[..|lines|] == lines;
  }

  lemma SqNeg(x: real)
    ensures Sq(-x) == Sq(x)
  {
    assert (-x) * (-x) == x * x;
  }

  /** The normal `(a, b)` before scaling is as long as the segment. */
  lemma NormalLength(m: MathLib, s: Segment)
    ensures Hypot(m.sqrt, NormalA(s), NormalB(s)) == Length(m, s)
  {
    SqNeg(DY(s));
    assert NormalA(s) == -DY(s);
  }

  /** A segment is a candidate exactly when its squared length is at least
      900 and it is not near-horizontal (`25 dy² ≥ dx² + dy²`); the zero-norm
      guard never rejects a segment that passed the length test. */
  lemma CandidateIff(m: MathLib, s: Segment)
    requires Lawful(m)
    ensures CandidateOf(m, s).Some? <==> Len2(s) >= 900.0 && 25.0 * Sq(DY(s)) >= Len2(s)
    ensures !(Length(m, s) < MinLength) && !NearHorizontal(m, s) ==> CandidateOf(m, s).Some?
  {
    LengthAtLeast(m, s, MinLength);
    NormalLength(m, s);
    if Len2(s) >= 900.0 {
      NearHorizontalIff(m, s);
    }
  }

  lemma SqQuotient(x: real, n: real)
    requires n != 0.0
    ensures Sq(x / n) * Sq(n) == Sq(x)
  {
    var q := x / n;
    assert q * n == x;
    assert (q * q) * (n * n) == (q * n) * (q * n);
  }

  /** The normal of a candidate has unit length, so `|a x + b y + c|` is the
      distance in pixels from `(x, y)` to the line. */
  lemma UnitNormal(m: MathLib, s: Segment)
    requires Lawful(m) && CandidateOf(m, s).Some?
    ensures var l := CandidateOf(m, s).value;
            Sq(l.a) + Sq(l.b) == 1.0
  {
    var n := Hypot(m.sqrt, NormalA(s), NormalB(s));
    assert Sq(n) == Sq(NormalA(s)) + Sq(NormalB(s));
    UnitQuotient(NormalA(s), NormalB(s), n);
  }

  lemma UnitQuotient(a: real, b: real, n: real)
    requires n >= NormEps && Sq(n) == Sq(a) + Sq(b)
    ensures Sq(a / n) + Sq(b / n) == 1.0
  {
    SqQuotient(a, n);
    SqQuotient(b, n);
    assert n != 0.0 && 0.0 < Sq(n);
    UnitSum(Sq(a / n), Sq(b / n), Sq(n), Sq(a), Sq(b));
  }

  lemma UnitSum(p: real, q: real, r: real, pr: real, qr: real)
    requires 0.0 < r && p * r == pr && q * r == qr && pr + qr == r
    ensures p + q == 1.0
  {
    var t := p + q;
    Distribute(p, q, t, r, pr, qr);
    assert t * r == r;
    MulStrict(t, 1.0, r);
    MulStrict(1.0, t, r);
    assert 1.0 * r == r;
  }

  lemma Distribute(p: real, q: real, t: real, r: real, pr: real, qr: real)
    requires t == p + q && p * r == pr && q * r == qr
    ensures t * r == pr + qr
  {
  }

  /** Both end points of a candidate's segment lie on its line. */
  lemma EndPointsOnLine(m: MathLib, s: Segment)
    requires CandidateOf(m, s).Some?
    ensures var l := CandidateOf(m, s).value;
            l.a * s.x1 as real + l.b * s.y1 as real + l.c == 0.0 &&
            l.a * s.x2 as real + l.b * s.y2 as real + l.c == 0.0
  {
    var n := Hypot(m.sqrt, NormalA(s), NormalB(s));
    assert n >= NormEps;
    assert CandidateOf(m, s).value == Line(NormalA(s) / n, NormalB(s) / n, Offset(s) / n, s);
    ThroughEnds(s.x1, s.y1, s.x2, s.y2);
    ScaledLine(NormalA(s), NormalB(s), Offset(s), n, s.x1 as real, s.y1 as real);
    ScaledLine(NormalA(s), NormalB(s), Offset(s), n, s.x2 as real, s.y2 as real);
  }

  /** The line `(y1 - y2) x + (x2 - x1) y + (x1 y2 - x2 y1) = 0` passes
      through both points. */
  lemma ThroughEnds(x1: int, y1: int, x2: int, y2: int)
    ensures var a, b, c := (y1 - y2) as real, (x2 - x1) as real, (x1 * y2 - x2 * y1) as real;
            a * x1 as real + b * y1 as real + c == 0.0 &&
            a * x2 as real + b * y2 as real + c == 0.0
  {
    assert (y1 - y2) * x1 + (x2 - x1) * y1 + (x1 * y2 - x2 * y1) == 0;
    assert (y1 - y2) * x2 + (x2 - x1) * y2 + (x1 * y2 - x2 * y1) == 0;
  }

  lemma ScaledLine(a: real, b: real, c: real, n: real, x: real, y: real)
    requires n != 0.0 && a * x + b * y + c == 0.0
    ensures (a / n) * x + (b / n) * y + c / n == 0.0
  {
    assert ((a / n) * x + (b / n) * y + c / n) * n == a * x + b * y + c;
  }

  /** A segment that the horizon estimator uses is never a candidate here: the
      two files apply the same angle test with opposite outcomes. */
  lemma HorizonDisjoint(m: MathLib, s: Segment)
    ensures Horizon.Qualifies(m, s) ==> CandidateOf(m, s).None?
  {
  }

  /** The random draws of one trial, `Math.random()` twice. */
  datatype Draw = Draw(u: real, v: real)

  predicate ValidDraws(draws: seq<Draw>)
  {
    forall k :: 0 <= k < |draws| ==> 0.0 <= draws[k].u < 1.0 && 0.0 <= draws[k].v < 1.0
  }

  /** `(Math.random() * n) | 0`, which for a draw in [0, 1) is the floor. */
  function Pick(u: real, n: nat): (i: nat)
    requires 0.0 <= u < 1.0 && n > 0
    ensures i < n
  {
    MulStrict(u, 1.0, n as real);
    (u * n as real).Floor
  }

  /** `(x, y)` satisfies the equation of `l`. */
  predicate OnLine(l: Line, p: Point)
  {
    l.a * p.x + l.b * p.y + l.c == 0.0
  }

  /** Line `l` passes within `EPS` pixels of `(vx, vy)`. */
  predicate IsInlier(l: Line, vx: real, vy: real)
  {
    Abs(Residual(l, vx, vy)) <= InlierTol
  }

  /** `a * vx + b * vy + c`. */
  function Residual(l: Line, vx: real, vy: real): real
  {
    l.a * vx + l.b * vy + l.c
  }

  /** The inner loop's count `inl`. */
  function Inliers(arr: seq<Line>, vx: real, vy: real): (n: nat)
    ensures n <= |arr|
    decreases |arr|
  {
    if |arr| == 0 then 0
    else Inliers(arr[..|arr| - 1], vx, vy) + (if IsInlier(arr[|arr| - 1], vx, vy) then 1 else 0)
  }

  method CountInliers(arr: seq<Line>, vx: real, vy: real) returns (inl: nat)
    ensures inl == Inliers(arr, vx, vy)
  {
    inl := 0;
    for k := 0 to |arr|
      invariant inl == Inliers(arr[..k], vx, vy)
    {
      assert arr[..k + 1][..k] == arr[..k];
      var l := arr[k];
      assert Inliers(arr[..k + 1], vx, vy) == Inliers(arr[..k], vx, vy) + (if IsInlier(l, vx, vy) then 1 else 0);
      var d := Abs(Residual(l, vx, vy));
      assert d <= InlierTol <==> IsInlier(l, vx, vy);
      if d <= InlierTol {
        inl := inl + 1;
      }
    }
    assert arr[..|arr|] == arr;
  }

  lemma {:induction false} OneInlier(arr: seq<Line>, vx: real, vy: real, i: nat)
    requires i < |arr| && IsInlier(arr[i], vx, vy)
    ensures Inliers(arr, vx, vy) >= 1
    decreases |arr|
  {
    if i < |arr| - 1 {
      OneInlier(arr[..|arr| - 1], vx, vy, i);
    }
  }

  lemma {:induction false} TwoInliers(arr: seq<Line>, vx: real, vy: real, i: nat, j: nat)
    requires i < j < |arr| && IsInlier(arr[i], vx, vy) && IsInlier(arr[j], vx, vy)
    ensures Inliers(arr, vx, vy) >= 2
    decreases |arr|
  {
    var init := arr[..|arr| - 1];
    if j < |arr| - 1 {
      TwoInliers(init, vx, vy, i, j);
    } else {
      OneInlier(init, vx, vy, i);
    }
  }

  function Det(li: Line, lj: Line): real
  {
    li.a * lj.b - lj.a * li.b
  }

  /** Cramer's rule for the intersection of `li` and `lj`. */
  function Intersection(li: Line, lj: Line): Point
    requires Det(li, lj) != 0.0
  {
    var det := Det(li, lj);
    Point((lj.b * -li.c - li.b * -lj.c) / det, (li.a * -lj.c - lj.a * -li.c) / det)
  }

  /** The intersection satisfies both lines' equations exactly. */
  lemma IntersectionOnBoth(li: Line, lj: Line)
    requires Det(li, lj) != 0.0
    ensures OnLine(li, Intersection(li, lj)) && OnLine(lj, Intersection(li, lj))
  {
    var p := Intersection(li, lj);
    Cramer(li.a, li.b, li.c, lj.a, lj.b, lj.c, Det(li, lj), p.x, p.y);
  }

  lemma Cramer(a1: real, b1: real, c1: real, a2: real, b2: real, c2: real, det: real, x: real, y: real)
    requires det == a1 * b2 - a2 * b1 && det != 0.0
    requires x == (b2 * -c1 - b1 * -c2) / det && y == (a1 * -c2 - a2 * -c1) / det
    ensures a1 * x + b1 * y + c1 == 0.0 && a2 * x + b2 * y + c2 == 0.0
  {
    var px, py := b2 * -c1 - b1 * -c2, a1 * -c2 - a2 * -c1;
    assert x * det == px;
    assert y * det == py;
    assert a1 * px + b1 * py == -c1 * det;
    assert a2 * px + b2 * py == -c2 * det;
    assert (a1 * x + b1 * y + c1) * det == a1 * px + b1 * py + c1 * det;
    assert (a2 * x + b2 * y + c2) * det == a2 * px + b2 * py + c2 * det;
  }

  /** What a trial of the RANSAC loop proposes: nothing when it picks the same
      line twice or a near-parallel pair, else the intersection and its
      inlier count. */
  datatype Proposal = Proposal(inliers: nat, vp: Point)

  function Propose(arr: seq<Line>, d: Draw): Option<Proposal>
    requires |arr| > 0 && 0.0 <= d.u < 1.0 && 0.0 <= d.v < 1.0
  {
    var i, j := Pick(d.u, |arr|), Pick(d.v, |arr|);
    if i == j then None
    else if Abs(Det(arr[i], arr[j])) < DetEps then None
    else
      var p := Intersection(arr[i], arr[j]);
      Some(Proposal(Inliers(arr, p.x, p.y), p))
  }

  /** An accepted trial satisfies both chosen lines exactly, so it counts
      both of them: at least 2 inliers, and at most all candidates. */
  lemma ProposalInliers(arr: seq<Line>, d: Draw)
    requires |arr| > 0 && 0.0 <= d.u < 1.0 && 0.0 <= d.v < 1.0
    requires Propose(arr, d).Some?
    ensures var p := Propose(arr, d).value;
            var i, j := Pick(d.u, |arr|), Pick(d.v, |arr|);
            i != j && OnLine(arr[i], p.vp) && OnLine(arr[j], p.vp) &&
            2 <= p.inliers <= |arr|
  {
    var i, j := Pick(d.u, |arr|), Pick(d.v, |arr|);
    IntersectionOnBoth(arr[i], arr[j]);
    var p := Intersection(arr[i], arr[j]);
    if i < j {
      TwoInliers(arr, p.x, p.y, i, j);
    } else {
      TwoInliers(arr, p.x, p.y, j, i);
    }
  }

  function Proposals(arr: seq<Line>, draws: seq<Draw>): (ps: seq<Option<Proposal>>)
    requires |arr| > 0 && ValidDraws(draws)
    ensures |ps| == |draws|
  {
    seq(|draws|, k requires 0 <= k < |draws| => Propose(arr, draws[k]))
  }

  /** The RANSAC state: `bestIn` and `bestVP`. */
  datatype Ransac = Ransac(bestIn: int, vp: Point)

  /** `if (inl > bestIn) { bestIn = inl; bestVP = [vx, vy]; }` */
  predicate Beats(p: Option<Proposal>, bestIn: int)
  {
    p.Some? && p.value.inliers > bestIn
  }

  function Keep(st: Ransac, p: Option<Proposal>): Ransac
  {
    if Beats(p, st.bestIn) then Ransac(p.value.inliers, p.value.vp) else st
  }

  /** The trials in order, from the state `init`. */
  function BestOf(ps: seq<Option<Proposal>>, init: Ransac): Ransac
    decreases |ps|
  {
    if |ps| == 0 then init else Keep(BestOf(ps[..|ps| - 1], init), ps[|ps| - 1])
  }

  /** `k` is the first accepted trial with the greatest inlier count. */
  ghost predicate FirstBest(ps: seq<Option<Proposal>>, k: nat)
  {
    && k < |ps| && ps[k].Some?
    && (forall j :: 0 <= j < |ps| && ps[j].Some? ==> ps[j].value.inliers <= ps[k].value.inliers)
    && (forall j :: 0 <= j < k && ps[j].Some? ==> ps[j].value.inliers < ps[k].value.inliers)
  }

  /** The index of the trial whose state the loop holds, -1 for the initial
      state. */
  ghost function BestIndex(ps: seq<Option<Proposal>>, init: Ransac): (k: int)
    ensures -1 <= k < |ps|
    decreases |ps|
  {
    if |ps| == 0 then -1
    else if Beats(ps[|ps| - 1], BestOf(ps[..|ps| - 1], init).bestIn) then |ps| - 1
    else BestIndex(ps[..|ps| - 1], init)
  }

  /** The state held is the initial one or that of trial `BestIndex`. */
  lemma {:induction false} BestOfIndex(ps: seq<Option<Proposal>>, init: Ransac)
    ensures var k := BestIndex(ps, init);
            (k < 0 ==> BestOf(ps, init) == init) &&
            (k >= 0 ==> (Beats(ps[k], init.bestIn) &&
                         BestOf(ps, init) == Ransac(ps[k].value.inliers, ps[k].value.vp)))
    decreases |ps|
  {
    if |ps| > 0 {
      var pre := ps[..|ps| - 1];
      BestOfIndex(pre, init);
      var k := BestIndex(pre, init);
      if k >= 0 {
        assert pre[k] == ps[k];
      }
    }
  }

  /** The trial `BestIndex` is the earliest of those with the most inliers;
      there is none exactly when no trial beats the initial state. */
  lemma {:induction false} BestIndexFirst(ps: seq<Option<Proposal>>, init: Ransac)
    ensures var k := BestIndex(ps, init);
            (k < 0 <==> forall j :: 0 <= j < |ps| ==> !Beats(ps[j], init.bestIn)) &&
            (k >= 0 ==> FirstBest(ps, k))
    decreases |ps|
  {
    if |ps| > 0 {
      var pre, last := ps[..|ps| - 1], |ps| - 1;
      BestIndexFirst(pre, init);
      BestOfIndex(pre, init);
      assert forall j :: 0 <= j < |pre| ==> pre[j] == ps[j];
      var k := BestIndex(pre, init);
      var st := BestOf(pre, init);
      if k >= 0 {
        assert FirstBest(pre, k);
        if Beats(ps[last], st.bestIn) {
          assert FirstBest(ps, last);
        } else {
          assert FirstBest(ps, k);
        }
      } else if Beats(ps[last], init.bestIn) {
        forall j | 0 <= j < last && ps[j].Some?
          ensures ps[j].value.inliers < ps[last].value.inliers
        {
          assert !Beats(pre[j], init.bestIn);
        }
        assert FirstBest(ps, last);
      }
    }
  }

  /** The initial `bestVP`: the centre of the edge map. */
  function Centre(cols: int, rows: int): Point
  {
    Point(cols as real / 2.0, rows as real / 2.0)
  }

  /** One pass of the RANSAC loop's body up to the comparison with `bestIn`;
      `None` where the body `continue`s. */
  method Trial(arr: seq<Line>, d: Draw) returns (p: Option<Proposal>)
    requires |arr| > 0 && 0.0 <= d.u < 1.0 && 0.0 <= d.v < 1.0
    ensures p == Propose(arr, d)
  {
    var i := Pick(d.u, |arr|);
    var j := Pick(d.v, |arr|);
    if i == j {
      return None;
    }
    var li, lj := arr[i], arr[j];
    var det := Det(li, lj);
    if Abs(det) < DetEps {
      return None;
    }
    var v := Intersection(li, lj);
    var inl := CountInliers(arr, v.x, v.y);
    p := Some(Proposal(inl, v));
  }

  /** The RANSAC loop, on at least two candidates and `ITERS` draws. */
  method RunRansac(arr: seq<Line>, draws: seq<Draw>, cols: int, rows: int) returns (bestIn: int, bestVP: Point)
    requires |arr| >= 2 && |draws| == Iters && ValidDraws(draws)
    ensures Ransac(bestIn, bestVP) == BestOf(Proposals(arr, draws), Ransac(-1, Centre(cols, rows)))
  {
    bestIn := -1;
    bestVP := Point(cols as real / 2.0, rows as real / 2.0);
    ghost var ps := Proposals(arr, draws);
    for it := 0 to Iters
      invariant Ransac(bestIn, bestVP) == BestOf(ps[..it], Ransac(-1, Centre(cols, rows)))
    {
      assert ps[..it + 1][..it] == ps[..it];
      var p := Trial(arr, draws[it]);
      assert p == ps[it];
      if p.Some? && p.value.inliers > bestIn {
        bestIn := p.value.inliers;
        bestVP := p.value.vp;
      }
    }
    assert ps[..Iters] == ps;
  }

  /** The comparator's key: `Math.hypot` of the segment, compared through its
      square, which orders segments the same way (`Numeric.SqrtMonotone`). */
  function LineKey(l: Line): real { Len2(l.seg) }
  function NoRank(l: Line): int { 0 }

  /** The segments of `ls`, in order. */
  function Segs(ls: seq<Line>): (r: seq<Segment>)
    ensures |r| == |ls| && forall i :: 0 <= i < |ls| ==> r[i] == ls[i].seg
    decreases |ls|
  {
    if |ls| == 0 then [] else Segs(ls[..|ls| - 1]) + [ls[|ls| - 1].seg]
  }

  /** `kept`: the segments of the first 100 lines after sorting by length. */
  function Kept(arr: seq<Line>): seq<Segment>
  {
    Segs(Take(Sort(LineKey, NoRank, arr), KeepMax))
  }

  /** What `analyzeLeading` returns for the Hough segments `lines` of an edge
      map of `cols` by `rows` pixels, given the draws of the RANSAC loop. */
  function LeadingOf(m: MathLib, lines: seq<Segment>, cols: int, rows: int, draws: seq<Draw>): LeadingResult
    requires |draws| == Iters && ValidDraws(draws)
  {
    var arr := Candidates(m, lines);
    if |arr| < 2 then LeadingResult(0.0, None, [])
    else
      var st := BestOf(Proposals(arr, draws), Ransac(-1, Centre(cols, rows)));
      LeadingResult(st.bestIn as real / |arr| as real, Some(st.vp), Kept(arr))
  }

  /** `analyzeLeading`, after `HoughLinesP` has produced `lines`. */
  method AnalyzeLeading(m: MathLib, lines: seq<Segment>, cols: int, rows: int, draws: seq<Draw>)
    returns (r: LeadingResult)
    requires |draws| == Iters && ValidDraws(draws)
    ensures r == LeadingOf(m, lines, cols, rows, draws)
  {
    var arr := CollectCandidates(m, lines);
    if |arr| < 2 {
      return LeadingResult(0.0, None, []);
    }
    var bestIn, bestVP := RunRansac(arr, draws, cols, rows);
    var sorted := Sort(LineKey, NoRank, arr);
    var kept: seq<Segment> := [];
    var count := if |sorted| < KeepMax then |sorted| else KeepMax;
    for k := 0 to count
      invariant kept == Segs(sorted[..k])
    {
      assert sorted[..k + 1][..k] == sorted[..k];
      kept := kept + [sorted[k].seg];
    }
    assert sorted[..count] == Take(sorted, KeepMax);
    var convergence := bestIn as real / |arr| as real;
    r := LeadingResult(convergence, Some(bestVP), kept);
  }

  /** Fewer than two candidates give `{convergence: 0, vp: null, kept: []}`;
      otherwise `vp` is always present. */
  lemma LeadingPresence(m: MathLib, lines: seq<Segment>, cols: int, rows: int, draws: seq<Draw>)
    requires |draws| == Iters && ValidDraws(draws)
    ensures var r := LeadingOf(m, lines, cols, rows, draws);
            (|Candidates(m, lines)| < 2 ==> r == LeadingResult(0.0, None, [])) &&
            (r.vp.Some? <==> |Candidates(m, lines)| >= 2)
  {
  }

  /** With at least two candidates: if no trial is accepted, `bestIn` stays
      -1, `vp` is the centre and `convergence` is `-1/n`; otherwise the result
      is the earliest accepted trial with the most inliers, and `convergence`
      lies in [2/n, 1]. */
  lemma LeadingConvergence(m: MathLib, lines: seq<Segment>, cols: int, rows: int, draws: seq<Draw>)
    requires |draws| == Iters && ValidDraws(draws)
    requires |Candidates(m, lines)| >= 2
    ensures var arr := Candidates(m, lines);
            var ps := Proposals(arr, draws);
            var r := LeadingOf(m, lines, cols, rows, draws);
            var n := |arr| as real;
            ((forall k :: 0 <= k < |ps| ==> ps[k].None?) ==>
               r.convergence == -1.0 / n && r.vp == Some(Centre(cols, rows))) &&
            ((exists k :: 0 <= k < |ps| && ps[k].Some?) ==>
               exists k: nat :: FirstBest(ps, k) && r.vp == Some(ps[k].value.vp) &&
                 r.convergence == ps[k].value.inliers as real / n &&
                 2.0 / n <= r.convergence <= 1.0)
  {
    var arr := Candidates(m, lines);
    var ps := Proposals(arr, draws);
    var init := Ransac(-1, Centre(cols, rows));
    var st := BestOf(ps, init);
    var r := LeadingOf(m, lines, cols, rows, draws);
    assert r == LeadingResult(st.bestIn as real / |arr| as real, Some(st.vp), Kept(arr));
    forall k | 0 <= k < |ps| && ps[k].Some?
      ensures 2 <= ps[k].value.inliers <= |arr|
    {
      ProposalInliers(arr, draws[k]);
    }
    ConvergenceOf(ps, init, |arr|, r.convergence, r.vp);
  }

  /** The convergence and vanishing point that the trials `ps` give on `n`
      candidates, each accepted trial having between 2 and `n` inliers. */
  lemma ConvergenceOf(ps: seq<Option<Proposal>>, init: Ransac, n: nat, conv: real, vp: Option<Point>)
    requires init.bestIn == -1 && n >= 2
    requires conv == BestOf(ps, init).bestIn as real / n as real && vp == Some(BestOf(ps, init).vp)
    requires forall k :: 0 <= k < |ps| && ps[k].Some? ==> 2 <= ps[k].value.inliers <= n
    ensures (forall k :: 0 <= k < |ps| ==> ps[k].None?) ==>
              conv == -1.0 / n as real && vp == Some(init.vp)
    ensures (exists k :: 0 <= k < |ps| && ps[k].Some?) ==>
              exists k: nat :: FirstBest(ps, k) && vp == Some(ps[k].value.vp) &&
                conv == ps[k].value.inliers as real / n as real &&
                2.0 / n as real <= conv <= 1.0
  {
    Chosen(ps, init);
    var k := BestIndex(ps, init);
    if k >= 0 {
      FractionBounds(ps[k].value.inliers, n);
    }
  }

  /** From `bestIn = -1`, the state held is the initial one exactly when no
      trial is accepted, and otherwise that of the first trial with the most
      inliers. */
  lemma Chosen(ps: seq<Option<Proposal>>, init: Ransac)
    requires init.bestIn == -1
    ensures var k := BestIndex(ps, init);
            && (k < 0 <==> forall j :: 0 <= j < |ps| ==> ps[j].None?)
            && (k < 0 ==> BestOf(ps, init) == init)
            && (k >= 0 ==> FirstBest(ps, k) && BestOf(ps, init) == Ransac(ps[k].value.inliers, ps[k].value.vp))
  {
    BestOfIndex(ps, init);
    BestIndexFirst(ps, init);
    var k := BestIndex(ps, init);
    if k < 0 {
      forall j | 0 <= j < |ps|
        ensures ps[j].None?
      {
        assert !Beats(ps[j], -1);
      }
    }
  }

  lemma FractionBounds(i: nat, n: nat)
    requires 2 <= i <= n
    ensures 2.0 / n as real <= i as real / n as real <= 1.0
  {
    var r := n as real;
    assert (i as real / r) * r == i as real;
    assert (2.0 / r) * r == 2.0;
    if i as real / r < 2.0 / r {
      MulStrict(i as real / r, 2.0 / r, r);
    }
  }

  /** The kept list has `min(100, n)` segments, by non-increasing length, each
      the segment of a candidate and no candidate's more often than it occurs.
      They are the longest: a candidate left out is cut only behind 100 kept
      segments at least as long as its own. */
  lemma KeptSpec(arr: seq<Line>)
    ensures var kept := Kept(arr);
            |kept| == (if |arr| < KeepMax then |arr| else KeepMax) &&
            (forall i, j :: 0 <= i < j < |kept| ==> Len2(kept[i]) >= Len2(kept[j])) &&
            (forall i :: 0 <= i < |kept| ==> exists l :: l in arr && l.seg == kept[i]) &&
            multiset(kept) <= multiset(Segs(arr)) &&
            (forall l :: l in arr && l.seg !in kept ==>
               |kept| == KeepMax && forall i :: 0 <= i < |kept| ==> Len2(kept[i]) >= Len2(l.seg))
  {
    var sorted := Sort(LineKey, NoRank, arr);
    SortPermutation(LineKey, NoRank, arr);
    SortSorted(LineKey, NoRank, arr);
    KeptOrdered(arr, sorted);
    KeptMultiset(arr, sorted);
    KeptLongest(arr, sorted);
  }

  /** The kept segments come by non-increasing length, each from a candidate. */
  lemma KeptOrdered(arr: seq<Line>, sorted: seq<Line>)
    requires sorted == Sort(LineKey, NoRank, arr) && multiset(sorted) == multiset(arr)
    requires Sorted(LineKey, NoRank, sorted)
    ensures var kept := Kept(arr);
            (forall i, j :: 0 <= i < j < |kept| ==> Len2(kept[i]) >= Len2(kept[j])) &&
            (forall i :: 0 <= i < |kept| ==> exists l :: l in arr && l.seg == kept[i])
  {
    var kept := Kept(arr);
    forall i, j | 0 <= i < j < |kept|
      ensures Len2(kept[i]) >= Len2(kept[j])
    {
      assert !Before(LineKey, NoRank, sorted[j], sorted[i]);
    }
    forall i | 0 <= i < |kept|
      ensures exists l :: l in arr && l.seg == kept[i]
    {
      assert sorted[i] in multiset(arr);
    }
  }

  /** A candidate whose segment is not kept is cut behind 100 segments at
      least as long as its own. */
  lemma KeptLongest(arr: seq<Line>, sorted: seq<Line>)
    requires sorted == Sort(LineKey, NoRank, arr) && multiset(sorted) == multiset(arr)
    requires Sorted(LineKey, NoRank, sorted)
    ensures var kept := Kept(arr);
            forall l :: l in arr && l.seg !in kept ==>
              |kept| == KeepMax && forall i :: 0 <= i < |kept| ==> Len2(kept[i]) >= Len2(l.seg)
  {
    var kept := Kept(arr);
    forall l | l in arr && l.seg !in kept
      ensures |kept| == KeepMax && forall i :: 0 <= i < |kept| ==> Len2(kept[i]) >= Len2(l.seg)
    {
      assert l in multiset(sorted);
      var k :| 0 <= k < |sorted| && sorted[k] == l;
      assert forall i :: 0 <= i < |kept| ==> kept[i] == sorted[i].seg && kept[i] in kept;
      assert k >= |kept|;
      forall i | 0 <= i < |kept|
        ensures Len2(kept[i]) >= Len2(l.seg)
      {
        assert !Before(LineKey, NoRank, sorted[k], sorted[i]);
      }
    }
  }

  /** A prefix of the sorted lines holds no segment more often than the
      candidates do. */
  lemma KeptMultiset(arr: seq<Line>, sorted: seq<Line>)
    requires sorted == Sort(LineKey, NoRank, arr) && multiset(sorted) == multiset(arr)
    ensures multiset(Kept(arr)) <= multiset(Segs(arr))
  {
    var all := Segs(sorted);
    var n := |Kept(arr)|;
    assert Kept(arr) == all[..n];
    assert all == all[..n] + all[n..];
    SegsPermutation(sorted, arr);
  }

  function SegOf(l: Line): Segment { l.seg }

  /** Permuting lines permutes their segments. */
  lemma SegsPermutation(a: seq<Line>, b: seq<Line>)
    requires multiset(a) == multiset(b)
    ensures multiset(Segs(a)) == multiset(Segs(b))
  {
    MapPermutation(SegOf, a, b);
    assert Segs(a) == Map(SegOf, a);
    assert Segs(b) == Map(SegOf, b);
  }

  /** With two non-parallel candidates, a trial that picks two different
      indices picks both lines and is accepted. */
  lemma PairAccepted(arr: seq<Line>, d: Draw)
    requires |arr| == 2 && Abs(Det(arr[0], arr[1])) >= DetEps
    requires 0.0 <= d.u < 1.0 && 0.0 <= d.v < 1.0 && Pick(d.u, 2) != Pick(d.v, 2)
    ensures Propose(arr, d).Some?
  {
    if Pick(d.u, 2) == 1 {
      assert Det(arr[1], arr[0]) == -Det(arr[0], arr[1]);
    }
  }

  /** With two non-parallel candidates and one trial picking both, the loop
      ends with both lines as inliers of a point on both of them. */
  lemma TwoLinesBest(arr: seq<Line>, draws: seq<Draw>, init: Ransac)
    requires |arr| == 2 && Abs(Det(arr[0], arr[1])) >= DetEps
    requires ValidDraws(draws) && init.bestIn == -1
    requires exists k :: 0 <= k < |draws| && Pick(draws[k].u, 2) != Pick(draws[k].v, 2)
    ensures var st := BestOf(Proposals(arr, draws), init);
            st.bestIn == 2 && OnLine(arr[0], st.vp) && OnLine(arr[1], st.vp)
  {
    var ps := Proposals(arr, draws);
    var j :| 0 <= j < |draws| && Pick(draws[j].u, 2) != Pick(draws[j].v, 2);
    PairAccepted(arr, draws[j]);
    assert Beats(ps[j], init.bestIn);
    BestOfIndex(ps, init);
    BestIndexFirst(ps, init);
    var k := BestIndex(ps, init);
    assert k >= 0;
    ProposalInliers(arr, draws[k]);
    var i, i2 := Pick(draws[k].u, 2), Pick(draws[k].v, 2);
    if i == 0 {
      assert i2 == 1;
    } else {
      assert i == 1 && i2 == 0;
    }
  }

  /** Two non-parallel candidates and one trial that picks them both: the
      vanishing point lies on both lines and `convergence` is 1. */
  lemma TwoLinesConverge(m: MathLib, lines: seq<Segment>, cols: int, rows: int, draws: seq<Draw>)
    requires |draws| == Iters && ValidDraws(draws)
    requires var arr := Candidates(m, lines);
             |arr| == 2 && Abs(Det(arr[0], arr[1])) >= DetEps
    requires exists k :: 0 <= k < |draws| && Pick(draws[k].u, 2) != Pick(draws[k].v, 2)
    ensures var arr := Candidates(m, lines);
            var r := LeadingOf(m, lines, cols, rows, draws);
            r.convergence == 1.0 && r.vp.Some? && OnLine(arr[0], r.vp.value) && OnLine(arr[1], r.vp.value)
  {
    TwoLinesBest(Candidates(m, lines), draws, Ransac(-1, Centre(cols, rows)));
  }

  /** The nonnegative root is unique. */
  lemma RootOf(sqrt: real -> real, x: real, r: real)
    requires SqrtLaws(sqrt) && 0.0 <= r && Sq(r) == x
    ensures sqrt(x) == r
  {
    SquareMonotone(sqrt(x), r);
    SquareMonotone(r, sqrt(x));
  }

  /** A vertical segment 40 pixels long at column `x`. */
  function Vertical(x: int): Segment
  {
    Segment(x, 0, x, 40)
  }

  /** Each such segment is a candidate with the normal (-1, 0). */
  lemma VerticalCandidate(m: MathLib, x: int)
    requires Lawful(m)
    ensures CandidateOf(m, Vertical(x)) == Some(Line(-1.0, 0.0, x as real, Vertical(x)))
  {
    var s := Vertical(x);
    assert Sq(0.0) == 0.0 && Sq(40.0) == 1600.0 && Sq(-40.0) == 1600.0;
    RootOf(m.sqrt, 1600.0, 40.0);
    assert Length(m, s) == 40.0;
    NearHorizontalIff(m, s);
    assert Hypot(m.sqrt, NormalA(s), NormalB(s)) == 40.0;
    assert Offset(s) == 40.0 * x as real;
  }

  /** Two segments that are both candidates give two candidates, in order. */
  lemma TwoCandidates(m: MathLib, s0: Segment, s1: Segment)
    requires CandidateOf(m, s0).Some? && CandidateOf(m, s1).Some?
    ensures Candidates(m, [s0, s1]) == [CandidateOf(m, s0).value, CandidateOf(m, s1).value]
  {
    assert [s0, s1][..1] == [s0];
    assert [s0][..0] == [];
  }

  /** No trial on two parallel lines is accepted: the loop keeps its
      initial state. */
  lemma ParallelStays(arr: seq<Line>, draws: seq<Draw>, init: Ransac)
    requires |arr| == 2 && Det(arr[0], arr[1]) == 0.0 && Det(arr[1], arr[0]) == 0.0
    requires ValidDraws(draws) && init.bestIn == -1
    ensures BestOf(Proposals(arr, draws), init) == init
  {
    var ps := Proposals(arr, draws);
    forall k | 0 <= k < |ps|
      ensures !Beats(ps[k], init.bestIn)
    {
      assert ps[k] == Propose(arr, draws[k]);
    }
    BestOfIndex(ps, init);
    BestIndexFirst(ps, init);
  }

  /** As written, two vertical segments yield `convergence` -1/2: every
      trial picks the same line twice or a parallel pair, so `bestIn` keeps
      its initial -1. */
  lemma ParallelPairNegative(m: MathLib, x0: int, x1: int, cols: int, rows: int, draws: seq<Draw>)
    requires Lawful(m) && |draws| == Iters && ValidDraws(draws)
    ensures LeadingOf(m, [Vertical(x0), Vertical(x1)], cols, rows, draws).convergence == -0.5
  {
    VerticalCandidate(m, x0);
    VerticalCandidate(m, x1);
    TwoCandidates(m, Vertical(x0), Vertical(x1));
    var arr := Candidates(m, [Vertical(x0), Vertical(x1)]);
    var init := Ransac(-1, Centre(cols, rows));
    assert Det(arr[0], arr[1]) == 0.0 && Det(arr[1], arr[0]) == 0.0;
    ParallelStays(arr, draws, init);
  }

  /** The fraction of candidates through the vanishing point, with the count
      floored at 0 so that a run without an accepted trial reports 0. */
  function CorrectedConvergence(bestIn: int, n: nat): real
    requires n > 0
  {
    if bestIn < 0 then 0.0 else bestIn as real / n as real
  }

  /** `analyzeLeading` with the corrected convergence. */
  function CorrectedLeadingOf(m: MathLib, lines: seq<Segment>, cols: int, rows: int, draws: seq<Draw>): LeadingResult
    requires |draws| == Iters && ValidDraws(draws)
  {
    var arr := Candidates(m, lines);
    if |arr| < 2 then LeadingResult(0.0, None, [])
    else
      var st := BestOf(Proposals(arr, draws), Ransac(-1, Centre(cols, rows)));
      LeadingResult(CorrectedConvergence(st.bestIn, |arr|), Some(st.vp), Kept(arr))
  }

  /** `bestIn` ends at -1 or between 2 and the number of candidates. */
  lemma BestInRange(arr: seq<Line>, draws: seq<Draw>, init: Ransac)
    requires |arr| >= 2 && ValidDraws(draws) && init.bestIn == -1
    ensures var b := BestOf(Proposals(arr, draws), init).bestIn;
            b == -1 || 2 <= b <= |arr|
  {
    var ps := Proposals(arr, draws);
    BestOfIndex(ps, init);
    var k := BestIndex(ps, init);
    if k >= 0 {
      ProposalInliers(arr, draws[k]);
    }
  }

  lemma FractionSign(b: int, n: nat)
    requires n > 0 && (b == -1 || 2 <= b <= n)
    ensures 0.0 <= CorrectedConvergence(b, n) <= 1.0
    ensures b as real / n as real >= 0.0 ==> CorrectedConvergence(b, n) == b as real / n as real
    ensures b as real / n as real < 0.0 ==> CorrectedConvergence(b, n) == 0.0
  {
    if b >= 0 {
      FractionBounds(b, n);
    }
  }

  /** The corrected convergence always lies in [0, 1]; it agrees with the
      source's whenever that is not negative, and is 0 otherwise. */
  lemma CorrectedConvergenceRange(m: MathLib, lines: seq<Segment>, cols: int, rows: int, draws: seq<Draw>)
    requires |draws| == Iters && ValidDraws(draws)
    ensures var r := CorrectedLeadingOf(m, lines, cols, rows, draws);
            var w := LeadingOf(m, lines, cols, rows, draws);
            0.0 <= r.convergence <= 1.0 && r.vp == w.vp && r.kept == w.kept &&
            (w.convergence >= 0.0 ==> r == w) &&
            (w.convergence < 0.0 ==> r.convergence == 0.0)
  {
    var arr := Candidates(m, lines);
    if |arr| >= 2 {
      var init := Ransac(-1, Centre(cols, rows));
      BestInRange(arr, draws, init);
      FractionSign(BestOf(Proposals(arr, draws), init).bestIn, |arr|);
    }
  }
}
