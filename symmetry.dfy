/** The vertical-symmetry scorer (src/cv/analyzers/symmetry.ts): the
    downscaled edge map is compared with its own mirror image, rolled so that
    the mirror axis falls on each of five candidate columns around the centre,
    by the intersection-over-union of the two maps; the first best candidate
    wins. */
module Symmetry {
  import opened Numeric
  import opened Edges
  import opened Types
  import opened Bitwise
  import opened Roll
  import opened Argmax

  /** `down`: the downscaling factor, `Math.max(1, Math.round(Math.min(W, H) / 320))`. */
  function Down(w: nat, h: nat): (d: nat)
    ensures d >= 1
  {
    var r := Round((if w <= h then w else h) as real / 320.0);
    if r < 1 then 1 else r
  }

  /** Maps with a shorter side under 480 pixels are not downscaled; larger
      ones are, to a shorter side between 240 and 400 pixels. */
  lemma DownBounds(w: nat, h: nat)
    ensures var m := if w <= h then w else h;
            var d := Down(w, h);
            (d == 1 <==> m < 480) &&
            (m >= 480 ==> 240 * d <= m < 400 * d)
  {
  }

  /** One row reversed. */
  function FlipRow(row: seq<byte>): (r: seq<byte>)
    ensures |r| == |row|
    decreases |row|
  {
    if |row| == 0 then [] else [row[|row| - 1]] + FlipRow(row[..|row| - 1])
  }

  /** Pixel `x` of a reversed row is pixel `|row| - 1 - x` of the row. */
  lemma {:induction false} FlipRowAt(row: seq<byte>, x: nat)
    requires x < |row|
    ensures FlipRow(row)[x] == row[|row| - 1 - x]
    decreases |row|
  {
    if x > 0 {
      FlipRowAt(row[..|row| - 1], x - 1);
    }
  }

  /** `cv.flip(small, flipped, 1)`: each row reversed. */
  function FlipGrid(g: seq<seq<byte>>, w: nat): (r: seq<seq<byte>>)
    requires Rect(g, w)
    ensures |r| == |g| && Rect(r, w)
  {
    seq(|g|, y requires 0 <= y < |g| => FlipRow(g[y]))
  }

  /** Pixel `x` of a flipped row is pixel `w - 1 - x` of the row. */
  lemma FlipGridAt(g: seq<seq<byte>>, w: nat, y: nat, x: nat)
    requires Rect(g, w) && y < |g| && x < w
    ensures FlipGrid(g, w)[y][x] == g[y][w - 1 - x]
  {
    FlipRowAt(g[y], x);
  }

  /** Flipping twice gives the map back. */
  lemma FlipTwice(g: seq<seq<byte>>, w: nat)
    requires Rect(g, w)
    ensures FlipGrid(FlipGrid(g, w), w) == g
  {
    var f := FlipGrid(g, w);
    var ff := FlipGrid(f, w);
    forall y | 0 <= y < |g|
      ensures ff[y] == g[y]
    {
      forall x | 0 <= x < w
        ensures ff[y][x] == g[y][x]
      {
        FlipGridAt(f, w, y, x);
        FlipGridAt(g, w, y, w - 1 - x);
      }
    }
  }

  datatype Op = And | Or

  function Apply(op: Op, a: byte, b: byte): byte
  {
    match op
    case And => BitAnd(a, b)
    case Or => BitOr(a, b)
  }

  /** The pixel-wise operation on two rows of the same width. */
  function CombineRow(r1: seq<byte>, r2: seq<byte>, op: Op): (r: seq<byte>)
    requires |r1| == |r2|
    ensures |r| == |r1|
    decreases |r1|
  {
    if |r1| == 0 then []
    else CombineRow(r1[..|r1| - 1], r2[..|r2| - 1], op) + [Apply(op, r1[|r1| - 1], r2[|r2| - 1])]
  }

  lemma {:induction false} CombineRowAt(r1: seq<byte>, r2: seq<byte>, op: Op, x: nat)
    requires |r1| == |r2| && x < |r1|
    ensures CombineRow(r1, r2, op)[x] == Apply(op, r1[x], r2[x])
    decreases |r1|
  {
    if x < |r1| - 1 {
      CombineRowAt(r1[..|r1| - 1], r2[..|r2| - 1], op, x);
    }
  }

  /** `cv.bitwise_and` / `cv.bitwise_or` of two maps of the same size. */
  function Combine(g1: seq<seq<byte>>, g2: seq<seq<byte>>, w: nat, op: Op): (r: seq<seq<byte>>)
    requires Rect(g1, w) && Rect(g2, w) && |g1| == |g2|
    ensures |r| == |g1| && Rect(r, w)
  {
    seq(|g1|, y requires 0 <= y < |g1| => CombineRow(g1[y], g2[y], op))
  }

  /** Each pixel of the result is the operation on the two pixels. */
  lemma CombineAt(g1: seq<seq<byte>>, g2: seq<seq<byte>>, w: nat, op: Op, y: nat, x: nat)
    requires Rect(g1, w) && Rect(g2, w) && |g1| == |g2| && y < |g1| && x < w
    ensures Combine(g1, g2, w, op)[y][x] == Apply(op, g1[y][x], g2[y][x])
  {
    CombineRowAt(g1[y], g2[y], op, x);
  }

  /** `sOr > 0 ? Math.min(1, sAnd / sOr) : 0`. */
  function Iou(sAnd: nat, sOr: nat): real
  {
    if sOr > 0 then Min(1.0, sAnd as real / sOr as real) else 0.0
  }

  /** `shift = Math.round(axisNorm * cols) - Math.floor(cols / 2)` for the
      candidate offset `off`. */
  function Shift(off: real, w: nat): (s: int)
    ensures w == 0 ==> s == 0
  {
    Round((0.5 + off) * w as real) - w / 2
  }

  /** The score of the candidate axis `0.5 + off` for the map `g` of width
      `w`: the IoU of `g` with its mirror image rolled by the shift. */
  function CandidateScore(g: seq<seq<byte>>, w: nat, off: real): real
    requires Rect(g, w)
  {
    var rolled := RollGrid(FlipGrid(g, w), Shift(off, w), w);
    Iou(Count(Combine(g, rolled, w, And)), Count(Combine(g, rolled, w, Or)))
  }

  /** `candidates`. */
  const Offsets: seq<real> := [-0.05, -0.025, 0.0, 0.025, 0.05]

  function Scores(g: seq<seq<byte>>, w: nat, offs: seq<real>): (s: seq<real>)
    requires Rect(g, w)
    ensures |s| == |offs|
  {
    seq(|offs|, i requires 0 <= i < |offs| => CandidateScore(g, w, offs[i]))
  }

  /** The update `if (score > best.score) best = { score, axisX: axisNorm }`. */
  function Better(b: SymmetryResult, off: real, score: real): SymmetryResult
  {
    if score > b.score then SymmetryResult(score, 0.5 + off) else b
  }

  /** `best` after the first `n` candidates `offs` with scores `scores`,
      from `{ score: 0, axisX: 0.5 }`. */
  function BestFrom(offs: seq<real>, scores: seq<real>, n: nat): SymmetryResult
    requires n <= |offs| == |scores|
  {
    if n == 0 then SymmetryResult(0.0, 0.5)
    else Better(BestFrom(offs, scores, n - 1), offs[n - 1], scores[n - 1])
  }

  /** What `scoreSymmetry` returns for the downscaled map `g` of width `w`. */
  function SymmetryOf(g: seq<seq<byte>>, w: nat): SymmetryResult
    requires Rect(g, w)
  {
    BestFrom(Offsets, Scores(g, w, Offsets), |Offsets|)
  }

  /** `flipped` holds the mirror image of the map `g`. */
  ghost predicate IsFlipOf(flipped: array2<byte>, g: seq<seq<byte>>)
    reads flipped
  {
    && |g| == flipped.Length0 && Rect(g, flipped.Length1)
    && forall y, x :: 0 <= y < flipped.Length0 && 0 <= x < flipped.Length1 ==>
         flipped[y, x] == g[y][flipped.Length1 - 1 - x]
  }

  lemma FlipOfGrid(flipped: array2<byte>, g: seq<seq<byte>>)
    requires IsFlipOf(flipped, g)
    ensures Grid(flipped) == FlipGrid(g, flipped.Length1)
  {
    var w := flipped.Length1;
    var fg, f := Grid(flipped), FlipGrid(g, w);
    forall y | 0 <= y < |g|
      ensures fg[y] == f[y]
    {
      forall x | 0 <= x < w
        ensures fg[y][x] == f[y][x]
      {
        FlipGridAt(g, w, y, x);
      }
    }
  }

  /** `scoreSymmetry`, from the downscaled map `small` and its flip. */
  method ScoreSymmetry(small: array2<byte>, flipped: array2<byte>) returns (best: SymmetryResult)
    requires flipped.Length0 == small.Length0 && flipped.Length1 == small.Length1
    requires Grid(flipped) == FlipGrid(Grid(small), small.Length1)
    ensures best == SymmetryOf(Grid(small), small.Length1)
  {
    var g := Grid(small);
    forall y, x | 0 <= y < flipped.Length0 && 0 <= x < flipped.Length1
      ensures flipped[y, x] == g[y][flipped.Length1 - 1 - x]
    {
      FlipGridAt(g, small.Length1, y, x);
    }
    best := BestCandidate(g, flipped, Offsets);
  }

  /** The candidate loop over the offsets `candidates`. */
  method BestCandidate(g: seq<seq<byte>>, flipped: array2<byte>, candidates: seq<real>) returns (best: SymmetryResult)
    requires IsFlipOf(flipped, g)
    ensures best == BestFrom(candidates, Scores(g, flipped.Length1, candidates), |candidates|)
  {
    ghost var scores := Scores(g, flipped.Length1, candidates);
    best := SymmetryResult(0.0, 0.5);
    for i := 0 to |candidates|
      invariant best == BestFrom(candidates, scores, i)
    {
      best := Consider(g, flipped, candidates[i], best);
    }
  }

  /** One pass of the candidate loop: score the candidate `off` and keep it
      when it beats `best`. */
  method Consider(g: seq<seq<byte>>, flipped: array2<byte>, off: real, best: SymmetryResult) returns (best': SymmetryResult)
    requires IsFlipOf(flipped, g)
    ensures best' == Better(best, off, CandidateScore(g, flipped.Length1, off))
  {
    var axisNorm := 0.5 + off;
    var score := ScoreCandidate(g, flipped, off);
    best' := if score > best.score then SymmetryResult(score, axisNorm) else best;
  }

  /** One pass of the candidate loop up to the comparison with
      `best.score`. */
  method ScoreCandidate(small: seq<seq<byte>>, flipped: array2<byte>, off: real) returns (score: real)
    requires IsFlipOf(flipped, small)
    ensures score == CandidateScore(small, flipped.Length1, off)
  {
    var w := flipped.Length1;
    var axisNorm := 0.5 + off;
    var axis := Round(axisNorm * w as real);
    var centerAxis := w / 2;
    var shift := axis - centerAxis;
    assert shift == Shift(off, w);
    FlipOfGrid(flipped, small);
    var rolled := RollCols(flipped, shift);
    var r := Grid(rolled);
    var sAnd := Count(Combine(small, r, w, And));
    var sOr := Count(Combine(small, r, w, Or));
    score := if sOr > 0 then Min(1.0, sAnd as real / sOr as real) else 0.0;
  }

  // ----- The IoU of one candidate -----

  lemma {:induction false} CountRowLe(r1: seq<byte>, r2: seq<byte>)
    requires |r1| == |r2|
    requires forall x :: 0 <= x < |r1| ==> Hit(r1[x]) <= Hit(r2[x])
    ensures CountRow(r1) <= CountRow(r2)
    decreases |r1|
  {
    if |r1| > 0 {
      CountRowLe(r1[..|r1| - 1], r2[..|r2| - 1]);
    }
  }

  lemma {:induction false} CountLe(g1: seq<seq<byte>>, g2: seq<seq<byte>>)
    requires |g1| == |g2|
    requires forall y :: 0 <= y < |g1| ==> CountRow(g1[y]) <= CountRow(g2[y])
    ensures Count(g1) <= Count(g2)
    decreases |g1|
  {
    if |g1| > 0 {
      CountLe(g1[..|g1| - 1], g2[..|g2| - 1]);
    }
  }

  /** Every pixel of the AND is set in the OR, so `sAnd <= sOr`. */
  lemma AndWithinOr(g1: seq<seq<byte>>, g2: seq<seq<byte>>, w: nat)
    requires Rect(g1, w) && Rect(g2, w) && |g1| == |g2|
    ensures Count(Combine(g1, g2, w, And)) <= Count(Combine(g1, g2, w, Or))
  {
    var a, o := Combine(g1, g2, w, And), Combine(g1, g2, w, Or);
    forall y | 0 <= y < |g1|
      ensures CountRow(a[y]) <= CountRow(o[y])
    {
      AndRowWithinOr(g1[y], g2[y]);
    }
    CountLe(a, o);
  }

  lemma {:induction false} AndRowWithinOr(r1: seq<byte>, r2: seq<byte>)
    requires |r1| == |r2|
    ensures CountRow(CombineRow(r1, r2, And)) <= CountRow(CombineRow(r1, r2, Or))
    decreases |r1|
  {
    if |r1| > 0 {
      var n := |r1|;
      AndRowWithinOr(r1[..n - 1], r2[..n - 1]);
      PixelLaws(r1[n - 1], r2[n - 1]);
      var a, o := CombineRow(r1, r2, And), CombineRow(r1, r2, Or);
      assert a[..n - 1] == CombineRow(r1[..n - 1], r2[..n - 1], And);
      assert o[..n - 1] == CombineRow(r1[..n - 1], r2[..n - 1], Or);
    }
  }

  lemma QuotientAtMostOne(a: real, b: real)
    requires 0.0 <= a <= b && 0.0 < b
    ensures 0.0 <= a / b <= 1.0
  {
    assert (a / b) * b == a;
  }

  /** A candidate scores `|and| / |or|` when the union is non-empty and 0
      otherwise: `Math.min(1, ·)` never cuts, and the score lies in [0, 1]. */
  lemma CandidateIou(g: seq<seq<byte>>, w: nat, off: real)
    requires Rect(g, w)
    ensures var rolled := RollGrid(FlipGrid(g, w), Shift(off, w), w);
            var sAnd := Count(Combine(g, rolled, w, And));
            var sOr := Count(Combine(g, rolled, w, Or));
            var score := CandidateScore(g, w, off);
            sAnd <= sOr && 0.0 <= score <= 1.0 &&
            (sOr > 0 ==> score == sAnd as real / sOr as real) &&
            (sOr == 0 ==> score == 0.0)
  {
    var rolled := RollGrid(FlipGrid(g, w), Shift(off, w), w);
    AndWithinOr(g, rolled, w);
    var sAnd := Count(Combine(g, rolled, w, And));
    var sOr := Count(Combine(g, rolled, w, Or));
    if sOr > 0 {
      QuotientAtMostOne(sAnd as real, sOr as real);
    }
  }

  // ----- The first best candidate -----

  lemma {:induction false} BestFromIndex(offs: seq<real>, scores: seq<real>, n: nat)
    requires n <= |offs| == |scores|
    ensures var k := BestIdx(scores[..n]);
            (k < 0 ==> BestFrom(offs, scores, n) == SymmetryResult(0.0, 0.5)) &&
            (k >= 0 ==> BestFrom(offs, scores, n) == SymmetryResult(scores[k], 0.5 + offs[k]))
  {
    if n > 0 {
      BestFromIndex(offs, scores, n - 1);
      assert scores[..n][..n - 1] == scores[..n - 1];
    }
  }

  /** The result is `(0, 0.5)` exactly when no candidate scores above 0;
      otherwise it is the score and axis of the first candidate with the
      greatest score. The score lies in [0, 1]. */
  lemma SymmetryChoice(g: seq<seq<byte>>, w: nat)
    requires Rect(g, w)
    ensures var r := SymmetryOf(g, w);
            var s := Scores(g, w, Offsets);
            0.0 <= r.score <= 1.0 &&
            ((forall j :: 0 <= j < |s| ==> s[j] <= 0.0) <==> r == SymmetryResult(0.0, 0.5)) &&
            ((exists j :: 0 <= j < |s| && s[j] > 0.0) ==>
               exists k: nat :: FirstBest(s, k) && r == SymmetryResult(s[k], 0.5 + Offsets[k]))
  {
    var s := Scores(g, w, Offsets);
    BestFromIndex(Offsets, s, 5);
    assert s[..5] == s;
    BestIdxFirst(s);
    var k := BestIdx(s);
    if k >= 0 {
      CandidateIou(g, w, Offsets[k]);
      assert FirstBest(s, k);
    }
  }

  // ----- A map equal to its mirror image -----

  /** The 0% candidate's shift: 0 for an even width, 1 for an odd one. */
  lemma ShiftCentre(w: nat)
    ensures Shift(0.0, w) == if w % 2 == 0 then 0 else 1
  {
    var m := w / 2;
    if w % 2 == 0 {
      assert 0.5 * w as real == m as real;
    } else {
      assert 0.5 * w as real == m as real + 0.5;
    }
  }

  /** A map combined with itself is itself. */
  lemma CombineSelf(g: seq<seq<byte>>, w: nat, op: Op)
    requires Rect(g, w)
    ensures Combine(g, g, w, op) == g
  {
    var r := Combine(g, g, w, op);
    forall y | 0 <= y < |g|
      ensures r[y] == g[y]
    {
      CombineRowSelf(g[y], op);
    }
  }

  lemma {:induction false} CombineRowSelf(row: seq<byte>, op: Op)
    ensures CombineRow(row, row, op) == row
    decreases |row|
  {
    if |row| > 0 {
      CombineRowSelf(row[..|row| - 1], op);
      PixelLaws(row[|row| - 1], row[|row| - 1]);
    }
  }

  /** A non-empty map matched against itself has IoU 1. */
  lemma SelfIou(g: seq<seq<byte>>, w: nat)
    requires Rect(g, w) && Count(g) > 0
    ensures Iou(Count(Combine(g, g, w, And)), Count(Combine(g, g, w, Or))) == 1.0
  {
    CombineSelf(g, w, And);
    CombineSelf(g, w, Or);
    IouSame(Count(g));
  }

  lemma IouSame(c: nat)
    requires c > 0
    ensures Iou(c, c) == 1.0
  {
  }

  /** For an even-width non-empty map equal to its horizontal flip, the 0%
      candidate has shift 0 and IoU 1. */
  lemma SymmetricCentre(g: seq<seq<byte>>, w: nat)
    requires Rect(g, w) && w % 2 == 0 && FlipGrid(g, w) == g && Count(g) > 0
    ensures Shift(0.0, w) == 0 && CandidateScore(g, w, 0.0) == 1.0
  {
    ShiftCentre(w);
    SelfIou(g, w);
  }

  /** Such a map scores 1, and the axis reported is the first candidate that
      attains it: the centre, or one of the two to its left when the map is
      so narrow that their shifts round to 0 as well. */
  lemma SymmetricResult(g: seq<seq<byte>>, w: nat)
    requires Rect(g, w) && w % 2 == 0 && FlipGrid(g, w) == g && Count(g) > 0
    ensures SymmetryOf(g, w).score == 1.0
    ensures SymmetryOf(g, w).axisX in {0.45, 0.475, 0.5}
  {
    SymmetricCentre(g, w);
    CentreScores(g, w);
    CentreBest(Scores(g, w, Offsets));
  }

  /** The scores of a map whose 0% candidate scores 1: all at most 1, the
      centre's equal to 1. */
  lemma CentreScores(g: seq<seq<byte>>, w: nat)
    requires Rect(g, w) && CandidateScore(g, w, 0.0) == 1.0
    ensures var s := Scores(g, w, Offsets);
            |s| == 5 && s[2] == 1.0 && forall j :: 0 <= j < |s| ==> s[j] <= 1.0
  {
    assert Scores(g, w, Offsets)[2] == CandidateScore(g, w, 0.0);
    ScoresAtMostOne(g, w, Offsets);
  }

  /** Of five scores at most 1, the third being 1, the best is 1 and its axis
      is one of the first three. */
  lemma CentreBest(s: seq<real>)
    requires |s| == 5 && s[2] == 1.0
    requires forall j :: 0 <= j < |s| ==> s[j] <= 1.0
    ensures BestFrom(Offsets, s, 5).score == 1.0
    ensures BestFrom(Offsets, s, 5).axisX in {0.45, 0.475, 0.5}
  {
    BestFromIndex(Offsets, s, 5);
    assert s[..5] == s;
    BestIdxFirst(s);
    var k := BestIdx(s);
    FirstAtMost(s, 2, k);
    LeftAxes(k);
  }

  /** The axes of the first three candidates. */
  lemma LeftAxes(k: int)
    requires 0 <= k <= 2
    ensures 0.5 + Offsets[k] in {0.45, 0.475, 0.5}
  {
  }

  lemma ScoresAtMostOne(g: seq<seq<byte>>, w: nat, offs: seq<real>)
    requires Rect(g, w)
    ensures forall j :: 0 <= j < |offs| ==> 0.0 <= Scores(g, w, offs)[j] <= 1.0
  {
    forall j | 0 <= j < |offs|
      ensures 0.0 <= Scores(g, w, offs)[j] <= 1.0
    {
      CandidateIou(g, w, offs[j]);
    }
  }

  /** The first best of scores at most 1, one of which is 1, is 1 and comes
      no later than that one. */
  lemma FirstAtMost(s: seq<real>, i: nat, k: int)
    requires i < |s| && s[i] == 1.0 && forall j :: 0 <= j < |s| ==> s[j] <= 1.0
    requires k >= 0 && FirstBest(s, k)
    ensures k <= i && s[k] == 1.0
  {
  }

  // ----- Odd widths -----

  /** The one-pixel map `[[0, 1, 0]]`: equal to its mirror image. */
  function Dot(): seq<seq<byte>>
  {
    [[0, 1, 0]]
  }

  /** As written, the 0% candidate rolls the mirror image of a map of odd
      width one column to the right, so even a map equal to its mirror image
      has IoU 0 there. */
  lemma OddWidthCentreMisses()
    ensures Rect(Dot(), 3) && FlipGrid(Dot(), 3) == Dot() && Count(Dot()) == 1
    ensures Shift(0.0, 3) == 1
    ensures CandidateScore(Dot(), 3, 0.0) == 0.0
  {
    DotMirror();
    ShiftCentre(3);
    DotRolled();
    DotMisses();
  }

  /** `[[0, 1, 0]]` is its own mirror image and has one edge. */
  lemma DotMirror()
    ensures Rect(Dot(), 3) && FlipGrid(Dot(), 3) == Dot() && Count(Dot()) == 1
  {
    var g := Dot();
    FlipGridAt(g, 3, 0, 0);
    FlipGridAt(g, 3, 0, 1);
    FlipGridAt(g, 3, 0, 2);
    assert FlipGrid(g, 3)[0] == g[0];
    CountSingle([0, 1, 0]);
  }

  /** Rolled one column to the right it becomes `[[0, 0, 1]]`. */
  lemma DotRolled()
    ensures RollGrid(Dot(), 1, 3) == [[0, 0, 1]]
  {
    assert KMod(1, 3) == 1;
    assert RollGrid(Dot(), 1, 3)[0] == [0, 0, 1];
  }

  /** `[[0, 1, 0]]` and `[[0, 0, 1]]` share no edge. */
  lemma DotMisses()
    ensures Count(Combine(Dot(), [[0, 0, 1]], 3, And)) == 0
  {
    var g, r := Dot(), [[0, 0, 1]];
    var a := Combine(g, r, 3, And);
    CombineAt(g, r, 3, And, 0, 0);
    CombineAt(g, r, 3, And, 0, 1);
    CombineAt(g, r, 3, And, 0, 2);
    assert BitAnd(0, 0) == 0 && BitAnd(1, 0) == 0 && BitAnd(0, 1) == 0;
    assert a[0] == [0, 0, 0];
    CountSingle([0, 0, 0]);
  }

  /** `countNonZero` of a one-row, three-column map. */
  lemma CountSingle(row: seq<byte>)
    requires |row| == 3
    ensures Count([row]) == Hit(row[0]) + Hit(row[1]) + Hit(row[2])
  {
    assert [row][..0] == [];
    assert Count([row]) == CountRow(row);
    assert CountRow(row[..1]) == Hit(row[0]) by {
      assert row[..1][..0] == [];
    }
    assert row[..2][..1] == row[..1];
    assert CountRow(row[..2]) == CountRow(row[..1]) + Hit(row[1]);
  }

  /** The shift measured from the rounded centre `Math.round(cols / 2)`, so
      that the 0% candidate never moves. */
  function CorrectedShift(off: real, w: nat): int
  {
    Round((0.5 + off) * w as real) - Round(0.5 * w as real)
  }

  function CorrectedCandidateScore(g: seq<seq<byte>>, w: nat, off: real): real
    requires Rect(g, w)
  {
    var shift := CorrectedShift(off, w);
    assert w == 0 ==> shift == 0;
    var rolled := RollGrid(FlipGrid(g, w), shift, w);
    Iou(Count(Combine(g, rolled, w, And)), Count(Combine(g, rolled, w, Or)))
  }

  /** With the corrected shift, every non-empty map equal to its mirror image
      has IoU 1 at the 0% candidate, whatever the parity of its width. */
  lemma CorrectedCentre(g: seq<seq<byte>>, w: nat)
    requires Rect(g, w) && FlipGrid(g, w) == g && Count(g) > 0
    ensures CorrectedShift(0.0, w) == 0 && CorrectedCandidateScore(g, w, 0.0) == 1.0
  {
    SelfIou(g, w);
  }

  /** The corrected shift agrees with the source's on even widths. */
  lemma CorrectedAgreesEven(off: real, w: nat)
    requires w % 2 == 0
    ensures CorrectedShift(off, w) == Shift(off, w)
  {
    ShiftCentre(w);
  }
}
