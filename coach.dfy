/** The coach (src/cv/coach.ts): `suggest` turns an analysis payload into at
    most three camera nudges, each with a message, an estimated gain, an
    effort and a priority. Every rule block appends at most one suggestion to
    `out`, in a fixed block order; the list is then sorted by priority,
    largest first, and cut to three.

    `Math.exp` and `Math.sqrt` (inside `Math.hypot`) come from the `MathLib`
    record. The nearest-third loop reuses the search of `Geometry`, which
    compares squared distances; the source's `bestD = 9` is the squared bound
    81. */
module Coach {
  import opened Numeric
  import opened Geometry
  import opened Types
  import opened Sorting
  import Thirds

  datatype Rule = ThirdsRule | PhiRule | SpiralRule | LeadingRule | DiagonalRule | SymmetryRule | HorizonRule

  /** Pans are fractions of the frame (+x right, +y down), rotations degrees
      clockwise, zooms fractions. */
  datatype Nudge = Pan(dx: real, dy: real) | Rotate(deg: real) | Zoom(dz: real)

  /** What a suggestion says, by rule; `MessageText` spells it out. */
  datatype Message =
    | PlaceOnThird(dx: real, dy: real)
    | BringHorizon(dy: real, ty: real)
    | RotateToDiagonal(rot: real)
    | CenterSymmetry(dx: real)
    | TowardEye
    | RaiseVanishingPoint

  datatype Suggestion = Suggestion(rule: Rule, message: Message, nudges: seq<Nudge>,
                                   estGain: real, effort: real, priority: real)

  /** `near(v, tol)`. */
  predicate Near(v: real, tol: real)
  {
    Abs(v) <= tol
  }

  /** The largest pan the coach suggests, a quarter of the frame. */
  const MaxPan: real := 0.25

  /** `cap(v)`: a pan component clamped to ±25%. */
  function Cap(v: real): (r: real)
    ensures -MaxPan <= r <= MaxPan
    ensures -MaxPan <= v <= MaxPan ==> r == v
  {
    Max(-MaxPan, Min(MaxPan, v))
  }

  /** `safeRatio(g, e)`: the gain per unit of effort, with efforts below 1
      counted as 1. */
  function SafeRatio(g: real, e: real): (r: real)
    ensures e <= 1.0 ==> r == g
    ensures e > 1.0 ==> r * e == g
    ensures 0.0 <= g ==> 0.0 <= r <= g
  {
    g / Max(1.0, e)
  }

  /** ASCII upper-casing of one character. */
  function Upper(c: char): char
  {
    if 'a' <= c <= 'z' then (c as int - 'a' as int + 'A' as int) as char else c
  }

  /** `capFirst(s)`. */
  function CapFirst(s: string): (r: string)
    ensures |r| == |s|
    ensures |s| > 0 ==> r[1..] == s[1..]
    ensures |s| > 0 && 'a' <= s[0] <= 'z' ==> 'A' <= r[0] <= 'Z' && r[0] as int - s[0] as int == 'A' as int - 'a' as int
    ensures |s| > 0 && !('a' <= s[0] <= 'z') ==> r[0] == s[0]
  {
    if |s| == 0 then "" else [Upper(s[0])] + s[1..]
  }

  /** The direction words of `phrasePan`: the subject moves by `(dx, dy)`, so
      the camera pans the other way. */
  function PanParts(dx: real, dy: real): seq<string>
  {
    (if Abs(dx) > 0.02 then [if dx > 0.0 then "pan left" else "pan right"] else [])
    + (if Abs(dy) > 0.02 then [if dy > 0.0 then "tilt up" else "tilt down"] else [])
  }

  /** `parts.join(" and ")`. */
  function JoinAnd(parts: seq<string>): string
  {
    if |parts| == 0 then "" else if |parts| == 1 then parts[0] else parts[0] + " and " + JoinAnd(parts[1..])
  }

  /** `phrasePan(dx, dy, base)`. */
  function PhrasePan(dx: real, dy: real, base: string): string
  {
    var parts := PanParts(dx, dy);
    if |parts| == 0 then base else CapFirst(JoinAnd(parts)) + " – " + base
  }

  /** The base message is returned alone exactly when the subject moves by at
      most 2% on both axes; otherwise it follows the direction words and a
      dash. */
  lemma PhrasePanBase(dx: real, dy: real, base: string)
    ensures PhrasePan(dx, dy, base) == base <==> Abs(dx) <= 0.02 && Abs(dy) <= 0.02
    ensures Abs(dx) > 0.02 || Abs(dy) > 0.02 ==>
              var r := PhrasePan(dx, dy, base);
              |r| > |base| + 3 && r[|r| - |base| - 3..] == " – " + base
  {
    var parts := PanParts(dx, dy);
    assert |parts| == 0 <==> Abs(dx) <= 0.02 && Abs(dy) <= 0.02;
    if |parts| > 0 {
      var lead := CapFirst(JoinAnd(parts));
      assert |lead| >= 7 by {
        assert |JoinAnd(parts)| >= |parts[0]| >= 7;
      }
      Suffix(lead, " – " + base);
      assert lead + " – " + base == lead + (" – " + base);
    }
  }

  lemma Suffix(p: string, q: string)
    ensures |p + q| == |p| + |q| && (p + q)[|p|..] == q
  {
  }

  /** The four thirds points, in the order the source lists them. */
  const Targets: seq<Point> := Thirds.ThirdsPoints

  /** The search state before the nearest-target loop: `T = targets[0]` and
      `bestD = 9`, a distance, hence the squared bound 81. */
  const Start: Nearest := Nearest(Some(0), Some(81.0))

  /** Where the loop leaves `T` (as an index) and `bestD` (squared). */
  function Choice(s: Point): (n: Nearest)
    ensures n.best.Some? && n.best.value < |Targets| && n.bound.Some?
  {
    NearestAmongSpec(s, Targets, Start);
    NearestAmong(s, Targets, Start)
  }

  /** The thirds block's target `T`. */
  function Target(s: Point): Point
  {
    Targets[Choice(s).best.value]
  }

  /** The thirds block's `bestD`: the distance to `T` once some target was
      nearer than 9, and 9 otherwise. */
  function BestD(m: MathLib, s: Point): real
  {
    if Choice(s).bound.value < 81.0 then Hypot(m.sqrt, s.x - Target(s).x, s.y - Target(s).y) else 9.0
  }

  /** `T` is the first of the targets nearest to the subject when some target
      lies within 9, and `bestD` then its distance; this always holds for a
      subject inside the frame. When no target is that near, `T` stays the
      first target and `bestD` stays 9. */
  lemma TargetNearest(m: MathLib, s: Point)
    ensures (exists j :: 0 <= j < |Targets| && Dist2(s, Targets[j]) < 81.0) ==>
              FirstNearest(s, Targets, Choice(s).best.value) &&
              Choice(s).bound.value == Dist2(s, Target(s))
    ensures (forall j :: 0 <= j < |Targets| ==> Dist2(s, Targets[j]) >= 81.0) ==>
              Target(s) == Targets[0] && BestD(m, s) == 9.0
    ensures InUnitSquare(s) ==>
              FirstNearest(s, Targets, Choice(s).best.value) &&
              BestD(m, s) == Hypot(m.sqrt, s.x - Target(s).x, s.y - Target(s).y)
  {
    NearestAmongSpec(s, Targets, Start);
    if InUnitSquare(s) {
      var t := Targets[0];
      assert t == Point(1.0 / 3.0, 1.0 / 3.0);
      SquareAtMostOne(s.x - t.x);
      SquareAtMostOne(s.y - t.y);
      assert Dist2(s, Targets[0]) < 81.0;
    }
  }

  lemma SquareAtMostOne(d: real)
    requires -1.0 <= d <= 1.0
    ensures Sq(d) <= 1.0
  {
    SquareMonotone(Abs(d), 1.0);
    assert Abs(d) * Abs(d) == d * d;
  }

  const ThirdsBase: string := "Place the subject on the nearest third"

  /** `(1 - exp(-(bestD²) / 0.04)) * 100`. */
  function ThirdsGain(m: MathLib, bestD: real): real
  {
    (1.0 - m.exp(-Sq(bestD) / 0.04)) * 100.0
  }

  /** The thirds suggestion for a subject at `s` moving to the target `t` at
      distance `bestD`. */
  function ThirdsTip(m: MathLib, s: Point, t: Point, bestD: real): (r: Suggestion)
    ensures r.rule == ThirdsRule
  {
    var dx, dy := t.x - s.x, t.y - s.y;
    var effort := Hypot(m.sqrt, dx, dy) * 100.0;
    Suggestion(ThirdsRule, PlaceOnThird(dx, dy), [Pan(Cap(-dx * 0.5), Cap(-dy * 0.5))],
               ThirdsGain(m, bestD), effort, SafeRatio(ThirdsGain(m, bestD), effort))
  }

  /** The thirds block: a confident subject not within 1% of its target on
      both axes. */
  function ThirdsBlock(m: MathLib, a: Analysis): seq<Suggestion>
  {
    var s := a.subject.center;
    var t := Target(s);
    if a.subject.conf > 0.3 && (!Near(t.x - s.x, 0.01) || !Near(t.y - s.y, 0.01))
    then [ThirdsTip(m, s, t, BestD(m, s))]
    else []
  }

  /** `ty`: the upper third exactly when it is strictly closer. */
  function HorizonTarget(y: real): (ty: real)
    ensures ty == 1.0 / 3.0 <==> Abs(y - 1.0 / 3.0) < Abs(y - 2.0 / 3.0)
    ensures ty == 1.0 / 3.0 || ty == 2.0 / 3.0
  {
    if Abs(y - 1.0 / 3.0) < Abs(y - 2.0 / 3.0) then 1.0 / 3.0 else 2.0 / 3.0
  }

  function HorizonText(dy: real, ty: real): string
  {
    (if dy < 0.0 then "Tilt up" else "Tilt down") + " to bring the horizon to the "
    + (if ty == 1.0 / 3.0 then "upper" else "lower") + " third"
  }

  function HorizonTip(y: real): (r: Suggestion)
    ensures r.rule == HorizonRule
  {
    var ty := HorizonTarget(y);
    var dy := ty - y;
    Suggestion(HorizonRule, BringHorizon(dy, ty), [Pan(0.0, Cap(-dy * 0.6))],
               Min(100.0, Abs(dy) * 220.0), Abs(dy) * 100.0, SafeRatio(Abs(dy) * 220.0, Abs(dy) * 100.0))
  }

  /** The horizon block: a confident horizon more than 1.5% away from its
      third. */
  function HorizonBlock(a: Analysis): seq<Suggestion>
  {
    if a.horizon.Some? && a.horizon.value.conf > 0.3 && !Near(HorizonTarget(a.horizon.value.y) - a.horizon.value.y, 0.015)
    then [HorizonTip(a.horizon.value.y)]
    else []
  }

  /** `rot`: toward the stronger diagonal, 3° counter-clockwise for TLBR and
      3° clockwise for TRBL. */
  function DiagonalTurn(best: DiagonalBest): real
  {
    if best == TLBR then -3.0 else 3.0
  }

  function DiagonalText(rot: real): string
  {
    "Rotate " + (if rot > 0.0 then "clockwise" else "counter-clockwise") + " ~3° to align edges with the diagonals"
  }

  function DiagonalTip(d: DiagonalResult): (r: Suggestion)
    ensures r.rule == DiagonalRule
  {
    var rot := DiagonalTurn(d.best);
    var gain := 20.0 + (1.0 - d.score) * 50.0;
    Suggestion(DiagonalRule, RotateToDiagonal(rot), [Rotate(rot)], gain, Abs(rot), gain / Max(1.0, Abs(rot)))
  }

  /** The diagonal block: any score below 0.85, with no confidence gate. */
  function DiagonalBlock(a: Analysis): seq<Suggestion>
  {
    if a.diagonal.score < 0.85 then [DiagonalTip(a.diagonal)] else []
  }

  function SymmetryText(dx: real): string
  {
    "Slide " + (if dx > 0.0 then "right" else "left") + " to center the symmetry"
  }

  function SymmetryTip(axisX: real): (r: Suggestion)
    ensures r.rule == SymmetryRule
  {
    var dx := 0.5 - axisX;
    Suggestion(SymmetryRule, CenterSymmetry(dx), [Pan(Cap(dx * 0.6), 0.0)],
               Min(100.0, Abs(dx) * 200.0), Abs(dx) * 100.0, SafeRatio(Abs(dx) * 200.0, Abs(dx) * 100.0))
  }

  /** The symmetry block: a symmetry score above 0.4 with its axis more than
      1.5% off centre. */
  function SymmetryBlock(a: Analysis): seq<Suggestion>
  {
    if a.symmetry.score > 0.4 && !Near(0.5 - a.symmetry.axisX, 0.015) then [SymmetryTip(a.symmetry.axisX)] else []
  }

  /** The spiral rotation: 2° counter-clockwise for orientations 0 and 2,
      clockwise for 1 and 3. */
  function SpiralTurn(o: Orientation): real
  {
    if o == 0 || o == 2 then -2.0 else 2.0
  }

  function SpiralTip(m: MathLib, s: Point, sp: SpiralResult, e: Point): (r: Suggestion)
    ensures r.rule == SpiralRule
  {
    var dx, dy := e.x - s.x, e.y - s.y;
    var pan := Pan(Cap(-dx * 0.5), Cap(-dy * 0.5));
    var deg := SpiralTurn(sp.orientation);
    var gain := 30.0 + Clamp01(1.0 - sp.score) * 50.0;
    var effort := Hypot(m.sqrt, pan.dx, pan.dy) * 100.0 + Abs(deg);
    Suggestion(SpiralRule, TowardEye, [pan, Rotate(deg)], gain, effort, gain / Max(1.0, effort))
  }

  /** The spiral block: an eye farther than 3% from the subject, or a spiral
      score below 0.75. */
  function SpiralBlock(m: MathLib, a: Analysis): seq<Suggestion>
  {
    if a.spiral.eye.Some? then
      var s, e := a.subject.center, a.spiral.eye.value;
      if Hypot(m.sqrt, e.x - s.x, e.y - s.y) > 0.03 || a.spiral.score < 0.75
      then [SpiralTip(m, s, a.spiral, e)] else []
    else []
  }

  /** The leading-lines pan: tilt down by 4%. */
  const LeadingPan: Nudge := Pan(0.0, -0.04)

  function LeadingGain(convergence: real): real
  {
    if convergence < 0.8 then 25.0 else 12.0
  }

  function LeadingTip(l: LeadingResult): (r: Suggestion)
    ensures r.rule == LeadingRule
  {
    var effort := Abs(LeadingPan.dy) * 100.0;
    Suggestion(LeadingRule, RaiseVanishingPoint, [LeadingPan], LeadingGain(l.convergence), effort,
               SafeRatio(LeadingGain(l.convergence), effort))
  }

  /** The leading-lines block: whenever there is a vanishing point. */
  function LeadingBlock(a: Analysis): seq<Suggestion>
  {
    if a.leading.vp.Some? then [LeadingTip(a.leading)] else []
  }

  /** The message text of the source. */
  function MessageText(g: Message): string
  {
    match g
    case PlaceOnThird(dx, dy) => PhrasePan(dx, dy, ThirdsBase)
    case BringHorizon(dy, ty) => HorizonText(dy, ty)
    case RotateToDiagonal(rot) => DiagonalText(rot)
    case CenterSymmetry(dx) => SymmetryText(dx)
    case TowardEye => "Nudge framing toward the spiral eye and rotate ~2°"
    case RaiseVanishingPoint => "Tilt down a little to bring the vanishing point toward the upper third"
  }

  /** `out` before sorting: the blocks in source order. */
  function Candidates(m: MathLib, a: Analysis): seq<Suggestion>
  {
    ThirdsBlock(m, a) + HorizonBlock(a) + DiagonalBlock(a) + SymmetryBlock(a) + SpiralBlock(m, a) + LeadingBlock(a)
  }

  function Priority(s: Suggestion): real
  {
    s.priority
  }

  /** The comparator `b.priority - a.priority` breaks no ties. */
  function Unranked(s: Suggestion): int
  {
    0
  }

  /** What `suggest` returns. */
  function SuggestOf(m: MathLib, analysis: Option<Analysis>): seq<Suggestion>
  {
    if analysis.None? then [] else Top(Candidates(m, analysis.value))
  }

  /** The place of each rule's block in `suggest`; "phi" has none. */
  function BlockPos(s: Suggestion): int
  {
    match s.rule
    case ThirdsRule => 0
    case HorizonRule => 1
    case DiagonalRule => 2
    case SymmetryRule => 3
    case SpiralRule => 4
    case LeadingRule => 5
    case PhiRule => 6
  }

  /** A suggestion's priority is its estimated gain per unit of effort, with
      efforts below 1 counted as 1. */
  predicate GainPerEffort(x: Suggestion)
  {
    x.priority == x.estGain / Max(1.0, x.effort)
  }

  /** The estimated gain lies in 0..100 and the effort is non-negative. */
  predicate GainInRange(x: Suggestion)
  {
    0.0 <= x.estGain <= 100.0 && 0.0 <= x.effort
  }

  /** No pan moves by more than a quarter of the frame. */
  predicate PansCapped(x: Suggestion)
  {
    forall n :: n in x.nudges && n.Pan? ==> -MaxPan <= n.dx <= MaxPan && -MaxPan <= n.dy <= MaxPan
  }

  /** What every block promises of its suggestions: at most one, of its own
      rule, with capped pans; its gain per effort as priority and its gain in
      range under the conditions given. */
  predicate BlockFacts(b: seq<Suggestion>, k: int, ratio: bool, inRange: bool)
  {
    && |b| <= 1
    && (forall x :: x in b ==> BlockPos(x) == k && PansCapped(x))
    && (ratio ==> forall x :: x in b ==> GainPerEffort(x))
    && (inRange ==> forall x :: x in b ==> GainInRange(x))
  }

  lemma ThirdsFacts(m: MathLib, a: Analysis)
    ensures BlockFacts(ThirdsBlock(m, a), 0, true, ExpLaws(m.exp) && SqrtLaws(m.sqrt))
  {
    var s := a.subject.center;
    var t := Target(s);
    if ExpLaws(m.exp) && SqrtLaws(m.sqrt) {
      ThirdsGainBounds(m, BestD(m, s));
      assert 0.0 <= Hypot(m.sqrt, t.x - s.x, t.y - s.y);
    }
  }

  lemma ThirdsGainBounds(m: MathLib, bestD: real)
    requires ExpLaws(m.exp)
    ensures 0.0 <= ThirdsGain(m, bestD) < 100.0
  {
    var t := -Sq(bestD) / 0.04;
    assert t <= 0.0;
    assert 0.0 < m.exp(t) <= 1.0;
  }

  /** A horizon inside the frame is at most a third from its target. */
  lemma HorizonReach(y: real)
    requires 0.0 <= y <= 1.0
    ensures Abs(HorizonTarget(y) - y) <= 1.0 / 3.0
  {
  }

  lemma HorizonFacts(a: Analysis)
    ensures BlockFacts(HorizonBlock(a), 1, a.horizon.Some? ==> 0.0 <= a.horizon.value.y <= 1.0, true)
  {
    if a.horizon.Some? && 0.0 <= a.horizon.value.y <= 1.0 {
      HorizonReach(a.horizon.value.y);
    }
  }

  lemma DiagonalFacts(a: Analysis)
    ensures BlockFacts(DiagonalBlock(a), 2, true, 0.0 <= a.diagonal.score)
  {
  }

  lemma SymmetryFacts(a: Analysis)
    ensures BlockFacts(SymmetryBlock(a), 3, 0.0 <= a.symmetry.axisX <= 1.0, true)
  {
  }

  lemma SpiralFacts(m: MathLib, a: Analysis)
    ensures BlockFacts(SpiralBlock(m, a), 4, true, SqrtLaws(m.sqrt))
  {
    if a.spiral.eye.Some? && SqrtLaws(m.sqrt) {
      var e, s := a.spiral.eye.value, a.subject.center;
      assert 0.0 <= Hypot(m.sqrt, Cap(-(e.x - s.x) * 0.5), Cap(-(e.y - s.y) * 0.5));
    }
  }

  lemma LeadingFacts(a: Analysis)
    ensures BlockFacts(LeadingBlock(a), 5, true, true)
  {
  }

  /** Blocks of increasing rank, chained. */
  lemma Chain(s: seq<Suggestion>, b: seq<Suggestion>, k: int, ratio: bool, inRange: bool)
    requires Increasing(BlockPos, s) && forall x :: x in s ==> BlockPos(x) < k && PansCapped(x)
    requires BlockFacts(b, k, ratio, inRange)
    ensures Increasing(BlockPos, s + b) && forall x :: x in s + b ==> BlockPos(x) <= k && PansCapped(x)
  {
    if |b| == 1 {
      forall i | 0 <= i < |s|
        ensures BlockPos((s + b)[i]) < k
      {
        assert (s + b)[i] == s[i] && s[i] in s;
      }
      assert (s + b)[|s|] == b[0];
    }
  }

  /** The facts of six blocks hold of their concatenation, which is in block
      order. */
  lemma ChainAll(t: seq<Suggestion>, h: seq<Suggestion>, d: seq<Suggestion>,
                 y: seq<Suggestion>, p: seq<Suggestion>, l: seq<Suggestion>,
                 ratio: seq<bool>, inRange: seq<bool>)
    requires |ratio| == 6 && |inRange| == 6
    requires BlockFacts(t, 0, ratio[0], inRange[0]) && BlockFacts(h, 1, ratio[1], inRange[1])
    requires BlockFacts(d, 2, ratio[2], inRange[2]) && BlockFacts(y, 3, ratio[3], inRange[3])
    requires BlockFacts(p, 4, ratio[4], inRange[4]) && BlockFacts(l, 5, ratio[5], inRange[5])
    ensures var c := t + h + d + y + p + l;
            && |c| <= 6 && Increasing(BlockPos, c)
            && (forall x :: x in c ==> 0 <= BlockPos(x) <= 5 && PansCapped(x))
            && ((forall i :: 0 <= i < 6 ==> ratio[i]) ==> forall x :: x in c ==> GainPerEffort(x))
            && ((forall i :: 0 <= i < 6 ==> inRange[i]) ==> forall x :: x in c ==> GainInRange(x))
  {
    Chain([], t, 0, ratio[0], inRange[0]);
    assert [] + t == t;
    Chain(t, h, 1, ratio[1], inRange[1]);
    Chain(t + h, d, 2, ratio[2], inRange[2]);
    Chain(t + h + d, y, 3, ratio[3], inRange[3]);
    Chain(t + h + d + y, p, 4, ratio[4], inRange[4]);
    Chain(t + h + d + y + p, l, 5, ratio[5], inRange[5]);
  }

  /** The conditions under which each block gives its gain per effort as
      priority, and under which its gain is in range. */
  ghost function RatioConditions(a: Analysis): seq<bool>
  {
    [true, a.horizon.Some? ==> 0.0 <= a.horizon.value.y <= 1.0, true, 0.0 <= a.symmetry.axisX <= 1.0, true, true]
  }

  ghost function RangeConditions(m: MathLib, a: Analysis): seq<bool>
  {
    [ExpLaws(m.exp) && SqrtLaws(m.sqrt), true, 0.0 <= a.diagonal.score, true, SqrtLaws(m.sqrt), true]
  }

  /** `out` holds at most one suggestion per rule, in block order, none for
      "phi", and every pan in it capped; its priorities are gains per effort
      for a horizon and a symmetry axis inside the frame, and its gains lie in
      0..100 for a non-negative diagonal score. */
  lemma CandidatesFacts(m: MathLib, a: Analysis)
    ensures var c := Candidates(m, a);
            && |c| <= 6 && Increasing(BlockPos, c)
            && (forall x :: x in c ==> 0 <= BlockPos(x) <= 5 && PansCapped(x))
            && ((a.horizon.Some? ==> 0.0 <= a.horizon.value.y <= 1.0) && 0.0 <= a.symmetry.axisX <= 1.0 ==>
                  forall x :: x in c ==> GainPerEffort(x))
            && (ExpLaws(m.exp) && SqrtLaws(m.sqrt) && 0.0 <= a.diagonal.score ==>
                  forall x :: x in c ==> GainInRange(x))
  {
    ThirdsFacts(m, a);
    HorizonFacts(a);
    DiagonalFacts(a);
    SymmetryFacts(a);
    SpiralFacts(m, a);
    LeadingFacts(a);
    var ratio, inRange := RatioConditions(a), RangeConditions(m, a);
    ChainAll(ThirdsBlock(m, a), HorizonBlock(a), DiagonalBlock(a), SymmetryBlock(a), SpiralBlock(m, a), LeadingBlock(a),
             ratio, inRange);
  }

  /** `out.sort(...).slice(0, 3)`. */
  function Top(c: seq<Suggestion>): seq<Suggestion>
  {
    Take(Sort(Priority, Unranked, c), 3)
  }

  /** The cut keeps `min(3, |c|)` elements of `c`. */
  lemma TopShape(c: seq<Suggestion>)
    ensures |Top(c)| == (if |c| <= 3 then |c| else 3)
    ensures forall x :: x in Top(c) ==> x in c
  {
    var s := Sort(Priority, Unranked, c);
    SortPermutation(Priority, Unranked, c);
    forall x | x in Top(c)
      ensures x in c
    {
      var i :| 0 <= i < |Top(c)| && Top(c)[i] == x;
      assert s[i] in multiset(c);
    }
  }

  /** The cut is in non-increasing priority, and ties keep the order of
      `c`. */
  lemma TopOrdered(c: seq<Suggestion>)
    requires Increasing(BlockPos, c)
    ensures var r := Top(c);
            forall i, j :: 0 <= i < j < |r| ==>
              r[i].priority >= r[j].priority &&
              (r[i].priority == r[j].priority ==> BlockPos(r[i]) < BlockPos(r[j]))
  {
    var s := Sort(Priority, Unranked, c);
    SortSorted(Priority, Unranked, c);
    SortStable(Priority, Unranked, BlockPos, c);
    var r := Top(c);
    forall i, j | 0 <= i < j < |r|
      ensures r[i].priority >= r[j].priority
      ensures r[i].priority == r[j].priority ==> BlockPos(r[i]) < BlockPos(r[j])
    {
      assert r[i] == s[i] && r[j] == s[j];
      assert !Before(Priority, Unranked, s[j], s[i]);
    }
  }

  /** Elements told apart by their block stay told apart. */
  lemma TopDistinct(c: seq<Suggestion>)
    requires Increasing(BlockPos, c)
    ensures Distinct(BlockPos, Top(c))
  {
    var s := Sort(Priority, Unranked, c);
    assert Distinct(BlockPos, c);
    SortPermutation(Priority, Unranked, c);
    PermutationDistinct(BlockPos, c, s);
    var r := Top(c);
    forall i, j | 0 <= i < j < |r|
      ensures BlockPos(r[i]) != BlockPos(r[j])
    {
      assert r[i] == s[i] && r[j] == s[j];
    }
  }

  /** An element is cut only behind three of at least its priority. */
  lemma TopKeepsBest(c: seq<Suggestion>)
    ensures var r := Top(c);
            forall x :: x in c && x !in r ==>
              |r| == 3 && forall i :: 0 <= i < |r| ==> r[i].priority >= x.priority
  {
    var s := Sort(Priority, Unranked, c);
    SortPermutation(Priority, Unranked, c);
    SortSorted(Priority, Unranked, c);
    var r := Top(c);
    forall x | x in c && x !in r
      ensures |r| == 3 && forall i :: 0 <= i < |r| ==> r[i].priority >= x.priority
    {
      assert x in multiset(s);
      var k :| 0 <= k < |s| && s[k] == x;
      assert forall i :: 0 <= i < |r| ==> r[i] == s[i] && r[i] in r;
      assert k >= |r|;
      forall i | 0 <= i < |r|
        ensures r[i].priority >= x.priority
      {
        assert r[i] == s[i];
        assert !Before(Priority, Unranked, s[k], s[i]);
      }
    }
  }

  /** Without an analysis there is nothing to suggest. With one, the result
      has `min(3, |out|)` suggestions, all taken from `out`, at most one per
      rule and none for "phi"; every pan in it is capped at a quarter of the
      frame. */
  lemma SuggestShape(m: MathLib, analysis: Option<Analysis>)
    ensures analysis.None? ==> SuggestOf(m, analysis) == []
    ensures analysis.Some? ==>
              var c, r := Candidates(m, analysis.value), SuggestOf(m, analysis);
              |r| == (if |c| <= 3 then |c| else 3) && |r| <= 3 &&
              forall x :: x in r ==> x in c
    ensures var r := SuggestOf(m, analysis);
            && (forall i, j :: 0 <= i < j < |r| ==> r[i].rule != r[j].rule)
            && (forall x :: x in r ==> x.rule != PhiRule && PansCapped(x))
  {
    if analysis.Some? {
      var c := Candidates(m, analysis.value);
      CandidatesFacts(m, analysis.value);
      TopShape(c);
      TopDistinct(c);
      var r := Top(c);
      forall i, j | 0 <= i < j < |r|
        ensures r[i].rule != r[j].rule
      {
        assert BlockPos(r[i]) != BlockPos(r[j]);
      }
    }
  }

  /** The result is in non-increasing priority, and suggestions of equal
      priority keep the block order thirds, horizon, diagonal, symmetry,
      spiral, leading, since the sort is stable; a suggestion is dropped only
      behind three of at least its priority. */
  lemma SuggestOrdered(m: MathLib, a: Analysis)
    ensures var r := SuggestOf(m, Some(a));
            forall i, j :: 0 <= i < j < |r| ==>
              r[i].priority >= r[j].priority &&
              (r[i].priority == r[j].priority ==> BlockPos(r[i]) < BlockPos(r[j]))
    ensures var r := SuggestOf(m, Some(a));
            forall x :: x in Candidates(m, a) && x !in r ==>
              |r| == 3 && forall i :: 0 <= i < |r| ==> r[i].priority >= x.priority
  {
    var c := Candidates(m, a);
    CandidatesFacts(m, a);
    TopOrdered(c);
    TopKeepsBest(c);
  }

  /** Every suggestion's priority is its estimated gain per unit of effort,
      for a payload whose horizon and symmetry axis lie inside the frame. */
  lemma PriorityIsRatio(m: MathLib, analysis: Option<Analysis>)
    requires analysis.Some? && analysis.value.horizon.Some? ==> 0.0 <= analysis.value.horizon.value.y <= 1.0
    requires analysis.Some? ==> 0.0 <= analysis.value.symmetry.axisX <= 1.0
    ensures forall x :: x in SuggestOf(m, analysis) ==> GainPerEffort(x)
  {
    if analysis.Some? {
      CandidatesFacts(m, analysis.value);
      TopShape(Candidates(m, analysis.value));
    }
  }

  /** Beyond the frame the horizon's gain is capped at 100 but its priority
      is not: a horizon at y = 2 is 4/3 from the lower third. */
  lemma PriorityBeyondFrame()
    ensures var x := HorizonTip(2.0);
            x.estGain == 100.0 && !GainPerEffort(x)
  {
    assert HorizonTarget(2.0) == 2.0 / 3.0;
  }

  /** Estimated gains lie in 0..100 and efforts are non-negative, for a
      non-negative diagonal score. */
  lemma GainBounds(m: MathLib, analysis: Option<Analysis>)
    requires ExpLaws(m.exp) && SqrtLaws(m.sqrt)
    requires analysis.Some? ==> 0.0 <= analysis.value.diagonal.score
    ensures forall x :: x in SuggestOf(m, analysis) ==> GainInRange(x)
  {
    if analysis.Some? {
      CandidatesFacts(m, analysis.value);
      TopShape(Candidates(m, analysis.value));
    }
  }

  /** The thirds block fires exactly for a subject of confidence above 0.3
      that is not within 1% of its target on both axes; it pans the camera by
      half the subject's displacement, opposite to it and capped. */
  lemma ThirdsSpec(m: MathLib, a: Analysis)
    ensures var s, t := a.subject.center, Target(a.subject.center);
            (ThirdsBlock(m, a) != [] <==>
               a.subject.conf > 0.3 && (Abs(t.x - s.x) > 0.01 || Abs(t.y - s.y) > 0.01)) &&
            (ThirdsBlock(m, a) != [] ==>
               ThirdsBlock(m, a)[0].nudges == [Pan(Cap(-(t.x - s.x) * 0.5), Cap(-(t.y - s.y) * 0.5))] &&
               ThirdsBlock(m, a)[0].message == PlaceOnThird(t.x - s.x, t.y - s.y))
  {
  }

  /** The horizon block fires exactly for a horizon of confidence above 0.3
      more than 1.5% from its target third, and then only pans vertically,
      by 60% of the distance, against it and capped. */
  lemma HorizonSpec(a: Analysis)
    ensures HorizonBlock(a) != [] <==>
              a.horizon.Some? && a.horizon.value.conf > 0.3 &&
              Abs(HorizonTarget(a.horizon.value.y) - a.horizon.value.y) > 0.015
    ensures HorizonBlock(a) != [] ==>
              var dy := HorizonTarget(a.horizon.value.y) - a.horizon.value.y;
              HorizonBlock(a) == [HorizonTip(a.horizon.value.y)] &&
              HorizonBlock(a)[0].nudges == [Pan(0.0, Cap(-dy * 0.6))]
  {
  }

  /** The diagonal block fires for every score below 0.85 and rotates 3°
      counter-clockwise for TLBR, 3° clockwise for TRBL. */
  lemma DiagonalSpec(a: Analysis)
    ensures DiagonalBlock(a) != [] <==> a.diagonal.score < 0.85
    ensures DiagonalBlock(a) != [] ==>
              DiagonalBlock(a)[0].nudges == [Rotate(if a.diagonal.best == TLBR then -3.0 else 3.0)]
  {
  }

  /** The symmetry block fires for a score above 0.4 with the axis more than
      1.5% off centre, and pans horizontally by 60% of the offset, capped. */
  lemma SymmetrySpec(a: Analysis)
    ensures SymmetryBlock(a) != [] <==> a.symmetry.score > 0.4 && Abs(0.5 - a.symmetry.axisX) > 0.015
    ensures SymmetryBlock(a) != [] ==>
              SymmetryBlock(a)[0].nudges == [Pan(Cap((0.5 - a.symmetry.axisX) * 0.6), 0.0)]
  {
  }

  /** The spiral block needs an eye, and fires when the eye is more than
      3% from the subject or the score is below 0.75; it pans toward the
      eye and rotates by 2°. */
  lemma SpiralSpec(m: MathLib, a: Analysis)
    requires SqrtLaws(m.sqrt)
    ensures SpiralBlock(m, a) != [] <==>
              a.spiral.eye.Some? &&
              (Dist2(a.spiral.eye.value, a.subject.center) > 0.0009 || a.spiral.score < 0.75)
    ensures SpiralBlock(m, a) != [] ==>
              var e, s := a.spiral.eye.value, a.subject.center;
              SpiralBlock(m, a)[0].nudges ==
                [Pan(Cap(-(e.x - s.x) * 0.5), Cap(-(e.y - s.y) * 0.5)), Rotate(SpiralTurn(a.spiral.orientation))]
  {
    if a.spiral.eye.Some? {
      var e, s := a.spiral.eye.value, a.subject.center;
      HypotCompare(m.sqrt, e.x - s.x, e.y - s.y, 0.03);
      assert Sq(0.03) == 0.0009;
    }
  }

  /** The leading-lines block fires whenever there is a vanishing point; it
      tilts down by 4% with gain 25 below convergence 0.8 and 12 from it. */
  lemma LeadingSpec(a: Analysis)
    ensures LeadingBlock(a) != [] <==> a.leading.vp.Some?
    ensures LeadingBlock(a) != [] ==>
              LeadingBlock(a)[0].nudges == [Pan(0.0, -0.04)] &&
              LeadingBlock(a)[0].estGain == (if a.leading.convergence < 0.8 then 25.0 else 12.0)
  {
  }

  /** The thirds block of `suggest`, pushing onto `out`: the loop over the
      targets keeps `T` and `bestD` (squared) in the search state. */
  method PushThirds(m: MathLib, a: Analysis, out: seq<Suggestion>) returns (out': seq<Suggestion>)
    ensures out' == out + ThirdsBlock(m, a)
  {
    out' := out;
    if a.subject.conf > 0.3 {
      var s := a.subject.center;
      var n := FindNearest(s, Targets, Start);
      assert n == Choice(s);
      var t := Targets[n.best.value];
      var bestD := if n.bound.value < 81.0 then Hypot(m.sqrt, s.x - t.x, s.y - t.y) else 9.0;
      assert t == Target(s) && bestD == BestD(m, s);
      var dx, dy := t.x - s.x, t.y - s.y;
      if !Near(dx, 0.01) || !Near(dy, 0.01) {
        out' := out' + [ThirdsTip(m, s, t, bestD)];
      }
    }
  }

  /** The horizon block of `suggest`, pushing onto `out`. */
  method PushHorizon(a: Analysis, out: seq<Suggestion>) returns (out': seq<Suggestion>)
    ensures out' == out + HorizonBlock(a)
  {
    out' := out;
    if a.horizon.Some? && a.horizon.value.conf > 0.3 {
      var y := a.horizon.value.y;
      var ty := if Abs(y - 1.0 / 3.0) < Abs(y - 2.0 / 3.0) then 1.0 / 3.0 else 2.0 / 3.0;
      var dy := ty - y;
      if !Near(dy, 0.015) {
        out' := out' + [HorizonTip(y)];
      }
    }
  }

  /** The diagonal block of `suggest`, pushing onto `out`. */
  method PushDiagonal(a: Analysis, out: seq<Suggestion>) returns (out': seq<Suggestion>)
    ensures out' == out + DiagonalBlock(a)
  {
    out' := out;
    if a.diagonal.score < 0.85 {
      out' := out' + [DiagonalTip(a.diagonal)];
    }
  }

  /** The symmetry block of `suggest`, pushing onto `out`. */
  method PushSymmetry(a: Analysis, out: seq<Suggestion>) returns (out': seq<Suggestion>)
    ensures out' == out + SymmetryBlock(a)
  {
    out' := out;
    if a.symmetry.score > 0.4 {
      var dx := 0.5 - a.symmetry.axisX;
      if !Near(dx, 0.015) {
        out' := out' + [SymmetryTip(a.symmetry.axisX)];
      }
    }
  }

  /** The spiral block of `suggest`, pushing onto `out`. */
  method PushSpiral(m: MathLib, a: Analysis, out: seq<Suggestion>) returns (out': seq<Suggestion>)
    ensures out' == out + SpiralBlock(m, a)
  {
    out' := out;
    if a.spiral.eye.Some? {
      var s, e := a.subject.center, a.spiral.eye.value;
      var dx, dy := e.x - s.x, e.y - s.y;
      var dist := Hypot(m.sqrt, dx, dy);
      if dist > 0.03 || a.spiral.score < 0.75 {
        out' := out' + [SpiralTip(m, s, a.spiral, e)];
      }
    }
  }

  /** The leading-lines block of `suggest`, pushing onto `out`. */
  method PushLeading(a: Analysis, out: seq<Suggestion>) returns (out': seq<Suggestion>)
    ensures out' == out + LeadingBlock(a)
  {
    out' := out;
    if a.leading.vp.Some? {
      out' := out' + [LeadingTip(a.leading)];
    }
  }

  /** `suggest`: the six blocks push onto `out` in source order, then `out`
      is sorted by priority, largest first, and cut to three. */
  method Suggest(m: MathLib, analysis: Option<Analysis>) returns (r: seq<Suggestion>)
    ensures r == SuggestOf(m, analysis)
  {
    if analysis.None? {
      return [];
    }
    var a := analysis.value;
    var out: seq<Suggestion> := [];
    out := PushThirds(m, a, out);
    assert out == ThirdsBlock(m, a);
    out := PushHorizon(a, out);
    out := PushDiagonal(a, out);
    out := PushSymmetry(a, out);
    out := PushSpiral(m, a, out);
    out := PushLeading(a, out);
    out := Sort(Priority, Unranked, out);
    r := Take(out, 3);
  }
}
