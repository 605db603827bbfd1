/** The scorer (src/cv/scoring.ts): `computeRuleScores` turns an analysis
    payload into seven rule scores on a 0..100 scale, each with a label and a
    short reason, ordered by score and then by key; `topMatches` keeps the
    best of them above a threshold.

    A row's reason is kept as a small datatype and written out by
    `ReasonText`, which produces the source's text exactly, given
    `Number.prototype.toFixed(2)` as the parameter `fixed`. A row's label is
    `Label` of its key. */
module Scoring {
  import opened Numeric
  import opened Types
  import opened Sorting

  /** The seven rules, by their `RuleKey`. */
  datatype RuleKey = RuleOfThirds | PhiGrid | GoldenSpiral | LeadingLines | Diagonals | Symmetry | HorizonOnThirds

  /** A sub-reason of the thirds and phi rows. */
  datatype Part = SubjectPart(subjectScore: real) | HorizonPart(horizonScore: real)

  /** What a row's reason reports. */
  datatype Reason =
    | GridReason(parts: seq<Part>)
    | EdgeFit(fit: real)
    | ConvergenceReason(convergence: real, bonus: real)
    | DensityReason(best: DiagonalBest, density: real)
    | IoUReason(iou: real)
    | AlignReason(conf: real, align: real)
    | NoHorizonReason

  datatype RuleScore = RuleScore(key: RuleKey, score: int, reason: Reason)

  /** The key as the source spells it. */
  function KeyName(k: RuleKey): string
  {
    match k
    case RuleOfThirds => "rule_of_thirds"
    case PhiGrid => "phi_grid"
    case GoldenSpiral => "golden_spiral"
    case LeadingLines => "leading_lines"
    case Diagonals => "diagonals"
    case Symmetry => "symmetry"
    case HorizonOnThirds => "horizon_on_thirds"
  }

  /** The position of the key in `localeCompare` order. */
  function KeyRank(k: RuleKey): int
  {
    match k
    case Diagonals => 0
    case GoldenSpiral => 1
    case HorizonOnThirds => 2
    case LeadingLines => 3
    case PhiGrid => 4
    case RuleOfThirds => 5
    case Symmetry => 6
  }

  /** The seven key names start with seven different letters, and the rank
      orders the keys as their first letters do. Any collation that orders
      lower-case Latin letters alphabetically therefore orders the keys by
      rank, whatever it does with the underscores after the first letter. */
  lemma KeyRankIsNameOrder(k1: RuleKey, k2: RuleKey)
    ensures |KeyName(k1)| > 0 && |KeyName(k2)| > 0
    ensures KeyRank(k1) < KeyRank(k2) <==> KeyName(k1)[0] < KeyName(k2)[0]
    ensures KeyRank(k1) == KeyRank(k2) <==> k1 == k2
  {
  }

  /** The row's `label`. */
  function Label(k: RuleKey): string
  {
    match k
    case RuleOfThirds => "Rule of Thirds"
    case PhiGrid => "Golden Ratio (Φ grid)"
    case GoldenSpiral => "Golden Spiral"
    case LeadingLines => "Leading Lines"
    case Diagonals => "Diagonal Method"
    case Symmetry => "Vertical Symmetry"
    case HorizonOnThirds => "Horizon on Thirds"
  }

  const LowConfidence: string := "low subject/horizon confidence"
  const NoHorizon: string := "no horizon"

  function PartText(p: Part, fixed: real -> string): string
  {
    match p
    case SubjectPart(s) => "subject≈" + fixed(s)
    case HorizonPart(h) => "horizon≈" + fixed(h)
  }

  /** `parts.join(", ")`. */
  function JoinParts(parts: seq<Part>, fixed: real -> string): string
  {
    if |parts| == 0 then ""
    else if |parts| == 1 then PartText(parts[0], fixed)
    else PartText(parts[0], fixed) + ", " + JoinParts(parts[1..], fixed)
  }

  function BestName(b: DiagonalBest): string
  {
    match b
    case TLBR => "TLBR"
    case TRBL => "TRBL"
  }

  /** The row's `reason` as the source writes it. */
  function ReasonText(r: Reason, fixed: real -> string): string
  {
    match r
    case GridReason(parts) => if |parts| > 0 then JoinParts(parts, fixed) else LowConfidence
    case EdgeFit(fit) => "edge-fit≈" + fixed(fit)
    case ConvergenceReason(c, bonus) =>
      "convergence≈" + fixed(c) + (if bonus > 0.0 then " (+sym≈" + fixed(bonus) + ")" else "")
    case DensityReason(best, d) => "best=" + BestName(best) + ", density≈" + fixed(d)
    case IoUReason(iou) => "IoU≈" + fixed(iou)
    case AlignReason(conf, align) => "conf≈" + fixed(conf) + ", align≈" + fixed(align)
    case NoHorizonReason => NoHorizon
  }

  /** The sub-reasons of the thirds and phi rows for the grid result `g`:
      the subject part when the subject is confident, the horizon part when
      a horizon was found. */
  function GridParts(a: Analysis, g: GridScore): seq<Part>
  {
    (if a.subject.conf > 0.3 then [SubjectPart(g.subjectScore)] else [])
    + (if a.horizon.Some? then [HorizonPart(g.horizonScore)] else [])
  }

  /** The symmetry bonus of the leading-lines row. */
  function SymBonus(a: Analysis): real
  {
    Clamp01(a.symmetry.score) * 0.15
  }

  /** The leading-lines blend `clamp01(0.9·convergence + bonus)`. */
  function LeadingBlend(a: Analysis): real
  {
    Clamp01(a.leading.convergence * 0.9 + SymBonus(a))
  }

  /** Horizon on thirds: `clamp01(conf)·clamp01(horizonScore)` with a
      horizon, 0 without. */
  function HorizonThirds(a: Analysis): real
  {
    if a.horizon.Some? then Clamp01(a.horizon.value.conf) * Clamp01(a.thirds.horizonScore) else 0.0
  }

  /** `Math.round(x * 100)`. */
  function Percent(x: real): int
  {
    Round(x * 100.0)
  }

  /** The row built for key `k`. */
  function ItemFor(a: Analysis, k: RuleKey): (r: RuleScore)
    ensures r.key == k
  {
    match k
    case RuleOfThirds => RuleScore(k, Percent(a.thirds.overall), GridReason(GridParts(a, a.thirds)))
    case PhiGrid => RuleScore(k, Percent(a.phi.overall), GridReason(GridParts(a, a.phi)))
    case GoldenSpiral => RuleScore(k, Percent(a.spiral.score), EdgeFit(a.spiral.score))
    case LeadingLines =>
      RuleScore(k, Percent(LeadingBlend(a)), ConvergenceReason(a.leading.convergence, SymBonus(a)))
    case Diagonals => RuleScore(k, Percent(a.diagonal.score), DensityReason(a.diagonal.best, a.diagonal.score))
    case Symmetry => RuleScore(k, Percent(a.symmetry.score), IoUReason(a.symmetry.score))
    case HorizonOnThirds =>
      RuleScore(k, Percent(HorizonThirds(a)),
                if a.horizon.Some? then AlignReason(a.horizon.value.conf, a.thirds.horizonScore) else NoHorizonReason)
  }

  /** The `items` array before sorting, in the order the source lists it. */
  function Items(a: Analysis): (r: seq<RuleScore>)
    ensures |r| == 7
  {
    [ItemFor(a, RuleOfThirds), ItemFor(a, PhiGrid), ItemFor(a, GoldenSpiral), ItemFor(a, LeadingLines),
     ItemFor(a, Diagonals), ItemFor(a, Symmetry), ItemFor(a, HorizonOnThirds)]
  }

  function ScoreKey(r: RuleScore): real
  {
    r.score as real
  }

  function NameRank(r: RuleScore): int
  {
    KeyRank(r.key)
  }

  /** What `computeRuleScores` returns: the items sorted by
      `b.score - a.score || a.key.localeCompare(b.key)`. */
  function RuleScoresOf(a: Analysis): seq<RuleScore>
  {
    Sort(ScoreKey, NameRank, Items(a))
  }

  /** `computeRuleScores`: the blends, the reason parts pushed one by one,
      the seven items, and the in-place sort. */
  method ComputeRuleScores(a: Analysis) returns (items: seq<RuleScore>)
    ensures items == RuleScoresOf(a)
  {
    var thirds := a.thirds.overall;
    var thirdsReasonParts: seq<Part> := [];
    if a.subject.conf > 0.3 {
      thirdsReasonParts := thirdsReasonParts + [SubjectPart(a.thirds.subjectScore)];
    }
    if a.horizon.Some? {
      thirdsReasonParts := thirdsReasonParts + [HorizonPart(a.thirds.horizonScore)];
    }
    var phi := a.phi.overall;
    var phiReasonParts: seq<Part> := [];
    if a.subject.conf > 0.3 {
      phiReasonParts := phiReasonParts + [SubjectPart(a.phi.subjectScore)];
    }
    if a.horizon.Some? {
      phiReasonParts := phiReasonParts + [HorizonPart(a.phi.horizonScore)];
    }
    var spiral := a.spiral.score;
    var convergence := a.leading.convergence;
    var lineSymBonus := Clamp01(a.symmetry.score) * 0.15;
    var leading := Clamp01(convergence * 0.9 + lineSymBonus);
    var diagonal := a.diagonal.score;
    var symmetry := a.symmetry.score;
    var horizonThirds := if a.horizon.Some? then Clamp01(a.horizon.value.conf) * Clamp01(a.thirds.horizonScore) else 0.0;
    items := [
      RuleScore(RuleOfThirds, Round(thirds * 100.0), GridReason(thirdsReasonParts)),
      RuleScore(PhiGrid, Round(phi * 100.0), GridReason(phiReasonParts)),
      RuleScore(GoldenSpiral, Round(spiral * 100.0), EdgeFit(spiral)),
      RuleScore(LeadingLines, Round(leading * 100.0), ConvergenceReason(convergence, lineSymBonus)),
      RuleScore(Diagonals, Round(diagonal * 100.0), DensityReason(a.diagonal.best, diagonal)),
      RuleScore(Symmetry, Round(symmetry * 100.0), IoUReason(symmetry)),
      RuleScore(HorizonOnThirds, Round(horizonThirds * 100.0),
                if a.horizon.Some? then AlignReason(a.horizon.value.conf, a.thirds.horizonScore) else NoHorizonReason)
    ];
    assert thirdsReasonParts == GridParts(a, a.thirds);
    assert phiReasonParts == GridParts(a, a.phi);
    assert items == Items(a);
    items := Sort(ScoreKey, NameRank, items);
  }

  lemma ItemsByKey(a: Analysis, x: RuleScore)
    requires x in Items(a)
    ensures x == ItemFor(a, x.key)
  {
  }

  /** No two rows share a key. */
  predicate DistinctKeys(s: seq<RuleScore>)
  {
    Distinct(NameRank, s)
  }

  /** The built items: one row per key. */
  lemma ItemsKeys(a: Analysis)
    ensures DistinctKeys(Items(a))
    ensures forall k: RuleKey :: ItemFor(a, k) in Items(a)
  {
    var s := Items(a);
    assert s[0].key == RuleOfThirds && s[1].key == PhiGrid && s[2].key == GoldenSpiral
        && s[3].key == LeadingLines && s[4].key == Diagonals && s[5].key == Symmetry
        && s[6].key == HorizonOnThirds;
  }

  /** The output has seven rows, one per rule key, each of them the row built
      for its key, and it is a permutation of the built items. */
  lemma RuleScoresContent(a: Analysis)
    ensures var r := RuleScoresOf(a);
            && |r| == 7
            && multiset(r) == multiset(Items(a))
            && (forall i :: 0 <= i < 7 ==> r[i] == ItemFor(a, r[i].key))
            && (forall i, j :: 0 <= i < j < 7 ==> r[i].key != r[j].key)
            && (forall k: RuleKey :: ItemFor(a, k) in r)
  {
    var r, s := RuleScoresOf(a), Items(a);
    SortPermutation(ScoreKey, NameRank, s);
    ItemsKeys(a);
    forall i | 0 <= i < 7
      ensures r[i] == ItemFor(a, r[i].key)
    {
      assert r[i] in multiset(s);
      ItemsByKey(a, r[i]);
    }
    PermutationDistinct(NameRank, s, r);
    forall i, j | 0 <= i < j < 7
      ensures r[i].key != r[j].key
    {
      assert NameRank(r[i]) != NameRank(r[j]);
    }
    forall k: RuleKey
      ensures ItemFor(a, k) in r
    {
      assert ItemFor(a, k) in multiset(s);
    }
  }

  /** Sorting rows with distinct keys orders them by non-increasing score,
      and rows with equal scores by key. */
  lemma SortedByScoreThenKey(s: seq<RuleScore>)
    requires DistinctKeys(s)
    ensures var r := Sort(ScoreKey, NameRank, s);
            forall i, j :: 0 <= i < j < |r| ==>
              r[i].score >= r[j].score &&
              (r[i].score == r[j].score ==> KeyRank(r[i].key) < KeyRank(r[j].key))
  {
    var r := Sort(ScoreKey, NameRank, s);
    SortSorted(ScoreKey, NameRank, s);
    SortPermutation(ScoreKey, NameRank, s);
    PermutationDistinct(NameRank, s, r);
    forall i, j | 0 <= i < j < |r|
      ensures r[i].score >= r[j].score
      ensures r[i].score == r[j].score ==> KeyRank(r[i].key) < KeyRank(r[j].key)
    {
      assert !Before(ScoreKey, NameRank, r[j], r[i]);
      KeyRankIsNameOrder(r[i].key, r[j].key);
    }
  }

  /** The output is ordered by non-increasing score, and rows with equal
      scores are ordered by key. */
  lemma RuleScoresOrdered(a: Analysis)
    ensures var r := RuleScoresOf(a);
            forall i, j :: 0 <= i < j < |r| ==>
              r[i].score >= r[j].score &&
              (r[i].score == r[j].score ==> KeyRank(r[i].key) < KeyRank(r[j].key))
  {
    var s := Items(a);
    ItemsKeys(a);
    SortedByScoreThenKey(s);
    assert RuleScoresOf(a) == Sort(ScoreKey, NameRank, s);
  }

  /** The comparator orders every two distinct rows, so the order is fully
      determined: every arrangement of the items that the comparator accepts
      is the output. */
  lemma RuleScoresDetermined(a: Analysis, ys: seq<RuleScore>)
    requires multiset(ys) == multiset(Items(a))
    requires Sorted(ScoreKey, NameRank, ys)
    ensures ys == RuleScoresOf(a)
  {
    var s, r := Items(a), RuleScoresOf(a);
    SortPermutation(ScoreKey, NameRank, s);
    SortSorted(ScoreKey, NameRank, s);
    forall x, y | x in r && y in r && x != y
      ensures Before(ScoreKey, NameRank, x, y) || Before(ScoreKey, NameRank, y, x)
    {
      assert x in multiset(s) && y in multiset(s);
      ItemsByKey(a, x);
      ItemsByKey(a, y);
      KeyRankIsNameOrder(x.key, y.key);
    }
    SortedUnique(ScoreKey, NameRank, r, ys);
  }

  /** The leading-lines blend lies in [0, 1], whatever the convergence and
      symmetry, and is at least the symmetry bonus alone would give. */
  lemma LeadingBlendBounds(a: Analysis)
    ensures 0.0 <= SymBonus(a) <= 0.15
    ensures 0.0 <= LeadingBlend(a) <= 1.0
    ensures 0.0 <= a.leading.convergence <= 1.0 ==> LeadingBlend(a) >= SymBonus(a)
  {
  }

  /** Horizon on thirds lies in [0, 1], and is 0 without a horizon. */
  lemma HorizonThirdsBounds(a: Analysis)
    ensures 0.0 <= HorizonThirds(a) <= 1.0
    ensures a.horizon.None? ==> HorizonThirds(a) == 0.0
  {
    if a.horizon.Some? {
      var c, h := Clamp01(a.horizon.value.conf), Clamp01(a.thirds.horizonScore);
      assert 0.0 <= c * h <= c * 1.0;
    }
  }

  /** A value in [0, 1] becomes a score in [0, 100]; 0 and 1 map to 0 and 100. */
  lemma PercentBounds(x: real)
    requires 0.0 <= x <= 1.0
    ensures 0 <= Percent(x) <= 100
    ensures x == 0.0 ==> Percent(x) == 0
    ensures x == 1.0 ==> Percent(x) == 100
  {
  }

  /** The leading-lines and horizon-on-thirds scores always lie in [0, 100];
      the others do when the analyzer results they copy lie in [0, 1]. */
  lemma ScoreBounds(a: Analysis, k: RuleKey)
    requires k == LeadingLines || k == HorizonOnThirds
             || (k == RuleOfThirds && 0.0 <= a.thirds.overall <= 1.0)
             || (k == PhiGrid && 0.0 <= a.phi.overall <= 1.0)
             || (k == GoldenSpiral && 0.0 <= a.spiral.score <= 1.0)
             || (k == Diagonals && 0.0 <= a.diagonal.score <= 1.0)
             || (k == Symmetry && 0.0 <= a.symmetry.score <= 1.0)
    ensures 0 <= ItemFor(a, k).score <= 100
  {
    LeadingBlendBounds(a);
    HorizonThirdsBounds(a);
    match k
    case RuleOfThirds => PercentBounds(a.thirds.overall);
    case PhiGrid => PercentBounds(a.phi.overall);
    case GoldenSpiral => PercentBounds(a.spiral.score);
    case LeadingLines => PercentBounds(LeadingBlend(a));
    case Diagonals => PercentBounds(a.diagonal.score);
    case Symmetry => PercentBounds(a.symmetry.score);
    case HorizonOnThirds => PercentBounds(HorizonThirds(a));
  }

  /** Without a horizon the horizon-on-thirds row scores 0 with reason
      "no horizon"; with one, its reason reports the confidence and the
      thirds alignment. */
  lemma HorizonRow(a: Analysis, fixed: real -> string)
    ensures var r := ItemFor(a, HorizonOnThirds);
            if a.horizon.None? then r.score == 0 && ReasonText(r.reason, fixed) == NoHorizon
            else ReasonText(r.reason, fixed) ==
                 "conf≈" + fixed(a.horizon.value.conf) + ", align≈" + fixed(a.thirds.horizonScore)
  {
    HorizonThirdsBounds(a);
  }

  /** The symmetry part of the leading-lines reason appears exactly when the
      symmetry score is positive. */
  lemma LeadingRow(a: Analysis, fixed: real -> string)
    ensures var t := ReasonText(ItemFor(a, LeadingLines).reason, fixed);
            var base := "convergence≈" + fixed(a.leading.convergence);
            if a.symmetry.score > 0.0 then t == base + " (+sym≈" + fixed(SymBonus(a)) + ")"
            else t == base
  {
  }

  /** The reason of the thirds or phi row: "low subject/horizon confidence"
      exactly when the subject is not confident and there is no horizon;
      otherwise it starts with the subject part exactly when the subject is
      confident, and it is the horizon part alone when only the horizon
      applies. */
  lemma GridReasonCases(a: Analysis, fixed: real -> string, k: RuleKey)
    requires k == RuleOfThirds || k == PhiGrid
    ensures var g := if k == RuleOfThirds then a.thirds else a.phi;
            var t := ReasonText(ItemFor(a, k).reason, fixed);
            var subject := "subject≈" + fixed(g.subjectScore);
            var horizon := "horizon≈" + fixed(g.horizonScore);
            && (t == LowConfidence <==> a.subject.conf <= 0.3 && a.horizon.None?)
            && (a.subject.conf > 0.3 && a.horizon.None? ==> t == subject)
            && (a.subject.conf > 0.3 && a.horizon.Some? ==> t == subject + ", " + horizon)
            && (a.subject.conf <= 0.3 && a.horizon.Some? ==> t == horizon)
  {
    var g := if k == RuleOfThirds then a.thirds else a.phi;
    var parts := GridParts(a, g);
    assert ItemFor(a, k).reason == GridReason(parts);
    var t := ReasonText(GridReason(parts), fixed);
    if |parts| > 0 {
      var first := PartText(parts[0], fixed);
      assert first[0] == 's' || first[0] == 'h';
      if |parts| == 2 {
        assert parts[1..] == [parts[1]];
        assert JoinParts(parts[1..], fixed) == PartText(parts[1], fixed);
        assert t == first + ", " + PartText(parts[1], fixed);
      }
      assert t[0] == first[0];
      assert LowConfidence[0] == 'l';
    }
  }


  /** JavaScript's `slice(0, end)`: a negative end counts from the back. */
  function Prefix<T>(s: seq<T>, end: int): (r: seq<T>)
    ensures |r| == if end >= 0 then (if end <= |s| then end else |s|)
                   else (if |s| + end > 0 then |s| + end else 0)
    ensures forall i :: 0 <= i < |r| ==> r[i] == s[i]
  {
    if end >= 0 then Take(s, end) else if |s| + end > 0 then s[..|s| + end] else []
  }

  /** `items.filter(r => r.score >= minScore)`. */
  function Qualifying(items: seq<RuleScore>, minScore: real): (r: seq<RuleScore>)
    ensures |r| <= |items|
    decreases |items|
  {
    if |items| == 0 then []
    else
      var rest := Qualifying(items[..|items| - 1], minScore);
      var last := items[|items| - 1];
      if last.score as real >= minScore then rest + [last] else rest
  }

  /** The filter keeps exactly the rows scoring at least `minScore`. */
  lemma {:induction false} QualifyingMembers(items: seq<RuleScore>, minScore: real, x: RuleScore)
    ensures x in Qualifying(items, minScore) <==> x in items && x.score as real >= minScore
    decreases |items|
  {
    if |items| > 0 {
      var pre := items[..|items| - 1];
      QualifyingMembers(pre, minScore, x);
      assert items == pre + [items[|items| - 1]];
    }
  }

  /** The filter keeps the input order: a sequence sorted by score and key
      stays sorted. */
  lemma {:induction false} QualifyingSorted(items: seq<RuleScore>, minScore: real)
    requires Sorted(ScoreKey, NameRank, items)
    ensures Sorted(ScoreKey, NameRank, Qualifying(items, minScore))
    decreases |items|
  {
    if |items| > 0 {
      var pre, last := items[..|items| - 1], items[|items| - 1];
      assert Sorted(ScoreKey, NameRank, pre);
      QualifyingSorted(pre, minScore);
      var rest := Qualifying(pre, minScore);
      if last.score as real >= minScore {
        forall i | 0 <= i < |rest|
          ensures !Before(ScoreKey, NameRank, last, rest[i])
        {
          QualifyingMembers(pre, minScore, rest[i]);
          var j :| 0 <= j < |pre| && pre[j] == rest[i];
        }
        var r := rest + [last];
        assert forall i :: 0 <= i < |rest| ==> r[i] == rest[i];
      }
    }
  }

  /** `topMatches(items, minScore, max)`. */
  function TopMatches(items: seq<RuleScore>, minScore: real, max: int): seq<RuleScore>
  {
    Prefix(Qualifying(items, minScore), max)
  }

  /** What `topMatches` returns: at most `max` rows, each scoring at least
      `minScore`, the first of the qualifying rows in input order; fewer than
      `max` only when no other row qualifies. Applied to the scorer's output
      it keeps the scorer's order. */
  lemma TopMatchesSpec(items: seq<RuleScore>, minScore: real, max: nat)
    ensures var r := TopMatches(items, minScore, max);
            var q := Qualifying(items, minScore);
            && |r| <= max
            && r == q[..|r|]
            && (forall x :: x in r ==> x in items && x.score as real >= minScore)
            && (|r| < max ==> forall x :: x in items && x.score as real >= minScore ==> x in r)
            && (Sorted(ScoreKey, NameRank, items) ==> Sorted(ScoreKey, NameRank, r))
  {
    var r, q := TopMatches(items, minScore, max), Qualifying(items, minScore);
    assert r == q[..|r|];
    forall x | x in r
      ensures x in items && x.score as real >= minScore
    {
      QualifyingMembers(items, minScore, x);
    }
    if |r| < max {
      assert r == q;
      forall x | x in items && x.score as real >= minScore
        ensures x in r
      {
        QualifyingMembers(items, minScore, x);
      }
    }
    if Sorted(ScoreKey, NameRank, items) {
      QualifyingSorted(items, minScore);
    }
  }

  /** The defaults: rows scoring at least 55, at most three of them. */
  function DefaultTopMatches(items: seq<RuleScore>): (r: seq<RuleScore>)
    ensures |r| <= 3
    ensures forall x :: x in r ==> x in items && x.score >= 55
  {
    TopMatchesSpec(items, 55.0, 3);
    TopMatches(items, 55.0, 3)
  }
}
