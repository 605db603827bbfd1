/** The horizon estimator (src/cv/analyzers/horizon.ts): of the Hough
    segments, the long near-horizontal ones each vote for the height of their
    midpoint with a weight equal to their length. */
module Horizon {
  import opened Numeric
  import opened Segments
  import opened Types

  /** One entry of `horiz`: the midpoint height and the weight. */
  datatype Entry = Entry(y: real, w: real)

  /** The segment passes both filters: at least 40 pixels long, and
      near-horizontal. */
  predicate Qualifies(m: MathLib, s: Segment)
  {
    !(Length(m, s) < 40.0) && NearHorizontal(m, s)
  }

  /** What a qualifying segment pushes. */
  function EntryOf(m: MathLib, s: Segment): Entry
  {
    Entry((s.y1 + s.y2) as real / 2.0, Length(m, s))
  }

  /** The qualifying segments, in input order. */
  function Qualifying(m: MathLib, lines: seq<Segment>): (q: seq<Segment>)
    ensures |q| <= |lines|
    ensures forall s :: s in q ==> s in lines && Qualifies(m, s)
    decreases |lines|
  {
    if |lines| == 0 then []
    else
      var init := Qualifying(m, lines[..|lines| - 1]);
      var s := lines[|lines| - 1];
      if Qualifies(m, s) then init + [s] else init
  }

  /** `horiz` after the loop: an entry for each qualifying segment. */
  function Entries(m: MathLib, lines: seq<Segment>): (es: seq<Entry>)
    ensures forall i :: 0 <= i < |es| ==> es[i].w >= 40.0
    decreases |lines|
  {
    if |lines| == 0 then []
    else
      var init := Entries(m, lines[..|lines| - 1]);
      var s := lines[|lines| - 1];
      if Qualifies(m, s) then init + [EntryOf(m, s)] else init
  }

  /** The loop that fills `horiz`. */
  method CollectHorizontal(m: MathLib, lines: seq<Segment>) returns (horiz: seq<Entry>)
    ensures horiz == Entries(m, lines)
  {
    horiz := [];
    for i := 0 to |lines|
      invariant horiz == Entries(m, lines[..i])
    {
      assert lines[..i + 1][..i] == lines[..i];
      var s := lines[i];
      var len := Length(m, s);
      if len < 40.0 {
        continue;
      }
      if NearHorizontal(m, s) {
        horiz := horiz + [Entry((s.y1 + s.y2) as real / 2.0, len)];
      }
    }
    assert lines[..|lines|] == lines;
  }

  /** Each qualifying segment contributes exactly its own entry, in order,
      and nothing else contributes. */
  lemma {:induction false} EntriesOfQualifying(m: MathLib, lines: seq<Segment>)
    ensures var q := Qualifying(m, lines);
            Entries(m, lines) == seq(|q|, i requires 0 <= i < |q| => EntryOf(m, q[i]))
    decreases |lines|
  {
    if |lines| > 0 {
      EntriesOfQualifying(m, lines[..|lines| - 1]);
    }
  }

  /** A segment contributes as many times as it occurs, if it qualifies, and
      never otherwise. */
  lemma {:induction false} QualifyingCount(m: MathLib, lines: seq<Segment>, s: Segment)
    ensures multiset(Qualifying(m, lines))[s] == if Qualifies(m, s) then multiset(lines)[s] else 0
    decreases |lines|
  {
    if |lines| > 0 {
      var init := lines[..|lines| - 1];
      QualifyingCount(m, init, s);
      assert lines == init + [lines[|lines| - 1]];
    }
  }

  /** `horiz.reduce((s, h) => s + h.w, 0)`. */
  function SumW(es: seq<Entry>): real
    decreases |es|
  {
    if |es| == 0 then 0.0 else SumW(es[..|es| - 1]) + es[|es| - 1].w
  }

  /** `horiz.reduce((s, h) => s + h.y * h.w, 0)`. */
  function SumYW(es: seq<Entry>): real
    decreases |es|
  {
    if |es| == 0 then 0.0 else SumYW(es[..|es| - 1]) + es[|es| - 1].y * es[|es| - 1].w
  }

  /** Weights of at least 40 sum to at least 40 per entry. */
  lemma {:induction false} SumWAtLeast(es: seq<Entry>)
    requires forall i :: 0 <= i < |es| ==> es[i].w >= 40.0
    ensures SumW(es) >= 40.0 * |es| as real
    decreases |es|
  {
    if |es| > 0 {
      SumWAtLeast(es[..|es| - 1]);
    }
  }

  /** The weighted sum lies between the smallest and the largest height,
      scaled by the total weight. */
  lemma {:induction false} SumYWBetween(es: seq<Entry>, lo: real, hi: real)
    requires forall i :: 0 <= i < |es| ==> es[i].w >= 0.0 && lo <= es[i].y <= hi
    ensures lo * SumW(es) <= SumYW(es) <= hi * SumW(es)
    decreases |es|
  {
    if |es| > 0 {
      var init, e := es[..|es| - 1], es[|es| - 1];
      SumYWBetween(init, lo, hi);
      SumYWStep(es, lo, hi);
    }
  }

  lemma SumYWStep(es: seq<Entry>, lo: real, hi: real)
    requires |es| > 0
    requires var init := es[..|es| - 1];
             lo * SumW(init) <= SumYW(init) <= hi * SumW(init)
    requires es[|es| - 1].w >= 0.0 && lo <= es[|es| - 1].y <= hi
    ensures lo * SumW(es) <= SumYW(es) <= hi * SumW(es)
  {
    var init, e := es[..|es| - 1], es[|es| - 1];
    assert SumW(es) == SumW(init) + e.w && SumYW(es) == SumYW(init) + e.y * e.w;
    StepBetween(lo, hi, SumW(init), SumYW(init), e.y, e.w);
  }

  /** One more entry keeps the weighted sum between the bounds. */
  lemma StepBetween(lo: real, hi: real, sw: real, syw: real, y: real, w: real)
    requires lo * sw <= syw <= hi * sw && 0.0 <= w && lo <= y <= hi
    ensures lo * (sw + w) <= syw + y * w <= hi * (sw + w)
  {
    ScaleLe(lo, y, w);
    ScaleLe(y, hi, w);
    assert lo * (sw + w) == lo * sw + lo * w;
    assert hi * (sw + w) == hi * sw + hi * w;
  }

  lemma ScaleLe(a: real, b: real, c: real)
    requires a <= b && 0.0 <= c
    ensures a * c <= b * c
  {
    if c > 0.0 && a < b {
      MulStrict(a, b, c);
    }
  }

  /** What `estimateHorizon` returns for the segments `lines` of a map with
      `cols` columns and `rows` rows. */
  function HorizonOf(m: MathLib, lines: seq<Segment>, cols: int, rows: int): HorizonResult
    requires cols >= 1 && rows >= 1
  {
    var es := Entries(m, lines);
    if |es| == 0 then HorizonResult(0.5, 0.0)
    else
      SumWAtLeast(es);
      var sumW := SumW(es);
      HorizonResult(Mean(es) / rows as real, Clamp(sumW / (cols * 2) as real, 0.0, 1.0))
  }

  /** `estimateHorizon`, after `HoughLinesP` has produced `lines`. */
  method EstimateHorizon(m: MathLib, lines: seq<Segment>, cols: int, rows: int) returns (r: HorizonResult)
    requires cols >= 1 && rows >= 1
    ensures r == HorizonOf(m, lines, cols, rows)
  {
    var horiz := CollectHorizontal(m, lines);
    if |horiz| == 0 {
      return HorizonResult(0.5, 0.0);
    }
    SumWAtLeast(horiz);
    var sumW := SumW(horiz);
    var y := SumYW(horiz) / sumW;
    var conf := Max(0.0, Min(1.0, sumW / (cols * 2) as real));
    r := HorizonResult(y / rows as real, conf);
  }

  /** Without a qualifying segment the result is the default `{y: 0.5,
      conf: 0}`, and only then is the confidence 0. */
  lemma HorizonDefault(m: MathLib, lines: seq<Segment>, cols: int, rows: int)
    requires cols >= 1 && rows >= 1
    ensures (forall s :: s in lines ==> !Qualifies(m, s)) <==> |Entries(m, lines)| == 0
    ensures |Entries(m, lines)| == 0 ==> HorizonOf(m, lines, cols, rows) == HorizonResult(0.5, 0.0)
    ensures |Entries(m, lines)| > 0 ==> HorizonOf(m, lines, cols, rows).conf > 0.0
  {
    EntriesOfQualifying(m, lines);
    var q := Qualifying(m, lines);
    if |q| == 0 {
      forall s | s in lines
        ensures !Qualifies(m, s)
      {
        QualifyingCount(m, lines, s);
      }
    }
    var es := Entries(m, lines);
    if |es| > 0 {
      SumWAtLeast(es);
      PositiveQuotient(SumW(es), (cols * 2) as real);
    }
  }

  lemma PositiveQuotient(a: real, b: real)
    requires 0.0 < a && 0.0 < b
    ensures 0.0 < a / b
  {
  }

  /** The confidence is the clamped share `sumW / (2 cols)`, in [0, 1]. */
  lemma HorizonConfidence(m: MathLib, lines: seq<Segment>, cols: int, rows: int)
    requires cols >= 1 && rows >= 1
    ensures var r := HorizonOf(m, lines, cols, rows);
            0.0 <= r.conf <= 1.0 &&
            r.conf == Clamp(SumW(Entries(m, lines)) / (cols * 2) as real, 0.0, 1.0)
  {
  }

  /** The height is a weighted mean: in pixels it lies between the lowest and
      the highest midpoint of the qualifying segments. */
  lemma HorizonBetween(m: MathLib, lines: seq<Segment>, cols: int, rows: int, lo: real, hi: real)
    requires cols >= 1 && rows >= 1
    requires |Entries(m, lines)| > 0
    requires forall s :: s in Qualifying(m, lines) ==> lo <= EntryOf(m, s).y <= hi
    ensures lo <= HorizonOf(m, lines, cols, rows).y * rows as real <= hi
  {
    var es := Entries(m, lines);
    EntriesBetween(m, lines, lo, hi);
    MeanBetween(es, lo, hi);
    HorizonScaled(m, lines, cols, rows, lo, hi);
  }

  lemma HorizonScaled(m: MathLib, lines: seq<Segment>, cols: int, rows: int, lo: real, hi: real)
    requires cols >= 1 && rows >= 1
    requires |Entries(m, lines)| > 0
    requires lo <= Mean(Entries(m, lines)) <= hi
    ensures lo <= HorizonOf(m, lines, cols, rows).y * rows as real <= hi
  {
    HorizonHeight(m, lines, cols, rows);
    Unscale(HorizonOf(m, lines, cols, rows).y, Mean(Entries(m, lines)), rows as real, lo, hi);
  }

  lemma HorizonHeight(m: MathLib, lines: seq<Segment>, cols: int, rows: int)
    requires cols >= 1 && rows >= 1
    requires |Entries(m, lines)| > 0
    ensures HorizonOf(m, lines, cols, rows).y == Mean(Entries(m, lines)) / rows as real
  {
  }

  lemma EntriesBetween(m: MathLib, lines: seq<Segment>, lo: real, hi: real)
    requires forall s :: s in Qualifying(m, lines) ==> lo <= EntryOf(m, s).y <= hi
    ensures var es := Entries(m, lines);
            forall i :: 0 <= i < |es| ==> es[i].w >= 0.0 && lo <= es[i].y <= hi
  {
    var es := Entries(m, lines);
    EntriesOfQualifying(m, lines);
    var q := Qualifying(m, lines);
    forall i | 0 <= i < |es|
      ensures lo <= es[i].y <= hi
    {
      assert es[i] == EntryOf(m, q[i]);
      assert q[i] in q;
    }
  }

  /** The weighted mean of the heights: `sumYW / sumW`. */
  function Mean(es: seq<Entry>): real
    requires |es| > 0
    requires forall i :: 0 <= i < |es| ==> es[i].w >= 40.0
  {
    SumWAtLeast(es);
    SumYW(es) / SumW(es)
  }

  /** A weighted mean lies between the least and the greatest height. */
  lemma MeanBetween(es: seq<Entry>, lo: real, hi: real)
    requires |es| > 0
    requires forall i :: 0 <= i < |es| ==> es[i].w >= 40.0 && lo <= es[i].y <= hi
    ensures lo <= Mean(es) <= hi
  {
    SumWAtLeast(es);
    SumYWBetween(es, lo, hi);
    QuotientBetween(SumYW(es), SumW(es), lo, hi);
  }

  lemma QuotientBetween(syw: real, sw: real, lo: real, hi: real)
    requires sw > 0.0 && lo * sw <= syw <= hi * sw
    ensures lo <= syw / sw <= hi
  {
    var mean := syw / sw;
    assert mean * sw == syw;
    if mean < lo {
      MulStrict(mean, lo, sw);
    }
    if hi < mean {
      MulStrict(hi, mean, sw);
    }
  }

  lemma Unscale(y: real, a: real, r: real, lo: real, hi: real)
    requires 0.0 < r && y == a / r && lo <= a <= hi
    ensures lo <= y * r <= hi
  {
    assert y * r == a;
  }
}
