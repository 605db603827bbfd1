/** The strided sampling of `bandDensity` in src/cv/analyzers/diagonal.ts:
    rows `0, step, 2 step, ...`, in each row the columns `0, step, 2 step,
    ...`, and of the pixels that pass the band test `test(x, y)`, how many
    there are and how many of them are edges. The band test itself is
    defined with the analyzer. */
module Sampling {
  import opened Numeric
  import opened Edges

  /** Edge pixels (`sum`) among sampled pixels (`cnt`). */
  datatype Tally = Tally(sum: nat, cnt: nat)

  /** The samples of row `y` at columns `x, x + step, ...` below the width. */
  function RowTally(e: EdgeMap, test: (int, int) -> bool, step: int, y: int, x: int): (t: Tally)
    requires 0 <= y < e.h && 0 <= x && step >= 1
    decreases e.w - x
  {
    if x >= e.w then Tally(0, 0)
    else
      var here, rest := Sample(e, test, y, x), RowTally(e, test, step, y, x + step);
      Tally(here.sum + rest.sum, here.cnt + rest.cnt)
  }

  /** One sample: counted when inside the band, an edge when non-zero. */
  function Sample(e: EdgeMap, test: (int, int) -> bool, y: int, x: int): (t: Tally)
    requires 0 <= y < e.h && 0 <= x < e.w
  {
    if test(x, y) then Tally(Hit(Pixel(e, y, x)), 1) else Tally(0, 0)
  }

  /** The samples of rows `y, y + step, ...` below the height. */
  function Rows(e: EdgeMap, test: (int, int) -> bool, step: int, y: int): (t: Tally)
    requires 0 <= y && step >= 1
    decreases e.h - y
  {
    if y >= e.h then Tally(0, 0)
    else
      var row, rest := RowTally(e, test, step, y, 0), Rows(e, test, step, y + step);
      Tally(row.sum + rest.sum, row.cnt + rest.cnt)
  }

  /** A row never has more edges than samples. */
  lemma {:induction false} RowTallyBound(e: EdgeMap, test: (int, int) -> bool, step: int, y: int, x: int)
    requires 0 <= y < e.h && 0 <= x && step >= 1
    ensures RowTally(e, test, step, y, x).sum <= RowTally(e, test, step, y, x).cnt
    decreases e.w - x
  {
    if x < e.w {
      RowTallyBound(e, test, step, y, x + step);
    }
  }

  /** The loops keep `sum <= cnt`. */
  lemma {:induction false} RowsBound(e: EdgeMap, test: (int, int) -> bool, step: int, y: int)
    requires 0 <= y && step >= 1
    ensures Rows(e, test, step, y).sum <= Rows(e, test, step, y).cnt
    decreases e.h - y
  {
    if y < e.h {
      RowTallyBound(e, test, step, y, 0);
      RowsBound(e, test, step, y + step);
    }
  }

  /** `cnt > 0 ? sum / cnt : 0`. */
  function Density(t: Tally): (r: real)
    ensures t.sum <= t.cnt ==> 0.0 <= r <= 1.0
    ensures t.cnt == 0 || t.sum == 0 ==> r == 0.0
    ensures t.cnt > 0 && t.sum == t.cnt ==> r == 1.0
  {
    if t.cnt > 0 then t.sum as real / t.cnt as real else 0.0
  }

  /** The inner loop: the columns `0, step, 2 step, ...` of
      row `y`, added to the running tally `(sum0, cnt0)`. */
  method SampleRow(a: array2<byte>, ghost e: EdgeMap, test: (int, int) -> bool, step: int, y: int, sum0: nat, cnt0: nat)
    returns (sum: nat, cnt: nat)
    requires e == MapOf(a) && 0 <= y < e.h && step >= 1
    ensures sum == sum0 + RowTally(e, test, step, y, 0).sum
    ensures cnt == cnt0 + RowTally(e, test, step, y, 0).cnt
  {
    sum, cnt := sum0, cnt0;
    var x := 0;
    while x < a.Length1
      invariant 0 <= x
      invariant sum + RowTally(e, test, step, y, x).sum == sum0 + RowTally(e, test, step, y, 0).sum
      invariant cnt + RowTally(e, test, step, y, x).cnt == cnt0 + RowTally(e, test, step, y, 0).cnt
      decreases a.Length1 - x
    {
      RowStep(e, test, step, y, x);
      if test(x, y) {
        var p := a[y, x];
        PixelAt(a, y, x);
        sum := sum + Hit(p);
        cnt := cnt + 1;
      }
      x := x + step;
    }
  }

  /** One step of a row: the sample at `x`, then the rest. */
  lemma RowStep(e: EdgeMap, test: (int, int) -> bool, step: int, y: int, x: int)
    requires 0 <= y < e.h && 0 <= x < e.w && step >= 1
    ensures var t, rest := RowTally(e, test, step, y, x), RowTally(e, test, step, y, x + step);
            if test(x, y)
            then t.sum == Hit(Pixel(e, y, x)) + rest.sum && t.cnt == 1 + rest.cnt
            else t == rest
  {
  }

  /** The outer loop: the rows
      `0, step, 2 step, ...`, each sampled by `SampleRow`. */
  method SampleRows(a: array2<byte>, test: (int, int) -> bool, step: int) returns (sum: nat, cnt: nat)
    requires step >= 1
    ensures sum == Rows(MapOf(a), test, step, 0).sum && cnt == Rows(MapOf(a), test, step, 0).cnt
    ensures sum <= cnt
  {
    ghost var e := MapOf(a);
    sum, cnt := 0, 0;
    var y := 0;
    while y < a.Length0
      invariant 0 <= y
      invariant sum + Rows(e, test, step, y).sum == Rows(e, test, step, 0).sum
      invariant cnt + Rows(e, test, step, y).cnt == Rows(e, test, step, 0).cnt
      decreases a.Length0 - y
    {
      assert Rows(e, test, step, y).sum == RowTally(e, test, step, y, 0).sum + Rows(e, test, step, y + step).sum;
      assert Rows(e, test, step, y).cnt == RowTally(e, test, step, y, 0).cnt + Rows(e, test, step, y + step).cnt;
      sum, cnt := SampleRow(a, e, test, step, y, sum, cnt);
      y := y + step;
    }
    RowsBound(e, test, step, 0);
  }

  lemma {:induction false} ZeroRow(e: EdgeMap, test: (int, int) -> bool, step: int, y: int, x: int)
    requires Blank(e)
    requires 0 <= y < e.h && 0 <= x && step >= 1
    ensures RowTally(e, test, step, y, x).sum == 0
    decreases e.w - x
  {
    if x < e.w {
      SampleZero(e, test, y, x);
      ZeroRow(e, test, step, y, x + step);
    }
  }

  lemma SampleZero(e: EdgeMap, test: (int, int) -> bool, y: int, x: int)
    requires Blank(e)
    requires 0 <= y < e.h && 0 <= x < e.w
    ensures Sample(e, test, y, x).sum == 0
  {
    assert Pixel(e, y, x) == 0;
  }

  lemma {:induction false} ZeroRows(e: EdgeMap, test: (int, int) -> bool, step: int, y: int)
    requires Blank(e)
    requires 0 <= y && step >= 1
    ensures Rows(e, test, step, y).sum == 0
    decreases e.h - y
  {
    if y < e.h {
      var row, rest := RowTally(e, test, step, y, 0), Rows(e, test, step, y + step);
      ZeroRow(e, test, step, y, 0);
      ZeroRows(e, test, step, y + step);
    }
  }

}
