/** `rollCols` of src/cv/analyzers/symmetry.ts: the columns of a map shifted
    right by `k` pixels, wrapping around. The source builds the result from
    two region copies; the model keeps those copies as a method over arrays
    and proves the result equal to a value-level rotation of the rows. */
module Roll {
  import opened Numeric
  import opened Edges

  /** `((k % w) + w) % w` with JavaScript's truncating `%`: the shift brought
      into `[0, w)`, also for negative `k`. */
  function KMod(k: int, w: nat): (r: nat)
    requires w > 0
    ensures r < w
    ensures 0 <= k < w ==> r == k
    ensures k < 0 && -k < w ==> r == k + w
  {
    JsRemSmall(k, w);
    ModRange(JsRem(k, w) + w, w);
    (JsRem(k, w) + w) % w
  }

  /** A dividend of magnitude below `w` is its own remainder. */
  lemma JsRemSmall(k: int, w: int)
    requires w > 0
    ensures -w < k < w ==> JsRem(k, w) == k
  {
    if 0 <= k < w {
      ModRange(k, w);
    } else if -w < k < 0 {
      ModRange(-k, w);
    }
  }

  /** Euclidean `%` of a value below twice the modulus. */
  lemma ModRange(a: int, w: int)
    requires 0 <= a < 2 * w
    ensures a % w == if a < w then a else a - w
  {
    if a < w {
      assert a == 0 * w + a;
    } else {
      assert a == 1 * w + (a - w);
    }
  }

  /** Rolling by `-k` undoes the rolling by `k`: the two wrapped shifts add up
      to 0 or to `w`. */
  lemma KModNeg(k: int, w: nat)
    requires w > 0
    ensures KMod(-k, w) == if KMod(k, w) == 0 then 0 else w - KMod(k, w)
  {
    var j := JsRem(k, w);
    assert JsRem(-k, w) == -j;
    ModRange(j + w, w);
    ModRange(-j + w, w);
  }

  /** One row rolled right by `km` columns: its last `km` pixels, then the
      rest. */
  function RollRow(row: seq<byte>, km: nat): (r: seq<byte>)
    requires km <= |row|
    ensures |r| == |row|
  {
    row[|row| - km..] + row[..|row| - km]
  }

  /** Pixel `x` of the rolled row is pixel `x - km` of the row, wrapping. */
  lemma RollRowAt(row: seq<byte>, km: nat, x: nat)
    requires km <= |row| && x < |row|
    ensures RollRow(row, km)[x] == if x < km then row[|row| - km + x] else row[x - km]
  {
  }

  /** `rollCols(src, k)` of a map with `w` columns, on values. */
  function RollGrid(g: seq<seq<byte>>, k: int, w: nat): (r: seq<seq<byte>>)
    requires Rect(g, w) && (k == 0 || w > 0)
    ensures |r| == |g| && Rect(r, w)
  {
    if k == 0 then g
    else seq(|g|, y requires 0 <= y < |g| => RollRow(g[y], KMod(k, w)))
  }

  /** Column `c` of the source lands in column `(c + kMod) % w` of the
      result; the rows stay where they are. */
  lemma RollMoves(g: seq<seq<byte>>, k: int, w: nat, y: nat, c: nat)
    requires Rect(g, w) && w > 0 && y < |g| && c < w
    ensures RollGrid(g, k, w)[y][(c + KMod(k, w)) % w] == g[y][c]
  {
    var km := KMod(k, w);
    ModRange(c + km, w);
    if k == 0 {
      assert KMod(0, w) == 0;
    } else {
      RollRowAt(g[y], km, (c + km) % w);
    }
  }

  /** Rolling by `k` and then by `-k` gives the map back. */
  lemma RollRestores(g: seq<seq<byte>>, k: int, w: nat)
    requires Rect(g, w) && (k == 0 || w > 0)
    ensures RollGrid(RollGrid(g, k, w), -k, w) == g
  {
    if k != 0 {
      var km := KMod(k, w);
      KModNeg(k, w);
      var r := RollGrid(RollGrid(g, k, w), -k, w);
      forall y | 0 <= y < |g|
        ensures r[y] == g[y]
      {
        RollRowTwice(g[y], km);
      }
    }
  }

  lemma RollRowTwice(row: seq<byte>, km: nat)
    requires km < |row|
    ensures RollRow(RollRow(row, km), if km == 0 then 0 else |row| - km) == row
  {
    var w := |row|;
    if km == 0 {
      assert RollRow(row, 0) == row;
    } else {
      var a, b := row[w - km..], row[..w - km];
      assert RollRow(row, km) == a + b;
      assert (a + b)[km..] == b && (a + b)[..km] == a;
      assert b + a == row;
    }
  }

  /** `countNonZero` of a concatenation. */
  lemma {:induction false} CountRowConcat(a: seq<byte>, b: seq<byte>)
    ensures CountRow(a + b) == CountRow(a) + CountRow(b)
    decreases |b|
  {
    if |b| > 0 {
      var b' := b[..|b| - 1];
      assert (a + b)[..|a + b| - 1] == a + b';
      assert (a + b)[|a + b| - 1] == b[|b| - 1];
      assert CountRow(a + b) == CountRow(a + b') + Hit(b[|b| - 1]);
      CountRowConcat(a, b');
    } else {
      assert a + b == a;
    }
  }

  /** Maps whose rows count alike count alike. */
  lemma {:induction false} CountRowwise(g1: seq<seq<byte>>, g2: seq<seq<byte>>)
    requires |g1| == |g2|
    requires forall y :: 0 <= y < |g1| ==> CountRow(g1[y]) == CountRow(g2[y])
    ensures Count(g1) == Count(g2)
    decreases |g1|
  {
    if |g1| > 0 {
      CountRowwise(g1[..|g1| - 1], g2[..|g2| - 1]);
    }
  }

  /** Rolling moves pixels without creating or losing edges. */
  lemma RollCount(g: seq<seq<byte>>, k: int, w: nat)
    requires Rect(g, w) && (k == 0 || w > 0)
    ensures Count(RollGrid(g, k, w)) == Count(g)
  {
    var r := RollGrid(g, k, w);
    forall y | 0 <= y < |g|
      ensures CountRow(r[y]) == CountRow(g[y])
    {
      if k != 0 {
        RollRowCount(g[y], KMod(k, w));
      }
    }
    CountRowwise(r, g);
  }

  lemma RollRowCount(row: seq<byte>, km: nat)
    requires km <= |row|
    ensures CountRow(RollRow(row, km)) == CountRow(row)
  {
    var n := |row| - km;
    CountRowConcat(row[n..], row[..n]);
    CountRowConcat(row[..n], row[n..]);
    assert row[..n] + row[n..] == row;
  }

  /** `src.roi(sx, 0, width, h).copyTo(dst.roi(dx, 0, width, h))`: the
      `width` columns of `src` from `sx` are written into `dst` from `dx`, and
      every other pixel of `dst` keeps its value. */
  method CopyBlock(src: array2<byte>, sx: nat, dst: array2<byte>, dx: nat, width: nat)
    requires src != dst && src.Length0 == dst.Length0
    requires sx + width <= src.Length1 && dx + width <= dst.Length1
    modifies dst
    ensures forall y, x :: 0 <= y < dst.Length0 && 0 <= x < dst.Length1 ==>
              dst[y, x] == if dx <= x < dx + width then src[y, sx + x - dx] else old(dst[y, x])
  {
    for y := 0 to dst.Length0
      invariant forall y', x :: 0 <= y' < dst.Length0 && 0 <= x < dst.Length1 ==>
                  dst[y', x] == if y' < y && dx <= x < dx + width then src[y', sx + x - dx] else old(dst[y', x])
    {
      for i := 0 to width
        invariant forall y', x :: 0 <= y' < dst.Length0 && 0 <= x < dst.Length1 ==>
                    dst[y', x] == if (y' < y || (y' == y && x < dx + i)) && dx <= x < dx + width
                                  then src[y', sx + x - dx] else old(dst[y', x])
      {
        dst[y, dx + i] := src[y, sx + i];
      }
    }
  }

  /** `rollCols(cv, src, k)`: a fresh map of the same size holding `src`
      with its columns rolled right by `k`; for `k === 0`, a clone. */
  method RollCols(src: array2<byte>, k: int) returns (dst: array2<byte>)
    requires k == 0 || src.Length1 > 0
    ensures fresh(dst) && dst.Length0 == src.Length0 && dst.Length1 == src.Length1
    ensures Grid(dst) == RollGrid(Grid(src), k, src.Length1)
  {
    var w, h := src.Length1, src.Length0;
    dst := new byte[h, w];
    if k == 0 {
      CopyBlock(src, 0, dst, 0, w);
      var g, r := Grid(src), Grid(dst);
      forall y | 0 <= y < h
        ensures r[y] == g[y]
      {
      }
      return;
    }
    var kMod := (JsRem(k, w) + w) % w;
    assert kMod == KMod(k, w);
    CopyBlock(src, w - kMod, dst, 0, kMod);
    CopyBlock(src, 0, dst, kMod, w - kMod);
    var g, r := Grid(src), Grid(dst);
    forall y | 0 <= y < h
      ensures r[y] == RollRow(g[y], kMod)
    {
      forall x | 0 <= x < w
        ensures r[y][x] == RollRow(g[y], kMod)[x]
      {
        RollRowAt(g[y], kMod, x);
      }
    }
  }
}
