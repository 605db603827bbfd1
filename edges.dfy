/** The Canny edge map the analyzers read: a 2-D array of bytes, `a[y, x]`
    with `a.Length0` rows (the map's height) and `a.Length1` columns (its
    width). A pixel counts as an edge when it is non-zero. */
module Edges {

  /** An 8-bit pixel value (`ucharAt`). */
  newtype byte = x: int | 0 <= x < 256

  /** `edges.ucharAt(y, x) > 0 ? 1 : 0`. */
  function Hit(p: byte): (r: nat)
    ensures r <= 1 && (r == 1 <==> p != 0)
  {
    if p > 0 then 1 else 0
  }

  /** The map as a sequence of rows. */
  function Grid(a: array2<byte>): (g: seq<seq<byte>>)
    reads a
    ensures |g| == a.Length0
    ensures forall y :: 0 <= y < |g| ==> |g[y]| == a.Length1
    ensures forall y, x :: 0 <= y < a.Length0 && 0 <= x < a.Length1 ==> g[y][x] == a[y, x]
  {
    seq(a.Length0, y requires 0 <= y < a.Length0 reads a =>
      seq(a.Length1, x requires 0 <= x < a.Length1 reads a => a[y, x]))
  }

  /** The map as a value: its rows, its width (`cols`) and its height
      (`rows`). */
  datatype EdgeMap = EdgeMap(px: seq<seq<byte>>, w: nat, h: nat)

  function MapOf(a: array2<byte>): EdgeMap
    reads a
  {
    EdgeMap(Grid(a), a.Length1, a.Length0)
  }

  /** Pixel `(y, x)` of the map, 0 outside it. */
  function Pixel(e: EdgeMap, y: int, x: int): byte
  {
    if 0 <= y < |e.px| && 0 <= x < |e.px[y]| then e.px[y][x] else 0
  }

  /** Inside the array, a pixel of its map is the array element. */
  lemma PixelAt(a: array2<byte>, y: int, x: int)
    requires 0 <= y < a.Length0 && 0 <= x < a.Length1
    ensures Pixel(MapOf(a), y, x) == a[y, x]
  {
  }

  /** Edge pixels of row `y` in the columns `lo <= x < hi`. */
  function RowHits(e: EdgeMap, y: int, lo: int, hi: int): (r: nat)
    ensures lo <= hi ==> r <= hi - lo
    decreases hi - lo
  {
    if hi <= lo then 0 else RowHits(e, y, lo, hi - 1) + Hit(Pixel(e, y, hi - 1))
  }

  /** Edge pixels of the rectangle of rows `ylo <= y < yhi` and columns
      `xlo <= x < xhi`. */
  function RectHits(e: EdgeMap, ylo: int, yhi: int, xlo: int, xhi: int): (r: nat)
    requires xlo <= xhi
    ensures ylo <= yhi ==> r <= (yhi - ylo) * (xhi - xlo)
    decreases yhi - ylo
  {
    if yhi <= ylo then 0
    else RectHits(e, ylo, yhi - 1, xlo, xhi) + RowHits(e, yhi - 1, xlo, xhi)
  }

  /** No pixel of the map is an edge. */
  ghost predicate Blank(e: EdgeMap)
  {
    forall y, x :: 0 <= y < |e.px| && 0 <= x < |e.px[y]| ==> e.px[y][x] == 0
  }

  /** Every row of `g` has `w` columns. */
  ghost predicate Rect(g: seq<seq<byte>>, w: nat)
  {
    forall y :: 0 <= y < |g| ==> |g[y]| == w
  }

  /** `cv.countNonZero` of one row. */
  function CountRow(row: seq<byte>): (r: nat)
    ensures r <= |row|
  {
    if |row| == 0 then 0 else CountRow(row[..|row| - 1]) + Hit(row[|row| - 1])
  }

  /** `cv.countNonZero` of a map. */
  function Count(g: seq<seq<byte>>): nat
  {
    if |g| == 0 then 0 else Count(g[..|g| - 1]) + CountRow(g[|g| - 1])
  }
}
