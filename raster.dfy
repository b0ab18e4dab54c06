/** Row-major rasterisation of a rectangle, shared by every per-pixel write path
    of both back ends: a w×h region at (x0, y0) is visited row by row, and the
    i-th visit lands on column i % w, row i / w of the region. */
module Raster {

  /** One call of a native per-pixel draw primitive. */
  datatype Plot<T> = Plot(x: int, y: int, color: T)

  /** A framebuffer as seen by the model: a colour per written coordinate. */
  type Framebuffer<T> = map<(int, int), T>

  lemma RowMajor(row: int, col: int, w: int)
    requires 0 <= row && 0 <= col < w
    ensures (row * w + col) / w == row && (row * w + col) % w == col
  {
    var i := row * w + col;
    var q, r := i / w, i % w;
    assert i == w * q + r && 0 <= r < w;
    if q > row {
      assert w * q >= w * (row + 1) by { MulMono(w, row + 1, q); }
      assert false;
    } else if q < row {
      assert w * row >= w * (q + 1) by { MulMono(w, q + 1, row); }
      assert false;
    }
  }

  lemma MulMono(w: int, a: int, b: int)
    requires 0 <= w && a <= b
    ensures w * a <= w * b
  {
  }

  /** The row-major index of a cell of a w×h region stays inside the region's w * h cells. */
  lemma RowMajorBound(row: int, col: int, w: int, h: int)
    requires 0 <= row < h && 0 <= col < w
    ensures 0 <= row * w + col < w * h
  {
    MulMono(w, row + 1, h);
  }

  /** Where row `row` of a w-wide row-major region starts, counted one row at a time; the
      loops over rows keep their running index equal to it, which keeps products out of
      their invariants. */
  function RowStart(row: nat, w: nat): nat
  {
    if row == 0 then 0 else RowStart(row - 1, w) + w
  }

  lemma {:induction false} RowStartIsProduct(row: nat, w: nat)
    ensures RowStart(row, w) == row * w
  {
    if row > 0 {
      RowStartIsProduct(row - 1, w);
    }
  }

  /** Rows below h start, and end, inside the region's w * h cells. */
  lemma RowStartBound(row: nat, w: nat, h: nat)
    requires row < h
    ensures RowStart(row + 1, w) == RowStart(row, w) + w <= w * h
  {
    RowStartIsProduct(row + 1, w);
    MulMono(w, row + 1, h);
  }

  /** Index i of a w×h scan lies in row i / w < h. */
  lemma RowOfIndex(i: int, w: int, h: int)
    requires 0 <= i < w * h && 0 < w
    ensures 0 <= i / w < h && 0 <= i % w < w
  {
    if i / w >= h {
      MulMono(w, h, i / w);
      assert false;
    }
  }

  /** The plots a w×h rectangle at (x0, y0) receives, in the order of a loop over
      rows and, inside it, over columns; colors[row * w + col] lands on (x0 + col, y0 + row). */
  function Scan<T>(x0: int, y0: int, w: nat, h: nat, colors: seq<T>): (s: seq<Plot<T>>)
    requires |colors| == w * h
    ensures |s| == w * h
  {
    if w == 0 then []
    else seq(w * h, i requires 0 <= i < w * h => Plot(x0 + i % w, y0 + i / w, colors[i]))
  }

  /** The cell (col, row) of the region is plotted at step row * w + col, with its own colour. */
  lemma ScanAt<T>(x0: int, y0: int, w: nat, h: nat, colors: seq<T>, row: int, col: int)
    requires |colors| == w * h
    requires 0 <= row < h && 0 <= col < w
    ensures 0 <= row * w + col < w * h
    ensures Scan(x0, y0, w, h, colors)[row * w + col] == Plot(x0 + col, y0 + row, colors[row * w + col])
  {
    RowMajorBound(row, col, w, h);
    RowMajor(row, col, w);
  }

  /** Number of plots of s that land on (px, py). */
  function Hits<T>(s: seq<Plot<T>>, px: int, py: int): nat
  {
    if s == [] then 0
    else Hits(s[..|s| - 1], px, py) + (if s[|s| - 1].x == px && s[|s| - 1].y == py then 1 else 0)
  }

  /** Applying plots to a framebuffer in order: a later plot overwrites an earlier one. */
  function Paint<T>(fb: Framebuffer<T>, s: seq<Plot<T>>): Framebuffer<T>
  {
    if s == [] then fb
    else Paint(fb, s[..|s| - 1])[(s[|s| - 1].x, s[|s| - 1].y) := s[|s| - 1].color]
  }

  predicate InRect(px: int, py: int, x0: int, y0: int, w: int, h: int)
  {
    x0 <= px < x0 + w && y0 <= py < y0 + h
  }

  /** Step i of a scan hits (px, py) exactly when i is that cell's row-major index. */
  lemma ScanHitsOnlyAt<T>(x0: int, y0: int, w: nat, h: nat, colors: seq<T>, px: int, py: int, i: int)
    requires |colors| == w * h && 0 <= i < w * h
    ensures var s := Scan(x0, y0, w, h, colors);
      (s[i].x == px && s[i].y == py) <==>
      (InRect(px, py, x0, y0, w, h) && i == (py - y0) * w + (px - x0))
  {
    RowOfIndex(i, w, h);
    if InRect(px, py, x0, y0, w, h) {
      RowMajor(py - y0, px - x0, w);
    }
  }

  /** Plots that never land on (px, py) leave that cell as it was and count no hit there. */
  lemma {:induction false} PaintMisses<T>(fb: Framebuffer<T>, s: seq<Plot<T>>, px: int, py: int)
    requires forall i :: 0 <= i < |s| ==> !(s[i].x == px && s[i].y == py)
    ensures Hits(s, px, py) == 0
    ensures (px, py) in Paint(fb, s) <==> (px, py) in fb
    ensures (px, py) in fb ==> Paint(fb, s)[(px, py)] == fb[(px, py)]
  {
    if s != [] {
      PaintMisses(fb, s[..|s| - 1], px, py);
    }
  }

  /** When only step k lands on its cell, that cell is hit once and ends with step k's colour. */
  lemma {:induction false} PaintOnce<T>(fb: Framebuffer<T>, s: seq<Plot<T>>, k: int)
    requires 0 <= k < |s|
    requires forall i :: 0 <= i < |s| && i != k ==> !(s[i].x == s[k].x && s[i].y == s[k].y)
    ensures Hits(s, s[k].x, s[k].y) == 1
    ensures (s[k].x, s[k].y) in Paint(fb, s) && Paint(fb, s)[(s[k].x, s[k].y)] == s[k].color
  {
    var n := |s| - 1;
    if k == n {
      PaintMisses(fb, s[..n], s[k].x, s[k].y);
    } else {
      assert s[..n][k] == s[k];
      PaintOnce(fb, s[..n], k);
    }
  }

  /** What a scan leaves behind: every cell of the rectangle is plotted exactly once and
      holds its colour from colors; every cell outside is never plotted and keeps its value. */
  lemma ScanPaint<T>(fb: Framebuffer<T>, x0: int, y0: int, w: nat, h: nat, colors: seq<T>, px: int, py: int)
    requires |colors| == w * h
    ensures var s := Scan(x0, y0, w, h, colors);
      var m := Paint(fb, s);
      if InRect(px, py, x0, y0, w, h) then
        var i := (py - y0) * w + (px - x0);
        0 <= i < w * h && Hits(s, px, py) == 1 && (px, py) in m && m[(px, py)] == colors[i]
      else
        Hits(s, px, py) == 0 && ((px, py) in m <==> (px, py) in fb) && ((px, py) in fb ==> m[(px, py)] == fb[(px, py)])
  {
    var s := Scan(x0, y0, w, h, colors);
    forall j | 0 <= j < |s|
      ensures (s[j].x == px && s[j].y == py) <==> (InRect(px, py, x0, y0, w, h) && j == (py - y0) * w + (px - x0))
    {
      ScanHitsOnlyAt(x0, y0, w, h, colors, px, py, j);
    }
    if InRect(px, py, x0, y0, w, h) {
      var row, col := py - y0, px - x0;
      ScanAt(x0, y0, w, h, colors, row, col);
      PaintOnce(fb, s, row * w + col);
    } else {
      PaintMisses(fb, s, px, py);
    }
  }
}
