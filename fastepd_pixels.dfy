/** The two source formats the FastEPD back end decodes into panel inks: LVGL's I1
    rows (1 bit per pixel, MSB first, a set bit drawn white) and its I8 grey bytes
    (drawn as their high nibble). The colours of a w×h region are listed row-major,
    ready for Raster.Scan. */
module FastEpdPixels {
  import opened Raster
  import opened Transcode
  import opened FastEpdNative

  /** The ink of pixel (x, y) of a w-pixel-wide 1-bpp bitmap. */
  function MonoInk(data: seq<bv8>, w: int, x: int, y: int): (ink: Ink)
    requires 0 <= x && 0 <= MonoByteIndex(x, y, w) < |data|
    ensures ink == White <==> MonoSet(data, w, x, y)
    ensures ink == Black <==> !MonoSet(data, w, x, y)
  {
    if MonoSet(data, w, x, y) then White else Black
  }

  /** The inks of a w×h 1-bpp bitmap, row-major. */
  function MonoColors(data: seq<bv8>, w: nat, h: nat): (colors: seq<Ink>)
    requires h * Stride(w) <= |data|
    ensures |colors| == w * h
  {
    seq(w * h, i requires 0 <= i < w * h => MonoInkAt(data, w, h, i))
  }

  function MonoInkAt(data: seq<bv8>, w: nat, h: nat, i: int): Ink
    requires h * Stride(w) <= |data| && 0 <= i < w * h
  {
    assert w != 0;
    RowOfIndex(i, w, h);
    MonoByteIndexBound(i % w, i / w, w, h);
    MonoInk(data, w, i % w, i / w)
  }

  /** The inks of a w×h block of 8-bit grey pixels, row-major. */
  function GrayColors(data: seq<bv8>, w: nat, h: nat): (colors: seq<Ink>)
    requires w * h <= |data|
    ensures |colors| == w * h
    ensures forall i :: 0 <= i < w * h ==> colors[i] == Level(GrayHigh(data[i]))
  {
    seq(w * h, i requires 0 <= i < w * h => Level(GrayHigh(data[i])))
  }

  /** Step i = row * w + col of a 1-bpp scan reads a byte inside the bitmap and draws cell
      (col, row) white exactly when its bit is set. */
  lemma MonoStep(data: seq<bv8>, x0: int, y0: int, w: nat, h: nat, row: int, col: int, i: int)
    requires h * Stride(w) <= |data|
    requires 0 <= row < h && 0 <= col < w && i == row * w + col
    ensures 0 <= i < w * h
    ensures 0 <= MonoByteIndex(col, row, w) < |data| && 0 <= MonoBitIndex(col) < 8
    ensures Scan(x0, y0, w, h, MonoColors(data, w, h))[i] == Plot(x0 + col, y0 + row, MonoInk(data, w, col, row))
  {
    MonoByteIndexBound(col, row, w, h);
    ScanAt(x0, y0, w, h, MonoColors(data, w, h), row, col);
    RowMajor(row, col, w);
  }

  /** drawBitmap's spelling of the bit test, `(byte >> bit) & 0x01`, picks the same ink. */
  lemma ShiftInk(data: seq<bv8>, w: int, x: int, y: int)
    requires 0 <= x && 0 <= MonoByteIndex(x, y, w) < |data|
    ensures 0 <= MonoBitIndex(x) < 8
    ensures (if ShiftBit(data[MonoByteIndex(x, y, w)], MonoBitIndex(x) as nat) != 0 then White else Black) == MonoInk(data, w, x, y)
  {
    MaskShiftAgree(data[MonoByteIndex(x, y, w)], MonoBitIndex(x) as nat);
  }

  /** Step i = row * w + col of a grey scan draws cell (col, row) with the high nibble of byte i. */
  lemma GrayStep(data: seq<bv8>, x0: int, y0: int, w: nat, h: nat, row: int, col: int, i: int)
    requires w * h <= |data|
    requires 0 <= row < h && 0 <= col < w && i == row * w + col
    ensures 0 <= i < w * h
    ensures Scan(x0, y0, w, h, GrayColors(data, w, h))[i] == Plot(x0 + col, y0 + row, Level(GrayHigh(data[i])))
  {
    ScanAt(x0, y0, w, h, GrayColors(data, w, h), row, col);
  }

  /** Step i = row * w + col of drawBitmap: the byte and bit it reads lie inside the bitmap,
      and the drawPixel call it makes, with drawBitmap's own spelling of the bit test, is
      the scan's next plot. */
  lemma BitmapStep(t: seq<PanelCall>, data: seq<bv8>, x0: int, y0: int, w: nat, h: nat, row: nat, col: int, i: int)
    requires h * Stride(w) <= |data|
    requires row < h && 0 <= col < w && i == RowStart(row, w) + col
    ensures 0 <= MonoByteIndex(col, row, w) < |data| && 0 <= MonoBitIndex(col) < 8
    ensures 0 <= i < w * h
    ensures t + Draws(Scan(x0, y0, w, h, MonoColors(data, w, h))[..i + 1], false)
         == t + Draws(Scan(x0, y0, w, h, MonoColors(data, w, h))[..i], false) +
            [DrawPixel(Plot(x0 + col, y0 + row,
                            if ShiftBit(data[MonoByteIndex(col, row, w)], MonoBitIndex(col) as nat) != 0 then White else Black))]
  {
    RowStartIsProduct(row, w);
    MonoStep(data, x0, y0, w, h, row, col, i);
    ShiftInk(data, w, col, row);
    DrawsStep(t, Scan(x0, y0, w, h, MonoColors(data, w, h)), false, i);
  }

  /** Step i = row * w + col of the I1 flush: the byte and bit it reads lie inside the
      buffer, and the drawPixelFast call it makes, with the flush's own mask test, is the
      scan's next plot. */
  lemma FlushMonoStep(t: seq<PanelCall>, data: seq<bv8>, x0: int, y0: int, w: nat, h: nat, row: nat, col: int, i: int)
    requires h * Stride(w) <= |data|
    requires row < h && 0 <= col < w && i == RowStart(row, w) + col
    ensures 0 <= MonoByteIndex(col, row, w) < |data| && 0 <= MonoBitIndex(col) < 8
    ensures 0 <= i < w * h
    ensures t + Draws(Scan(x0, y0, w, h, MonoColors(data, w, h))[..i + 1], true)
         == t + Draws(Scan(x0, y0, w, h, MonoColors(data, w, h))[..i], true) +
            [DrawPixelFast(Plot(x0 + col, y0 + row,
                                if MaskBit(data[MonoByteIndex(col, row, w)], MonoBitIndex(col) as nat) then White else Black))]
  {
    RowStartIsProduct(row, w);
    MonoStep(data, x0, y0, w, h, row, col, i);
    DrawsStep(t, Scan(x0, y0, w, h, MonoColors(data, w, h)), true, i);
  }

  /** Step i = row * w + col of the I8 flush draws byte i's high nibble at (x0 + col, y0 + row). */
  lemma FlushGrayStep(t: seq<PanelCall>, data: seq<bv8>, x0: int, y0: int, w: nat, h: nat, row: nat, col: int, i: int)
    requires w * h <= |data|
    requires row < h && 0 <= col < w && i == RowStart(row, w) + col
    ensures 0 <= i < w * h
    ensures t + Draws(Scan(x0, y0, w, h, GrayColors(data, w, h))[..i + 1], true)
         == t + Draws(Scan(x0, y0, w, h, GrayColors(data, w, h))[..i], true) +
            [DrawPixelFast(Plot(x0 + col, y0 + row, Level(GrayHigh(data[i]))))]
  {
    RowStartIsProduct(row, w);
    GrayStep(data, x0, y0, w, h, row, col, i);
    DrawsStep(t, Scan(x0, y0, w, h, GrayColors(data, w, h)), true, i);
  }

  /** After the plots of a 1-bpp scan are drawn with either pixel primitive, each cell of
      the rectangle has been drawn exactly once and is white exactly when its bit is set;
      every cell outside is never drawn and keeps its ink; the background is unchanged. */
  lemma MonoCanvas(calls: seq<PanelCall>, fast: bool, x0: int, y0: int, w: nat, h: nat, data: seq<bv8>, px: int, py: int)
    requires h * Stride(w) <= |data|
    ensures var plots := Scan(x0, y0, w, h, MonoColors(data, w, h));
      var m := Canvas(calls + Draws(plots, fast));
      Background(calls + Draws(plots, fast)) == Background(calls) &&
      if InRect(px, py, x0, y0, w, h) then
        0 <= MonoByteIndex(px - x0, py - y0, w) < |data| &&
        Hits(plots, px, py) == 1 && (px, py) in m &&
        (m[(px, py)] == White <==> MonoSet(data, w, px - x0, py - y0)) &&
        (m[(px, py)] == Black <==> !MonoSet(data, w, px - x0, py - y0))
      else
        Hits(plots, px, py) == 0 &&
        ((px, py) in m <==> (px, py) in Canvas(calls)) &&
        ((px, py) in Canvas(calls) ==> m[(px, py)] == Canvas(calls)[(px, py)])
  {
    var colors := MonoColors(data, w, h);
    var plots := Scan(x0, y0, w, h, colors);
    CanvasDraws(calls, plots, fast);
    ScanPaint(Canvas(calls), x0, y0, w, h, colors, px, py);
    if InRect(px, py, x0, y0, w, h) {
      var row, col := py - y0, px - x0;
      RowMajor(row, col, w);
      MonoByteIndexBound(col, row, w, h);
    }
  }

  /** After the plots of a grey scan are drawn, each cell of the rectangle has been drawn
      exactly once with the high nibble of its byte; every cell outside keeps its ink. */
  lemma GrayCanvas(calls: seq<PanelCall>, fast: bool, x0: int, y0: int, w: nat, h: nat, data: seq<bv8>, px: int, py: int)
    requires w * h <= |data|
    ensures var plots := Scan(x0, y0, w, h, GrayColors(data, w, h));
      var m := Canvas(calls + Draws(plots, fast));
      Background(calls + Draws(plots, fast)) == Background(calls) &&
      if InRect(px, py, x0, y0, w, h) then
        var i := (py - y0) * w + (px - x0);
        0 <= i < |data| && Hits(plots, px, py) == 1 && (px, py) in m &&
        m[(px, py)] == Level(GrayHigh(data[i])) && m[(px, py)].level == data[i] >> 4
      else
        Hits(plots, px, py) == 0 &&
        ((px, py) in m <==> (px, py) in Canvas(calls)) &&
        ((px, py) in Canvas(calls) ==> m[(px, py)] == Canvas(calls)[(px, py)])
  {
    var colors := GrayColors(data, w, h);
    var plots := Scan(x0, y0, w, h, colors);
    CanvasDraws(calls, plots, fast);
    ScanPaint(Canvas(calls), x0, y0, w, h, colors, px, py);
  }
}
