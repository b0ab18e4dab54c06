/** FastEpdDisplayDriver: the direct-drawing handle the FastEPD device lends out when
    LVGL is detached. It shares the device's panel object and copies 1-bpp bitmaps
    into the panel buffer pixel by pixel. */
module FastEpdDriver {
  import opened Host
  import opened Raster
  import opened Transcode
  import opened FastEpdNative
  import opened FastEpdPixels

  /** The plots drawBitmap makes for the half-open rectangle [xStart, xEnd) × [yStart, yEnd). */
  ghost function BitmapPlots(xStart: int, yStart: int, xEnd: int, yEnd: int, data: seq<bv8>): (plots: seq<Plot<Ink>>)
    requires 0 < xEnd - xStart && 0 < yEnd - yStart
    requires (yEnd - yStart) * Stride(xEnd - xStart) <= |data|
    ensures |plots| == (xEnd - xStart) * (yEnd - yStart)
    ensures forall i :: 0 <= i < |plots| ==>
      plots[i] == Plot(xStart + i % (xEnd - xStart), yStart + i / (xEnd - xStart),
                       MonoInkAt(data, xEnd - xStart, yEnd - yStart, i))
  {
    Scan(xStart, yStart, xEnd - xStart, yEnd - yStart, MonoColors(data, xEnd - xStart, yEnd - yStart))
  }

  class FastEpdDisplayDriver {
    const epd: Panel?
    const graphicsMode: GraphicsMode

    constructor (epd: Panel?, graphicsMode: GraphicsMode)
      ensures this.epd == epd && this.graphicsMode == graphicsMode
    {
      this.epd := epd;
      this.graphicsMode := graphicsMode;
    }

    /** Copies a 1-bpp bitmap into the panel buffer at [xStart, xEnd) × [yStart, yEnd).
        Refused, with nothing drawn, without a panel, without data, or for an empty or
        inverted rectangle. */
    method DrawBitmap(xStart: int, yStart: int, xEnd: int, yEnd: int, pixelData: Option<seq<bv8>>) returns (ok: bool)
      requires epd != null && pixelData.Some? && 0 < xEnd - xStart && 0 < yEnd - yStart ==>
        (yEnd - yStart) * Stride(xEnd - xStart) <= |pixelData.value|
      modifies epd
      ensures epd != null ==> epd.width == old(epd.width) && epd.height == old(epd.height)
      ensures ok <==> epd != null && pixelData.Some? && 0 < xEnd - xStart && 0 < yEnd - yStart
      ensures !ok && epd != null ==> epd.calls == old(epd.calls)
      ensures ok ==> epd.calls == old(epd.calls) + Draws(BitmapPlots(xStart, yStart, xEnd, yEnd, pixelData.value), false)
    {
      if epd == null || pixelData.None? {
        return false;
      }
      var bmpWidth := xEnd - xStart;
      var bmpHeight := yEnd - yStart;
      if bmpWidth <= 0 || bmpHeight <= 0 {
        return false;
      }
      DrawRows(xStart, yStart, bmpWidth, bmpHeight, pixelData.value);
      return true;
    }

    /** drawBitmap's two loops: every row of the w×h bitmap, top to bottom. */
    method DrawRows(xStart: int, yStart: int, w: nat, h: nat, pixelData: seq<bv8>)
      requires epd != null && h * Stride(w) <= |pixelData|
      modifies epd`calls
      ensures epd.calls == old(epd.calls) + Draws(Scan(xStart, yStart, w, h, MonoColors(pixelData, w, h)), false)
    {
      var bmpWidth, bmpHeight := w, h;
      ghost var plots := Scan(xStart, yStart, w, h, MonoColors(pixelData, w, h));
      ghost var calls0 := epd.calls;
      var done: nat := 0;
      var y := 0;
      while y < bmpHeight
        invariant 0 <= y <= bmpHeight
        invariant done == RowStart(y, bmpWidth) <= |plots|
        invariant epd.calls == calls0 + Draws(plots[..done], false)
      {
        RowStartBound(y, bmpWidth, bmpHeight);
        DrawRow(xStart, yStart, bmpWidth, bmpHeight, pixelData, y, done, plots, calls0);
        done := done + bmpWidth;
        y := y + 1;
      }
      RowStartIsProduct(bmpHeight, bmpWidth);
      assert plots[..done] == plots;
    }

    /** One pass of drawBitmap's inner loop: row y of the w×h bitmap drawn at
        (xStart, yStart), whose first pixel is pixel `done`. */
    method DrawRow(xStart: int, yStart: int, w: nat, h: nat, pixelData: seq<bv8>, y: nat, done: nat,
                   ghost plots: seq<Plot<Ink>>, ghost calls0: seq<PanelCall>)
      requires epd != null
      requires y < h && h * Stride(w) <= |pixelData|
      requires plots == Scan(xStart, yStart, w, h, MonoColors(pixelData, w, h))
      requires done == RowStart(y, w) && done + w <= |plots|
      requires epd.calls == calls0 + Draws(plots[..done], false)
      modifies epd`calls
      ensures epd.calls == calls0 + Draws(plots[..done + w], false)
    {
      var bmpWidth, bmpHeight := w, h;
      var x := 0;
      while x < bmpWidth
        invariant 0 <= x <= bmpWidth
        invariant epd.calls == calls0 + Draws(plots[..done + x], false)
      {
        var srcX, srcY := x, y;
        var dstX, dstY := xStart + x, yStart + y;
        BitmapStep(calls0, pixelData, xStart, yStart, bmpWidth, bmpHeight, srcY, srcX, done + x);
        var byteIndex := MonoByteIndex(srcX, srcY, bmpWidth);
        var bitIndex := MonoBitIndex(srcX);
        var pixel := ShiftBit(pixelData[byteIndex], bitIndex);
        epd.DrawPixel(dstX, dstY, if pixel != 0 then White else Black);
        assert epd.calls == calls0 + Draws(plots[..done + x + 1], false);
        x := x + 1;
      }
    }
  }
}
