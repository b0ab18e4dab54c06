/** The FastEPD back end: a display device that owns a FASTEPD panel object, hands LVGL
    a draw buffer in the format of its graphics mode, copies flushed pixels into the
    panel buffer without refreshing, and lends the panel to a FastEpdDisplayDriver when
    LVGL is detached. Unlike the EPDiy back end it takes no lock and never powers the
    panel on by itself. */
module FastEpd {
  import opened Host
  import opened Raster
  import opened Transcode
  import opened FastEpdNative
  import opened FastEpdPixels
  import opened FastEpdDriver

  /** The touch device handed in with the configuration, by identity. */
  datatype TouchDevice = TouchDevice(id: int)

  datatype Configuration = Configuration(
    panelType: int,
    touch: Option<TouchDevice>,
    busSpeed: int,
    graphicsMode: GraphicsMode,
    rotation: int,
    partialPasses: int,
    fullPasses: int)

  /** A configuration built from a panel type alone: the constructor's default arguments. */
  function DefaultConfiguration(panelType: int): (c: Configuration)
    ensures c.panelType == panelType && c.touch == None
    ensures c.busSpeed == 20000000 && c.graphicsMode == Mode4Bpp && c.rotation == 0
    ensures c.partialPasses == 3 && c.fullPasses == 5
  {
    Configuration(panelType, None, 20000000, Mode4Bpp, 0, 3, 5)
  }

  /** The LVGL colour format startLvgl picks for a graphics mode: I1 for 1 bpp, I8 for
      4 bpp (LVGL has no 4-bit format), none for any other mode. */
  function LvglFormat(mode: GraphicsMode): (format: Option<ColorFormat>)
    ensures format == Some(I1) <==> mode == Mode1Bpp
    ensures format == Some(I8) <==> mode == Mode4Bpp
    ensures format.None? <==> mode.OtherMode?
  {
    match mode
    case Mode1Bpp => Some(I1)
    case Mode4Bpp => Some(I8)
    case OtherMode(_) => None
  }

  /** The draw buffer size for a w×h panel: one bit per pixel for I1 (rounded down to whole
      bytes), one byte per pixel otherwise. */
  function BufferSize(format: ColorFormat, w: nat, h: nat): (size: nat)
    ensures format == I1 ==> 8 * size <= w * h < 8 * size + 8
    ensures format != I1 ==> size == w * h
  {
    if format == I1 then (w * h) / 8 else w * h
  }

  /** The panel calls a successful start makes after initPanel. */
  function StartCalls(configuration: Configuration): (calls: seq<PanelCall>)
    ensures |calls| == (if configuration.rotation != 0 then 5 else 4)
    ensures calls[0] == SetMode(configuration.graphicsMode)
    ensures configuration.rotation != 0 ==> calls[1] == SetRotation(configuration.rotation)
    ensures forall c <- calls :: c.SetRotation? ==> configuration.rotation != 0
    ensures calls[|calls| - 3..] == [SetPasses(configuration.partialPasses, configuration.fullPasses),
                                     FillScreen(White), FullUpdate(ClearWhite, false, None)]
  {
    [SetMode(configuration.graphicsMode)] +
    (if configuration.rotation != 0 then [SetRotation(configuration.rotation)] else []) +
    [SetPasses(configuration.partialPasses, configuration.fullPasses), FillScreen(White), FullUpdate(ClearWhite, false, None)]
  }

  /** With the default configuration, start leaves the rotation alone and LVGL gets an
      8-bit grey buffer of one byte per pixel. */
  lemma DefaultsDrawGray(panelType: int, w: nat, h: nat)
    ensures forall c <- StartCalls(DefaultConfiguration(panelType)) :: !c.SetRotation?
    ensures LvglFormat(DefaultConfiguration(panelType).graphicsMode) == Some(I8)
    ensures BufferSize(I8, w, h) == w * h
  {
  }

  /** The plots a flush makes for the inclusive area in the given source format. */
  ghost function FlushPlots(area: Area, format: Option<ColorFormat>, pixelMap: seq<bv8>): (plots: seq<Plot<Ink>>)
    requires 0 <= area.Width() && 0 <= area.Height()
    requires format == Some(I1) ==> area.Height() * Stride(area.Width()) <= |pixelMap|
    requires format == Some(I8) ==> area.Width() * area.Height() <= |pixelMap|
    ensures format == Some(I1) || format == Some(I8) ==> |plots| == area.Width() * area.Height()
    ensures format != Some(I1) && format != Some(I8) ==> plots == []
    ensures format == Some(I1) ==> forall i :: 0 <= i < |plots| ==>
      plots[i] == Plot(area.x1 + i % area.Width(), area.y1 + i / area.Width(),
                       MonoInkAt(pixelMap, area.Width(), area.Height(), i))
    ensures format == Some(I8) ==> forall i :: 0 <= i < |plots| ==>
      plots[i] == Plot(area.x1 + i % area.Width(), area.y1 + i / area.Width(), Level(GrayHigh(pixelMap[i])))
  {
    match format
    case Some(I1) => Scan(area.x1, area.y1, area.Width(), area.Height(), MonoColors(pixelMap, area.Width(), area.Height()))
    case Some(I8) => Scan(area.x1, area.y1, area.Width(), area.Height(), GrayColors(pixelMap, area.Width(), area.Height()))
    case _ => []
  }

  class FastEpdDisplay {
    const configuration: Configuration
    /** The FASTEPD object, a member of the device. */
    const epd: Panel
    var displayDriver: FastEpdDisplayDriver?
    var lvglDisplay: Option<LvglDisplay>
    var initialized: bool
    var powered: bool
    ghost var heap: seq<HeapCall>

    /** LVGL stays attached only to an initialised device, and a lent driver draws on this
        device's panel. */
    ghost predicate Valid()
      reads this, displayDriver
    {
      (lvglDisplay.Some? ==> initialized) &&
      (displayDriver != null ==> displayDriver.epd == epd)
    }

    constructor (configuration: Configuration)
      ensures Valid()
      ensures this.configuration == configuration && fresh(epd) && epd.calls == []
      ensures !initialized && !powered && lvglDisplay == None && displayDriver == null
      ensures heap == []
    {
      this.configuration := configuration;
      epd := new Panel();
      displayDriver := null;
      lvglDisplay := None;
      initialized, powered := false, false;
      heap := [];
    }

    function IsPoweredOn(): (on: bool)
      reads this
      ensures on == powered
    {
      powered
    }

    function SupportsPowerControl(): (supported: bool)
      ensures supported
    {
      true
    }

    function SupportsLvgl(): (supported: bool)
      ensures supported
    {
      true
    }

    function SupportsDisplayDriver(): (supported: bool)
      ensures supported
    {
      true
    }

    function GetTouchDevice(): (touch: Option<TouchDevice>)
      ensures touch == configuration.touch
    {
      configuration.touch
    }

    function GetLvglDisplay(): (display: Option<LvglDisplay>)
      reads this
      ensures display == lvglDisplay
    {
      lvglDisplay
    }

    /** initPanel, then mode, rotation (only when not 0), passes and a white clear whose
        outcome is ignored. The library's results are parameters: initRc from initPanel,
        the panel dimensions before and after rotation, clearRc from the clear's update. */
    method Start(initRc: int, nativeWidth: nat, nativeHeight: nat, rotatedWidth: nat, rotatedHeight: nat, clearRc: int)
      returns (ok: bool)
      requires Valid()
      modifies this`initialized, epd
      ensures Valid()
      ensures old(initialized) ==>
        ok && initialized && epd.calls == old(epd.calls) && epd.width == old(epd.width) && epd.height == old(epd.height)
      ensures !old(initialized) ==> ok == (initRc == BBEP_SUCCESS) && initialized == ok
      ensures !old(initialized) ==>
        epd.calls == old(epd.calls) + [InitPanel(configuration.panelType, configuration.busSpeed)] +
                     (if ok then StartCalls(configuration) else [])
      ensures !old(initialized) && ok ==>
        if configuration.rotation != 0 then epd.width == rotatedWidth && epd.height == rotatedHeight
        else epd.width == nativeWidth && epd.height == nativeHeight
    {
      if initialized {
        return true;
      }
      var rc := epd.InitPanel(configuration.panelType, configuration.busSpeed, initRc, nativeWidth, nativeHeight);
      if rc != BBEP_SUCCESS {
        return false;
      }
      initialized := true;
      epd.SetMode(configuration.graphicsMode);
      if configuration.rotation != 0 {
        epd.SetRotation(configuration.rotation, rotatedWidth, rotatedHeight);
      }
      epd.SetPasses(configuration.partialPasses, configuration.fullPasses);
      var _ := ClearWhite(clearRc, false);
      return true;
    }

    /** Detaches LVGL, drops the lent driver, powers off and deinitialises; a no-op when
        not started. */
    method Stop() returns (ok: bool)
      requires Valid()
      modifies this`initialized, this`powered, this`lvglDisplay, this`displayDriver, epd`calls
      ensures Valid() && ok
      ensures !old(initialized) ==>
        !initialized && powered == old(powered) && lvglDisplay == old(lvglDisplay) &&
        displayDriver == old(displayDriver) && epd.calls == old(epd.calls)
      ensures old(initialized) ==>
        !initialized && !powered && lvglDisplay == None && displayDriver == null &&
        epd.calls == old(epd.calls) + (if old(powered) then [EinkPower(0)] else []) + [DeInit]
    {
      if !initialized {
        return true;
      }
      if lvglDisplay.Some? {
        var _ := StopLvgl();
        lvglDisplay := None;
      }
      displayDriver := null;
      SetPowerOn(false);
      epd.DeInit();
      initialized := false;
      return true;
    }

    /** Switches the panel power, calling einkPower only on a change of state. */
    method SetPowerOn(turnOn: bool)
      modifies this`powered, epd`calls
      ensures powered == turnOn
      ensures epd.calls == old(epd.calls) + (if old(powered) == turnOn then [] else [EinkPower(if turnOn then 1 else 0)])
    {
      if powered == turnOn {
        return;
      }
      epd.EinkPower(if turnOn then 1 else 0);
      powered := turnOn;
    }

    /** A full refresh, or -1 with no panel call before start; the library's result is
        nativeResult and is returned unchanged. */
    method FullUpdate(nativeResult: int, clearMode: ClearMode := ClearFast, keepOn: bool := false, rect: Option<BbRect> := None)
      returns (result: int)
      modifies epd`calls
      ensures !initialized ==> result == -1 && epd.calls == old(epd.calls)
      ensures initialized ==> result == nativeResult && epd.calls == old(epd.calls) + [PanelCall.FullUpdate(clearMode, keepOn, rect)]
    {
      if !initialized {
        return -1;
      }
      result := epd.FullUpdate(clearMode, keepOn, rect, nativeResult);
    }

    /** A partial refresh of rows startRow..endRow, or -1 with no panel call before start. */
    method PartialUpdate(nativeResult: int, keepOn: bool := false, startRow: int := 0, endRow: int := 4095)
      returns (result: int)
      modifies epd`calls
      ensures !initialized ==> result == -1 && epd.calls == old(epd.calls)
      ensures initialized ==> result == nativeResult && epd.calls == old(epd.calls) + [PanelCall.PartialUpdate(keepOn, startRow, endRow)]
    {
      if !initialized {
        return -1;
      }
      result := epd.PartialUpdate(keepOn, startRow, endRow, nativeResult);
    }

    /** Fills the buffer white and runs a white-clearing full update; true exactly when that
        update succeeds. */
    method ClearWhite(rc: int, keepOn: bool := false) returns (ok: bool)
      modifies epd`calls
      ensures !initialized ==> !ok && epd.calls == old(epd.calls)
      ensures initialized ==>
        ok == (rc == BBEP_SUCCESS) &&
        epd.calls == old(epd.calls) + [FillScreen(White), PanelCall.FullUpdate(ClearMode.ClearWhite, keepOn, None)]
    {
      if !initialized {
        return false;
      }
      epd.FillScreen(White);
      var result := epd.FullUpdate(ClearMode.ClearWhite, keepOn, None, rc);
      return result == BBEP_SUCCESS;
    }

    /** Fills the buffer black and runs a black-clearing full update; true exactly when that
        update succeeds. */
    method ClearBlack(rc: int, keepOn: bool := false) returns (ok: bool)
      modifies epd`calls
      ensures !initialized ==> !ok && epd.calls == old(epd.calls)
      ensures initialized ==>
        ok == (rc == BBEP_SUCCESS) &&
        epd.calls == old(epd.calls) + [FillScreen(Black), PanelCall.FullUpdate(ClearMode.ClearBlack, keepOn, None)]
    {
      if !initialized {
        return false;
      }
      epd.FillScreen(Black);
      var result := epd.FullUpdate(ClearMode.ClearBlack, keepOn, None, rc);
      return result == BBEP_SUCCESS;
    }

    /** Attaches LVGL with a direct-mode buffer in SPIRAM sized for the graphics mode.
        bufferOk is whether the allocation succeeds, createOk whether lv_display_create does. */
    method StartLvgl(bufferOk: bool, createOk: bool) returns (ok: bool)
      requires Valid()
      modifies this`lvglDisplay, this`heap
      ensures Valid()
      ensures old(lvglDisplay).Some? ==> ok && lvglDisplay == old(lvglDisplay) && heap == old(heap)
      ensures old(lvglDisplay).None? && (!initialized || LvglFormat(configuration.graphicsMode).None?) ==>
        !ok && lvglDisplay == None && heap == old(heap)
      ensures old(lvglDisplay).None? && initialized && LvglFormat(configuration.graphicsMode).Some? ==>
        var format := LvglFormat(configuration.graphicsMode).value;
        var size := BufferSize(format, epd.width, epd.height);
        ok == (bufferOk && createOk) &&
        heap == old(heap) + [Malloc(size, Spiram, bufferOk)] + (if bufferOk && !createOk then [Free] else []) &&
        lvglDisplay == if ok then Some(LvglDisplay(epd.width, epd.height, format, LV_DISPLAY_ROTATION_0, size, RenderDirect))
                       else None
    {
      if lvglDisplay.Some? {
        return true;
      }
      if !initialized {
        return false;
      }
      var colorFormat: ColorFormat;
      if configuration.graphicsMode == Mode1Bpp {
        colorFormat := I1;
      } else if configuration.graphicsMode == Mode4Bpp {
        colorFormat := I8;
      } else {
        return false;
      }
      var width, height := epd.width, epd.height;
      var bufferSize;
      if colorFormat == I1 {
        bufferSize := (width * height) / 8;
      } else {
        bufferSize := width * height;
      }
      heap := heap + [Malloc(bufferSize, Spiram, bufferOk)];
      if !bufferOk {
        return false;
      }
      if !createOk {
        heap := heap + [Free];
        return false;
      }
      lvglDisplay := Some(LvglDisplay(width, height, colorFormat, LV_DISPLAY_ROTATION_0, bufferSize, RenderDirect));
      return true;
    }

    /** Detaches LVGL; true whether or not it was attached. */
    method StopLvgl() returns (ok: bool)
      modifies this`lvglDisplay
      ensures ok && lvglDisplay == None
    {
      if lvglDisplay.None? {
        return true;
      }
      lvglDisplay := None;
      return true;
    }

    /** The colour format of the attached LVGL display, if any. */
    function FlushFormat(): (format: Option<ColorFormat>)
      reads this
      ensures format.Some? <==> lvglDisplay.Some?
      ensures lvglDisplay.Some? ==> format.value == lvglDisplay.value.colorFormat
    {
      if lvglDisplay.Some? then Some(lvglDisplay.value.colorFormat) else None
    }

    /** The LVGL flush path: copies the area's pixels into the panel buffer with
        drawPixelFast, decoding I1 rows or I8 grey bytes, and never refreshes. */
    method FlushInternal(area: Area, pixelMap: seq<bv8>)
      requires 0 <= area.Width() && 0 <= area.Height()
      requires FlushFormat() == Some(I1) ==> area.Height() * Stride(area.Width()) <= |pixelMap|
      requires FlushFormat() == Some(I8) ==> area.Width() * area.Height() <= |pixelMap|
      modifies epd`calls
      ensures !initialized ==> epd.calls == old(epd.calls)
      ensures initialized ==> epd.calls == old(epd.calls) + Draws(FlushPlots(area, FlushFormat(), pixelMap), true)
    {
      if !initialized {
        return;
      }
      var width := area.x2 - area.x1 + 1;
      var height := area.y2 - area.y1 + 1;
      var colorFormat := FlushFormat();
      if colorFormat == Some(I1) {
        FlushMono(area.x1, area.y1, width, height, pixelMap);
      } else if colorFormat == Some(I8) {
        FlushGray(area.x1, area.y1, width, height, pixelMap);
      } else {
        assert Draws([], true) == [];
      }
    }

    /** The I1 loops of flushInternal over a w×h area at (x0, y0). */
    method FlushMono(x0: int, y0: int, w: nat, h: nat, pixelMap: seq<bv8>)
      requires h * Stride(w) <= |pixelMap|
      modifies epd`calls
      ensures epd.calls == old(epd.calls) + Draws(Scan(x0, y0, w, h, MonoColors(pixelMap, w, h)), true)
    {
      ghost var plots := Scan(x0, y0, w, h, MonoColors(pixelMap, w, h));
      ghost var calls0 := epd.calls;
      var done: nat := 0;
      var y := 0;
      while y < h
        invariant 0 <= y <= h
        invariant done == RowStart(y, w) <= |plots|
        invariant epd.calls == calls0 + Draws(plots[..done], true)
      {
        RowStartBound(y, w, h);
        FlushMonoRow(x0, y0, w, h, pixelMap, y, done, plots, calls0);
        done := done + w;
        y := y + 1;
      }
      RowStartIsProduct(h, w);
      assert plots[..done] == plots;
    }

    /** Row y of the I1 loops. */
    method FlushMonoRow(x0: int, y0: int, w: nat, h: nat, pixelMap: seq<bv8>, y: nat, done: nat,
                        ghost plots: seq<Plot<Ink>>, ghost calls0: seq<PanelCall>)
      requires y < h && h * Stride(w) <= |pixelMap|
      requires plots == Scan(x0, y0, w, h, MonoColors(pixelMap, w, h))
      requires done == RowStart(y, w) && done + w <= |plots|
      requires epd.calls == calls0 + Draws(plots[..done], true)
      modifies epd`calls
      ensures epd.calls == calls0 + Draws(plots[..done + w], true)
    {
      var x := 0;
      while x < w
        invariant 0 <= x <= w
        invariant epd.calls == calls0 + Draws(plots[..done + x], true)
      {
        FlushMonoStep(calls0, pixelMap, x0, y0, w, h, y, x, done + x);
        var byteIndex := MonoByteIndex(x, y, w);
        var bitIndex := MonoBitIndex(x);
        var pixel := MaskBit(pixelMap[byteIndex], bitIndex);
        epd.DrawPixelFast(x0 + x, y0 + y, if pixel then White else Black);
        assert epd.calls == calls0 + Draws(plots[..done + x + 1], true);
        x := x + 1;
      }
    }

    /** The I8 loops of flushInternal over a w×h area at (x0, y0). */
    method FlushGray(x0: int, y0: int, w: nat, h: nat, pixelMap: seq<bv8>)
      requires w * h <= |pixelMap|
      modifies epd`calls
      ensures epd.calls == old(epd.calls) + Draws(Scan(x0, y0, w, h, GrayColors(pixelMap, w, h)), true)
    {
      ghost var plots := Scan(x0, y0, w, h, GrayColors(pixelMap, w, h));
      ghost var calls0 := epd.calls;
      var done: nat := 0;
      var y := 0;
      while y < h
        invariant 0 <= y <= h
        invariant done == RowStart(y, w) <= |plots|
        invariant epd.calls == calls0 + Draws(plots[..done], true)
      {
        RowStartBound(y, w, h);
        FlushGrayRow(x0, y0, w, h, pixelMap, y, done, plots, calls0);
        done := done + w;
        y := y + 1;
      }
      RowStartIsProduct(h, w);
      assert plots[..done] == plots;
    }

    /** Row y of the I8 loops; pixel (x, y) is byte y * w + x. */
    method FlushGrayRow(x0: int, y0: int, w: nat, h: nat, pixelMap: seq<bv8>, y: nat, done: nat,
                        ghost plots: seq<Plot<Ink>>, ghost calls0: seq<PanelCall>)
      requires y < h && w * h <= |pixelMap|
      requires plots == Scan(x0, y0, w, h, GrayColors(pixelMap, w, h))
      requires done == RowStart(y, w) && done + w <= |plots|
      requires epd.calls == calls0 + Draws(plots[..done], true)
      modifies epd`calls
      ensures epd.calls == calls0 + Draws(plots[..done + w], true)
    {
      var x := 0;
      while x < w
        invariant 0 <= x <= w
        invariant epd.calls == calls0 + Draws(plots[..done + x], true)
      {
        FlushGrayStep(calls0, pixelMap, x0, y0, w, h, y, x, done + x);
        var gray := pixelMap[done + x];
        var gray4 := GrayHigh(gray);
        epd.DrawPixelFast(x0 + x, y0 + y, Level(gray4));
        assert epd.calls == calls0 + Draws(plots[..done + x + 1], true);
        x := x + 1;
      }
    }

    /** Lends the panel to a display driver, created on the first call and the same one
        afterwards. LVGL must be detached. */
    method GetDisplayDriver() returns (driver: FastEpdDisplayDriver)
      requires Valid() && lvglDisplay.None?
      modifies this`displayDriver
      ensures Valid() && displayDriver == driver
      ensures old(displayDriver) != null ==> driver == old(displayDriver)
      ensures old(displayDriver) == null ==>
        fresh(driver) && driver.epd == epd && driver.graphicsMode == configuration.graphicsMode
    {
      if displayDriver == null {
        displayDriver := new FastEpdDisplayDriver(epd, configuration.graphicsMode);
      }
      return displayDriver;
    }
  }
}
