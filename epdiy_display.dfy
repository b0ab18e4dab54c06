/** The EPDiy back end: a display device over the epdiy C library. epdiy keeps its
    state in globals, so the model keeps what the driver does to it inside the device:
    an ordered trace of the epdiy calls made (with the device mutex's lock and unlock
    around the guarded sections), the high-level front framebuffer as a map from
    coordinates to the byte handed to epd_draw_pixel (a cell absent from the map is
    white), and the heap traffic of startLvgl. */
module Epdiy {
  import opened Host
  import opened Raster
  import opened Transcode

  // ---- epdiy enumerations ----

  /** EpdRotation */
  const EPD_ROT_LANDSCAPE: int := 0
  const EPD_ROT_PORTRAIT: int := 1
  const EPD_ROT_INVERTED_LANDSCAPE: int := 2
  const EPD_ROT_INVERTED_PORTRAIT: int := 3

  /** EpdDrawMode values the driver uses */
  const MODE_UNKNOWN_WAVEFORM: bv32 := 0x3F
  const MODE_PACKING_2PPB: bv32 := 0x80

  /** EpdDrawError returned when the device is not initialised */
  const EPD_DRAW_FAILED_ALLOC: bv32 := 0x10

  datatype EpdRect = EpdRect(x: int, y: int, width: int, height: int)

  // ---- rotation mapping ----

  /** epdiy rotation r turns the panel 90·r degrees clockwise; LVGL's rotation of the
      same picture is the opposite turn. Out-of-range input falls back to landscape. */
  function EpdRotationToLvgl(epdRotation: int): (lvglRotation: int)
    ensures 0 <= lvglRotation < 4
    ensures 0 <= epdRotation < 4 ==> lvglRotation == (4 - epdRotation) % 4
    ensures !(0 <= epdRotation < 4) ==> lvglRotation == LV_DISPLAY_ROTATION_0
  {
    var rotationMap := [LV_DISPLAY_ROTATION_0, LV_DISPLAY_ROTATION_270, LV_DISPLAY_ROTATION_180, LV_DISPLAY_ROTATION_90];
    if 0 <= epdRotation < 4 then rotationMap[epdRotation] else LV_DISPLAY_ROTATION_0
  }

  function LvglRotationToEpd(lvglRotation: int): (epdRotation: int)
    ensures 0 <= epdRotation < 4
    ensures 0 <= lvglRotation < 4 ==> epdRotation == (4 - lvglRotation) % 4
    ensures !(0 <= lvglRotation < 4) ==> epdRotation == EPD_ROT_LANDSCAPE
  {
    var rotationMap := [EPD_ROT_LANDSCAPE, EPD_ROT_INVERTED_PORTRAIT, EPD_ROT_INVERTED_LANDSCAPE, EPD_ROT_PORTRAIT];
    if LV_DISPLAY_ROTATION_0 <= lvglRotation <= LV_DISPLAY_ROTATION_270 then rotationMap[lvglRotation] else EPD_ROT_LANDSCAPE
  }

  /** The two tables undo each other on the four valid rotations. */
  lemma RotationTablesInverse(r: int)
    requires 0 <= r < 4
    ensures LvglRotationToEpd(EpdRotationToLvgl(r)) == r
    ensures EpdRotationToLvgl(LvglRotationToEpd(r)) == r
  {
  }

  // ---- defaults resolution of updateScreen / updateArea ----

  /** MODE_UNKNOWN_WAVEFORM asks for the configured mode; any other mode passes through. */
  function ResolveDrawMode(mode: bv32, defaultDrawMode: bv32): (effective: bv32)
    ensures mode != MODE_UNKNOWN_WAVEFORM ==> effective == mode
    ensures mode == MODE_UNKNOWN_WAVEFORM ==> effective == defaultDrawMode
  {
    if mode == MODE_UNKNOWN_WAVEFORM then defaultDrawMode else mode
  }

  /** A temperature of -1 asks for the configured one; any other value passes through. */
  function ResolveTemperature(temperature: int, defaultTemperature: int): (effective: int)
    ensures temperature != -1 ==> effective == temperature
    ensures temperature == -1 ==> effective == defaultTemperature
  {
    if temperature == -1 then defaultTemperature else temperature
  }

  // ---- device ----

  /** The configuration fields the driver reads. The board, display, init options and
      waveform are handed to epdiy untouched and are not modelled. */
  datatype Configuration = Configuration(
    rotation: int,
    defaultDrawMode: bv32,
    defaultTemperature: int,
    fullRefresh: bool)

  /** An epdiy call, or the device mutex being taken or released. */
  datatype Event =
    | EpdInit
    | EpdSetRotation(rotation: int)
    | EpdHlInit
    | EpdDeinit
    | EpdPowerOn
    | EpdPowerOff
    | EpdClear
    | EpdClearArea(area: EpdRect)
    | EpdHlSetAllWhite
    | EpdDrawPixel(plot: Plot<bv8>)
    | EpdHlUpdateScreen(mode: bv32, temperature: int)
    | EpdHlUpdateArea(mode: bv32, temperature: int, area: EpdRect)
    | Lock
    | Unlock

  /** The epd_draw_pixel calls that draw the plots ps, in order. */
  ghost function Draws(ps: seq<Plot<bv8>>): (events: seq<Event>)
    ensures |events| == |ps|
  {
    seq(|ps|, i requires 0 <= i < |ps| => EpdDrawPixel(ps[i]))
  }

  /** The power-on call a guarded entry point makes first when the panel is off. */
  ghost function PowerOnIfOff(wasPowered: bool): seq<Event>
  {
    if wasPowered then [] else [EpdPowerOn]
  }

  /** epdiy's high-level front framebuffer after the events of a trace: epd_hl_init and
      epd_hl_set_all_white leave it all white (the empty map), epd_draw_pixel sets one cell,
      and nothing else writes it. */
  ghost function FrontBuffer(events: seq<Event>): Framebuffer<bv8>
  {
    if events == [] then map[]
    else
      var fb := FrontBuffer(events[..|events| - 1]);
      match events[|events| - 1]
      case EpdHlInit => map[]
      case EpdHlSetAllWhite => map[]
      case EpdDrawPixel(p) => fb[(p.x, p.y) := p.color]
      case _ => fb
  }

  /** Drawing plots through epd_draw_pixel paints them onto the front framebuffer in order. */
  lemma {:induction false} FrontBufferDraws(t: seq<Event>, ps: seq<Plot<bv8>>)
    ensures FrontBuffer(t + Draws(ps)) == Paint(FrontBuffer(t), ps)
  {
    if ps == [] {
      assert t + Draws(ps) == t;
    } else {
      var n := |ps| - 1;
      FrontBufferDraws(t, ps[..n]);
      var u := t + Draws(ps);
      assert u == (t + Draws(ps[..n])) + [EpdDrawPixel(ps[n])];
      assert u[..|u| - 1] == t + Draws(ps[..n]);
      assert u[|u| - 1] == EpdDrawPixel(ps[n]);
      assert FrontBuffer(u) == FrontBuffer(t + Draws(ps[..n]))[(ps[n].x, ps[n].y) := ps[n].color];
    }
  }

  /** An event that is neither a framebuffer reset nor a pixel write leaves the front framebuffer alone. */
  lemma FrontBufferKeeps(t: seq<Event>, e: Event)
    requires !e.EpdHlInit? && !e.EpdHlSetAllWhite? && !e.EpdDrawPixel?
    ensures FrontBuffer(t + [e]) == FrontBuffer(t)
  {
    assert (t + [e])[..|t|] == t;
  }

  /** A whole flush leaves the front framebuffer painted with exactly the area's plots:
      with FlushPixel, each cell of the area holds its source pixel's level and every other cell is untouched. */
  lemma FlushFrontBuffer(t: seq<Event>, area: Area, pixelMap: seq<bv8>, mode: bv32, temperature: int, rect: EpdRect)
    requires 0 <= area.Width() && 0 <= area.Height()
    requires area.Width() * area.Height() <= |pixelMap|
    ensures FrontBuffer(t + [Lock] + Draws(FlushPlots(area, pixelMap)) + [EpdHlUpdateArea(mode, temperature, rect), Unlock])
         == Paint(FrontBuffer(t), FlushPlots(area, pixelMap))
  {
    var ps := FlushPlots(area, pixelMap);
    FrontBufferKeeps(t, Lock);
    FrontBufferDraws(t + [Lock], ps);
    var u := t + [Lock] + Draws(ps);
    FrontBufferKeeps(u, EpdHlUpdateArea(mode, temperature, rect));
    FrontBufferKeeps(u + [EpdHlUpdateArea(mode, temperature, rect)], Unlock);
    assert u + [EpdHlUpdateArea(mode, temperature, rect), Unlock] == u + [EpdHlUpdateArea(mode, temperature, rect)] + [Unlock];
  }

  /** The bytes EPDiy's flush draws for an LVGL L8 buffer of n pixels. */
  ghost function FlushColors(pixelMap: seq<bv8>, n: nat): (colors: seq<bv8>)
    requires n <= |pixelMap|
    ensures |colors| == n
    ensures forall i :: 0 <= i < n ==> colors[i] == EpdColor(pixelMap[i])
  {
    seq(n, i requires 0 <= i < n => EpdColor(pixelMap[i]))
  }

  /** The epd_draw_pixel calls of one flush of area: the area in row-major order. */
  ghost function FlushPlots(area: Area, pixelMap: seq<bv8>): (plots: seq<Plot<bv8>>)
    requires 0 <= area.Width() && 0 <= area.Height()
    requires area.Width() * area.Height() <= |pixelMap|
    ensures |plots| == area.Width() * area.Height()
    ensures forall i :: 0 <= i < |plots| ==>
      plots[i] == Plot(area.x1 + i % area.Width(), area.y1 + i / area.Width(), EpdColor(pixelMap[i]))
  {
    Scan(area.x1, area.y1, area.Width(), area.Height(), FlushColors(pixelMap, area.Width() * area.Height()))
  }

  /** After a flush of area, each of its cells is drawn exactly once, with the source
      pixel's level in the high nibble; every other cell is never drawn and keeps its value. */
  lemma FlushPixel(fb: Framebuffer<bv8>, area: Area, pixelMap: seq<bv8>, px: int, py: int)
    requires 0 <= area.Width() && 0 <= area.Height()
    requires area.Width() * area.Height() <= |pixelMap|
    ensures var m := Paint(fb, FlushPlots(area, pixelMap));
      var w := area.Width();
      if InRect(px, py, area.x1, area.y1, w, area.Height()) then
        var i := (py - area.y1) * w + (px - area.x1);
        0 <= i < |pixelMap| && Hits(FlushPlots(area, pixelMap), px, py) == 1 &&
        (px, py) in m && m[(px, py)] == EpdColor(pixelMap[i]) && HighNibble(m[(px, py)]) == pixelMap[i] / 17
      else
        Hits(FlushPlots(area, pixelMap), px, py) == 0 &&
        ((px, py) in m <==> (px, py) in fb) && ((px, py) in fb ==> m[(px, py)] == fb[(px, py)])
  {
    var w, h := area.Width(), area.Height();
    ScanPaint(fb, area.x1, area.y1, w, h, FlushColors(pixelMap, w * h), px, py);
  }

  lemma DrawsStep(t: seq<Event>, ps: seq<Plot<bv8>>, k: int)
    requires 0 <= k < |ps|
    ensures t + Draws(ps[..k + 1]) == t + Draws(ps[..k]) + [EpdDrawPixel(ps[k])]
  {
    assert ps[..k + 1][..k] == ps[..k];
  }

  /** The byte flushInternal unpacks and draws for cell (col, row) is the plot the
      row-major scan of the area puts there. */
  lemma FlushStep(packed: seq<bv8>, pixelMap: seq<bv8>, n: nat, x: int, y: int, width: nat, height: nat,
                   row: nat, col: int, i: int)
    requires n == width * height && n <= |pixelMap|
    requires packed == Packed(pixelMap[..n])
    requires 0 <= row < height && 0 <= col < width && i == RowStart(row, width) + col
    ensures 0 <= i < n && i / 2 < |packed|
    ensures Scan(x, y, width, height, FlushColors(pixelMap, n))[i] == Plot(x + col, y + row, Unpacked(packed, i) << 4)
  {
    RowStartIsProduct(row, width);
    ScanAt(x, y, width, height, FlushColors(pixelMap, n), row, col);
    UnpackPacked(pixelMap[..n], i);
  }

  /** The 4-bit level of pixel srcIdx, read back from the packed buffer as the second
      loop of flushInternal does. */
  method UnpackPixel(packed: array<bv8>, srcIdx: nat) returns (pixel4: bv8)
    requires srcIdx / 2 < packed.Length
    ensures pixel4 == Unpacked(packed[..], srcIdx)
  {
    var packedIdx := srcIdx / 2;
    var nibble := srcIdx % 2;
    if nibble == 0 {
      pixel4 := HighNibble(packed[packedIdx]);
    } else {
      pixel4 := LowNibble(packed[packedIdx]);
    }
  }

  /** The first loop of flushInternal: convert n grey pixels to 4-bit levels and pack
      them two per byte into a new buffer. */
  method PackGray4(pixelMap: seq<bv8>, pixelCount: nat) returns (packed: array<bv8>)
    requires pixelCount <= |pixelMap|
    ensures packed[..] == Packed(pixelMap[..pixelCount])
  {
    packed := new bv8[(pixelCount + 1) / 2];
    ghost var spec := Packed(pixelMap[..pixelCount]);
    var i := 0;
    while i < pixelCount
      invariant 0 <= i <= pixelCount + 1 && i % 2 == 0
      invariant forall k :: 0 <= k < i / 2 ==> packed[k] == spec[k]
    {
      var pixel1 := Gray4(pixelMap[i]);
      var pixel2: bv8 := if i + 1 < pixelCount then Gray4(pixelMap[i + 1]) else 0;
      assert spec[i / 2] == PackPair(pixel1, pixel2);
      packed[i / 2] := PackPair(pixel1, pixel2);
      i := i + 2;
    }
  }

  class EpdiyDisplay {
    var configuration: Configuration
    var initialized: bool
    var powered: bool
    var lvglDisplay: Option<LvglDisplay>
    /** epd_width() and epd_height() */
    const epdWidth: nat
    const epdHeight: nat

    ghost var trace: seq<Event>
    ghost var heap: seq<HeapCall>

    /** LVGL stays attached only to an initialised device. */
    ghost predicate Valid()
      reads this
    {
      lvglDisplay.Some? ==> initialized
    }

    constructor (configuration: Configuration, epdWidth: nat, epdHeight: nat)
      ensures Valid()
      ensures this.configuration == configuration && this.epdWidth == epdWidth && this.epdHeight == epdHeight
      ensures !initialized && !powered && lvglDisplay == None
      ensures trace == [] && heap == []
    {
      this.configuration := configuration;
      this.epdWidth, this.epdHeight := epdWidth, epdHeight;
      initialized, powered, lvglDisplay := false, false, None;
      trace, heap := [], [];
    }

    /** Switches the panel power rail, calling epdiy only on a change of state. */
    method SetPowerOn(turnOn: bool)
      modifies this`powered, this`trace
      ensures powered == turnOn
      ensures trace == old(trace) + (if old(powered) == turnOn then [] else if turnOn then [EpdPowerOn] else [EpdPowerOff])
    {
      if powered == turnOn {
        return;
      }
      if turnOn {
        trace := trace + [EpdPowerOn];
        powered := true;
      } else {
        trace := trace + [EpdPowerOff];
        powered := false;
      }
    }

    method Start(hlInitSucceeds: bool) returns (ok: bool)
      requires Valid()
      modifies this`initialized, this`powered, this`trace
      ensures Valid()
      ensures old(initialized) ==> ok && initialized && powered == old(powered) && trace == old(trace)
      ensures !old(initialized) ==> ok == hlInitSucceeds && initialized == hlInitSucceeds
      ensures !old(initialized) && !hlInitSucceeds ==>
        powered == old(powered) &&
        trace == old(trace) + [EpdInit, EpdSetRotation(configuration.rotation), EpdHlInit, EpdDeinit]
      ensures !old(initialized) && hlInitSucceeds ==>
        powered &&
        trace == old(trace) + [EpdInit, EpdSetRotation(configuration.rotation), EpdHlInit, Lock] +
          PowerOnIfOff(old(powered)) + [EpdClear, EpdHlSetAllWhite, Unlock]
    {
      if initialized {
        return true;
      }
      trace := trace + [EpdInit, EpdSetRotation(configuration.rotation), EpdHlInit];
      if !hlInitSucceeds {
        trace := trace + [EpdDeinit];
        return false;
      }
      initialized := true;
      ClearScreen();
      return true;
    }

    method Stop() returns (ok: bool)
      requires Valid()
      modifies this`initialized, this`powered, this`lvglDisplay, this`trace
      ensures Valid() && ok
      ensures !old(initialized) ==>
        !initialized && powered == old(powered) && lvglDisplay == old(lvglDisplay) && trace == old(trace)
      ensures old(initialized) ==>
        !initialized && !powered && lvglDisplay == None &&
        trace == old(trace) + (if old(powered) then [EpdPowerOff] else []) + [EpdDeinit]
    {
      if !initialized {
        return true;
      }
      if lvglDisplay.Some? {
        var _ := StopLvgl();
      }
      if powered {
        SetPowerOn(false);
      }
      trace := trace + [EpdDeinit];
      initialized := false;
      return true;
    }

    method StartLvgl(createSucceeds: bool, spiramSucceeds: bool, dmaSucceeds: bool) returns (ok: bool)
      requires Valid()
      modifies this`lvglDisplay, this`heap
      ensures Valid()
      ensures old(lvglDisplay).Some? ==> ok && lvglDisplay == old(lvglDisplay) && heap == old(heap)
      ensures old(lvglDisplay).None? && (!initialized || !createSucceeds) ==>
        !ok && lvglDisplay == None && heap == old(heap)
      ensures old(lvglDisplay).None? && initialized && createSucceeds ==>
        var size := epdWidth * epdHeight;
        ok == (spiramSucceeds || dmaSucceeds) &&
        heap == old(heap) + [Malloc(size, SpiramByte, spiramSucceeds)] +
          (if spiramSucceeds then [] else [Malloc(size, DmaInternal, dmaSucceeds)]) &&
        lvglDisplay == if ok then Some(LvglDisplay(epdWidth, epdHeight, L8, EpdRotationToLvgl(configuration.rotation), size,
                                                   if configuration.fullRefresh then RenderFull else RenderPartial))
                       else None
    {
      if lvglDisplay.Some? {
        return true;
      }
      if !initialized {
        return false;
      }
      var width, height := epdWidth, epdHeight;
      if !createSucceeds {
        return false;
      }
      var lvRotation := EpdRotationToLvgl(configuration.rotation);
      var drawBufferSize := width * height;
      heap := heap + [Malloc(drawBufferSize, SpiramByte, spiramSucceeds)];
      var gotBuffer := spiramSucceeds;
      if !gotBuffer {
        heap := heap + [Malloc(drawBufferSize, DmaInternal, dmaSucceeds)];
        gotBuffer := dmaSucceeds;
      }
      if !gotBuffer {
        // lv_display_delete on the display just created
        return false;
      }
      var renderMode := if configuration.fullRefresh then RenderFull else RenderPartial;
      lvglDisplay := Some(LvglDisplay(width, height, L8, lvRotation, drawBufferSize, renderMode));
      return true;
    }

    method StopLvgl() returns (ok: bool)
      modifies this`lvglDisplay
      ensures ok == old(lvglDisplay).Some?
      ensures lvglDisplay == None
    {
      if lvglDisplay.None? {
        return false;
      }
      lvglDisplay := None;
      return true;
    }

    method ClearScreen()
      modifies this`powered, this`trace
      ensures !initialized ==> powered == old(powered) && trace == old(trace)
      ensures initialized ==>
        powered &&
        trace == old(trace) + [Lock] + PowerOnIfOff(old(powered)) + [EpdClear, EpdHlSetAllWhite, Unlock]
    {
      if !initialized {
        return;
      }
      trace := trace + [Lock];
      if !powered {
        SetPowerOn(true);
      }
      trace := trace + [EpdClear, EpdHlSetAllWhite, Unlock];
    }

    method ClearArea(area: EpdRect)
      modifies this`powered, this`trace
      ensures !initialized ==> powered == old(powered) && trace == old(trace)
      ensures initialized ==>
        powered && trace == old(trace) + [Lock] + PowerOnIfOff(old(powered)) + [EpdClearArea(area), Unlock]
    {
      if !initialized {
        return;
      }
      trace := trace + [Lock];
      if !powered {
        SetPowerOn(true);
      }
      trace := trace + [EpdClearArea(area), Unlock];
    }

    method UpdateScreen(mode: bv32, temperature: int, nativeResult: bv32) returns (err: bv32)
      modifies this`powered, this`trace
      ensures !initialized ==> err == EPD_DRAW_FAILED_ALLOC && powered == old(powered) && trace == old(trace)
      ensures initialized ==>
        err == nativeResult && powered &&
        trace == old(trace) + [Lock] + PowerOnIfOff(old(powered)) +
          [EpdHlUpdateScreen(ResolveDrawMode(mode, configuration.defaultDrawMode),
                             ResolveTemperature(temperature, configuration.defaultTemperature)), Unlock]
    {
      if !initialized {
        return EPD_DRAW_FAILED_ALLOC;
      }
      trace := trace + [Lock];
      if !powered {
        SetPowerOn(true);
      }
      var m, t := mode, temperature;
      if m == MODE_UNKNOWN_WAVEFORM {
        m := configuration.defaultDrawMode;
      }
      if t == -1 {
        t := configuration.defaultTemperature;
      }
      trace := trace + [EpdHlUpdateScreen(m, t), Unlock];
      return nativeResult;
    }

    method UpdateArea(area: EpdRect, mode: bv32, temperature: int, nativeResult: bv32) returns (err: bv32)
      modifies this`powered, this`trace
      ensures !initialized ==> err == EPD_DRAW_FAILED_ALLOC && powered == old(powered) && trace == old(trace)
      ensures initialized ==>
        err == nativeResult && powered &&
        trace == old(trace) + [Lock] + PowerOnIfOff(old(powered)) +
          [EpdHlUpdateArea(ResolveDrawMode(mode, configuration.defaultDrawMode),
                           ResolveTemperature(temperature, configuration.defaultTemperature), area), Unlock]
    {
      if !initialized {
        return EPD_DRAW_FAILED_ALLOC;
      }
      trace := trace + [Lock];
      if !powered {
        SetPowerOn(true);
      }
      var m, t := mode, temperature;
      if m == MODE_UNKNOWN_WAVEFORM {
        m := configuration.defaultDrawMode;
      }
      if t == -1 {
        t := configuration.defaultTemperature;
      }
      trace := trace + [EpdHlUpdateArea(m, t, area), Unlock];
      return nativeResult;
    }

    method SetAllWhite()
      modifies this`trace
      ensures !initialized ==> trace == old(trace)
      ensures initialized ==> trace == old(trace) + [Lock, EpdHlSetAllWhite, Unlock]
    {
      if !initialized {
        return;
      }
      trace := trace + [Lock, EpdHlSetAllWhite, Unlock];
    }

    /** The LVGL flush path: draws area's pixels through epd_draw_pixel and refreshes exactly
        that area with the configured mode (forced to 2 pixels per byte) and temperature.
        The power state is left as it is. FlushFrontBuffer and FlushPixel say what this
        leaves in the front framebuffer. */
    method FlushInternal(area: Area, pixelMap: seq<bv8>)
      requires 0 <= area.Width() && 0 <= area.Height()
      requires area.Width() * area.Height() <= |pixelMap|
      modifies this`trace
      ensures !initialized ==> trace == old(trace)
      ensures initialized ==>
        trace == old(trace) + [Lock] + Draws(FlushPlots(area, pixelMap)) +
          [EpdHlUpdateArea(configuration.defaultDrawMode | MODE_PACKING_2PPB, configuration.defaultTemperature,
                           EpdRect(area.x1, area.y1, area.Width() % 0x1_0000, area.Height() % 0x1_0000)),
           Unlock]
    {
      if !initialized {
        return;
      }
      trace := trace + [Lock];
      var x, y := area.x1, area.y1;
      var width, height := area.Width(), area.Height();
      var pixelCount := width * height;
      var packed := PackGray4(pixelMap, pixelCount);

      ghost var plots := FlushPlots(area, pixelMap);
      ghost var trace0 := trace;
      var done: nat := 0;
      var row := 0;
      while row < height
        invariant 0 <= row <= height
        invariant done == RowStart(row, width) <= pixelCount
        invariant packed[..] == Packed(pixelMap[..pixelCount])
        invariant trace == trace0 + Draws(plots[..done])
      {
        RowStartBound(row, width, height);
        FlushRow(area, pixelMap, packed, row, pixelCount, done, plots, trace0);
        done := done + width;
        row := row + 1;
      }
      RowStartIsProduct(height, width);
      assert plots[..done] == plots;
      var updateArea := EpdRect(x, y, width % 0x1_0000, height % 0x1_0000);
      trace := trace + [EpdHlUpdateArea(configuration.defaultDrawMode | MODE_PACKING_2PPB, configuration.defaultTemperature, updateArea),
                        Unlock];
    }

    /** One pass of flushInternal's inner loop: unpacks and draws row `row` of area, whose
        first pixel is pixel `done` of the n = width * height pixels. */
    method FlushRow(area: Area, pixelMap: seq<bv8>, packed: array<bv8>, row: int, n: nat, done: nat,
                    ghost plots: seq<Plot<bv8>>, ghost trace0: seq<Event>)
      requires 0 <= area.Width() && 0 <= row < area.Height()
      requires n == area.Width() * area.Height() && n <= |pixelMap|
      requires done == RowStart(row, area.Width()) && done + area.Width() <= n
      requires plots == Scan(area.x1, area.y1, area.Width(), area.Height(), FlushColors(pixelMap, n))
      requires packed[..] == Packed(pixelMap[..n])
      requires trace == trace0 + Draws(plots[..done])
      modifies this`trace
      ensures trace == trace0 + Draws(plots[..done + area.Width()])
    {
      var x, y := area.x1, area.y1;
      var width, height := area.Width(), area.Height();
      ghost var packedSpec := packed[..];
      var col := 0;
      while col < width
        invariant 0 <= col <= width
        invariant trace == trace0 + Draws(plots[..done + col])
      {
        var srcIdx := done + col;
        FlushStep(packedSpec, pixelMap, n, x, y, width, height, row, col, srcIdx);
        var pixel4 := UnpackPixel(packed, srcIdx);
        var pixelForEpd := pixel4 << 4;
        var px, py := x + col, y + row;
        assert plots[srcIdx] == Plot(px, py, pixelForEpd);
        DrawsStep(trace0, plots, srcIdx);
        trace := trace + [EpdDrawPixel(Plot(px, py, pixelForEpd))];
        assert trace == trace0 + Draws(plots[..srcIdx + 1]);
        col := col + 1;
      }
    }

    /** LVGL reported a rotation change: epdiy and the configuration both take the
        mapped epdiy rotation. */
    method HandleRotationChange(lvglRotation: int)
      modifies this`configuration, this`trace
      ensures configuration == old(configuration).(rotation := LvglRotationToEpd(lvglRotation))
      ensures trace == old(trace) + [EpdSetRotation(LvglRotationToEpd(lvglRotation))]
    {
      var epdRotation := LvglRotationToEpd(lvglRotation);
      trace := trace + [EpdSetRotation(epdRotation)];
      configuration := configuration.(rotation := epdRotation);
    }
  }
}
