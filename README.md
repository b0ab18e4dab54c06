# E-paper display back ends of Tactility, modelled in Dafny

This project models the e-paper display core of Tactility:

- **EPDiy back end** (`EpdiyDisplay`). A display device over the epdiy C library. It covers the device lifecycle, the power rail, rotation mapping between epdiy and LVGL, the clear and update entry points, and LVGL's flush path. The flush packs 8-bit grey pixels two per byte, unpacks them and draws them one by one, then refreshes the flushed area.
- **FastEPD back end** (`FastEpdDisplay`). A display device that owns a `FASTEPD` panel object. It covers its lifecycle, power, full and partial updates, white and black clears, and LVGL attachment in I1 or I8 format. Its flush decodes 1-bpp or 8-bit grey pixels into the panel buffer and never refreshes. It lends the panel to a display driver when LVGL is detached.
- **FastEPD display driver** (`FastEpdDisplayDriver.drawBitmap`). Copies an MSB-first 1-bpp bitmap into the panel buffer over a half-open rectangle.
- **M5Stack PaperS3 power device.** Metric support and reads, and charge detection from the charge-status ADC channel, with its integer threshold arithmetic.

The native libraries are not part of this model. Their effect is kept as ghost state:

- For epdiy, an ordered trace of library calls, including the device mutex's lock and unlock.
- For FastEPD, the list of calls made on the panel object.

Framebuffers are computed from these traces:

- `Epdiy.FrontBuffer` is epdiy's high-level front framebuffer.
- `FastEpdNative.Canvas` and `FastEpdNative.Background` describe the FastEPD panel buffer.

Results the libraries, the allocator, LVGL or the ADC compute are method parameters. Examples are an init return code, a malloc success, an ADC reading and the panel's dimensions.

Pixel-writing loops are specified against `Raster.Scan`, the row-major list of plots a w×h rectangle receives. `Raster.ScanPaint` proves what painting such a scan does: each cell of the rectangle is written exactly once with its colour, and every cell outside keeps its value.

Modules, one per file: `Host` (LVGL and heap outcomes), `Raster`, `Transcode` (pixel conversions), `Epdiy`, `FastEpdNative` (the `FASTEPD` object), `FastEpdPixels`, `FastEpdDriver`, `FastEpd` and `PaperS3Power`.

Two behaviours of the source are worth knowing, and the model keeps both:

- EPDiy's `flushInternal` takes the lock and refreshes the flushed area without powering the panel on. Only the clear and update entry points power on first.
- FastEPD's `start` logs that it clears the display to black, but it calls `clearWhite`. The model clears white.

## Model

| member | source | states |
|---|---|---|
| Epdiy.EpdRotationToLvgl | Drivers/EPDiyDisplay/Source/EpdiyDisplay.cpp:395-413 | epdiy rotation r in 0..3 maps to LVGL rotation (4 - r) % 4; any other input maps to rotation 0 |
| Epdiy.LvglRotationToEpd | Drivers/EPDiyDisplay/Source/EpdiyDisplay.cpp:415-431 | LVGL rotation r in 0..3 maps to epdiy rotation (4 - r) % 4; any other input maps to landscape |
| Epdiy.RotationTablesInverse | Drivers/EPDiyDisplay/Source/EpdiyDisplay.cpp:395-431 | the two tables are mutual inverses on 0..3, in both directions |
| Epdiy.ResolveDrawMode | Drivers/EPDiyDisplay/Source/EpdiyDisplay.cpp:270-272 | MODE_UNKNOWN_WAVEFORM becomes the configured default mode; every other mode passes through |
| Epdiy.ResolveTemperature | Drivers/EPDiyDisplay/Source/EpdiyDisplay.cpp:273-275 | temperature -1 becomes the configured default; every other value passes through |
| Epdiy.EpdiyDisplay.constructor | Drivers/EPDiyDisplay/Source/EpdiyDisplay.cpp:11-18 | a new device is uninitialised, unpowered, without LVGL, with no library calls made |
| Epdiy.EpdiyDisplay.SetPowerOn | Drivers/EPDiyDisplay/Source/EpdiyDisplay.cpp:99-113 | no call when the state already matches; otherwise exactly one epd_poweron or epd_poweroff, and powered becomes the request |
| Epdiy.EpdiyDisplay.Start | Drivers/EPDiyDisplay/Source/EpdiyDisplay.cpp:29-70 | already initialised: true, no calls. Failed high-level init: epd_deinit, false, still uninitialised. Otherwise init, rotation, a locked clear to all white, initialised and powered |
| Epdiy.EpdiyDisplay.Stop | Drivers/EPDiyDisplay/Source/EpdiyDisplay.cpp:72-97 | before start: true with nothing changed; otherwise LVGL detached, powered off if on, epd_deinit, uninitialised |
| Epdiy.EpdiyDisplay.StartLvgl | Drivers/EPDiyDisplay/Source/EpdiyDisplay.cpp:116-191 | true at once if attached; false if uninitialised or display creation fails; a width×height L8 buffer from SPIRAM, else DMA memory; full or partial render mode from the configuration; rotation from EpdRotationToLvgl |
| Epdiy.EpdiyDisplay.StopLvgl | Drivers/EPDiyDisplay/Source/EpdiyDisplay.cpp:193-212 | false when not attached, true after detaching |
| Epdiy.EpdiyDisplay.ClearScreen | Drivers/EPDiyDisplay/Source/EpdiyDisplay.cpp:224-240 | uninitialised: nothing. Otherwise, under the lock: power on if off, epd_clear, front buffer all white |
| Epdiy.EpdiyDisplay.ClearArea | Drivers/EPDiyDisplay/Source/EpdiyDisplay.cpp:242-255 | uninitialised: nothing. Otherwise, under the lock: power on if off, then epd_clear_area of the given rectangle |
| Epdiy.EpdiyDisplay.UpdateScreen | Drivers/EPDiyDisplay/Source/EpdiyDisplay.cpp:257-278 | uninitialised: EPD_DRAW_FAILED_ALLOC and no call. Otherwise, under the lock: power on, one full-screen update with the resolved mode and temperature, and the library's result |
| Epdiy.EpdiyDisplay.UpdateArea | Drivers/EPDiyDisplay/Source/EpdiyDisplay.cpp:280-301 | as UpdateScreen, for one area update of the given rectangle |
| Epdiy.EpdiyDisplay.SetAllWhite | Drivers/EPDiyDisplay/Source/EpdiyDisplay.cpp:303-311 | uninitialised: nothing; otherwise a locked epd_hl_set_all_white |
| Epdiy.PackGray4 | Drivers/EPDiyDisplay/Source/EpdiyDisplay.cpp:332-344 | the packed buffer is Packed of the first n pixels: (n+1)/2 bytes; byte k holds pixel 2k's v/17 level high and pixel 2k+1's low; 0 low past the end |
| Transcode.Packed | Drivers/EPDiyDisplay/Source/EpdiyDisplay.cpp:332-344 | length (n+1)/2; each byte's high and low nibble are the two pixels' 4-bit levels, low nibble 0 for an odd last pixel |
| Transcode.Gray4 | Drivers/EPDiyDisplay/Source/EpdiyDisplay.cpp:339-340 | v/17 is a level 0..15, with black at 0 and white at 15 |
| Transcode.PackPairRoundTrip | Drivers/EPDiyDisplay/Source/EpdiyDisplay.cpp:343 | two levels packed into one byte come back unchanged from its high and low nibbles |
| Transcode.UnpackPacked | Drivers/EPDiyDisplay/Source/EpdiyDisplay.cpp:354-362 | unpacking pixel i of the packed buffer gives exactly pixel i's v/17 level: packing loses nothing beyond the division |
| Transcode.PackPair | Drivers/EPDiyDisplay/Source/EpdiyDisplay.cpp:343 | for two levels in 0..15 the packed byte is 16·first + second: the first pixel in the high nibble, the second in the low |
| Transcode.HighNibble | Drivers/EPDiyDisplay/Source/EpdiyDisplay.cpp:358 | `(b >> 4) & 0x0F` is a level 0..15, the byte divided by 16 |
| Transcode.LowNibble | Drivers/EPDiyDisplay/Source/EpdiyDisplay.cpp:361 | `b & 0x0F` is a level 0..15, the byte modulo 16 |
| Transcode.Unpacked | Drivers/EPDiyDisplay/Source/EpdiyDisplay.cpp:352-362 | pixel i is read from byte i/2: its high nibble (byte/16) for even i, its low nibble (byte mod 16) for odd i, always a level 0..15 |
| Epdiy.UnpackPixel | Drivers/EPDiyDisplay/Source/EpdiyDisplay.cpp:351-361 | the level read for pixel i is Unpacked of the packed buffer: the high nibble of byte i/2 for even i, its low nibble for odd i |
| Epdiy.FlushColors | Drivers/EPDiyDisplay/Source/EpdiyDisplay.cpp:337-365 | the byte drawn for pixel i of the flush is EpdColor of source pixel i, for each of the n pixels |
| Epdiy.FlushPlots | Drivers/EPDiyDisplay/Source/EpdiyDisplay.cpp:348-373 | the flush draws w·h plots; plot i lands on (x1 + i mod w, y1 + i div w), row-major, with EpdColor of source pixel i |
| Transcode.EpdColor | Drivers/EPDiyDisplay/Source/EpdiyDisplay.cpp:364-366 | the drawn byte has the 4-bit level in its high nibble and a clear low nibble, i.e. 16·(v/17) |
| Epdiy.EpdiyDisplay.FlushInternal | Drivers/EPDiyDisplay/Source/EpdiyDisplay.cpp:314-393 | uninitialised: nothing. Otherwise, under the lock: one epd_draw_pixel per pixel of the area in row-major order, then one area update of exactly the flushed rectangle with defaultDrawMode \| MODE_PACKING_2PPB and the default temperature, with no power-on |
| Epdiy.EpdiyDisplay.FlushRow | Drivers/EPDiyDisplay/Source/EpdiyDisplay.cpp:348-373 | one row of the draw loop adds exactly that row's plots to the trace, reading each pixel back from the packed buffer |
| Epdiy.FrontBufferDraws | Drivers/EPDiyDisplay/Source/EpdiyDisplay.cpp:372 | a run of epd_draw_pixel calls paints its plots onto the front buffer in order |
| Epdiy.FlushFrontBuffer | Drivers/EPDiyDisplay/Source/EpdiyDisplay.cpp:314-393 | a whole flush leaves the front buffer painted with exactly the area's plots |
| Epdiy.FlushPixel | Drivers/EPDiyDisplay/Source/EpdiyDisplay.cpp:348-373 | each cell of the area is drawn exactly once, with the source pixel's level in its high nibble (level = pixel/17); every cell outside is never drawn and keeps its value |
| Epdiy.EpdiyDisplay.HandleRotationChange | Drivers/EPDiyDisplay/Source/EpdiyDisplay.cpp:448-458 | epdiy and the stored configuration both take LvglRotationToEpd of the new LVGL rotation |
| Raster.ScanPaint | Drivers/EPDiyDisplay/Source/EpdiyDisplay.cpp:348-373 | painting a row-major scan of a rectangle writes each inside cell exactly once with its colour and leaves every outside cell alone |
| FastEpd.DefaultConfiguration | Drivers/FastEPDDisplay/Source/FastEpdDisplay.h:19-34 | defaults: no touch, bus 20000000 Hz, 4-bpp mode, rotation 0, 3 partial and 5 full passes |
| FastEpd.DefaultsDrawGray | Drivers/FastEPDDisplay/Source/FastEpdDisplay.h:19-34 | with the defaults, start never sets a rotation, and LVGL gets an I8 buffer of one byte per pixel |
| FastEpd.StartCalls | Drivers/FastEPDDisplay/Source/FastEpdDisplay.cpp:54-70 | after initPanel: set mode, then set rotation exactly when it is not 0, then passes, a white fill and a white-clearing full update |
| FastEpd.FastEpdDisplay.constructor | Drivers/FastEPDDisplay/Source/FastEpdDisplay.h:47-53 | a new device is uninitialised, unpowered, without LVGL or driver, and its panel has had no calls |
| FastEpd.FastEpdDisplay.IsPoweredOn | Drivers/FastEPDDisplay/Source/FastEpdDisplay.h:76 | exactly the powered field |
| FastEpd.FastEpdDisplay.SupportsPowerControl | Drivers/FastEPDDisplay/Source/FastEpdDisplay.h:77 | always true |
| FastEpd.FastEpdDisplay.SupportsLvgl | Drivers/FastEPDDisplay/Source/FastEpdDisplay.h:85 | always true |
| FastEpd.FastEpdDisplay.SupportsDisplayDriver | Drivers/FastEPDDisplay/Source/FastEpdDisplay.h:91 | always true |
| FastEpd.FastEpdDisplay.GetTouchDevice | Drivers/FastEPDDisplay/Source/FastEpdDisplay.h:80-82 | the configured touch device |
| FastEpd.FastEpdDisplay.GetLvglDisplay | Drivers/FastEPDDisplay/Source/FastEpdDisplay.h:88 | the lvglDisplay field |
| FastEpd.FastEpdDisplay.Start | Drivers/FastEPDDisplay/Source/FastEpdDisplay.cpp:31-78 | already initialised: true, no calls. initPanel failing: false, still uninitialised. Otherwise initialised and true even when the initial white clear fails, with rotation set only when not 0 |
| FastEpd.FastEpdDisplay.Stop | Drivers/FastEPDDisplay/Source/FastEpdDisplay.cpp:80-108 | before start: true, no calls. Otherwise LVGL detached, driver released, einkPower(0) if on, deInit, uninitialised |
| FastEpd.FastEpdDisplay.SetPowerOn | Drivers/FastEPDDisplay/Source/FastEpdDisplay.cpp:110-122 | no call when the state already matches; otherwise exactly one einkPower(1 or 0), and powered becomes the request |
| FastEpd.FastEpdDisplay.FullUpdate | Drivers/FastEPDDisplay/Source/FastEpdDisplay.cpp:124-140 | uninitialised: -1, no call; otherwise one fullUpdate with the given arguments (defaults CLEAR_FAST, not kept on, whole screen) and its result unchanged |
| FastEpd.FastEpdDisplay.PartialUpdate | Drivers/FastEPDDisplay/Source/FastEpdDisplay.cpp:142-158 | uninitialised: -1, no call; otherwise one partialUpdate (defaults: not kept on, rows 0..4095) and its result unchanged |
| FastEpd.FastEpdDisplay.ClearWhite | Drivers/FastEPDDisplay/Source/FastEpdDisplay.cpp:160-185 | uninitialised: false, no call; otherwise fill white, one CLEAR_WHITE full update, true iff it returns BBEP_SUCCESS |
| FastEpd.FastEpdDisplay.ClearBlack | Drivers/FastEPDDisplay/Source/FastEpdDisplay.cpp:187-214 | uninitialised: false, no call; otherwise fill black, one CLEAR_BLACK full update, true iff it returns BBEP_SUCCESS |
| FastEpd.LvglFormat | Drivers/FastEPDDisplay/Source/FastEpdDisplay.cpp:233-244 | I1 exactly for 1-bpp mode, I8 exactly for 4-bpp mode, none for any other mode |
| FastEpd.BufferSize | Drivers/FastEPDDisplay/Source/FastEpdDisplay.cpp:249-255 | I1: w·h/8 rounded down (8·size ≤ w·h < 8·size + 8); I8: w·h |
| FastEpd.FastEpdDisplay.StartLvgl | Drivers/FastEPDDisplay/Source/FastEpdDisplay.cpp:216-284 | true at once if attached; false if uninitialised or in an unsupported mode; one SPIRAM allocation of BufferSize; freed and false if display creation fails; otherwise a direct-mode display of the panel's size in the mode's format |
| FastEpd.FastEpdDisplay.StopLvgl | Drivers/FastEPDDisplay/Source/FastEpdDisplay.cpp:286-304 | always true, and LVGL is detached |
| FastEpd.FastEpdDisplay.FlushFormat | Drivers/FastEPDDisplay/Source/FastEpdDisplay.cpp:325 | the colour format of the attached LVGL display |
| FastEpd.FastEpdDisplay.FlushInternal | Drivers/FastEPDDisplay/Source/FastEpdDisplay.cpp:314-355 | uninitialised: nothing. I1 or I8: one drawPixelFast per pixel of the inclusive area in row-major order with the decoded ink, and no refresh call; any other format draws nothing |
| FastEpd.FlushPlots | Drivers/FastEPDDisplay/Source/FastEpdDisplay.cpp:327-347 | I1 and I8: w·h plots, plot i at (x1 + i mod w, y1 + i div w) with the 1-bpp ink of pixel i or gray >> 4 of byte i; any other format: no plots |
| FastEpd.FastEpdDisplay.FlushMono | Drivers/FastEPDDisplay/Source/FastEpdDisplay.cpp:327-337 | the I1 loops draw exactly the scan of the area with MonoColors of the buffer |
| FastEpd.FastEpdDisplay.FlushMonoRow | Drivers/FastEPDDisplay/Source/FastEpdDisplay.cpp:331-336 | one row of the I1 loops adds exactly that row's plots |
| FastEpd.FastEpdDisplay.FlushGray | Drivers/FastEPDDisplay/Source/FastEpdDisplay.cpp:338-347 | the I8 loops draw exactly the scan of the area with GrayColors of the buffer |
| FastEpd.FastEpdDisplay.FlushGrayRow | Drivers/FastEPDDisplay/Source/FastEpdDisplay.cpp:341-346 | one row of the I8 loops adds exactly that row's plots |
| Transcode.GrayHigh | Drivers/FastEPDDisplay/Source/FastEpdDisplay.cpp:344 | gray >> 4 is a level 0..15, the grey value divided by 16 |
| Transcode.Stride | Drivers/FastEPDDisplay/Source/FastEpdDisplay.cpp:329 | (w+7)/8 is the fewest bytes holding w bits: 8·stride - 8 < w ≤ 8·stride |
| Transcode.MonoByteIndex | Drivers/FastEPDDisplay/Source/FastEpdDisplay.cpp:332 | byte y·stride + x/8 is the byte of row y whose 8 bits cover column x |
| Transcode.MonoBitIndex | Drivers/FastEPDDisplay/Source/FastEpdDisplay.cpp:333 | the bit index is in 0..7 and counts down from 7 as x moves across a byte: MSB first |
| Transcode.MaskBit | Drivers/FastEPDDisplay/Source/FastEpdDisplay.cpp:334 | `(b & (1 << bit)) != 0`: false for a zero byte, true for 0xFF, bit 7 is the top bit (b ≥ 0x80) and bit 0 the parity |
| FastEpdPixels.MonoInk | Drivers/FastEPDDisplay/Source/FastEpdDisplay.cpp:334-335 | a 1-bpp pixel is white exactly when its bit is set and black exactly when it is clear |
| FastEpdPixels.FlushMonoStep | Drivers/FastEPDDisplay/Source/FastEpdDisplay.cpp:332-335 | the I1 flush reads byte y·((w+7)/8)+x/8 inside the buffer and bit 7-x%8, and draws white iff that bit is set |
| FastEpdPixels.FlushGrayStep | Drivers/FastEPDDisplay/Source/FastEpdDisplay.cpp:342-345 | the I8 flush draws byte y·w+x's high nibble (gray >> 4) at the pixel's position |
| FastEpdPixels.MonoCanvas | Drivers/FastEPDDisplay/Source/FastEpdDisplay.cpp:327-337 | after a 1-bpp scan, each cell of the rectangle is drawn once, white iff its bit is set and black otherwise; cells outside are never drawn and keep their ink; the fill background is unchanged |
| FastEpdPixels.GrayCanvas | Drivers/FastEPDDisplay/Source/FastEpdDisplay.cpp:338-347 | after a grey scan, each cell of the rectangle is drawn once with gray >> 4 of its byte; cells outside keep their ink |
| FastEpdNative.CanvasDraws | Drivers/FastEPDDisplay/Source/FastEpdDisplay.cpp:335-345 | a run of pixel draws paints its plots onto the panel buffer in order and leaves the fill background alone |
| FastEpd.FastEpdDisplay.GetDisplayDriver | Drivers/FastEPDDisplay/Source/FastEpdDisplay.cpp:357-367 | requires LVGL detached; creates a driver over this panel in the configured mode on the first call and returns the same one afterwards |
| FastEpdDriver.FastEpdDisplayDriver.constructor | Drivers/FastEPDDisplay/Source/FastEpdDisplayDriver.h:15-22 | the driver keeps the panel pointer and the graphics mode it is given |
| FastEpdDriver.FastEpdDisplayDriver.DrawBitmap | Drivers/FastEPDDisplay/Source/FastEpdDisplayDriver.cpp:7-49 | true iff there is a panel, data and a non-empty half-open rectangle; otherwise nothing is drawn; on success one drawPixel per pixel of [xStart,xEnd)×[yStart,yEnd) in row-major order |
| FastEpdDriver.BitmapPlots | Drivers/FastEPDDisplay/Source/FastEpdDisplayDriver.cpp:31-46 | drawBitmap draws w·h plots for the half-open rectangle, plot i at (xStart + i mod w, yStart + i div w) with the 1-bpp ink of bitmap pixel i |
| FastEpdDriver.FastEpdDisplayDriver.DrawRows | Drivers/FastEPDDisplay/Source/FastEpdDisplayDriver.cpp:31-46 | the two loops draw exactly the bitmap's scan |
| FastEpdDriver.FastEpdDisplayDriver.DrawRow | Drivers/FastEPDDisplay/Source/FastEpdDisplayDriver.cpp:32-45 | one row of the loops adds exactly that row's plots |
| FastEpdPixels.BitmapStep | Drivers/FastEPDDisplay/Source/FastEpdDisplayDriver.cpp:38-44 | drawBitmap's byte index stays below h·((w+7)/8), and its shift-and-mask test draws the scan's plot: white iff bit 7-x%8 is set |
| FastEpdPixels.ShiftInk | Drivers/FastEPDDisplay/Source/FastEpdDisplayDriver.cpp:41-44 | `(byte >> bit) & 1` picks the same ink as the flush's mask test |
| Transcode.MonoByteIndexBound | Drivers/FastEPDDisplay/Source/FastEpdDisplayDriver.cpp:39-40 | for a pixel inside a w×h bitmap, the byte index lies below h·((w+7)/8) and the bit index in 0..7 |
| Transcode.MaskShiftAgree | Drivers/FastEPDDisplay/Source/FastEpdDisplayDriver.cpp:41 | the mask test and the shift test of a bit agree |
| Transcode.ShiftBit | Drivers/FastEPDDisplay/Source/FastEpdDisplayDriver.cpp:41 | `(byte >> bit) & 0x01` is 0 or 1, and 1 exactly when the mask test finds the bit set |
| PaperS3Power.SupportsMetric | Boards/M5StackPaperS3/Source/devices/Power.cpp:88-98 | true exactly for IsCharging, BatteryVoltage and ChargeLevel |
| PaperS3Power.CDiv | Boards/M5StackPaperS3/Source/devices/Power.cpp:76 | C's int division: it matches Euclidean division on non-negative dividends and truncates toward zero on negative ones |
| PaperS3Power.ChargeMillivolts | Boards/M5StackPaperS3/Source/devices/Power.cpp:76 | the millivolt estimate is (raw·3100)/4095 truncated: the largest m with m·4095 ≤ raw·3100 for a non-negative reading, within 0..3100 for a 12-bit reading, never positive for a negative one |
| PaperS3Power.ChargingThreshold | Boards/M5StackPaperS3/Source/devices/Power.cpp:76-81 | (raw·3100)/4095 > 150 in truncating integer arithmetic holds exactly when raw ≥ 200, for every int raw |
| PaperS3Power.ChargingFromRaw | Boards/M5StackPaperS3/Source/devices/Power.cpp:81 | the charge decision `voltage_mv > 150` on a raw reading holds exactly when raw ≥ 200 |
| PaperS3Power.PaperS3Power.constructor | Boards/M5StackPaperS3/Source/devices/Power.cpp:26-34 | the charge-status channel starts unconfigured |
| PaperS3Power.PaperS3Power.InitializeChargeStatus | Boards/M5StackPaperS3/Source/devices/Power.cpp:36-55 | a no-op once configured; otherwise one configuration attempt, and the flag is set only when it succeeds |
| PaperS3Power.PaperS3Power.IsChargingNow | Boards/M5StackPaperS3/Source/devices/Power.cpp:58-86 | configures lazily; false when configuration or the read fails; otherwise true exactly when raw ≥ 200 |
| PaperS3Power.PaperS3Power.GetMetric | Boards/M5StackPaperS3/Source/devices/Power.cpp:100-128 | IsCharging: always true, writing the charge flag, after the lazy channel configuration and one read, with the same new state as IsChargingNow. Voltage and charge level: true iff the sampled read succeeds, writing the voltage or the estimated level. Any other metric: false, data and state untouched. A true result implies SupportsMetric |

## Left out

- LVGL itself is not modelled: display creation and deletion, buffers, flush callbacks and `lv_display_flush_ready`, event registration, and the rotation event callback (`rotationEventCallback`). Their outcomes (creation success, chosen format, rotation, render mode) are parameters or fields of `LvglDisplay`.
- The epdiy and FastEPD libraries are not modelled internally. Their calls are recorded in traces and their results are parameters. The pixel transforms inside `epd_draw_pixel` (rotation) and `drawPixelFast` are not modelled, and neither is the waveform applied by a refresh.
- epdiy's enum values `MODE_UNKNOWN_WAVEFORM` (0x3F), `MODE_PACKING_2PPB` (0x80) and `EPD_DRAW_FAILED_ALLOC` (0x10) come from the epdiy header, which is not part of this model. FastEPD's colours, graphics modes and clear modes are symbolic, except `BBEP_SUCCESS` = 0.
- Mutexes and concurrency are not modelled, and the model is single-threaded. EPDiy's entry points record `Lock`/`Unlock` in the trace. FastEPD takes no lock, and the lock handle it shares with its driver is not modelled.
- Destructors and the `use_count` ownership checks (`tt_crash`, `assert`) are not modelled. `GetDisplayDriver`'s check that LVGL is detached is a precondition.
- Touch-device start and stop (FastEPD's `stopLvgl` stops LVGL on the touch device) and all logging are not modelled.
- The EPDiy flush's `new[]` of its packed buffer is taken to succeed, as C++ `new` does or throws. The board, init options and waveform the device passes to epdiy are not modelled.
- The PaperS3 ADC driver, the float battery constants, `ChargeFromAdcVoltage` (sampled voltage, charge-level estimate) and `createPower` are not modelled. Their results are parameters, and `getName`/`getDescription` are left out.
- `Display.cpp`, `Display.hpp` and `SdCard.cpp` of the PaperS3 board are not part of this model, nor are `FastEpdDisplayHelper.h` and the accessors in `FastEpdDisplayDriver.h`.
- Integer widths are not modelled where the source cannot reach them: int coordinates, `width * height`, `raw * 3100` (raw is a 12-bit reading), the `uint32_t` bus speed and the `uint8_t` pass counts are unbounded integers here. EPDiy's flush rectangle narrows width and height to 16 bits, and that narrowing is modelled.
- The flush loops compute the source's `row * width + col` as a running index advanced by the width each row. The two are proved equal (`Raster.RowStartIsProduct`).
- The relation between the buffer LVGL is given in `startLvgl` and the `pixelMap` handed to a flush is not modelled. A flush requires the map to hold the bytes it reads.
- Epdiy.EpdiyDisplay.FlushInternal: requires a non-negative extent (x1 ≤ x2 + 1 and y1 ≤ y2 + 1). For an inverted area the source's `width * height` becomes a huge `size_t` buffer size. LVGL never passes such an area, so that case is not modelled.
- FastEpd.FastEpdDisplay.FlushInternal: requires the same non-negative extent. For an inverted area the source's loops draw nothing, and the model does not cover that case.
- FastEpd.FastEpdDisplay.FlushInternal: the colour format comes from the attached LVGL display. The case with no display attached, where LVGL would fall back to its default display, draws nothing here.
- PaperS3Power.PaperS3Power.IsChargingNow: the ADC raw value is a parameter. Out-of-range readings are allowed, and the threshold lemma holds for every int.
