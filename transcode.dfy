/** The pixel conversions between LVGL's delivered buffers and the panels' native
    values: EPDiy's 8-bit grey to 4-bit levels packed two per byte, FastEPD's 8-bit
    grey to its high nibble, and the MSB-first 1-bit-per-pixel rows that FastEPD's
    flush and its display driver both decode. All arithmetic is on unsigned bytes. */
module Transcode {
  import opened Raster

  // ---- 8-bit grey to 4-bit levels (EPDiy) ----

  /** `v / 17`: spreads 0..255 evenly over the sixteen levels 0..15. */
  function Gray4(v: bv8): (level: bv8)
    ensures level <= 15
    ensures level as int == v as int / 17
    ensures v == 0 ==> level == 0
    ensures v == 255 ==> level == 15
  {
    v / 17
  }

  /** Two 4-bit levels in one byte, the first pixel in the high nibble. */
  function PackPair(hi: bv8, lo: bv8): (b: bv8)
    ensures hi <= 15 && lo <= 15 ==> b as int == 16 * hi as int + lo as int
  {
    (hi << 4) | lo
  }

  /** The level stored in a byte's high nibble. */
  function HighNibble(b: bv8): (level: bv8)
    ensures level <= 15 && level as int == b as int / 16
  {
    (b >> 4) & 0x0F
  }

  /** The level stored in a byte's low nibble. */
  function LowNibble(b: bv8): (level: bv8)
    ensures level <= 15 && level as int == b as int % 16
  {
    b & 0x0F
  }

  /** Unpacking a packed pair gives back both levels exactly. */
  lemma PackPairRoundTrip(hi: bv8, lo: bv8)
    requires hi <= 15 && lo <= 15
    ensures HighNibble(PackPair(hi, lo)) == hi && LowNibble(PackPair(hi, lo)) == lo
  {
  }

  /** The 2-pixels-per-byte buffer EPDiy's flush builds from n grey pixels: byte k holds
      pixel 2k's level in its high nibble and pixel 2k+1's (or 0 past the end) in its low one. */
  function Packed(pixels: seq<bv8>): (packed: seq<bv8>)
    ensures |packed| == (|pixels| + 1) / 2
    ensures forall k :: 0 <= k < |packed| ==>
      HighNibble(packed[k]) == Gray4(pixels[2 * k]) &&
      LowNibble(packed[k]) == (if 2 * k + 1 < |pixels| then Gray4(pixels[2 * k + 1]) else 0)
  {
    var packed := seq((|pixels| + 1) / 2, k requires 0 <= k < (|pixels| + 1) / 2 =>
      PackPair(Gray4(pixels[2 * k]), if 2 * k + 1 < |pixels| then Gray4(pixels[2 * k + 1]) else 0));
    forall k | 0 <= k < |packed|
      ensures HighNibble(packed[k]) == Gray4(pixels[2 * k])
      ensures LowNibble(packed[k]) == (if 2 * k + 1 < |pixels| then Gray4(pixels[2 * k + 1]) else 0)
    {
      PackPairRoundTrip(Gray4(pixels[2 * k]), if 2 * k + 1 < |pixels| then Gray4(pixels[2 * k + 1]) else 0);
    }
    packed
  }

  /** The level of pixel i read back from a packed buffer: even pixels from the high
      nibble of byte i / 2, odd pixels from its low nibble. */
  function Unpacked(packed: seq<bv8>, i: nat): (level: bv8)
    requires i / 2 < |packed|
    ensures level <= 15
    ensures level as int == if i % 2 == 0 then packed[i / 2] as int / 16 else packed[i / 2] as int % 16
  {
    if i % 2 == 0 then HighNibble(packed[i / 2]) else LowNibble(packed[i / 2])
  }

  /** Pack then unpack loses nothing beyond the `/ 17`. */
  lemma UnpackPacked(pixels: seq<bv8>, i: nat)
    requires i < |pixels|
    ensures i / 2 < |Packed(pixels)|
    ensures Unpacked(Packed(pixels), i) == Gray4(pixels[i])
  {
    var k := i / 2;
    assert i == 2 * k || i == 2 * k + 1;
  }

  /** The value EPDiy's flush hands to epd_draw_pixel: the 4-bit level moved into the
      high nibble, the low nibble clear. */
  function EpdColor(v: bv8): (c: bv8)
    ensures HighNibble(c) == Gray4(v) && LowNibble(c) == 0
    ensures c as int == 16 * (v as int / 17)
  {
    Gray4(v) << 4
  }

  // ---- 8-bit grey to 4-bit (FastEPD) ----

  /** `gray >> 4`: FastEPD keeps the high nibble of an 8-bit grey value. */
  function GrayHigh(v: bv8): (level: bv8)
    ensures level <= 15
    ensures level as int == v as int / 16
  {
    v >> 4
  }

  // ---- 1 bit per pixel, MSB first (FastEPD) ----

  /** Bytes per row of a w-pixel-wide 1-bpp bitmap. */
  function Stride(w: int): (bytes: int)
    ensures w >= 0 ==> 0 <= bytes && 8 * bytes - 8 < w <= 8 * bytes
  {
    (w + 7) / 8
  }

  /** The byte holding pixel (x, y) of a w-pixel-wide 1-bpp bitmap. */
  function MonoByteIndex(x: int, y: int, w: int): (index: int)
    ensures 0 <= x ==> var k := index - y * Stride(w); 8 * k <= x < 8 * k + 8
  {
    y * Stride(w) + x / 8
  }

  /** The bit inside that byte: pixel 0 of a byte is its most significant bit. */
  function MonoBitIndex(x: int): (bit: int)
    ensures 0 <= bit < 8 && (x + bit) % 8 == 7
  {
    7 - x % 8
  }

  /** Every byte a w×h 1-bpp bitmap is read from lies inside its h * Stride(w) bytes. */
  lemma MonoByteIndexBound(x: int, y: int, w: int, h: int)
    requires 0 <= x < w && 0 <= y < h
    ensures 0 <= MonoByteIndex(x, y, w) < h * Stride(w)
    ensures 0 <= MonoBitIndex(x) < 8
  {
    var s := Stride(w);
    var q := x / 8;
    assert 0 <= q < s by {
      assert 8 * q <= x < 8 * q + 8;
      assert 8 * s <= w + 7 < 8 * s + 8;
    }
    assert y * s + q < (y + 1) * s;
    MulMono(s, y + 1, h);
  }

  /** The flush's test `(byte & (1 << bit)) != 0`. */
  predicate MaskBit(b: bv8, bit: nat): (isSet: bool)
    requires bit < 8
    ensures b == 0 ==> !isSet
    ensures b == 0xFF ==> isSet
    ensures bit == 7 ==> (isSet <==> b >= 0x80)
    ensures bit == 0 ==> (isSet <==> b % 2 == 1)
  {
    b & ((1 as bv8) << bit) != 0
  }

  /** The display driver's test `(byte >> bit) & 0x01`. */
  function ShiftBit(b: bv8, bit: nat): (value: bv8)
    requires bit < 8
    ensures value <= 1
    ensures value == 1 <==> MaskBit(b, bit)
  {
    (b >> bit) & 0x01
  }

  /** The two spellings of "bit `bit` of b is set" agree. */
  lemma MaskShiftAgree(b: bv8, bit: nat)
    requires bit < 8
    ensures MaskBit(b, bit) <==> ShiftBit(b, bit) == 1
    ensures ShiftBit(b, bit) <= 1
  {
  }

  /** Whether pixel (x, y) of a w-pixel-wide 1-bpp bitmap is set (drawn white). */
  predicate MonoSet(data: seq<bv8>, w: int, x: int, y: int)
    requires 0 <= x && 0 <= MonoByteIndex(x, y, w) < |data|
  {
    MaskBit(data[MonoByteIndex(x, y, w)], MonoBitIndex(x) as nat)
  }
}
