/** The FASTEPD panel object the FastEPD back end owns and lends to its display driver.
    The library is foreign: the model records the calls made on the object, in order,
    and takes every result the library computes (return codes, dimensions) as a
    parameter. What a sequence of calls leaves in the panel's buffer is given by
    Canvas and Background. */
module FastEpdNative {
  import opened Host
  import opened Raster

  /** BBEP_SUCCESS */
  const BBEP_SUCCESS: int := 0

  /** The clear modes a full update accepts. */
  datatype ClearMode = ClearNone | ClearFast | ClearSlow | ClearWhite | ClearBlack

  /** The graphics modes the back end distinguishes; every other mode is kept by its code. */
  datatype GraphicsMode = Mode1Bpp | Mode4Bpp | OtherMode(code: int)

  /** A colour handed to fillScreen or a pixel primitive: BBEP_WHITE, BBEP_BLACK or a 4-bit grey level. */
  datatype Ink = White | Black | Level(level: bv8)

  /** BB_RECT */
  datatype BbRect = BbRect(x: int, y: int, w: int, h: int)

  /** A call made on the FASTEPD object. */
  datatype PanelCall =
    | InitPanel(panelType: int, busSpeed: int)
    | SetMode(mode: GraphicsMode)
    | SetRotation(rotation: int)
    | SetPasses(partialPasses: int, fullPasses: int)
    | FillScreen(ink: Ink)
    | FullUpdate(clearMode: ClearMode, keepOn: bool, rect: Option<BbRect>)
    | PartialUpdate(keepOn: bool, startRow: int, endRow: int)
    | EinkPower(on: int)
    | DeInit
    | DrawPixelFast(plot: Plot<Ink>)
    | DrawPixel(plot: Plot<Ink>)

  /** The drawPixelFast calls (fast) or drawPixel calls (!fast) that draw the plots ps, in order. */
  ghost function Draws(ps: seq<Plot<Ink>>, fast: bool): (calls: seq<PanelCall>)
    ensures |calls| == |ps|
  {
    seq(|ps|, i requires 0 <= i < |ps| => if fast then DrawPixelFast(ps[i]) else DrawPixel(ps[i]))
  }

  /** Drawing one more plot of ps after a prefix t of calls is one more call. */
  lemma DrawsStep(t: seq<PanelCall>, ps: seq<Plot<Ink>>, fast: bool, k: int)
    requires 0 <= k < |ps|
    ensures t + Draws(ps[..k + 1], fast) == t + Draws(ps[..k], fast) + [if fast then DrawPixelFast(ps[k]) else DrawPixel(ps[k])]
  {
    assert ps[..k + 1][..k] == ps[..k];
  }

  /** The cells drawn since the buffer was last filled, with their inks. */
  ghost function Canvas(calls: seq<PanelCall>): Framebuffer<Ink>
  {
    if calls == [] then map[]
    else
      var fb := Canvas(calls[..|calls| - 1]);
      match calls[|calls| - 1]
      case FillScreen(_) => map[]
      case DrawPixelFast(p) => fb[(p.x, p.y) := p.color]
      case DrawPixel(p) => fb[(p.x, p.y) := p.color]
      case _ => fb
  }

  /** The ink of the last fillScreen, which every cell not in Canvas holds. */
  ghost function Background(calls: seq<PanelCall>): Option<Ink>
  {
    if calls == [] then None
    else if calls[|calls| - 1].FillScreen? then Some(calls[|calls| - 1].ink)
    else Background(calls[..|calls| - 1])
  }

  /** Drawing plots with either pixel primitive paints them onto the canvas in order and
      leaves the background alone. */
  lemma {:induction false} CanvasDraws(t: seq<PanelCall>, ps: seq<Plot<Ink>>, fast: bool)
    ensures Canvas(t + Draws(ps, fast)) == Paint(Canvas(t), ps)
    ensures Background(t + Draws(ps, fast)) == Background(t)
  {
    if ps == [] {
      assert t + Draws(ps, fast) == t;
    } else {
      var n := |ps| - 1;
      CanvasDraws(t, ps[..n], fast);
      var u := t + Draws(ps, fast);
      assert u == (t + Draws(ps[..n], fast)) + [if fast then DrawPixelFast(ps[n]) else DrawPixel(ps[n])];
      assert u[..|u| - 1] == t + Draws(ps[..n], fast);
    }
  }

  /** The FASTEPD object. */
  class Panel {
    /** width() and height(): the dimensions after the current rotation */
    var width: nat
    var height: nat
    ghost var calls: seq<PanelCall>

    constructor ()
      ensures calls == []
    {
      width, height := 0, 0;
      calls := [];
    }

    /** initPanel; the library reports rc and the native dimensions. */
    method InitPanel(panelType: int, busSpeed: int, rc: int, nativeWidth: nat, nativeHeight: nat) returns (r: int)
      modifies this
      ensures r == rc && width == nativeWidth && height == nativeHeight
      ensures calls == old(calls) + [PanelCall.InitPanel(panelType, busSpeed)]
    {
      calls := calls + [PanelCall.InitPanel(panelType, busSpeed)];
      width, height := nativeWidth, nativeHeight;
      return rc;
    }

    method SetMode(mode: GraphicsMode)
      modifies this`calls
      ensures calls == old(calls) + [PanelCall.SetMode(mode)]
    {
      calls := calls + [PanelCall.SetMode(mode)];
    }

    /** setRotation; the library reports the rotated dimensions. */
    method SetRotation(rotation: int, rotatedWidth: nat, rotatedHeight: nat)
      modifies this
      ensures width == rotatedWidth && height == rotatedHeight
      ensures calls == old(calls) + [PanelCall.SetRotation(rotation)]
    {
      calls := calls + [PanelCall.SetRotation(rotation)];
      width, height := rotatedWidth, rotatedHeight;
    }

    method SetPasses(partialPasses: int, fullPasses: int)
      modifies this`calls
      ensures calls == old(calls) + [PanelCall.SetPasses(partialPasses, fullPasses)]
    {
      calls := calls + [PanelCall.SetPasses(partialPasses, fullPasses)];
    }

    method FillScreen(ink: Ink)
      modifies this`calls
      ensures calls == old(calls) + [PanelCall.FillScreen(ink)]
    {
      calls := calls + [PanelCall.FillScreen(ink)];
    }

    method FullUpdate(clearMode: ClearMode, keepOn: bool, rect: Option<BbRect>, rc: int) returns (r: int)
      modifies this`calls
      ensures r == rc && calls == old(calls) + [PanelCall.FullUpdate(clearMode, keepOn, rect)]
    {
      calls := calls + [PanelCall.FullUpdate(clearMode, keepOn, rect)];
      return rc;
    }

    method PartialUpdate(keepOn: bool, startRow: int, endRow: int, rc: int) returns (r: int)
      modifies this`calls
      ensures r == rc && calls == old(calls) + [PanelCall.PartialUpdate(keepOn, startRow, endRow)]
    {
      calls := calls + [PanelCall.PartialUpdate(keepOn, startRow, endRow)];
      return rc;
    }

    method EinkPower(on: int)
      modifies this`calls
      ensures calls == old(calls) + [PanelCall.EinkPower(on)]
    {
      calls := calls + [PanelCall.EinkPower(on)];
    }

    method DeInit()
      modifies this`calls
      ensures calls == old(calls) + [PanelCall.DeInit]
    {
      calls := calls + [PanelCall.DeInit];
    }

    method DrawPixelFast(x: int, y: int, ink: Ink)
      modifies this`calls
      ensures calls == old(calls) + [PanelCall.DrawPixelFast(Plot(x, y, ink))]
    {
      calls := calls + [PanelCall.DrawPixelFast(Plot(x, y, ink))];
    }

    method DrawPixel(x: int, y: int, ink: Ink)
      modifies this`calls
      ensures calls == old(calls) + [PanelCall.DrawPixel(Plot(x, y, ink))]
    {
      calls := calls + [PanelCall.DrawPixel(Plot(x, y, ink))];
    }
  }
}
