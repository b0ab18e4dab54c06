/** The foreign collaborators both back ends talk to (the LVGL compositor and the
    ESP heap), reduced to the values the drivers observe or hand over. */
module Host {

  datatype Option<T> = None | Some(value: T)

  /** An LVGL area: inclusive corner coordinates as LVGL hands them to a flush callback. */
  datatype Area = Area(x1: int, y1: int, x2: int, y2: int)
  {
    /** lv_area_get_width */
    function Width(): int { x2 - x1 + 1 }
    /** lv_area_get_height */
    function Height(): int { y2 - y1 + 1 }
  }

  datatype ColorFormat = L8 | I1 | I8

  datatype RenderMode = RenderFull | RenderPartial | RenderDirect

  /** What an lv_display_t handle created by a driver was configured with. */
  datatype LvglDisplay = LvglDisplay(
    width: int,
    height: int,
    colorFormat: ColorFormat,
    rotation: int,
    bufferSize: int,
    renderMode: RenderMode)

  /** LVGL's rotation enumeration lv_display_rotation_t. */
  const LV_DISPLAY_ROTATION_0: int := 0
  const LV_DISPLAY_ROTATION_90: int := 1
  const LV_DISPLAY_ROTATION_180: int := 2
  const LV_DISPLAY_ROTATION_270: int := 3

  /** The memory region a heap_caps_malloc call asks for. */
  datatype MemCaps = SpiramByte | DmaInternal | Spiram

  /** Heap traffic a driver causes; `ok` is whether the allocator returned a buffer. */
  datatype HeapCall = Malloc(size: int, caps: MemCaps, ok: bool) | Free
}
