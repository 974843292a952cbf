/**
  Window geometry: the change detection that keeps a window's stored position
  and size in step with its client area, and the choice of window position and
  style before a window is created.
*/
module WindowGeometry {
  import opened Common
  import opened ScreenSettings

  // ---------------------------------------------------------------------------
  // areWindowDimensionsChanged
  // ---------------------------------------------------------------------------

  /** A window's position relative to its screen and the size of its client area. */
  datatype Dimensions = Dimensions(x: int, y: int, width: int, height: int)

  /**
    What the system reports about a window: the screen position of the
    client area's origin (`ClientToScreen` of (0,0)) and the right and bottom
    edges of the client rectangle (`GetClientRect`).
  */
  datatype ClientArea = ClientArea(originX: int, originY: int, right: int, bottom: int)

  /** The dimensions the client area stands for: its position relative to the screen origin and its size, where 0 counts as 1. */
  function Measured(area: ClientArea, screenOriginX: int, screenOriginY: int): (d: Dimensions)
    ensures d.width != 0 && d.height != 0
    ensures area.right != 0 ==> d.width == area.right
    ensures area.bottom != 0 ==> d.height == area.bottom
    ensures area.right == 0 ==> d.width == 1
    ensures area.bottom == 0 ==> d.height == 1
    ensures d.x + screenOriginX == area.originX && d.y + screenOriginY == area.originY
  {
    Dimensions(area.originX - screenOriginX,
               area.originY - screenOriginY,
               if area.right == 0 then 1 else area.right,
               if area.bottom == 0 then 1 else area.bottom)
  }

  /**
    `areWindowDimensionsChanged`: compare the measured dimensions with the
    stored ones; when any of the four differs, all four are replaced and the
    answer is true, otherwise nothing changes and the answer is false.
  */
  method AreWindowDimensionsChanged(area: ClientArea, screenOriginX: int, screenOriginY: int,
                                    stored: Dimensions) returns (changed: bool, updated: Dimensions)
    ensures changed <==> stored != Measured(area, screenOriginX, screenOriginY)
    ensures updated == Measured(area, screenOriginX, screenOriginY)
    ensures !changed ==> updated == stored
  {
    var newX := area.originX - screenOriginX;
    var newY := area.originY - screenOriginY;
    var newWidth := if area.right == 0 then 1 else area.right;
    var newHeight := if area.bottom == 0 then 1 else area.bottom;
    if newX != stored.x || newY != stored.y || newWidth != stored.width || newHeight != stored.height {
      changed := true;
      updated := Dimensions(newX, newY, newWidth, newHeight);
    } else {
      changed := false;
      updated := stored;
    }
  }

  // ---------------------------------------------------------------------------
  // determineWindowPositionAndStyle
  // ---------------------------------------------------------------------------

  const WS_POPUP: bv32 := 0x8000_0000
  const WS_CLIPSIBLINGS: bv32 := 0x0400_0000
  const WS_CLIPCHILDREN: bv32 := 0x0200_0000
  const WS_CAPTION: bv32 := 0x00C0_0000
  const WS_SYSMENU: bv32 := 0x0008_0000
  const WS_SIZEBOX: bv32 := 0x0004_0000
  const WS_MINIMIZEBOX: bv32 := 0x0002_0000
  const WS_MAXIMIZEBOX: bv32 := 0x0001_0000

  const WS_EX_ACCEPTFILES: bv32 := 0x0000_0010
  const WS_EX_OVERLAPPEDWINDOW: bv32 := 0x0000_0300
  const WS_EX_APPWINDOW: bv32 := 0x0004_0000
  const WS_EX_LTRREADING: bv32 := 0x0000_0000

  /** The style bits every window gets. */
  const BASE_STYLE: bv32 := WS_POPUP | WS_CLIPSIBLINGS | WS_CLIPCHILDREN

  /** The style bits a decorated window adds: title bar, system menu and the two size boxes. */
  const DECORATION_STYLE: bv32 := WS_CAPTION | WS_SYSMENU | WS_MINIMIZEBOX | WS_MAXIMIZEBOX

  /** The window style: borderless pop-up, plus decorations, plus a sizing border when resizing is supported. */
  function WindowStyle(decorated: bool, supportsResize: bool): (style: bv32)
    ensures style & BASE_STYLE == BASE_STYLE
    ensures style & DECORATION_STYLE == (if decorated then DECORATION_STYLE else 0)
    ensures style & WS_SIZEBOX != 0 <==> decorated && supportsResize
    ensures style & !(BASE_STYLE | DECORATION_STYLE | WS_SIZEBOX) == 0
  {
    var style := BASE_STYLE;
    if decorated then
      var style' := style | DECORATION_STYLE;
      if supportsResize then style' | WS_SIZEBOX else style'
    else style
  }

  /**
    The extended window style: none for a borderless window; for a decorated
    one the application-window, overlapped-window (both edges) and drop-target
    bits, and left-to-right reading, whose value is 0.
  */
  function ExtendedStyle(decorated: bool): (exStyle: bv32)
    ensures exStyle == 0 <==> !decorated
    ensures decorated ==> exStyle & WS_EX_APPWINDOW != 0 && exStyle & WS_EX_ACCEPTFILES != 0
    ensures decorated ==> exStyle & WS_EX_OVERLAPPEDWINDOW == WS_EX_OVERLAPPEDWINDOW
    ensures exStyle & !(WS_EX_APPWINDOW | WS_EX_OVERLAPPEDWINDOW | WS_EX_ACCEPTFILES | WS_EX_LTRREADING) == 0
  {
    if decorated then WS_EX_APPWINDOW | WS_EX_OVERLAPPEDWINDOW | WS_EX_ACCEPTFILES | WS_EX_LTRREADING
    else 0
  }

  /** A rectangle with inclusive corners, as passed to `AdjustWindowRectEx`. */
  datatype Rect = Rect(left: int, top: int, right: int, bottom: int)

  /** The inclusive corners of a `w` by `h` area whose top-left corner is (x, y). */
  function Corners(x: int, y: int, w: nat, h: nat): (r: Rect)
    ensures r.right - r.left + 1 == w && r.bottom - r.top + 1 == h
    ensures r.left == x && r.top == y
  {
    Rect(x, y, x + w - 1, y + h - 1)
  }

  /** The window position, size and styles chosen for a new window. */
  datatype Placement = Placement(x: int, y: int, width: int, height: int, style: bv32, extendedStyle: bv32)

  /**
    `determineWindowPositionAndStyle`: None when the screen reports no size,
    or when a decorated window's rectangle cannot be adjusted. `adjusted` is
    the answer of `AdjustWindowRectEx` for the client corners and the chosen
    styles (None when the call fails); it is not consulted for a borderless
    window.
  */
  function DetermineWindowPositionAndStyle(screen: ScreenPosition, clientX: int, clientY: int,
                                           clientWidth: nat, clientHeight: nat,
                                           decorated: bool, supportsResize: bool,
                                           adjusted: Option<Rect>): (r: Option<Placement>)
    ensures r.None? <==> screen.width == 0 || screen.height == 0 || (decorated && adjusted.None?)
    ensures r.Some? ==> r.value.style == WindowStyle(decorated, supportsResize)
                        && r.value.extendedStyle == ExtendedStyle(decorated)
    ensures r.Some? && !decorated ==>
              r.value.x == clientX + screen.originX && r.value.y == clientY + screen.originY
              && r.value.width == clientWidth && r.value.height == clientHeight
    ensures r.Some? && decorated ==>
              r.value.x == adjusted.value.left && r.value.y == adjusted.value.top
              && r.value.width == adjusted.value.right - adjusted.value.left + 1
              && r.value.height == adjusted.value.bottom - adjusted.value.top + 1
  {
    if screen.width == 0 || screen.height == 0 then None
    else
      var x := clientX + screen.originX;
      var y := clientY + screen.originY;
      var style := WindowStyle(decorated, supportsResize);
      var exStyle := ExtendedStyle(decorated);
      if !decorated then Some(Placement(x, y, clientWidth, clientHeight, style, exStyle))
      else match adjusted
        case None => None
        case Some(corners) =>
          Some(Placement(corners.left, corners.top,
                         corners.right - corners.left + 1, corners.bottom - corners.top + 1,
                         style, exStyle))
  }

  /**
    The corner conversion loses nothing: when the adjustment leaves the client
    corners as they are, a decorated window gets exactly the position and size
    of the same borderless window.
  */
  lemma CornersRoundTrip(screen: ScreenPosition, clientX: int, clientY: int,
                         clientWidth: nat, clientHeight: nat, supportsResize: bool)
    requires screen.width != 0 && screen.height != 0
    ensures var corners := Corners(clientX + screen.originX, clientY + screen.originY, clientWidth, clientHeight);
            var decorated := DetermineWindowPositionAndStyle(screen, clientX, clientY, clientWidth, clientHeight,
                                                             true, supportsResize, Some(corners));
            var plain := DetermineWindowPositionAndStyle(screen, clientX, clientY, clientWidth, clientHeight,
                                                         false, supportsResize, None);
            decorated.Some? && plain.Some?
            && decorated.value.(style := 0, extendedStyle := 0) == plain.value.(style := 0, extendedStyle := 0)
  {
  }
}
