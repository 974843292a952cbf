/**
  The mouse-cursor state of a window: the memoised map from engine cursor to
  system cursor handle, the cursor the application asked for, the cursor in
  effect, and the setter that acts only when the cursor actually changes.

  `LoadCursor` is a parameter of the window (`loadCursor`): it returns the
  shared handle of a system cursor, 0 standing for a null handle. Posting
  `WM_SETCURSOR` is modelled as a counter of posted messages.
*/
module CursorCache {
  import opened Common

  /** The engine's mouse cursors. */
  datatype MouseCursor =
    | InheritCursor | NoCursor | RightArrowCursor | LeftArrowCursor | InfoCursor | DestroyCursor
    | HelpCursor | CycleCursor | SprayCursor | WaitCursor | TextCursor | CrosshairCursor | HandCursor
    | UpDownCursor | LeftRightCursor | TopSideCursor | BottomSideCursor | LeftSideCursor | RightSideCursor
    | TopLeftCorner | TopRightCorner | BottomRightCorner | BottomLeftCorner

  /** The system cursors (`IDC_*`) the engine's cursors are drawn with. */
  datatype SystemCursor =
    | IdcArrow | IdcSizeAll | IdcNo | IdcHelp | IdcWait | IdcIBeam | IdcCross
    | IdcSizeNS | IdcSizeWE | IdcUpArrow | IdcSizeNWSE | IdcSizeNESW | IdcHand

  /** A system cursor handle; 0 is the null handle. */
  type CursorHandle = nat

  const NULL_CURSOR: CursorHandle := 0

  /** The system cursor an engine cursor is loaded from; none for "no cursor" and for "inherit". */
  function SystemCursorFor(c: MouseCursor): (r: Option<SystemCursor>)
    ensures r.None? <==> c == NoCursor || c == InheritCursor
  {
    match c
    case NoCursor => None
    case RightArrowCursor => Some(IdcArrow)
    case LeftArrowCursor => Some(IdcArrow)
    case InfoCursor => Some(IdcSizeAll)
    case DestroyCursor => Some(IdcNo)
    case HelpCursor => Some(IdcHelp)
    case CycleCursor => Some(IdcNo)
    case SprayCursor => Some(IdcSizeAll)
    case WaitCursor => Some(IdcWait)
    case TextCursor => Some(IdcIBeam)
    case CrosshairCursor => Some(IdcCross)
    case UpDownCursor => Some(IdcSizeNS)
    case LeftRightCursor => Some(IdcSizeWE)
    case TopSideCursor => Some(IdcUpArrow)
    case BottomSideCursor => Some(IdcUpArrow)
    case LeftSideCursor => Some(IdcSizeWE)
    case RightSideCursor => Some(IdcSizeWE)
    case TopLeftCorner => Some(IdcSizeNWSE)
    case TopRightCorner => Some(IdcSizeNESW)
    case BottomRightCorner => Some(IdcSizeNWSE)
    case BottomLeftCorner => Some(IdcSizeNESW)
    case HandCursor => Some(IdcHand)
    case InheritCursor => None
  }

  /** The handle a direct load gives for an engine cursor: the system cursor's handle, or null. */
  function DirectHandle(c: MouseCursor, loadCursor: SystemCursor -> CursorHandle): CursorHandle
  {
    match SystemCursorFor(c)
    case None => NULL_CURSOR
    case Some(idc) => loadCursor(idc)
  }

  /** Opposite borders share a cursor, as do opposite corners. */
  lemma BorderCursorsShared(loadCursor: SystemCursor -> CursorHandle)
    ensures DirectHandle(TopLeftCorner, loadCursor) == DirectHandle(BottomRightCorner, loadCursor)
    ensures DirectHandle(TopRightCorner, loadCursor) == DirectHandle(BottomLeftCorner, loadCursor)
    ensures DirectHandle(LeftSideCursor, loadCursor) == DirectHandle(RightSideCursor, loadCursor)
    ensures DirectHandle(NoCursor, loadCursor) == NULL_CURSOR && DirectHandle(InheritCursor, loadCursor) == NULL_CURSOR
  {
  }

  // ---------------------------------------------------------------------------
  // Hit testing of the non-client area
  // ---------------------------------------------------------------------------

  const HTCAPTION := 2
  const HTSYSMENU := 3
  const HTGROWBOX := 4
  const HTMINBUTTON := 8
  const HTMAXBUTTON := 9
  const HTLEFT := 10
  const HTRIGHT := 11
  const HTTOP := 12
  const HTTOPLEFT := 13
  const HTTOPRIGHT := 14
  const HTBOTTOM := 15
  const HTBOTTOMLEFT := 16
  const HTBOTTOMRIGHT := 17
  const HTCLOSE := 20
  const HTHELP := 21

  /** The hit-test results that name a sizing border or corner. */
  predicate IsSizingArea(hit: int)
  {
    hit == HTLEFT || hit == HTRIGHT || hit == HTTOP || hit == HTBOTTOM || hit == HTTOPLEFT
    || hit == HTTOPRIGHT || hit == HTBOTTOMLEFT || hit == HTBOTTOMRIGHT || hit == HTGROWBOX
  }

  /** The hit-test results that name the title bar or one of its buttons. */
  predicate IsCaptionArea(hit: int)
  {
    hit == HTSYSMENU || hit == HTCAPTION || hit == HTMAXBUTTON || hit == HTMINBUTTON
    || hit == HTCLOSE || hit == HTHELP
  }

  /**
    The cursor `WM_NCHITTEST` asks for, given the hit-test result: a sizing
    cursor over a border, the arrow over the title bar, elsewhere the
    application's cursor when cursors are in use and it is not "inherit";
    None when nothing is to be set.
  */
  function HitTestCursor(hit: int, useCursor: bool, appMouseCursor: MouseCursor): (r: Option<MouseCursor>)
    ensures r.Some? ==> r.value != InheritCursor
    ensures IsCaptionArea(hit) ==> r == Some(LeftArrowCursor)
    ensures !IsSizingArea(hit) && !IsCaptionArea(hit) ==>
              r == (if useCursor && appMouseCursor != InheritCursor then Some(appMouseCursor) else None)
    ensures IsSizingArea(hit) ==> r.Some? && SystemCursorFor(r.value).Some?
    ensures hit == HTLEFT || hit == HTRIGHT ==> r == Some(LeftRightCursor)
    ensures hit == HTTOP || hit == HTBOTTOM ==> r == Some(UpDownCursor)
    ensures hit == HTTOPLEFT ==> r == Some(TopLeftCorner)
    ensures hit == HTTOPRIGHT ==> r == Some(TopRightCorner)
    ensures hit == HTBOTTOMLEFT ==> r == Some(BottomLeftCorner)
    ensures hit == HTBOTTOMRIGHT || hit == HTGROWBOX ==> r == Some(BottomRightCorner)
  {
    if hit == HTLEFT || hit == HTRIGHT then Some(LeftRightCursor)
    else if hit == HTTOP || hit == HTBOTTOM then Some(UpDownCursor)
    else if hit == HTTOPLEFT then Some(TopLeftCorner)
    else if hit == HTTOPRIGHT then Some(TopRightCorner)
    else if hit == HTBOTTOMLEFT then Some(BottomLeftCorner)
    else if hit == HTBOTTOMRIGHT || hit == HTGROWBOX then Some(BottomRightCorner)
    else if IsCaptionArea(hit) then Some(LeftArrowCursor)
    else if useCursor && appMouseCursor != InheritCursor then Some(appMouseCursor)
    else None
  }

  // ---------------------------------------------------------------------------
  // The window's cursor state
  // ---------------------------------------------------------------------------

  /** The cursor fields of a window. */
  class WindowCursor {
    const loadCursor: SystemCursor -> CursorHandle
    var mouseCursorMap: map<MouseCursor, CursorHandle>
    var mouseCursor: MouseCursor
    var appMouseCursor: MouseCursor
    var currentCursor: CursorHandle
    var useCursor: bool
    var postedSetCursor: nat

    /**
      The memo agrees with a direct load for every cursor it holds, and the
      handle in effect is the one of the cursor in effect.
    */
    ghost predicate Valid()
      reads this
    {
      MemoValid() && currentCursor == DirectHandle(mouseCursor, loadCursor)
    }

    /** The memo agrees with a direct load for every cursor it holds. */
    ghost predicate MemoValid()
      reads this
    {
      forall c :: c in mouseCursorMap ==> mouseCursorMap[c] == DirectHandle(c, loadCursor)
    }

    /** The constructor: "inherit" in effect, the left arrow for the application, then the initial cursor set. */
    constructor (useCursorTrait: bool, loadCursor: SystemCursor -> CursorHandle)
      ensures Valid()
      ensures this.loadCursor == loadCursor
      ensures appMouseCursor == (if useCursorTrait then LeftArrowCursor else NoCursor)
      ensures mouseCursor == appMouseCursor
      ensures useCursor == useCursorTrait
    {
      this.loadCursor := loadCursor;
      mouseCursorMap := map[];
      mouseCursor := InheritCursor;
      appMouseCursor := LeftArrowCursor;
      currentCursor := NULL_CURSOR;
      useCursor := useCursorTrait;
      postedSetCursor := 0;
      new;
      if useCursorTrait {
        SetCursor(LeftArrowCursor);
      } else {
        SetCursor(NoCursor);
      }
    }

    /**
      `getOrCreateCursor`: the memoised handle. A cursor seen before is
      answered from the memo; otherwise its handle is loaded and recorded
      (null for "no cursor", and for "inherit", which the final map lookup
      records as null).
    */
    method GetOrCreateCursor(c: MouseCursor) returns (h: CursorHandle)
      requires MemoValid()
      modifies this
      ensures MemoValid()
      ensures h == DirectHandle(c, loadCursor)
      ensures c in old(mouseCursorMap) ==> mouseCursorMap == old(mouseCursorMap)
      ensures c !in old(mouseCursorMap) ==> mouseCursorMap == old(mouseCursorMap)[c := h]
      ensures mouseCursor == old(mouseCursor) && appMouseCursor == old(appMouseCursor)
      ensures currentCursor == old(currentCursor) && useCursor == old(useCursor)
      ensures postedSetCursor == old(postedSetCursor)
    {
      if c in mouseCursorMap {
        return mouseCursorMap[c];
      }
      var idc := SystemCursorFor(c);
      if idc.Some? {
        mouseCursorMap := mouseCursorMap[c := loadCursor(idc.value)];
      } else if c == NoCursor {
        mouseCursorMap := mouseCursorMap[c := NULL_CURSOR];
      }
      if c !in mouseCursorMap {
        mouseCursorMap := mouseCursorMap[c := NULL_CURSOR];
      }
      h := mouseCursorMap[c];
    }

    /**
      `setCursorImpl`: nothing happens when the cursor is already in effect.
      Otherwise the cursor takes effect; when its handle differs from the
      handle in effect, the handle is replaced, cursor use is turned on exactly
      for a non-null handle of a cursor other than "no cursor", and a
      `WM_SETCURSOR` is posted.
    */
    method SetCursorImpl(c: MouseCursor)
      requires Valid()
      modifies this
      ensures Valid()
      ensures old(mouseCursor) == c ==>
                mouseCursorMap == old(mouseCursorMap) && currentCursor == old(currentCursor)
                && useCursor == old(useCursor) && postedSetCursor == old(postedSetCursor)
      ensures mouseCursor == c && appMouseCursor == old(appMouseCursor)
      ensures old(mouseCursorMap).Keys <= mouseCursorMap.Keys
      ensures currentCursor == DirectHandle(c, loadCursor)
      ensures old(mouseCursor) != c && currentCursor != old(currentCursor) ==>
                useCursor == (currentCursor != NULL_CURSOR && c != NoCursor)
                && postedSetCursor == old(postedSetCursor) + 1
      ensures currentCursor == old(currentCursor) ==>
                useCursor == old(useCursor) && postedSetCursor == old(postedSetCursor)
    {
      if mouseCursor != c {
        mouseCursor := c;
        var newCursor := GetOrCreateCursor(c);
        if newCursor == currentCursor {
          return;
        }
        currentCursor := newCursor;
        useCursor := currentCursor != NULL_CURSOR && mouseCursor != NoCursor;
        postedSetCursor := postedSetCursor + 1;
      }
    }

    /** `setCursor`: remember the application's cursor and put it into effect. */
    method SetCursor(c: MouseCursor)
      requires Valid()
      modifies this
      ensures Valid()
      ensures appMouseCursor == c && mouseCursor == c
      ensures currentCursor == DirectHandle(c, loadCursor)
      ensures old(mouseCursorMap).Keys <= mouseCursorMap.Keys
      ensures currentCursor != old(currentCursor) ==>
                useCursor == (currentCursor != NULL_CURSOR && c != NoCursor)
                && postedSetCursor == old(postedSetCursor) + 1
      ensures currentCursor == old(currentCursor) ==>
                useCursor == old(useCursor) && postedSetCursor == old(postedSetCursor)
    {
      appMouseCursor := c;
      SetCursorImpl(c);
    }

    /**
      `useCursor`: record the choice, then put the application's cursor into
      effect when turning cursors on, or "no cursor" when turning them off.
      The application's cursor is kept either way.
    */
    method UseCursor(cursorOn: bool)
      requires Valid()
      modifies this
      ensures Valid()
      ensures appMouseCursor == old(appMouseCursor)
      ensures mouseCursor == (if cursorOn then appMouseCursor else NoCursor)
      ensures !cursorOn ==> currentCursor == NULL_CURSOR
      ensures currentCursor == DirectHandle(mouseCursor, loadCursor)
      ensures old(mouseCursorMap).Keys <= mouseCursorMap.Keys
      ensures currentCursor != old(currentCursor) ==>
                useCursor == (currentCursor != NULL_CURSOR && mouseCursor != NoCursor)
                && postedSetCursor == old(postedSetCursor) + 1
      ensures currentCursor == old(currentCursor) ==>
                useCursor == cursorOn && postedSetCursor == old(postedSetCursor)
    {
      useCursor := cursorOn;
      SetCursorImpl(if cursorOn then appMouseCursor else NoCursor);
    }

    /** The cursor part of `WM_NCHITTEST`: set the cursor the hit-test result asks for, if any. */
    method NonClientHitTest(hit: int)
      requires Valid()
      modifies this
      ensures Valid()
      ensures appMouseCursor == old(appMouseCursor)
      ensures HitTestCursor(hit, old(useCursor), appMouseCursor).Some? ==>
                && mouseCursor == HitTestCursor(hit, old(useCursor), appMouseCursor).value
                && currentCursor == DirectHandle(mouseCursor, loadCursor)
                && old(mouseCursorMap).Keys <= mouseCursorMap.Keys
                && (currentCursor != old(currentCursor) ==>
                      useCursor == (currentCursor != NULL_CURSOR && mouseCursor != NoCursor)
                      && postedSetCursor == old(postedSetCursor) + 1)
                && (currentCursor == old(currentCursor) ==>
                      useCursor == old(useCursor) && postedSetCursor == old(postedSetCursor))
      ensures HitTestCursor(hit, old(useCursor), appMouseCursor).None? ==>
                && mouseCursor == old(mouseCursor) && currentCursor == old(currentCursor)
                && mouseCursorMap == old(mouseCursorMap) && useCursor == old(useCursor)
                && postedSetCursor == old(postedSetCursor)
    {
      var c := HitTestCursor(hit, useCursor, appMouseCursor);
      if c.Some? {
        SetCursorImpl(c.value);
      }
    }

    /**
      `WM_SETCURSOR`: unless "inherit" is in effect, the message is handled and
      the cursor shown is the handle in effect, or none when cursors are off.
      An unhandled message goes on to the default handling.
    */
    method SetCursorMessage() returns (handled: bool, shown: CursorHandle)
      requires Valid()
      ensures handled <==> mouseCursor != InheritCursor
      ensures handled && useCursor ==> shown == DirectHandle(mouseCursor, loadCursor)
      ensures handled && !useCursor ==> shown == NULL_CURSOR
      ensures !handled ==> shown == NULL_CURSOR
    {
      if mouseCursor != InheritCursor {
        handled := true;
        shown := if useCursor then currentCursor else NULL_CURSOR;
      } else {
        handled := false;
        shown := NULL_CURSOR;
      }
    }
  }
}
