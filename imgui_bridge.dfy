/**
  The ImGui event handler: the translation of engine keys to ImGui keys, the
  choice of geode by frame parity, and the event dispatch of `handle` with
  its return value (whether ImGui takes the event).

  ImGui itself is opaque: the calls the handler makes into it, and the calls
  it makes on the viewer, are recorded as a sequence of actions. The two
  "want capture" flags are read from ImGui before dispatch and are inputs,
  as is the viewer's frame number. Pointer coordinates, the y flip and wheel
  deltas are floating point and are not modelled.
*/
module ImGuiBridge {
  import opened Common
  import opened Win32Keyboard
  import opened ImGuiDrawables

  // ---------------------------------------------------------------------------
  // ConvertFromOSGKey
  // ---------------------------------------------------------------------------

  /** The ImGui keys the handler produces. */
  datatype ImGuiKey =
    | NoKey | Tab | LeftArrow | RightArrow | UpArrow | DownArrow | PageUp | PageDown
    | Home | End | Delete | Backspace | Enter | Escape

  /** `ConvertFromOSGKey`: thirteen engine keys have an ImGui key; every other key has none. */
  function ConvertFromOSGKey(key: int): ImGuiKey
  {
    if key == KEY_Tab then Tab
    else if key == KEY_Left then LeftArrow
    else if key == KEY_Right then RightArrow
    else if key == KEY_Up then UpArrow
    else if key == KEY_Down then DownArrow
    else if key == KEY_Page_Up then PageUp
    else if key == KEY_Page_Down then PageDown
    else if key == KEY_Home then Home
    else if key == KEY_End then End
    else if key == KEY_Delete then Delete
    else if key == KEY_BackSpace then Backspace
    else if key == KEY_Return then Enter
    else if key == KEY_Escape then Escape
    else NoKey
  }

  /** The engine key an ImGui key comes from: the inverse table. */
  function OSGKeyOf(k: ImGuiKey): Option<int>
  {
    match k
    case NoKey => None
    case Tab => Some(KEY_Tab)
    case LeftArrow => Some(KEY_Left)
    case RightArrow => Some(KEY_Right)
    case UpArrow => Some(KEY_Up)
    case DownArrow => Some(KEY_Down)
    case PageUp => Some(KEY_Page_Up)
    case PageDown => Some(KEY_Page_Down)
    case Home => Some(KEY_Home)
    case End => Some(KEY_End)
    case Delete => Some(KEY_Delete)
    case Backspace => Some(KEY_BackSpace)
    case Enter => Some(KEY_Return)
    case Escape => Some(KEY_Escape)
  }

  /** The thirteen engine keys ImGui is told about. */
  predicate IsImGuiKey(key: int)
  {
    key == KEY_Tab || key == KEY_Left || key == KEY_Right || key == KEY_Up || key == KEY_Down
    || key == KEY_Page_Up || key == KEY_Page_Down || key == KEY_Home || key == KEY_End
    || key == KEY_Delete || key == KEY_BackSpace || key == KEY_Return || key == KEY_Escape
  }

  /** A key has an ImGui key exactly when it is one of the thirteen, and then the inverse table gives it back. */
  lemma ConvertFromOSGKeyExact(key: int)
    ensures ConvertFromOSGKey(key) != NoKey <==> IsImGuiKey(key)
    ensures ConvertFromOSGKey(key) != NoKey ==> OSGKeyOf(ConvertFromOSGKey(key)) == Some(key)
  {
  }

  /** Every ImGui key other than "none" is reached, from the key the inverse table names. */
  lemma ConvertFromOSGKeyOnto(k: ImGuiKey)
    ensures k != NoKey ==> OSGKeyOf(k).Some? && ConvertFromOSGKey(OSGKeyOf(k).value) == k
    ensures k == NoKey <==> OSGKeyOf(k).None?
  {
  }

  // ---------------------------------------------------------------------------
  // getUiGroup
  // ---------------------------------------------------------------------------

  /** The geode a frame draws into: frame number modulo 2. */
  function UiGroupIndex(frm: uint32): (index: nat)
    ensures index < 2
  {
    frm % 2
  }

  /** Consecutive frame numbers, including the step that wraps around at 2^32, use different geodes. */
  lemma ConsecutiveFramesAlternate(frm: uint32)
    ensures UiGroupIndex(((frm + 1) % TWO_TO_THE_32) as uint32) != UiGroupIndex(frm)
  {
  }

  // ---------------------------------------------------------------------------
  // handle
  // ---------------------------------------------------------------------------

  /** The engine's event types; `OtherEvent` stands for every type the handler does not list. */
  datatype EventType =
    | KeyDownEvent | KeyUpEvent | CharEvent | ReleaseEvent | PushEvent | DoubleClickEvent
    | DragEvent | MoveEvent | ScrollEvent | FrameEvent | ResizeEvent | CloseWindowEvent | OtherEvent

  /** The parts of an engine event the handler reads. */
  datatype GuiEvent = GuiEvent(eventType: EventType, key: int, modKeyMask: bv32,
                               button: bv32, buttonMask: bv32,
                               windowWidth: int, windowHeight: int, scrollUp: bool)

  const LEFT_MOUSE_BUTTON: bv32 := 1
  const MIDDLE_MOUSE_BUTTON: bv32 := 2
  const RIGHT_MOUSE_BUTTON: bv32 := 4

  const MODKEY_CTRL: bv32 := 0x000C
  const MODKEY_SHIFT: bv32 := 0x0003
  const MODKEY_ALT: bv32 := 0x0030
  const MODKEY_SUPER: bv32 := 0x0300

  /** ImGui's mouse button numbers. */
  const IMGUI_LEFT := 0
  const IMGUI_RIGHT := 1
  const IMGUI_MIDDLE := 2

  /** The calls the handler makes into ImGui and on the viewer, in order. */
  datatype Action =
    | ResizeViewport
    | AttachCamera
    | InstallRenderCallback
    | AddKeyEvent(key: ImGuiKey, down: bool)
    | AddInputCharacter(code: int)
    | SetMousePos
    | AddMouseButtonEvent(button: int, down: bool)
    | AddMousePosEvent
    | AddMouseWheelEvent(up: bool)
    | AddUpdateOperations
    | SetCurrentContext

  /** The ImGui input fields the handler writes. */
  datatype IoState = IoState(keyCtrl: bool, keyShift: bool, keyAlt: bool, keySuper: bool,
                             displayWidth: int, displayHeight: int,
                             doubleClicked: (bool, bool, bool))

  /** The handler's own fields, and the ImGui input fields. */
  datatype HandlerState = HandlerState(initialized: bool, width: int, height: int, frameNum: uint32, io: IoState)

  /** What one call of `handle` produces: the new state, the answer, and the calls made. */
  datatype HandleResult = HandleResult(state: HandlerState, handled: bool, actions: seq<Action>)

  /** True when the mask has the bit. */
  predicate HasBit(mask: bv32, bit: bv32)
  {
    mask & bit != 0
  }

  /** The first-event set-up: record the window size, size the viewport, attach the camera and its draw callback. */
  function InitStep(s: HandlerState, ev: GuiEvent): (r: (HandlerState, seq<Action>))
    ensures r.0.initialized
    ensures s.initialized ==> r == (s, [])
  {
    if s.initialized then (s, [])
    else (s.(initialized := true, width := ev.windowWidth, height := ev.windowHeight),
          [ResizeViewport, AttachCamera, InstallRenderCallback])
  }

  /** A release for every button bit present: left, then right, then middle. */
  function ReleaseActions(button: bv32): seq<Action>
  {
    (if HasBit(button, LEFT_MOUSE_BUTTON) then [AddMouseButtonEvent(IMGUI_LEFT, false)] else [])
    + (if HasBit(button, RIGHT_MOUSE_BUTTON) then [AddMouseButtonEvent(IMGUI_RIGHT, false)] else [])
    + (if HasBit(button, MIDDLE_MOUSE_BUTTON) then [AddMouseButtonEvent(IMGUI_MIDDLE, false)] else [])
  }

  /** At most one press: left before right before middle. */
  function PushActions(buttonMask: bv32): seq<Action>
  {
    if HasBit(buttonMask, LEFT_MOUSE_BUTTON) then [AddMouseButtonEvent(IMGUI_LEFT, true)]
    else if HasBit(buttonMask, RIGHT_MOUSE_BUTTON) then [AddMouseButtonEvent(IMGUI_RIGHT, true)]
    else if HasBit(buttonMask, MIDDLE_MOUSE_BUTTON) then [AddMouseButtonEvent(IMGUI_MIDDLE, true)]
    else []
  }

  /** The character ImGui receives: the key code cut to 16 bits. */
  function Utf16Unit(key: int): (code: int)
    ensures 0 <= code < 0x1_0000
    ensures 0 <= key < 0x1_0000 ==> code == key
  {
    key % 0x1_0000
  }

  /**
    The dispatch on the event type, after set-up. Key events update the
    modifier flags, pass the key on and answer whether ImGui wants the
    keyboard; a character is passed on and then handled as a button release
    (the source has no `break` between the two); mouse events answer whether
    ImGui wants the mouse; frame, resize, close and all other events answer
    false.
  */
  function Dispatch(s: HandlerState, ev: GuiEvent, wantCaptureMouse: bool, wantCaptureKeyboard: bool,
                    viewerFrame: uint32): HandleResult
  {
    match ev.eventType
    case KeyDownEvent | KeyUpEvent =>
      var io := s.io.(keyCtrl := HasBit(ev.modKeyMask, MODKEY_CTRL), keyShift := HasBit(ev.modKeyMask, MODKEY_SHIFT),
                      keyAlt := HasBit(ev.modKeyMask, MODKEY_ALT), keySuper := HasBit(ev.modKeyMask, MODKEY_SUPER));
      HandleResult(s.(io := io), wantCaptureKeyboard,
                   [AddKeyEvent(ConvertFromOSGKey(ev.key), ev.eventType == KeyDownEvent)])
    case CharEvent =>
      HandleResult(s, wantCaptureMouse, [AddInputCharacter(Utf16Unit(ev.key)), SetMousePos] + ReleaseActions(ev.button))
    case ReleaseEvent =>
      HandleResult(s, wantCaptureMouse, [SetMousePos] + ReleaseActions(ev.button))
    case PushEvent =>
      HandleResult(s, wantCaptureMouse, [SetMousePos] + PushActions(ev.buttonMask))
    case DoubleClickEvent =>
      var clicked := (HasBit(ev.buttonMask, LEFT_MOUSE_BUTTON), HasBit(ev.buttonMask, RIGHT_MOUSE_BUTTON),
                      HasBit(ev.buttonMask, MIDDLE_MOUSE_BUTTON));
      HandleResult(s.(io := s.io.(doubleClicked := clicked)), wantCaptureMouse, [SetMousePos])
    case DragEvent | MoveEvent =>
      HandleResult(s, wantCaptureMouse, [AddMousePosEvent])
    case ScrollEvent =>
      HandleResult(s, wantCaptureMouse, [AddMouseWheelEvent(ev.scrollUp)])
    case FrameEvent =>
      var io := s.io.(displayWidth := s.width, displayHeight := s.height);
      HandleResult(s.(frameNum := viewerFrame, io := io), false, [AddUpdateOperations, SetCurrentContext])
    case ResizeEvent =>
      HandleResult(s.(width := ev.windowWidth, height := ev.windowHeight), false, [ResizeViewport])
    case CloseWindowEvent | OtherEvent =>
      HandleResult(s, false, [])
  }

  /** `handle`: set up on the first event, then dispatch. */
  function Handle(s: HandlerState, ev: GuiEvent, wantCaptureMouse: bool, wantCaptureKeyboard: bool,
                  viewerFrame: uint32): (r: HandleResult)
    ensures r.state.initialized
  {
    var (s1, init) := InitStep(s, ev);
    var d := Dispatch(s1, ev, wantCaptureMouse, wantCaptureKeyboard, viewerFrame);
    HandleResult(d.state, d.handled, init + d.actions)
  }

  /** The events that answer with ImGui's wish to capture the mouse. */
  predicate IsMouseEvent(t: EventType)
  {
    t == PushEvent || t == ReleaseEvent || t == DoubleClickEvent || t == DragEvent || t == MoveEvent
    || t == ScrollEvent || t == CharEvent
  }

  /** The answer of `handle`: the keyboard flag for key events, the mouse flag for mouse events and characters, false otherwise. */
  lemma HandleAnswer(s: HandlerState, ev: GuiEvent, wantCaptureMouse: bool, wantCaptureKeyboard: bool, viewerFrame: uint32)
    ensures var r := Handle(s, ev, wantCaptureMouse, wantCaptureKeyboard, viewerFrame);
            && (ev.eventType == KeyDownEvent || ev.eventType == KeyUpEvent ==> r.handled == wantCaptureKeyboard)
            && (IsMouseEvent(ev.eventType) ==> r.handled == wantCaptureMouse)
            && ((ev.eventType == FrameEvent || ev.eventType == ResizeEvent || ev.eventType == CloseWindowEvent
                 || ev.eventType == OtherEvent) ==> !r.handled)
  {
  }

  /** A character event does what a release event does, after passing the character on. */
  lemma CharFallsThroughToRelease(s: HandlerState, ev: GuiEvent, wantCaptureMouse: bool, wantCaptureKeyboard: bool,
                                  viewerFrame: uint32)
    requires ev.eventType == CharEvent
    ensures var asChar := Dispatch(s, ev, wantCaptureMouse, wantCaptureKeyboard, viewerFrame);
            var asRelease := Dispatch(s, ev.(eventType := ReleaseEvent), wantCaptureMouse, wantCaptureKeyboard, viewerFrame);
            asChar.state == asRelease.state && asChar.handled == asRelease.handled
            && asChar.actions == [AddInputCharacter(Utf16Unit(ev.key))] + asRelease.actions
  {
  }

  /** The mouse-button presses among a list of actions. */
  function Presses(actions: seq<Action>): seq<int>
  {
    if actions == [] then []
    else (if actions[0].AddMouseButtonEvent? && actions[0].down then [actions[0].button] else [])
         + Presses(actions[1..])
  }

  /** The mouse-button releases among a list of actions. */
  function Releases(actions: seq<Action>): seq<int>
  {
    if actions == [] then []
    else (if actions[0].AddMouseButtonEvent? && !actions[0].down then [actions[0].button] else [])
         + Releases(actions[1..])
  }

  /** Presses and releases of a concatenation are those of its parts. */
  lemma {:induction false} ButtonEventsConcat(a: seq<Action>, b: seq<Action>)
    ensures Presses(a + b) == Presses(a) + Presses(b)
    ensures Releases(a + b) == Releases(a) + Releases(b)
  {
    if a == [] {
      assert a + b == b;
    } else {
      assert (a + b)[1..] == a[1..] + b;
      ButtonEventsConcat(a[1..], b);
    }
  }

  /** The presses and releases of a single action. */
  lemma ButtonEventsSingle(a: Action)
    ensures Presses([a]) == (if a.AddMouseButtonEvent? && a.down then [a.button] else [])
    ensures Releases([a]) == (if a.AddMouseButtonEvent? && !a.down then [a.button] else [])
  {
    assert [a][1..] == [];
  }

  /** The one-time set-up presses and releases no button. */
  lemma InitStepNoButtons(s: HandlerState, ev: GuiEvent)
    ensures Presses(InitStep(s, ev).1) == [] && Releases(InitStep(s, ev).1) == []
  {
    if !s.initialized {
      var init := InitStep(s, ev).1;
      assert init[1..] == [AttachCamera, InstallRenderCallback];
      assert init[1..][1..] == [InstallRenderCallback];
      assert init[1..][1..][1..] == [];
    }
  }

  /** A push registers at most one press, of the highest-priority button held: left, then right, then middle. */
  lemma PushPressesOneButton(s: HandlerState, ev: GuiEvent, wantCaptureMouse: bool, wantCaptureKeyboard: bool,
                             viewerFrame: uint32)
    requires ev.eventType == PushEvent
    ensures var presses := Presses(Handle(s, ev, wantCaptureMouse, wantCaptureKeyboard, viewerFrame).actions);
            && |presses| <= 1
            && (HasBit(ev.buttonMask, LEFT_MOUSE_BUTTON) ==> presses == [IMGUI_LEFT])
            && (!HasBit(ev.buttonMask, LEFT_MOUSE_BUTTON) && HasBit(ev.buttonMask, RIGHT_MOUSE_BUTTON) ==> presses == [IMGUI_RIGHT])
            && (!HasBit(ev.buttonMask, LEFT_MOUSE_BUTTON) && !HasBit(ev.buttonMask, RIGHT_MOUSE_BUTTON)
                ==> presses == (if HasBit(ev.buttonMask, MIDDLE_MOUSE_BUTTON) then [IMGUI_MIDDLE] else []))
            && Releases(Handle(s, ev, wantCaptureMouse, wantCaptureKeyboard, viewerFrame).actions) == []
  {
    var actions := Handle(s, ev, wantCaptureMouse, wantCaptureKeyboard, viewerFrame).actions;
    var init := InitStep(s, ev).1;
    assert actions == init + ([SetMousePos] + PushActions(ev.buttonMask));
    InitStepNoButtons(s, ev);
    ButtonEventsConcat(init, [SetMousePos] + PushActions(ev.buttonMask));
    ButtonEventsConcat([SetMousePos], PushActions(ev.buttonMask));
  }

  /** A release issues one release per button bit present, left then right then middle, and no press. */
  lemma ReleaseReleasesEveryButton(s: HandlerState, ev: GuiEvent, wantCaptureMouse: bool, wantCaptureKeyboard: bool,
                                   viewerFrame: uint32)
    requires ev.eventType == ReleaseEvent
    ensures var actions := Handle(s, ev, wantCaptureMouse, wantCaptureKeyboard, viewerFrame).actions;
            && Releases(actions) ==
                 (if HasBit(ev.button, LEFT_MOUSE_BUTTON) then [IMGUI_LEFT] else [])
                 + (if HasBit(ev.button, RIGHT_MOUSE_BUTTON) then [IMGUI_RIGHT] else [])
                 + (if HasBit(ev.button, MIDDLE_MOUSE_BUTTON) then [IMGUI_MIDDLE] else [])
            && Presses(actions) == []
  {
    var l: seq<Action> := if HasBit(ev.button, LEFT_MOUSE_BUTTON) then [AddMouseButtonEvent(IMGUI_LEFT, false)] else [];
    var r: seq<Action> := if HasBit(ev.button, RIGHT_MOUSE_BUTTON) then [AddMouseButtonEvent(IMGUI_RIGHT, false)] else [];
    var m: seq<Action> := if HasBit(ev.button, MIDDLE_MOUSE_BUTTON) then [AddMouseButtonEvent(IMGUI_MIDDLE, false)] else [];
    var init := InitStep(s, ev).1;
    assert Handle(s, ev, wantCaptureMouse, wantCaptureKeyboard, viewerFrame).actions == init + ([SetMousePos] + (l + r + m));
    InitStepNoButtons(s, ev);
    ButtonEventsConcat(init, [SetMousePos] + (l + r + m));
    ButtonEventsConcat([SetMousePos], l + r + m);
    ButtonEventsConcat(l + r, m);
    ButtonEventsConcat(l, r);
    ButtonEventsSingle(SetMousePos);
    ButtonEventsSingle(AddMouseButtonEvent(IMGUI_LEFT, false));
    ButtonEventsSingle(AddMouseButtonEvent(IMGUI_RIGHT, false));
    ButtonEventsSingle(AddMouseButtonEvent(IMGUI_MIDDLE, false));
  }

  /**
    A frame event records the viewer's frame number and hands the stored
    window size to ImGui; when it is the handler's first event, the size
    stored is the one the event reports.
  */
  lemma FrameRecordsFrameNumber(s: HandlerState, ev: GuiEvent, wantCaptureMouse: bool, wantCaptureKeyboard: bool,
                                viewerFrame: uint32)
    requires ev.eventType == FrameEvent
    ensures var r := Handle(s, ev, wantCaptureMouse, wantCaptureKeyboard, viewerFrame);
            && r.state.frameNum == viewerFrame
            && r.state.io.displayWidth == r.state.width && r.state.io.displayHeight == r.state.height
            && (!s.initialized ==> r.state.width == ev.windowWidth && r.state.height == ev.windowHeight)
            && (s.initialized ==> r.state.width == s.width && r.state.height == s.height)
  {
  }

  /** `handle` applied to a sequence of events, with the inputs each call reads. */
  datatype HandleCall = HandleCall(ev: GuiEvent, wantCaptureMouse: bool, wantCaptureKeyboard: bool, viewerFrame: uint32)

  /** The state after a sequence of calls, and all calls made into ImGui and the viewer. */
  function HandleAll(s: HandlerState, calls: seq<HandleCall>): (HandlerState, seq<Action>)
    decreases |calls|
  {
    if calls == [] then (s, [])
    else
      var c := calls[0];
      var r := Handle(s, c.ev, c.wantCaptureMouse, c.wantCaptureKeyboard, c.viewerFrame);
      var rest := HandleAll(r.state, calls[1..]);
      (rest.0, r.actions + rest.1)
  }

  /** How many times the draw callback is installed among the actions. */
  function CallbackInstalls(actions: seq<Action>): nat
  {
    multiset(actions)[InstallRenderCallback]
  }

  /** Dispatch never installs the draw callback; only set-up does. */
  lemma DispatchNeverInstalls(s: HandlerState, ev: GuiEvent, wantCaptureMouse: bool, wantCaptureKeyboard: bool,
                              viewerFrame: uint32)
    ensures InstallRenderCallback !in Dispatch(s, ev, wantCaptureMouse, wantCaptureKeyboard, viewerFrame).actions
  {
  }

  /** One call installs the draw callback exactly when the handler was not yet set up. */
  lemma HandleInstallsOnlyFirst(s: HandlerState, c: HandleCall)
    ensures CallbackInstalls(Handle(s, c.ev, c.wantCaptureMouse, c.wantCaptureKeyboard, c.viewerFrame).actions)
            == (if s.initialized then 0 else 1)
  {
    var init := InitStep(s, c.ev);
    var d := Dispatch(init.0, c.ev, c.wantCaptureMouse, c.wantCaptureKeyboard, c.viewerFrame);
    DispatchNeverInstalls(init.0, c.ev, c.wantCaptureMouse, c.wantCaptureKeyboard, c.viewerFrame);
    assert Handle(s, c.ev, c.wantCaptureMouse, c.wantCaptureKeyboard, c.viewerFrame).actions == init.1 + d.actions;
    assert multiset(init.1 + d.actions) == multiset(init.1) + multiset(d.actions);
  }

  /**
    Set-up happens exactly once: after any nonempty sequence of events the
    handler is set up, and the draw callback has been installed once if the
    handler started out not set up, never otherwise.
  */
  lemma {:induction false} InitialisedExactlyOnce(s: HandlerState, calls: seq<HandleCall>)
    ensures calls != [] ==> HandleAll(s, calls).0.initialized
    ensures s.initialized ==> HandleAll(s, calls).0.initialized
    ensures CallbackInstalls(HandleAll(s, calls).1) == (if s.initialized || calls == [] then 0 else 1)
    decreases |calls|
  {
    if calls != [] {
      var c := calls[0];
      var r := Handle(s, c.ev, c.wantCaptureMouse, c.wantCaptureKeyboard, c.viewerFrame);
      InitialisedExactlyOnce(r.state, calls[1..]);
      HandleInstallsOnlyFirst(s, c);
    }
  }

  // ---------------------------------------------------------------------------
  // The handler object
  // ---------------------------------------------------------------------------

  /** The handler: its fields, the ImGui input fields it writes, and the two geodes it draws into. */
  class ImGuiHandler {
    var initialized: bool
    var width: int
    var height: int
    var frameNum: uint32
    var io: IoState
    var actions: seq<Action>
    const geodes: seq<Geode>

    /** Two distinct geodes, each holding distinct drawables, and no drawable held by both. */
    ghost predicate Valid()
      reads this, geodes
    {
      && |geodes| == 2 && geodes[0] != geodes[1] && geodes[0].Valid() && geodes[1].Valid()
      && forall r :: r in geodes[0].drawables ==> r !in geodes[1].drawables
    }

    /** The fields as a value. */
    function State(): HandlerState
      reads this
    {
      HandlerState(initialized, width, height, frameNum, io)
    }

    /** A new handler is not yet set up and has two empty geodes. */
    constructor ()
      ensures Valid() && !initialized && actions == []
      ensures fresh(geodes[0]) && fresh(geodes[1]) && geodes[0].drawables == [] && geodes[1].drawables == []
    {
      initialized := false;
      width, height, frameNum := 0, 0, 0;
      io := IoState(false, false, false, false, 0, 0, (false, false, false));
      actions := [];
      var g0 := new Geode();
      var g1 := new Geode();
      geodes := [g0, g1];
    }

    /** `handle`: update the fields as `Handle` says, record the calls made, answer whether ImGui takes the event. */
    method HandleEvent(ev: GuiEvent, wantCaptureMouse: bool, wantCaptureKeyboard: bool, viewerFrame: uint32)
      returns (handled: bool)
      modifies this
      ensures State() == Handle(old(State()), ev, wantCaptureMouse, wantCaptureKeyboard, viewerFrame).state
      ensures handled == Handle(old(State()), ev, wantCaptureMouse, wantCaptureKeyboard, viewerFrame).handled
      ensures actions == old(actions) + Handle(old(State()), ev, wantCaptureMouse, wantCaptureKeyboard, viewerFrame).actions
      ensures initialized
      ensures old(Valid()) ==> Valid()
    {
      var r := Handle(State(), ev, wantCaptureMouse, wantCaptureKeyboard, viewerFrame);
      initialized, width, height, frameNum, io := r.state.initialized, r.state.width, r.state.height, r.state.frameNum, r.state.io;
      actions := actions + r.actions;
      handled := r.handled;
    }

    /** `getUiGroup`: the geode for a frame number, by parity. */
    method GetUiGroup(frm: uint32) returns (g: Geode)
      requires Valid()
      ensures g == geodes[UiGroupIndex(frm)]
      ensures g != geodes[1 - UiGroupIndex(frm)]
    {
      g := geodes[frm % 2];
    }

    /**
      `setRenderData` on the geode of the stored frame number, as
      `ImGuiDrawables.SetRenderData` describes it. The other geode, which the
      previous frame may still be drawing, and its drawables are not touched.
    */
    method SetRenderData(lists: seq<DrawList>, fbWidth: int, fbHeight: int)
      requires Valid()
      modifies geodes[UiGroupIndex(frameNum)], geodes[UiGroupIndex(frameNum)].drawables
      ensures Valid()
      ensures var g := geodes[UiGroupIndex(frameNum)];
              fbWidth == 0 || fbHeight == 0 ==>
                g.drawables == old(g.drawables)
                && forall i :: 0 <= i < |g.drawables| ==>
                     g.drawables[i].nodeMask == old(g.drawables[i].nodeMask)
                     && g.drawables[i].vertices == old(g.drawables[i].vertices)
                     && g.drawables[i].indices == old(g.drawables[i].indices)
                     && g.drawables[i].pris == old(g.drawables[i].pris)
      ensures var g := geodes[UiGroupIndex(frameNum)];
              fbWidth != 0 && fbHeight != 0 ==>
                && |g.drawables| == (if |old(g.drawables)| < |lists| then |lists| else |old(g.drawables)|)
                && g.drawables[..|old(g.drawables)|] == old(g.drawables)
                && (forall i :: 0 <= i < |lists| ==> g.drawables[i].Holds(lists[i]))
                && (forall i :: |lists| <= i < |g.drawables| ==>
                      g.drawables[i].nodeMask == MASK_OFF
                      && g.drawables[i].vertices == old(g.drawables[i].vertices)
                      && g.drawables[i].indices == old(g.drawables[i].indices)
                      && g.drawables[i].pris == old(g.drawables[i].pris))
      ensures var o := geodes[1 - UiGroupIndex(frameNum)];
              o.drawables == old(o.drawables)
              && forall i :: 0 <= i < |o.drawables| ==>
                   o.drawables[i].nodeMask == old(o.drawables[i].nodeMask)
                   && o.drawables[i].vertices == old(o.drawables[i].vertices)
                   && o.drawables[i].indices == old(o.drawables[i].indices)
                   && o.drawables[i].pris == old(o.drawables[i].pris)
    {
      var grp := GetUiGroup(frameNum);
      ghost var other := geodes[1 - UiGroupIndex(frameNum)];
      ghost var before := grp.drawables;
      assert forall r :: r in other.drawables ==> r !in before;
      ImGuiDrawables.SetRenderData(grp, lists, fbWidth, fbHeight);
      assert forall i :: 0 <= i < |other.drawables| ==> other.drawables[i] !in before;
      assert forall r :: r in grp.drawables ==> r in before || fresh(r);
      assert forall r :: r in grp.drawables ==> r !in other.drawables;
    }
  }

  /** Two frame numbers draw into the same geode of a handler exactly when they have the same parity. */
  lemma SameGeodeIffSameParity(h: ImGuiHandler, a: uint32, b: uint32)
    requires h.Valid()
    ensures h.geodes[UiGroupIndex(a)] == h.geodes[UiGroupIndex(b)] <==> a % 2 == b % 2
  {
    if a % 2 != b % 2 {
      assert {UiGroupIndex(a), UiGroupIndex(b)} == {0, 1};
      assert h.geodes[0] != h.geodes[1];
    }
  }
}
