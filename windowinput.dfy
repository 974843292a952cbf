/**
  The per-window input bookkeeping of the native message handler: the set of
  mouse buttons that hold the mouse capture, the map of keys seen pressed,
  and the release of every held key when the window loses the focus.

  The event queue is modelled as the sequence of events posted to it; pointer
  coordinates and event times are left out. The system's mouse capture is
  modelled as a flag set by `SetCapture` and cleared by `ReleaseCapture`.
*/
module WindowInput {
  import opened Win32Keyboard

  /** The three mouse buttons a button message names. */
  datatype MouseButton = Left | Middle | Right

  /** The engine's number for a button: 1 left, 2 middle, 3 right. */
  function ButtonNumber(b: MouseButton): (n: int)
    ensures 1 <= n <= 3
    ensures b == Left <==> n == 1
    ensures b == Right <==> n == 3
  {
    match b
    case Left => 1
    case Middle => 2
    case Right => 3
  }

  /** A key as the key map stores it: (symbol, unmodified symbol). */
  type KeyPair = (int, int)

  /** The events the handler posts to the engine's event queue. */
  datatype Event =
    | ButtonPress(button: int)
    | ButtonRelease(button: int)
    | DoubleButtonPress(button: int)
    | KeyPress(symbol: int, unmodified: int)
    | KeyRelease(symbol: int, unmodified: int)

  /** The native messages this module handles. */
  datatype Message =
    | ButtonDown(b: MouseButton)
    | ButtonUp(b: MouseButton)
    | ButtonDoubleClick(b: MouseButton)
    | KeyDown(key: KeyInfo)
    | KeyUp(key: KeyInfo)
    | KillFocus

  /** The keys the map records as held. */
  ghost function HeldKeys(keyMap: map<KeyPair, bool>): set<KeyPair>
  {
    set k | k in keyMap && keyMap[k]
  }

  /** The release events for a sequence of keys, in order. */
  function ReleaseEvents(keys: seq<KeyPair>): (r: seq<Event>)
    ensures |r| == |keys|
    ensures forall i :: 0 <= i < |keys| ==> r[i] == KeyRelease(keys[i].0, keys[i].1)
  {
    seq(|keys|, i requires 0 <= i < |keys| => KeyRelease(keys[i].0, keys[i].1))
  }

  /** Releasing one more key appends its release event. */
  lemma ReleaseEventsSnoc(keys: seq<KeyPair>, key: KeyPair)
    ensures ReleaseEvents(keys + [key]) == ReleaseEvents(keys) + [KeyRelease(key.0, key.1)]
  {
  }

  /** The keys of a sequence with one more key appended. */
  lemma ElementsSnoc(keys: seq<KeyPair>, key: KeyPair)
    ensures (set k | k in keys + [key]) == (set k | k in keys) + {key}
  {
  }

  /** The input state of one window. */
  class WindowInputState {
    var capturedMouseButtons: set<int>
    var mouseCaptured: bool
    var keyMap: map<KeyPair, bool>
    var events: seq<Event>

    /** Only button numbers are captured, and while any is, the window holds the mouse capture. */
    ghost predicate Valid()
      reads this
    {
      (forall b :: b in capturedMouseButtons ==> 1 <= b <= 3) &&
      (capturedMouseButtons != {} ==> mouseCaptured)
    }

    constructor ()
      ensures Valid()
      ensures capturedMouseButtons == {} && !mouseCaptured && keyMap == map[] && events == []
    {
      capturedMouseButtons := {};
      mouseCaptured := false;
      keyMap := map[];
      events := [];
    }

    /** A button-down message: take the capture, record the button, post a press. */
    method ButtonDown(b: MouseButton)
      requires Valid()
      modifies this
      ensures Valid()
      ensures mouseCaptured
      ensures capturedMouseButtons == old(capturedMouseButtons) + {ButtonNumber(b)}
      ensures keyMap == old(keyMap)
      ensures events == old(events) + [ButtonPress(ButtonNumber(b))]
    {
      mouseCaptured := true;
      var button := ButtonNumber(b);
      capturedMouseButtons := capturedMouseButtons + {button};
      events := events + [ButtonPress(button)];
    }

    /** A button-up message: forget the button, give the capture back once no button holds it, post a release. */
    method ButtonUp(b: MouseButton)
      requires Valid()
      modifies this
      ensures Valid()
      ensures capturedMouseButtons == old(capturedMouseButtons) - {ButtonNumber(b)}
      ensures mouseCaptured == (old(mouseCaptured) && capturedMouseButtons != {})
      ensures keyMap == old(keyMap)
      ensures events == old(events) + [ButtonRelease(ButtonNumber(b))]
    {
      var button := ButtonNumber(b);
      capturedMouseButtons := capturedMouseButtons - {button};
      if capturedMouseButtons == {} {
        mouseCaptured := false;
      }
      events := events + [ButtonRelease(button)];
    }

    /** A double-click message: take the capture, record the button, post a double press. */
    method ButtonDoubleClick(b: MouseButton)
      requires Valid()
      modifies this
      ensures Valid()
      ensures mouseCaptured
      ensures capturedMouseButtons == old(capturedMouseButtons) + {ButtonNumber(b)}
      ensures keyMap == old(keyMap)
      ensures events == old(events) + [DoubleButtonPress(ButtonNumber(b))]
    {
      mouseCaptured := true;
      var button := ButtonNumber(b);
      capturedMouseButtons := capturedMouseButtons + {button};
      events := events + [DoubleButtonPress(button)];
    }

    /** A key-down message, already translated: mark the pair held and post a press. */
    method KeyDown(key: KeyInfo)
      requires Valid()
      modifies this
      ensures Valid()
      ensures keyMap == old(keyMap)[(key.keySymbol, key.unmodifiedKeySymbol) := true]
      ensures capturedMouseButtons == old(capturedMouseButtons) && mouseCaptured == old(mouseCaptured)
      ensures events == old(events) + [KeyPress(key.keySymbol, key.unmodifiedKeySymbol)]
    {
      keyMap := keyMap[(key.keySymbol, key.unmodifiedKeySymbol) := true];
      events := events + [KeyPress(key.keySymbol, key.unmodifiedKeySymbol)];
    }

    /** A key-up message, already translated: mark the pair released and post a release. */
    method KeyUp(key: KeyInfo)
      requires Valid()
      modifies this
      ensures Valid()
      ensures keyMap == old(keyMap)[(key.keySymbol, key.unmodifiedKeySymbol) := false]
      ensures capturedMouseButtons == old(capturedMouseButtons) && mouseCaptured == old(mouseCaptured)
      ensures events == old(events) + [KeyRelease(key.keySymbol, key.unmodifiedKeySymbol)]
    {
      keyMap := keyMap[(key.keySymbol, key.unmodifiedKeySymbol) := false];
      events := events + [KeyRelease(key.keySymbol, key.unmodifiedKeySymbol)];
    }

    /**
      The focus-loss message: post a release for exactly the keys still held,
      each once, mark every key released, and forget the captured buttons.
      The mouse capture itself is not given back here. `released` lists the
      keys released, in the order their events were posted.
    */
    method KillFocus() returns (released: seq<KeyPair>)
      requires Valid()
      modifies this
      ensures Valid()
      ensures keyMap.Keys == old(keyMap).Keys
      ensures forall k :: k in keyMap ==> !keyMap[k]
      ensures (set k | k in released) == HeldKeys(old(keyMap))
      ensures forall i, j :: 0 <= i < j < |released| ==> released[i] != released[j]
      ensures events == old(events) + ReleaseEvents(released)
      ensures capturedMouseButtons == {} && mouseCaptured == old(mouseCaptured)
    {
      var remaining := keyMap.Keys;
      released := [];
      while remaining != {}
        invariant remaining <= keyMap.Keys && keyMap.Keys == old(keyMap).Keys
        invariant forall k :: k in remaining ==> keyMap[k] == old(keyMap)[k]
        invariant forall k :: k in keyMap && k !in remaining ==> !keyMap[k]
        invariant forall i :: 0 <= i < |released| ==> released[i] !in remaining
        invariant (set k | k in released) == HeldKeys(old(keyMap)) - remaining
        invariant forall i, j :: 0 <= i < j < |released| ==> released[i] != released[j]
        invariant events == old(events) + ReleaseEvents(released)
        invariant capturedMouseButtons == old(capturedMouseButtons) && mouseCaptured == old(mouseCaptured)
        decreases remaining
      {
        var key :| key in remaining;
        assert key in HeldKeys(old(keyMap)) <==> keyMap[key];
        if keyMap[key] {
          events := events + [KeyRelease(key.0, key.1)];
          keyMap := keyMap[key := false];
          ReleaseEventsSnoc(released, key);
          ElementsSnoc(released, key);
          released := released + [key];
        }
        remaining := remaining - {key};
      }
      capturedMouseButtons := {};
    }

    /**
      The dispatch of `handleNativeWindowingEvent` over the messages this
      module covers. `released` lists the keys a focus loss released, and is
      empty for every other message.
    */
    method HandleMessage(msg: Message) returns (released: seq<KeyPair>)
      requires Valid()
      modifies this
      ensures Valid()
      ensures msg.ButtonDown? ==>
                && mouseCaptured && capturedMouseButtons == old(capturedMouseButtons) + {ButtonNumber(msg.b)}
                && keyMap == old(keyMap) && events == old(events) + [ButtonPress(ButtonNumber(msg.b))]
      ensures msg.ButtonDoubleClick? ==>
                && mouseCaptured && capturedMouseButtons == old(capturedMouseButtons) + {ButtonNumber(msg.b)}
                && keyMap == old(keyMap) && events == old(events) + [DoubleButtonPress(ButtonNumber(msg.b))]
      ensures msg.ButtonUp? ==>
                && capturedMouseButtons == old(capturedMouseButtons) - {ButtonNumber(msg.b)}
                && mouseCaptured == (old(mouseCaptured) && capturedMouseButtons != {})
                && keyMap == old(keyMap) && events == old(events) + [ButtonRelease(ButtonNumber(msg.b))]
      ensures msg.KeyDown? ==>
                && keyMap == old(keyMap)[(msg.key.keySymbol, msg.key.unmodifiedKeySymbol) := true]
                && capturedMouseButtons == old(capturedMouseButtons) && mouseCaptured == old(mouseCaptured)
                && events == old(events) + [KeyPress(msg.key.keySymbol, msg.key.unmodifiedKeySymbol)]
      ensures msg.KeyUp? ==>
                && keyMap == old(keyMap)[(msg.key.keySymbol, msg.key.unmodifiedKeySymbol) := false]
                && capturedMouseButtons == old(capturedMouseButtons) && mouseCaptured == old(mouseCaptured)
                && events == old(events) + [KeyRelease(msg.key.keySymbol, msg.key.unmodifiedKeySymbol)]
      ensures msg.KillFocus? ==>
                && keyMap.Keys == old(keyMap).Keys && HeldKeys(keyMap) == {}
                && (set k | k in released) == HeldKeys(old(keyMap))
                && events == old(events) + ReleaseEvents(released)
                && capturedMouseButtons == {} && mouseCaptured == old(mouseCaptured)
      ensures !msg.KillFocus? ==> released == []
    {
      released := [];
      match msg {
        case ButtonDown(b) => ButtonDown(b);
        case ButtonUp(b) => ButtonUp(b);
        case ButtonDoubleClick(b) => ButtonDoubleClick(b);
        case KeyDown(key) => KeyDown(key);
        case KeyUp(key) => KeyUp(key);
        case KillFocus =>
          released := KillFocus();
          assert HeldKeys(keyMap) == {};
      }
    }
  }
}
