/**
  The windowing system's registry of active windows: a map from native window
  handle to the engine's window object. Handles and window objects are numbers;
  0 stands for a null handle and for a null window pointer.
*/
module WindowRegistry {

  /** A native window handle (`HWND`); 0 is the null handle. */
  type Handle = nat

  /** A pointer to an engine window object; 0 is the null pointer. */
  type WindowRef = nat

  const NULL_HANDLE: Handle := 0
  const NULL_WINDOW: WindowRef := 0

  /** `registerWindow` on the map alone: `std::map::insert` adds a new entry and never overwrites one. */
  function Register(active: map<Handle, WindowRef>, hwnd: Handle, window: WindowRef): (r: map<Handle, WindowRef>)
  {
    if hwnd != NULL_HANDLE && hwnd !in active then active[hwnd := window] else active
  }

  /** `unregisterWindow` on the map alone: erase the entry of a non-null handle. */
  function Unregister(active: map<Handle, WindowRef>, hwnd: Handle): (r: map<Handle, WindowRef>)
  {
    if hwnd != NULL_HANDLE then active - {hwnd} else active
  }

  /** `getGraphicsWindowFor` on the map alone: the registered window, or null. */
  function Lookup(active: map<Handle, WindowRef>, hwnd: Handle): (w: WindowRef)
  {
    if hwnd in active then active[hwnd] else NULL_WINDOW
  }

  /** The null handle never enters the map, whatever sequence of registrations and removals is applied. */
  ghost predicate NullFree(active: map<Handle, WindowRef>)
  {
    NULL_HANDLE !in active
  }

  lemma RegisterKeepsNullFree(active: map<Handle, WindowRef>, hwnd: Handle, window: WindowRef)
    requires NullFree(active)
    ensures NullFree(Register(active, hwnd, window))
    ensures NullFree(Unregister(active, hwnd))
  {
  }

  /** Registering with the null handle changes nothing. */
  lemma RegisterNullIsNoOp(active: map<Handle, WindowRef>, window: WindowRef)
    ensures Register(active, NULL_HANDLE, window) == active
    ensures Unregister(active, NULL_HANDLE) == active
  {
  }

  /** After registering a non-null handle that was free, looking it up finds the window. */
  lemma LookupAfterRegister(active: map<Handle, WindowRef>, hwnd: Handle, window: WindowRef, other: Handle)
    requires hwnd != NULL_HANDLE
    ensures Lookup(Register(active, hwnd, window), hwnd) ==
              (if hwnd in active then active[hwnd] else window)
    ensures other != hwnd ==> Lookup(Register(active, hwnd, window), other) == Lookup(active, other)
  {
  }

  /** Re-registering a handle that is present keeps the window registered first. */
  lemma ReRegisterKeepsFirst(active: map<Handle, WindowRef>, hwnd: Handle, first: WindowRef, second: WindowRef)
    requires hwnd != NULL_HANDLE
    ensures var once := Register(active, hwnd, first);
            Lookup(Register(once, hwnd, second), hwnd) == Lookup(once, hwnd)
  {
  }

  /** Unregistering removes exactly that handle: it looks up as null, every other handle as before. */
  lemma LookupAfterUnregister(active: map<Handle, WindowRef>, hwnd: Handle, other: Handle)
    requires hwnd != NULL_HANDLE
    ensures Lookup(Unregister(active, hwnd), hwnd) == NULL_WINDOW
    ensures other != hwnd ==> Lookup(Unregister(active, hwnd), other) == Lookup(active, other)
  {
  }

  /** Register then unregister of a fresh handle restores the registry. */
  lemma RegisterUnregisterRoundTrip(active: map<Handle, WindowRef>, hwnd: Handle, window: WindowRef)
    requires hwnd !in active
    ensures Unregister(Register(active, hwnd, window), hwnd) == active
  {
  }

  /** The windowing system object, holding `_activeWindows`. */
  class Win32WindowingSystem {
    var activeWindows: map<Handle, WindowRef>

    ghost predicate Valid()
      reads this
    {
      NullFree(activeWindows)
    }

    constructor ()
      ensures Valid() && activeWindows == map[]
    {
      activeWindows := map[];
    }

    /** `registerWindow`: insert the pair unless the handle is null; an existing entry is kept. */
    method RegisterWindow(hwnd: Handle, window: WindowRef)
      requires Valid()
      modifies this
      ensures Valid()
      ensures activeWindows == Register(old(activeWindows), hwnd, window)
      ensures hwnd != NULL_HANDLE ==> hwnd in activeWindows
      ensures old(activeWindows).Keys <= activeWindows.Keys
    {
      if hwnd != NULL_HANDLE {
        if hwnd !in activeWindows {
          activeWindows := activeWindows[hwnd := window];
        }
      }
    }

    /** `unregisterWindow`: erase the entry of a non-null handle. */
    method UnregisterWindow(hwnd: Handle)
      requires Valid()
      modifies this
      ensures Valid()
      ensures activeWindows == Unregister(old(activeWindows), hwnd)
      ensures activeWindows.Keys == old(activeWindows).Keys - {hwnd}
    {
      if hwnd != NULL_HANDLE {
        activeWindows := activeWindows - {hwnd};
      }
    }

    /** `getGraphicsWindowFor`: the window registered for the handle, or null; the null handle always gives null. */
    method GetGraphicsWindowFor(hwnd: Handle) returns (window: WindowRef)
      requires Valid()
      ensures hwnd !in activeWindows ==> window == NULL_WINDOW
      ensures hwnd in activeWindows ==> window == activeWindows[hwnd]
      ensures hwnd == NULL_HANDLE ==> window == NULL_WINDOW
    {
      if hwnd in activeWindows {
        window := activeWindows[hwnd];
      } else {
        window := NULL_WINDOW;
      }
    }
  }
}
