# Win32 windowing and ImGui bridge of the OpenSceneGraph viewer: a Dafny model

This project models two parts of the OpenSceneGraph viewer library:

- the Win32 graphics-window back end (`GraphicsWindowWin32.cpp`);
- the ImGui event handler (`ImGuiHandler.cpp`).

Both are mostly calls into Win32, WGL, OpenGL and ImGui. The model keeps the decisions and bookkeeping between those calls. It treats every answer the operating system, the driver or ImGui gives as an input parameter.

Modules:

- `Common` (`common.dfy`): `Option`, and 32-bit unsigned integers.
- `Win32Keyboard` (`keyboard.dfy`): the virtual-key → engine-key table, the numlock-dependent keypad remapping, and the side and lock-bit logic of `adaptKey`.
- `WindowRegistry` (`registry.dfy`): the map from native window handle to graphics window. It is a class whose map field is updated in place, specified by value-level `Register`/`Unregister`/`Lookup`.
- `ScreenSettings` (`screen.dfy`):
  - desktop-device enumeration, as a loop proved against a filter function;
  - the screen-identifier check;
  - reading and writing the `dmFields` presence mask of a display mode;
  - the screen position.
- `WindowGeometry` (`geometry.dfy`): the window-dimension change check, and the window style and corner computation of `determineWindowPositionAndStyle`.
- `PixelFormat` (`pixelformat.dfy`):
  - the WGL attribute list built by `PreparePixelFormatSpecifications`, through a class holding the growing list, proved equal to a value-level list of (id, value) pairs;
  - the retry order of `setPixelFormat`;
  - the zero-terminated OpenGL 3 context attribute array, filled in a 16-slot `array`.
- `WindowInput` (`windowinput.dfy`): the captured-mouse-button set, the pressed-key map, and the release of held keys on focus loss, as a class.
- `CursorCache` (`cursor.dfy`): the memoised cursor-handle cache, the "act only on change" cursor setter, the non-client hit-test cursor choice and the `WM_SETCURSOR` answer, as a class.
- `ImGuiDrawables` (`imgui_drawables.dfy`): the `UIRect` drawable, the geode holding a pool of them, and `setRenderData`, which grows, hides and fills the pool.
- `ImGuiBridge` (`imgui_bridge.dfy`):
  - `ConvertFromOSGKey` and its inverse;
  - the geode chosen by frame parity;
  - the event dispatch of `handle`, as a function over a state value, with the calls into ImGui recorded as actions;
  - the handler class that applies it.

## Model

| member | source | states |
|---|---|---|
| Win32Keyboard.RemapWin32Key | src/osgViewer/GraphicsWindowWin32.cpp:469-482 | with numlock on, keypad digit d becomes `KEY_KP_0` + d and the keypad decimal becomes `KEY_KP_Decimal`; with numlock off, or for any other key, the key goes through `remapKey` |
| Win32Keyboard.NumlockChangesExactlyKeypad | src/osgViewer/GraphicsWindowWin32.cpp:456-482 | numlock changes the translation of exactly the ten keypad digits and the keypad decimal; with numlock off these become keypad navigation symbols |
| Win32Keyboard.LetterKeys | src/osgViewer/GraphicsWindowWin32.cpp:376-401 | letter keys become the lower-case letter symbols |
| Win32Keyboard.DigitKeys | src/osgViewer/GraphicsWindowWin32.cpp:362-371 | digit keys of the main block are unchanged |
| Win32Keyboard.UnknownKeyPassesThrough | src/osgViewer/GraphicsWindowWin32.cpp:456-466 | a key the table does not know is returned unchanged, with numlock on or off |
| Win32Keyboard.SideSelection | src/osgViewer/GraphicsWindowWin32.cpp:2442-2482 | the switch sets exactly one of the six side-specific modifier bits for the Shift, Control and Alt keys, and none (keeping `wParam` as the key) otherwise |
| Win32Keyboard.LockBits | src/osgViewer/GraphicsWindowWin32.cpp:2484-2485 | the caps-lock and num-lock bits are set exactly when the toggle bits of the keyboard state are set |
| Win32Keyboard.AdaptKey | src/osgViewer/GraphicsWindowWin32.cpp:2427-2502 | with no virtual key or no keyboard state, the symbol and mask are 0 and the unmodified symbol is untouched; otherwise the lock bits mirror the toggles |
| Win32Keyboard.ControlKeySide | src/osgViewer/GraphicsWindowWin32.cpp:2459-2466 | the generic and left Control keys become the Control key of the side the extended-key bit names, with that side's modifier bit and not the other |
| Win32Keyboard.ShiftKeySide | src/osgViewer/GraphicsWindowWin32.cpp:2444-2456 | each Shift key keeps its own symbol and sets its side's modifier bit and not the other |
| Win32Keyboard.AltKeySide | src/osgViewer/GraphicsWindowWin32.cpp:2468-2475 | the generic and left Alt keys become the Alt key of the side the extended-key bit names, untranslated, with that side's modifier bit and not the other |
| Win32Keyboard.KeypadEnter | src/osgViewer/GraphicsWindowWin32.cpp:2489-2492 | Return with the extended-key bit becomes the keypad Enter symbol, and plain Return otherwise |
| Win32Keyboard.OrdinaryKey | src/osgViewer/GraphicsWindowWin32.cpp:2477-2487 | any other key translates the message's own virtual key and sets no side bit |
| WindowRegistry.RegisterKeepsNullFree | src/osgViewer/GraphicsWindowWin32.cpp:970-987 | registering and unregistering never put the null handle in the map |
| WindowRegistry.RegisterNullIsNoOp | src/osgViewer/GraphicsWindowWin32.cpp:970-987 | a null handle changes nothing, on register or unregister |
| WindowRegistry.LookupAfterRegister | src/osgViewer/GraphicsWindowWin32.cpp:970-993 | after registering, the handle finds its window, or the earlier one if it was present; other handles are unaffected |
| WindowRegistry.ReRegisterKeepsFirst | src/osgViewer/GraphicsWindowWin32.cpp:970-978 | re-registering a present handle keeps the first window (map insert does not overwrite) |
| WindowRegistry.LookupAfterUnregister | src/osgViewer/GraphicsWindowWin32.cpp:980-993 | after unregistering, the handle finds null; other handles are unaffected |
| WindowRegistry.RegisterUnregisterRoundTrip | src/osgViewer/GraphicsWindowWin32.cpp:970-987 | unregistering a newly registered handle restores the map |
| WindowRegistry.Win32WindowingSystem.constructor | src/osgViewer/GraphicsWindowWin32.cpp:504-543 | a new windowing system has no registered windows |
| WindowRegistry.Win32WindowingSystem.RegisterWindow | src/osgViewer/GraphicsWindowWin32.cpp:970-978 | the map becomes `Register` of the old map; a non-null handle is present afterwards and no key is lost |
| WindowRegistry.Win32WindowingSystem.UnregisterWindow | src/osgViewer/GraphicsWindowWin32.cpp:980-987 | the map becomes `Unregister` of the old map: exactly that handle is gone |
| WindowRegistry.Win32WindowingSystem.GetGraphicsWindowFor | src/osgViewer/GraphicsWindowWin32.cpp:989-993 | the registered window, null for an unregistered or null handle |
| ScreenSettings.DesktopDevices | src/osgViewer/GraphicsWindowWin32.cpp:556-573 | the kept devices are reported devices attached to the desktop and not mirroring drivers |
| ScreenSettings.DesktopDevicesComplete | src/osgViewer/GraphicsWindowWin32.cpp:556-573 | every reported desktop, non-mirroring device is kept |
| ScreenSettings.DesktopDevicesAppend | src/osgViewer/GraphicsWindowWin32.cpp:556-573 | the filter distributes over concatenation, so the kept devices keep their reported order |
| ScreenSettings.EnumerateDisplayDevices | src/osgViewer/GraphicsWindowWin32.cpp:556-573 | the enumeration loop returns exactly `DesktopDevices` of the reported devices |
| ScreenSettings.NegativeScreenPassesGuard | src/osgViewer/GraphicsWindowWin32.cpp:770 | the guard as written accepts screen number -1, which is no index into the device list |
| ScreenSettings.ValidScreenRefinesGuard | src/osgViewer/GraphicsWindowWin32.cpp:759-775 | the corrected check is the written guard plus a non-negative screen number |
| ScreenSettings.ScreenInformation | src/osgViewer/GraphicsWindowWin32.cpp:759-790 | the lookup succeeds iff the identifier is valid and the current mode can be read; it then gives that device and mode |
| ScreenSettings.HasResolution | src/osgViewer/GraphicsWindowWin32.cpp:801 | testing the two resolution bits together means either bit is set |
| ScreenSettings.GetScreenSettings | src/osgViewer/GraphicsWindowWin32.cpp:792-826 | a failed lookup gives all zeros; the refresh rate is the mode's frequency when its bit is present and the frequency is above 1, and 0 for a frequency of 0 or 1, so never 1 and never negative; width/height and depth are read when their bits are present |
| ScreenSettings.MissingBitsReadAsZero | src/osgViewer/GraphicsWindowWin32.cpp:801-825 | a missing resolution, frequency or depth bit reads as 0 |
| ScreenSettings.ModeToApply | src/osgViewer/GraphicsWindowWin32.cpp:875-895 | both resolution bits iff width and height are positive, the frequency bit iff the rate is positive, the depth bit iff the depth is positive, no other bit; a value is written only with its bit |
| ScreenSettings.SetScreenSettings | src/osgViewer/GraphicsWindowWin32.cpp:870-896 | fails exactly when the screen lookup fails; otherwise applies `ModeToApply` |
| ScreenSettings.WriteThenRead | src/osgViewer/GraphicsWindowWin32.cpp:792-896 | reading back a written mode depends only on the settings written, not on the old mode |
| ScreenSettings.RoundTrip | src/osgViewer/GraphicsWindowWin32.cpp:792-896 | positive sizes and an integral refresh rate (0 or above 1) survive a write and a read unchanged |
| ScreenSettings.GetScreenPosition | src/osgViewer/GraphicsWindowWin32.cpp:931-950 | zeros when the lookup fails, else the mode's origin and size |
| ScreenSettings.PositionAgreesWithSettings | src/osgViewer/GraphicsWindowWin32.cpp:931-950 | when the mode reports its resolution, the position's size equals the settings' width and height |
| WindowGeometry.Measured | src/osgViewer/GraphicsWindowWin32.cpp:308-321 | a zero client width or height counts as 1; the position is relative to the screen origin |
| WindowGeometry.AreWindowDimensionsChanged | src/osgViewer/GraphicsWindowWin32.cpp:306-336 | true exactly when a measured value differs from the stored ones; the outputs are then all four measured values, otherwise unchanged |
| WindowGeometry.WindowStyle | src/osgViewer/GraphicsWindowWin32.cpp:1427-1438 | popup and clipping bits always; caption, system menu, minimize and maximize boxes iff decorated; size box iff decorated and resizable; nothing else |
| WindowGeometry.ExtendedStyle | src/osgViewer/GraphicsWindowWin32.cpp:1429-1444 | zero iff undecorated; a decorated window has the app-window, both overlapped-window edge and accept-files bits, and no bit outside those and left-to-right reading (0) |
| WindowGeometry.Corners | src/osgViewer/GraphicsWindowWin32.cpp:1446-1451 | inclusive corners: width and height are recovered as right - left + 1 and bottom - top + 1 |
| WindowGeometry.DetermineWindowPositionAndStyle | src/osgViewer/GraphicsWindowWin32.cpp:1397-1470 | fails iff the screen has zero size or a decorated window's rectangle cannot be adjusted; undecorated windows get the client rectangle moved to the screen origin, decorated ones the adjusted rectangle |
| WindowGeometry.CornersRoundTrip | src/osgViewer/GraphicsWindowWin32.cpp:1446-1467 | with an identity adjustment, decorated and undecorated placement agree on position and size |
| PixelFormat.Terminated | src/osgViewer/GraphicsWindowWin32.cpp:1625 | the flat list ends with the 0 terminator |
| PixelFormat.DecodeTerminated | src/osgViewer/GraphicsWindowWin32.cpp:1571-1626 | a zero-terminated list of entries with nonzero ids decodes back to the entries |
| PixelFormat.IdsConcat | src/osgViewer/GraphicsWindowWin32.cpp:1571-1626 | the ids of a concatenation are the ids of its parts |
| PixelFormat.FindFirst | src/osgViewer/GraphicsWindowWin32.cpp:1571-1626 | looking an id up finds the value of its first occurrence, and nothing when it is absent |
| PixelFormat.FlattenConcat | src/osgViewer/GraphicsWindowWin32.cpp:1571-1626 | flattening distributes over concatenation |
| PixelFormat.FlattenSnoc | src/osgViewer/GraphicsWindowWin32.cpp:1571-1626 | appending an entry appends its id and value |
| PixelFormat.IntegerAttributes.constructor | src/osgViewer/GraphicsWindowWin32.cpp:1703 | a new attribute list is empty |
| PixelFormat.IntegerAttributes.Begin | src/osgViewer/GraphicsWindowWin32.cpp:1575 | `begin` empties the list |
| PixelFormat.IntegerAttributes.Set | src/osgViewer/GraphicsWindowWin32.cpp:1580-1587 | `set` appends the id and the value |
| PixelFormat.IntegerAttributes.Enable | src/osgViewer/GraphicsWindowWin32.cpp:1577-1578 | `enable` appends the id and 1 |
| PixelFormat.IntegerAttributes.End | src/osgViewer/GraphicsWindowWin32.cpp:1625 | `end` appends the 0 terminator |
| PixelFormat.PixelFormatEntriesDecode | src/osgViewer/GraphicsWindowWin32.cpp:1571-1626 | the specification has no zero id, so its terminated list decodes back to it |
| PixelFormat.SetBaseEntries | src/osgViewer/GraphicsWindowWin32.cpp:1577-1587 | appends the nine base entries |
| PixelFormat.SetBufferingEntries | src/osgViewer/GraphicsWindowWin32.cpp:1589-1616 | appends the double-buffer and swap-method entries |
| PixelFormat.SetIfNonzero | src/osgViewer/GraphicsWindowWin32.cpp:1618-1621 | appends an entry only for a nonzero value |
| PixelFormat.OptionalFlatten | src/osgViewer/GraphicsWindowWin32.cpp:1618-1623 | the optional entries flatten to the alpha, stencil, sample-buffer, sample and stereo pieces in order |
| PixelFormat.SetOptionalEntries | src/osgViewer/GraphicsWindowWin32.cpp:1618-1623 | appends the optional entries |
| PixelFormat.NoZeroIdsConcat | src/osgViewer/GraphicsWindowWin32.cpp:1571-1626 | joining two lists with no zero id keeps the terminator unambiguous |
| PixelFormat.PreparePixelFormatSpecifications | src/osgViewer/GraphicsWindowWin32.cpp:1571-1626 | the list becomes exactly the terminated flattening of `PixelFormatEntries` |
| PixelFormat.BaseIds | src/osgViewer/GraphicsWindowWin32.cpp:1577-1587 | the nine base ids, in source order |
| PixelFormat.BufferingIds | src/osgViewer/GraphicsWindowWin32.cpp:1589-1616 | double buffer iff double-buffered; swap method iff double-buffered and (a non-default method or swap exchange allowed) |
| PixelFormat.OptionalIds | src/osgViewer/GraphicsWindowWin32.cpp:1618-1623 | each optional id is present iff its value is nonzero, or stereo is requested |
| PixelFormat.PixelFormatIds | src/osgViewer/GraphicsWindowWin32.cpp:1571-1626 | the ids are the base, buffering and optional ids in that order |
| PixelFormat.ColorBitsIsChannelSum | src/osgViewer/GraphicsWindowWin32.cpp:1583 | the colour-bits attribute is red + green + blue |
| PixelFormat.SwapMethodPresence | src/osgViewer/GraphicsWindowWin32.cpp:1589-1616 | a swap-method attribute appears iff double-buffered and (the method is not the default or swap exchange is allowed) |
| PixelFormat.OptionalIdPresence | src/osgViewer/GraphicsWindowWin32.cpp:1571-1626 | an id outside the base and buffering ids is present iff it is among the optional ids |
| PixelFormat.AlphaStencilPresence | src/osgViewer/GraphicsWindowWin32.cpp:1618-1619 | alpha and stencil attributes appear iff nonzero |
| PixelFormat.SamplingPresence | src/osgViewer/GraphicsWindowWin32.cpp:1620-1621 | sample-buffer and sample attributes appear iff nonzero |
| PixelFormat.StereoPresence | src/osgViewer/GraphicsWindowWin32.cpp:1623 | the stereo attribute appears iff quad-buffered stereo is requested |
| PixelFormat.ChoosePixelFormat | src/osgViewer/GraphicsWindowWin32.cpp:1694-1744 | a match for the first specification is used as is, with the traits unchanged; failure means the first failed; on a screen of 32 bits or more the only retry drops the default swap exchange; below 32 bits the traits keep channels of a quarter of the depth, tried with and then without swap exchange |
| PixelFormat.ReducedColorBitsFitScreen | src/osgViewer/GraphicsWindowWin32.cpp:1714-1726 | the shallow-screen retry asks for three quarters of the depth in colour bits, never more than the screen has |
| PixelFormat.ContextEntries | src/osgViewer/GraphicsWindowWin32.cpp:1794-1813 | two to four entries, none with id 0 |
| PixelFormat.Push | src/osgViewer/GraphicsWindowWin32.cpp:1800-1814 | `attribs[idx++] = value`: the filled prefix grows by the value |
| PixelFormat.PushEntry | src/osgViewer/GraphicsWindowWin32.cpp:1800-1813 | writing an id and its value extends the filled prefix by that entry's flattening |
| PixelFormat.ContextAttributes | src/osgViewer/GraphicsWindowWin32.cpp:1791-1814 | a 16-slot array whose first 5 to 9 slots are the terminated context entries, ending in 0 |
| PixelFormat.ContextIds | src/osgViewer/GraphicsWindowWin32.cpp:1800-1813 | major and minor always, flags iff nonzero, profile mask iff nonzero, in that order |
| PixelFormat.ContextOptionalValues | src/osgViewer/GraphicsWindowWin32.cpp:1804-1813 | a reader finds the flags and the profile mask, with their values, exactly when they are nonzero |
| PixelFormat.ContextListDecodes | src/osgViewer/GraphicsWindowWin32.cpp:1794-1814 | the array decodes back; the version is the queried one, or 1.0 when the query fails |
| WindowInput.ButtonNumber | src/osgViewer/GraphicsWindowWin32.cpp:2603-2605 | left is 1, middle 2, right 3 |
| WindowInput.WindowInputState.constructor | src/osgViewer/GraphicsWindowWin32.cpp:999-1043 | no captured buttons, no capture, no keys, no events |
| WindowInput.WindowInputState.ButtonDown | src/osgViewer/GraphicsWindowWin32.cpp:2593-2615 | takes the capture, adds the button to the captured set, posts a press |
| WindowInput.WindowInputState.ButtonUp | src/osgViewer/GraphicsWindowWin32.cpp:2617-2640 | removes the button; the capture is released exactly when the set becomes empty; posts a release |
| WindowInput.WindowInputState.ButtonDoubleClick | src/osgViewer/GraphicsWindowWin32.cpp:2642-2663 | takes the capture, adds the button, posts a double press |
| WindowInput.WindowInputState.KeyDown | src/osgViewer/GraphicsWindowWin32.cpp:2718-2732 | stores true for the (symbol, unmodified) pair and posts a press |
| WindowInput.WindowInputState.KeyUp | src/osgViewer/GraphicsWindowWin32.cpp:2734-2747 | stores false for the pair and posts a release |
| WindowInput.WindowInputState.KillFocus | src/osgViewer/GraphicsWindowWin32.cpp:2804-2820 | posts one release for exactly the keys held, each once; every key ends released; the captured set is emptied; the capture itself is kept |
| WindowInput.WindowInputState.HandleMessage | src/osgViewer/GraphicsWindowWin32.cpp:2593-2820 | each message does exactly what its handler does: the capture, captured set, key map and posted events of button, double-click and key messages, and the release of every held key on focus loss; nothing else changes |
| CursorCache.SystemCursorFor | src/osgViewer/GraphicsWindowWin32.cpp:2287-2356 | every cursor has a system cursor except "no cursor" and "inherit" |
| CursorCache.BorderCursorsShared | src/osgViewer/GraphicsWindowWin32.cpp:2334-2349 | opposite corners share a cursor, and so do the two side cursors; "no cursor" and "inherit" have the null handle |
| CursorCache.HitTestCursor | src/osgViewer/GraphicsWindowWin32.cpp:2823-2867 | caption areas use the arrow; left/right borders the left-right cursor, top/bottom the up-down cursor, each corner its corner cursor and the grow box the bottom-right one; elsewhere the application cursor if cursors are on and it is not "inherit"; never "inherit" |
| CursorCache.WindowCursor.constructor | src/osgViewer/GraphicsWindowWin32.cpp:1018-1024 | the cursor becomes the arrow if cursors are on, else "no cursor"; the use-cursor flag keeps its trait value |
| CursorCache.WindowCursor.GetOrCreateCursor | src/osgViewer/GraphicsWindowWin32.cpp:2282-2359 | returns the handle the cursor's system cursor loads to; caches it on the first request and leaves the cache alone after |
| CursorCache.WindowCursor.SetCursorImpl | src/osgViewer/GraphicsWindowWin32.cpp:2267-2280 | nothing changes when the cursor is already current; otherwise the handle is replaced and, when it differs, the use-cursor flag is recomputed and a `WM_SETCURSOR` posted |
| CursorCache.WindowCursor.SetCursor | src/osgViewer/GraphicsWindowWin32.cpp:2261-2265 | records the application cursor and makes it current; when the handle changes, cursor use becomes "non-null handle and not no-cursor" and one `WM_SETCURSOR` is posted, otherwise use and posts are unchanged |
| CursorCache.WindowCursor.UseCursor | src/osgViewer/GraphicsWindowWin32.cpp:2251-2259 | on shows the application cursor, off shows none; the application cursor is kept; when the handle changes, use is recomputed and one `WM_SETCURSOR` posted, otherwise use is the requested flag and nothing is posted |
| CursorCache.WindowCursor.NonClientHitTest | src/osgViewer/GraphicsWindowWin32.cpp:2823-2867 | applies `HitTestCursor` with `setCursorImpl`'s effect on handle, use flag and posts, or changes no field at all when it gives no cursor |
| CursorCache.WindowCursor.SetCursorMessage | src/osgViewer/GraphicsWindowWin32.cpp:2750-2762 | the message is handled iff the cursor is not "inherit"; then the current handle is shown if cursors are on, null otherwise |
| ImGuiDrawables.Resize | src/osgViewer/ImGuiHandler.cpp:88 | `resize`: the new size, the old prefix kept, new entries empty |
| ImGuiDrawables.PrimitivesStayInIndexBuffer | src/osgViewer/ImGuiHandler.cpp:462-470 | for commands inside the index buffer, every primitive's offset is index-aligned and its range stays inside the buffer |
| ImGuiDrawables.UIRect.constructor | src/osgViewer/ImGuiHandler.cpp:66-72 | a new drawable is shown and empty |
| ImGuiDrawables.UIRect.SetNodeMask | src/osgViewer/ImGuiHandler.cpp:455 | sets the mask only |
| ImGuiDrawables.UIRect.SetVertex | src/osgViewer/ImGuiHandler.cpp:74-80 | replaces the vertex buffer only |
| ImGuiDrawables.UIRect.SetIndex | src/osgViewer/ImGuiHandler.cpp:82-86 | replaces the index buffer only |
| ImGuiDrawables.UIRect.AllocatePrimitives | src/osgViewer/ImGuiHandler.cpp:88 | resizes the primitive table only |
| ImGuiDrawables.UIRect.SetPrimitive | src/osgViewer/ImGuiHandler.cpp:90-94 | overwrites one table entry only |
| ImGuiDrawables.UIRect.Fill | src/osgViewer/ImGuiHandler.cpp:458-470 | the drawable is shown and holds the list's buffers and its primitive table |
| ImGuiDrawables.Geode.constructor | src/osgViewer/ImGuiHandler.cpp:278-296 | a new geode holds no drawables |
| ImGuiDrawables.Geode.AddChild | src/osgViewer/ImGuiHandler.cpp:451 | appends a drawable not yet held |
| ImGuiDrawables.SetRenderData | src/osgViewer/ImGuiHandler.cpp:436-472 | nothing changes for a zero framebuffer dimension; otherwise as `RebuildPool` |
| ImGuiDrawables.RebuildPool | src/osgViewer/ImGuiHandler.cpp:447-471 | the pool grows to at least one drawable per list and never shrinks or reorders; drawable i < list count is shown and holds list i; the rest are hidden with their buffers kept |
| ImGuiDrawables.GrowPool | src/osgViewer/ImGuiHandler.cpp:448-452 | the pool grows to the list count with new drawables appended after the old ones, which keep their places |
| ImGuiDrawables.HideAll | src/osgViewer/ImGuiHandler.cpp:454-455 | every drawable of the pool gets mask 0 and keeps its buffers |
| ImGuiDrawables.ShowAndFill | src/osgViewer/ImGuiHandler.cpp:457-471 | drawable i holds command list i for every list; drawables past the lists are untouched |
| ImGuiBridge.ConvertFromOSGKeyExact | src/osgViewer/ImGuiHandler.cpp:175-209 | a key has an ImGui key iff it is one of the thirteen; the inverse table gives it back |
| ImGuiBridge.ConvertFromOSGKeyOnto | src/osgViewer/ImGuiHandler.cpp:175-209 | every ImGui key but "none" comes from exactly the engine key the inverse names |
| ImGuiBridge.UiGroupIndex | src/osgViewer/ImGuiHandler.cpp:474-478 | one of the two geodes |
| ImGuiBridge.ConsecutiveFramesAlternate | src/osgViewer/ImGuiHandler.cpp:474-478 | consecutive frame numbers, also across the 32-bit wrap, use different geodes |
| ImGuiBridge.SameGeodeIffSameParity | src/osgViewer/ImGuiHandler.cpp:474-478 | two frame numbers draw into the same geode of a handler iff they have the same parity |
| ImGuiBridge.InitStep | src/osgViewer/ImGuiHandler.cpp:341-350 | afterwards the handler is set up; an already set-up handler is untouched |
| ImGuiBridge.Utf16Unit | src/osgViewer/ImGuiHandler.cpp:373-374 | the character is cut to a 16-bit code unit; codes below 0x10000 pass unchanged |
| ImGuiBridge.Handle | src/osgViewer/ImGuiHandler.cpp:336-434 | after any event the handler is set up |
| ImGuiBridge.HandleAnswer | src/osgViewer/ImGuiHandler.cpp:352-433 | key events answer the sampled keyboard flag; mouse events and characters the sampled mouse flag; frame, resize, close and others false |
| ImGuiBridge.CharFallsThroughToRelease | src/osgViewer/ImGuiHandler.cpp:371-385 | a character event passes the character on and then does exactly what a release does |
| ImGuiBridge.ButtonEventsConcat | src/osgViewer/ImGuiHandler.cpp:375-394 | presses and releases of a concatenation are those of its parts |
| ImGuiBridge.ButtonEventsSingle | src/osgViewer/ImGuiHandler.cpp:375-394 | the presses and releases of one action |
| ImGuiBridge.PushPressesOneButton | src/osgViewer/ImGuiHandler.cpp:386-395 | a push, also when it is the handler's first event, issues at most one press, for left over right over middle, and no release |
| ImGuiBridge.ReleaseReleasesEveryButton | src/osgViewer/ImGuiHandler.cpp:376-385 | a release, also when it is the handler's first event, issues one release per button bit, left, right, middle, and no press |
| ImGuiBridge.FrameRecordsFrameNumber | src/osgViewer/ImGuiHandler.cpp:341-420 | on any state, a frame stores the viewer's frame number and hands the stored size to ImGui; as the first event it first stores the event's window size, otherwise the size is kept |
| ImGuiBridge.DispatchNeverInstalls | src/osgViewer/ImGuiHandler.cpp:352-433 | the dispatch never installs the draw callback |
| ImGuiBridge.HandleInstallsOnlyFirst | src/osgViewer/ImGuiHandler.cpp:341-350 | one call installs the draw callback iff the handler was not yet set up |
| ImGuiBridge.InitialisedExactlyOnce | src/osgViewer/ImGuiHandler.cpp:341-350 | over any event sequence, set-up happens once: the callback is installed once from a fresh handler, never from a set-up one, and the handler stays set up |
| ImGuiBridge.ImGuiHandler.constructor | src/osgViewer/ImGuiHandler.cpp:258-298 | a new handler is not set up and has two distinct empty geodes |
| ImGuiBridge.ImGuiHandler.HandleEvent | src/osgViewer/ImGuiHandler.cpp:336-434 | the fields, answer and recorded calls are those of `Handle`; the handler stays valid |
| ImGuiBridge.ImGuiHandler.GetUiGroup | src/osgViewer/ImGuiHandler.cpp:474-478 | the geode of the frame's parity, not the other one |
| ImGuiBridge.ImGuiHandler.SetRenderData | src/osgViewer/ImGuiHandler.cpp:436-472 | on the geode of the stored frame number: nothing changes for a zero framebuffer dimension; otherwise the pool never shrinks, drawable i holds list i and the surplus is hidden with its buffers kept; the other geode's drawables and all their fields are unchanged, and no drawable is shared between the geodes |

## Left out

- Every Win32, WGL, OpenGL and ImGui call is outside the model. Their results are parameters:
  - the reported display devices and the current display mode;
  - the client rectangle;
  - the `AdjustWindowRectEx` result;
  - `LoadCursor`;
  - the numlock bit and the keyboard state;
  - the `MapVirtualKeyEx` and `ToAscii` results;
  - the driver's pixel-format choice;
  - ImGui's capture flags, draw lists and framebuffer size.
- The window procedure, message pump, context creation, swap control, DPI setup, touch and pointer input, and the `WM_SETFOCUS` key poll are not modelled. They are OS calls.
- Floating-point work is not modelled: mouse coordinates, the y flip, wheel deltas, the framebuffer scale, and the scissor rectangle computed from `ClipRect`. A command's scissor is an input.
- Byte layouts are not modelled: vertex formats and `DEVMODE` and `DISPLAY_DEVICE` beyond the fields read.
- `XGLIntegerAttributes` is not part of this model. `PixelFormat.IntegerAttributes` stands for it as a flat list of integers: `begin` clears it, `set` appends id and value, `enable` sets 1 and `end` appends 0.
- WindowInput.WindowInputState.KillFocus: releases the held keys in an unspecified order, not the ascending key order of the map iteration.
- WindowGeometry.DetermineWindowPositionAndStyle: screen sizes, positions and style values are unbounded integers. The `unsigned int` and `DWORD` conversions are not modelled.
- ScreenSettings.GetScreenSettings: the refresh rate is a real, and `ModeToApply` writes its floor. The source converts a `double` to `DWORD`.
- ScreenSettings.ScreenInformation: the lookup is the corrected one (see Findings). The device-mode query is an input.
- PixelFormat.ChoosePixelFormat: the channel sizes that `setPixelFormat` writes into the shared traits object are returned as `Choice.traits`. Other holders of that object seeing the change is not modelled.
- PixelFormat.ContextEntries: a failed version query is taken to leave version 1.0; whether the query partly writes its outputs is not modelled.
- The `_traits == 0` paths of the window constructor and `setWindowDecorationImplementation` are not modelled.
- ImGuiBridge.ImGuiHandler.constructor: the width, height and frame number start at 0. The source leaves them to the header, which is not part of this model.
- Rendering is not modelled: `drawImplementation`, VAO and VBO set-up, shaders, fonts, `refreshTexture` and `resizeViewport`. The calls into ImGui are recorded as actions, not executed.

## Findings

| source | as written | input that shows it | evidently intended | confidence | as-written member | corrected member |
|---|---|---|---|---|---|---|
| src/osgViewer/GraphicsWindowWin32.cpp:770 | the screen check rejects `displayNum > 0` and `screenNum >= size`, but not a negative `screenNum`, so `displayDevices[screenNum]` reads out of bounds | `ScreenIdentifier(0, -1)` with one desktop device | accept only `0 <= screenNum < size` | not executed | ScreenSettings.NegativeScreenPassesGuard | ScreenSettings.ScreenInformation |
