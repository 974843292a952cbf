/**
  Screen queries of the windowing system: the enumeration of display devices,
  the validation of a screen identifier, and the encoding and decoding of the
  `dmFields` presence mask of a display mode.

  The operating system's answers (the device list that `EnumDisplayDevices`
  reports, the current mode that `EnumDisplaySettings` reports) are parameters.
*/
module ScreenSettings {
  import opened Common

  // ---------------------------------------------------------------------------
  // Win32 constants
  // ---------------------------------------------------------------------------

  const DISPLAY_DEVICE_ATTACHED_TO_DESKTOP: bv32 := 0x0000_0001
  const DISPLAY_DEVICE_MIRRORING_DRIVER: bv32 := 0x0000_0008

  const DM_BITSPERPEL: bv32 := 0x0004_0000
  const DM_PELSWIDTH: bv32 := 0x0008_0000
  const DM_PELSHEIGHT: bv32 := 0x0010_0000
  const DM_DISPLAYFREQUENCY: bv32 := 0x0040_0000

  /** The four presence bits this module reads and writes. */
  const SETTINGS_BITS: bv32 := DM_PELSWIDTH | DM_PELSHEIGHT | DM_DISPLAYFREQUENCY | DM_BITSPERPEL

  // ---------------------------------------------------------------------------
  // Data
  // ---------------------------------------------------------------------------

  /** A display device as `EnumDisplayDevices` reports it (the parts the model reads). */
  datatype DisplayDevice = DisplayDevice(deviceName: string, stateFlags: bv32)

  /**
    A display mode (`DEVMODE`): the presence mask and the values it guards, and
    the position of the screen on the desktop.
  */
  datatype DevMode = DevMode(fields: bv32, pelsWidth: nat, pelsHeight: nat,
                             displayFrequency: nat, bitsPerPel: nat,
                             positionX: int, positionY: int)

  /** The engine's identifier of a screen. */
  datatype ScreenIdentifier = ScreenIdentifier(displayNum: int, screenNum: int)

  /** The engine's screen settings: resolution, refresh rate (a double) and colour depth. */
  datatype Settings = Settings(width: int, height: int, refreshRate: real, colorDepth: nat)

  /** The device and its current mode, as `getScreenInformation` returns them on success. */
  datatype ScreenInfo = ScreenInfo(device: DisplayDevice, mode: DevMode)

  // ---------------------------------------------------------------------------
  // enumerateDisplayDevices
  // ---------------------------------------------------------------------------

  /** A device is kept when it is attached to the desktop and is not a mirroring driver. */
  predicate IsDesktopDevice(d: DisplayDevice)
  {
    d.stateFlags & DISPLAY_DEVICE_MIRRORING_DRIVER == 0 &&
    d.stateFlags & DISPLAY_DEVICE_ATTACHED_TO_DESKTOP != 0
  }

  /** The devices kept from the reported list, in the order they were reported. */
  function DesktopDevices(reported: seq<DisplayDevice>): (r: seq<DisplayDevice>)
    ensures |r| <= |reported|
    ensures forall d :: d in r ==> d in reported && IsDesktopDevice(d)
  {
    if reported == [] then []
    else
      var last := reported[|reported| - 1];
      DesktopDevices(reported[..|reported| - 1]) + (if IsDesktopDevice(last) then [last] else [])
  }

  /** No qualifying device is dropped. */
  lemma {:induction false} DesktopDevicesComplete(reported: seq<DisplayDevice>, d: DisplayDevice)
    requires d in reported && IsDesktopDevice(d)
    ensures d in DesktopDevices(reported)
  {
    var last := reported[|reported| - 1];
    if d != last {
      assert d in reported[..|reported| - 1];
      DesktopDevicesComplete(reported[..|reported| - 1], d);
    }
  }

  /** Keeping devices commutes with appending: the devices reported later come later. */
  lemma {:induction false} DesktopDevicesAppend(a: seq<DisplayDevice>, b: seq<DisplayDevice>)
    ensures DesktopDevices(a + b) == DesktopDevices(a) + DesktopDevices(b)
    decreases |b|
  {
    if b == [] {
      assert a + b == a;
    } else {
      var b' := b[..|b| - 1];
      assert (a + b)[..|a + b| - 1] == a + b';
      DesktopDevicesAppend(a, b');
    }
  }

  /**
    `enumerateDisplayDevices`: walk the devices the system reports, in order,
    skipping mirroring drivers and devices not attached to the desktop.
  */
  method EnumerateDisplayDevices(reported: seq<DisplayDevice>) returns (devices: seq<DisplayDevice>)
    ensures devices == DesktopDevices(reported)
  {
    devices := [];
    var deviceNum := 0;
    while deviceNum < |reported|
      invariant 0 <= deviceNum <= |reported|
      invariant devices == DesktopDevices(reported[..deviceNum])
    {
      var displayDevice := reported[deviceNum];
      assert reported[..deviceNum + 1][..deviceNum] == reported[..deviceNum];
      deviceNum := deviceNum + 1;
      if displayDevice.stateFlags & DISPLAY_DEVICE_MIRRORING_DRIVER != 0 {
        continue;
      }
      if displayDevice.stateFlags & DISPLAY_DEVICE_ATTACHED_TO_DESKTOP == 0 {
        continue;
      }
      devices := devices + [displayDevice];
    }
    assert reported[..deviceNum] == reported;
  }

  // ---------------------------------------------------------------------------
  // getScreenInformation
  // ---------------------------------------------------------------------------

  /** The guard of `getScreenInformation` as written: it rejects a positive display number and a screen number past the end. */
  predicate GuardAcceptsAsWritten(si: ScreenIdentifier, deviceCount: nat)
  {
    !(si.displayNum > 0) && !(si.screenNum >= deviceCount)
  }

  /** The guard as written lets a negative screen number through, which then indexes before the start of the device list. */
  lemma NegativeScreenPassesGuard()
    ensures GuardAcceptsAsWritten(ScreenIdentifier(0, -1), 1)
    ensures !(0 <= -1 < 1)
  {
  }

  /** The evidently intended guard: display number 0 (or less) and a screen number that indexes the device list. */
  predicate ValidScreen(si: ScreenIdentifier, deviceCount: nat)
  {
    si.displayNum <= 0 && 0 <= si.screenNum < deviceCount
  }

  /** The intended guard is the written one plus a lower bound, and every screen it accepts can be indexed. */
  lemma ValidScreenRefinesGuard(si: ScreenIdentifier, deviceCount: nat)
    ensures ValidScreen(si, deviceCount) <==> GuardAcceptsAsWritten(si, deviceCount) && si.screenNum >= 0
  {
  }

  /**
    `getScreenInformation`: validate the identifier against the enumerated
    devices, then take the current mode of the selected device, which the
    system may fail to report.
  */
  function ScreenInformation(si: ScreenIdentifier, reported: seq<DisplayDevice>,
                             currentMode: Option<DevMode>): (r: Option<ScreenInfo>)
    ensures r.Some? <==> ValidScreen(si, |DesktopDevices(reported)|) && currentMode.Some?
    ensures r.Some? ==> IsDesktopDevice(r.value.device) && r.value.mode == currentMode.value
                        && r.value.device == DesktopDevices(reported)[si.screenNum]
  {
    var devices := DesktopDevices(reported);
    if si.displayNum > 0 then None
    else if !(0 <= si.screenNum < |devices|) then None
    else if currentMode.None? then None
    else Some(ScreenInfo(devices[si.screenNum], currentMode.value))
  }

  // ---------------------------------------------------------------------------
  // getScreenSettings and setScreenSettings
  // ---------------------------------------------------------------------------

  /** True when the mask has the bit. */
  predicate Has(fields: bv32, bit: bv32)
  {
    fields & bit != 0
  }

  /**
    `getScreenSettings`: read the values whose presence bits are set. A failed
    lookup is treated as a mode whose mask is empty.
  */
  function GetScreenSettings(info: Option<ScreenInfo>): (s: Settings)
    ensures info.None? ==> s == Settings(0, 0, 0.0, 0)
    ensures s.refreshRate != 1.0 && s.refreshRate >= 0.0
    ensures info.Some? && Has(info.value.mode.fields, DM_DISPLAYFREQUENCY) && info.value.mode.displayFrequency > 1 ==>
              s.refreshRate == info.value.mode.displayFrequency as real
    ensures info.Some? && info.value.mode.displayFrequency <= 1 ==> s.refreshRate == 0.0
    ensures info.Some? && Has(info.value.mode.fields, DM_PELSWIDTH | DM_PELSHEIGHT) ==>
              s.width == info.value.mode.pelsWidth && s.height == info.value.mode.pelsHeight
    ensures info.Some? && Has(info.value.mode.fields, DM_BITSPERPEL) ==> s.colorDepth == info.value.mode.bitsPerPel
  {
    var fields := if info.Some? then info.value.mode.fields else 0;
    var mode := if info.Some? then info.value.mode else DevMode(0, 0, 0, 0, 0, 0, 0);
    var (width, height) :=
      if Has(fields, DM_PELSWIDTH | DM_PELSHEIGHT) then (mode.pelsWidth, mode.pelsHeight) else (0, 0);
    var refreshRate :=
      if Has(fields, DM_DISPLAYFREQUENCY) then
        // 0 and 1 stand for the hardware's default rate, which cannot be read back
        if mode.displayFrequency == 0 || mode.displayFrequency == 1 then 0.0 else mode.displayFrequency as real
      else 0.0;
    var colorDepth := if Has(fields, DM_BITSPERPEL) then mode.bitsPerPel else 0;
    Settings(width, height, refreshRate, colorDepth)
  }

  /** A mask has the resolution bits exactly when it has one of the two. */
  lemma HasResolution(fields: bv32)
    ensures Has(fields, DM_PELSWIDTH | DM_PELSHEIGHT) <==> Has(fields, DM_PELSWIDTH) || Has(fields, DM_PELSHEIGHT)
  {
  }

  /** A missing presence bit reads as 0, whatever the guarded value holds. */
  lemma MissingBitsReadAsZero(mode: DevMode, device: DisplayDevice)
    ensures var s := GetScreenSettings(Some(ScreenInfo(device, mode)));
            && (!Has(mode.fields, DM_PELSWIDTH) && !Has(mode.fields, DM_PELSHEIGHT) ==> s.width == 0 && s.height == 0)
            && (!Has(mode.fields, DM_DISPLAYFREQUENCY) ==> s.refreshRate == 0.0)
            && (!Has(mode.fields, DM_BITSPERPEL) ==> s.colorDepth == 0)
  {
    HasResolution(mode.fields);
  }

  /**
    The mode that `setScreenSettings` hands to the system: the current mode
    with its mask cleared, then each requested value written together with its
    bit. The refresh rate is converted to a whole number of hertz by truncation.
  */
  function ModeToApply(current: DevMode, s: Settings): (m: DevMode)
    ensures Has(m.fields, DM_PELSWIDTH) <==> s.width > 0 && s.height > 0
    ensures Has(m.fields, DM_PELSHEIGHT) <==> s.width > 0 && s.height > 0
    ensures Has(m.fields, DM_DISPLAYFREQUENCY) <==> s.refreshRate > 0.0
    ensures Has(m.fields, DM_BITSPERPEL) <==> s.colorDepth > 0
    ensures m.fields & !SETTINGS_BITS == 0
    ensures !Has(m.fields, DM_PELSWIDTH) ==> m.pelsWidth == current.pelsWidth && m.pelsHeight == current.pelsHeight
    ensures !Has(m.fields, DM_DISPLAYFREQUENCY) ==> m.displayFrequency == current.displayFrequency
    ensures !Has(m.fields, DM_BITSPERPEL) ==> m.bitsPerPel == current.bitsPerPel
  {
    var m0 := current.(fields := 0);
    var m1 :=
      if s.width > 0 && s.height > 0 then
        m0.(fields := m0.fields | DM_PELSWIDTH | DM_PELSHEIGHT, pelsWidth := s.width, pelsHeight := s.height)
      else m0;
    var m2 :=
      if s.refreshRate > 0.0 then
        m1.(fields := m1.fields | DM_DISPLAYFREQUENCY, displayFrequency := s.refreshRate.Floor)
      else m1;
    var m3 :=
      if s.colorDepth > 0 then
        m2.(fields := m2.fields | DM_BITSPERPEL, bitsPerPel := s.colorDepth)
      else m2;
    m3
  }

  /**
    `setScreenSettings` up to the call that asks the system to apply the mode:
    None when the screen lookup fails (the call returns false without trying),
    otherwise the mode it asks for. The call's result is then the system's answer.
  */
  function SetScreenSettings(info: Option<ScreenInfo>, s: Settings): (r: Option<DevMode>)
    ensures r.Some? <==> info.Some?
    ensures r.Some? ==> r.value == ModeToApply(info.value.mode, s)
  {
    match info
    case None => None
    case Some(i) => Some(ModeToApply(i.mode, s))
  }

  /** What reading back a written mode yields: only the requested settings, never the values of the current mode. */
  function ReadBack(s: Settings): Settings
  {
    var hasSize := s.width > 0 && s.height > 0;
    var rate := if s.refreshRate > 0.0 then s.refreshRate.Floor else 0;
    Settings(if hasSize then s.width else 0,
             if hasSize then s.height else 0,
             if rate == 0 || rate == 1 then 0.0 else rate as real,
             s.colorDepth)
  }

  /** Writing settings and reading them back gives `ReadBack`, whatever the current mode held. */
  lemma WriteThenRead(device: DisplayDevice, current: DevMode, s: Settings)
    ensures GetScreenSettings(Some(ScreenInfo(device, ModeToApply(current, s)))) == ReadBack(s)
  {
    var m := ModeToApply(current, s);
    HasResolution(m.fields);
  }

  /** Settings with a real resolution, a whole refresh rate other than 1, and any depth survive the round trip unchanged. */
  lemma RoundTrip(device: DisplayDevice, current: DevMode, s: Settings)
    requires s.width > 0 && s.height > 0
    requires s.refreshRate == 0.0 || (s.refreshRate == s.refreshRate.Floor as real && s.refreshRate > 1.0)
    ensures GetScreenSettings(Some(ScreenInfo(device, ModeToApply(current, s)))) == s
  {
    WriteThenRead(device, current, s);
  }

  // ---------------------------------------------------------------------------
  // getScreenPosition
  // ---------------------------------------------------------------------------

  /** The position and size of a screen on the desktop. */
  datatype ScreenPosition = ScreenPosition(originX: int, originY: int, width: nat, height: nat)

  /** `getScreenPosition`: the current mode's position and size, or all zeros when the lookup fails. */
  function GetScreenPosition(info: Option<ScreenInfo>): (p: ScreenPosition)
    ensures info.None? ==> p == ScreenPosition(0, 0, 0, 0)
    ensures info.Some? ==> p.width == info.value.mode.pelsWidth && p.height == info.value.mode.pelsHeight
    ensures info.Some? ==> p.originX == info.value.mode.positionX && p.originY == info.value.mode.positionY
  {
    match info
    case None => ScreenPosition(0, 0, 0, 0)
    case Some(i) => ScreenPosition(i.mode.positionX, i.mode.positionY, i.mode.pelsWidth, i.mode.pelsHeight)
  }

  /** When the mode reports its resolution, the screen position and the screen settings agree on the size. */
  lemma PositionAgreesWithSettings(info: Option<ScreenInfo>)
    requires info.Some? && Has(info.value.mode.fields, DM_PELSWIDTH | DM_PELSHEIGHT)
    ensures GetScreenPosition(info).width == GetScreenSettings(info).width
    ensures GetScreenPosition(info).height == GetScreenSettings(info).height
  {
  }
}
