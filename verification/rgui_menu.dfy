/**
 * The RGUI menu as a state machine on values: the path stack, the folder buffer, the cursor and
 * the two refresh flags, stepped by one action at a time as rgui_iterate, rgui_settings_iterate
 * and rgui_viewport_iterate do it, together with rgui_settings_toggle_setting and the two
 * populate functions. The class in RguiHandle updates the same state in place and is proved to
 * agree with the functions here.
 */
module RguiMenu {
  import opened Wrappers
  import opened Globals
  import opened RguiTypes

  /** The fields of rgui_handle that the menu logic reads and writes. */
  datatype MenuState = MenuState(
    stack: seq<Entry>,   // path_stack: the menus entered so far, the current one last
    buf: seq<Entry>,     // folder_buf: the entries of the current menu
    ptr: Cursor,         // directory_ptr: the cursor
    needRefresh: bool,
    msgForce: bool,
    pathBuf: string)

  /** What every step keeps: the root directory stays at the bottom of the stack. */
  ghost predicate ValidMenu(m: MenuState)
  {
    |m.stack| >= 1 && m.stack[0].kind == FileDirectory
  }

  /** The state rgui_init leaves: the base path alone on the stack, everything else zeroed. */
  function InitialMenu(basePath: string): (m: MenuState)
    ensures ValidMenu(m) && m.stack == [Entry(basePath, FileDirectory, 0)]
    ensures m.buf == [] && m.ptr == 0 && !m.needRefresh && !m.msgForce
  {
    MenuState([Entry(basePath, FileDirectory, 0)], [], 0, false, false, "")
  }

  /** rgui_list_back on the path stack. */
  function Top(m: MenuState): Entry
    requires |m.stack| >= 1
  {
    m.stack[|m.stack| - 1]
  }

  /** rgui_list_pop followed by restoring the cursor saved with the popped menu. */
  function PopMenu(m: MenuState): MenuState
    requires |m.stack| >= 1
  {
    m.(ptr := Top(m).savedPtr, stack := m.stack[..|m.stack| - 1])
  }

  /** rgui_list_push of a new menu, saving the cursor, followed by resetting the cursor. */
  function PushMenu(m: MenuState, path: string, kind: FileType): MenuState
  {
    m.(stack := m.stack + [Entry(path, kind, m.ptr)], ptr := 0)
  }

  /**
   * What the menu asks of code outside this model: the folder callback, the sort routine, and
   * whether screenshot_dump manages to save the frame when the menu takes a screenshot in a state.
   */
  datatype Env = Env(
    folder: (string, FileType) -> seq<Entry>,
    sort: seq<Entry> -> seq<Entry>,
    screenshot: ConsoleState -> bool)

  /** The folder buffer after a listing refresh of the menu `top`: sorted unless the path is empty. */
  function Listing(env: Env, top: Entry): seq<Entry>
  {
    var entries := env.folder(top.path, top.kind);
    if |top.path| > 0 then env.sort(entries) else entries
  }

  // ---------------------------------------------------------------- the cursor

  /** UP: one entry back, wrapping from the first entry to the last. */
  function CursorUp(ptr: int, size: nat): int
  {
    if ptr > 0 then ptr - 1 else size - 1
  }

  /** DOWN: one entry on, wrapping from the last entry to the first. */
  function CursorDown(ptr: int, size: nat): int
  {
    if ptr + 1 < size then ptr + 1 else 0
  }

  /** LEFT: eight entries back, stopping at the first. */
  function PageUp(ptr: int): int
  {
    if ptr - 8 > 0 then ptr - 8 else 0
  }

  /** RIGHT: eight entries on, stopping at the last. */
  function PageDown(ptr: int, size: nat): int
  {
    if ptr + 8 < size then ptr + 8 else size - 1
  }

  /** Every cursor move of a non-empty list lands on an entry, and none goes below -1. */
  lemma CursorStaysInList(ptr: int, size: nat)
    requires -1 <= ptr
    ensures CursorUp(ptr, size) >= -1 && CursorDown(ptr, size) >= 0
    ensures PageUp(ptr) >= 0 && PageDown(ptr, size) >= -1
    ensures 0 < size && ptr < size ==>
      && 0 <= CursorUp(ptr, size) < size && 0 <= CursorDown(ptr, size) < size
      && 0 <= PageUp(ptr) < size && 0 <= PageDown(ptr, size) < size
  {
  }

  /** UP and DOWN undo each other on every entry of a non-empty list, across the wrap too. */
  lemma CursorUpDownInverse(ptr: int, size: nat)
    requires 0 <= ptr < size
    ensures CursorDown(CursorUp(ptr, size), size) == ptr
    ensures CursorUp(CursorDown(ptr, size), size) == ptr
  {
  }

  /** UP on the first entry wraps to the last, DOWN on the last wraps to the first. */
  lemma CursorWraps(size: nat)
    requires size > 0
    ensures CursorUp(0, size) == size - 1 && CursorDown(size - 1, size) == 0
  {
  }

  /** LEFT undoes RIGHT whenever RIGHT moved a full page. */
  lemma PageInverse(ptr: int, size: nat)
    requires 0 <= ptr && ptr + 8 < size
    ensures PageUp(PageDown(ptr, size)) == ptr
  {
  }

  // ---------------------------------------------------------------- populate

  /** rgui_settings_populate_entries: the settings menu of this build and game state. */
  function SettingsEntries(ingameMenu: bool, wii: bool): seq<Entry>
  {
    (if ingameMenu then InGameItems() else []) + FilterItems(wii) + CommonItems()
  }

  /** The items shown only while a game runs. */
  function InGameItems(): seq<Entry>
  {
    [Item("Save State", SettingsSavestateSave), Item("Load State", SettingsSavestateLoad),
     Item("Take Screenshot", SettingsScreenshot), Item("Restart Game", SettingsRestartGame)]
  }

  /** Hardware filtering, then the VI trap filter on the Wii. */
  function FilterItems(wii: bool): seq<Entry>
  {
    [Item("Hardware filtering", SettingsVideoFilter)]
    + (if wii then [Item("VI Trap filtering", SettingsVideoSoftFilter)] else [])
  }

  /** The items every build and game state shows, from Gamma to Exit RetroArch. */
  function CommonItems(): seq<Entry>
  {
    [Item("Gamma", SettingsVideoGamma),
     Item("Aspect Ratio", SettingsVideoAspectRatio),
     Item("Custom Ratio", SettingsCustomViewport),
     Item("Overscan", SettingsVideoOverscan),
     Item("Rotation", SettingsVideoRotation),
     Item("Mute Audio", SettingsAudioMute),
     Item("Audio Control Rate", SettingsAudioControlRate),
     Item("Zip Extract Directory", SettingsZipExtract),
     Item("Core", SettingsCore),
     Item("Controller #1 Config", SettingsController(0)),
     Item("Controller #2 Config", SettingsController(1)),
     Item("Controller #3 Config", SettingsController(2)),
     Item("Controller #4 Config", SettingsController(3)),
     Item("Debug Text", SettingsDebugText),
     Item("Restart RetroArch", SettingsRestartEmulator),
     Item("Exit RetroArch", SettingsQuitEmulator)]
  }

  /** The titles of the sixteen button rows of the controller menu, from Up to R3. */
  const BindTitles: seq<string> :=
    ["Up", "Down", "Left", "Right", "A", "B", "X", "Y", "Start", "Select", "L", "R", "L2", "R2", "L3", "R3"]

  /** rgui_settings_controller_populate_entries: device, d-pad mode, then one row per button. */
  function ControllerEntries(): seq<Entry>
  {
    [Item("Device", SettingsBindDevice), Item("DPad Emulation", SettingsBindDpadEmulation)]
      + seq(16, r requires 0 <= r < 16 => Item(BindTitles[r], SettingsBind(r)))
  }

  /** Positions of the items that every build and game state shows. */
  lemma CommonItemsShape()
    ensures |CommonItems()| == 16
    ensures CommonItems()[0].kind == SettingsVideoGamma && CommonItems()[8].kind == SettingsCore
    ensures forall p: ControllerPort :: CommonItems()[9 + p].kind == SettingsController(p)
    ensures CommonItems()[15].kind == SettingsQuitEmulator
  {
  }

  /** The items of the settings menu that every build and game state shows, in order. */
  lemma SettingsEntriesTail(ingameMenu: bool, wii: bool)
    ensures var es := SettingsEntries(ingameMenu, wii);
      var k := 1 + (if ingameMenu then 4 else 0) + (if wii then 1 else 0);
      && |es| == k + 16
      && es[k].kind == SettingsVideoGamma
      && es[k + 8].kind == SettingsCore
      && (forall p: ControllerPort :: es[k + 9 + p].kind == SettingsController(p))
      && es[|es| - 1].kind == SettingsQuitEmulator
  {
    var pre := (if ingameMenu then InGameItems() else []) + FilterItems(wii);
    var es := SettingsEntries(ingameMenu, wii);
    assert es == pre + CommonItems();
    CommonItemsShape();
    forall j | 0 <= j < 16
      ensures es[|pre| + j] == CommonItems()[j]
    {
    }
  }

  /** The in-game items appear exactly while a game runs, the VI filter exactly on the Wii. */
  lemma SettingsEntriesOptional(ingameMenu: bool, wii: bool)
    ensures var es := SettingsEntries(ingameMenu, wii);
      && (ingameMenu <==> exists i :: 0 <= i < |es| && es[i].kind == SettingsSavestateSave)
      && (wii <==> exists i :: 0 <= i < |es| && es[i].kind == SettingsVideoSoftFilter)
  {
    var es := SettingsEntries(ingameMenu, wii);
    if ingameMenu {
      assert es[0].kind == SettingsSavestateSave;
    }
    if wii {
      assert es[(if ingameMenu then 4 else 0) + 1].kind == SettingsVideoSoftFilter;
    }
  }

  /** No entry of es is a file, a directory or a device. */
  ghost predicate NoFiles(es: seq<Entry>)
  {
    forall i :: 0 <= i < |es| ==> es[i].kind != FilePlain && es[i].kind != FileDirectory && es[i].kind != FileDevice
  }

  lemma NoFilesAppend(a: seq<Entry>, b: seq<Entry>)
    requires NoFiles(a) && NoFiles(b)
    ensures NoFiles(a + b)
  {
  }

  lemma CommonItemsNoFiles()
    ensures NoFiles(CommonItems())
  {
  }

  /** No item of the settings menu is a file, a directory or a device. */
  lemma SettingsEntriesAreSettings(ingameMenu: bool, wii: bool)
    ensures NoFiles(SettingsEntries(ingameMenu, wii))
  {
    var games := if ingameMenu then InGameItems() else [];
    assert NoFiles(games);
    assert NoFiles(FilterItems(wii));
    CommonItemsNoFiles();
    NoFilesAppend(games, FilterItems(wii));
    NoFilesAppend(games + FilterItems(wii), CommonItems());
  }

  /** Row r+2 of the controller menu edits the button of row r of the controller table. */
  lemma ControllerEntriesShape()
    ensures |ControllerEntries()| == 18
    ensures ControllerEntries()[0].kind == SettingsBindDevice
    ensures ControllerEntries()[1].kind == SettingsBindDpadEmulation
    ensures forall r: BindIndex :: ControllerEntries()[r + 2].kind == SettingsBind(r)
  {
  }

  // ---------------------------------------------------------------- rgui_settings_toggle_setting

  const DeviceLast: nat := 4       // RARCH_DEVICE_LAST
  const DpadLast: nat := 3         // DPAD_EMULATION_LAST
  const DpadLStick: nat := 1       // DPAD_EMULATION_LSTICK

  /** MAX_GAMMA_SETTING */
  function MaxGamma(b: Build): nat
  {
    if b.gekko then 2 else 1
  }

  /** LAST_ZIP_EXTRACT */
  function LastZipExtract(b: Build): nat
  {
    if b.hddCachePartition then 2 else 1
  }

  /** The actions that adjust a setting. */
  predicate IsAdjust(a: Action)
  {
    a == Start || a == Left || a == Right
  }

  /** The call made for START, LEFT and RIGHT by the settings that step through values. */
  function Adjust(a: Action, onStart: Effect, onLeft: Effect, onRight: Effect): seq<Effect>
  {
    if a == Start then [onStart] else if a == Left then [onLeft] else if a == Right then [onRight] else []
  }

  /**
   * The per-port device and d-pad update: add the number of values, then reset (START), step
   * down (LEFT) or up (RIGHT), then reduce modulo the number of values, in unsigned arithmetic.
   */
  function CycleStep(v: U32, a: Action, n: nat, start: nat): (r: U32)
    requires 0 < n <= 4 && start < n
    ensures r < n
  {
    var bumped := Wrap32(v + n);
    var moved :=
      if a == Start then start
      else if a == Left then Wrap32(bumped - 1)
      else if a == Right then Wrap32(bumped + 1)
      else bumped;
    moved % n
  }

  /** On a value in range the update is a cyclic step down or up, a reset, or nothing. */
  lemma CycleStepCycles(v: U32, a: Action, n: nat, start: nat)
    requires 0 < n <= 4 && start < n && v < n
    ensures a == Start ==> CycleStep(v, a, n, start) == start
    ensures a == Left ==> CycleStep(v, a, n, start) == if v == 0 then n - 1 else v - 1
    ensures a == Right ==> CycleStep(v, a, n, start) == if v == n - 1 then 0 else v + 1
    ensures !IsAdjust(a) ==> CycleStep(v, a, n, start) == v
  {
  }

  /** LEFT and RIGHT undo each other. */
  lemma CycleStepInverse(v: U32, n: nat, start: nat)
    requires 0 < n <= 4 && start < n && v < n
    ensures CycleStep(CycleStep(v, Left, n, start), Right, n, start) == v
    ensures CycleStep(CycleStep(v, Right, n, start), Left, n, start) == v
  {
    CycleStepCycles(v, Left, n, start);
    CycleStepCycles(v, Right, n, start);
    CycleStepCycles(CycleStep(v, Left, n, start), Right, n, start);
    CycleStepCycles(CycleStep(v, Right, n, start), Left, n, start);
  }

  function SetGamma(g: ConsoleState, gamma: nat): ConsoleState
  {
    Log(g.(video := g.video.(gammaCorrection := gamma)), [ApplyStateChanges])
  }

  function SetDevice(g: ConsoleState, port: ControllerPort, d: U32): ConsoleState
    requires port < |g.input.device|
  {
    g.(input := g.input.(device := g.input.device[port := d]))
  }

  function SetDpad(g: ConsoleState, port: ControllerPort, d: U32): ConsoleState
    requires port < |g.input.dpadEmulation|
  {
    g.(input := g.input.(dpadEmulation := g.input.dpadEmulation[port := d]))
  }

  /** The device row of a controller menu: cycle the device and reload the port's bindings. */
  function BindDevice(g: ConsoleState, port: ControllerPort, a: Action): ConsoleState
    requires ValidState(g)
  {
    var d := CycleStep(g.input.device[port], a, DeviceLast, 0);
    Log(SetDevice(g, port, d),
      [SetDefaultKeybindLut(d, port), SetDefaultKeybinds(port),
       SetAnalogDpadMapping(d, g.input.dpadEmulation[port], port)])
  }

  /** The d-pad row of a controller menu: cycle the mode (START picks the left stick). */
  function BindDpad(g: ConsoleState, port: ControllerPort, a: Action): ConsoleState
    requires ValidState(g)
  {
    var d := CycleStep(g.input.dpadEmulation[port], a, DpadLast, DpadLStick);
    Log(SetDpad(g, port, d), [SetAnalogDpadMapping(g.input.device[port], d, port)])
  }

  /** The keybind edit START, LEFT and RIGHT ask for. */
  function KeybindFor(a: Action): KeybindOp
    requires IsAdjust(a)
  {
    if a == Start then KeybindDefault else if a == Left then KeybindDecrement else KeybindIncrement
  }

  /** The message queued after a screenshot, from what screenshot_dump returned. */
  function ScreenshotMessage(saved: bool): string
  {
    if saved then "Screenshot saved" else "Screenshot failed to save"
  }

  /**
   * rgui_settings_toggle_setting, with START on the rotation item resetting the rotation (see
   * RotationToggleAsWritten for the code as written). The controller rows act on the port of the
   * controller menu `menuType`; outside a controller menu they do nothing. `saved` is what
   * screenshot_dump returns when the screenshot item calls it.
   */
  function Toggle(g: ConsoleState, setting: FileType, a: Action, menuType: FileType, saved: bool): (r: ConsoleState)
    requires ValidState(g)
    ensures ValidState(r) && r.build == g.build && r.modeSwitch == g.modeSwitch
  {
    match setting
    case SettingsSavestateSave =>
      if a == Ok then Log(g, [SaveState, Change(ReturnToGame)])
      else Log(g, Adjust(a, Default(DefSaveState), Change(SavestateDecrement), Change(SavestateIncrement)))
    case SettingsSavestateLoad =>
      if a == Ok then Log(g, [LoadState, Change(ReturnToGame)])
      else Log(g, Adjust(a, Default(DefSaveState), Change(SavestateDecrement), Change(SavestateIncrement)))
    case SettingsScreenshot =>
      if a == Ok then Log(g, [ScreenshotDump, MsgPush(ScreenshotMessage(saved))]) else g
    case SettingsRestartGame =>
      if a == Ok then Log(g, [Change(ReturnToGame), GameReset]) else g
    case SettingsVideoFilter =>
      Log(g, [if a == Start then Default(DefHwTextureFilter) else Change(HwTextureFilter)])
    case SettingsVideoSoftFilter =>
      if g.build.wii then
        Log(g.(video := g.video.(softDisplayFilterEnable := !g.video.softDisplayFilterEnable)), [ApplyStateChanges])
      else g
    case SettingsVideoGamma =>
      var gamma := g.video.gammaCorrection;
      if a == Start then SetGamma(g, 0)
      else if a == Left && gamma > 0 then SetGamma(g, gamma - 1)
      else if a == Right && gamma < MaxGamma(g.build) then SetGamma(g, gamma + 1)
      else g
    case SettingsVideoAspectRatio =>
      Log(g, Adjust(a, Default(DefAspectRatio), Change(AspectRatioDecrement), Change(AspectRatioIncrement))
             + [VideoSetAspectRatio])
    case SettingsVideoRotation =>
      if IsAdjust(a) then
        Log(g, Adjust(a, Default(DefRotation), Change(RotationDecrement), Change(RotationIncrement))
               + [VideoSetRotation])
      else g
    case SettingsVideoOverscan =>
      if IsAdjust(a) then
        Log(g, Adjust(a, Default(DefOverscan), Change(OverscanDecrement), Change(OverscanIncrement))
               + [ApplyStateChanges])
      else g
    case SettingsAudioMute =>
      Log(g, [if a == Start then Default(DefAudioMute) else Change(AudioMute)])
    case SettingsAudioControlRate =>
      Log(g, Adjust(a, Default(DefAudioControlRate), Change(AudioControlRateDecrement),
                    Change(AudioControlRateIncrement)))
    case SettingsZipExtract =>
      var zip := g.frontend.zipExtractMode;
      if a == Start then g.(frontend := g.frontend.(zipExtractMode := 0))
      else if a == Left && zip > 0 then g.(frontend := g.frontend.(zipExtractMode := zip - 1))
      else if a == Right && zip < LastZipExtract(g.build) then g.(frontend := g.frontend.(zipExtractMode := zip + 1))
      else g
    case SettingsDebugText =>
      if a == Start || a == Left then g.(frontend := g.frontend.(fpsInfoMsgEnable := false))
      else if a == Right then g.(frontend := g.frontend.(fpsInfoMsgEnable := true))
      else g
    case SettingsRestartEmulator =>
      if a != Ok then g
      else if g.build.gekko then
        Log(g.(frontend := g.frontend.(launchAppOnExit := g.frontend.coreDir + "/boot.dol")), [Change(ReturnToLauncher)])
      else Log(g, [Change(ReturnToLauncher)])
    case SettingsQuitEmulator =>
      if a == Ok then Log(g, [Change(Quit)]) else g
    case SettingsBindDevice =>
      if menuType.SettingsController? then BindDevice(g, menuType.port, a) else g
    case SettingsBindDpadEmulation =>
      if menuType.SettingsController? then BindDpad(g, menuType.port, a) else g
    case SettingsBind(row) =>
      if menuType.SettingsController? && IsAdjust(a) then
        Log(g, [SetKeybind(menuType.port, KeybindFor(a), ControllerLut[row])])
      else g
    case _ => g
  }

  /** A setting in range stays in range: device, d-pad mode, gamma and zip mode. */
  lemma ToggleKeepsRanges(g: ConsoleState, setting: FileType, a: Action, menuType: FileType, p: ControllerPort, saved: bool)
    requires ValidState(g)
    requires g.input.device[p] < DeviceLast && g.input.dpadEmulation[p] < DpadLast
    requires g.video.gammaCorrection <= MaxGamma(g.build)
    requires g.frontend.zipExtractMode <= LastZipExtract(g.build)
    ensures var g' := Toggle(g, setting, a, menuType, saved);
      && ValidState(g')
      && g'.input.device[p] < DeviceLast && g'.input.dpadEmulation[p] < DpadLast
      && g'.video.gammaCorrection <= MaxGamma(g'.build)
      && g'.frontend.zipExtractMode <= LastZipExtract(g'.build)
      && g'.build == g.build && g'.modeSwitch == g.modeSwitch && g'.startup == g.startup
  {
  }

  /** A controller row changes the settings of its own port and of no other. */
  lemma ToggleTouchesOnePort(g: ConsoleState, setting: FileType, a: Action, port: ControllerPort, q: ControllerPort, saved: bool)
    requires ValidState(g) && q != port
    ensures var g' := Toggle(g, setting, a, SettingsController(port), saved);
      g'.input.device[q] == g.input.device[q] && g'.input.dpadEmulation[q] == g.input.dpadEmulation[q]
  {
  }

  /** The device row: RIGHT and LEFT cycle through the four devices, START picks the first. */
  lemma BindDeviceCycles(g: ConsoleState, a: Action, port: ControllerPort, saved: bool)
    requires ValidState(g) && g.input.device[port] < DeviceLast
    ensures var d := g.input.device[port];
      var g' := Toggle(g, SettingsBindDevice, a, SettingsController(port), saved);
      && (a == Right ==> g'.input.device[port] == (d + 1) % DeviceLast)
      && (a == Left ==> g'.input.device[port] == (d + DeviceLast - 1) % DeviceLast)
      && (a == Start ==> g'.input.device[port] == 0)
      && g'.effects[|g.effects|..] ==
           [SetDefaultKeybindLut(g'.input.device[port], port), SetDefaultKeybinds(port),
            SetAnalogDpadMapping(g'.input.device[port], g.input.dpadEmulation[port], port)]
  {
    CycleStepCycles(g.input.device[port], a, DeviceLast, 0);
  }

  /** A button row sends the joypad id of its label to the keybind setter of the menu's port. */
  lemma BindRowEditsItsButton(g: ConsoleState, a: Action, port: ControllerPort, row: BindIndex, saved: bool)
    requires ValidState(g) && IsAdjust(a)
    ensures var g' := Toggle(g, SettingsBind(row), a, SettingsController(port), saved);
      && g'.effects == g.effects + [SetKeybind(port, KeybindFor(a), ControllerLut[row])]
      && g'.input == g.input
  {
  }

  /** Debug text: START and LEFT switch the frame counter off, RIGHT switches it on. */
  lemma DebugTextSwitch(g: ConsoleState, a: Action, menuType: FileType, saved: bool)
    requires ValidState(g)
    ensures var g' := Toggle(g, SettingsDebugText, a, menuType, saved);
      && (a == Start || a == Left ==> !g'.frontend.fpsInfoMsgEnable)
      && (a == Right ==> g'.frontend.fpsInfoMsgEnable)
      && (!IsAdjust(a) ==> g' == g)
      && g'.effects == g.effects
  {
  }

  /**
   * The screenshot row: OK dumps the frame and queues "Screenshot saved" or "Screenshot failed to
   * save" as the dump reports; no setting changes, and any other action does nothing.
   */
  lemma ScreenshotReports(g: ConsoleState, a: Action, menuType: FileType, saved: bool)
    requires ValidState(g)
    ensures var g' := Toggle(g, SettingsScreenshot, a, menuType, saved);
      && (a == Ok ==> g'.effects == g.effects + [ScreenshotDump, MsgPush(if saved then "Screenshot saved" else "Screenshot failed to save")])
      && (a != Ok ==> g' == g)
      && g'.(effects := g.effects) == g
  {
  }

  /** Gamma: START resets, LEFT and RIGHT step within [0, MAX_GAMMA_SETTING] and saturate. */
  lemma GammaSaturates(g: ConsoleState, a: Action, menuType: FileType, saved: bool)
    requires ValidState(g)
    ensures var gamma := g.video.gammaCorrection;
      var g' := Toggle(g, SettingsVideoGamma, a, menuType, saved);
      && (a == Start ==> g'.video.gammaCorrection == 0)
      && (a == Left ==> g'.video.gammaCorrection == if gamma > 0 then gamma - 1 else gamma)
      && (a == Right ==> g'.video.gammaCorrection == if gamma < MaxGamma(g.build) then gamma + 1 else gamma)
      && g'.effects == if a == Start || g'.video.gammaCorrection != gamma then g.effects + [ApplyStateChanges] else g.effects
  {
  }

  /** The rotation item: START resets the rotation before the rotation is applied. */
  lemma RotationStartResetsRotation(g: ConsoleState, menuType: FileType, saved: bool)
    requires ValidState(g)
    ensures Toggle(g, SettingsVideoRotation, Start, menuType, saved).effects
      == g.effects + [Default(DefRotation), VideoSetRotation]
  {
  }

  /** START on the rotation item as the code is written: the audio control rate default. */
  function RotationToggleAsWritten(g: ConsoleState, a: Action, menuType: FileType, saved: bool): ConsoleState
    requires ValidState(g)
  {
    if a == Start then Log(g, [Default(DefAudioControlRate), VideoSetRotation])
    else Toggle(g, SettingsVideoRotation, a, menuType, saved)
  }

  /**
   * As written, START on "Rotation" resets the audio control rate, exactly as START on
   * "Audio Control Rate" does, and never resets the rotation.
   */
  lemma RotationStartResetsAudioRate(g: ConsoleState, menuType: FileType, saved: bool)
    requires ValidState(g)
    ensures var g' := RotationToggleAsWritten(g, Start, menuType, saved);
      && g'.effects == Toggle(g, SettingsAudioControlRate, Start, menuType, saved).effects + [VideoSetRotation]
      && Default(DefRotation) !in g'.effects[|g.effects|..]
  {
    var g' := RotationToggleAsWritten(g, Start, menuType, saved);
    assert g'.effects[|g.effects|..] == [Default(DefAudioControlRate), VideoSetRotation];
  }

  // ---------------------------------------------------------------- the three iterate functions

  /** The outcome of an action before render_text: the new state and the viewport prompt. */
  datatype Next =
    | Render(menu: MenuState, console: ConsoleState, prompt: Option<string>)
    | Done(menu: MenuState, console: ConsoleState)   // returned before rendering

  /** The end of rgui_iterate: a listing menu that needs a refresh is re-listed (menu mode only). */
  function BrowserFinish(env: Env, m: MenuState, g: ConsoleState): (r: Next)
    requires ValidMenu(m)
    ensures ValidMenu(r.menu) && r.console == g
  {
    var top := Top(m);
    if m.needRefresh && IsListingMenu(top.kind) && g.modeSwitch == ModeMenu then
      Render(m.(needRefresh := false, buf := Listing(env, top)), g, None)
    else Render(m, g, None)
  }

  /** OK on the directory entry `name` of the file browser, as corrected: ".." at the root stays. */
  function OpenDirectory(m: MenuState, name: string): (r: MenuState)
    requires ValidMenu(m)
    ensures ValidMenu(r) && r.needRefresh
  {
    var m' :=
      if name == ".." then (if |m.stack| > 1 then PopMenu(m) else m)
      else if name == "." then m
      else PushMenu(m, Top(m).path + "/" + name, FileDirectory);
    m'.(needRefresh := true)
  }

  /** OK on the directory entry `name` as the code is written: ".." pops whatever the stack holds. */
  function OpenDirectoryAsWritten(m: MenuState, name: string): MenuState
    requires ValidMenu(m)
  {
    var m' :=
      if name == ".." then PopMenu(m)
      else if name == "." then m
      else PushMenu(m, Top(m).path + "/" + name, FileDirectory);
    m'.(needRefresh := true)
  }

  /**
   * OK on ".." in the base directory pops the only menu as written, leaving a stack from which
   * the next rgui_list_back reads nothing; the corrected version keeps the base directory.
   */
  lemma DotDotAtRootEmptiesStack(m: MenuState)
    requires ValidMenu(m) && |m.stack| == 1
    ensures OpenDirectoryAsWritten(m, "..").stack == []
    ensures !ValidMenu(OpenDirectoryAsWritten(m, ".."))
    ensures OpenDirectory(m, "..").stack == m.stack && ValidMenu(OpenDirectory(m, ".."))
  {
  }

  /** Away from the root the corrected ".." is the code as written. */
  lemma OpenDirectoryAgrees(m: MenuState, name: string)
    requires ValidMenu(m) && (|m.stack| > 1 || name != "..")
    ensures OpenDirectory(m, name) == OpenDirectoryAsWritten(m, name)
  {
  }

  /** OK on the selected entry of a non-empty folder buffer (rgui_iterate, RGUI_ACTION_OK). */
  function Open(m: MenuState, g: ConsoleState): (r: (MenuState, ConsoleState))
    requires ValidMenu(m)
    ensures ValidMenu(r.0) && r.1.build == g.build && r.1.input == g.input
  {
    if !(0 <= m.ptr < |m.buf|) then (m, g)
    else
      var e := m.buf[m.ptr];
      var top := Top(m);
      if e.kind == FileDirectory then (OpenDirectory(m, e.path), g)
      else if e.kind == FileDevice then (PushMenu(m, e.path, FileDevice).(needRefresh := true), g)
      else if top.kind == SettingsCore then
        (PopMenu(m).(needRefresh := true),
         Log(g.(frontend := g.frontend.(libretro := e.path)), [MsgPush("Change requires restart to take effect")]))
      else
        var path := top.path + "/" + e.path;
        (m.(pathBuf := path, needRefresh := true, msgForce := true),
         Log(g, [LoadGame(path, g.frontend.zipExtractMode)]))
  }

  /** The switch of rgui_iterate for every action but SETTINGS and OK on an empty buffer. */
  function BrowserMove(m: MenuState, g: ConsoleState, a: Action): (r: (MenuState, ConsoleState))
    requires ValidMenu(m)
    ensures ValidMenu(r.0) && r.1.build == g.build && r.1.input == g.input
  {
    match a
    case Up => (m.(ptr := CursorUp(m.ptr, |m.buf|)), g)
    case Down => (m.(ptr := CursorDown(m.ptr, |m.buf|)), g)
    case Left => (m.(ptr := PageUp(m.ptr)), g)
    case Right => (m.(ptr := PageDown(m.ptr, |m.buf|)), g)
    case Cancel => (if |m.stack| > 1 then PopMenu(m).(needRefresh := true) else m, g)
    case Ok => Open(m, g)
    case Refresh => (m.(ptr := 0, needRefresh := true), g)
    case Message => (m.(msgForce := true), g)
    case _ => (m, g)
  }

  /** SETTINGS in the file browser: leave the core list, or enter the settings menu. */
  function EnterSettings(m: MenuState): (r: MenuState)
    requires ValidMenu(m)
    ensures ValidMenu(r)
  {
    if Top(m).kind == SettingsCore then PopMenu(m).(needRefresh := true)
    else PushMenu(m, "", SettingsMenu)
  }

  /** While a refresh is pending the file browser ignores every action but MESSAGE. */
  function BrowserAction(m: MenuState, action: Action): Action
  {
    if m.needRefresh && action != Message then Noop else action
  }

  /** rgui_iterate on a file browser menu (a directory, a device or the core list). */
  function BrowserAct(env: Env, m: MenuState, g: ConsoleState, action: Action): (r: Next)
    requires ValidMenu(m) && ValidState(g)
    ensures ValidMenu(r.menu) && ValidState(r.console)
  {
    var a := BrowserAction(m, action);
    if a == Ok && |m.buf| == 0 then Done(m, g)
    else if a == Settings then SettingsAct(env, EnterSettings(m), g, Refresh)
    else
      var (m1, g1) := BrowserMove(m, g, a);
      BrowserFinish(env, m1, g1)
  }

  /** OK on an empty folder buffer returns before rendering; SETTINGS runs the settings menu. */
  lemma BrowserActCases(env: Env, m: MenuState, g: ConsoleState, action: Action)
    requires ValidMenu(m) && ValidState(g)
    ensures var a := BrowserAction(m, action);
      && (a == Ok && |m.buf| == 0 ==> BrowserAct(env, m, g, action) == Done(m, g))
      && (a == Settings ==> BrowserAct(env, m, g, action) == SettingsAct(env, EnterSettings(m), g, Refresh))
  {
  }

  /** Every other action of rgui_iterate is its switch followed by the refresh of the listing. */
  lemma BrowserActSplits(env: Env, m: MenuState, g: ConsoleState, action: Action, m1: MenuState, g1: ConsoleState)
    requires ValidMenu(m) && ValidState(g)
    requires var a := BrowserAction(m, action);
      a != Settings && (a == Ok ==> |m.buf| > 0) && (m1, g1) == BrowserMove(m, g, a)
    ensures ValidMenu(m1)
    ensures BrowserAct(env, m, g, action) == BrowserFinish(env, m1, g1)
  {
  }

  /** OK, START, LEFT or RIGHT on the selected entry of a settings menu. */
  function SettingsActivate(env: Env, m: MenuState, g: ConsoleState, a: Action): (r: (MenuState, ConsoleState))
    requires ValidMenu(m) && ValidState(g)
    ensures ValidMenu(r.0) && ValidState(r.1)
  {
    if !(0 <= m.ptr < |m.buf|) then (m, g)
    else
      var e := m.buf[m.ptr];
      var name := if e.kind == SettingsCore then g.frontend.coreDir else e.path;
      if (IsControllerMenu(e.kind) || e.kind == SettingsCore) && a == Ok then
        (PushMenu(m, name, e.kind).(needRefresh := true), g)
      else if e.kind == SettingsCustomViewport && a == Ok then
        (m.(stack := m.stack + [Entry("", e.kind, m.ptr)]),
         Log(g.(video := g.video.(aspectRatio := AspectRatioCustom)), [VideoSetAspectRatio]))
      else (m, Toggle(g, e.kind, a, Top(m).kind, env.screenshot(g)))
  }

  /** OK on a controller row or on the core row enters its menu. */
  lemma ActivateEnters(env: Env, m: MenuState, g: ConsoleState, a: Action)
    requires ValidMenu(m) && ValidState(g) && 0 <= m.ptr < |m.buf|
    requires var e := m.buf[m.ptr]; (IsControllerMenu(e.kind) || e.kind == SettingsCore) && a == Ok
    ensures var e := m.buf[m.ptr];
      SettingsActivate(env, m, g, a) ==
        (PushMenu(m, if e.kind == SettingsCore then g.frontend.coreDir else e.path, e.kind).(needRefresh := true), g)
  {
  }

  /** OK on the custom viewport row opens the upper-left editor. */
  lemma ActivateOpensViewport(env: Env, m: MenuState, g: ConsoleState, a: Action)
    requires ValidMenu(m) && ValidState(g) && 0 <= m.ptr < |m.buf|
    requires m.buf[m.ptr].kind == SettingsCustomViewport && a == Ok
    ensures SettingsActivate(env, m, g, a) ==
      (m.(stack := m.stack + [Entry("", SettingsCustomViewport, m.ptr)]),
       Log(g.(video := g.video.(aspectRatio := AspectRatioCustom)), [VideoSetAspectRatio]))
  {
  }

  /** Any other row is toggled. */
  lemma ActivateToggles(env: Env, m: MenuState, g: ConsoleState, a: Action)
    requires ValidMenu(m) && ValidState(g) && 0 <= m.ptr < |m.buf|
    requires var e := m.buf[m.ptr];
      !((IsControllerMenu(e.kind) || e.kind == SettingsCore || e.kind == SettingsCustomViewport) && a == Ok)
    ensures SettingsActivate(env, m, g, a) == (m, Toggle(g, m.buf[m.ptr].kind, a, Top(m).kind, env.screenshot(g)))
  {
  }

  /** The switch of rgui_settings_iterate. */
  function SettingsMove(env: Env, m: MenuState, g: ConsoleState, a: Action): (r: (MenuState, ConsoleState))
    requires ValidMenu(m) && ValidState(g)
    requires IsSettingsMenu(Top(m).kind) || a == Refresh || a == Noop
    ensures ValidMenu(r.0) && ValidState(r.1)
  {
    match a
    case Up => (m.(ptr := CursorUp(m.ptr, |m.buf|)), g)
    case Down => (m.(ptr := CursorDown(m.ptr, |m.buf|)), g)
    case Cancel => (PopMenu(m).(needRefresh := true), g)
    case Settings => (PopMenu(m).(needRefresh := true), g)
    case Left => SettingsActivate(env, m, g, a)
    case Right => SettingsActivate(env, m, g, a)
    case Ok => SettingsActivate(env, m, g, a)
    case Start => SettingsActivate(env, m, g, a)
    case Refresh => (m.(ptr := 0, needRefresh := true), g)
    case Message => (m.(msgForce := true), g)
    case Noop => (m, g)
  }

  /** The end of rgui_settings_iterate: a settings or controller menu is populated again. */
  function SettingsFinish(m: MenuState, g: ConsoleState): (r: Next)
    requires ValidMenu(m)
    ensures ValidMenu(r.menu) && r.console == g
  {
    var top := Top(m);
    if m.needRefresh && !IsListingMenu(top.kind) then
      var entries :=
        if IsControllerMenu(top.kind) then ControllerEntries()
        else SettingsEntries(g.frontend.ingameMenuEnable, g.build.wii);
      Render(m.(needRefresh := false, buf := entries), g, None)
    else Render(m, g, None)
  }

  /** While a refresh is pending the settings menus ignore every action. */
  function SettingsAction(m: MenuState, action: Action): Action
  {
    if m.needRefresh then Noop else action
  }

  /** rgui_settings_iterate; the file browser calls it with REFRESH after entering the settings. */
  function SettingsAct(env: Env, m: MenuState, g: ConsoleState, action: Action): (r: Next)
    requires ValidMenu(m) && ValidState(g)
    requires IsSettingsMenu(Top(m).kind) || action == Refresh
    ensures ValidMenu(r.menu) && ValidState(r.console)
  {
    var (m1, g1) := SettingsMove(env, m, g, SettingsAction(m, action));
    SettingsFinish(m1, g1)
  }

  /** rgui_settings_iterate is its switch followed by the repopulation. */
  lemma SettingsActSplits(env: Env, m: MenuState, g: ConsoleState, action: Action, m1: MenuState, g1: ConsoleState)
    requires ValidMenu(m) && ValidState(g)
    requires IsSettingsMenu(Top(m).kind) || action == Refresh
    requires (m1, g1) == SettingsMove(env, m, g, SettingsAction(m, action))
    ensures ValidMenu(m1)
    ensures SettingsAct(env, m, g, action) == SettingsFinish(m1, g1)
  {
  }

  /** The custom viewport, and its new value logged with apply_state_changes. */
  function MoveViewport(g: ConsoleState, vp: Viewport): ConsoleState
  {
    Log(g.(video := g.video.(customVp := vp)), [ApplyStateChanges])
  }

  /** Replaces the viewport editor on top of the stack by the other one. */
  function SwapViewportMenu(m: MenuState, kind: FileType): MenuState
    requires |m.stack| >= 1
  {
    m.(stack := m.stack[..|m.stack| - 1] + [Entry("", kind, 0)])
  }

  /** Leaves the viewport editor; the cursor of the settings menu is kept as it is. */
  function LeaveViewport(m: MenuState): MenuState
    requires |m.stack| >= 1
  {
    m.(stack := m.stack[..|m.stack| - 1])
  }

  /** The switch of rgui_viewport_iterate: the upper-left editor moves the corner, the other resizes. */
  function ViewportMove(m: MenuState, g: ConsoleState, a: Action): (r: (MenuState, ConsoleState))
    requires ValidMenu(m) && IsViewportMenu(Top(m).kind)
    ensures ValidMenu(r.0) && r.1.build == g.build && r.1.input == g.input
  {
    var upper := Top(m).kind == SettingsCustomViewport;
    var vp := g.video.customVp;
    match a
    case Up =>
      (m, MoveViewport(g, if upper then vp.(y := vp.y - 1, height := vp.height + 1) else vp.(height := vp.height - 1)))
    case Down =>
      (m, MoveViewport(g, if upper then vp.(y := vp.y + 1, height := vp.height - 1) else vp.(height := vp.height + 1)))
    case Left =>
      (m, MoveViewport(g, if upper then vp.(x := vp.x - 1, width := vp.width + 1) else vp.(width := vp.width - 1)))
    case Right =>
      (m, MoveViewport(g, if upper then vp.(x := vp.x + 1, width := vp.width - 1) else vp.(width := vp.width + 1)))
    case Cancel =>
      (if upper then LeaveViewport(m) else SwapViewportMenu(m, SettingsCustomViewport), g)
    case Ok =>
      (if upper then SwapViewportMenu(m, SettingsCustomViewport2) else LeaveViewport(m), g)
    case Start =>
      if !g.build.gekko then (m, Log(g, [ApplyStateChanges]))
      else if upper then (m, MoveViewport(g, Viewport(0, 0, vp.width + vp.x, vp.height + vp.y)))
      else (m, MoveViewport(g, vp.(width := g.video.winWidth - vp.x, height := g.video.winHeight - vp.y)))
    case Settings => (LeaveViewport(m), g)
    case Message => (m.(msgForce := true), g)
    case _ => (m, g)
  }

  /** The message box drawn over the viewport editor. */
  function ViewportPrompt(kind: FileType): Option<string>
  {
    if kind == SettingsCustomViewport then Some("Set Upper-Left Corner")
    else if kind == SettingsCustomViewport2 then Some("Set Bottom-Right Corner")
    else None
  }

  /** rgui_viewport_iterate. */
  function ViewportAct(m: MenuState, g: ConsoleState, a: Action): (r: Next)
    requires ValidMenu(m) && IsViewportMenu(Top(m).kind)
    ensures ValidMenu(r.menu) && r.console.build == g.build && r.console.input == g.input
  {
    var (m1, g1) := ViewportMove(m, g, a);
    Render(m1, g1, ViewportPrompt(Top(m1).kind))
  }

  /** rgui_viewport_iterate is its switch followed by the prompt of the editor it leaves on top. */
  lemma ViewportActSplits(m: MenuState, g: ConsoleState, a: Action, m1: MenuState, g1: ConsoleState)
    requires ValidMenu(m) && IsViewportMenu(Top(m).kind)
    requires (m1, g1) == ViewportMove(m, g, a)
    ensures ValidMenu(m1)
    ensures ViewportAct(m, g, a) == Render(m1, g1, ViewportPrompt(Top(m1).kind))
  {
  }

  /** rgui_iterate: the top of the stack chooses the settings, the viewport or the file browser. */
  function IterateAct(env: Env, m: MenuState, g: ConsoleState, a: Action): (r: Next)
    requires ValidMenu(m) && ValidState(g)
    ensures ValidMenu(r.menu) && ValidState(r.console)
  {
    var kind := Top(m).kind;
    if IsSettingsMenu(kind) then SettingsAct(env, m, g, a)
    else if IsViewportMenu(kind) then ViewportAct(m, g, a)
    else BrowserAct(env, m, g, a)
  }

  // ---------------------------------------------------------------- render_text

  /** render_text draws nothing while a refresh is pending in menu mode, unless a message is forced. */
  predicate Quiet(m: MenuState, g: ConsoleState)
  {
    m.needRefresh && g.modeSwitch == ModeMenu && !m.msgForce
  }

  /**
   * The state render_text leaves: on GEKKO it pulls the message queue only for a forced message
   * and then clears the force flag; elsewhere it pulls on every draw.
   */
  function RenderTextStep(m: MenuState, g: ConsoleState): (MenuState, ConsoleState)
  {
    if Quiet(m, g) then (m, g)
    else if !g.build.gekko then (m, Log(g, [MsgQueuePull]))
    else if m.msgForce then (m.(msgForce := false), Log(g, [MsgQueuePull]))
    else (m, g)
  }

  /** The state after an iterate function: render_text runs unless it returned early. */
  function AfterRender(n: Next): (MenuState, ConsoleState)
  {
    match n
    case Done(m, g) => (m, g)
    case Render(m, g, _) => RenderTextStep(m, g)
  }

  /** One action of the menu, from the state before it to the state after it. */
  function Step(env: Env, m: MenuState, g: ConsoleState, a: Action): (r: (MenuState, ConsoleState))
    requires ValidMenu(m) && ValidState(g)
    ensures ValidMenu(r.0) && ValidState(r.1)
    ensures r.0.stack == IterateAct(env, m, g, a).menu.stack && r.0.ptr == IterateAct(env, m, g, a).menu.ptr
  {
    AfterRender(IterateAct(env, m, g, a))
  }

  // ---------------------------------------------------------------- properties of the steps

  /** A file browser menu: neither a settings menu nor a viewport editor. */
  predicate IsBrowserMenu(kind: FileType)
  {
    !IsSettingsMenu(kind) && !IsViewportMenu(kind)
  }

  /**
   * While a refresh is pending the file browser acts on MESSAGE only: any other action just
   * completes the refresh, leaving the stack, the cursor and the console as they are.
   */
  lemma BrowserWaitsForRefresh(env: Env, m: MenuState, g: ConsoleState, a: Action)
    requires ValidMenu(m) && ValidState(g) && IsBrowserMenu(Top(m).kind)
    requires m.needRefresh && a != Message
    ensures IterateAct(env, m, g, a) == BrowserFinish(env, m, g)
    ensures var r := IterateAct(env, m, g, a); r.menu.stack == m.stack && r.menu.ptr == m.ptr && r.console == g
  {
  }

  /** While a refresh is pending the settings menus ignore every action, MESSAGE included. */
  lemma SettingsWaitForRefresh(env: Env, m: MenuState, g: ConsoleState, a: Action)
    requires ValidMenu(m) && ValidState(g) && IsSettingsMenu(Top(m).kind)
    requires m.needRefresh
    ensures IterateAct(env, m, g, a) == SettingsFinish(m, g)
    ensures var r := IterateAct(env, m, g, a);
      && r.menu.stack == m.stack && r.menu.ptr == m.ptr && r.menu.msgForce == m.msgForce
      && r.console == g && !r.menu.needRefresh
  {
    assert IterateAct(env, m, g, a) == SettingsAct(env, m, g, a);
    SettingsActSplits(env, m, g, a, m, g);
  }

  /**
   * CANCEL in the file browser leaves the current menu and restores the cursor saved with it,
   * except in the base directory, where nothing happens.
   */
  lemma BrowserCancel(env: Env, m: MenuState, g: ConsoleState)
    requires ValidMenu(m) && ValidState(g) && IsBrowserMenu(Top(m).kind) && !m.needRefresh
    ensures var r := IterateAct(env, m, g, Cancel);
      && r.console == g
      && (|m.stack| > 1 ==> r.menu.stack == m.stack[..|m.stack| - 1] && r.menu.ptr == Top(m).savedPtr)
      && (|m.stack| == 1 ==> r == Render(m, g, None))
  {
  }

  /** CANCEL and SETTINGS in a settings menu go back to the menu below and its saved cursor. */
  lemma SettingsCancel(env: Env, m: MenuState, g: ConsoleState, a: Action)
    requires ValidMenu(m) && ValidState(g) && IsSettingsMenu(Top(m).kind) && !m.needRefresh
    requires a == Cancel || a == Settings
    ensures |m.stack| > 1
    ensures var r := IterateAct(env, m, g, a);
      r.menu.stack == m.stack[..|m.stack| - 1] && r.menu.ptr == Top(m).savedPtr && r.console == g
  {
  }

  /** OK on an empty folder buffer returns at once: nothing changes and nothing is drawn. */
  lemma BrowserOkOnEmptyBuffer(env: Env, m: MenuState, g: ConsoleState)
    requires ValidMenu(m) && ValidState(g) && IsBrowserMenu(Top(m).kind) && !m.needRefresh
    requires |m.buf| == 0
    ensures IterateAct(env, m, g, Ok) == Done(m, g)
    ensures Step(env, m, g, Ok) == (m, g)
  {
  }

  /**
   * OK on a directory entry: ".." goes back (except in the base directory), "." stays, any
   * other name enters "dir/name" with the cursor at the top. A refresh follows in every case;
   * it has already run when the new menu lists a directory in menu mode.
   */
  lemma BrowserOkOnDirectory(env: Env, m: MenuState, g: ConsoleState)
    requires ValidMenu(m) && ValidState(g) && IsBrowserMenu(Top(m).kind) && !m.needRefresh
    requires 0 <= m.ptr < |m.buf| && m.buf[m.ptr].kind == FileDirectory
    ensures var name := m.buf[m.ptr].path;
      var r := IterateAct(env, m, g, Ok);
      && r.console == g
      && (name == ".." && |m.stack| > 1 ==> r.menu.stack == m.stack[..|m.stack| - 1] && r.menu.ptr == Top(m).savedPtr)
      && (name == ".." && |m.stack| == 1 ==> r.menu.stack == m.stack && r.menu.ptr == m.ptr)
      && (name == "." ==> r.menu.stack == m.stack && r.menu.ptr == m.ptr)
      && (name != ".." && name != "." ==>
            r.menu.stack == m.stack + [Entry(Top(m).path + "/" + name, FileDirectory, m.ptr)] && r.menu.ptr == 0)
      && (r.menu.needRefresh <==> !(IsListingMenu(Top(r.menu).kind) && g.modeSwitch == ModeMenu))
      && (!r.menu.needRefresh ==> r.menu.buf == Listing(env, Top(r.menu)))
  {
    var m1 := OpenDirectory(m, m.buf[m.ptr].path);
    assert BrowserMove(m, g, Ok) == (m1, g);
    BrowserActSplits(env, m, g, Ok, m1, g);
    assert IterateAct(env, m, g, Ok) == BrowserFinish(env, m1, g);
  }

  /** OK on a device entry enters the device with the cursor at the top. */
  lemma BrowserOkOnDevice(env: Env, m: MenuState, g: ConsoleState)
    requires ValidMenu(m) && ValidState(g) && IsBrowserMenu(Top(m).kind) && !m.needRefresh
    requires 0 <= m.ptr < |m.buf| && m.buf[m.ptr].kind == FileDevice
    ensures var r := IterateAct(env, m, g, Ok);
      && r.menu.stack == m.stack + [Entry(m.buf[m.ptr].path, FileDevice, m.ptr)] && r.menu.ptr == 0
      && r.console == g
  {
  }

  /**
   * OK on any other entry: in the core list it selects the core, leaves the list and queues the
   * restart notice; elsewhere it loads "dir/name" as a game with the current zip mode.
   */
  lemma BrowserOkOnFile(env: Env, m: MenuState, g: ConsoleState)
    requires ValidMenu(m) && ValidState(g) && IsBrowserMenu(Top(m).kind) && !m.needRefresh
    requires 0 <= m.ptr < |m.buf| && m.buf[m.ptr].kind != FileDirectory && m.buf[m.ptr].kind != FileDevice
    ensures var e := m.buf[m.ptr];
      var r := IterateAct(env, m, g, Ok);
      && (Top(m).kind == SettingsCore ==>
            && r.menu.stack == m.stack[..|m.stack| - 1] && r.menu.ptr == Top(m).savedPtr
            && r.console.frontend.libretro == e.path
            && r.console.effects == g.effects + [MsgPush("Change requires restart to take effect")])
      && (Top(m).kind != SettingsCore ==>
            && r.menu.stack == m.stack && r.menu.ptr == m.ptr && r.menu.msgForce
            && r.menu.pathBuf == Top(m).path + "/" + e.path
            && r.console.effects == g.effects + [LoadGame(r.menu.pathBuf, g.frontend.zipExtractMode)])
  {
  }

  /**
   * SETTINGS in a directory opens the settings menu on top of it, populated at once; in the core
   * list it goes back to the menu below, populated at once when that is a settings menu.
   */
  lemma BrowserOpensSettings(env: Env, m: MenuState, g: ConsoleState)
    requires ValidMenu(m) && ValidState(g) && IsBrowserMenu(Top(m).kind) && !m.needRefresh
    ensures var r := IterateAct(env, m, g, Settings);
      && r.console == g
      && (Top(m).kind != SettingsCore ==>
            && r.menu.stack == m.stack + [Entry("", SettingsMenu, m.ptr)] && r.menu.ptr == 0
            && r.menu.buf == SettingsEntries(g.frontend.ingameMenuEnable, g.build.wii) && !r.menu.needRefresh)
      && (Top(m).kind == SettingsCore ==>
            r.menu.stack == m.stack[..|m.stack| - 1] && r.menu.ptr == Top(m).savedPtr)
  {
    BrowserActCases(env, m, g, Settings);
    if Top(m).kind == SettingsCore {
      SettingsFromCore(env, m, g);
    } else {
      SettingsFromDirectory(env, m, g);
    }
  }

  lemma SettingsFromDirectory(env: Env, m: MenuState, g: ConsoleState)
    requires ValidMenu(m) && ValidState(g) && Top(m).kind != SettingsCore && !m.needRefresh
    ensures var r := SettingsAct(env, EnterSettings(m), g, Refresh);
      && r.console == g
      && r.menu.stack == m.stack + [Entry("", SettingsMenu, m.ptr)] && r.menu.ptr == 0
      && r.menu.buf == SettingsEntries(g.frontend.ingameMenuEnable, g.build.wii) && !r.menu.needRefresh
  {
    var m1 := EnterSettings(m);
    SettingsActSplits(env, m1, g, Refresh, m1.(ptr := 0, needRefresh := true), g);
  }

  lemma SettingsFromCore(env: Env, m: MenuState, g: ConsoleState)
    requires ValidMenu(m) && ValidState(g) && Top(m).kind == SettingsCore
    ensures var r := SettingsAct(env, EnterSettings(m), g, Refresh);
      r.console == g && r.menu.stack == m.stack[..|m.stack| - 1] && r.menu.ptr == Top(m).savedPtr
  {
    var m1 := EnterSettings(m);
    SettingsActSplits(env, m1, g, Refresh, m1, g);
  }


  /**
   * OK on a controller item of the settings menu opens that controller's menu, populated with
   * the controller rows; OK on "Core" opens the core list of the core directory.
   */
  lemma SettingsOkEnters(env: Env, m: MenuState, g: ConsoleState)
    requires ValidMenu(m) && ValidState(g) && IsSettingsMenu(Top(m).kind) && !m.needRefresh
    requires 0 <= m.ptr < |m.buf|
    ensures var e := m.buf[m.ptr];
      var r := IterateAct(env, m, g, Ok);
      && (IsControllerMenu(e.kind) ==>
            && r.menu.stack == m.stack + [Entry(e.path, e.kind, m.ptr)] && r.menu.ptr == 0
            && r.menu.buf == ControllerEntries() && !r.menu.needRefresh && r.console == g)
      && (e.kind == SettingsCore ==>
            && r.menu.stack == m.stack + [Entry(g.frontend.coreDir, SettingsCore, m.ptr)] && r.menu.ptr == 0
            && r.menu.needRefresh && r.console == g)
  {
    assert IterateAct(env, m, g, Ok) == SettingsAct(env, m, g, Ok);
    var e := m.buf[m.ptr];
    if IsControllerMenu(e.kind) {
      OkEntersController(env, m, g);
    } else if e.kind == SettingsCore {
      OkEntersCore(env, m, g);
    }
  }

  lemma OkEntersController(env: Env, m: MenuState, g: ConsoleState)
    requires ValidMenu(m) && ValidState(g) && IsSettingsMenu(Top(m).kind) && !m.needRefresh
    requires 0 <= m.ptr < |m.buf| && IsControllerMenu(m.buf[m.ptr].kind)
    ensures var e := m.buf[m.ptr];
      var r := SettingsAct(env, m, g, Ok);
      && r.menu.stack == m.stack + [Entry(e.path, e.kind, m.ptr)] && r.menu.ptr == 0
      && r.menu.buf == ControllerEntries() && !r.menu.needRefresh && r.console == g
  {
    var e := m.buf[m.ptr];
    ActivateEnters(env, m, g, Ok);
    SettingsActSplits(env, m, g, Ok, PushMenu(m, e.path, e.kind).(needRefresh := true), g);
  }

  lemma OkEntersCore(env: Env, m: MenuState, g: ConsoleState)
    requires ValidMenu(m) && ValidState(g) && IsSettingsMenu(Top(m).kind) && !m.needRefresh
    requires 0 <= m.ptr < |m.buf| && m.buf[m.ptr].kind == SettingsCore
    ensures var r := SettingsAct(env, m, g, Ok);
      && r.menu.stack == m.stack + [Entry(g.frontend.coreDir, SettingsCore, m.ptr)] && r.menu.ptr == 0
      && r.menu.needRefresh && r.console == g
  {
    ActivateEnters(env, m, g, Ok);
    SettingsActSplits(env, m, g, Ok, PushMenu(m, g.frontend.coreDir, SettingsCore).(needRefresh := true), g);
  }


  /** OK on "Custom Ratio" selects the custom aspect ratio and opens the upper-left editor. */
  lemma SettingsOkOpensViewport(env: Env, m: MenuState, g: ConsoleState)
    requires ValidMenu(m) && ValidState(g) && IsSettingsMenu(Top(m).kind) && !m.needRefresh
    requires 0 <= m.ptr < |m.buf| && m.buf[m.ptr].kind == SettingsCustomViewport
    ensures var r := IterateAct(env, m, g, Ok);
      && r.menu.stack == m.stack + [Entry("", SettingsCustomViewport, m.ptr)] && r.menu.ptr == m.ptr
      && r.console.video.aspectRatio == AspectRatioCustom
      && r.console.effects == g.effects + [VideoSetAspectRatio]
  {
  }

  /** The corner the upper-left editor moves, and the corner it keeps still. */
  predicate KeepsBottomRight(a: Viewport, b: Viewport)
  {
    a.x + a.width == b.x + b.width && a.y + a.height == b.y + b.height
  }

  /**
   * The upper-left editor moves the corner one pixel per arrow while the bottom-right corner
   * stays where it is; START on GEKKO moves the corner to the origin, again keeping the other.
   */
  lemma UpperLeftKeepsBottomRight(env: Env, m: MenuState, g: ConsoleState, a: Action)
    requires ValidMenu(m) && ValidState(g) && Top(m).kind == SettingsCustomViewport
    ensures var vp := g.video.customVp;
      var r := IterateAct(env, m, g, a);
      var vp' := r.console.video.customVp;
      && KeepsBottomRight(vp, vp')
      && (a == Up ==> vp'.y == vp.y - 1) && (a == Down ==> vp'.y == vp.y + 1)
      && (a == Left ==> vp'.x == vp.x - 1) && (a == Right ==> vp'.x == vp.x + 1)
      && (a == Start && g.build.gekko ==> vp'.x == 0 && vp'.y == 0)
  {
  }

  /**
   * The bottom-right editor never moves the upper-left corner: the arrows change the width or
   * the height by one, and START on GEKKO stretches the viewport to the window's corner.
   */
  lemma BottomRightKeepsUpperLeft(env: Env, m: MenuState, g: ConsoleState, a: Action)
    requires ValidMenu(m) && ValidState(g) && Top(m).kind == SettingsCustomViewport2
    ensures var vp := g.video.customVp;
      var r := IterateAct(env, m, g, a);
      var vp' := r.console.video.customVp;
      && vp'.x == vp.x && vp'.y == vp.y
      && (a == Up ==> vp' == vp.(height := vp.height - 1)) && (a == Down ==> vp' == vp.(height := vp.height + 1))
      && (a == Left ==> vp' == vp.(width := vp.width - 1)) && (a == Right ==> vp' == vp.(width := vp.width + 1))
      && (a == Start && g.build.gekko ==>
            vp'.x + vp'.width == g.video.winWidth && vp'.y + vp'.height == g.video.winHeight)
  {
  }

  /**
   * OK in the upper-left editor and CANCEL in the bottom-right editor swap the two editors in
   * place, with the prompt of the new one; the other exits drop the editor. The cursor stays.
   */
  lemma ViewportEditorsSwap(env: Env, m: MenuState, g: ConsoleState, a: Action)
    requires ValidMenu(m) && ValidState(g) && IsViewportMenu(Top(m).kind)
    requires a == Ok || a == Cancel || a == Settings
    ensures var upper := Top(m).kind == SettingsCustomViewport;
      var r := IterateAct(env, m, g, a);
      var below := m.stack[..|m.stack| - 1];
      && r.menu.ptr == m.ptr && r.console == g
      && (a == Ok && upper ==>
            r.menu.stack == below + [Entry("", SettingsCustomViewport2, 0)]
            && r.prompt == Some("Set Bottom-Right Corner"))
      && (a == Cancel && !upper ==>
            r.menu.stack == below + [Entry("", SettingsCustomViewport, 0)]
            && r.prompt == Some("Set Upper-Left Corner"))
      && ((a == Ok && !upper) || (a == Cancel && upper) || a == Settings ==> r.menu.stack == below)
  {
  }

  /**
   * render_text pulls the message queue at most once a draw; on GEKKO only for a forced
   * message, after which no message is forced. It changes nothing else of the menu.
   */
  lemma RenderTextPullsOnce(m: MenuState, g: ConsoleState)
    ensures var (m', g') := RenderTextStep(m, g);
      && m' == m.(msgForce := m'.msgForce) && g' == g.(effects := g'.effects)
      && (g'.effects == g.effects || g'.effects == g.effects + [MsgQueuePull])
      && (Quiet(m, g) ==> g'.effects == g.effects && m' == m)
      && (!Quiet(m, g) && g.build.gekko ==> !m'.msgForce && (g'.effects == g.effects + [MsgQueuePull] <==> m.msgForce))
      && (!Quiet(m, g) && !g.build.gekko ==> g'.effects == g.effects + [MsgQueuePull])
  {
  }
}
