/**
 * The frontend's global state (g_console, g_settings, g_extern, default_paths and the GX video
 * handle), restricted to the fields that the menu and the console startup glue read or write.
 *
 * Calls into code outside this model (rarch_settings_change, rarch_settings_default,
 * apply_state_changes, the message queue, the keybind setters, save states, screenshots, game
 * loading, rarch_main_init and rarch_main_deinit) are recorded, in call order, in an effect log.
 * What those calls do to other parts of the state is not modelled.
 */
module Globals {

  /** Unsigned 32-bit values (the per-port device and d-pad settings are `unsigned`). */
  type U32 = x: int | 0 <= x < 0x1_0000_0000

  /** Reduces an integer to its unsigned 32-bit representation, as C's unsigned arithmetic does. */
  function Wrap32(x: int): (r: U32)
    ensures 0 <= x < 0x1_0000_0000 ==> r == x
  {
    x % 0x1_0000_0000
  }

  /** The preprocessor switches that change the behaviour of the modelled code. */
  datatype Build = Build(gekko: bool, wii: bool, hddCachePartition: bool)

  /** g_console.mode_switch: only the menu mode is distinguished by this code. */
  datatype ModeSwitch = ModeMenu | ModeOther

  /** g_console.aspect_ratio_index: the menu only ever sets the custom ratio itself. */
  datatype AspectRatio = AspectRatioCustom | AspectRatioPreset(index: nat)

  /** g_console.viewports.custom_vp */
  datatype Viewport = Viewport(x: int, y: int, width: int, height: int)

  /** The arguments of rarch_settings_change used by the menu. */
  datatype SettingsChange =
    | ReturnToGame | ReturnToLauncher | Quit
    | SavestateDecrement | SavestateIncrement
    | HwTextureFilter
    | AspectRatioDecrement | AspectRatioIncrement
    | RotationDecrement | RotationIncrement
    | OverscanDecrement | OverscanIncrement
    | AudioMute
    | AudioControlRateDecrement | AudioControlRateIncrement

  /** The arguments of rarch_settings_default used by the menu. */
  datatype SettingsDefault =
    | DefSaveState | DefHwTextureFilter | DefAspectRatio | DefRotation
    | DefOverscan | DefAudioMute | DefAudioControlRate

  /** The three keybind edits of rarch_input_set_keybind. */
  datatype KeybindOp = KeybindDefault | KeybindDecrement | KeybindIncrement

  /** One call into code outside the model. */
  datatype Effect =
    | Change(change: SettingsChange)
    | Default(setting: SettingsDefault)
    | SaveState | LoadState | GameReset
    | ApplyStateChanges
    | VideoSetAspectRatio
    | VideoSetRotation
    | ScreenshotDump
    | MsgPush(msg: string)
    | MsgQueuePull
    | SetKeybind(port: nat, op: KeybindOp, joypadId: nat)
    | SetDefaultKeybindLut(device: nat, port: nat)
    | SetDefaultKeybinds(port: nat)
    | SetAnalogDpadMapping(device: nat, dpad: nat, port: nat)
    | LoadGame(path: string, zipMode: nat)
    | MainDeinit
    | MainInit(argv: seq<string>)
    | RomLoadingErrorMsg

  /** The video settings the menu edits (g_console and the GX video handle). */
  datatype VideoSettings = VideoSettings(
    gammaCorrection: nat,
    softDisplayFilterEnable: bool,
    aspectRatio: AspectRatio,
    customVp: Viewport,
    winWidth: int,
    winHeight: int)

  /** The frontend settings the menu edits. */
  datatype FrontendSettings = FrontendSettings(
    zipExtractMode: nat,
    fpsInfoMsgEnable: bool,
    ingameMenuEnable: bool,
    launchAppOnExit: string,
    libretro: string,
    coreDir: string)

  /** g_settings.input: the device type and d-pad emulation mode of each port. */
  datatype InputSettings = InputSettings(device: seq<U32>, dpadEmulation: seq<U32>)

  /** The flags and paths read and written by rarch_startup. */
  datatype StartupSettings = StartupSettings(
    initializeRarchEnable: bool,
    emulatorInitialized: bool,
    defaultSramDirEnable: bool,
    defaultSramDir: string,
    defaultSavestateDirEnable: bool,
    defaultSavestateDir: string,
    romPath: string,
    verbose: bool)

  /** A snapshot of every field of Console; the specification functions work on these. */
  datatype ConsoleState = ConsoleState(
    build: Build,
    modeSwitch: ModeSwitch,
    video: VideoSettings,
    frontend: FrontendSettings,
    input: InputSettings,
    startup: StartupSettings,
    effects: seq<Effect>)

  /** Appends calls to the effect log. */
  function Log(g: ConsoleState, es: seq<Effect>): ConsoleState
  {
    g.(effects := g.effects + es)
  }

  /** The controller settings are arrays of MAX_PLAYERS entries; the menu edits ports 0 to 3. */
  ghost predicate ValidState(g: ConsoleState)
  {
    |g.input.device| >= 4 && |g.input.dpadEmulation| >= 4 && (g.build.wii ==> g.build.gekko)
  }

  /** The global state, updated in place by the menu and the startup glue. */
  class Console {
    var build: Build
    var modeSwitch: ModeSwitch
    var video: VideoSettings
    var frontend: FrontendSettings
    var input: InputSettings
    var startup: StartupSettings
    var effects: seq<Effect>

    function Snapshot(): ConsoleState
      reads this
    {
      ConsoleState(build, modeSwitch, video, frontend, input, startup, effects)
    }

    ghost predicate Valid()
      reads this
    {
      ValidState(Snapshot())
    }

    constructor (g: ConsoleState)
      requires ValidState(g)
      ensures Valid() && Snapshot() == g
    {
      build, modeSwitch, video, frontend := g.build, g.modeSwitch, g.video, g.frontend;
      input, startup, effects := g.input, g.startup, g.effects;
    }

    /** Appends calls to the effect log. */
    method Emit(es: seq<Effect>)
      modifies this`effects
      ensures Snapshot() == Log(old(Snapshot()), es)
    {
      effects := effects + es;
    }
  }
}
