/**
 * rgui_handle and the functions of rgui.c that update it in place: rgui_init, rgui_iterate,
 * rgui_settings_iterate, rgui_viewport_iterate, render_text and rgui_settings_toggle_setting.
 * Each method is proved to leave exactly the state the matching function of RguiMenu describes,
 * and the frame buffer exactly as the drawing functions of RguiRender describe it.
 */
module RguiHandle {
  import opened Wrappers
  import opened Globals
  import opened RguiTypes
  import opened RguiRender
  import opened RguiMenu

  /** The message render_text shows: on GEKKO the video driver's message unless one is forced. */
  function ShownMessage(m: MenuState, g: ConsoleState, pulled: Option<string>, gxMsg: Option<string>): Option<string>
  {
    if g.build.gekko && !m.msgForce then gxMsg else pulled
  }

  /** The fill_rect calls of render_text: background and message box, or none when quiet. */
  function TextRects(m: MenuState, g: ConsoleState, pulled: Option<string>, gxMsg: Option<string>): seq<Rect>
  {
    if Quiet(m, g) then []
    else BackgroundRects() + MessageRects(ShownMessage(m, g, pulled, gxMsg))
  }

  /** The fill_rect calls of an iterate function, with the viewport prompt drawn last. */
  function StepRects(n: Next, pulled: Option<string>, gxMsg: Option<string>): seq<Rect>
  {
    match n
    case Done(_, _) => []
    case Render(m, g, prompt) => TextRects(m, g, pulled, gxMsg) + MessageRects(prompt)
  }

  /** Without a prompt, the end of an iterate function is render_text alone. */
  lemma NoPrompt(m: MenuState, g: ConsoleState, pulled: Option<string>, gxMsg: Option<string>)
    ensures AfterRender(Render(m, g, None)) == RenderTextStep(m, g)
    ensures StepRects(Render(m, g, None), pulled, gxMsg) == TextRects(m, g, pulled, gxMsg)
  {
    assert TextRects(m, g, pulled, gxMsg) + [] == TextRects(m, g, pulled, gxMsg);
  }

  /** The frame after rgui_viewport_iterate: the text of render_text, then the editor's prompt. */
  lemma ViewportFrame(f0: seq<bv16>, f1: seq<bv16>, f2: seq<bv16>, stride: nat, m: MenuState, g: ConsoleState,
                      kind: FileType, pulled: Option<string>, gxMsg: Option<string>)
    requires f1 == PaintAll(f0, stride, TextRects(m, g, pulled, gxMsg))
    requires f2 == PaintAll(f1, stride, MessageRects(ViewportPrompt(kind)))
    ensures f2 == PaintAll(f0, stride, StepRects(Render(m, g, ViewportPrompt(kind)), pulled, gxMsg))
  {
    PaintAllAppend(f0, stride, TextRects(m, g, pulled, gxMsg), MessageRects(ViewportPrompt(kind)));
  }

  /** A message that may be drawn: absent, or a C string. */
  predicate Drawable(message: Option<string>)
  {
    message.Some? ==> IsCString(message.value)
  }

  /** The two viewport prompts are C strings. */
  lemma PromptsDrawable(kind: FileType)
    ensures Drawable(ViewportPrompt(kind))
  {
    var upper, lower := "Set Upper-Left Corner", "Set Bottom-Right Corner";
    assert forall i :: 0 <= i < |upper| ==> upper[i] != '\0';
    assert forall i :: 0 <= i < |lower| ==> lower[i] != '\0';
  }

  /** rgui_settings_toggle_setting, on the global state in place; the cases are grouped by kind. */
  method ToggleSetting(c: Console, setting: FileType, a: Action, menuType: FileType, saved: bool)
    requires c.Valid()
    modifies c
    ensures c.Valid()
    ensures c.Snapshot() == Toggle(old(c.Snapshot()), setting, a, menuType, saved)
  {
    if IsGameSetting(setting) {
      ToggleGameSetting(c, setting, a, menuType, saved);
    } else if IsVideoSetting(setting) {
      ToggleVideoSetting(c, setting, a, menuType, saved);
    } else if IsFrontendSetting(setting) {
      ToggleFrontendSetting(c, setting, a, menuType, saved);
    } else if IsControllerSetting(setting) {
      ToggleControllerSetting(c, setting, a, menuType, saved);
    }
  }

  predicate IsGameSetting(setting: FileType)
  {
    setting.SettingsSavestateSave? || setting.SettingsSavestateLoad? || setting.SettingsScreenshot? || setting.SettingsRestartGame? || setting.SettingsRestartEmulator? || setting.SettingsQuitEmulator?
  }

  /** rgui_settings_toggle_setting on the items that act on the running game and on the frontend itself. */
  method ToggleGameSetting(c: Console, setting: FileType, a: Action, menuType: FileType, saved: bool)
    requires c.Valid() && IsGameSetting(setting)
    modifies c
    ensures c.Valid()
    ensures c.Snapshot() == Toggle(old(c.Snapshot()), setting, a, menuType, saved)
  {
    match setting {
      case SettingsSavestateSave =>
        if a == Ok {
          c.Emit([SaveState, Change(ReturnToGame)]);
        } else {
          c.Emit(Adjust(a, Default(DefSaveState), Change(SavestateDecrement), Change(SavestateIncrement)));
        }
      case SettingsSavestateLoad =>
        if a == Ok {
          c.Emit([LoadState, Change(ReturnToGame)]);
        } else {
          c.Emit(Adjust(a, Default(DefSaveState), Change(SavestateDecrement), Change(SavestateIncrement)));
        }
      case SettingsScreenshot =>
        if a == Ok {
          c.Emit([ScreenshotDump, MsgPush(ScreenshotMessage(saved))]);
        }
      case SettingsRestartGame =>
        if a == Ok {
          c.Emit([Change(ReturnToGame), GameReset]);
        }
      case SettingsRestartEmulator =>
        if a == Ok {
          if c.build.gekko {
            c.frontend := c.frontend.(launchAppOnExit := c.frontend.coreDir + "/boot.dol");
          }
          c.Emit([Change(ReturnToLauncher)]);
        }
      case SettingsQuitEmulator =>
        if a == Ok {
          c.Emit([Change(Quit)]);
        }
      case _ =>
    }
  }

  predicate IsVideoSetting(setting: FileType)
  {
    setting.SettingsVideoFilter? || setting.SettingsVideoSoftFilter? || setting.SettingsVideoGamma? || setting.SettingsVideoAspectRatio? || setting.SettingsVideoRotation? || setting.SettingsVideoOverscan?
  }

  /** rgui_settings_toggle_setting on the video items. */
  method ToggleVideoSetting(c: Console, setting: FileType, a: Action, menuType: FileType, saved: bool)
    requires c.Valid() && IsVideoSetting(setting)
    modifies c
    ensures c.Valid()
    ensures c.Snapshot() == Toggle(old(c.Snapshot()), setting, a, menuType, saved)
  {
    match setting {
      case SettingsVideoFilter =>
        if a == Start {
          c.Emit([Default(DefHwTextureFilter)]);
        } else {
          c.Emit([Change(HwTextureFilter)]);
        }
      case SettingsVideoSoftFilter =>
        if c.build.wii {
          c.video := c.video.(softDisplayFilterEnable := !c.video.softDisplayFilterEnable);
          c.Emit([ApplyStateChanges]);
        }
      case SettingsVideoGamma =>
        StepGamma(c, a, menuType, saved);
      case SettingsVideoAspectRatio =>
        c.Emit(Adjust(a, Default(DefAspectRatio), Change(AspectRatioDecrement), Change(AspectRatioIncrement)));
        c.Emit([VideoSetAspectRatio]);
      case SettingsVideoRotation =>
        if IsAdjust(a) {
          c.Emit(Adjust(a, Default(DefRotation), Change(RotationDecrement), Change(RotationIncrement)));
          c.Emit([VideoSetRotation]);
        }
      case SettingsVideoOverscan =>
        if IsAdjust(a) {
          c.Emit(Adjust(a, Default(DefOverscan), Change(OverscanDecrement), Change(OverscanIncrement)));
          c.Emit([ApplyStateChanges]);
        }
      case _ =>
    }
  }

  /** The gamma item: START resets it, LEFT and RIGHT step it within 0 to MAX_GAMMA_SETTING. */
  method StepGamma(c: Console, a: Action, menuType: FileType, saved: bool)
    requires c.Valid()
    modifies c`video, c`effects
    ensures c.Valid()
    ensures c.Snapshot() == Toggle(old(c.Snapshot()), SettingsVideoGamma, a, menuType, saved)
  {
    if a == Start {
      c.video := c.video.(gammaCorrection := 0);
      c.Emit([ApplyStateChanges]);
    } else if a == Left {
      if c.video.gammaCorrection > 0 {
        c.video := c.video.(gammaCorrection := c.video.gammaCorrection - 1);
        c.Emit([ApplyStateChanges]);
      }
    } else if a == Right {
      if c.video.gammaCorrection < MaxGamma(c.build) {
        c.video := c.video.(gammaCorrection := c.video.gammaCorrection + 1);
        c.Emit([ApplyStateChanges]);
      }
    }
  }

  predicate IsFrontendSetting(setting: FileType)
  {
    setting.SettingsAudioMute? || setting.SettingsAudioControlRate? || setting.SettingsZipExtract? || setting.SettingsDebugText?
  }

  /** rgui_settings_toggle_setting on the audio, zip and debug text items. */
  method ToggleFrontendSetting(c: Console, setting: FileType, a: Action, menuType: FileType, saved: bool)
    requires c.Valid() && IsFrontendSetting(setting)
    modifies c
    ensures c.Valid()
    ensures c.Snapshot() == Toggle(old(c.Snapshot()), setting, a, menuType, saved)
  {
    match setting {
      case SettingsAudioMute =>
        var e := if a == Start then Default(DefAudioMute) else Change(AudioMute);
        assert Toggle(c.Snapshot(), setting, a, menuType, saved) == Log(c.Snapshot(), [e]);
        c.Emit([e]);
      case SettingsAudioControlRate =>
        var es := Adjust(a, Default(DefAudioControlRate), Change(AudioControlRateDecrement), Change(AudioControlRateIncrement));
        assert Toggle(c.Snapshot(), setting, a, menuType, saved) == Log(c.Snapshot(), es);
        c.Emit(es);
      case SettingsZipExtract =>
        StepZipExtract(c, a, menuType, saved);
      case SettingsDebugText =>
        SwitchDebugText(c, a, menuType, saved);
    }
  }

  /** The zip extract item: START resets the mode, LEFT and RIGHT step it within the modes of the build. */
  method StepZipExtract(c: Console, a: Action, menuType: FileType, saved: bool)
    requires c.Valid()
    modifies c`frontend
    ensures c.Valid()
    ensures c.Snapshot() == Toggle(old(c.Snapshot()), SettingsZipExtract, a, menuType, saved)
  {
    if a == Start {
      c.frontend := c.frontend.(zipExtractMode := 0);
    } else if a == Left && c.frontend.zipExtractMode > 0 {
      c.frontend := c.frontend.(zipExtractMode := c.frontend.zipExtractMode - 1);
    } else if a == Right && c.frontend.zipExtractMode < LastZipExtract(c.build) {
      c.frontend := c.frontend.(zipExtractMode := c.frontend.zipExtractMode + 1);
    }
  }

  /** The debug text item: START and LEFT switch the frame counter off, RIGHT switches it on. */
  method SwitchDebugText(c: Console, a: Action, menuType: FileType, saved: bool)
    requires c.Valid()
    modifies c`frontend
    ensures c.Valid()
    ensures c.Snapshot() == Toggle(old(c.Snapshot()), SettingsDebugText, a, menuType, saved)
  {
    if a == Start || a == Left {
      c.frontend := c.frontend.(fpsInfoMsgEnable := false);
    } else if a == Right {
      c.frontend := c.frontend.(fpsInfoMsgEnable := true);
    }
  }

  predicate IsControllerSetting(setting: FileType)
  {
    setting.SettingsBindDevice? || setting.SettingsBindDpadEmulation? || setting.SettingsBind?
  }

  /** rgui_settings_toggle_setting on the rows of a controller menu. */
  method ToggleControllerSetting(c: Console, setting: FileType, a: Action, menuType: FileType, saved: bool)
    requires c.Valid() && IsControllerSetting(setting)
    modifies c
    ensures c.Valid()
    ensures c.Snapshot() == Toggle(old(c.Snapshot()), setting, a, menuType, saved)
  {
    match setting {
      case SettingsBindDevice =>
        if menuType.SettingsController? {
          CycleDevice(c, menuType.port, a);
        }
      case SettingsBindDpadEmulation =>
        if menuType.SettingsController? {
          CycleDpad(c, menuType.port, a);
        }
      case SettingsBind(row) =>
        if menuType.SettingsController? && IsAdjust(a) {
          c.Emit([SetKeybind(menuType.port, KeybindFor(a), ControllerLut[row])]);
        }
      case _ =>
    }
  }

  /** The device row of a controller menu on port `port`. */
  method CycleDevice(c: Console, port: ControllerPort, a: Action)
    requires c.Valid()
    modifies c`input, c`effects
    ensures c.Valid() && c.Snapshot() == BindDevice(old(c.Snapshot()), port, a)
  {
    var d := Wrap32(c.input.device[port] + DeviceLast);
    if a == Start {
      d := 0;
    } else if a == Left {
      d := Wrap32(d - 1);
    } else if a == Right {
      d := Wrap32(d + 1);
    }
    d := d % DeviceLast;
    c.input := c.input.(device := c.input.device[port := d]);
    c.Emit([SetDefaultKeybindLut(d, port), SetDefaultKeybinds(port),
            SetAnalogDpadMapping(d, c.input.dpadEmulation[port], port)]);
  }

  /** The d-pad emulation row of a controller menu on port `port`. */
  method CycleDpad(c: Console, port: ControllerPort, a: Action)
    requires c.Valid()
    modifies c`input, c`effects
    ensures c.Valid() && c.Snapshot() == BindDpad(old(c.Snapshot()), port, a)
  {
    var d := Wrap32(c.input.dpadEmulation[port] + DpadLast);
    if a == Start {
      d := DpadLStick;
    } else if a == Left {
      d := Wrap32(d - 1);
    } else if a == Right {
      d := Wrap32(d + 1);
    }
    d := d % DpadLast;
    c.input := c.input.(dpadEmulation := c.input.dpadEmulation[port := d]);
    c.Emit([SetAnalogDpadMapping(c.input.device[port], d, port)]);
  }

  /** rgui_handle: the frame buffer, the folder callback, and the menu state. */
  class Handle {
    const frameBuf: array<bv16>
    const pitch: nat
    const env: Env
    var stack: seq<Entry>
    var buf: seq<Entry>
    var ptr: Cursor
    var needRefresh: bool
    var msgForce: bool
    var pathBuf: string

    function Menu(): MenuState
      reads this
    {
      MenuState(stack, buf, ptr, needRefresh, msgForce, pathBuf)
    }

    /** What every iterate function needs: a valid menu and console, and C-string messages. */
    ghost predicate Ready(c: Console, pulled: Option<string>, gxMsg: Option<string>)
      reads this, c
    {
      Valid() && c.Valid() && Drawable(pulled) && Drawable(gxMsg)
    }

    ghost predicate Valid()
      reads this
    {
      ValidMenu(Menu()) && ScreenFits(frameBuf.Length, pitch)
    }

    /**
     * rgui_init: the base path is the only menu on the stack. Loading a font is outside the
     * model; with neither a font bitmap nor a prebuilt font the frontend is asked to quit.
     */
    constructor (basePath: string, frameBuf: array<bv16>, pitch: nat, env: Env,
                 hasFontBmp: bool, hasFontBin: bool, c: Console)
      requires ScreenFits(frameBuf.Length, pitch)
      modifies c`effects
      ensures Valid() && Menu() == InitialMenu(basePath)
      ensures this.frameBuf == frameBuf && this.pitch == pitch
      ensures c.Snapshot() == if hasFontBmp || hasFontBin then old(c.Snapshot()) else Log(old(c.Snapshot()), [Change(Quit)])
    {
      this.frameBuf := frameBuf;
      this.pitch := pitch;
      this.env := env;
      stack := [Entry(basePath, FileDirectory, 0)];
      buf := [];
      ptr := 0;
      needRefresh := false;
      msgForce := false;
      pathBuf := "";
      new;
      if !hasFontBmp && !hasFontBin {
        c.Emit([Change(Quit)]);
      }
    }

    /** render_text, without the glyphs of the title and the rows. */
    method RenderText(c: Console, pulled: Option<string>, gxMsg: Option<string>)
      requires Valid() && Drawable(pulled) && Drawable(gxMsg)
      modifies this`msgForce, frameBuf, c`effects
      ensures Valid()
      ensures (Menu(), c.Snapshot()) == RenderTextStep(old(Menu()), old(c.Snapshot()))
      ensures frameBuf[..] == PaintAll(old(frameBuf[..]), pitch / 4, TextRects(old(Menu()), old(c.Snapshot()), pulled, gxMsg))
    {
      if needRefresh && c.modeSwitch == ModeMenu && !msgForce {
        return;
      }
      ghost var s := frameBuf[..];
      ghost var shown := ShownMessage(Menu(), c.Snapshot(), pulled, gxMsg);
      RenderBackground(frameBuf, pitch);
      var message: Option<string>;
      if c.build.gekko {
        if msgForce {
          message := pulled;
          c.Emit([MsgQueuePull]);
          msgForce := false;
        } else {
          message := gxMsg;
        }
      } else {
        message := pulled;
        c.Emit([MsgQueuePull]);
      }
      assert message == shown;
      RenderMessagebox(frameBuf, pitch, message);
      PaintAllAppend(s, pitch / 4, BackgroundRects(), MessageRects(message));
    }

    /** The end of rgui_iterate: clear and re-list the folder buffer of a listing menu. */
    method RefreshListing(c: Console)
      requires Valid()
      modifies this`needRefresh, this`buf
      ensures Valid()
      ensures Render(Menu(), c.Snapshot(), None) == BrowserFinish(env, old(Menu()), c.Snapshot())
    {
      var top := stack[|stack| - 1];
      if needRefresh && IsListingMenu(top.kind) && c.modeSwitch == ModeMenu {
        needRefresh := false;
        buf := env.folder(top.path, top.kind);
        if |top.path| > 0 {
          buf := env.sort(buf);
        }
      }
    }

    /** The end of rgui_settings_iterate: populate a settings or controller menu again. */
    method Repopulate(c: Console)
      requires Valid()
      modifies this`needRefresh, this`buf
      ensures Valid()
      ensures Render(Menu(), c.Snapshot(), None) == SettingsFinish(old(Menu()), c.Snapshot())
    {
      var top := stack[|stack| - 1];
      if needRefresh && !IsListingMenu(top.kind) {
        needRefresh := false;
        if IsControllerMenu(top.kind) {
          buf := ControllerEntries();
        } else {
          buf := SettingsEntries(c.frontend.ingameMenuEnable, c.build.wii);
        }
      }
    }

    /** OK in the file browser on the selected entry of a non-empty folder buffer. */
    method OpenSelected(c: Console)
      requires Valid() && c.Valid()
      modifies this, c
      ensures Valid() && c.Valid()
      ensures (Menu(), c.Snapshot()) == Open(old(Menu()), old(c.Snapshot()))
    {
      if !(0 <= ptr < |buf|) {
        return;
      }
      var kind := buf[ptr].kind;
      if kind == FileDirectory {
        EnterDirectory(c);
      } else if kind == FileDevice {
        EnterDevice(c);
      } else if stack[|stack| - 1].kind == SettingsCore {
        SelectCore(c);
      } else {
        LoadSelected(c);
      }
    }

    /** OK on a directory: up to the parent on "..", nothing on ".", otherwise into it. */
    method EnterDirectory(c: Console)
      requires Valid() && 0 <= ptr < |buf| && buf[ptr].kind == FileDirectory
      modifies this`stack, this`ptr, this`needRefresh
      ensures Valid()
      ensures (Menu(), c.Snapshot()) == Open(old(Menu()), c.Snapshot())
    {
      var e := buf[ptr];
      var top := stack[|stack| - 1];
      if e.path == ".." {
        if |stack| > 1 {
          ptr := top.savedPtr;
          stack := stack[..|stack| - 1];
        }
      } else if e.path != "." {
        stack := stack + [Entry(top.path + "/" + e.path, FileDirectory, ptr)];
        ptr := 0;
      }
      needRefresh := true;
    }

    /** OK on a device: into it. */
    method EnterDevice(c: Console)
      requires Valid() && 0 <= ptr < |buf| && buf[ptr].kind == FileDevice
      modifies this`stack, this`ptr, this`needRefresh
      ensures Valid()
      ensures (Menu(), c.Snapshot()) == Open(old(Menu()), c.Snapshot())
    {
      stack := stack + [Entry(buf[ptr].path, FileDevice, ptr)];
      ptr := 0;
      needRefresh := true;
    }

    /** OK on a file of the core menu: choose it as the core and return to the settings. */
    method SelectCore(c: Console)
      requires Valid() && c.Valid() && 0 <= ptr < |buf|
      requires buf[ptr].kind != FileDirectory && buf[ptr].kind != FileDevice
      requires stack[|stack| - 1].kind == SettingsCore
      modifies this`stack, this`ptr, this`needRefresh, c`frontend, c`effects
      ensures Valid() && c.Valid()
      ensures (Menu(), c.Snapshot()) == Open(old(Menu()), old(c.Snapshot()))
    {
      assert stack[0].kind != SettingsCore;
      ghost var m0, g0 := Menu(), c.Snapshot();
      assert Open(m0, g0) ==
        (PopMenu(m0).(needRefresh := true),
         Log(g0.(frontend := g0.frontend.(libretro := buf[ptr].path)), [MsgPush("Change requires restart to take effect")]));
      var top := stack[|stack| - 1];
      c.frontend := c.frontend.(libretro := buf[ptr].path);
      ptr := top.savedPtr;
      needRefresh := true;
      stack := stack[..|stack| - 1];
      c.Emit([MsgPush("Change requires restart to take effect")]);
    }

    /** OK on a file of a directory: load it as the game. */
    method LoadSelected(c: Console)
      requires Valid() && c.Valid() && 0 <= ptr < |buf|
      requires buf[ptr].kind != FileDirectory && buf[ptr].kind != FileDevice
      requires stack[|stack| - 1].kind != SettingsCore
      modifies this`pathBuf, this`needRefresh, this`msgForce, c`effects
      ensures Valid() && c.Valid()
      ensures (Menu(), c.Snapshot()) == Open(old(Menu()), old(c.Snapshot()))
    {
      pathBuf := stack[|stack| - 1].path + "/" + buf[ptr].path;
      c.Emit([LoadGame(pathBuf, c.frontend.zipExtractMode)]);
      needRefresh := true;
      msgForce := true;
    }

    /** rgui_iterate. */
    method Iterate(c: Console, action: Action, pulled: Option<string>, gxMsg: Option<string>)
      requires Ready(c, pulled, gxMsg)
      modifies this, frameBuf, c
      ensures Valid() && c.Valid()
      ensures (Menu(), c.Snapshot()) == Step(env, old(Menu()), old(c.Snapshot()), action)
      ensures frameBuf[..] == PaintAll(old(frameBuf[..]), pitch / 4, StepRects(
        IterateAct(env, old(Menu()), old(c.Snapshot()), action), pulled, gxMsg))
    {
      ghost var m0, g0 := Menu(), c.Snapshot();
      var top := stack[|stack| - 1];
      if IsSettingsMenu(top.kind) {
        assert IterateAct(env, m0, g0, action) == SettingsAct(env, m0, g0, action);
        SettingsIterate(c, action, pulled, gxMsg);
      } else if IsViewportMenu(top.kind) {
        assert IterateAct(env, m0, g0, action) == ViewportAct(m0, g0, action);
        ViewportIterate(c, action, pulled, gxMsg);
      } else {
        assert IterateAct(env, m0, g0, action) == BrowserAct(env, m0, g0, action);
        BrowserIterate(c, action, pulled, gxMsg);
      }
    }

    /** The body of rgui_iterate below the dispatch: the file browser. */
    method BrowserIterate(c: Console, action: Action, pulled: Option<string>, gxMsg: Option<string>)
      requires Ready(c, pulled, gxMsg)
      requires IsBrowserMenu(Top(Menu()).kind)
      modifies this, frameBuf, c
      ensures Valid() && c.Valid()
      ensures (Menu(), c.Snapshot()) == AfterRender(BrowserAct(env, old(Menu()), old(c.Snapshot()), action))
      ensures frameBuf[..] == PaintAll(old(frameBuf[..]), pitch / 4, StepRects(
        BrowserAct(env, old(Menu()), old(c.Snapshot()), action), pulled, gxMsg))
    {
      ghost var m0, g0 := Menu(), c.Snapshot();
      var a := action;
      if needRefresh && a != Message {
        a := Noop;
      }
      assert a == BrowserAction(m0, action);
      if a == Ok && |buf| == 0 {
        BrowserActCases(env, m0, g0, action);
        assert PaintAll(frameBuf[..], pitch / 4, []) == frameBuf[..];
        return;
      }
      if a == Settings {
        BrowserActCases(env, m0, g0, action);
        OpenSettings();
        SettingsIterate(c, Refresh, pulled, gxMsg);
        return;
      }
      BrowserSwitch(c, a);
      BrowserActSplits(env, m0, g0, action, Menu(), c.Snapshot());
      FinishBrowser(c, pulled, gxMsg);
    }

    /** The end of rgui_iterate: refresh the listing, then render_text. */
    method FinishBrowser(c: Console, pulled: Option<string>, gxMsg: Option<string>)
      requires Ready(c, pulled, gxMsg)
      modifies this`needRefresh, this`buf, this`msgForce, frameBuf, c`effects
      ensures Valid() && c.Valid()
      ensures var n := BrowserFinish(env, old(Menu()), old(c.Snapshot()));
        && (Menu(), c.Snapshot()) == AfterRender(n)
        && frameBuf[..] == PaintAll(old(frameBuf[..]), pitch / 4, StepRects(n, pulled, gxMsg))
    {
      RefreshListing(c);
      NoPrompt(Menu(), c.Snapshot(), pulled, gxMsg);
      RenderText(c, pulled, gxMsg);
    }

    /** SETTINGS in the file browser: leave the core list, or push the settings menu. */
    method OpenSettings()
      requires Valid()
      modifies this`stack, this`ptr, this`needRefresh
      ensures Valid() && Menu() == EnterSettings(old(Menu()))
    {
      var top := stack[|stack| - 1];
      if top.kind == SettingsCore {
        ptr := top.savedPtr;
        needRefresh := true;
        stack := stack[..|stack| - 1];
      } else {
        stack := stack + [Entry("", SettingsMenu, ptr)];
        ptr := 0;
      }
    }

    /** The switch of rgui_iterate, for every action but SETTINGS and OK on an empty buffer. */
    method BrowserSwitch(c: Console, a: Action)
      requires Valid() && c.Valid() && a != Settings && (a == Ok ==> |buf| > 0)
      modifies this, c
      ensures Valid() && c.Valid()
      ensures (Menu(), c.Snapshot()) == BrowserMove(old(Menu()), old(c.Snapshot()), a)
    {
      var top := stack[|stack| - 1];
      match a {
        case Up =>
          if ptr > 0 {
            ptr := ptr - 1;
          } else {
            ptr := |buf| - 1;
          }
        case Down =>
          if ptr + 1 < |buf| {
            ptr := ptr + 1;
          } else {
            ptr := 0;
          }
        case Left =>
          if ptr - 8 > 0 {
            ptr := ptr - 8;
          } else {
            ptr := 0;
          }
        case Right =>
          if ptr + 8 < |buf| {
            ptr := ptr + 8;
          } else {
            ptr := |buf| - 1;
          }
        case Cancel =>
          if |stack| > 1 {
            needRefresh := true;
            ptr := top.savedPtr;
            stack := stack[..|stack| - 1];
          }
        case Ok =>
          OpenSelected(c);
        case Refresh =>
          ptr := 0;
          needRefresh := true;
        case Message =>
          msgForce := true;
        case Settings =>
        case Start =>
        case Noop =>
      }
    }

    /** OK, START, LEFT or RIGHT on the selected item of a settings menu. */
    method ActivateSelected(c: Console, a: Action)
      requires Valid() && c.Valid()
      modifies this`stack, this`ptr, this`needRefresh, c
      ensures Valid() && c.Valid()
      ensures (Menu(), c.Snapshot()) == SettingsActivate(env, old(Menu()), old(c.Snapshot()), a)
    {
      if !(0 <= ptr < |buf|) {
        return;
      }
      var kind := buf[ptr].kind;
      if (IsControllerMenu(kind) || kind == SettingsCore) && a == Ok {
        EnterSelected(c);
      } else if kind == SettingsCustomViewport && a == Ok {
        OpenViewportEditor(c);
      } else {
        ToggleSelected(c, a);
      }
    }

    /** OK on a controller row or on the core row: push its menu, to be populated on refresh. */
    method EnterSelected(c: Console)
      requires Valid() && c.Valid() && 0 <= ptr < |buf|
      requires IsControllerMenu(buf[ptr].kind) || buf[ptr].kind == SettingsCore
      modifies this`stack, this`ptr, this`needRefresh
      ensures Valid()
      ensures Menu() == PushMenu(old(Menu()), old(if buf[ptr].kind == SettingsCore then c.frontend.coreDir else buf[ptr].path),
                                 old(buf[ptr].kind)).(needRefresh := true)
      ensures (Menu(), c.Snapshot()) == SettingsActivate(env, old(Menu()), c.Snapshot(), Ok)
    {
      ActivateEnters(env, Menu(), c.Snapshot(), Ok);
      var e := buf[ptr];
      var name := if e.kind == SettingsCore then c.frontend.coreDir else e.path;
      stack := stack + [Entry(name, e.kind, ptr)];
      ptr := 0;
      needRefresh := true;
    }

    /** OK on the custom viewport row: open the upper-left editor with the custom aspect ratio. */
    method OpenViewportEditor(c: Console)
      requires Valid() && c.Valid() && 0 <= ptr < |buf| && buf[ptr].kind == SettingsCustomViewport
      modifies this`stack, c`video, c`effects
      ensures Valid() && c.Valid()
      ensures Menu() == old(Menu()).(stack := old(stack) + [Entry("", SettingsCustomViewport, ptr)])
      ensures c.Snapshot() == Log(old(c.Snapshot()).(video := old(c.video).(aspectRatio := AspectRatioCustom)), [VideoSetAspectRatio])
      ensures (Menu(), c.Snapshot()) == SettingsActivate(env, old(Menu()), old(c.Snapshot()), Ok)
    {
      ActivateOpensViewport(env, Menu(), c.Snapshot(), Ok);
      stack := stack + [Entry("", SettingsCustomViewport, ptr)];
      c.video := c.video.(aspectRatio := AspectRatioCustom);
      c.Emit([VideoSetAspectRatio]);
    }

    /** Any other action on any other row: rgui_settings_toggle_setting. */
    method ToggleSelected(c: Console, a: Action)
      requires Valid() && c.Valid() && 0 <= ptr < |buf|
      requires !((IsControllerMenu(buf[ptr].kind) || buf[ptr].kind == SettingsCore
                  || buf[ptr].kind == SettingsCustomViewport) && a == Ok)
      modifies c
      ensures c.Valid()
      ensures (Menu(), c.Snapshot()) == SettingsActivate(env, Menu(), old(c.Snapshot()), a)
    {
      var saved := env.screenshot(c.Snapshot());
      ActivateToggles(env, Menu(), c.Snapshot(), a);
      assert Top(Menu()).kind == stack[|stack| - 1].kind;
      ToggleSetting(c, buf[ptr].kind, a, stack[|stack| - 1].kind, saved);
    }

    /** rgui_settings_iterate. */
    method SettingsIterate(c: Console, action: Action, pulled: Option<string>, gxMsg: Option<string>)
      requires Ready(c, pulled, gxMsg)
      requires IsSettingsMenu(Top(Menu()).kind) || action == Refresh
      modifies this, frameBuf, c
      ensures Valid() && c.Valid()
      ensures (Menu(), c.Snapshot()) == AfterRender(SettingsAct(env, old(Menu()), old(c.Snapshot()), action))
      ensures frameBuf[..] == PaintAll(old(frameBuf[..]), pitch / 4, StepRects(
        SettingsAct(env, old(Menu()), old(c.Snapshot()), action), pulled, gxMsg))
    {
      ghost var m0, g0 := Menu(), c.Snapshot();
      var a := action;
      if needRefresh {
        a := Noop;
      }
      SettingsSwitch(c, a);
      SettingsActSplits(env, m0, g0, action, Menu(), c.Snapshot());
      FinishSettings(c, pulled, gxMsg);
    }

    /** The end of rgui_settings_iterate: populate the menu again, then render_text. */
    method FinishSettings(c: Console, pulled: Option<string>, gxMsg: Option<string>)
      requires Ready(c, pulled, gxMsg)
      modifies this`needRefresh, this`buf, this`msgForce, frameBuf, c`effects
      ensures Valid() && c.Valid()
      ensures var n := SettingsFinish(old(Menu()), old(c.Snapshot()));
        && (Menu(), c.Snapshot()) == AfterRender(n)
        && frameBuf[..] == PaintAll(old(frameBuf[..]), pitch / 4, StepRects(n, pulled, gxMsg))
    {
      Repopulate(c);
      NoPrompt(Menu(), c.Snapshot(), pulled, gxMsg);
      RenderText(c, pulled, gxMsg);
    }

    /** The switch of rgui_settings_iterate. */
    method SettingsSwitch(c: Console, a: Action)
      requires Valid() && c.Valid()
      requires IsSettingsMenu(Top(Menu()).kind) || a == Refresh || a == Noop
      modifies this, c
      ensures Valid() && c.Valid()
      ensures (Menu(), c.Snapshot()) == SettingsMove(env, old(Menu()), old(c.Snapshot()), a)
    {
      var top := stack[|stack| - 1];
      match a {
        case Up =>
          if ptr > 0 {
            ptr := ptr - 1;
          } else {
            ptr := |buf| - 1;
          }
        case Down =>
          if ptr + 1 < |buf| {
            ptr := ptr + 1;
          } else {
            ptr := 0;
          }
        case Cancel =>
          stack := stack[..|stack| - 1];
          ptr := top.savedPtr;
          needRefresh := true;
        case Settings =>
          stack := stack[..|stack| - 1];
          ptr := top.savedPtr;
          needRefresh := true;
        case Left =>
          ActivateSelected(c, a);
        case Right =>
          ActivateSelected(c, a);
        case Ok =>
          ActivateSelected(c, a);
        case Start =>
          ActivateSelected(c, a);
        case Refresh =>
          ptr := 0;
          needRefresh := true;
        case Message =>
          msgForce := true;
        case Noop =>
      }
    }

    /** rgui_viewport_iterate. */
    method ViewportIterate(c: Console, action: Action, pulled: Option<string>, gxMsg: Option<string>)
      requires Ready(c, pulled, gxMsg)
      requires IsViewportMenu(Top(Menu()).kind)
      modifies this, frameBuf, c
      ensures Valid() && c.Valid()
      ensures (Menu(), c.Snapshot()) == AfterRender(ViewportAct(old(Menu()), old(c.Snapshot()), action))
      ensures frameBuf[..] == PaintAll(old(frameBuf[..]), pitch / 4, StepRects(
        ViewportAct(old(Menu()), old(c.Snapshot()), action), pulled, gxMsg))
    {
      ghost var m0, g0 := Menu(), c.Snapshot();
      var upper := stack[|stack| - 1].kind == SettingsCustomViewport;
      ViewportSwitch(c, action, upper);
      ViewportActSplits(m0, g0, action, Menu(), c.Snapshot());
      DrawViewport(c, pulled, gxMsg);
    }

    /** The end of rgui_viewport_iterate: render_text, then the prompt of the editor on top. */
    method DrawViewport(c: Console, pulled: Option<string>, gxMsg: Option<string>)
      requires Valid() && Drawable(pulled) && Drawable(gxMsg)
      modifies this`msgForce, frameBuf, c`effects
      ensures Valid()
      ensures var n := Render(old(Menu()), old(c.Snapshot()), ViewportPrompt(Top(old(Menu())).kind));
        && (Menu(), c.Snapshot()) == AfterRender(n)
        && frameBuf[..] == PaintAll(old(frameBuf[..]), pitch / 4, StepRects(n, pulled, gxMsg))
    {
      ghost var f0 := frameBuf[..];
      ghost var m0, g0 := Menu(), c.Snapshot();
      ghost var text := TextRects(m0, g0, pulled, gxMsg);
      var kind := stack[|stack| - 1].kind;
      assert kind == Top(m0).kind;
      RenderText(c, pulled, gxMsg);
      ghost var f1 := frameBuf[..];
      DrawPrompt(kind);
      ViewportFrame(f0, f1, frameBuf[..], pitch / 4, m0, g0, kind, pulled, gxMsg);
    }

    /** The message box naming the corner a viewport editor sets. */
    method DrawPrompt(kind: FileType)
      requires ScreenFits(frameBuf.Length, pitch)
      modifies frameBuf
      ensures frameBuf[..] == PaintAll(old(frameBuf[..]), pitch / 4, MessageRects(ViewportPrompt(kind)))
    {
      PromptsDrawable(kind);
      var prompt := ViewportPrompt(kind);
      if prompt.Some? {
        RenderMessagebox(frameBuf, pitch, prompt);
      } else {
        assert PaintAll(frameBuf[..], pitch / 4, []) == frameBuf[..];
      }
    }

    /** The switch of rgui_viewport_iterate. */
    method ViewportSwitch(c: Console, action: Action, upper: bool)
      requires Valid() && c.Valid() && IsViewportMenu(Top(Menu()).kind)
      requires upper <==> Top(Menu()).kind == SettingsCustomViewport
      modifies this`stack, this`msgForce, c`video, c`effects
      ensures Valid() && c.Valid()
      ensures (Menu(), c.Snapshot()) == ViewportMove(old(Menu()), old(c.Snapshot()), action)
    {
      match action {
        case Up =>
          NudgeViewport(c, action, upper);
        case Down =>
          NudgeViewport(c, action, upper);
        case Left =>
          NudgeViewport(c, action, upper);
        case Right =>
          NudgeViewport(c, action, upper);
        case Cancel =>
          stack := stack[..|stack| - 1];
          if !upper {
            stack := stack + [Entry("", SettingsCustomViewport, 0)];
          }
        case Ok =>
          stack := stack[..|stack| - 1];
          if upper {
            stack := stack + [Entry("", SettingsCustomViewport2, 0)];
          }
        case Start =>
          ResetViewport(c, upper);
        case Settings =>
          stack := stack[..|stack| - 1];
        case Message =>
          msgForce := true;
        case Refresh =>
        case Noop =>
      }
    }

    /** UP, DOWN, LEFT and RIGHT in a viewport editor: move the upper-left corner or resize. */
    method NudgeViewport(c: Console, action: Action, upper: bool)
      requires Valid() && c.Valid() && IsViewportMenu(Top(Menu()).kind)
      requires upper <==> Top(Menu()).kind == SettingsCustomViewport
      requires action == Up || action == Down || action == Left || action == Right
      modifies c`video, c`effects
      ensures c.Valid()
      ensures (Menu(), c.Snapshot()) == ViewportMove(Menu(), old(c.Snapshot()), action)
    {
      var vp := c.video.customVp;
      if action == Up {
        vp := if upper then vp.(y := vp.y - 1, height := vp.height + 1) else vp.(height := vp.height - 1);
      } else if action == Down {
        vp := if upper then vp.(y := vp.y + 1, height := vp.height - 1) else vp.(height := vp.height + 1);
      } else if action == Left {
        vp := if upper then vp.(x := vp.x - 1, width := vp.width + 1) else vp.(width := vp.width - 1);
      } else {
        vp := if upper then vp.(x := vp.x + 1, width := vp.width - 1) else vp.(width := vp.width + 1);
      }
      c.video := c.video.(customVp := vp);
      c.Emit([ApplyStateChanges]);
    }

    /** START in a viewport editor: on GEKKO, snap the edited corner back to the screen's. */
    method ResetViewport(c: Console, upper: bool)
      requires Valid() && c.Valid() && IsViewportMenu(Top(Menu()).kind)
      requires upper <==> Top(Menu()).kind == SettingsCustomViewport
      modifies c`video, c`effects
      ensures c.Valid()
      ensures (Menu(), c.Snapshot()) == ViewportMove(Menu(), old(c.Snapshot()), Start)
    {
      ghost var g0 := c.Snapshot();
      if c.build.gekko {
        var vp := c.video.customVp;
        var reset :=
          if upper then Viewport(0, 0, vp.width + vp.x, vp.height + vp.y)
          else vp.(width := c.video.winWidth - vp.x, height := c.video.winHeight - vp.y);
        assert ViewportMove(Menu(), g0, Start) == (Menu(), MoveViewport(g0, reset));
        c.video := c.video.(customVp := reset);
      } else {
        assert ViewportMove(Menu(), g0, Start) == (Menu(), Log(g0, [ApplyStateChanges]));
      }
      c.Emit([ApplyStateChanges]);
    }
  }
}
