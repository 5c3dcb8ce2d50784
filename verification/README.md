# RGUI menu, X11 keyboard lookup and console startup, in Dafny

This project models three parts of the RetroArch console frontend and proves properties of them:

- **The RGUI menu** (`console/rgui/rgui.c`). `rgui_handle` is the class `RguiHandle.Handle`. It
  holds the path stack, the folder buffer, the cursor `directory_ptr`, the flags `need_refresh`
  and `msg_force`, `path_buf`, and the 16-bit frame buffer. Its methods update that state in
  place, as `rgui_init`, `rgui_iterate`, `rgui_settings_iterate`, `rgui_viewport_iterate`,
  `render_text` and `rgui_settings_toggle_setting` do.
  - On two inputs the code misbehaves (see "## Findings"), and there the methods follow the
    corrected behaviour: START on Rotation and OK on ".." in the base directory. The code as
    written is modelled on those inputs by the functions `RguiMenu.RotationToggleAsWritten`
    and `RguiMenu.OpenDirectoryAsWritten`.
  - Each method is proved equal to a step function on values in `RguiMenu`, and the property
    lemmas are stated about those functions.
  - The drawing side is in `RguiRender`: the checkerboard fillers, `fill_rect` as nested loops
    over an `array<bv16>`, the background, the message box with its truncation, and the
    layout arithmetic of `render_text`. Each drawing method is proved to leave the frame buffer
    equal to `PaintAll`, the fold of its `fill_rect` calls.
- **The X11 keyboard lookup** (`input/x11_input.c`): `init_lut` as a loop over an array, and
  `x_key_pressed`, `x_is_pressed`, `x_bind_button_pressed` and `x_input_state` as functions.
  They use the corrected key guard of "## Findings", which also turns away negative keys. The
  guard as written is modelled only by `X11Input.KeyGuardAsWritten` and
  `X11Input.KeyGuardAdmitsNegative`.
  The keymap from `XQueryKeymap`, `XKeysymToKeycode` and the SDL driver are parameters.
- **The console startup glue** (`console/rarch_console_main_wrap.c`):
  - `rarch_main_init_wrap` builds the argv array step by step and frees it with a loop
    that walks to the first NULL;
  - `rarch_startup` updates the console flags in place;
  - `rarch_main_init` is a parameter.

The global state (`g_console`, `g_settings`, `g_extern`, `default_paths`) appears only through
the fields this code reads or writes: the class `Globals.Console`, with a value snapshot
`ConsoleState`. Calls into code outside the model are appended to an effect log, in call order.
They include `rarch_settings_change`, `rarch_settings_default`, `apply_state_changes`,
`video_set_*`, the message queue, the keybind setters, save states, screenshots, game loading
and `rarch_main_init`/`rarch_main_deinit`. The preprocessor switches `GEKKO`, `HW_RVL` and
`HAVE_HDD_CACHE_PARTITION` are the `Build` record, so both sides of each `#ifdef` are modelled.

The headers that define `RGUI_WIDTH`/`RGUI_HEIGHT` (320×240), the font size (5×10), the
`rgui_file_type_t`, `RETROK_*`, `XK_*`, `RETRO_DEVICE_*`, `RARCH_DEVICE_LAST` (4),
`DPAD_EMULATION_LAST` (3) and `ZIP_EXTRACT_*` values are not part of this model. Their values
are written out in the Dafny modules. `rgui_list_*` (list.h is not part of this model) is a
Dafny sequence of entries.

Modules: `Wrappers` (Option), `Globals`, `RguiTypes`, `RguiRender`, `RguiMenu`,
`RguiHandle`, `X11Input`, `MainWrap`.

## Model

| member | source | states |
|---|---|---|
| RguiTypes.MenuKindsDisjoint | console/rgui/rgui.c:84-92 | a menu type is never both a settings menu and a viewport editor, and a listing menu (directory, device, core list) is neither, so `rgui_iterate` dispatches each type to exactly one handler |
| RguiTypes.ControllerLutIsPermutation | console/rgui/rgui.c:65-82 | `rgui_controller_lut` has 16 entries, each a joypad id below 16, pairwise distinct: every button is edited by exactly one row |
| RguiRender.FillerCheckerboard | console/rgui/rgui.c:166-180 | gray_filler yields 0x6111/0x6222 and green_filler 0x6121/0x6242; two pixels get the same colour iff their 2×2 tiles have the same parity; a gray colour never equals a green one |
| RguiRender.FillerColor | console/rgui/rgui.c:166-180 | defines the pixel of each filler at (x, y): 0x6000 with the shade index (1 or 2 by the 2×2 checkerboard) in the colour nibbles, green shifting its middle nibble by 5 instead of 4 |
| RguiRender.Paint | console/rgui/rgui.c:182-190 | defines the buffer after one fill_rect: each cell inside the rectangle (row-major by the stride) takes the filler colour of its own position, every other cell keeps its value |
| RguiRender.PaintCell | console/rgui/rgui.c:187-189 | after painting a rectangle, cell `j*stride+i` of every pixel (i, j) inside it holds the filler's colour for (i, j) |
| RguiRender.PaintOutside | console/rgui/rgui.c:187-189 | painting a rectangle leaves every cell outside it unchanged |
| RguiRender.FillRect | console/rgui/rgui.c:182-190 | the outer loop of fill_rect leaves the array equal to `Paint` of the old contents over rows `y..y+height`, at index `j*(pitch>>2)+i` |
| RguiRender.FillRow | console/rgui/rgui.c:188-189 | the inner loop writes exactly the cells `[x, x+width)` of row j with the filler colour |
| RguiRender.PaintAll | console/rgui/rgui.c:182-190 | the buffer after a list of fill_rect calls, in order; its own contract says only that the length is kept, and the drawing methods are proved equal to it |
| RguiRender.PaintAllAppend | console/rgui/rgui.c:216-232 | painting one list of rectangles and then another is painting their concatenation |
| RguiRender.FillRectAfter | console/rgui/rgui.c:182-190 | one more fill_rect call extends the painted list by that rectangle |
| RguiRender.RenderBackground | console/rgui/rgui.c:216-232 | render_background is its five fill_rect calls: the gray 320×240 screen, then the four green bars 5 pixels in |
| RguiRender.BackgroundRects | console/rgui/rgui.c:216-232 | defines the five rectangles of render_background: the full gray screen, then the green top, bottom, left and right bands 5 pixels wide and 5 pixels in |
| RguiRender.BackgroundCoversScreen | console/rgui/rgui.c:216-232 | after render_background, every pixel of the 320×240 area holds the gray or the green filler colour for its position |
| RguiRender.FillersStay | console/rgui/rgui.c:182-190 | a pixel holding a filler colour for its position keeps one under any further fill_rect calls |
| RguiRender.TruncatedShape | console/rgui/rgui.c:240-246 | a message of at most TERM_WIDTH characters is unchanged; a longer one becomes its first TERM_WIDTH-2 characters followed by "..." (TERM_WIDTH+1 characters) |
| RguiRender.Truncated | console/rgui/rgui.c:240-246 | defines the text of the message box: a message longer than TERM_WIDTH keeps its first TERM_WIDTH-2 characters followed by "..." |
| RguiRender.DupTruncated | console/rgui/rgui.c:239-246 | the strdup-and-overwrite of render_messagebox leaves a NUL-terminated array whose text is the truncated message |
| RguiRender.BoxFitsScreen | console/rgui/rgui.c:248-251 | for any non-empty message the box of the truncated text is at least 10×10 and lies inside the 320×240 screen |
| RguiRender.BoxFor | console/rgui/rgui.c:248-251 | defines the box of a text of n characters: width n*FONT_WIDTH_STRIDE-1+6+10, height FONT_HEIGHT+6+10, centred with the 32-bit unsigned subtraction of the code |
| RguiRender.BoxRects | console/rgui/rgui.c:253-266 | defines the five fill_rect calls of the box: the gray panel 5 pixels in, then its green top, right, bottom and left borders |
| RguiRender.MessageRects | console/rgui/rgui.c:234-266 | defines the fill_rect calls of render_messagebox: none for a NULL or empty message, else the box of the truncated text |
| RguiRender.RenderMessagebox | console/rgui/rgui.c:234-270 | a NULL or empty message draws nothing; otherwise the frame buffer gets the five rectangles of the box of the truncated text |
| RguiRender.FillBox | console/rgui/rgui.c:253-266 | the five fill_rect calls of the box: gray panel, then top, right, bottom and left green bars |
| RguiRender.WindowBounds | console/rgui/rgui.c:277-283 | while the cursor is at most TERM_HEIGHT/2 past the end, the visible window `[begin, end)` lies within the list, holds at most TERM_HEIGHT rows, and contains a cursor that is on an entry |
| RguiRender.WindowOverrun | console/rgui/rgui.c:277-283 | with the cursor TERM_HEIGHT/2+1 past the end, `end - begin` wraps in size_t and the window reaches beyond the list |
| RguiRender.VisibleWindow | console/rgui/rgui.c:277-283 | defines the rows [begin, end) shown around the cursor, computed in `size_t` arithmetic |
| RguiRender.EntryTitleFits | console/rgui/rgui.c:421-433 | a trimmed file or directory name fills its column exactly, starting with the start of the path and ending with its last 5 characters; a short name is kept |
| RguiRender.TypeColumnWidth | console/rgui/rgui.c:320-327 | defines the type column width: 6 for "(FILE)", 5 for "(DIR)" |
| RguiRender.EntryTitle | console/rgui/rgui.c:421-433 | defines the shown name: a plain file or directory longer than its column keeps its first characters, "..." and its last five characters; any other entry keeps its path |
| RguiRender.Clip | console/rgui/rgui.c:287-297 | snprintf into n bytes gives a prefix of the string, of its full length when that is below n and of n-1 characters otherwise |
| RguiRender.ScreenTitle | console/rgui/rgui.c:287-297 | the heading is "CORE SELECTION" in the core list; otherwise it is a prefix of "SETTINGS: dir" (settings, controller and viewport menus) or "FILE BROWSER: dir" (any other menu), the whole of it when it fits in TERM_WIDTH-1 characters and TERM_WIDTH-1 characters of it otherwise |
| RguiMenu.InitialMenu | console/rgui/rgui.c:140-142 | the initial menu holds only the base directory on the stack, with an empty buffer, cursor 0 and both flags clear |
| RguiMenu.CursorUp | console/rgui/rgui.c:988-993 | defines UP: one entry back, from the first entry to the last (size-1) |
| RguiMenu.CursorDown | console/rgui/rgui.c:995-1000 | defines DOWN: one entry on, from the last entry back to the first |
| RguiMenu.PageUp | console/rgui/rgui.c:1002-1007 | defines LEFT: eight entries back when that stays above 0, else the first entry |
| RguiMenu.PageDown | console/rgui/rgui.c:1009-1014 | defines RIGHT: eight entries on when that stays in the list, else the last entry |
| RguiMenu.CursorStaysInList | console/rgui/rgui.c:988-1014 | on a non-empty list, UP, DOWN, LEFT and RIGHT all land on an entry; on any list the cursor stays at or above -1 |
| RguiMenu.CursorUpDownInverse | console/rgui/rgui.c:988-1000 | UP and DOWN undo each other on every entry, across the wrap as well |
| RguiMenu.CursorWraps | console/rgui/rgui.c:988-1000 | UP on the first entry goes to the last, and DOWN on the last goes to the first, in the file browser and in the settings menu's copy of these cases (rgui.c:900-912) |
| RguiMenu.PageInverse | console/rgui/rgui.c:1002-1014 | LEFT undoes RIGHT whenever RIGHT jumped a full page of 8 |
| RguiMenu.CommonItemsShape | console/rgui/rgui.c:714-729 | the items shown in every configuration are 16, from Gamma to Exit RetroArch, with Core at 8 and Controller #p at 9+p |
| RguiMenu.SettingsEntries | console/rgui/rgui.c:699-730 | defines the settings menu: the in-game items while a game runs, the filter items (VI filter on HW_RVL only), then the common items |
| RguiMenu.ControllerEntries | console/rgui/rgui.c:732-754 | defines the controller menu: Device, DPad Emulation, then one row per button of `rgui_controller_lut` |
| RguiMenu.SettingsEntriesTail | console/rgui/rgui.c:699-730 | the settings menu ends with those 16 items in that order |
| RguiMenu.SettingsEntriesOptional | console/rgui/rgui.c:703-713 | the four in-game items lead the menu exactly when the in-game menu is enabled; VI Trap filtering follows Hardware filtering exactly on the Wii |
| RguiMenu.CommonItemsNoFiles | console/rgui/rgui.c:714-729 | none of the common items is a file, a directory or a device |
| RguiMenu.SettingsEntriesAreSettings | console/rgui/rgui.c:699-730 | no item of the settings menu is a file, a directory or a device |
| RguiMenu.ControllerEntriesShape | console/rgui/rgui.c:732-754 | the controller menu has 18 rows: Device, DPad Emulation, then row r+2 binds button r of the lookup table |
| RguiMenu.CycleStep | console/rgui/rgui.c:639-646 | the add-N, step, mod-N update in unsigned arithmetic always yields a value below N |
| RguiMenu.CycleStepCycles | console/rgui/rgui.c:639-659 | on a value in range, START picks the reset value, LEFT steps down cyclically, RIGHT steps up cyclically, other actions keep it |
| RguiMenu.CycleStepInverse | console/rgui/rgui.c:639-659 | LEFT and RIGHT undo each other |
| RguiMenu.SetGamma | console/rgui/rgui.c:530-552 | defines a gamma change: the new gamma_correction followed by an apply_state_changes call |
| RguiMenu.BindDevice | console/rgui/rgui.c:638-650 | defines the device row: the device cycled by `CycleStep` over RARCH_DEVICE_LAST with START picking 0, then the keybind LUT, default keybinds and d-pad mapping calls for the new device |
| RguiMenu.BindDpad | console/rgui/rgui.c:651-661 | defines the d-pad row: the mode cycled over DPAD_EMULATION_LAST with START picking the left stick, then the d-pad mapping call |
| RguiMenu.KeybindFor | console/rgui/rgui.c:681-686 | defines the keybind edit: START the default, LEFT decrement, RIGHT increment |
| RguiMenu.Toggle | console/rgui/rgui.c:469-695 | a toggle keeps the console valid and never changes the build or the mode switch (the mode switch only because the calls that leave the menu are logged; see "## Left out") |
| RguiMenu.ScreenshotReports | console/rgui/rgui.c:492-507 | OK on the screenshot item calls screenshot_dump and then queues "Screenshot saved" or "Screenshot failed to save" as it returned true or false, changing no setting; any other action does nothing |
| RguiMenu.ToggleKeepsRanges | console/rgui/rgui.c:530-552 | device, d-pad mode, gamma and zip mode in range stay in `[0,4)`, `[0,3)`, `[0,MAX_GAMMA_SETTING]`, `[0,LAST_ZIP_EXTRACT]` under every toggle |
| RguiMenu.ToggleTouchesOnePort | console/rgui/rgui.c:638-661 | a toggle in controller menu p leaves the device and d-pad mode of every other port unchanged |
| RguiMenu.BindDeviceCycles | console/rgui/rgui.c:638-650 | the device row: START picks device 0, LEFT and RIGHT step cyclically through the 4 devices, and the port's keybind LUT, default binds and d-pad mapping are reloaded in that order |
| RguiMenu.BindRowEditsItsButton | console/rgui/rgui.c:662-691 | START, LEFT and RIGHT on button row r send default, decrement and increment for joypad id `rgui_controller_lut[r]` on the menu's port, and leave the input settings unchanged |
| RguiMenu.DebugTextSwitch | console/rgui/rgui.c:618-623 | START and LEFT switch the frame counter off, RIGHT switches it on, other actions keep it |
| RguiMenu.GammaSaturates | console/rgui/rgui.c:530-552 | START resets gamma to 0; LEFT decrements above 0, RIGHT increments below MAX_GAMMA_SETTING, and each logs apply_state_changes only when it changed the value |
| RguiMenu.RotationStartResetsRotation | console/rgui/rgui.c:562-567 | corrected: START on Rotation resets the rotation and applies it |
| RguiMenu.RotationStartResetsAudioRate | console/rgui/rgui.c:562-567 | as written: START on Rotation makes the same default call as START on Audio Control Rate and never resets the rotation |
| RguiMenu.RotationToggleAsWritten | console/rgui/rgui.c:562-567 | defines the Rotation item as written: START logs the audio control rate default and the rotation call; other actions as `Toggle` |
| RguiMenu.BrowserFinish | console/rgui/rgui.c:1105-1118 | the end of rgui_iterate keeps the menu valid and the console unchanged |
| RguiMenu.OpenDirectory | console/rgui/rgui.c:1034-1050 | corrected OK on a directory: the stack keeps its base directory and a refresh is requested |
| RguiMenu.DotDotAtRootEmptiesStack | console/rgui/rgui.c:1039-1043 | as written, OK on ".." in the base directory pops the only entry and leaves an empty stack; the corrected version keeps the stack |
| RguiMenu.OpenDirectoryAsWritten | console/rgui/rgui.c:1034-1050 | defines OK on a directory as written: ".." pops unconditionally, "." stays, any other name pushes dir/name; the listing is then refreshed |
| RguiMenu.OpenDirectoryAgrees | console/rgui/rgui.c:1034-1050 | away from the base directory, or for any name but "..", the corrected OK is the code as written |
| RguiMenu.Open | console/rgui/rgui.c:1025-1076 | OK on an entry keeps the menu valid and never changes the build or the input settings |
| RguiMenu.BrowserMove | console/rgui/rgui.c:986-1103 | the switch of rgui_iterate keeps the menu valid and never changes the build or the input settings |
| RguiMenu.EnterSettings | console/rgui/rgui.c:1083-1094 | SETTINGS in the file browser keeps the menu valid |
| RguiMenu.BrowserAct | console/rgui/rgui.c:983-1121 | rgui_iterate on a file browser keeps the menu and the console valid |
| RguiMenu.BrowserAction | console/rgui/rgui.c:983-984 | defines the action rgui_iterate acts on: NOOP while a refresh is pending, except for MESSAGE |
| RguiMenu.BrowserActCases | console/rgui/rgui.c:1025-1028 | OK on an empty buffer ends before rendering with nothing changed; SETTINGS hands over to rgui_settings_iterate with REFRESH |
| RguiMenu.BrowserActSplits | console/rgui/rgui.c:986-1118 | every other action is the switch followed by the listing refresh |
| RguiMenu.SettingsActivate | console/rgui/rgui.c:921-941 | OK, START, LEFT and RIGHT on a settings item keep the menu and the console valid |
| RguiMenu.ActivateEnters | console/rgui/rgui.c:925-930 | OK on a controller item or on Core pushes that menu (labelled with the core directory for Core) with the cursor saved, resets the cursor, and requests a refresh |
| RguiMenu.ActivateOpensViewport | console/rgui/rgui.c:931-936 | OK on Custom Ratio pushes the upper-left editor, selects the custom aspect ratio and applies it |
| RguiMenu.ActivateToggles | console/rgui/rgui.c:937-940 | any other action or item is rgui_settings_toggle_setting with the type of the menu on top |
| RguiMenu.SettingsMove | console/rgui/rgui.c:898-954 | the switch of rgui_settings_iterate keeps the menu and the console valid |
| RguiMenu.SettingsFinish | console/rgui/rgui.c:956-965 | the repopulation keeps the menu valid and the console unchanged |
| RguiMenu.SettingsAct | console/rgui/rgui.c:883-970 | rgui_settings_iterate keeps the menu and the console valid |
| RguiMenu.SettingsAction | console/rgui/rgui.c:895-896 | defines the action rgui_settings_iterate acts on: NOOP while a refresh is pending |
| RguiMenu.SettingsActSplits | console/rgui/rgui.c:895-965 | rgui_settings_iterate is its switch, on NOOP while a refresh is pending, followed by the repopulation |
| RguiMenu.ViewportMove | console/rgui/rgui.c:765-871 | the switch of rgui_viewport_iterate keeps the menu valid and never changes the build or the input settings |
| RguiMenu.MoveViewport | console/rgui/rgui.c:767-817 | defines a viewport edit: the new custom viewport followed by an apply_state_changes call |
| RguiMenu.SwapViewportMenu | console/rgui/rgui.c:819-841 | defines the pop of one viewport editor and the push of the other, with an empty path and cursor 0 |
| RguiMenu.LeaveViewport | console/rgui/rgui.c:819-841 | defines the pop of the viewport editor back to the settings menu |
| RguiMenu.ViewportPrompt | console/rgui/rgui.c:877-880 | defines the prompt drawn over each editor: "Set Upper-Left Corner", "Set Bottom-Right Corner", none elsewhere |
| RguiMenu.ViewportAct | console/rgui/rgui.c:757-881 | rgui_viewport_iterate keeps the menu valid and never changes the build or the input settings |
| RguiMenu.ViewportActSplits | console/rgui/rgui.c:865-881 | rgui_viewport_iterate is its switch followed by the prompt of the editor then on top |
| RguiMenu.IterateAct | console/rgui/rgui.c:972-982 | rgui_iterate keeps the menu and the console valid |
| RguiMenu.Step | console/rgui/rgui.c:972-1121 | one action keeps the menu and the console valid; render_text changes neither the stack nor the cursor |
| RguiMenu.BrowserWaitsForRefresh | console/rgui/rgui.c:983-984 | while a refresh is pending, any action but MESSAGE only completes the refresh: stack, cursor and console stay |
| RguiMenu.SettingsWaitForRefresh | console/rgui/rgui.c:895-896 | while a refresh is pending, every action of a settings menu, MESSAGE included, only repopulates it: stack, cursor and console stay |
| RguiMenu.BrowserCancel | console/rgui/rgui.c:1016-1023 | CANCEL in the file browser pops the menu and restores its saved cursor when the stack holds more than one entry, and changes nothing in the base directory |
| RguiMenu.SettingsCancel | console/rgui/rgui.c:914-919 | CANCEL and SETTINGS in a settings menu pop it and restore the saved cursor; a settings menu is never the base entry |
| RguiMenu.BrowserOkOnEmptyBuffer | console/rgui/rgui.c:1027-1028 | OK on an empty folder buffer changes nothing and draws nothing |
| RguiMenu.BrowserOkOnDirectory | console/rgui/rgui.c:1034-1050 | OK on ".." pops and restores the cursor (the base directory stays), "." keeps the stack, any other name pushes "dir/name" with the cursor saved and reset; a refresh follows in every case |
| RguiMenu.BrowserOkOnDevice | console/rgui/rgui.c:1051-1056 | OK on a device pushes it with the cursor saved and reset |
| RguiMenu.BrowserOkOnFile | console/rgui/rgui.c:1057-1074 | OK on a file in the core list sets the core, pops back and queues the restart notice; elsewhere it loads "dir/name" with the current zip mode and forces the message |
| RguiMenu.BrowserOpensSettings | console/rgui/rgui.c:1083-1095 | SETTINGS in a directory pushes the settings menu and populates it at once; in the core list it pops back |
| RguiMenu.SettingsFromDirectory | console/rgui/rgui.c:1090-1095 | entering the settings from a directory leaves the populated settings menu on top, cursor 0, the directory's cursor saved under it |
| RguiMenu.SettingsFromCore | console/rgui/rgui.c:1084-1089 | SETTINGS in the core list returns to the menu below with its saved cursor |
| RguiMenu.SettingsOkEnters | console/rgui/rgui.c:925-930 | OK on a controller item opens that controller menu populated with its 18 rows; OK on Core opens the core list of the core directory, to be listed by the file browser |
| RguiMenu.OkEntersController | console/rgui/rgui.c:925-930 | OK on Controller #p pushes controller menu p and populates it with the controller rows |
| RguiMenu.OkEntersCore | console/rgui/rgui.c:925-930 | OK on Core pushes the core list, labelled with the core directory, with a refresh pending |
| RguiMenu.SettingsOkOpensViewport | console/rgui/rgui.c:931-936 | OK on Custom Ratio selects the custom aspect ratio and opens the upper-left editor with its prompt |
| RguiMenu.UpperLeftKeepsBottomRight | console/rgui/rgui.c:767-817 | in the upper-left editor each arrow moves the corner by one and keeps `x+width` and `y+height`; START on GEKKO moves the corner to the origin, again keeping them |
| RguiMenu.BottomRightKeepsUpperLeft | console/rgui/rgui.c:767-857 | the bottom-right editor never changes `x` or `y`: arrows change width or height by one, START on GEKKO stretches to the window size |
| RguiMenu.ViewportEditorsSwap | console/rgui/rgui.c:819-841 | OK in the upper-left editor and CANCEL in the bottom-right editor swap the editors without changing the stack size; the other exits pop; the cursor stays |
| RguiMenu.RenderTextPullsOnce | console/rgui/rgui.c:445-460 | render_text pulls the message queue at most once; on GEKKO only for a forced message, which it then clears |
| RguiMenu.Quiet | console/rgui/rgui.c:274-275 | defines when render_text returns at once: a refresh pending in menu mode with no forced message |
| RguiMenu.RenderTextStep | console/rgui/rgui.c:272-275 | defines the state render_text leaves: nothing when quiet; else one queue pull, on GEKKO only for a forced message, which it clears |
| RguiMenu.AfterRender | console/rgui/rgui.c:1120 | defines the state after an iterate function: render_text runs unless the function returned early |
| RguiHandle.NoPrompt | console/rgui/rgui.c:967-970 | without a viewport prompt, the end of an iterate function is render_text alone |
| RguiHandle.ShownMessage | console/rgui/rgui.c:445-460 | defines the message render_text shows: on GEKKO the video driver's message unless one is forced, else the pulled one |
| RguiHandle.TextRects | console/rgui/rgui.c:272-461 | defines the fill_rect calls of render_text: none when quiet, else the background then the message box |
| RguiHandle.StepRects | console/rgui/rgui.c:873-880 | defines the fill_rect calls of an iterate function: none when it returned early, else render_text's and then the viewport prompt's box |
| RguiHandle.ViewportFrame | console/rgui/rgui.c:875-880 | the frame after rgui_viewport_iterate is render_text's rectangles followed by the prompt's box |
| RguiHandle.PromptsDrawable | console/rgui/rgui.c:877-880 | both viewport prompts are C strings |
| RguiHandle.ToggleSetting | console/rgui/rgui.c:469-695 | toggling in place leaves the console equal to `Toggle` of its old snapshot and of what screenshot_dump returns |
| RguiHandle.ToggleGameSetting | console/rgui/rgui.c:475-515 | the same for save/load state, screenshot (the dump and its message), restart game, restart and quit |
| RguiHandle.ToggleVideoSetting | console/rgui/rgui.c:516-595 | the same for the filter, VI filter, gamma, aspect ratio, rotation and overscan items |
| RguiHandle.StepGamma | console/rgui/rgui.c:530-552 | the same for the gamma item |
| RguiHandle.ToggleFrontendSetting | console/rgui/rgui.c:596-623 | the same for mute, audio control rate, zip extract and debug text |
| RguiHandle.StepZipExtract | console/rgui/rgui.c:610-617 | the same for the zip extract item |
| RguiHandle.SwitchDebugText | console/rgui/rgui.c:618-623 | the same for the debug text item |
| RguiHandle.ToggleControllerSetting | console/rgui/rgui.c:638-691 | the same for the device, d-pad and button rows |
| RguiHandle.CycleDevice | console/rgui/rgui.c:638-650 | the device row in place equals `BindDevice` of the old snapshot |
| RguiHandle.CycleDpad | console/rgui/rgui.c:651-661 | the d-pad row in place equals `BindDpad` of the old snapshot |
| RguiHandle.Handle.constructor | console/rgui/rgui.c:127-155 | rgui_init: the initial menu on the given frame buffer; S_QUIT is requested exactly when neither font is given |
| RguiHandle.Handle.RenderText | console/rgui/rgui.c:272-461 | render_text leaves the menu and console of `RenderTextStep` and paints the background and message box, or nothing while quiet |
| RguiHandle.Handle.RefreshListing | console/rgui/rgui.c:1105-1118 | the listing refresh in place equals `BrowserFinish` |
| RguiHandle.Handle.Repopulate | console/rgui/rgui.c:956-965 | the repopulation in place equals `SettingsFinish` |
| RguiHandle.Handle.OpenSelected | console/rgui/rgui.c:1030-1075 | OK on the selected entry in place equals `Open` |
| RguiHandle.Handle.EnterDirectory | console/rgui/rgui.c:1034-1050 | the directory case in place equals `Open` |
| RguiHandle.Handle.EnterDevice | console/rgui/rgui.c:1051-1056 | the device case in place equals `Open` |
| RguiHandle.Handle.SelectCore | console/rgui/rgui.c:1059-1066 | the core-list case in place equals `Open` |
| RguiHandle.Handle.LoadSelected | console/rgui/rgui.c:1067-1073 | the game-loading case in place equals `Open` |
| RguiHandle.Handle.Iterate | console/rgui/rgui.c:972-1121 | rgui_iterate in place leaves menu and console equal to `Step`, and the frame buffer equal to painting the rectangles of that step |
| RguiHandle.Handle.BrowserIterate | console/rgui/rgui.c:983-1121 | the file browser part in place equals `BrowserAct` followed by render_text, frame buffer included |
| RguiHandle.Handle.FinishBrowser | console/rgui/rgui.c:1105-1120 | refresh then render_text, in place, as `BrowserFinish` |
| RguiHandle.Handle.OpenSettings | console/rgui/rgui.c:1083-1094 | SETTINGS in the file browser in place equals `EnterSettings` |
| RguiHandle.Handle.BrowserSwitch | console/rgui/rgui.c:986-1103 | the switch of rgui_iterate in place equals `BrowserMove` |
| RguiHandle.Handle.ActivateSelected | console/rgui/rgui.c:921-941 | OK, START, LEFT or RIGHT on the selected item in place equals `SettingsActivate` |
| RguiHandle.Handle.EnterSelected | console/rgui/rgui.c:925-930 | the push of a controller menu or the core list, in place |
| RguiHandle.Handle.OpenViewportEditor | console/rgui/rgui.c:931-936 | the push of the upper-left editor and the custom aspect ratio, in place |
| RguiHandle.Handle.ToggleSelected | console/rgui/rgui.c:937-940 | the toggle of the selected item, in place |
| RguiHandle.Handle.SettingsIterate | console/rgui/rgui.c:883-970 | rgui_settings_iterate in place equals `SettingsAct` followed by render_text, frame buffer included |
| RguiHandle.Handle.FinishSettings | console/rgui/rgui.c:956-967 | repopulation then render_text, in place, as `SettingsFinish` |
| RguiHandle.Handle.SettingsSwitch | console/rgui/rgui.c:898-954 | the switch of rgui_settings_iterate in place equals `SettingsMove` |
| RguiHandle.Handle.ViewportIterate | console/rgui/rgui.c:757-881 | rgui_viewport_iterate in place equals `ViewportAct` followed by render_text and the prompt, frame buffer included |
| RguiHandle.Handle.DrawViewport | console/rgui/rgui.c:873-880 | render_text then the prompt box of the editor on top |
| RguiHandle.Handle.DrawPrompt | console/rgui/rgui.c:877-880 | the prompt box of a viewport editor |
| RguiHandle.Handle.ViewportSwitch | console/rgui/rgui.c:765-871 | the switch of rgui_viewport_iterate in place equals `ViewportMove` |
| RguiHandle.Handle.NudgeViewport | console/rgui/rgui.c:767-817 | the arrows of a viewport editor, in place |
| RguiHandle.Handle.ResetViewport | console/rgui/rgui.c:843-859 | START in a viewport editor, in place |
| X11Input.Run | input/x11_input.c:70-127 | a run of n rows maps consecutive keysyms to consecutive libretro keys |
| X11Input.LutInverse | input/x11_input.c:130-135 | for a table with distinct keys, storing its rows in order leaves entry k equal to the keysym of the row naming k, and 0 when no row does |
| X11Input.LutValue | input/x11_input.c:132-134 | defines keysym_lut[k] after the memset and the stores of a row list: the x of the last row whose sk is k, else 0 |
| X11Input.MiscBindsShape | input/x11_input.c:44-69 | the 26 rows before the digit and letter runs name distinct keys below RETROK_LAST, none of which a run names |
| X11Input.LutBindsShape | input/x11_input.c:43-128 | lut_binds has 84 rows, names each libretro key at most once, and only keys below RETROK_LAST |
| X11Input.KeysymLutInverts | input/x11_input.c:130-135 | after init_lut, `keysym_lut[sk] == x` for every row `(x, sk)` of lut_binds, and every other entry is 0 |
| X11Input.InitLut | input/x11_input.c:130-135 | the memset and the loop leave every entry of the array equal to that inverse |
| X11Input.KeycodeDownIsBit | input/x11_input.c:170 | `state[c >> 3] & (1 << (c & 7))` is bit c of the 256-bit keymap |
| X11Input.KeycodeDown | input/x11_input.c:170 | defines the bit test of x_key_pressed on a keycode, with the C shifts and mask on bytes |
| X11Input.KeymapBit | input/x11_input.c:170 | defines bit c of the keymap read as a 256-bit little-endian number, in arithmetic |
| X11Input.KeyGuardAdmitsNegative | input/x11_input.c:165-168 | as written: id 0xFFFFFFFF, which x_input_state passes as the int -1, passes the `key >= RETROK_LAST` guard though it is no index of keysym_lut |
| X11Input.KeyGuardAsWritten | input/x11_input.c:165-168 | defines the guard as written: every key below RETROK_LAST passes, negatives included |
| X11Input.KeyPressed | input/x11_input.c:163-172 | corrected: a key is pressed iff it indexes keysym_lut and the keymap bit of its keycode is set; every key at or above RETROK_LAST is released |
| X11Input.IsPressed | input/x11_input.c:174-183 | false past the bind list; otherwise true iff the bind is valid, its key k is in `[0, RETROK_LAST)` and the keymap bit of the keycode of `keysym_lut[k]` is set |
| X11Input.BindButtonPressed | input/x11_input.c:185-190 | the port-0 bind test OR the SDL key test; a negative id only reaches SDL |
| X11Input.InputState | input/x11_input.c:192-211 | joypad: the bind test OR SDL; keyboard: the X11 keymap alone, as 0 or 1; analog: SDL alone; any other device: 0; the result, like the SDL driver's, is an `int16_t` |
| X11Input.KeyboardMatchesBind | input/x11_input.c:196-203 | a key pressed on the keyboard device makes the joypad query of a valid bind naming that key report 1 |
| MainWrap.ArgListShape | console/rarch_console_main_wrap.c:26-53 | argv[0] is "retroarch", then the ROM path, `-s`, `-S`, `-c` pairs and `-v`, one entry per present setting, at most 9 in all, which is below MAX_ARGS |
| MainWrap.ArgList | console/rarch_console_main_wrap.c:26-53 | defines the argument list: "retroarch", the ROM path if any, `-s`, `-S` and `-c` each with its path if present, and `-v` if verbose |
| MainWrap.Append | console/rarch_console_main_wrap.c:29-53 | `argv[argc++] = strdup(s)` appends s and keeps NULLs after it |
| MainWrap.AppendFlag | console/rarch_console_main_wrap.c:34-50 | a present flag appends the flag and its value, an absent one nothing |
| MainWrap.BuildArgv | console/rarch_console_main_wrap.c:26-53 | the filled argv holds the argument list in order, followed by NULLs up to MAX_ARGS |
| MainWrap.FreeArgv | console/rarch_console_main_wrap.c:64-69 | the free loop visits exactly the entries before the first NULL |
| MainWrap.MainInitWrap | console/rarch_console_main_wrap.c:24-72 | rarch_main_init receives the argument list, its result is returned, and every copied argument is freed |
| MainWrap.StartupArgs | console/rarch_console_main_wrap.c:83-89 | the SRAM and save-state paths are set exactly when enabled; the ROM path, config path and verbose flag are copied |
| MainWrap.StartupDisabled | console/rarch_console_main_wrap.c:78-109 | with no start requested, nothing changes and the result is false |
| MainWrap.StartupCalls | console/rarch_console_main_wrap.c:78-94 | rarch_main_deinit is called first exactly when the emulator was initialised, then rarch_main_init with the argument list; the result is true iff that returns 0 |
| MainWrap.StartupSuccess | console/rarch_console_main_wrap.c:94-99 | success marks the emulator initialised, clears the request and returns true |
| MainWrap.StartupFailure | console/rarch_console_main_wrap.c:100-106 | failure marks it not initialised, switches to the menu, reports the ROM loading error, keeps the request and returns false |
| MainWrap.StartupPassesDirs | console/rarch_console_main_wrap.c:85-89 | the ROM path comes second; `-s` and `-S` with their directories follow only when enabled, in that order |
| MainWrap.Startup | console/rarch_console_main_wrap.c:74-110 | rarch_startup in place equals `StartupStep` |
| MainWrap.StartupStep | console/rarch_console_main_wrap.c:74-110 | defines rarch_startup on values: nothing when no start is requested; else the deinit call if initialised, rarch_main_init on `ArgList`, then the flags and mode of success or failure |
| Globals.Console.Emit | console/rarch_console_main_wrap.c:81 | appends calls into code outside the model to the effect log, and changes nothing else |

## Left out

- Glyph drawing is not modelled: `blit_line`, `copy_glyph`, `init_font` and the font buffer.
  The frame buffer model covers only the pixels written by `fill_rect`.
- Some of `render_text` is not drawn: the title line, the core name from
  `retro_get_system_info`, the row texts, and their `%.2f`/`%.3f` value labels. The title
  (`ScreenTitle`), the entry trim (`EntryTitle`) and the window (`VisibleWindow`) are modelled
  as functions.
- `rgui_free` is not modelled: it only frees memory.
- The folder callback, `rgui_list_sort`, `screenshot_dump`, `rarch_console_load_game_wrap`,
  `rarch_main_init` and the message queue are parameters or effect-log entries. Of
  `screenshot_dump` only the success it reports is modelled (`Env.screenshot`). What they do to
  the rest of the state is not modelled.
- Effects of `rarch_settings_change` and `rarch_settings_default` on their settings (aspect
  ratio, rotation, overscan, mute, audio rate, save slot, texture filter) are only logged.
  So is the effect of `S_RETURN_TO_GAME`, `S_RETURN_TO_LAUNCHER` and `S_QUIT` on
  `g_console.mode_switch`.
- `RguiMenu.Toggle`: `rarch_settings_change(S_RETURN_TO_GAME)` (rgui.c:483 and 512),
  `S_RETURN_TO_LAUNCHER` (630) and `S_QUIT` (635) are effect-log entries. In the code they leave
  the menu by changing `g_console.mode_switch`, which is why it is tested again at rgui.c:274
  and 1108. The clause that the mode switch is unchanged is therefore a fact about the model
  only.
- `RguiMenu.ToggleKeepsRanges`: the same for its `modeSwitch` and `startup` clauses.
- `rgui_list_at` past the end of the folder buffer is undefined in the code. In the model an
  action on a cursor outside the buffer changes nothing.
- `RguiMenu.Toggle`: START on Rotation resets the rotation, the corrected behaviour. The code
  as written (it resets the audio control rate) is modelled only by
  `RguiMenu.RotationToggleAsWritten`.
- `RguiHandle.ToggleSetting`: the same, through `Toggle`.
- `RguiHandle.ToggleVideoSetting`: the same, through `Toggle`.
- `RguiHandle.Handle.ToggleSelected`: the same, through `Toggle`.
- `RguiMenu.OpenDirectory`: OK on ".." in the base directory keeps the base entry, the
  corrected behaviour. The pop as written is modelled only by `RguiMenu.OpenDirectoryAsWritten`
  and `RguiMenu.DotDotAtRootEmptiesStack`. It cannot run in place, because `Handle.Valid()`
  (through `ValidMenu`) needs a non-empty path stack.
- `RguiMenu.Open`: the same, through `OpenDirectory`.
- `RguiHandle.Handle.EnterDirectory`: the same, through `OpenDirectory`.
- `RguiHandle.Handle.OpenSelected`: the same, through `OpenDirectory`.
- `RguiHandle.Handle.Iterate`: follows both corrections, through `Toggle` and `OpenDirectory`;
  so do `RguiMenu.Step` and the iterate functions and methods between them.
- `RguiHandle.Handle.NudgeViewport`: the viewport fields are unbounded integers, so C's wrap of
  `unsigned` width and height below 0 is not modelled.
- `RguiMenu.ViewportMove`: the same for the arrows and for START on GEKKO, where
  `width = win_width - x` and `width += x` (and the same for height) can wrap in C.
- `RguiHandle.Handle.ResetViewport`: the same for START on GEKKO, which it performs in place.
- The PATH_MAX and `sizeof` truncation of `snprintf` into `path_buf` and the pushed directory
  path is not modelled, nor the `strlcpy` truncation of the core path.
- `X11Input.IsPressed`: follows the corrected key guard. A bind whose key is negative reads as
  released, where x11_input.c:179 passes it to `x_key_pressed`, which indexes `keysym_lut` out
  of bounds. The guard as written is modelled only by `X11Input.KeyGuardAsWritten` and
  `X11Input.KeyGuardAdmitsNegative`.
- `X11Input.BindButtonPressed`: the same, through `IsPressed`.
- `X11Input.InputState`: the same, through `IsPressed` on the joypad device. On the keyboard
  device an id of 2^31 or more arrives negative (x11_input.c:203) and reads as 0, where the code
  indexes `keysym_lut` out of bounds.
- `X11Input.InitLut`: keysym_lut is a Dafny `array<nat>`, not C's static `unsigned` array.
- The X11 display, `XQueryKeymap`, `XKeysymToKeycode` and the SDL driver are parameters.
  `x_input_init`, `x_input_poll` and `x_input_free` are not modelled: they only manage those
  handles.
- The `HAVE_FILE_LOGGER` logging of the arguments is not modelled.
- `MainWrap.MainInitWrap` models `strdup` copies as the same strings; allocation failure is not
  modelled.

## Findings

| source | as written | input that shows it | evidently intended | confidence | as-written member | corrected member |
|---|---|---|---|---|---|---|
| console/rgui/rgui.c:1039-1043 | OK on a ".." entry pops the path stack without checking its size | OK on ".." while only the base directory is on the stack: the stack becomes empty and the next `rgui_list_back` reads nothing | pop only when the stack holds more than one entry, as CANCEL does at 1017 | high, not executed | RguiMenu.DotDotAtRootEmptiesStack | RguiMenu.OpenDirectory |
| console/rgui/rgui.c:563-566 | START on Rotation calls `rarch_settings_default(S_DEF_AUDIO_CONTROL_RATE)` | START on the Rotation item: the audio control rate is reset, the rotation is not | reset the rotation (`S_DEF_ROTATION`) before applying it | high, not executed | RguiMenu.RotationStartResetsAudioRate | RguiMenu.RotationStartResetsRotation |
| input/x11_input.c:165-168 | the guard is `key >= RETROK_LAST` on a signed `int` | `x_input_state` with device KEYBOARD and id 0xFFFFFFFF passes key -1, which passes the guard and indexes `keysym_lut[-1]` | reject every key outside `[0, RETROK_LAST)` | medium, not executed | X11Input.KeyGuardAdmitsNegative | X11Input.KeyPressed |
