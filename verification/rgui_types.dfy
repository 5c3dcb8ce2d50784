/**
 * The vocabulary of the RGUI menu: the entry types of rgui_file_type_t, the actions of
 * rgui_action_t, and the entries of the rgui lists (the path stack and the folder buffer).
 */
module RguiTypes {

  /** The four controller configuration menus edit ports 0 to 3. */
  type ControllerPort = p: nat | p < 4

  /** Position of a button row in the controller menu (Up, Down, ..., R3). */
  type BindIndex = i: nat | i < 16

  /** rgui_file_type_t: what an entry of a list stands for. */
  datatype FileType =
    | FilePlain | FileDirectory | FileDevice
    | SettingsMenu | SettingsCore | SettingsController(port: ControllerPort)
    | SettingsCustomViewport | SettingsCustomViewport2
    | SettingsSavestateSave | SettingsSavestateLoad | SettingsScreenshot | SettingsRestartGame
    | SettingsVideoFilter | SettingsVideoSoftFilter | SettingsVideoGamma | SettingsVideoAspectRatio
    | SettingsVideoOverscan | SettingsVideoRotation | SettingsAudioMute | SettingsAudioControlRate
    | SettingsZipExtract | SettingsDebugText | SettingsRestartEmulator | SettingsQuitEmulator
    | SettingsBindDevice | SettingsBindDpadEmulation | SettingsBind(row: BindIndex)

  /** rgui_action_t: one input to the menu. */
  datatype Action = Up | Down | Left | Right | Ok | Cancel | Refresh | Settings | Start | Message | Noop

  /**
   * One element of an rgui list: a label or path, its type, and the cursor saved with it.
   * On the path stack the saved cursor is the cursor of the menu below; in the folder buffer
   * it is unused.
   */
  datatype Entry = Entry(path: string, kind: FileType, savedPtr: Cursor)

  /**
   * directory_ptr is a signed int; no action moves it below -1, the value UP leaves in an empty
   * list.
   */
  type Cursor = p: int | -1 <= p

  /** A menu item as the populate functions push it (saved cursor 0). */
  function Item(name: string, kind: FileType): Entry
  {
    Entry(name, kind, 0)
  }

  /** rgui_is_controller_menu: CONTROLLER_1 <= type <= CONTROLLER_4. */
  predicate IsControllerMenu(t: FileType)
  {
    t.SettingsController?
  }

  /** rgui_is_viewport_menu: the upper-left or the bottom-right custom viewport editor. */
  predicate IsViewportMenu(t: FileType)
  {
    t == SettingsCustomViewport || t == SettingsCustomViewport2
  }

  /** The types whose menus rgui_iterate hands to rgui_settings_iterate. */
  predicate IsSettingsMenu(t: FileType)
  {
    t == SettingsMenu || IsControllerMenu(t)
  }

  /** The types whose menus list a directory (the folder callback is run for them). */
  predicate IsListingMenu(t: FileType)
  {
    t == FileDirectory || t == FileDevice || t == SettingsCore
  }

  /** The three kinds of menu are disjoint, and every listing menu is handled by the file browser. */
  lemma MenuKindsDisjoint(t: FileType)
    ensures !(IsSettingsMenu(t) && IsViewportMenu(t))
    ensures IsListingMenu(t) ==> !IsSettingsMenu(t) && !IsViewportMenu(t)
  {
  }

  // RETRO_DEVICE_ID_JOYPAD_* of the libretro API.
  const JoypadB: nat := 0
  const JoypadY: nat := 1
  const JoypadSelect: nat := 2
  const JoypadStart: nat := 3
  const JoypadUp: nat := 4
  const JoypadDown: nat := 5
  const JoypadLeft: nat := 6
  const JoypadRight: nat := 7
  const JoypadA: nat := 8
  const JoypadX: nat := 9
  const JoypadL: nat := 10
  const JoypadR: nat := 11
  const JoypadL2: nat := 12
  const JoypadR2: nat := 13
  const JoypadL3: nat := 14
  const JoypadR3: nat := 15

  /** rgui_controller_lut: the joypad button edited by each row of the controller menu. */
  const ControllerLut: seq<nat> := [
    JoypadUp, JoypadDown, JoypadLeft, JoypadRight, JoypadA, JoypadB, JoypadX, JoypadY,
    JoypadStart, JoypadSelect, JoypadL, JoypadR, JoypadL2, JoypadR2, JoypadL3, JoypadR3]

  /** Every one of the 16 joypad buttons is edited by exactly one row of the controller menu. */
  lemma ControllerLutIsPermutation()
    ensures |ControllerLut| == 16
    ensures forall r :: 0 <= r < 16 ==> ControllerLut[r] < 16
    ensures forall r, s :: 0 <= r < s < 16 ==> ControllerLut[r] != ControllerLut[s]
  {
  }
}
