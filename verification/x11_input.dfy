/**
 * The X11 keyboard input driver: the table from libretro key codes to X11 keysyms, the key
 * lookup in the keymap bit vector returned by XQueryKeymap, and the joypad and keyboard state
 * queries, which are OR'd with the SDL joypad driver. The X server (the keysym to keycode
 * mapping and the keymap itself) and the SDL driver are parameters of the model.
 */
module X11Input {

  /** RETROK_LAST: one past the largest libretro key code. */
  const RetroKLast: nat := 323

  // The libretro device classes of retro_input_state_t.
  const DeviceJoypad: nat := 1
  const DeviceKeyboard: nat := 3
  const DeviceAnalog: nat := 5

  /** One row of lut_binds: an X11 keysym and the libretro key it stands for. */
  datatype KeyBind = KeyBind(x: nat, sk: nat)

  /** The rows of lut_binds that are not part of a run of consecutive codes. */
  const MiscBinds: seq<KeyBind> := [
    KeyBind(0xFF51, 276), KeyBind(0xFF53, 275), KeyBind(0xFF52, 273), KeyBind(0xFF54, 274),
    KeyBind(0xFF0D, 13), KeyBind(0xFF09, 9), KeyBind(0xFF63, 277), KeyBind(0xFF50, 278),
    KeyBind(0xFF57, 279), KeyBind(0xFF55, 280), KeyBind(0xFF56, 281), KeyBind(0xFFFF, 127),
    KeyBind(0xFFE2, 303), KeyBind(0xFFE1, 304), KeyBind(0xFFE3, 306), KeyBind(0xFFE9, 308),
    KeyBind(0x20, 32), KeyBind(0xFF1B, 27), KeyBind(0xFF08, 8), KeyBind(0xFF8D, 271),
    KeyBind(0xFFAB, 270), KeyBind(0xFFAD, 269), KeyBind(0xFFAA, 268), KeyBind(0xFFAF, 267),
    KeyBind(0x60, 96), KeyBind(0xFF13, 19)]

  /** n rows mapping consecutive keysyms from x0 to consecutive libretro keys from sk0. */
  function Run(n: nat, x0: nat, sk0: nat): (r: seq<KeyBind>)
    ensures |r| == n && forall i :: 0 <= i < n ==> r[i] == KeyBind(x0 + i, sk0 + i)
  {
    seq(n, i requires 0 <= i < n => KeyBind(x0 + i, sk0 + i))
  }

  /**
   * lut_binds: the miscellaneous keys, then keypad 0-9 (XK_KP_0.. to RETROK_KP0..), digits 0-9,
   * F1-F12 and the letters a-z.
   */
  const LutBinds: seq<KeyBind> :=
    MiscBinds + Run(10, 0xFFB0, 256) + Run(10, 0x30, 48) + Run(12, 0xFFBE, 282) + Run(26, 0x61, 97)

  /** The libretro keys named by the rows of a table are pairwise distinct. */
  ghost predicate DistinctKeys(binds: seq<KeyBind>)
  {
    forall i, j :: 0 <= i < j < |binds| ==> binds[i].sk != binds[j].sk
  }

  /** keysym_lut[k] after the rows of binds have been stored in order, starting from all zeros. */
  function LutValue(binds: seq<KeyBind>, k: nat): nat
  {
    if |binds| == 0 then 0
    else if binds[|binds| - 1].sk == k then binds[|binds| - 1].x
    else LutValue(binds[..|binds| - 1], k)
  }

  /**
   * With distinct libretro keys, the table is the inverse of the rows: each row's key maps to its
   * keysym, and every key named by no row maps to 0.
   */
  lemma {:induction false} LutInverse(binds: seq<KeyBind>, k: nat)
    requires DistinctKeys(binds)
    ensures forall i :: 0 <= i < |binds| && binds[i].sk == k ==> LutValue(binds, k) == binds[i].x
    ensures (forall i :: 0 <= i < |binds| ==> binds[i].sk != k) ==> LutValue(binds, k) == 0
  {
    if |binds| > 0 {
      var init := binds[..|binds| - 1];
      assert DistinctKeys(init);
      LutInverse(init, k);
      forall i | 0 <= i < |binds| && binds[i].sk == k
        ensures LutValue(binds, k) == binds[i].x
      {
        if i < |binds| - 1 {
          assert init[i] == binds[i];
        }
      }
      if forall i :: 0 <= i < |binds| ==> binds[i].sk != k {
        assert forall i :: 0 <= i < |init| ==> init[i] == binds[i];
      }
    }
  }

  /** The keys of rows lo to hi - 1 of MiscBinds differ from the keys of every later row. */
  ghost predicate KeysDifferFrom(lo: nat, hi: nat)
    requires hi <= |MiscBinds|
  {
    forall i, j :: lo <= i < hi && i < j < |MiscBinds| ==> MiscBinds[i].sk != MiscBinds[j].sk
  }

  // The pairwise comparison of the 26 keys of MiscBinds, in bands of rows.
  lemma KeysDiffer0() ensures KeysDifferFrom(0, 1) {}
  lemma KeysDiffer1() ensures KeysDifferFrom(1, 2) {}
  lemma KeysDiffer2() ensures KeysDifferFrom(2, 4) {}
  lemma KeysDiffer4() ensures KeysDifferFrom(4, 6) {}
  lemma KeysDiffer6() ensures KeysDifferFrom(6, 9) {}
  lemma KeysDiffer9() ensures KeysDifferFrom(9, 13) {}
  lemma KeysDiffer13() ensures KeysDifferFrom(13, 26) {}

  /** MiscBinds has 26 rows with distinct keys below RETROK_LAST and outside the runs. */
  lemma MiscBindsShape()
    ensures |MiscBinds| == 26
    ensures DistinctKeys(MiscBinds)
    ensures forall i :: 0 <= i < |MiscBinds| ==>
      var sk := MiscBinds[i].sk;
      sk < RetroKLast && !(256 <= sk <= 265) && !(48 <= sk <= 57) && !(282 <= sk <= 293) && !(97 <= sk <= 122)
  {
    KeysDiffer0();
    KeysDiffer1();
    KeysDiffer2();
    KeysDiffer4();
    KeysDiffer6();
    KeysDiffer9();
    KeysDiffer13();
  }

  /** lut_binds has 84 rows, names every libretro key at most once, and only keys below RETROK_LAST. */
  lemma LutBindsShape()
    ensures |LutBinds| == 84
    ensures DistinctKeys(LutBinds)
    ensures forall i :: 0 <= i < |LutBinds| ==> LutBinds[i].sk < RetroKLast
  {
    MiscBindsShape();
  }

  /** After init_lut, keysym_lut inverts lut_binds and is 0 for every key lut_binds does not name. */
  lemma KeysymLutInverts(k: nat)
    ensures forall i :: 0 <= i < |LutBinds| && LutBinds[i].sk == k ==> LutValue(LutBinds, k) == LutBinds[i].x
    ensures (forall i :: 0 <= i < |LutBinds| ==> LutBinds[i].sk != k) ==> LutValue(LutBinds, k) == 0
  {
    LutBindsShape();
    LutInverse(LutBinds, k);
  }

  /** init_lut: clear keysym_lut, then store every row of lut_binds into it. */
  method InitLut(lut: array<nat>)
    requires lut.Length == RetroKLast
    modifies lut
    ensures forall k :: 0 <= k < lut.Length ==> lut[k] == LutValue(LutBinds, k)
  {
    LutBindsShape();
    var k := 0;
    while k < lut.Length
      invariant 0 <= k <= lut.Length
      invariant forall m :: 0 <= m < k ==> lut[m] == 0
    {
      lut[k] := 0;
      k := k + 1;
    }
    var i := 0;
    while i < |LutBinds|
      invariant 0 <= i <= |LutBinds|
      invariant forall m :: 0 <= m < lut.Length ==> lut[m] == LutValue(LutBinds[..i], m)
    {
      lut[LutBinds[i].sk] := LutBinds[i].x;
      assert LutBinds[..i + 1][..i] == LutBinds[..i];
      i := i + 1;
    }
    assert LutBinds[..|LutBinds|] == LutBinds;
  }

  // ---------------------------------------------------------------- key queries

  /** The 32-byte keymap of XQueryKeymap: bit k of the vector is set when keycode k is down. */
  type Keymap = s: seq<bv8> | |s| == 32 witness seq(32, _ => 0)

  /** What the driver sees of the X server: the last keymap and XKeysymToKeycode. */
  datatype X11 = X11(state: Keymap, toKeycode: nat -> bv8)

  /** The bit test of x_key_pressed on keycode c. */
  predicate KeycodeDown(state: Keymap, c: bv8)
  {
    state[(c >> 3) as nat] & (1 << (c & 7)) != 0
  }

  function Pow2(n: nat): (p: nat)
    ensures p >= 1
  {
    if n == 0 then 1 else 2 * Pow2(n - 1)
  }

  /** The keymap read as a bit vector in arithmetic: bit c of the 256-bit little-endian number. */
  predicate KeymapBit(state: Keymap, c: nat)
    requires c < 256
  {
    (state[c / 8] as nat / Pow2(c % 8)) % 2 == 1
  }

  lemma Bit0(b: bv8)
    ensures (b & 1 != 0) <==> (b as nat / 1) % 2 == 1
  {
  }

  lemma Bit1(b: bv8)
    ensures (b & 2 != 0) <==> (b as nat / 2) % 2 == 1
  {
  }

  lemma Bit2(b: bv8)
    ensures (b & 4 != 0) <==> (b as nat / 4) % 2 == 1
  {
  }

  lemma Bit3(b: bv8)
    ensures (b & 8 != 0) <==> (b as nat / 8) % 2 == 1
  {
  }

  lemma Bit4(b: bv8)
    ensures (b & 16 != 0) <==> (b as nat / 16) % 2 == 1
  {
  }

  lemma Bit5(b: bv8)
    ensures (b & 32 != 0) <==> (b as nat / 32) % 2 == 1
  {
  }

  lemma Bit6(b: bv8)
    ensures (b & 64 != 0) <==> (b as nat / 64) % 2 == 1
  {
  }

  lemma Bit7(b: bv8)
    ensures (b & 128 != 0) <==> (b as nat / 128) % 2 == 1
  {
  }

  lemma ByteBit(b: bv8, s: bv8)
    requires s < 8
    ensures (b & (1 << s) != 0) <==> (b as nat / Pow2(s as nat)) % 2 == 1
  {
    var n := s as nat;
    assert Pow2(1) == 2 && Pow2(2) == 4 && Pow2(3) == 8 && Pow2(4) == 16;
    assert Pow2(5) == 32 && Pow2(6) == 64 && Pow2(7) == 128;
    if s == 0 {
      assert n == 0;
      Bit0(b);
    } else if s == 1 {
      assert n == 1;
      Bit1(b);
    } else if s == 2 {
      assert n == 2;
      Bit2(b);
    } else if s == 3 {
      assert n == 3;
      Bit3(b);
    } else if s == 4 {
      assert n == 4;
      Bit4(b);
    } else if s == 5 {
      assert n == 5;
      Bit5(b);
    } else if s == 6 {
      assert n == 6;
      Bit6(b);
    } else {
      Bit7(b);
    }
  }

  lemma ShiftMask(c: bv8)
    ensures (c >> 3) as nat == c as nat / 8 && (c & 7) as nat == c as nat % 8
  {
  }

  /** The shift-and-mask test of x_key_pressed reads bit c of the keymap. */
  lemma KeycodeDownIsBit(state: Keymap, c: bv8)
    ensures KeycodeDown(state, c) <==> KeymapBit(state, c as nat)
  {
    ShiftMask(c);
    ByteBit(state[c as nat / 8], c & 7);
  }

  /**
   * The guard of x_key_pressed as written: only keys at or above RETROK_LAST are turned away
   * before keysym_lut is indexed.
   */
  predicate KeyGuardAsWritten(key: int)
  {
    !(key >= RetroKLast)
  }

  /**
   * The keyboard query converts an unsigned id to int; the id 0xFFFFFFFF arrives as -1, passes the
   * guard as written, and indexes keysym_lut outside its bounds.
   */
  lemma KeyGuardAdmitsNegative()
    ensures KeyGuardAsWritten(Int32(0xFFFF_FFFF))
    ensures !(0 <= Int32(0xFFFF_FFFF) < RetroKLast)
  {
  }

  /**
   * x_key_pressed with the guard extended to negative keys: a key outside [0, RETROK_LAST) is not
   * pressed; otherwise the key is mapped to its keysym, then to a keycode, and that keycode's bit
   * in the keymap is tested.
   */
  function KeyPressed(x: X11, lut: seq<nat>, key: int): (pressed: bool)
    requires |lut| == RetroKLast
    ensures pressed <==> 0 <= key < RetroKLast && KeymapBit(x.state, x.toKeycode(lut[key]) as nat)
  {
    if key >= RetroKLast || key < 0 then false
    else
      KeycodeDownIsBit(x.state, x.toKeycode(lut[key]));
      KeycodeDown(x.state, x.toKeycode(lut[key]))
  }

  /** struct retro_keybind, reduced to what the X11 driver reads. */
  datatype Keybind = Keybind(valid: bool, key: int)

  /**
   * x_is_pressed: an id beyond the bind list (RARCH_BIND_LIST_END, the length of binds) is not
   * pressed; otherwise the bind must be valid, name a key below RETROK_LAST, and the bit of that
   * key's keycode must be set in the keymap.
   */
  function IsPressed(x: X11, lut: seq<nat>, binds: seq<Keybind>, id: nat): (pressed: bool)
    requires |lut| == RetroKLast
    ensures id >= |binds| ==> !pressed
    ensures id < |binds| ==>
      var k := binds[id].key;
      (pressed <==> binds[id].valid && 0 <= k < RetroKLast && KeymapBit(x.state, x.toKeycode(lut[k]) as nat))
  {
    if id < |binds| then binds[id].valid && KeyPressed(x, lut, binds[id].key) else false
  }

  /** C's int. */
  type CInt = v: int | -0x8000_0000 <= v < 0x8000_0000

  /** Conversions between int and unsigned (32-bit two's complement). */
  function Unsigned(v: int): nat
  {
    v % 0x1_0000_0000
  }

  function Int32(u: nat): int
  {
    var w := u % 0x1_0000_0000;
    if w < 0x8000_0000 then w else w - 0x1_0000_0000
  }

  /**
   * x_bind_button_pressed: the key is looked up in player 1's binds (converted to unsigned, so a
   * negative key is never an X11 bind) OR'd with the SDL driver's answer.
   */
  function BindButtonPressed(x: X11, lut: seq<nat>, binds0: seq<Keybind>, sdlKeyPressed: int -> bool, key: CInt): (pressed: bool)
    requires |lut| == RetroKLast && |binds0| < 0x8000_0000
    ensures pressed <==> IsPressed(x, lut, binds0, Unsigned(key)) || sdlKeyPressed(key)
    ensures key < 0 ==> (pressed <==> sdlKeyPressed(key))
  {
    assert key < 0 ==> Unsigned(key) == key + 0x1_0000_0000;
    IsPressed(x, lut, binds0, Unsigned(key)) || sdlKeyPressed(key)
  }

  /** C's int16_t, the type of every input_state result. */
  type Int16 = v: int | -0x8000 <= v < 0x8000

  /** The SDL driver's input_state, with the arguments it is given. */
  type SdlState = (nat, nat, nat, nat) -> Int16

  /**
   * x_input_state: the joypad is the X11 bind test OR the SDL state (as 0 or 1), the keyboard
   * reads the X11 keymap only, the analog sticks come from SDL only, and any other device reads 0.
   */
  function InputState(x: X11, lut: seq<nat>, binds: seq<seq<Keybind>>, sdl: SdlState,
                      port: nat, device: nat, index: nat, id: nat): (r: Int16)
    requires |lut| == RetroKLast && port < |binds|
    ensures device == DeviceJoypad ==>
      (r == 1 <==> IsPressed(x, lut, binds[port], id) || sdl(port, device, index, id) != 0) && (r == 0 || r == 1)
    ensures device == DeviceKeyboard ==> (r == 1 <==> KeyPressed(x, lut, Int32(id))) && (r == 0 || r == 1)
    ensures device == DeviceAnalog ==> r == sdl(port, device, index, id)
    ensures device !in {DeviceJoypad, DeviceKeyboard, DeviceAnalog} ==> r == 0
  {
    if device == DeviceJoypad then
      if IsPressed(x, lut, binds[port], id) || sdl(port, device, index, id) != 0 then 1 else 0
    else if device == DeviceKeyboard then
      if KeyPressed(x, lut, Int32(id)) then 1 else 0
    else if device == DeviceAnalog then
      sdl(port, device, index, id)
    else 0
  }

  /** The keyboard query agrees with the joypad bind test for a valid bind naming the same key. */
  lemma KeyboardMatchesBind(x: X11, lut: seq<nat>, binds: seq<seq<Keybind>>, sdl: SdlState,
                            port: nat, index: nat, id: nat, k: nat)
    requires |lut| == RetroKLast && port < |binds| && id < |binds[port]|
    requires binds[port][id] == Keybind(true, k) && k < 0x8000_0000
    requires InputState(x, lut, binds, sdl, port, DeviceKeyboard, index, k) == 1
    ensures InputState(x, lut, binds, sdl, port, DeviceJoypad, index, id) == 1
  {
  }
}
