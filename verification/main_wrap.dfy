/**
 * The console startup glue: rarch_main_init_wrap builds a NULL-terminated argv for the
 * frontend's command-line entry point from a settings record, calls it, and frees the copies;
 * rarch_startup decides from the console flags whether to (re)start the emulator and records
 * the outcome in those flags. rarch_main_init itself is a parameter of the model.
 */
module MainWrap {
  import opened Wrappers
  import opened Globals

  /** MAX_ARGS: the capacity of the argv array. */
  const MaxArgs: nat := 32

  /** struct rarch_main_wrap: the settings turned into command-line arguments. */
  datatype MainWrapArgs = MainWrapArgs(
    romPath: Option<string>,
    sramPath: Option<string>,
    statePath: Option<string>,
    configPath: Option<string>,
    verbose: bool)

  /** The ROM path, when there is one. */
  function RomArg(rom: Option<string>): seq<string>
  {
    if rom.Some? then [rom.value] else []
  }

  /** An optional flag followed by its value. */
  function FlagArg(flag: string, value: Option<string>): seq<string>
  {
    if value.Some? then [flag, value.value] else []
  }

  /**
   * The argument list the frontend receives: the program name, the ROM, then -s with the SRAM
   * directory, -S with the save-state directory, -c with the configuration file, and -v, each
   * present only when its setting is.
   */
  function ArgList(args: MainWrapArgs): seq<string>
  {
    ["retroarch"]
    + RomArg(args.romPath)
    + FlagArg("-s", args.sramPath)
    + FlagArg("-S", args.statePath)
    + FlagArg("-c", args.configPath)
    + (if args.verbose then ["-v"] else [])
  }

  /**
   * The list starts with the program name, holds at most 9 arguments (so it always fits in
   * MAX_ARGS with room for the terminating NULL), has exactly one entry per present setting,
   * and ends with -v when verbose is set.
   */
  lemma ArgListShape(args: MainWrapArgs)
    ensures var a := ArgList(args);
      a[0] == "retroarch"
      && |a| == 1 + (if args.romPath.Some? then 1 else 0) + (if args.sramPath.Some? then 2 else 0)
                  + (if args.statePath.Some? then 2 else 0) + (if args.configPath.Some? then 2 else 0)
                  + (if args.verbose then 1 else 0)
      && |a| <= 9 < MaxArgs
      && (args.verbose ==> a[|a| - 1] == "-v")
      && (args.romPath.Some? ==> a[1] == args.romPath.value)
  {
  }

  /** argv holds the strings of filled, in order, followed only by NULLs. */
  predicate Filled(argv: seq<Option<string>>, filled: seq<string>)
  {
    |filled| < |argv|
    && (forall i :: 0 <= i < |filled| ==> argv[i] == Some(filled[i]))
    && (forall i :: |filled| <= i < |argv| ==> argv[i] == None)
  }

  /** argv[argc++] = strdup(s) */
  method Append(argv: array<Option<string>>, argc: nat, ghost filled: seq<string>, s: string) returns (argc': nat)
    requires Filled(argv[..], filled) && argc == |filled| && argc + 1 < argv.Length
    modifies argv
    ensures argc' == argc + 1 && Filled(argv[..], filled + [s])
  {
    argv[argc] := Some(s);
    argc' := argc + 1;
  }

  /** if (value) { argv[argc++] = strdup(flag); argv[argc++] = strdup(value); } */
  method AppendFlag(argv: array<Option<string>>, argc: nat, ghost filled: seq<string>, flag: string, value: Option<string>)
    returns (argc': nat)
    requires Filled(argv[..], filled) && argc == |filled| && argc + 2 < argv.Length
    modifies argv
    ensures argc' == |filled + FlagArg(flag, value)| && Filled(argv[..], filled + FlagArg(flag, value))
  {
    argc' := argc;
    if value.Some? {
      argc' := Append(argv, argc', filled, flag);
      argc' := Append(argv, argc', filled + [flag], value.value);
      assert filled + [flag] + [value.value] == filled + FlagArg(flag, value);
    }
  }

  /**
   * The first half of rarch_main_init_wrap: argv starts all NULL and each argument is stored at
   * argv[argc++] in order.
   */
  method BuildArgv(args: MainWrapArgs) returns (argv: array<Option<string>>, argc: nat)
    ensures argv.Length == MaxArgs && argc == |ArgList(args)| && argc < MaxArgs
    ensures forall i :: 0 <= i < argc ==> argv[i] == Some(ArgList(args)[i])
    ensures forall i :: argc <= i < MaxArgs ==> argv[i] == None
  {
    argv := new Option<string>[MaxArgs](_ => None);
    argc := Append(argv, 0, [], "retroarch");
    ghost var filled := ["retroarch"];
    if args.romPath.Some? {
      argc := Append(argv, argc, filled, args.romPath.value);
    }
    filled := filled + RomArg(args.romPath);
    argc := AppendFlag(argv, argc, filled, "-s", args.sramPath);
    filled := filled + FlagArg("-s", args.sramPath);
    argc := AppendFlag(argv, argc, filled, "-S", args.statePath);
    filled := filled + FlagArg("-S", args.statePath);
    argc := AppendFlag(argv, argc, filled, "-c", args.configPath);
    filled := filled + FlagArg("-c", args.configPath);
    if args.verbose {
      argc := Append(argv, argc, filled, "-v");
    }
    filled := filled + (if args.verbose then ["-v"] else []);
    assert filled == ArgList(args);
  }

  /** The free loop of rarch_main_init_wrap: walk argv up to the first NULL, freeing each entry. */
  method FreeArgv(argv: array<Option<string>>) returns (freed: seq<string>)
    requires exists n :: 0 <= n < argv.Length && argv[n].None?
    ensures |freed| < argv.Length && argv[|freed|].None?
    ensures forall i :: 0 <= i < |freed| ==> argv[i] == Some(freed[i])
  {
    ghost var n :| 0 <= n < argv.Length && argv[n].None?;
    ghost var first := FirstNone(argv[..], n);
    freed := [];
    var tmp := 0;
    while argv[tmp].Some?
      invariant tmp == |freed| <= first
      invariant forall i :: 0 <= i < tmp ==> argv[i] == Some(freed[i])
      decreases first - tmp
    {
      freed := freed + [argv[tmp].value];
      tmp := tmp + 1;
    }
  }

  /** The position of the first NULL of an argv array that has one at or before n. */
  ghost function FirstNone(a: seq<Option<string>>, n: nat): (k: nat)
    requires n < |a| && a[n].None?
    ensures k <= n && a[k].None? && forall i :: 0 <= i < k ==> a[i].Some?
  {
    if a[0].None? then 0 else 1 + FirstNone(a[1..], n - 1)
  }

  /**
   * rarch_main_init_wrap: rarch_main_init receives exactly the argument list, its result is
   * returned, and the free loop releases exactly the argc copies, in order.
   */
  method MainInitWrap(args: MainWrapArgs, mainInit: seq<string> -> int) returns (ret: int, freed: seq<string>)
    ensures ret == mainInit(ArgList(args))
    ensures freed == ArgList(args)
  {
    var argv, argc := BuildArgv(args);
    var passed := seq(argc, i requires 0 <= i < argc && argv[i].Some? reads argv => argv[i].value);
    assert passed == ArgList(args);
    ret := mainInit(passed);
    assert argv[argc].None?;
    freed := FreeArgv(argv);
    assert argv[|freed|].None?;
    assert |freed| >= argc;
    assert |freed| <= argc;
  }

  // ---------------------------------------------------------------- rarch_startup

  /** The record rarch_startup fills in: the SRAM and save-state directories only when enabled. */
  function StartupArgs(g: ConsoleState, configPath: Option<string>): (args: MainWrapArgs)
    ensures args.sramPath.Some? <==> g.startup.defaultSramDirEnable
    ensures args.statePath.Some? <==> g.startup.defaultSavestateDirEnable
    ensures args.romPath == Some(g.startup.romPath) && args.configPath == configPath && args.verbose == g.startup.verbose
  {
    MainWrapArgs(
      Some(g.startup.romPath),
      if g.startup.defaultSramDirEnable then Some(g.startup.defaultSramDir) else None,
      if g.startup.defaultSavestateDirEnable then Some(g.startup.defaultSavestateDir) else None,
      configPath,
      g.startup.verbose)
  }

  /** The console state after rarch_startup, and its result. */
  function StartupStep(g: ConsoleState, configPath: Option<string>, mainInit: seq<string> -> int): (ConsoleState, bool)
  {
    if !g.startup.initializeRarchEnable then (g, false)
    else
      var deinit := if g.startup.emulatorInitialized then [MainDeinit] else [];
      var argv := ArgList(StartupArgs(g, configPath));
      if mainInit(argv) == 0 then
        var g' := Log(g, deinit + [MainInit(argv)]);
        (g'.(startup := g'.startup.(emulatorInitialized := true, initializeRarchEnable := false)), true)
      else
        var g' := Log(g, deinit + [MainInit(argv), RomLoadingErrorMsg]);
        (g'.(startup := g'.startup.(emulatorInitialized := false), modeSwitch := ModeMenu), false)
  }

  /** When no start is requested, rarch_startup changes nothing and returns false. */
  lemma StartupDisabled(g: ConsoleState, configPath: Option<string>, mainInit: seq<string> -> int)
    requires !g.startup.initializeRarchEnable
    ensures StartupStep(g, configPath, mainInit) == (g, false)
  {
  }

  /**
   * A requested start shuts a running emulator down first (and only then), then calls the
   * frontend with the console's argument list; the result is true exactly when that call
   * returns 0.
   */
  lemma StartupCalls(g: ConsoleState, configPath: Option<string>, mainInit: seq<string> -> int)
    requires g.startup.initializeRarchEnable
    ensures var (g', ok) := StartupStep(g, configPath, mainInit);
      var argv := ArgList(StartupArgs(g, configPath));
      var calls := g'.effects[|g.effects|..];
      |g'.effects| > |g.effects|
      && (g.startup.emulatorInitialized ==> calls[0] == MainDeinit && calls[1] == MainInit(argv))
      && (!g.startup.emulatorInitialized ==> calls[0] == MainInit(argv) && MainDeinit !in calls)
      && (ok <==> mainInit(argv) == 0)
  {
    var g' := StartupStep(g, configPath, mainInit).0;
    var argv := ArgList(StartupArgs(g, configPath));
    var deinit: seq<Effect> := if g.startup.emulatorInitialized then [MainDeinit] else [];
    var tail: seq<Effect> := if mainInit(argv) == 0 then [] else [RomLoadingErrorMsg];
    assert g'.effects == g.effects + deinit + [MainInit(argv)] + tail;
    assert g'.effects[|g.effects|..] == deinit + [MainInit(argv)] + tail;
  }

  /** A successful start marks the emulator initialised and clears the request. */
  lemma StartupSuccess(g: ConsoleState, configPath: Option<string>, mainInit: seq<string> -> int)
    requires g.startup.initializeRarchEnable && mainInit(ArgList(StartupArgs(g, configPath))) == 0
    ensures var (g', ok) := StartupStep(g, configPath, mainInit);
      ok && g'.startup.emulatorInitialized && !g'.startup.initializeRarchEnable && g'.modeSwitch == g.modeSwitch
  {
  }

  /**
   * A failed start marks the emulator not initialised, returns to the menu, reports the ROM
   * loading error, and keeps the request so that it can be retried.
   */
  lemma StartupFailure(g: ConsoleState, configPath: Option<string>, mainInit: seq<string> -> int)
    requires g.startup.initializeRarchEnable && mainInit(ArgList(StartupArgs(g, configPath))) != 0
    ensures var (g', ok) := StartupStep(g, configPath, mainInit);
      !ok && !g'.startup.emulatorInitialized && g'.startup.initializeRarchEnable && g'.modeSwitch == ModeMenu
      && g'.effects[|g'.effects| - 1] == RomLoadingErrorMsg
  {
  }

  /** The SRAM and save-state directories reach the frontend only when their settings enable them. */
  lemma StartupPassesDirs(g: ConsoleState, configPath: Option<string>)
    ensures var a := ArgList(StartupArgs(g, configPath));
      && a[1] == g.startup.romPath
      && (g.startup.defaultSramDirEnable ==> a[2..4] == ["-s", g.startup.defaultSramDir])
      && (!g.startup.defaultSramDirEnable && g.startup.defaultSavestateDirEnable ==> a[2..4] == ["-S", g.startup.defaultSavestateDir])
      && (g.startup.defaultSramDirEnable && g.startup.defaultSavestateDirEnable ==> a[4..6] == ["-S", g.startup.defaultSavestateDir])
  {
  }

  /** rarch_startup on the global console state. */
  method Startup(c: Console, configPath: Option<string>, mainInit: seq<string> -> int) returns (retval: bool)
    modifies c
    ensures (c.Snapshot(), retval) == StartupStep(old(c.Snapshot()), configPath, mainInit)
  {
    ghost var g := c.Snapshot();
    retval := false;
    if c.startup.initializeRarchEnable {
      var args := StartupArgs(c.Snapshot(), configPath);
      var deinit: seq<Effect> := [];
      if c.startup.emulatorInitialized {
        deinit := [MainDeinit];
      }
      var initRet, _ := MainInitWrap(args, mainInit);
      c.effects := c.effects + deinit + [MainInit(ArgList(args))];
      if initRet == 0 {
        c.startup := c.startup.(emulatorInitialized := true, initializeRarchEnable := false);
        retval := true;
        assert c.effects == g.effects + (deinit + [MainInit(ArgList(args))]);
      } else {
        c.startup := c.startup.(emulatorInitialized := false);
        c.modeSwitch := ModeMenu;
        c.effects := c.effects + [RomLoadingErrorMsg];
        assert c.effects == g.effects + (deinit + [MainInit(ArgList(args)), RomLoadingErrorMsg]);
      }
    }
  }
}
