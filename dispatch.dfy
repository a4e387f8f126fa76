/**
 * The entry point: the command registry, the merge of the config file over
 * the parsed arguments, the app name handed to the command, and the loop
 * that runs the matching command and decides whether to block.
 */
module Dispatch {
  import opened Wrappers
  import opened PyValues
  import opened PyStrings
  import opened Processes
  import opened ServerCommand
  import opened Commands

  /** The commands in the order they are registered. */
  const AllCommands: seq<Command> := [Build, Migrate, Reset, Server, Test]

  /** The registry of sub-commands that `main` loops over. */
  class CommandRegistry {
    var commands: seq<Command>

    constructor ()
      ensures commands == []
    {
      commands := [];
    }

    /** `_register_command`: append to the registry (the sub-parser it also adds is argparse's business). */
    method Register(c: Command)
      modifies this
      ensures commands == old(commands) + [c]
    {
      commands := commands + [c];
    }
  }

  /** The registrations at the top of `main`. */
  method RegisterCommands() returns (registry: CommandRegistry)
    ensures fresh(registry)
    ensures registry.commands == AllCommands
  {
    registry := new CommandRegistry();
    registry.Register(Build);
    registry.Register(Migrate);
    registry.Register(Reset);
    registry.Register(Server);
    registry.Register(Test);
  }

  /** Every command is registered, once. */
  lemma AllCommandsRegistered(c: Command)
    ensures c in AllCommands
    ensures forall i, j :: 0 <= i < j < |AllCommands| ==> AllCommands[i] != AllCommands[j]
  {
  }

  /** `args.update(config)`: config entries win; every other entry is kept. */
  function MergeConfig(args: Args, config: Args): (merged: Args)
    ensures merged.Keys == args.Keys + config.Keys
    ensures forall k :: k in config ==> merged[k] == config[k]
    ensures forall k :: k in args && k !in config ==> merged[k] == args[k]
  {
    args + config
  }

  /** Merging the same config twice changes nothing more. */
  lemma MergeConfigIdempotent(args: Args, config: Args)
    ensures MergeConfig(MergeConfig(args, config), config) == MergeConfig(args, config)
  {
  }

  /** The dictionary the commands see: the config file is merged when `--config` names an existing file. */
  function EffectiveArgs(parsed: Args, configFileExists: bool, config: Args): (args: Args)
    requires "config" in parsed
    ensures var merged := Truthy(parsed["config"]) && configFileExists;
      && args.Keys == parsed.Keys + (if merged then config.Keys else {})
      && forall k :: k in args ==> args[k] == if merged && k in config then config[k] else parsed[k]
  {
    if Truthy(parsed["config"]) && configFileExists then MergeConfig(parsed, config) else parsed
  }

  /** `app.split('/')[-1]`: the last path component. */
  function AppName(app: string): (name: string)
    ensures '/' !in name
  {
    var parts := Split(app, '/');
    parts[|parts| - 1]
  }

  /** The app name ends the app path, and is either all of it or preceded by a `/`. */
  lemma AppNameIsLastComponent(app: string)
    ensures var name := AppName(app);
      && |name| <= |app|
      && app[|app| - |name|..] == name
      && (|name| < |app| ==> app[|app| - |name| - 1] == '/')
  {
    var parts := Split(app, '/');
    JoinSplit(app, '/');
    if |parts| >= 2 {
      JoinLast(parts, '/');
    }
  }

  /** True when some registered command answers to this sub-command value. */
  predicate Known(command: Value) {
    exists c :: Str(Name(c)) == command
  }

  /** Where a command sits in the registration order. */
  function Position(c: Command): (k: nat)
    ensures k < |AllCommands| && AllCommands[k] == c
    ensures forall j :: 0 <= j < |AllCommands| && AllCommands[j] == c ==> j == k
  {
    match c
    case Build => 0
    case Migrate => 1
    case Reset => 2
    case Server => 3
    case Test => 4
  }

  /** The one command, if any, that answers to a sub-command value. */
  function Matching(command: Value): (m: Option<Command>)
    ensures m.Some? ==> Str(Name(m.value)) == command
    ensures forall c :: Str(Name(c)) == command ==> m == Some(c)
    ensures m.None? <==> !Known(command)
  {
    if command == Str(Name(Build)) then Some(Build)
    else if command == Str(Name(Migrate)) then Some(Migrate)
    else if command == Str(Name(Reset)) then Some(Reset)
    else if command == Str(Name(Server)) then Some(Server)
    else if command == Str(Name(Test)) then Some(Test)
    else None
  }

  /**
   * The outcome of `main`'s loop body for a command whose name matched:
   * `block` is asked first, then `args['app'] + '/../'` needs a string, then
   * the command runs with the last component of the app path. Whatever
   * raises first is the result; on success the result is the block answer.
   */
  predicate Dispatched(c: Command, args: Args, environ: Env, webpackConfigExists: bool, localWebpackExists: bool,
                       procs0: seq<Proc>, hooks0: seq<Handle>, procs1: seq<Proc>, hooks1: seq<Handle>,
                       r: Result<bool, Error>)
    requires "app" in args
  {
    var blocks := Blocks(c, args);
    if blocks.Err? then
      r == Err(blocks.error) && Unchanged(procs0, hooks0, procs1, hooks1)
    else if !args["app"].Str? then
      r == Err(TypeError("app")) && Unchanged(procs0, hooks0, procs1, hooks1)
    else
      && Effect(c, AppName(args["app"].s), args, environ, webpackConfigExists, localWebpackExists,
                procs0, hooks0, procs1, hooks1, Raised(r))
      && (r.Ok? ==> r.value == blocks.value)
  }

  /** The reload handler of a server run in watch mode, as `main` leaves it. */
  predicate Watching(args: Args, procs: seq<Proc>, process: Handle, config: ServerConfig)
    requires "app" in args
  {
    && "command" in args && args["command"] == Str(Name(Server))
    && args["app"].Str? && ReadServerOptions(args, DependenciesKey).Ok?
    && Truthy(ReadServerOptions(args, DependenciesKey).value.watch)
    && process == |procs| - 1
    && config == ConfigOf(AppName(args["app"].s), ReadServerOptions(args, DependenciesKey).value)
  }

  /** The body of `main`'s loop for the command whose name matched. */
  method RunMatched(rt: Runtime, command: Command, args: Args, environ: Env,
                    webpackConfigExists: bool, localWebpackExists: bool)
    returns (r: Result<bool, Error>, watcher: Option<ReloadHandler>)
    requires rt.Valid()
    requires "app" in args && "command" in args && args["command"] == Str(Name(command))
    modifies rt
    ensures rt.Valid()
    ensures Dispatched(command, args, environ, webpackConfigExists, localWebpackExists,
                       old(rt.procs), old(rt.exitHooks), rt.procs, rt.exitHooks, r)
    ensures r.Ok? && command == Server ==> (watcher.Some? <==> Truthy(ReadServerOptions(args, DependenciesKey).value.watch))
    ensures watcher.Some? ==> r == Ok(true) && fresh(watcher.value)
                              && Watching(args, rt.procs, watcher.value.process, watcher.value.Config())
  {
    var blocks := Blocks(command, args);
    if blocks.Err? {
      return Err(blocks.error), None;
    }
    var app := args["app"];
    if !app.Str? {
      // `args['app'] + '/../'` needs a string
      return Err(TypeError("app")), None;
    }
    var run := Run(rt, command, AppName(app.s), args, environ, webpackConfigExists, localWebpackExists);
    if run.Err? {
      return Err(run.error), None;
    }
    r, watcher := Ok(blocks.value), run.value;
  }

  /**
   * `main` after argument parsing: merge the config, run every registered
   * command whose name is the sub-command, and report whether to block.
   * The result is an error when a command raised.
   */
  method RunCommandLine(rt: Runtime, parsed: Args, configFileExists: bool, config: Args, environ: Env,
                        webpackConfigExists: bool, localWebpackExists: bool)
    returns (r: Result<bool, Error>, watcher: Option<ReloadHandler>)
    requires rt.Valid()
    requires "app" in parsed && parsed["app"].Str? && "config" in parsed && "command" in parsed
    modifies rt
    ensures rt.Valid()
    ensures var args := EffectiveArgs(parsed, configFileExists, config);
      && (!Known(args["command"]) ==>
            r == Ok(false) && watcher == None && rt.procs == old(rt.procs) && rt.exitHooks == old(rt.exitHooks))
      && (forall c :: Str(Name(c)) == args["command"] ==>
            Dispatched(c, args, environ, webpackConfigExists, localWebpackExists,
                       old(rt.procs), old(rt.exitHooks), rt.procs, rt.exitHooks, r))
      && (r.Ok? && args["command"] == Str(Name(Server)) ==>
            (watcher.Some? <==> Truthy(ReadServerOptions(args, DependenciesKey).value.watch)))
      && (watcher.Some? ==> r == Ok(true) && fresh(watcher.value)
                            && Watching(args, rt.procs, watcher.value.process, watcher.value.Config()))
  {
    var registry := RegisterCommands();
    var args := parsed;
    if Truthy(args["config"]) && configFileExists {
      args := MergeConfig(args, config);
    }
    r, watcher := RunRegistered(rt, registry.commands, args, environ, webpackConfigExists, localWebpackExists);
  }

  /** `main`'s loop over the registered commands, on the merged dictionary. */
  method RunRegistered(rt: Runtime, commands: seq<Command>, args: Args, environ: Env,
                       webpackConfigExists: bool, localWebpackExists: bool)
    returns (r: Result<bool, Error>, watcher: Option<ReloadHandler>)
    requires rt.Valid()
    requires commands == AllCommands && "app" in args && "command" in args
    modifies rt
    ensures rt.Valid()
    ensures var m := Matching(args["command"]);
      && (m.None? ==> r == Ok(false) && watcher == None && rt.procs == old(rt.procs) && rt.exitHooks == old(rt.exitHooks))
      && (m.Some? ==> Dispatched(m.value, args, environ, webpackConfigExists, localWebpackExists,
                                 old(rt.procs), old(rt.exitHooks), rt.procs, rt.exitHooks, r))
      && (r.Ok? && m == Some(Server) ==> (watcher.Some? <==> Truthy(ReadServerOptions(args, DependenciesKey).value.watch)))
      && (watcher.Some? ==> r == Ok(true) && fresh(watcher.value)
                            && Watching(args, rt.procs, watcher.value.process, watcher.value.Config()))
  {
    var block := false;
    watcher := None;
    ghost var m := Matching(args["command"]);
    for i := 0 to |commands|
      invariant rt.Valid()
      invariant m.Some? && Position(m.value) < i ==>
                  && Dispatched(m.value, args, environ, webpackConfigExists, localWebpackExists,
                                old(rt.procs), old(rt.exitHooks), rt.procs, rt.exitHooks, Ok(block))
                  && (m.value == Server ==> (watcher.Some? <==> Truthy(ReadServerOptions(args, DependenciesKey).value.watch)))
      invariant !(m.Some? && Position(m.value) < i) ==>
                  !block && watcher == None && rt.procs == old(rt.procs) && rt.exitHooks == old(rt.exitHooks)
      invariant watcher.Some? ==> block && fresh(watcher.value)
                                  && Watching(args, rt.procs, watcher.value.process, watcher.value.Config())
    {
      var command := commands[i];
      if Str(Name(command)) == args["command"] {
        assert Position(command) == i;
        var blocks, handler := RunMatched(rt, command, args, environ, webpackConfigExists, localWebpackExists);
        if blocks.Err? {
          return Err(blocks.error), None;
        }
        if blocks.value {
          block := true;
        }
        if handler.Some? {
          watcher := handler;
        }
      } else {
        assert m.Some? ==> Position(m.value) != i;
      }
    }
    r := Ok(block);
  }
}
