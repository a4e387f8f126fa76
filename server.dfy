/**
 * The server command: reading its options from the argument dictionary,
 * the order in which it starts its children, and the handler that restarts
 * the server process when a source file changes.
 */
module ServerCommand {
  import opened Wrappers
  import opened PyValues
  import opened Processes
  import opened Launch

  /** The dictionary key argparse stores `--dependency` under. */
  const DependencyDest := "dependency"
  /** The key the server command reads its dependency list from. */
  const DependenciesKey := "dependencies"

  datatype ServerOptions = ServerOptions(
    host: Value, port: Value, celery: seq<string>, dependencies: seq<string>,
    production: Value, watch: Value, build: Value)

  /** The keys the server command reads, with the dependency list under `dependencyKey`. */
  function ServerKeys(dependencyKey: string): set<string> {
    {"host", "port", "celery", dependencyKey, "production", "watch", "build"}
  }

  /**
   * The option reads at the top of the server command, in the source's order,
   * with the dependency list read under `dependencyKey`. A missing key is a
   * KeyError naming the first key missing in that order.
   */
  function ReadServerOptions(args: Args, dependencyKey: string): (r: Result<ServerOptions, Error>)
    ensures r.Ok? <==> ServerKeys(dependencyKey) <= args.Keys
                       && IsStringList(args["celery"]) && IsStringList(args[dependencyKey])
    ensures r.Ok? ==> && r.value.host == args["host"] && r.value.port == args["port"]
                      && r.value.production == args["production"] && r.value.watch == args["watch"]
                      && r.value.build == args["build"]
                      && List(seq(|r.value.celery|, i requires 0 <= i < |r.value.celery| => Str(r.value.celery[i]))) == args["celery"]
                      && List(seq(|r.value.dependencies|, i requires 0 <= i < |r.value.dependencies| => Str(r.value.dependencies[i]))) == args[dependencyKey]
    ensures {"host", "port", "celery"} <= args.Keys && dependencyKey !in args ==> r == Err(KeyError(dependencyKey))
  {
    var host :- Lookup(args, "host");
    var port :- Lookup(args, "port");
    var celery :- Lookup(args, "celery");
    var dependencies :- Lookup(args, dependencyKey);
    var production :- Lookup(args, "production");
    var watch :- Lookup(args, "watch");
    var build :- Lookup(args, "build");
    var names :- Strings(celery, "celery");
    var commands :- Strings(dependencies, dependencyKey);
    Ok(ServerOptions(host, port, names, commands, production, watch, build))
  }

  /** The dictionary argparse yields for the server sub-command: its own dests, plus `app`, `config` and `command`. */
  predicate ParsedServerArgs(args: Args) {
    && args.Keys == {"app", "config", "command", "build", "celery", DependencyDest, "host", "port", "production", "watch"}
    && IsStringList(args["celery"]) && IsStringList(args[DependencyDest])
  }

  /** As written: on what the parser yields, the server command always fails on its dependency read. */
  lemma ParsedArgsLackDependencies(args: Args)
    requires ParsedServerArgs(args)
    ensures ReadServerOptions(args, DependenciesKey) == Err(KeyError("dependencies"))
  {
  }

  /** Corrected: reading the parser's own dest yields exactly the `--dependency` values given. */
  lemma ParsedArgsReadUnderDest(args: Args)
    requires ParsedServerArgs(args)
    ensures ReadServerOptions(args, DependencyDest).Ok?
    ensures var deps := ReadServerOptions(args, DependencyDest).value.dependencies;
      |deps| == |args[DependencyDest].items| && forall i :: 0 <= i < |deps| ==> args[DependencyDest].items[i] == Str(deps[i])
  {
  }

  function CeleryInvocations(names: seq<string>): (invs: seq<Invocation>)
    ensures |invs| == |names|
    ensures forall i :: 0 <= i < |names| ==> invs[i] == CeleryInvocation(names[i])
  {
    seq(|names|, i requires 0 <= i < |names| => CeleryInvocation(names[i]))
  }

  function DependencyInvocations(commands: seq<string>): (invs: seq<Invocation>)
    ensures |invs| == |commands|
    ensures forall i :: 0 <= i < |commands| ==> invs[i] == DependencyInvocation(commands[i])
  {
    seq(|commands|, i requires 0 <= i < |commands| => DependencyInvocation(commands[i]))
  }

  function ConfigOf(app: string, opts: ServerOptions): ServerConfig {
    ServerConfig(app, opts.host, opts.port, opts.production)
  }

  /** Everything the server command starts, in order. */
  function ServerPlan(app: string, opts: ServerOptions, buildStep: seq<Invocation>): seq<Invocation> {
    buildStep + CeleryInvocations(opts.celery) + DependencyInvocations(opts.dependencies)
    + [ServerProcess(ConfigOf(app, opts))]
  }

  /**
   * The bundler (if any) comes first, then one worker per celery name in
   * order, then one process per dependency in order, then exactly one server
   * process, last.
   */
  lemma ServerPlanOrder(app: string, opts: ServerOptions, buildStep: seq<Invocation>)
    requires forall i :: 0 <= i < |buildStep| ==> buildStep[i].Popen?
    ensures var plan := ServerPlan(app, opts, buildStep);
      var b, c, d := |buildStep|, |opts.celery|, |opts.dependencies|;
      && |plan| == b + c + d + 1
      && (forall i :: 0 <= i < b ==> plan[i] == buildStep[i])
      && (forall i :: 0 <= i < c ==> plan[b + i] == CeleryInvocation(opts.celery[i]))
      && (forall i :: 0 <= i < d ==> plan[b + c + i] == DependencyInvocation(opts.dependencies[i]))
      && plan[|plan| - 1] == ServerProcess(ConfigOf(app, opts))
      && (forall i :: 0 <= i < |plan| - 1 ==> plan[i].Popen?)
  {
    var celery, deps := CeleryInvocations(opts.celery), DependencyInvocations(opts.dependencies);
    var early := buildStep + celery;
    var front := early + deps;
    assert ServerPlan(app, opts, buildStep) == front + [ServerProcess(ConfigOf(app, opts))];
    assert forall i :: 0 <= i < |early| ==> early[i].Popen? by {
      assert forall i :: 0 <= i < |celery| ==> early[|buildStep| + i] == celery[i];
    }
    assert forall i :: 0 <= i < |front| ==> front[i].Popen? by {
      assert forall i :: 0 <= i < |deps| ==> front[|early| + i] == deps[i];
    }
  }

  /** The bundler step of the server command: run only with `--build`. */
  function ServerBuildStep(opts: ServerOptions, webpackConfigExists: bool, localWebpackExists: bool, environ: Env): seq<Invocation> {
    if Truthy(opts.build)
    then BuildStep(Truthy(opts.production), Truthy(opts.watch), webpackConfigExists, localWebpackExists, environ)
    else []
  }

  /** The loop over `--celery` names: one registered worker per name, in order. */
  method SpawnCeleryWorkers(rt: Runtime, names: seq<string>)
    requires rt.Valid()
    modifies rt
    ensures rt.Valid()
    ensures Appended(old(rt.procs), old(rt.exitHooks), rt.procs, rt.exitHooks, CeleryInvocations(names))
  {
    assert Started([]) == [] && Span(|rt.procs|, 0) == [];
    for i := 0 to |names|
      invariant rt.Valid()
      invariant Appended(old(rt.procs), old(rt.exitHooks), rt.procs, rt.exitHooks, CeleryInvocations(names[..i]))
    {
      ghost var procs1, hooks1 := rt.procs, rt.exitHooks;
      var _ := SpawnCelery(rt, names[i]);
      AppendedTrans(old(rt.procs), old(rt.exitHooks), procs1, hooks1, rt.procs, rt.exitHooks,
                    CeleryInvocations(names[..i]), [CeleryInvocation(names[i])]);
      assert CeleryInvocations(names[..i + 1]) == CeleryInvocations(names[..i]) + [CeleryInvocation(names[i])];
    }
    assert names[..|names|] == names;
  }

  /** The loop over dependencies: one registered process per command, in order. */
  method SpawnDependencies(rt: Runtime, commands: seq<string>)
    requires rt.Valid()
    modifies rt
    ensures rt.Valid()
    ensures Appended(old(rt.procs), old(rt.exitHooks), rt.procs, rt.exitHooks, DependencyInvocations(commands))
  {
    assert Started([]) == [] && Span(|rt.procs|, 0) == [];
    for i := 0 to |commands|
      invariant rt.Valid()
      invariant Appended(old(rt.procs), old(rt.exitHooks), rt.procs, rt.exitHooks, DependencyInvocations(commands[..i]))
    {
      ghost var procs1, hooks1 := rt.procs, rt.exitHooks;
      var _ := SpawnDependency(rt, commands[i]);
      AppendedTrans(old(rt.procs), old(rt.exitHooks), procs1, hooks1, rt.procs, rt.exitHooks,
                    DependencyInvocations(commands[..i]), [DependencyInvocation(commands[i])]);
      assert DependencyInvocations(commands[..i + 1]) == DependencyInvocations(commands[..i]) + [DependencyInvocation(commands[i])];
    }
    assert commands[..|commands|] == commands;
  }

  /** The spawning half of `Server.run`, once its options are read. */
  method StartServerChildren(rt: Runtime, app: string, opts: ServerOptions, environ: Env,
                             webpackConfigExists: bool, localWebpackExists: bool)
    returns (handler: Option<ReloadHandler>)
    requires rt.Valid()
    modifies rt
    ensures rt.Valid()
    ensures Appended(old(rt.procs), old(rt.exitHooks), rt.procs, rt.exitHooks,
                     ServerPlan(app, opts, ServerBuildStep(opts, webpackConfigExists, localWebpackExists, environ)))
    ensures handler.Some? <==> Truthy(opts.watch)
    ensures handler.Some? ==> fresh(handler.value) && handler.value.process == |rt.procs| - 1
                              && handler.value.Config() == ConfigOf(app, opts)
  {
    ghost var buildStep := ServerBuildStep(opts, webpackConfigExists, localWebpackExists, environ);
    if Truthy(opts.build) {
      var _ := SpawnBuild(rt, Truthy(opts.production), Truthy(opts.watch), webpackConfigExists, localWebpackExists, environ);
    } else {
      assert Started([]) == [] && Span(|rt.procs|, 0) == [];
    }
    ghost var procs1, hooks1 := rt.procs, rt.exitHooks;
    SpawnCeleryWorkers(rt, opts.celery);
    AppendedTrans(old(rt.procs), old(rt.exitHooks), procs1, hooks1, rt.procs, rt.exitHooks,
                  buildStep, CeleryInvocations(opts.celery));
    ghost var procs2, hooks2 := rt.procs, rt.exitHooks;
    SpawnDependencies(rt, opts.dependencies);
    AppendedTrans(old(rt.procs), old(rt.exitHooks), procs2, hooks2, rt.procs, rt.exitHooks,
                  buildStep + CeleryInvocations(opts.celery), DependencyInvocations(opts.dependencies));
    ghost var procs3, hooks3 := rt.procs, rt.exitHooks;
    var serverProcess := StartServerProcess(rt, ConfigOf(app, opts));
    AppendedTrans(old(rt.procs), old(rt.exitHooks), procs3, hooks3, rt.procs, rt.exitHooks,
                  buildStep + CeleryInvocations(opts.celery) + DependencyInvocations(opts.dependencies),
                  [ServerProcess(ConfigOf(app, opts))]);

    if Truthy(opts.watch) {
      var h := new ReloadHandler(serverProcess, app, opts.host, opts.port, opts.production);
      handler := Some(h);
    } else {
      handler := None;
    }
  }

  /** `Server.run`: read the options, then start bundler, workers, dependencies and server, in that order. */
  method ServerRun(rt: Runtime, app: string, args: Args, environ: Env,
                   webpackConfigExists: bool, localWebpackExists: bool)
    returns (r: Result<Option<ReloadHandler>, Error>)
    requires rt.Valid()
    modifies rt
    ensures rt.Valid()
    ensures r.Ok? <==> ReadServerOptions(args, DependenciesKey).Ok?
    ensures r.Err? ==> r.error == ReadServerOptions(args, DependenciesKey).error
                       && rt.procs == old(rt.procs) && rt.exitHooks == old(rt.exitHooks)
    ensures r.Ok? ==> var opts := ReadServerOptions(args, DependenciesKey).value;
      && Appended(old(rt.procs), old(rt.exitHooks), rt.procs, rt.exitHooks,
                  ServerPlan(app, opts, ServerBuildStep(opts, webpackConfigExists, localWebpackExists, environ)))
      && (r.value.Some? <==> Truthy(opts.watch))
      && (r.value.Some? ==> fresh(r.value.value) && r.value.value.process == |rt.procs| - 1
                            && r.value.value.Config() == ConfigOf(app, opts))
  {
    var read := ReadServerOptions(args, DependenciesKey);
    if read.Err? {
      return Err(read.error);
    }
    var handler := StartServerChildren(rt, app, read.value, environ, webpackConfigExists, localWebpackExists);
    r := Ok(handler);
  }

  /**
   * Stopping the only live server and starting a replacement leaves the
   * replacement as the only live server.
   */
  lemma SoleServerReplaced(procs: seq<Proc>, h: Handle, config: ServerConfig)
    requires h < |procs| && LiveServers(procs) <= {h}
    ensures LiveServers(procs[h := Stopped(procs[h])] + [Proc(ServerProcess(config), Running)]) == {|procs|}
  {
    var after := procs[h := Stopped(procs[h])] + [Proc(ServerProcess(config), Running)];
    forall k | 0 <= k < |procs|
      ensures k !in LiveServers(after)
    {
      if k != h {
        assert k !in LiveServers(procs);
        assert after[k] == procs[k];
      }
    }
    assert after[|procs|] == Proc(ServerProcess(config), Running);
  }

  /**
   * Restarts the server process when a Python source file is created or
   * modified under the working directory. It owns the current server handle;
   * the configuration it restarts with never changes.
   */
  class ReloadHandler {
    var process: Handle
    const app: string
    const host: Value
    const port: Value
    const production: Value

    function Config(): ServerConfig {
      ServerConfig(app, host, port, production)
    }

    constructor (process: Handle, app: string, host: Value, port: Value, production: Value)
      ensures this.process == process && Config() == ServerConfig(app, host, port, production)
    {
      this.process := process;
      this.app := app;
      this.host := host;
      this.port := port;
      this.production := production;
    }

    /**
     * Unregister and terminate the current server, start a replacement with
     * the same configuration and make it current. If the current server was
     * the only live one, its replacement is the only live one afterwards.
     */
    method Reload(rt: Runtime)
      requires rt.Valid() && process < |rt.procs|
      modifies this, rt
      ensures rt.Valid()
      ensures process == |old(rt.procs)|
      ensures rt.procs == old(rt.procs)[old(process) := Stopped(old(rt.procs)[old(process)])]
                          + [Proc(ServerProcess(Config()), Running)]
      ensures rt.exitHooks == Without(old(rt.exitHooks), old(process)) + [process]
      ensures rt.procs[old(process)].status != Running && old(process) !in rt.exitHooks
      ensures LiveServers(old(rt.procs)) <= {old(process)} ==> LiveServers(rt.procs) == {process}
    {
      ghost var old0 := process;
      rt.Unregister(process);
      rt.Terminate(process);
      assert rt.Valid() by {
        forall h | 0 <= h < |rt.procs| && rt.procs[h].status == Running
          ensures h in rt.exitHooks
        {
          assert h != old0 && old(rt.procs)[h].status == Running;
        }
      }
      process := StartServerProcess(rt, Config());
      if LiveServers(old(rt.procs)) <= {old0} {
        SoleServerReplaced(old(rt.procs), old0, Config());
      }
    }

    /** A matching file was created: exactly one reload. */
    method OnCreated(rt: Runtime)
      requires rt.Valid() && process < |rt.procs|
      modifies this, rt
      ensures rt.Valid()
      ensures process == |old(rt.procs)|
      ensures rt.procs == old(rt.procs)[old(process) := Stopped(old(rt.procs)[old(process)])]
                          + [Proc(ServerProcess(Config()), Running)]
      ensures rt.exitHooks == Without(old(rt.exitHooks), old(process)) + [process]
      ensures rt.procs[old(process)].status != Running && old(process) !in rt.exitHooks
      ensures LiveServers(old(rt.procs)) <= {old(process)} ==> LiveServers(rt.procs) == {process}
    {
      Reload(rt);
    }

    /** A matching file was modified: exactly one reload. */
    method OnModified(rt: Runtime)
      requires rt.Valid() && process < |rt.procs|
      modifies this, rt
      ensures rt.Valid()
      ensures process == |old(rt.procs)|
      ensures rt.procs == old(rt.procs)[old(process) := Stopped(old(rt.procs)[old(process)])]
                          + [Proc(ServerProcess(Config()), Running)]
      ensures rt.exitHooks == Without(old(rt.exitHooks), old(process)) + [process]
      ensures rt.procs[old(process)].status != Running && old(process) !in rt.exitHooks
      ensures LiveServers(old(rt.procs)) <= {old(process)} ==> LiveServers(rt.procs) == {process}
    {
      Reload(rt);
    }
  }
}
