/**
 * The spawn helpers of the command-line layer: the bundler (`_build`), a
 * celery worker (`_celery`), an auxiliary dependency (`_dependency`) and the
 * server process (`_start_server_process`). Each starts one child and
 * registers its `terminate` for interpreter exit.
 */
module Launch {
  import opened Wrappers
  import opened PyStrings
  import opened Processes

  /** The project-local bundler, preferred when present. */
  const LocalWebpack := "./node_modules/webpack/bin/webpack.js"
  /** The bundler found on PATH otherwise. */
  const GlobalWebpack := "webpack"

  function WebpackPath(localWebpackExists: bool): string {
    if localWebpackExists then LocalWebpack else GlobalWebpack
  }

  /** The bundler's argv: progress output, then `-p` in production, then `--watch` in watch mode. */
  function BundlerArgv(webpack: string, production: bool, watch: bool): seq<string> {
    [webpack, "--progress"] + (if production then ["-p"] else []) + (if watch then ["--watch"] else [])
  }

  /** The bundler's environment: the parent's, with NODE_ENV=production in production. */
  function BundlerEnv(environ: Env, production: bool): Env {
    if production then environ["NODE_ENV" := "production"] else environ
  }

  /** What `_build` starts, if anything: nothing without a webpack config. */
  function BuildStep(production: bool, watch: bool, webpackConfigExists: bool, localWebpackExists: bool, environ: Env): seq<Invocation> {
    if webpackConfigExists then
      [Popen(BundlerArgv(WebpackPath(localWebpackExists), production, watch), Some(BundlerEnv(environ, production)))]
    else []
  }

  function CeleryArgv(name: string): seq<string> {
    ["celery", "worker", "-A", name, "-l", "info"]
  }

  /** A celery worker for the named app, inheriting the environment. */
  function CeleryInvocation(name: string): Invocation {
    Popen(CeleryArgv(name), None)
  }

  /** A dependency command, split on single spaces, inheriting the environment. */
  function DependencyInvocation(command: string): Invocation {
    Popen(Split(command, ' '), None)
  }

  /** Flags are where the bundler's argv says, and only there. */
  lemma BundlerArgvFlags(localWebpackExists: bool, production: bool, watch: bool)
    ensures var argv := BundlerArgv(WebpackPath(localWebpackExists), production, watch);
      && |argv| == 2 + (if production then 1 else 0) + (if watch then 1 else 0)
      && argv[0] == WebpackPath(localWebpackExists) && argv[1] == "--progress"
      && ("-p" in argv <==> production)
      && ("--watch" in argv <==> watch)
      && (production ==> argv[2] == "-p")
      && (watch ==> argv[|argv| - 1] == "--watch")
  {
  }

  /** The bundler's environment differs from the parent's in NODE_ENV alone, and only in production. */
  lemma BundlerEnvOnlyNodeEnv(environ: Env, production: bool)
    ensures var env := BundlerEnv(environ, production);
      && (production ==> "NODE_ENV" in env && env["NODE_ENV"] == "production")
      && (!production ==> env == environ)
      && (forall k :: k != "NODE_ENV" ==> (k in env <==> k in environ))
      && (forall k :: k != "NODE_ENV" && k in environ ==> env[k] == environ[k])
  {
  }

  /** A dependency's argv joins back, with single spaces, to the command it came from. */
  lemma DependencyArgvRoundTrip(command: string)
    ensures Join(DependencyInvocation(command).argv, ' ') == command
    ensures |DependencyInvocation(command).argv| >= 1
  {
    JoinSplit(command, ' ');
  }

  /** `_build`'s argv and environment, grown step by step as the source does. */
  method BundlerCommandLine(production: bool, watch: bool, localWebpackExists: bool, environ: Env)
    returns (argv: seq<string>, env: Env)
    ensures argv == BundlerArgv(WebpackPath(localWebpackExists), production, watch)
    ensures env == BundlerEnv(environ, production)
  {
    var webpack := LocalWebpack;
    if !localWebpackExists {
      webpack := GlobalWebpack;
    }
    argv := [webpack, "--progress"];
    env := environ;
    if production {
      env := env["NODE_ENV" := "production"];
      argv := argv + ["-p"];
    }
    if watch {
      argv := argv + ["--watch"];
    }
  }

  /** `_build`: start the bundler and register it, or return None without a webpack config. */
  method SpawnBuild(rt: Runtime, production: bool, watch: bool, webpackConfigExists: bool,
                    localWebpackExists: bool, environ: Env)
    returns (p: Option<Handle>)
    requires rt.Valid()
    modifies rt
    ensures rt.Valid()
    ensures Appended(old(rt.procs), old(rt.exitHooks), rt.procs, rt.exitHooks,
                     BuildStep(production, watch, webpackConfigExists, localWebpackExists, environ))
    ensures p.Some? <==> webpackConfigExists
    ensures p.Some? ==> p.value == |old(rt.procs)|
  {
    if !webpackConfigExists {
      assert Started([]) == [] && Span(|rt.procs|, 0) == [];
      return None;
    }
    var argv, env := BundlerCommandLine(production, watch, localWebpackExists, environ);
    var h := rt.Spawn(Popen(argv, Some(env)));
    rt.Register(h);
    p := Some(h);
    AppendedKeepsValid(old(rt.procs), old(rt.exitHooks), rt.procs, rt.exitHooks,
                       BuildStep(production, watch, webpackConfigExists, localWebpackExists, environ));
  }

  /** `_celery`: start one worker and register it. */
  method SpawnCelery(rt: Runtime, name: string) returns (h: Handle)
    requires rt.Valid()
    modifies rt
    ensures rt.Valid()
    ensures Appended(old(rt.procs), old(rt.exitHooks), rt.procs, rt.exitHooks, [CeleryInvocation(name)])
    ensures h == |old(rt.procs)|
  {
    h := rt.Spawn(Popen(["celery", "worker", "-A", name, "-l", "info"], None));
    rt.Register(h);
    AppendedKeepsValid(old(rt.procs), old(rt.exitHooks), rt.procs, rt.exitHooks, [CeleryInvocation(name)]);
  }

  /** `_dependency`: start the command and register it. */
  method SpawnDependency(rt: Runtime, command: string) returns (h: Handle)
    requires rt.Valid()
    modifies rt
    ensures rt.Valid()
    ensures Appended(old(rt.procs), old(rt.exitHooks), rt.procs, rt.exitHooks, [DependencyInvocation(command)])
    ensures h == |old(rt.procs)|
  {
    h := rt.Spawn(Popen(Split(command, ' '), None));
    rt.Register(h);
    AppendedKeepsValid(old(rt.procs), old(rt.exitHooks), rt.procs, rt.exitHooks, [DependencyInvocation(command)]);
  }

  /** `_start_server_process`: start the server in its own process and register it. */
  method StartServerProcess(rt: Runtime, config: ServerConfig) returns (h: Handle)
    requires rt.Valid()
    modifies rt
    ensures rt.Valid()
    ensures Appended(old(rt.procs), old(rt.exitHooks), rt.procs, rt.exitHooks, [ServerProcess(config)])
    ensures h == |old(rt.procs)|
  {
    h := rt.Spawn(ServerProcess(config));
    rt.Register(h);
    AppendedKeepsValid(old(rt.procs), old(rt.exitHooks), rt.procs, rt.exitHooks, [ServerProcess(config)]);
  }
}
