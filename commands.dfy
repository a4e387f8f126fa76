/**
 * The sub-commands: their names, the options each one's parser declares,
 * whether each one blocks the main thread, and what running each one does
 * to the process table.
 */
module Commands {
  import opened Wrappers
  import opened PyValues
  import opened PyStrings
  import opened Processes
  import opened Launch
  import opened ServerCommand

  datatype Command = Build | Migrate | Reset | Server | Test

  /** The sub-command name each command registers: one lower-case word. */
  function Name(c: Command): (name: string)
    ensures |name| > 0 && forall i :: 0 <= i < |name| ==> 'a' <= name[i] <= 'z'
  {
    match c
    case Build => "build"
    case Migrate => "migrate"
    case Reset => "reset"
    case Server => "server"
    case Test => "test"
  }

  /**
   * The dests and defaults each command's parser adds to the argument
   * dictionary. They never clash with `main`'s own dests, and with every flag
   * at its default only the server command blocks.
   */
  function Options(c: Command): (opts: Args)
    ensures "app" !in opts && "config" !in opts && "command" !in opts
    ensures Blocks(c, opts) == Ok(c == Server)
  {
    match c
    case Build => map["production" := Bool(false), "watch" := Bool(false)]
    case Migrate => map["dry_run" := Bool(false), "debug" := Bool(false)]
    case Reset => map[]
    case Server => map["build" := Bool(false), "celery" := List([]), DependencyDest := List([]),
                       "host" := Str("0.0.0.0"), "port" := Int(9000),
                       "production" := Bool(false), "watch" := Bool(false)]
    case Test => map["tests" := List([])]
  }

  /**
   * `command.block(args)`: build blocks on its watch flag (a KeyError when
   * there is none); server always blocks; the others never do.
   */
  function Blocks(c: Command, args: Args): (r: Result<bool, Error>)
    ensures r.Err? <==> c == Build && "watch" !in args
    ensures r.Err? ==> r.error == KeyError("watch")
    ensures r.Ok? ==> (r.value <==> c == Server || (c == Build && Truthy(args["watch"])))
  {
    match c
    case Build =>
      var watch :- Lookup(args, "watch");
      Ok(Truthy(watch))
    case Migrate => Ok(false)
    case Reset => Ok(false)
    case Server => Ok(true)
    case Test => Ok(false)
  }

  /** Different commands answer to different names, so at most one command matches a name. */
  lemma NamesDistinct(c: Command, d: Command)
    ensures Name(c) == Name(d) <==> c == d
  {
  }

  /**
   * On a dictionary holding its parser's dests, a command's block rule never
   * raises: build blocks iff its watch value is truthy, server always blocks,
   * migrate, reset and test never do.
   */
  lemma BlockRule(c: Command, args: Args)
    requires Options(c).Keys <= args.Keys
    ensures Blocks(c, args) == Ok(c == Server || (c == Build && Truthy(args["watch"])))
  {
  }

  /** The exception a call raised, if any. */
  function Raised<T>(r: Result<T, Error>): Option<Error> {
    if r.Ok? then None else Some(r.error)
  }

  /** Neither the process table nor the exit registry changed. */
  predicate Unchanged(procs0: seq<Proc>, hooks0: seq<Handle>, procs1: seq<Proc>, hooks1: seq<Handle>) {
    procs1 == procs0 && hooks1 == hooks0
  }

  /**
   * What `Build.run` does: a KeyError for a missing `production` or `watch`
   * before anything starts; in watch mode the bundler is left running and
   * registered; otherwise the bundler is started and waited for, and without
   * a webpack config `None.wait()` raises AttributeError.
   */
  predicate BuildEffect(args: Args, environ: Env, webpackConfigExists: bool, localWebpackExists: bool,
                        procs0: seq<Proc>, hooks0: seq<Handle>, procs1: seq<Proc>, hooks1: seq<Handle>,
                        raised: Option<Error>)
  {
    if "production" !in args then
      raised == Some(KeyError("production")) && Unchanged(procs0, hooks0, procs1, hooks1)
    else if "watch" !in args then
      raised == Some(KeyError("watch")) && Unchanged(procs0, hooks0, procs1, hooks1)
    else
      var production, watch := Truthy(args["production"]), Truthy(args["watch"]);
      var step := BuildStep(production, watch, webpackConfigExists, localWebpackExists, environ);
      if watch then
        raised == None && Appended(procs0, hooks0, procs1, hooks1, step)
      else if !webpackConfigExists then
        raised == Some(AttributeError("wait")) && Unchanged(procs0, hooks0, procs1, hooks1)
      else
        raised == None && procs1 == procs0 + [Proc(step[0], Exited)] && hooks1 == hooks0 + [|procs0|]
  }

  /** The shell command line the test command hands to the system shell, before the test names. */
  const TestCommandPrefix := "TEST=1 python -m unittest "

  /**
   * `Test.run`'s command line: the prefix, then the test names joined by
   * single spaces. A string value is iterated character by character, as
   * `str.join` does; any other value is a TypeError.
   */
  function TestCommandLine(args: Args): (r: Result<string, Error>)
    ensures r.Ok? <==> "tests" in args && (IsStringList(args["tests"]) || args["tests"].Str?)
    ensures r.Err? ==> r.error == if "tests" in args then TypeError("tests") else KeyError("tests")
    ensures r.Ok? ==> |TestCommandPrefix| <= |r.value| && r.value[..|TestCommandPrefix|] == TestCommandPrefix
  {
    var tests :- Lookup(args, "tests");
    var names :- JoinOperands(tests, "tests");
    Ok(TestCommandPrefix + Join(names, ' '))
  }

  /** Test names without spaces can be read back out of the command line, one by one and in order. */
  lemma TestNamesRecoverable(args: Args, names: seq<string>)
    requires "tests" in args && args["tests"].List? && |args["tests"].items| == |names|
    requires forall i :: 0 <= i < |names| ==> args["tests"].items[i] == Str(names[i]) && ' ' !in names[i]
    requires |names| > 0
    ensures TestCommandLine(args).Ok?
    ensures Split(TestCommandLine(args).value[|TestCommandPrefix|..], ' ') == names
  {
    var read := JoinOperands(args["tests"], "tests");
    assert read.value == names;
    SplitJoin(names, ' ');
  }

  /**
   * What `command.run(app, args)` does to the process table and the exit
   * registry, and which exception it raises, if any.
   */
  predicate Effect(c: Command, app: string, args: Args, environ: Env, webpackConfigExists: bool,
                   localWebpackExists: bool, procs0: seq<Proc>, hooks0: seq<Handle>,
                   procs1: seq<Proc>, hooks1: seq<Handle>, raised: Option<Error>)
  {
    match c
    case Build =>
      BuildEffect(args, environ, webpackConfigExists, localWebpackExists, procs0, hooks0, procs1, hooks1, raised)
    case Migrate =>
      // `execute=not args['dry_run']` is evaluated before `debug=args['debug']`
      && Unchanged(procs0, hooks0, procs1, hooks1)
      && raised == (if "dry_run" !in args then Some(KeyError("dry_run"))
                    else if "debug" !in args then Some(KeyError("debug")) else None)
    case Reset =>
      Unchanged(procs0, hooks0, procs1, hooks1) && raised == None
    case Server =>
      var read := ReadServerOptions(args, DependenciesKey);
      if read.Err? then
        raised == Some(read.error) && Unchanged(procs0, hooks0, procs1, hooks1)
      else
        && raised == None
        && Appended(procs0, hooks0, procs1, hooks1,
                    ServerPlan(app, read.value, ServerBuildStep(read.value, webpackConfigExists, localWebpackExists, environ)))
    case Test =>
      Unchanged(procs0, hooks0, procs1, hooks1) && raised == Raised(TestCommandLine(args))
  }

  /** `Build.run`: start the bundler; outside watch mode, wait for it to finish. */
  method BuildRun(rt: Runtime, args: Args, environ: Env, webpackConfigExists: bool, localWebpackExists: bool)
    returns (r: Result<(), Error>)
    requires rt.Valid()
    modifies rt
    ensures rt.Valid()
    ensures BuildEffect(args, environ, webpackConfigExists, localWebpackExists,
                        old(rt.procs), old(rt.exitHooks), rt.procs, rt.exitHooks, Raised(r))
  {
    var production := Lookup(args, "production");
    if production.Err? {
      return Err(production.error);
    }
    var watch := Lookup(args, "watch");
    if watch.Err? {
      return Err(watch.error);
    }
    var process := SpawnBuild(rt, Truthy(production.value), Truthy(watch.value), webpackConfigExists, localWebpackExists, environ);
    if !Truthy(watch.value) {
      if process.None? {
        // `_build` returned None and the source calls `None.wait()`
        return Err(AttributeError("wait"));
      }
      rt.Wait(process.value);
    }
    r := Ok(());
  }

  /**
   * `command.run(app, args)`: the command's effect, and for the server
   * command in watch mode the reload handler that owns the server process.
   */
  method Run(rt: Runtime, c: Command, app: string, args: Args, environ: Env,
             webpackConfigExists: bool, localWebpackExists: bool)
    returns (r: Result<Option<ReloadHandler>, Error>)
    requires rt.Valid()
    modifies rt
    ensures rt.Valid()
    ensures Effect(c, app, args, environ, webpackConfigExists, localWebpackExists,
                   old(rt.procs), old(rt.exitHooks), rt.procs, rt.exitHooks, Raised(r))
    ensures r.Ok? && c != Server ==> r.value == None
    ensures r.Ok? && c == Server ==>
      var opts := ReadServerOptions(args, DependenciesKey).value;
      && (r.value.Some? <==> Truthy(opts.watch))
      && (r.value.Some? ==> fresh(r.value.value) && r.value.value.process == |rt.procs| - 1
                            && r.value.value.Config() == ConfigOf(app, opts))
  {
    match c
    case Build =>
      var built := BuildRun(rt, args, environ, webpackConfigExists, localWebpackExists);
      r := if built.Ok? then Ok(None) else Err(built.error);
    case Migrate =>
      // the schema migration itself is a library call outside this model
      var dryRun := Lookup(args, "dry_run");
      var debug := Lookup(args, "debug");
      r := if dryRun.Err? then Err(dryRun.error) else if debug.Err? then Err(debug.error) else Ok(None);
    case Reset =>
      // dropping and recreating the tables is a library call outside this model
      r := Ok(None);
    case Server =>
      r := ServerRun(rt, app, args, environ, webpackConfigExists, localWebpackExists);
    case Test =>
      // the command line goes to the system shell, outside the process table
      var commandLine := TestCommandLine(args);
      r := if commandLine.Err? then Err(commandLine.error) else Ok(None);
  }
}
