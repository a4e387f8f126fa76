# tails command-line orchestrator, response helpers and event registry — a Dafny model

This project models the three parts of the `tails` web framework that hold its logic:

- **The `tails` command line** (`tails/cli.py`). It has five sub-commands: `build`, `migrate`, `reset`, `server` and `test`. Each one decides whether the main thread blocks afterwards. `main` registers the commands and merges an optional JSON config file over the parsed arguments. It then runs the command whose name matches and passes it the last `/`-separated component of the app path. The spawn helpers start the bundler (webpack), celery workers, dependency commands and the server process. Each helper registers the child's `terminate` with `atexit`. When watching, a reload handler restarts the server process whenever a Python file is created or modified.
- **Response helpers** (`tails/resource.py`). These are the stylesheet and script tag builders and the page template of `html`, with its argument normalisation. They also include the `ok` payload, written into the caller's dictionary, and the empty 400/401/403 responses.
- **Publish/subscribe** (`tails/event.py`). A module-level map goes from event name to handlers in subscription order.

## How the model is built

- Child processes are abstract handles. A handle is the position of a process in `Processes.Runtime.procs`, which records how the process was started and whether it is running, terminated or exited. The `atexit` registry is `Runtime.exitHooks`, a sequence of handles; each handle stands for the registered `process.terminate`. `Runtime.Valid()` says that every registered handle names a started process and that no running child lacks an exit hook.
- The parsed-argument dictionary is a `map<string, Value>`. Python truthiness is `PyValues.Truthy`. Raised exceptions (`KeyError`, `TypeError`, `AttributeError`) are `Err` results. Every lookup in the source that could miss a key is modelled with its `KeyError`.
- Facts about the file system are inputs: whether the config file exists, its contents, whether `./webpack.config.js` exists, and whether the local webpack binary exists. The parent's environment is an input too.
- `resource.py` is pure apart from `ok`. `ok` writes into a `JsonObject` the caller owns. The JSON serialiser `j.dumps` is a function parameter of `Html`.
- `Event.Registry.Publish` returns the calls it makes, as (handler, data) pairs in order.
- argparse rejects an unknown sub-command typed on the command line (it exits with status 2 before `main`'s loop). The loop can still see a value that names no command: `None` when no sub-command is given, or a `command` entry supplied by the config file. For such a value nothing runs and `main` returns normally without blocking.
- Build blocks when `watch` is set, and not otherwise.
- `build` without watch mode and without `./webpack.config.js` is modelled as written. `_build` returns None and `Build.run` then calls `None.wait()`, so the model gives an `AttributeError` (`Commands.BuildRun`).

## Model

| member | source | states |
|---|---|---|
| `Processes.Without` | tails/cli.py:38 | Unregistering a handle removes every registration of it and no other: the multiset of hooks loses exactly that handle's occurrences. |
| `Processes.WithoutAppend` | tails/cli.py:38 | Unregistering keeps the relative order of the remaining hooks (it distributes over concatenation). |
| `Processes.Runtime.Spawn` | tails/cli.py:197 | `Popen(...)` (or `Process.start()`) appends one running process with that invocation, returns its handle, and leaves the exit registry alone. |
| `Processes.Runtime.Wait` | tails/cli.py:71 | `wait()` leaves that process ended (exited if it was running), changes no other process and leaves the registry alone. |
| `Processes.Runtime.Register` | tails/cli.py:198 | `atexit.register(process.terminate)` appends the handle to the exit registry and leaves the processes alone. |
| `Processes.Runtime.Unregister` | tails/cli.py:38 | `atexit.unregister` replaces the registry by the registry without that handle. |
| `Processes.Runtime.Terminate` | tails/cli.py:39 | `terminate()` marks a running process as told to terminate (`Terminated`), does nothing to an ended one, and leaves the registry alone. |
| `Processes.AppendedKeepsValid` | tails/cli.py:197-198 | Starting processes and registering each one keeps every hook in range and leaves no running child without an exit hook. |
| `Processes.RunExitHooks` | tails/cli.py:239 | Running the exit hooks (last registered first) stops every registered process, changes no unregistered one, and keeps every invocation. |
| `Processes.NoChildOutlivesExit` | tails/cli.py:198 | If no running child lacks an exit hook, then no child is still running once the exit hooks have run. |
| `PyStrings.Split` | tails/cli.py:207 | `str.split(sep)` yields one more piece than there are separators, and no piece contains the separator. |
| `PyStrings.JoinSplit` | tails/cli.py:207 | Joining the pieces of a split with the separator gives back the original string. |
| `PyStrings.SplitJoin` | tails/cli.py:207 | Splitting a join of separator-free pieces gives back exactly those pieces. |
| `Launch.BundlerCommandLine` | tails/cli.py:183-195 | Builds the bundler argv (local binary if present, else `webpack`) and the environment copy with `NODE_ENV` set in production, step by step. The result equals the `BundlerArgv`/`BundlerEnv` specification. |
| `Launch.BundlerArgvFlags` | tails/cli.py:187-195 | The argv is the binary, `--progress`, then `-p` iff production, then `--watch` iff watch, and has exactly that length. |
| `Launch.BundlerEnvOnlyNodeEnv` | tails/cli.py:188-191 | The bundler's environment sets `NODE_ENV=production` iff production; it is the parent's environment in development; no other variable differs. |
| `Launch.SpawnBuild` | tails/cli.py:179-199 | Without `./webpack.config.js` it spawns nothing and returns None. Otherwise it starts exactly the bundler invocation, registers it for exit and returns its handle. |
| `Launch.SpawnCelery` | tails/cli.py:201-204 | Starts one `celery worker -A name -l info` and registers exactly that handle for exit. |
| `Launch.SpawnDependency` | tails/cli.py:206-209 | Starts one process whose argv is the command split on single spaces and registers exactly that handle for exit. |
| `Launch.DependencyArgvRoundTrip` | tails/cli.py:207 | A dependency's argv is non-empty and joins back, with single spaces, to the command string. |
| `Launch.StartServerProcess` | tails/cli.py:235-240 | Starts one server process with the given app/host/port/production and registers exactly that handle for exit. |
| `ServerCommand.ReadServerOptions` | tails/cli.py:135-141 | Reads host, port, celery, the dependency list, production, watch and build in that order. It succeeds iff all keys are present and both lists hold strings. It returns the stored values; if the dependency key is the first key missing, the result is KeyError on it. |
| `ServerCommand.ParsedArgsLackDependencies` | tails/cli.py:118-138 | As written: on the dictionary the server parser yields, reading `dependencies` always raises `KeyError('dependencies')`. |
| `ServerCommand.ParsedArgsReadUnderDest` | tails/cli.py:118 | Corrected: reading the parser's dest `dependency` succeeds and yields exactly the `--dependency` values. |
| `ServerCommand.ServerPlanOrder` | tails/cli.py:146-159 | The spawn plan is the bundler step, then one worker per celery name in order, then one process per dependency in order, then exactly one server process, last. |
| `ServerCommand.SpawnCeleryWorkers` | tails/cli.py:151-152 | The celery loop starts and registers one worker per name, in order. |
| `ServerCommand.SpawnDependencies` | tails/cli.py:155-156 | The dependency loop starts and registers one process per command, in order. |
| `ServerCommand.StartServerChildren` | tails/cli.py:146-164 | Starts and registers exactly the spawn plan, with the bundler only under `--build`. It creates a reload handler iff watch is truthy, holding the server handle and the same configuration. |
| `ServerCommand.ServerRun` | tails/cli.py:134-164 | If an option read fails, spawns nothing and raises that error. Otherwise starts exactly the plan for the options read, and creates a handler iff watch is truthy. |
| `ServerCommand.ReloadHandler.constructor` | tails/cli.py:22-28 | The handler holds the given process handle and the app/host/port/production it restarts with. |
| `ServerCommand.SoleServerReplaced` | tails/cli.py:39-40 | When the terminated handle was the only server not yet told to terminate, the replacement appended after it is the only such server. |
| `ServerCommand.ReloadHandler.Reload` | tails/cli.py:36-40 | The old handle is unregistered (every registration) and told to terminate. A fresh server with the unchanged configuration is started, registered and made current. If the old server was the only one not told to terminate, the new one is the only such one after. |
| `ServerCommand.ReloadHandler.OnCreated` | tails/cli.py:30-31 | A created file performs exactly one reload: the old server is told to terminate and unregistered, a fresh one with the same configuration is registered and current, and a sole running server stays sole. |
| `ServerCommand.ReloadHandler.OnModified` | tails/cli.py:33-34 | A modified file performs exactly one reload: the old server is told to terminate and unregistered, a fresh one with the same configuration is registered and current, and a sole running server stays sole. |
| `Commands.BlockRule` | tails/cli.py:56-168 | On a dictionary holding a command's parser dests, `block` never raises. Build blocks iff watch is truthy, server always blocks, and migrate, reset and test never block. |
| `Commands.Options` | tails/cli.py:62-174 | The dests and defaults of each sub-parser. None of them clashes with `app`, `config` or `command`, and with every flag at its default only server blocks. |
| `Commands.Name` | tails/cli.py:59-171 | Each command answers to one non-empty lower-case word. |
| `Commands.Blocks` | tails/cli.py:56-168 | `block` raises (KeyError on `watch`) only for build without a `watch` entry. Otherwise the answer is true iff the command is server, or build with a truthy watch. |
| `Commands.NamesDistinct` | tails/cli.py:59-171 | The five command names are pairwise different, so at most one command matches a sub-command. |
| `Commands.BuildRun` | tails/cli.py:66-71 | A missing `production` or `watch` raises KeyError before anything starts, leaving the process table and exit registry unchanged. In watch mode it leaves the bundler running and registered. Otherwise it waits for the bundler to exit; with no webpack config it raises AttributeError on `None.wait()` and changes nothing. |
| `PyValues.JoinOperands` | tails/cli.py:177 | What `str.join` iterates over: the elements of a list of strings, or the characters of a string. Any other value is a TypeError. |
| `Commands.TestCommandLine` | tails/cli.py:176-177 | The shell command is `TEST=1 python -m unittest ` followed by the test names. It exists iff `tests` is present and is a list of strings or a string. Otherwise it is a KeyError or TypeError on `tests`. |
| `Commands.TestNamesRecoverable` | tails/cli.py:177 | Space-free test names can be read back from the command line, in order, by splitting on spaces. |
| `Commands.Run` | tails/cli.py:66-177 | Each command's whole effect (`Commands.Effect`). Build behaves as `BuildRun`. Migrate raises KeyError on `dry_run`, then on `debug`, and reset never raises; neither starts a process. Server raises what its option read raises, spawning nothing, or starts exactly its spawn plan. Test raises exactly when its command line cannot be built, and starts nothing in the table. Only server in watch mode yields a reload handler: fresh, holding the last started process and the server's configuration. |
| `Dispatch.CommandRegistry.Register` | tails/cli.py:214-218 | Registering appends the command to the registry. |
| `Dispatch.RegisterCommands` | tails/cli.py:249-253 | The registry ends up as build, migrate, reset, server, test, in that order. |
| `Dispatch.AllCommandsRegistered` | tails/cli.py:249-253 | Every command is registered, and none twice. |
| `Dispatch.MergeConfig` | tails/cli.py:256-258 | After the merge, config entries overwrite parsed values with the same key. Every other parsed entry is unchanged and no key is lost. |
| `Dispatch.MergeConfigIdempotent` | tails/cli.py:258 | Merging the same config a second time changes nothing. |
| `Dispatch.EffectiveArgs` | tails/cli.py:255-258 | The config is merged iff `--config` is truthy and names an existing file. The keys are then the union of both dictionaries, with config values winning; otherwise the parsed dictionary is unchanged. |
| `Dispatch.Matching` | tails/cli.py:262-263 | The command whose name equals the sub-command value, if there is one. It is the only such command, and there is none exactly when the value names no command. |
| `Dispatch.AppName` | tails/cli.py:270 | The app name handed to the command contains no `/`. |
| `Dispatch.AppNameIsLastComponent` | tails/cli.py:270 | The app name is a suffix of the app path: the whole path, or the part after its last `/`. |
| `Dispatch.RunRegistered` | tails/cli.py:262-270 | Walks the registered commands in order. When no command's name equals the `command` value it runs nothing, changes no process and answers `False`. Otherwise the outcome is exactly the matching command's dispatched outcome, and a returned handler is fresh and holds the last started server. |
| `Dispatch.RunMatched` | tails/cli.py:263-270 | For the matching command (`Dispatch.Dispatched`): a failing `block` raises before anything runs. A non-string app raises TypeError at `args['app'] + '/../'`, changing nothing. Otherwise the command's whole effect happens with the last path component as app name, and on success the result is its `block` answer. A returned handler is fresh and holds the last started server, with the configuration read from the arguments. |
| `Dispatch.RunCommandLine` | tails/cli.py:242-275 | Works on the merged dictionary. A value naming no command runs nothing, changes no process and gives `block == False`. Otherwise the result and the new process table are exactly the matching command's dispatched outcome. A reload handler exists iff server ran with watch set; it is fresh and holds the last started server, so it can be reloaded. |
| `Resource.CssTag` | tails/resource.py:5-9 | The tag is empty iff the path is None or empty. Otherwise it is the path plus the fixed stylesheet markup around it. |
| `Resource.JsTag` | tails/resource.py:11-15 | The tag is empty iff the path is None or empty. Otherwise it is the path plus the fixed script markup around it. |
| `Resource.TagForm` | tails/resource.py:5-15 | A present path's tag is exactly the opening markup, the path, then the closing markup. |
| `Resource.TagRoundTrip` | tails/resource.py:5-15 | Reading the path back out of a tag gives the path it was made from. |
| `Resource.JoinedAppend` | tails/resource.py:61-66 | A tag group is the concatenation of its parts in input order, with no separator. |
| `Resource.JoinedSkipsMissing` | tails/resource.py:61-66 | None and empty entries contribute nothing to a tag group. |
| `Resource.Normalise` | tails/resource.py:24-40 | A falsy asset argument becomes `[]`, a single path becomes a one-element list, and a list is kept as is. |
| `Resource.NormaliseData` | tails/resource.py:26 | Missing `js_data` becomes `{}`; given data is kept. |
| `Resource.Page` | tails/resource.py:42-67 | The page's length is the template's fixed text plus exactly the title, the serialised data, the four tag groups, the head and the body. Nothing else is added or dropped. |
| `Resource.Html` | tails/resource.py:42-67 | `html` returns an HTML response, never a text or JSON one, and its page is at least as long as the template's fixed text. |
| `Resource.PageSections` | tails/resource.py:42-67 | The page is exactly the head prefix (title and data), the stylesheet group, the body in its container, and the script group, concatenated in that order and found at those offsets. |
| `Resource.TitleDataAndBody` | tails/resource.py:46-53 | The page starts with the title inside the title element, followed by the serialised data assigned to `window.__data__`. The body sits inside the container right after the head markup. |
| `Resource.StylesheetsInOrder` | tails/resource.py:47-50 | Right after the data script come the external stylesheet tags, then the local ones, then the caller's head markup. |
| `Resource.ScriptsInOrder` | tails/resource.py:54-57 | The page ends with the external script tags, then the local ones, then the closing tags. |
| `Resource.WithOk` | tails/resource.py:76 | The payload has `'ok'` set to True, and every other key and value is unchanged. |
| `Resource.WithOkIdempotent` | tails/resource.py:76 | Marking a payload ok twice is the same as once. |
| `Resource.Ok` | tails/resource.py:72-77 | Writes `'ok': True` into the caller's own dictionary, changing nothing else, and sends that dictionary. `ok(None)` sends a fresh `{'ok': True}`. |
| `Resource.BadRequest` | tails/resource.py:17-18 | An empty text body with status 400. |
| `Resource.Forbidden` | tails/resource.py:20-21 | An empty text body with status 403. |
| `Resource.Unauthorized` | tails/resource.py:82-83 | An empty text body with status 401. |
| `Event.Subscribed` | tails/event.py:10-11 | Subscribing makes `f` the last handler of the event, keeps the earlier handlers, and leaves every other event's list unchanged. |
| `Event.SubscribeTwiceCallsTwice` | tails/event.py:11 | There is no de-duplication: subscribing `f` twice adds two occurrences of `f` to the event's list. |
| `Event.Registry.constructor` | tails/event.py:1 | The registry starts empty. |
| `Event.Registry.Subscribe` | tails/event.py:8-13 | `subscribe(event)(f)` returns `f` itself, and the registry becomes the registry with `f` subscribed to the event. |
| `Event.Registry.Publish` | tails/event.py:3-6 | Calls each handler of the event with the data, once per subscription, in subscription order. An event without subscribers calls nothing. The registry is not modified (the method has no write frame). |

## Findings

| source | as written | input that shows it | evidently intended | confidence | as-written member | corrected member |
|---|---|---|---|---|---|---|
| tails/cli.py:138 | The server command reads `args['dependencies']`, but the parser stores `--dependency` under `dependency` (tails/cli.py:118). | `tails app server` with no config file: the dictionary has `dependency` and no `dependencies`, so `Server.run` raises `KeyError('dependencies')` before spawning anything. | Read `args['dependency']`, the dest the parser defines. | high, not executed | `ServerCommand.ParsedArgsLackDependencies` | `ServerCommand.ParsedArgsReadUnderDest` |

`ServerCommand.ReadServerOptions` takes the dependency key as a parameter. `ServerRun` and the dispatch keep the as-written key (`DependenciesKey`), so the model of `main` behaves as the code does: without a config file that supplies `dependencies`, the server command raises. The corrected reading is `ReadServerOptions(args, DependencyDest)`.

## Left out

- Real process creation, termination and waiting (`subprocess.Popen`, `multiprocessing.Process`, `terminate`, `wait`): a process is a handle with a status.
- The interpreter's `atexit` machinery itself. Only its registry and the effect of running the registered hooks (`Processes.RunExitHooks`) are modelled.
- `signal.signal`, `signal.pause` and `sys.exit` after a blocking command: `Dispatch.RunCommandLine` returns the `block` flag instead of parking.
- The watchdog observer thread, its `*.py` pattern matching and any overlap between reloads. A reload is one sequential step, invoked through `OnCreated` or `OnModified`.
- `print` calls (the reload message, the running banner, the migrate result).
- argparse itself, including its error exits: the parsed dictionary is an input. `Commands.Options` records the dests and defaults each sub-parser declares.
- `os.chdir`, `sys.path`, `importlib`, `os.path.isfile`, `os.getcwd` and reading and `json.loads` of the config file: their outcomes are inputs.
- `Dispatch.RunCommandLine`: assumes the two `os.chdir` calls succeed; a missing app directory, which raises in the source, is not modelled.
- The `stellata` migrate and drop calls of `migrate` and `reset`, `_run_server` and the sanic logging configuration: library behaviour. `migrate` and `reset` start no child process, and only their argument lookups are modelled.
- The test command's `os.system` call: the shell runs synchronously outside the process table. The command line it receives is modelled (`Commands.TestCommandLine`).
- `ServerCommand.ReadServerOptions`: a `celery` or dependency value that is not a list of strings is a `TypeError` before any spawn. In Python a string would be iterated character by character, and a non-string element fails only at its own iteration.
- `PyValues.Value` has no floats and no nested objects, so config values are None, booleans, integers, strings and lists.
- `Dispatch.RegisterCommands`: the registry starts empty on each call. This matches the one call of `main` per process; calling the source's `main` twice would register every command twice.
- `j.dumps` (a parameter of `Resource.Html`), `stellata.model.serialize` (the payload is kept inside `JsonResponse`), and the sanic response constructors with their default status and content type.
- `Event.Registry.Publish`: returns the calls over the handler list as it stood when publishing began, and always makes every call. In Python a handler that raises stops the remaining calls and the exception propagates. A handler that subscribes to the same event during a publish is appended to the list being iterated, so it is also called in that publish. What the handlers do is not modelled.
- `ServerCommand.ReloadHandler.Reload`, `OnCreated` and `OnModified`: `Terminated` means only that `terminate()` was called, so SIGTERM was sent. Reload does not wait (no `join`) for the old process to end before starting the replacement, so both can briefly be alive on the same host and port. The single-live-server ensures therefore holds only once the old process has really ended.
- Spawn failures: every `Popen` and `Process.start` is assumed to succeed. A raising spawn is not modelled, e.g. the `FileNotFoundError` at tails/cli.py:197 when neither `./node_modules/webpack/bin/webpack.js` nor `webpack` on PATH exists. In the source it leaves `Build.run` or `Server.run` with the earlier children already started and registered.
- `json` and `redirect` in resource.py: thin wrappers around the framework, with no logic of their own.
- `html`'s `body`, `head` and `title` are strings. Non-string values that Python's `%` formatting would convert are not modelled.
- setup.py, tails/__init__.py and tails/test.py: packaging, logging configuration and database truncation glue.
