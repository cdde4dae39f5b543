# spork, modelled in Dafny

spork launches one child process through `forever-monitor`, forwards the child's standard
streams to the parent, and makes sure the child is killed when the parent goes away. This
project models its decision and bookkeeping rules and proves what they guarantee:

- how a call is normalised: the options may stand in the `args` position; the argv is
  `_.union([command], args || [])`; the monitor gets `{max: 1, silent: true, watch: false}`
  overridden by every caller option except the launcher's own `exit`, `quiet`, `stdio` and
  `verbose`; and stream i is forwarded unless `quiet` is set and only if `stdio[i]` is
  `'inherit'`, a non-array `stdio` meaning all three;
- the two versions of `spork`. `index.js` lets a truthy `verbose` overwrite the caller's
  `options.quiet` and maps the child's exit code to the parent's through the `exit` option
  (`false`, `true`, `'always'`, `'success'`, `'failure'`; left out, it acts as `'failure'`).
  `lib/spork.js` keeps `quiet` even when `verbose` is set, ends the parent with the child's
  code on `exit:code` only when `exit` is truthy, and always does so on `error:code`;
- the exit hooks of `lib/exit.js`. They are a listener on `exit`, one on `SIGINT` bound to
  `{exitCode: 2}` and one on `uncaughtException` bound to `{exitCode: 99}`, all sharing one
  handler. The handler asks for `process.exit(1)` on an error with a stack. Otherwise it
  kills every tracked child once and, when the list was non-empty, rebinds its own list to a
  new empty array. It then asks for `process.exit(exitData.exit)` when that is truthy.

The model keeps the code's quirks and proves them. The bound objects carry `exitCode` while
the handler reads `exit`, so no hook ever asks for that last exit. A listener on `SIGINT`
or `uncaughtException` replaces Node's default of ending the process, so after a SIGINT the
children are killed and the parent keeps running (`ExitHook.Handler.Run`). The handler
rebinds its own variable and does not clear the caller's array. So once a cleanup has found
children to kill, a child launched afterwards is never killed by a later event
(`Spork.ChildLaunchedAfterCleanupIsNotKilled`). A cleanup that finds the list empty keeps the
caller's array, so children pushed after it are still killed.

Modules, one per source file, plus shared pieces:

| module | file | models |
|---|---|---|
| `Js` | js.dfy | JavaScript values, truthiness, property reads, `process.exit` requests |
| `Lodash` | lodash.dfy | `_.union`/`_.uniq`, `_.omit`, `_.extend`, specified by their documented results |
| `Forever` | forever.dfy | the child handle (`forever.Monitor`): its argv, options, listeners, start |
| `Launch` | launch.dfy | the argv, monitor-option and stream decisions both versions of `spork` share |
| `ExitHook` | exit_hook.dfy | `lib/exit.js` |
| `Spork` | spork.dfy | `lib/spork.js` |
| `Index` | index.dfy | `index.js` |

Objects whose identity matters are class instances: the caller's options object (which
`index.js` writes to), the module-level `exitOptions` and `children`, the objects bound to
the hooks, and the monitors. Everything else is a value. `kill` calls are recorded in a ghost
log on the handler. `process.exit` is a request returned to the caller. `Handler.Run` then
re-enters the `exit` listener once, as `process.exit` does, before the process ends.

## Model

| member | source | states |
|---|---|---|
| `Lodash.Uniq` | index.js:41 | the union has no duplicates, holds exactly the elements of its input, and starts with the input's first element |
| `Lodash.UniqKeepsFirstOccurrenceOrder` | index.js:41 | the union lists elements in the order of their first occurrence |
| `Lodash.UniqOfDistinct` | index.js:41 | a sequence without repetitions is its own union |
| `Lodash.Omit` | index.js:57 | `_.omit` keeps exactly the entries whose key is not omitted, with their values |
| `Lodash.Extend` | index.js:53-57 | `_.extend` has the keys of both maps; the source's values win, the target's fill in the rest |
| `Launch.Argv` | lib/spork.js:36 | argv starts with the command, has no duplicates, and holds exactly the command and the array elements of `args` (none when `args` is not an array) |
| `Launch.ArgvInFirstOccurrenceOrder` | index.js:41 | argv keeps the command and the arguments in first-occurrence order |
| `Launch.ArgvOfDistinctArgs` | index.js:41 | distinct arguments that do not repeat the command give argv `[command] + args` |
| `Launch.MonitorOptions` | index.js:52-57 | the monitor options never hold `exit`, `quiet`, `stdio` or `verbose`; every other caller key keeps the caller's value; `max`, `silent` and `watch` default to 1, true and false only when the caller leaves them out; there are no other keys (same code at lib/spork.js:48-53) |
| `Launch.Forwarding` | lib/spork.js:55-75 | quiet forwards nothing; otherwise stream i is forwarded iff `stdio[i]` is 'inherit', and a non-array `stdio` forwards all three (same code at index.js:59-79) |
| `Launch.PipeListeners` | index.js:62-78 | one forwarding listener per chosen stream, each on a stream event, and no other; no listener twice |
| `Launch.WireStreams` | lib/spork.js:58-74 | installs exactly the forwarding listeners of the chosen streams after those already there |
| `Forever.Fire` | index.js:82-92 | what a listener asks of the parent when the child exits with a code: a forwarding listener nothing; `_.ary(process.exit, 1)` (lib/spork.js:78,81) `process.exit(code)`; the index.js listener `ExitCodeReaction` of `options.exit` as it is at that moment; never anything but no exit, `process.exit()` or `process.exit(code)` |
| `Forever.Monitor.constructor` | index.js:53-57 | a new monitor has the given argv and options, no listeners, and is not started |
| `Forever.Monitor.On` | index.js:82 | `on` appends one listener |
| `Forever.Monitor.Start` | index.js:95 | `start` marks the monitor started and leaves its listeners alone |
| `ExitHook.ChildArray.Push` | lib/spork.js:84 | `push` appends one child at the end |
| `ExitHook.HasStack` | lib/exit.js:16 | only an object whose `stack` property is truthy has a stack; a signal name, a number or `undefined` never does |
| `ExitHook.Handler.constructor` | lib/exit.js:8-13 | exactly three listeners: `exit` with nothing bound, `SIGINT` with `{exitCode: 2}`, `uncaughtException` with `{exitCode: 99}`; the handler tracks the caller's array and has killed nothing |
| `ExitHook.Handler.Handle` | lib/exit.js:15-33 | an error with a stack asks for exit code 1 before any cleanup; otherwise every tracked child is killed once, in order; a non-empty list is replaced by a new empty array, an empty one is kept; `process.exit(exitData.exit)` is asked for iff `exitData.exit` is truthy |
| `ExitHook.Handler.Emit` | lib/exit.js:11-13 | as registered, the handler asks for an exit only for an uncaught error with a stack, and then with code 1; otherwise it cleans up |
| `ExitHook.Handler.Run` | lib/exit.js:15-32 | on every event every tracked child is killed exactly once before the event is over, through the re-entered `exit` listener when the handler asked for an exit; `exit` ends the process with its code, an error with a stack ends it with 1, SIGINT and other errors leave it running |
| `ExitHook.Handler.RunTwice` | lib/exit.js:21-27 | cleanup is idempotent: a second event with nothing pushed in between kills nothing more |
| `Spork.ExitFlags` | lib/spork.js:38-46 | `verbose` is set iff the caller's `verbose` is truthy; `quiet` iff the caller's `quiet` is truthy and `verbose` is not; never both |
| `Spork.Wiring` | lib/spork.js:55-81 | streams are forwarded as `Forwarding` decides; an `exit:code` listener exists iff `options.exit` is truthy; an `error:code` listener always exists; exactly the listeners on stream events forward, every other one ends the parent with the child's code; no listener appears twice |
| `Spork.VerboseDoesNotUnquiet` | lib/spork.js:41-55 | with both `verbose` and `quiet` set, the flags say verbose and still nothing is forwarded |
| `Spork.ChildCodeBecomesParentCode` | lib/spork.js:77-81 | every non-forwarding listener, on `exit:code` or `error:code`, ends the parent with exactly the child's code; forwarding listeners never end it |
| `Spork.Wire` | lib/spork.js:55-81 | installs exactly the listeners of `Wiring` after those already there |
| `Spork.SporkModule.constructor` | lib/spork.js:12-13 | module load: empty `children` and empty `exitOptions`, handed to the exit hooks, which track that very array |
| `Spork.SporkModule.SetExitFlags` | lib/spork.js:38-46 | `exitOptions` gets `quiet` and `verbose` as `ExitFlags` decides, other properties unchanged |
| `Spork.SporkModule.Spork` | lib/spork.js:35-86 | the child has argv `Argv(command, args)`, options `MonitorOptions(options)` and listeners `Wiring(options)`, is started, and is appended at the end of `children` with earlier entries unchanged; tracked children stay distinct |
| `Spork.InterruptKillsEachChildOnce` | lib/exit.js:21-28 | two children launched and a SIGINT: each is killed exactly once, the hooks hold a new empty array, the module's array still lists both |
| `Spork.ChildLaunchedAfterCleanupIsNotKilled` | lib/exit.js:27 | after a cleanup a newly launched child lands in the module's array only, and the next SIGINT does not kill it |
| `Index.Shift` | index.js:35-39 | an object in the `args` position becomes the options and leaves no arguments; anything else leaves `args` and `options` in place (lemma: `Index.OptionsInArgsPosition`) |
| `Index.OptionsInArgsPosition` | index.js:35-41 | a plain object in the `args` position becomes the options and argv is just `[command]` |
| `Index.Unquieted` | index.js:46-50 | a truthy `verbose` overwrites the caller's `quiet` with false; no other property changes, nor do the monitor options |
| `Index.VerboseForwardsOutput` | index.js:49-60 | with `verbose` set, streams are forwarded as if `quiet` were absent |
| `Forever.ExitCodeReaction` | index.js:87-91 | code 0 asks for `process.exit()` iff `exit` is `true`, 'always' or 'success'; another code c asks for `process.exit(c)` iff `exit` is falsy or `true`, 'always' or 'failure'; otherwise nothing |
| `Index.ParentOnChildExit` | index.js:81-91 | the parent calls `process.exit()` iff the code is 0 and `exit` is `true`, 'always' or 'success'; it calls `process.exit(code)` iff the code is not 0, `exit` is not `false`, and it is falsy or `true`, 'always' or 'failure'; otherwise the parent stays (lemma: `Index.ExitOptionTable`) |
| `Index.ExitOptionTable` | index.js:81-92 | `false` never ends the parent; `true` behaves as 'always'; a missing `exit` behaves as 'failure'; 'always', 'success' and 'failure' act on every code, on 0 only, and on other codes only |
| `Index.UnknownExitOptionNeverExits` | index.js:87-91 | any other truthy `exit` value never ends the parent |
| `Index.ExitFalseReliesOnTheGuard` | index.js:81-89 | for every non-zero code, the listener's own test would end the parent when `exit` is `false`; the `exit !== false` guard is what keeps it running |
| `Index.ExitFalseOnlyForwards` | index.js:59-93 | with `exit === false` every listener forwards a stream; none can end the parent |
| `Index.Wiring` | index.js:59-93 | streams are forwarded as `Forwarding` decides; an `exit:code` listener exists iff `options.exit !== false`, and it consults the options object; exactly the listeners on stream events forward, and the only other one is on `exit:code`; there is no `error:code` listener; no listener appears twice |
| `Index.ListenersReadExitWhenFired` | index.js:81-92 | when the child exits, the `exit:code` listener decides by the `exit` value the options object holds then; no other listener ends the parent |
| `Index.ChildExitFollowsExitOption` | index.js:81-92 | with the options unchanged since the call, the `exit:code` listener fires `ParentOnChildExit` of the `exit` option, and with `exit === false` no listener ends the parent |
| `Index.Wire` | index.js:59-93 | installs exactly the listeners of `Wiring` after those already there |
| `Index.ExitOptions.constructor` | index.js:12 | `exitOptions` starts with no children and no flags |
| `Index.IndexModule.constructor` | index.js:101 | the module's `exitOptions` is the object handed to node-clean-exit |
| `Index.IndexModule.ApplyVerbose` | index.js:43-50 | `exitOptions.quiet` becomes false; `exitOptions.verbose` is the caller's `verbose` when truthy and false otherwise; the caller's options become `Unquieted` |
| `Index.IndexModule.Spork` | index.js:34-99 | after shifting, the options object is the caller's or a new one, and it is `Unquieted`; the child has argv `Argv(command, args)`, the monitor options and listeners `Wiring`, is started, and is appended to `exitOptions.children` with earlier entries unchanged |

## Left out

- Spawning and monitoring the child are the job of `forever-monitor`. Its events, their order and their data are not modelled. The model records how each monitor is configured and wired.
- Writing to `process.stdin`, `process.stdout` and `process.stderr` is I/O, and so is all logging: `console.log`, `console.error`, `chalk`, `pluralize`, and the `verbose > 1` message at index.js:83-85. The handler's `options` argument is only read for logging, so it is kept and never read.
- node-clean-exit is not part of this model. Only the fact that `exitOptions` is handed to it is recorded.
- `process.stdin.resume()` at lib/exit.js:9 only keeps the event loop alive, and is left out.
- Node's event loop and the timing of events are left out. `process.exit` is a request returned by the handler. Only its synchronous re-emission of `exit` is modelled, as one more handler call in `ExitHook.Handler.Run`.
- `ExitHook.ExitStatus`: when `process.exit` gets no code it uses `process.exitCode`, which spork never sets, so the model takes 0. A non-numeric code is also taken as 0. The hooks as registered only ever ask for code 1.
- `_.invoke(children, 'kill')` is modelled as calling `kill` on every element, as lodash 3 does. Under lodash 4, `_.invoke` would call a `kill` method of the array itself. The lodash version in use is not part of this model. What `kill` does to the child is also left out; each call is recorded in the handler's log.
- Numbers are integers. NaN, fractions and -0 are not modelled, so `Truthy` of a number is "not zero".
- `Launch.IsOptionsArgument`: the `options` argument is documented as an object. It may also be any falsy value, which `options || {}` replaces. A truthy non-object in that position (a string, a number, an array) is outside the model.
- `_.union` ignores non-array `args`, and so does the model. Array-like objects with a `length` property, which lodash would also flatten, are not modelled. Arguments that are arrays are compared by value, whereas lodash compares them by reference.
- Delivering monitor events is left to the monitor library. The `exit:code` listener of index.js reads `options.exit` when it fires, so a caller who changes the option after the call changes the outcome. `Forever.Fire` reads the options object recorded on the listener, and `Index.ListenersReadExitWhenFired` states the outcome for whatever value it holds then.
- `Index.Shift`: every object is modelled as a plain object holding its enumerable own properties. A non-plain object in the `args` position is therefore outside the model; such objects include class instances, `Error`s and `Date`s, which `_.isPlainObject` rejects and index.js:35 leaves in place. An error is likewise represented by an object whose properties hold `stack`, although on a real `Error` that property is not enumerable (`ExitHook.HasStack`).
- `Spork.SporkModule.Spork` reads the caller's options once, at the start of the call. The source reads them several times during the call; nothing in between can change them.
