/** The launch decisions that index.js and lib/spork.js make with the same code: the argv,
    the options handed to the monitor, and which standard streams are forwarded. */
module Launch {
  import opened Js
  import opened Lodash
  import opened Forever

  /** The options argument is documented as an object; it may also be left out
      (`undefined`) or be any other falsy value, which `options || {}` replaces. */
  predicate IsOptionsArgument(options: JsValue) {
    options.Ref? || !Truthy(options)
  }

  /** The elements `_.union` takes from `args || []`: those of an array, none from any other value. */
  function ArgItems(args: JsValue): seq<JsValue> {
    if args.Arr? then args.elems else []
  }

  /** The argv of the child: `_.union([command], args || [])`. */
  function Argv(command: JsValue, args: JsValue): (argv: seq<JsValue>)
    ensures |argv| > 0 && argv[0] == command
    ensures NoDuplicates(argv)
    ensures forall i :: 0 <= i < |argv| ==> argv[i] == command || argv[i] in ArgItems(args)
    ensures forall i :: 0 <= i < |ArgItems(args)| ==> ArgItems(args)[i] in argv
  {
    assert ([command] + ArgItems(args))[0] == command;
    assert forall i :: 0 <= i < |ArgItems(args)| ==> ArgItems(args)[i] == ([command] + ArgItems(args))[i + 1];
    Uniq([command] + ArgItems(args))
  }

  /** The argv lists the command and the arguments in the order of their first occurrence. */
  lemma ArgvInFirstOccurrenceOrder(command: JsValue, args: JsValue)
    ensures forall i, j :: 0 <= i < j < |Argv(command, args)| ==>
      FirstIndex([command] + ArgItems(args), Argv(command, args)[i])
        < FirstIndex([command] + ArgItems(args), Argv(command, args)[j])
  {
    UniqKeepsFirstOccurrenceOrder([command] + ArgItems(args));
  }

  /** Arguments that are distinct and do not repeat the command are passed through unchanged. */
  lemma ArgvOfDistinctArgs(command: JsValue, args: seq<JsValue>)
    requires NoDuplicates(args) && command !in args
    ensures Argv(command, Arr(args)) == [command] + args
  {
    UniqOfDistinct([command] + args);
  }

  /** The launcher's own options, which are never handed to the monitor. */
  const CustomOptions: set<string> := {"exit", "quiet", "stdio", "verbose"}

  /** The monitor options the launcher supplies unless the caller overrides them. */
  const MonitorDefaults: map<string, JsValue> := map["max" := Num(1), "silent" := Bool(true), "watch" := Bool(false)]

  /** `_.extend({max: 1, silent: true, watch: false}, _.omit(options, customOptions))` */
  function MonitorOptions(props: map<string, JsValue>): (r: map<string, JsValue>)
    ensures forall k :: k in CustomOptions ==> k !in r
    ensures forall k :: k in props && k !in CustomOptions ==> k in r && r[k] == props[k]
    ensures forall k :: k in MonitorDefaults && k !in props ==> k in r && r[k] == MonitorDefaults[k]
    ensures r.Keys == MonitorDefaults.Keys + (props.Keys - CustomOptions)
  {
    Extend(MonitorDefaults, Omit(props, CustomOptions))
  }

  const STDIN: nat := 0
  const STDOUT: nat := 1
  const STDERR: nat := 2

  /** Which of the child's stdin, stdout and stderr are forwarded to the parent. */
  datatype Streams = Streams(stdin: bool, stdout: bool, stderr: bool)

  /** `stdio[fd] === 'inherit'` on the array actually used for `stdio`. */
  predicate InheritsAt(stdio: seq<JsValue>, fd: nat) {
    fd < |stdio| && stdio[fd] == Str("inherit")
  }

  /** The streams forwarded given `options.quiet` and `options.stdio`: nothing when quiet;
      otherwise stream i exactly when `stdio[i]` is 'inherit', a non-array `stdio` standing
      for three 'inherit's. */
  function Forwarding(quiet: JsValue, stdio: JsValue): (r: Streams)
    ensures Truthy(quiet) ==> r == Streams(false, false, false)
    ensures !Truthy(quiet) && !stdio.Arr? ==> r == Streams(true, true, true)
    ensures !Truthy(quiet) && stdio.Arr? ==>
      && (r.stdin <==> |stdio.elems| > 0 && stdio.elems[0] == Str("inherit"))
      && (r.stdout <==> |stdio.elems| > 1 && stdio.elems[1] == Str("inherit"))
      && (r.stderr <==> |stdio.elems| > 2 && stdio.elems[2] == Str("inherit"))
  {
    if Truthy(quiet) then Streams(false, false, false)
    else
      var used := if stdio.Arr? then stdio.elems else [Str("inherit"), Str("inherit"), Str("inherit")];
      Streams(InheritsAt(used, STDIN), InheritsAt(used, STDOUT), InheritsAt(used, STDERR))
  }

  /** The listeners that forward the chosen streams, installed in the order stdin, stdout, stderr. */
  function PipeListeners(f: Streams): (r: seq<Listener>)
    ensures forall l :: l in r ==> l.action == Pipe && IsStreamEvent(l.event)
    ensures Listener(StdinData, Pipe) in r <==> f.stdin
    ensures Listener(StdoutData, Pipe) in r <==> f.stdout
    ensures Listener(StderrData, Pipe) in r <==> f.stderr
    ensures NoDuplicates(r)
  {
    (if f.stdin then [Listener(StdinData, Pipe)] else [])
    + (if f.stdout then [Listener(StdoutData, Pipe)] else [])
    + (if f.stderr then [Listener(StderrData, Pipe)] else [])
  }

  /** Installs one forwarding listener per chosen stream. */
  method WireStreams(child: Monitor, f: Streams)
    modifies child
    ensures child.listeners == old(child.listeners) + PipeListeners(f)
    ensures child.started == old(child.started)
  {
    if f.stdin {
      child.On(Listener(StdinData, Pipe));
    }
    if f.stdout {
      child.On(Listener(StdoutData, Pipe));
    }
    if f.stderr {
      child.On(Listener(StderrData, Pipe));
    }
  }
}
