/** The child handle: a `forever.Monitor` as far as the launcher uses it. Spawning, watching
    and the order in which the monitor emits its events belong to the monitor library and are
    not modelled; a monitor here only records how it was configured and wired. */
module Forever {
  import opened Js

  /** The monitor events the launcher listens to. */
  datatype MonitorEvent = StdinData | StdoutData | StderrData | ExitCodeEvent | ErrorCodeEvent

  /** The events that carry the child's stream data ('stdin', 'stdout', 'stderr'). */
  predicate IsStreamEvent(e: MonitorEvent) {
    e.StdinData? || e.StdoutData? || e.StderrData?
  }

  /** What a listener installed by the launcher does when its event fires. */
  datatype Action =
    | Pipe                                // write the data to the parent's stream of the same name
    | ApplyExitOption(options: JsObject)  // consult `options.exit` when the child exits (index.js)
    | ExitWithChildCode                   // `_.ary(process.exit, 1)`: exit the parent with the child's code

  datatype Listener = Listener(event: MonitorEvent, action: Action)

  /** The `exit` values for which a zero exit code ends the parent (`process.exit()`). */
  const SuccessExits: seq<JsValue> := [Bool(true), Str("always"), Str("success")]
  /** The `exit` values, besides the falsy ones, for which a non-zero code ends the parent
      with that code. */
  const FailureExits: seq<JsValue> := [Bool(true), Str("always"), Str("failure")]

  /** The `exit:code` listener's decision for the child's exit code. */
  function ExitCodeReaction(exitOption: JsValue, code: JsValue): (r: Option<ExitRequest>)
    ensures r == Some(ExitNoCode) <==> code == Num(0) && exitOption in SuccessExits
    ensures r == Some(ExitCode(code)) <==> code != Num(0) && (!Truthy(exitOption) || exitOption in FailureExits)
    ensures r == None || r == Some(ExitNoCode) || r == Some(ExitCode(code))
  {
    if code == Num(0) && exitOption in SuccessExits then Some(ExitNoCode)
    else if code != Num(0) && (!Truthy(exitOption) || exitOption in FailureExits) then Some(ExitCode(code))
    else None
  }

  /** What a listener asks of the parent when its event fires with the child's `code`:
      forwarding never ends the parent, `_.ary(process.exit, 1)` passes the code on, and the
      index.js listener reads `options.exit` at that moment and decides by `ExitCodeReaction`. */
  function Fire(a: Action, code: JsValue): (r: Option<ExitRequest>)
    reads if a.ApplyExitOption? then {a.options} else {}
    ensures a.Pipe? ==> r == None
    ensures a.ExitWithChildCode? ==> r == Some(ExitCode(code))
    ensures r == None || r == Some(ExitNoCode) || r == Some(ExitCode(code))
  {
    match a
    case Pipe => None
    case ExitWithChildCode => Some(ExitCode(code))
    case ApplyExitOption(options) => ExitCodeReaction(Prop(options.props, "exit"), code)
  }

  class Monitor {
    /** The argv the monitor runs: the command followed by its arguments. */
    const argv: seq<JsValue>
    /** The options object handed to the monitor. */
    const options: map<string, JsValue>
    /** The listeners installed with `on`, in installation order. */
    var listeners: seq<Listener>
    var started: bool

    /** `new forever.Monitor(argv, options)` */
    constructor (argv: seq<JsValue>, options: map<string, JsValue>)
      ensures this.argv == argv && this.options == options
      ensures listeners == [] && !started
    {
      this.argv := argv;
      this.options := options;
      listeners := [];
      started := false;
    }

    /** `monitor.on(event, action)` */
    method On(l: Listener)
      modifies this
      ensures listeners == old(listeners) + [l] && started == old(started)
    {
      listeners := listeners + [l];
    }

    /** `monitor.start()` */
    method Start()
      modifies this
      ensures started && listeners == old(listeners)
    {
      started := true;
    }
  }
}
