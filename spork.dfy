/** lib/spork.js: launch one monitored child, wire its streams and exit codes to the parent,
    and track it in the array the exit hooks were given. */
module Spork {
  import opened Js
  import opened Lodash
  import opened Forever
  import opened Launch
  import opened ExitHook

  /** The `quiet` and `verbose` flags a call leaves in the shared `exitOptions`. */
  datatype Flags = Flags(quiet: bool, verbose: bool)

  /** Verbose wins over quiet; the two flags are never both set. */
  function ExitFlags(verbose: JsValue, quiet: JsValue): (f: Flags)
    ensures f.verbose <==> Truthy(verbose)
    ensures f.quiet <==> !Truthy(verbose) && Truthy(quiet)
    ensures !(f.quiet && f.verbose)
  {
    if Truthy(verbose) then Flags(false, true)
    else if Truthy(quiet) then Flags(true, false)
    else Flags(false, false)
  }

  /** The listeners a call installs on its child, given the caller's options. */
  function Wiring(props: map<string, JsValue>): (r: seq<Listener>)
    ensures var f := Forwarding(Prop(props, "quiet"), Prop(props, "stdio"));
      && (Listener(StdinData, Pipe) in r <==> f.stdin)
      && (Listener(StdoutData, Pipe) in r <==> f.stdout)
      && (Listener(StderrData, Pipe) in r <==> f.stderr)
    ensures Listener(ExitCodeEvent, ExitWithChildCode) in r <==> Truthy(Prop(props, "exit"))
    ensures Listener(ErrorCodeEvent, ExitWithChildCode) in r
    ensures forall l :: l in r ==> l.action == Pipe || l.action == ExitWithChildCode
    ensures forall l :: l in r ==> (l.action == Pipe <==> IsStreamEvent(l.event))
    ensures NoDuplicates(r)
  {
    PipeListeners(Forwarding(Prop(props, "quiet"), Prop(props, "stdio")))
    + (if Truthy(Prop(props, "exit")) then [Listener(ExitCodeEvent, ExitWithChildCode)] else [])
    + [Listener(ErrorCodeEvent, ExitWithChildCode)]
  }

  /** Here `verbose` does not clear `quiet`: with both set, the flags say verbose and yet no
      stream is forwarded. */
  lemma VerboseDoesNotUnquiet(props: map<string, JsValue>)
    requires Truthy(Prop(props, "verbose")) && Truthy(Prop(props, "quiet"))
    ensures ExitFlags(Prop(props, "verbose"), Prop(props, "quiet")) == Flags(false, true)
    ensures forall l :: l in Wiring(props) ==> l.action != Pipe
  {
  }

  /** Every listener that does not forward a stream ends the parent with exactly the child's
      code, whether the child exited or failed to start. */
  lemma ChildCodeBecomesParentCode(props: map<string, JsValue>, code: JsValue)
    ensures forall l :: l in Wiring(props) ==>
      Fire(l.action, code) == if IsStreamEvent(l.event) then None else Some(ExitCode(code))
  {
  }

  /** Installs the listeners of `Wiring(props)` on a new child, in the order the source does. */
  method Wire(child: Monitor, props: map<string, JsValue>)
    modifies child
    ensures child.listeners == old(child.listeners) + Wiring(props)
    ensures child.started == old(child.started)
  {
    WireStreams(child, Forwarding(Prop(props, "quiet"), Prop(props, "stdio")));
    if Truthy(Prop(props, "exit")) {
      child.On(Listener(ExitCodeEvent, ExitWithChildCode));
    }
    child.On(Listener(ErrorCodeEvent, ExitWithChildCode));
  }

  /** The module's state: the `children` array and the `exitOptions` object it hands to the
      exit hooks when it is loaded, and those hooks. */
  class SporkModule {
    const children: ChildArray
    const exitOptions: JsObject
    const handler: Handler

    ghost predicate Valid()
      reads children, exitOptions, handler.sigintData, handler.uncaughtData
    {
      && handler.Valid()
      && handler.options == exitOptions
      && exitOptions != handler.sigintData && exitOptions != handler.uncaughtData
      && NoDuplicates(children.items)
    }

    /** Module load: `children = []`, `exitOptions = {}`, then `exit(children, exitOptions)`. */
    constructor ()
      ensures Valid() && fresh(children) && fresh(exitOptions) && fresh(handler)
      ensures children.items == [] && exitOptions.props == map[]
      ensures handler.children == children && handler.killLog == []
    {
      var c := new ChildArray([]);
      var o := new JsObject(map[]);
      children := c;
      exitOptions := o;
      handler := new Handler(c, o);
    }

    /** Resets `exitOptions.quiet` and `exitOptions.verbose` to false, then sets `verbose`
        when the caller's `verbose` is truthy, and otherwise `quiet` when the caller's is. */
    method SetExitFlags(verbose: JsValue, quiet: JsValue)
      modifies exitOptions
      ensures var f := ExitFlags(verbose, quiet);
        exitOptions.props == old(exitOptions.props)["quiet" := Bool(f.quiet)]["verbose" := Bool(f.verbose)]
    {
      ghost var before := exitOptions.props;
      exitOptions.props := exitOptions.props["quiet" := Bool(false)]["verbose" := Bool(false)];
      if Truthy(verbose) {
        exitOptions.props := exitOptions.props["verbose" := Bool(true)];
        assert exitOptions.props == before["quiet" := Bool(false)]["verbose" := Bool(true)];
      } else if Truthy(quiet) {
        exitOptions.props := exitOptions.props["quiet" := Bool(true)];
        assert exitOptions.props == before["quiet" := Bool(true)]["verbose" := Bool(false)];
      }
    }

    /** `spork(command, args, options)`: the child runs `_.union([command], args || [])` with
        the default monitor options overridden by the caller's non-custom ones; the flags are
        reset and then set from `verbose` and `quiet`; the child is started and appended to
        `children`. */
    method Spork(command: JsValue, args: JsValue, options: JsValue) returns (child: Monitor)
      requires Valid() && IsOptionsArgument(options)
      modifies children, exitOptions
      ensures Valid() && fresh(child)
      ensures children.items == old(children.items) + [child]
      ensures var f := ExitFlags(old(Get(options, "verbose")), old(Get(options, "quiet")));
        exitOptions.props == old(exitOptions.props)["quiet" := Bool(f.quiet)]["verbose" := Bool(f.verbose)]
      ensures child.argv == Argv(command, args)
      ensures child.options == MonitorOptions(old(Props(options)))
      ensures child.listeners == Wiring(old(Props(options)))
      ensures child.started
    {
      var argv := Argv(command, args);
      var props := Props(options);
      SetExitFlags(Prop(props, "verbose"), Prop(props, "quiet"));
      child := new Monitor(argv, MonitorOptions(props));
      Wire(child, props);
      child.Start();
      children.Push(child);
    }
  }

  /** One more child launched; the hooks keep whichever array they were tracking. */
  method LaunchTracked(m: SporkModule, command: JsValue, args: JsValue) returns (child: Monitor)
    requires m.Valid()
    modifies m.children, m.exitOptions
    ensures m.Valid() && fresh(child)
    ensures m.handler.children == old(m.handler.children)
    ensures m.children.items == old(m.children.items) + [child]
  {
    child := m.Spork(command, args, Undefined);
  }

  /** A freshly loaded module that has launched two children, both still tracked by the hooks. */
  method LaunchTwo(command: JsValue, args: JsValue)
    returns (m: SporkModule, first: Monitor, second: Monitor)
    ensures fresh(m) && fresh(m.handler) && m.Valid()
    ensures first != second
    ensures m.handler.killLog == []
    ensures m.children.items == [first, second]
    ensures m.handler.children == m.children
  {
    m := new SporkModule();
    first := LaunchTracked(m, command, args);
    second := LaunchTracked(m, command, args);
  }

  /** Two children launched, then SIGINT: each is killed exactly once, the hooks now hold a
      new empty array, and the module's own array still lists both. */
  method InterruptKillsEachChildOnce(command: JsValue, args: JsValue)
    returns (m: SporkModule, first: Monitor, second: Monitor)
    ensures m.Valid()
    ensures first != second
    ensures m.handler.killLog == [first, second]
    ensures m.children.items == [first, second]
    ensures m.handler.children != m.children && m.handler.children.items == []
  {
    m, first, second := LaunchTwo(command, args);
    var fate := m.handler.Run(SigInt);
  }

  /** After a cleanup, a child launched goes into the module's array, which the hooks no
      longer hold: the next SIGINT kills nothing and the child keeps running. */
  method ChildLaunchedAfterCleanupIsNotKilled(m: SporkModule, command: JsValue, args: JsValue)
    returns (third: Monitor)
    requires m.Valid()
    requires m.handler.children != m.children && m.handler.children.items == []
    modifies m.children, m.exitOptions, m.handler
    ensures m.Valid()
    ensures m.children.items == old(m.children.items) + [third]
    ensures m.handler.killLog == old(m.handler.killLog)
    ensures third !in m.handler.killLog
  {
    third := m.Spork(command, args, Undefined);
    var fate := m.handler.Run(SigInt);
  }
}
