/** index.js: the published `spork`. Like lib/spork.js it launches one monitored child, but it
    accepts the options in the `args` position, lets `verbose` clear the caller's `quiet`,
    maps the child's exit code to the parent's through the `exit` option, and keeps its
    children in `exitOptions.children` for node-clean-exit. */
module Index {
  import opened Js
  import opened Lodash
  import opened Forever
  import opened Launch

  /** The arguments after shifting: a plain object in the `args` position is the options,
      and `args` becomes `null`. */
  function Shift(args: JsValue, options: JsValue): (r: (JsValue, JsValue))
    ensures args.Ref? ==> r.1 == args && ArgItems(r.0) == []
    ensures !args.Ref? ==> r == (args, options)
  {
    if args.Ref? then (Null, args) else (args, options)
  }

  /** `spork(command, options)` launches the command alone and takes its options from the
      second argument, whatever the third. */
  lemma OptionsInArgsPosition(command: JsValue, args: JsValue, options: JsValue)
    requires args.Ref?
    ensures Shift(args, options).1 == args
    ensures Argv(command, Shift(args, options).0) == [command]
  {
  }

  /** The caller's options after `spork` has looked at them: a truthy `verbose` overwrites
      `quiet` with false; nothing else changes, and the monitor options stay the same. */
  function Unquieted(props: map<string, JsValue>): (r: map<string, JsValue>)
    ensures Truthy(Prop(props, "verbose")) ==> Prop(r, "quiet") == Bool(false)
    ensures !Truthy(Prop(props, "verbose")) ==> r == props
    ensures forall k :: k != "quiet" ==> Prop(r, k) == Prop(props, k)
    ensures MonitorOptions(r) == MonitorOptions(props)
  {
    var r := if Truthy(Prop(props, "verbose")) then props["quiet" := Bool(false)] else props;
    assert Omit(r, CustomOptions) == Omit(props, CustomOptions);
    r
  }

  /** With `verbose` set, the streams are forwarded as if `quiet` had not been given. */
  lemma VerboseForwardsOutput(props: map<string, JsValue>)
    requires Truthy(Prop(props, "verbose"))
    ensures Forwarding(Prop(Unquieted(props), "quiet"), Prop(Unquieted(props), "stdio"))
         == Forwarding(Undefined, Prop(props, "stdio"))
  {
  }

  /** What the parent does when the child exits with `code`: with `exit === false` no
      listener is installed, otherwise the listener decides. */
  function ParentOnChildExit(exitOption: JsValue, code: JsValue): (r: Option<ExitRequest>)
    ensures r == Some(ExitNoCode) <==> code == Num(0) && exitOption in SuccessExits
    ensures r == Some(ExitCode(code)) <==>
      code != Num(0) && exitOption != Bool(false) && (!Truthy(exitOption) || exitOption in FailureExits)
    ensures r == None || r == Some(ExitNoCode) || r == Some(ExitCode(code))
  {
    if exitOption == Bool(false) then None else ExitCodeReaction(exitOption, code)
  }

  /** The documented meaning of the `exit` option: `false` never ends the parent, `true` is
      an alias for 'always', leaving it out means 'failure', 'always' ends the parent on every
      exit, 'success' only on code 0 and 'failure' only on other codes, passing the code on. */
  lemma ExitOptionTable(code: JsValue)
    ensures ParentOnChildExit(Bool(false), code) == None
    ensures ParentOnChildExit(Bool(true), code) == ParentOnChildExit(Str("always"), code)
    ensures ParentOnChildExit(Undefined, code) == ParentOnChildExit(Str("failure"), code)
    ensures ParentOnChildExit(Str("always"), code) == if code == Num(0) then Some(ExitNoCode) else Some(ExitCode(code))
    ensures ParentOnChildExit(Str("success"), code) == if code == Num(0) then Some(ExitNoCode) else None
    ensures ParentOnChildExit(Str("failure"), code) == if code == Num(0) then None else Some(ExitCode(code))
  {
  }

  /** Any other truthy `exit` value never ends the parent. */
  lemma UnknownExitOptionNeverExits(exitOption: JsValue, code: JsValue)
    requires Truthy(exitOption)
    requires exitOption !in SuccessExits && exitOption !in FailureExits
    ensures ParentOnChildExit(exitOption, code) == None
  {
  }

  /** The `exit === false` guard is what keeps `false` from acting like the other falsy
      values: without it the listener would end the parent on a failing child. */
  lemma ExitFalseReliesOnTheGuard(code: JsValue)
    requires code != Num(0)
    ensures ExitCodeReaction(Bool(false), code) == Some(ExitCode(code))
    ensures ParentOnChildExit(Bool(false), code) == None
  {
  }

  /** The listeners a call installs on its child, given the options after `verbose` has been
      applied; `options` is the object the exit listener consults when it fires. */
  function Wiring(props: map<string, JsValue>, options: JsObject): (r: seq<Listener>)
    ensures var f := Forwarding(Prop(props, "quiet"), Prop(props, "stdio"));
      && (Listener(StdinData, Pipe) in r <==> f.stdin)
      && (Listener(StdoutData, Pipe) in r <==> f.stdout)
      && (Listener(StderrData, Pipe) in r <==> f.stderr)
    ensures Listener(ExitCodeEvent, ApplyExitOption(options)) in r <==> Prop(props, "exit") != Bool(false)
    ensures forall l :: l in r ==> l.event != ErrorCodeEvent
    ensures forall l :: l in r ==> l.action == Pipe || l.action == ApplyExitOption(options)
    ensures forall l :: l in r ==> (l.action == Pipe <==> IsStreamEvent(l.event))
    ensures forall l :: l in r && l.action != Pipe ==> l.event == ExitCodeEvent
    ensures NoDuplicates(r)
  {
    PipeListeners(Forwarding(Prop(props, "quiet"), Prop(props, "stdio")))
    + (if Prop(props, "exit") != Bool(false) then [Listener(ExitCodeEvent, ApplyExitOption(options))] else [])
  }

  /** With `exit === false` the child only has its streams forwarded: no listener can end
      the parent. */
  lemma ExitFalseOnlyForwards(props: map<string, JsValue>, options: JsObject)
    requires Prop(props, "exit") == Bool(false)
    ensures forall l :: l in Wiring(props, options) ==> l.action == Pipe && IsStreamEvent(l.event)
  {
  }

  /** When the child exits, its `exit:code` listener applies the `exit` option the options
      object holds at that moment; a listener on anything else never ends the parent. */
  lemma ListenersReadExitWhenFired(props: map<string, JsValue>, options: JsObject, code: JsValue)
    ensures forall l :: l in Wiring(props, options) ==>
      Fire(l.action, code) == if l.event == ExitCodeEvent
        then ExitCodeReaction(Prop(options.props, "exit"), code) else None
  {
  }

  /** With the options unchanged since the call, the child's exit ends the parent exactly as
      the `exit` option says: the `exit:code` listener fires `ParentOnChildExit`, and when
      `exit === false` no listener ends the parent. */
  lemma ChildExitFollowsExitOption(options: JsObject, code: JsValue)
    ensures forall l :: l in Wiring(options.props, options) && l.event == ExitCodeEvent ==>
      Fire(l.action, code) == ParentOnChildExit(Prop(options.props, "exit"), code)
    ensures Prop(options.props, "exit") == Bool(false) ==>
      forall l :: l in Wiring(options.props, options) ==> Fire(l.action, code) == None
  {
  }

  /** Installs the listeners of `Wiring(props, options)` on a new child, in the order the source does. */
  method Wire(child: Monitor, props: map<string, JsValue>, options: JsObject)
    modifies child
    ensures child.listeners == old(child.listeners) + Wiring(props, options)
    ensures child.started == old(child.started)
  {
    WireStreams(child, Forwarding(Prop(props, "quiet"), Prop(props, "stdio")));
    if Prop(props, "exit") != Bool(false) {
      child.On(Listener(ExitCodeEvent, ApplyExitOption(options)));
    }
  }

  /** The module-level `exitOptions`: the children launched so far and the last call's flags. */
  class ExitOptions {
    var children: seq<Monitor>
    var quiet: JsValue
    var verbose: JsValue

    /** `{children: []}` */
    constructor ()
      ensures children == [] && quiet == Undefined && verbose == Undefined
    {
      children := [];
      quiet := Undefined;
      verbose := Undefined;
    }
  }

  class IndexModule {
    const exitOptions: ExitOptions
    /** The object handed to node-clean-exit when the module is loaded. What that library does
        with it is not part of this model. */
    const cleanExitArgument: ExitOptions

    /** Module load: `exitOptions = {children: []}`, then `require('node-clean-exit')(exitOptions)`. */
    constructor ()
      ensures fresh(exitOptions) && cleanExitArgument == exitOptions
      ensures exitOptions.children == [] && exitOptions.quiet == Undefined && exitOptions.verbose == Undefined
    {
      var o := new ExitOptions();
      exitOptions := o;
      cleanExitArgument := o;
    }

    /** Resets `exitOptions.quiet` and `exitOptions.verbose` to false; a truthy
        `options.verbose` is then copied to `exitOptions.verbose` and clears `options.quiet`. */
    method ApplyVerbose(options: JsObject)
      modifies exitOptions, options
      ensures options.props == Unquieted(old(options.props))
      ensures exitOptions.quiet == Bool(false)
      ensures var v := Prop(old(options.props), "verbose");
        exitOptions.verbose == if Truthy(v) then v else Bool(false)
      ensures exitOptions.children == old(exitOptions.children)
    {
      exitOptions.quiet := Bool(false);
      exitOptions.verbose := Bool(false);
      var verbose := Prop(options.props, "verbose");
      if Truthy(verbose) {
        exitOptions.verbose := verbose;
        options.props := options.props["quiet" := Bool(false)];
      }
    }

    /** `spork(command, args, options)`. The options object (the caller's, or a new `{}`) has
        its `quiet` overwritten when `verbose` is truthy; `exitOptions.quiet` is reset to false
        and `exitOptions.verbose` takes a truthy `verbose` as it is; the started child is
        appended to `exitOptions.children`. */
    method Spork(command: JsValue, args: JsValue, options: JsValue) returns (child: Monitor, ghost opts: JsObject)
      requires IsOptionsArgument(Shift(args, options).1)
      modifies exitOptions, ObjectsOf(Shift(args, options).1)
      ensures fresh(child)
      ensures Truthy(Shift(args, options).1) ==> opts == Shift(args, options).1.obj
      ensures !Truthy(Shift(args, options).1) ==> fresh(opts)
      ensures opts.props == Unquieted(old(Props(Shift(args, options).1)))
      ensures exitOptions.quiet == Bool(false)
      ensures var v := Prop(old(Props(Shift(args, options).1)), "verbose");
        exitOptions.verbose == if Truthy(v) then v else Bool(false)
      ensures exitOptions.children == old(exitOptions.children) + [child]
      ensures child.argv == Argv(command, Shift(args, options).0)
      ensures child.options == MonitorOptions(old(Props(Shift(args, options).1)))
      ensures child.listeners == Wiring(opts.props, opts)
      ensures child.started
    {
      var (a, o) := Shift(args, options);
      var argv := Argv(command, a);
      var obj: JsObject;
      if Truthy(o) {
        obj := o.obj;
      } else {
        obj := new JsObject(map[]);
      }
      opts := obj;
      ApplyVerbose(obj);
      child := new Monitor(argv, MonitorOptions(obj.props));
      Wire(child, obj.props, obj);
      child.Start();
      exitOptions.children := exitOptions.children + [child];
    }
  }
}
