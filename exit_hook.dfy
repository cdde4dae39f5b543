/** lib/exit.js: the process hooks that kill every tracked child when the parent goes away. */
module ExitHook {
  import opened Js
  import opened Forever

  /** A JavaScript array of child handles; shared by reference between its owner and the hooks. */
  class ChildArray {
    var items: seq<Monitor>

    constructor (items: seq<Monitor>)
      ensures this.items == items
    {
      this.items := items;
    }

    /** `array.push(child)` */
    method Push(child: Monitor)
      modifies this
      ensures items == old(items) + [child]
    {
      items := items + [child];
    }
  }

  /** A process event the hooks listen to, with the argument Node passes to its listeners. */
  datatype ProcessEvent =
    | Exit(code: int)                   // 'exit', with the exit code
    | SigInt                            // 'SIGINT', with the signal name
    | UncaughtException(err: JsValue)   // 'uncaughtException', with the thrown value

  /** A registered process listener: the event name and the first argument bound to the
      handler with `_.partial`, if any. */
  datatype Hook = Hook(event: string, bound: Option<JsValue>)

  /** Whether the process ends after an event has been handled, and with which status. */
  datatype Fate = KeepsRunning | Terminates(status: int)

  /** `err && err.stack` */
  function HasStack(err: JsValue): (b: bool)
    reads ObjectsOf(err)
    ensures b <==> err.Ref? && Truthy(Prop(err.obj.props, "stack"))
  {
    Truthy(err) && Truthy(Get(err, "stack"))
  }

  /** The status `process.exit` ends the process with; a non-numeric code is not modelled
      and counts as 0, as does a missing one (`process.exitCode` is never set here). */
  function ExitStatus(r: ExitRequest): int {
    if r.ExitCode? && r.code.Num? then r.code.n else 0
  }

  /** What `exit(children, options)` leaves behind: the three registered listeners and the
      state their shared `exitHandler` closes over. */
  class Handler {
    /** The closure variable `children`: at first the caller's array, after a cleanup a new empty one. */
    var children: ChildArray
    /** The caller's options; only read for logging, which is not modelled. */
    const options: JsObject
    /** The objects bound to the handler for SIGINT and for uncaughtException. */
    const sigintData: JsObject
    const uncaughtData: JsObject
    /** The listeners registered on the process, in registration order. */
    const hooks: seq<Hook>
    /** Every `kill` invoked so far, in order. */
    ghost var killLog: seq<Monitor>

    ghost predicate Valid()
      reads sigintData, uncaughtData
    {
      && sigintData.props == map["exitCode" := Num(2)]
      && uncaughtData.props == map["exitCode" := Num(99)]
      && hooks == [Hook("exit", None),
                   Hook("SIGINT", Some(Ref(sigintData))),
                   Hook("uncaughtException", Some(Ref(uncaughtData)))]
    }

    /** `exit(children, options)`: registers one listener for 'exit' with nothing bound, and
        listeners for 'SIGINT' and 'uncaughtException' with `{exitCode: 2}` and
        `{exitCode: 99}` bound as their first argument. */
    constructor (children: ChildArray, options: JsObject)
      ensures Valid() && fresh(sigintData) && fresh(uncaughtData)
      ensures |hooks| == 3
      ensures hooks[0] == Hook("exit", None)
      ensures hooks[1].event == "SIGINT" && hooks[1].bound == Some(Ref(sigintData))
      ensures sigintData.props == map["exitCode" := Num(2)]
      ensures hooks[2].event == "uncaughtException" && hooks[2].bound == Some(Ref(uncaughtData))
      ensures uncaughtData.props == map["exitCode" := Num(99)]
      ensures this.children == children && this.options == options && killLog == []
    {
      this.children := children;
      this.options := options;
      var sigint := new JsObject(map["exitCode" := Num(2)]);
      var uncaught := new JsObject(map["exitCode" := Num(99)]);
      sigintData := sigint;
      uncaughtData := uncaught;
      hooks := [Hook("exit", None),
                Hook("SIGINT", Some(Ref(sigint))),
                Hook("uncaughtException", Some(Ref(uncaught)))];
      killLog := [];
    }

    /** `exitHandler(exitData, err)`. An error with a stack asks for `process.exit(1)` at once,
        which ends this call. Otherwise every tracked child is killed once, in order, and the
        closure variable is rebound to a new empty array (the caller's array is left as it is);
        then `process.exit(exitData.exit)` is asked for when that property is truthy. */
    method Handle(exitData: JsValue, err: JsValue) returns (request: Option<ExitRequest>)
      modifies this
      ensures HasStack(err) ==>
        request == Some(ExitCode(Num(1))) && children == old(children) && killLog == old(killLog)
      ensures !HasStack(err) ==>
        && killLog == old(killLog) + old(children.items)
        && children.items == []
        && (old(children.items) == [] ==> children == old(children))
        && (old(children.items) != [] ==> fresh(children))
        && request == (if Truthy(Get(exitData, "exit")) then Some(ExitCode(Get(exitData, "exit"))) else None)
    {
      if HasStack(err) {
        request := Some(ExitCode(Num(1)));
        return;
      }
      if |children.items| > 0 {
        var tracked := children.items;
        var i := 0;
        while i < |tracked|
          invariant 0 <= i <= |tracked|
          invariant children == old(children)
          invariant killLog == old(killLog) + tracked[..i]
        {
          killLog := killLog + [tracked[i]];
          i := i + 1;
        }
        children := new ChildArray([]);
      }
      var code := Get(exitData, "exit");
      if Truthy(code) {
        request := Some(ExitCode(code));
      } else {
        request := None;
      }
    }

    /** The process emits `e`: the listener registered for it calls the handler, with its
        bound argument first when it has one. As registered, only an uncaught error with a
        stack asks for an exit; `exitData.exit` is never set, since the bound objects carry
        `exitCode` instead. */
    method Emit(e: ProcessEvent) returns (request: Option<ExitRequest>)
      requires Valid()
      modifies this
      ensures Valid()
      ensures request == if e.UncaughtException? && HasStack(e.err) then Some(ExitCode(Num(1))) else None
      ensures request.Some? ==> killLog == old(killLog) && children == old(children)
      ensures request.None? ==>
        && killLog == old(killLog) + old(children.items)
        && children.items == []
        && (old(children.items) == [] ==> children == old(children))
        && (old(children.items) != [] ==> fresh(children))
    {
      var hook, payload;
      match e {
        case Exit(code) => hook, payload := hooks[0], Num(code);
        case SigInt => hook, payload := hooks[1], Str("SIGINT");
        case UncaughtException(err) => hook, payload := hooks[2], err;
      }
      if hook.bound.Some? {
        request := Handle(hook.bound.value, payload);
      } else {
        request := Handle(payload, Undefined);
      }
    }

    /** The process emits `e` and goes on until the event is over. A `process.exit` request
        emits 'exit' once more (re-entering the handler) and ends the process. A listener on
        SIGINT or uncaughtException replaces Node's default of ending the process, so after
        those the process keeps running unless the handler itself asked for an exit. On every
        path every child tracked when the event arrives is killed once before the event is
        over; when the handler asks for an exit first, the re-entered 'exit' listener does it. */
    method Run(e: ProcessEvent) returns (fate: Fate)
      requires Valid()
      modifies this
      ensures Valid()
      ensures killLog == old(killLog) + old(children.items)
      ensures children.items == []
      ensures old(children.items) == [] ==> children == old(children)
      ensures old(children.items) != [] ==> fresh(children)
      ensures fate == match e
        case Exit(code) => Terminates(code)
        case SigInt => KeepsRunning
        case UncaughtException(err) => if HasStack(err) then Terminates(1) else KeepsRunning
    {
      var request := Emit(e);
      match request {
        case None =>
          fate := if e.Exit? then Terminates(e.code) else KeepsRunning;
        case Some(r) =>
          var status := ExitStatus(r);
          var _ := Emit(Exit(status));
          fate := Terminates(status);
      }
    }

    /** Cleanup is idempotent: with nothing pushed in between, a second event kills nothing more. */
    method RunTwice(e1: ProcessEvent, e2: ProcessEvent) returns (fate1: Fate, fate2: Fate)
      requires Valid()
      modifies this
      ensures Valid()
      ensures killLog == old(killLog) + old(children.items)
      ensures children.items == []
    {
      fate1 := Run(e1);
      fate2 := Run(e2);
    }
  }
}
