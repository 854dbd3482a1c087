/** The event side of custom_routes.py as it runs: the configuration switches,
    the handlers that update the registry of tasks in place and feed the event
    queue, the `EventHandler` registry, and the `send_sync` wrapper. Each
    method is proved to do what the functions of module Events specify. */
module Handlers {

  import opened Base
  import opened Text
  import opened Tasks
  import opened Channels
  import opened Events

  // ---------------------------------------------------------------------
  // `Config` and the two toggle endpoints

  /** The value a switch takes after a toggle request: "true" or "false" in
      any letter case sets it, anything else (or no `enable` parameter)
      leaves it as it was. */
  function Toggled(enable: Option<string>, current: bool): bool
  {
    if enable.None? then current
    else if Lower(enable.value) == "true" then true
    else if Lower(enable.value) == "false" then false
    else current
  }

  /** A toggle request is idempotent, and it changes the switch only when
      it names the other value. */
  lemma ToggleIdempotent(enable: Option<string>, current: bool)
    ensures Toggled(enable, Toggled(enable, current)) == Toggled(enable, current)
    ensures Toggled(enable, current) != current ==>
              enable.Some? && Lower(enable.value) == (if current then "false" else "true")
  {
  }

  class Config {
    /** `ENABLE_CUSTOM_EVENT_HANDLING` */
    var enabled: bool
    /** `ENABLE_VERBOSE_LOGGING`; it only gates log output. */
    var verbose: bool

    constructor ()
      ensures enabled && !verbose
    {
      enabled := true;
      verbose := false;
    }

    /** `toggle_event_listener`: answers with the switch's new value. */
    method ToggleEventListener(enable: Option<string>) returns (r: bool)
      modifies this`enabled
      ensures enabled == Toggled(enable, old(enabled)) && r == enabled
    {
      if enable.Some? {
        var e := Lower(enable.value);
        if e == "true" {
          enabled := true;
        } else if e == "false" {
          enabled := false;
        }
      }
      r := enabled;
    }

    /** `toggle_verbose_logging` */
    method ToggleVerboseLogging(enable: Option<string>) returns (r: bool)
      modifies this`verbose
      ensures verbose == Toggled(enable, old(verbose)) && r == verbose
    {
      if enable.Some? {
        var e := Lower(enable.value);
        if e == "true" {
          verbose := true;
        } else if e == "false" {
          verbose := false;
        }
      }
      r := verbose;
    }
  }

  // ---------------------------------------------------------------------
  // The handlers, updating the registry in place

  /** `send_workflow_progress_callback` */
  method SendWorkflowProgressCallback(tm: TaskManager, wm: WebSocketManager, pid: string, client: Json, now: nat)
    modifies tm`progressThrottle, wm`queue
    ensures var e := ProgressCallback(old(tm.Model()), pid, client, now);
            tm.Model() == e.t && wm.queue == old(wm.queue) + e.items
  {
    if pid !in tm.workflowProgress || pid !in tm.callbackUrls {
      return;
    }
    var body := ProgressBody(tm.Model(), pid, client, now);
    tm.progressThrottle := tm.progressThrottle[pid := now];
    wm.queue := wm.queue + [Callback(pid, "task_workflow_progress", body)];
  }

  /** The workflow of the first queue entry for `pid`: the loop over the
      running entries and then the pending ones, stopping at the first
      match. */
  method FindQueuedWorkflow(queue: seq<QueueEntry>, pid: string) returns (r: Option<Dict<string, Json>>)
    ensures r == FindWorkflow(queue, pid)
  {
    for i := 0 to |queue|
      invariant forall j :: 0 <= j < i ==> queue[j].pid != pid
    {
      if queue[i].pid == pid {
        return Some(queue[i].prompt);
      }
    }
    return None;
  }

  /** `_update_workflow_progress` for `execution_start`. */
  method StartTask(tm: TaskManager, wm: WebSocketManager, pid: string, client: Json,
                   queue: seq<QueueEntry>, now: nat)
    modifies tm, wm`queue
    ensures var e := Start(old(tm.Model()), pid, client, queue, now);
            tm.Model() == e.t && wm.queue == old(wm.queue) + e.items
  {
    var wf := FindQueuedWorkflow(queue, pid);
    if wf.Some? && wf.value != [] {
      tm.workflowNodes := tm.workflowNodes[pid := WorkflowNodes(|wf.value|, 0, Keys(wf.value), None, wf.value)];
    } else {
      tm.workflowNodes := tm.workflowNodes[pid := WorkflowNodes(100, 0, [], None, [])];
    }
    tm.workflowProgress := tm.workflowProgress[pid := FreshProgress];
    tm.executionOutputs := tm.executionOutputs[pid := []];
    wm.queue := wm.queue + [Callback(pid, "task_started", StartedBody(pid, client, now))];
  }

  /** `_update_workflow_progress` for `executing`. */
  method NodeExecuting(tm: TaskManager, wm: WebSocketManager, pid: string, client: Json, node: Json, now: nat)
    returns (raised: bool)
    modifies tm, wm`queue
    ensures var e := Executing(old(tm.Model()), pid, client, node, now);
            tm.Model() == e.t && wm.queue == old(wm.queue) + e.items && raised == e.raised
  {
    if !(pid in tm.workflowProgress && IsKey(node)) {
      return false;
    }
    var n := node.s;
    if pid !in tm.workflowNodes {
      // setting `active_node` raises KeyError once `current_node` is set
      tm.workflowProgress := tm.workflowProgress[pid := tm.workflowProgress[pid].(currentNode := Some(n))];
      return true;
    }
    MarkExecuting(tm, pid, n);
    SendWorkflowProgressCallback(tm, wm, pid, client, now);
    raised := false;
  }

  /** The bookkeeping of `executing` for a task with both progress records:
      the node becomes current and active, joins the execution order once,
      counts as completed on its first start, and the percentage is
      recomputed. */
  method MarkExecuting(tm: TaskManager, pid: string, n: string)
    requires pid in tm.workflowNodes && pid in tm.workflowProgress
    modifies tm`workflowProgress, tm`workflowNodes
    ensures tm.Model() == ExecutingTables(old(tm.Model()), pid, n)
  {
    ghost var spec := ExecutingTables(tm.Model(), pid, n);
    var wp := tm.workflowProgress[pid].(currentNode := Some(n));
    var wn := tm.workflowNodes[pid].(activeNode := Some(n));
    if n !in wp.executionOrder {
      wp := wp.(executionOrder := wp.executionOrder + [n]);
    }
    if n !in Keys(wp.nodeProgress) {
      wn := wn.(completed := wn.completed + 1);
    }
    wp := wp.(nodeProgress := Put(wp.nodeProgress, n, NodeStarted));
    var total := wn.total;
    if total <= 0 {
      total := 1;
    }
    wp := wp.(percent := Percent(wn.completed, total));
    assert wp == spec.workflowProgress[pid];
    assert wn == spec.workflowNodes[pid];
    tm.workflowProgress := tm.workflowProgress[pid := wp];
    tm.workflowNodes := tm.workflowNodes[pid := wn];
  }

  /** `_update_workflow_progress` for `executed`. */
  method NodeExecuted(tm: TaskManager, wm: WebSocketManager, pid: string, client: Json, node: Json,
                      data: Dict<string, Json>, now: nat)
    returns (raised: bool)
    modifies tm, wm`queue
    ensures var e := Executed(old(tm.Model()), pid, client, node, data, now);
            tm.Model() == e.t && wm.queue == old(wm.queue) + e.items && raised == e.raised
  {
    if !(pid in tm.workflowNodes && pid in tm.workflowProgress && IsKey(node)) {
      return false;
    }
    var n := node.s;
    var wp := tm.workflowProgress[pid];
    tm.workflowProgress := tm.workflowProgress[pid := wp.(nodeProgress := Put(wp.nodeProgress, n, NodeFinished))];
    if pid !in tm.executionOutputs {
      // `execution_outputs[prompt_id]` raises KeyError
      return true;
    }
    MarkExecuted(tm, pid, n, data);
    SendWorkflowProgressCallback(tm, wm, pid, client, now);
    raised := false;
  }

  /** The rest of `executed` once the node is marked finished: its output is
      stored under its id and no node is active any more. */
  method MarkExecuted(tm: TaskManager, pid: string, n: string, data: Dict<string, Json>)
    requires pid in tm.workflowNodes && pid in tm.executionOutputs
    modifies tm`executionOutputs, tm`workflowNodes
    ensures tm.Model() == OutputStored(old(tm.Model()), pid, n, data)
  {
    tm.executionOutputs := tm.executionOutputs[pid := Put(tm.executionOutputs[pid], n, OutputOf(data))];
    tm.workflowNodes := tm.workflowNodes[pid := tm.workflowNodes[pid].(activeNode := None)];
  }

  /** `_update_workflow_progress` for `execution_success` and
      `execution_error`. */
  method TaskFinished(tm: TaskManager, wm: WebSocketManager, pid: string, client: Json, now: nat)
    modifies tm, wm`queue
    ensures var e := Finished(old(tm.Model()), pid, client, now);
            tm.Model() == e.t && wm.queue == old(wm.queue) + e.items
  {
    if pid in tm.workflowProgress {
      tm.workflowProgress := tm.workflowProgress[pid := tm.workflowProgress[pid].(percent := 100)];
      SendWorkflowProgressCallback(tm, wm, pid, client, now);
    }
  }

  /** `_update_workflow_progress` */
  method UpdateWorkflowProgress(tm: TaskManager, wm: WebSocketManager, event: string, pid: string, client: Json,
                                data: Dict<string, Json>, queue: seq<QueueEntry>, now: nat)
    returns (raised: bool)
    modifies tm, wm`queue
    ensures var e := UpdateProgress(old(tm.Model()), event, pid, client, data, queue, now);
            tm.Model() == e.t && wm.queue == old(wm.queue) + e.items && raised == e.raised
  {
    raised := false;
    if event == "execution_start" {
      StartTask(tm, wm, pid, client, queue, now);
    } else if event == "executing" {
      raised := NodeExecuting(tm, wm, pid, client, Get(data, "node"), now);
    } else if event == "executed" {
      raised := NodeExecuted(tm, wm, pid, client, Get(data, "node"), data, now);
    } else if event == "execution_success" || event == "execution_error" {
      TaskFinished(tm, wm, pid, client, now);
    }
  }

  /** `handle_execution_events_with_ws_and_callback`: returns the event data
      as the handler left it, and whether it raised. */
  method HandleExecutionEvent(enabled: bool, tm: TaskManager, wm: WebSocketManager, event: string,
                              data: Dict<string, Json>, queue: seq<QueueEntry>, now: nat)
    returns (data': Dict<string, Json>, raised: bool)
    modifies tm, wm`queue
    ensures var s := HandleExecution(enabled, old(tm.Model()), event, data, queue, now);
            tm.Model() == s.t && wm.queue == old(wm.queue) + s.items && data' == s.data && raised == s.raised
  {
    data', raised := data, false;
    if !enabled {
      return;
    }
    ghost var t0 := tm.Model();
    var p := Get(data, "prompt_id");
    var client := Get(data, "client_id");
    if !Truthy(p) && IsKey(client) && client.s in Keys(tm.clientPrompts) {
      p := JStr(Find(tm.clientPrompts, client.s).value);
      data' := Put(data, "prompt_id", p);
    }
    assert p == ResolvedPid(t0, data) && data' == Completed(t0, data);
    if !IsKey(p) {
      return;
    }
    var api := tm.IsApiTask(p.s);
    if !api {
      return;
    }
    raised := HandleTrackedEvent(tm, wm, event, p.s, client, data', queue, now);
  }

  /** The part of `handle_execution_events_with_ws_and_callback` after the
      filter. */
  method HandleTrackedEvent(tm: TaskManager, wm: WebSocketManager, event: string, pid: string, client: Json,
                            data: Dict<string, Json>, queue: seq<QueueEntry>, now: nat)
    returns (raised: bool)
    modifies tm, wm`queue
    ensures var e := HandleTracked(old(tm.Model()), event, pid, client, data, queue, now);
            tm.Model() == e.t && wm.queue == old(wm.queue) + e.items && raised == e.raised
  {
    ghost var q0 := wm.queue;
    ghost var u := UpdateProgress(tm.Model(), event, pid, client, data, queue, now);
    raised := UpdateWorkflowProgress(tm, wm, event, pid, client, data, queue, now);
    if raised {
      return;
    }
    wm.queue := wm.queue + [Push(pid, event, JObj(data))];
    ghost var pushed := u.items + [Push(pid, event, JObj(data))];
    assert wm.queue == q0 + pushed;
    var cb := PrepareCallbackData(tm.Model(), event, pid, client, data, now);
    match cb
    case CallbackRaised =>
      // reading `outputs` after the caught KeyError raises
      raised := true;
    case NoCallback =>
    case CallbackData(name, body) =>
      if pid in tm.callbackUrls {
        wm.queue := wm.queue + [Callback(pid, name, body)];
        assert wm.queue == q0 + (pushed + [Callback(pid, name, body)]);
      }
      if (event == "execution_success" || event == "execution_error") && IsKey(client) && client.s in Keys(tm.clientPrompts) {
        tm.clientPrompts := RemoveKey(tm.clientPrompts, client.s);
      }
  }

  /** `safe_handle_progress`, with its sweep of the throttle table. */
  method SafeHandleProgress(enabled: bool, tm: TaskManager, wm: WebSocketManager, data: Dict<string, Json>, now: nat)
    modifies tm`progressThrottle, wm`queue
    ensures var e := SafeProgress(enabled, old(tm.Model()), data, now);
            tm.Model() == e.t && wm.queue == old(wm.queue) + e.items
  {
    if !enabled {
      return;
    }
    ghost var t0 := tm.Model();
    var p := Get(data, "prompt_id");
    if !Truthy(p) {
      var client := Get(data, "client_id");
      if IsKey(client) && client.s in Keys(tm.clientPrompts) {
        p := JStr(Find(tm.clientPrompts, client.s).value);
      }
    }
    assert p == ResolvedPid(t0, data);
    if !IsKey(p) {
      return;
    }
    var api := tm.IsApiTask(p.s);
    if !api {
      return;
    }
    var pid := p.s;
    var percent := if pid in tm.workflowProgress then tm.workflowProgress[pid].percent else 0;
    var last := if pid in tm.progressThrottle then tm.progressThrottle[pid] else 0;
    if now - last >= ThrottleInterval {
      tm.progressThrottle := tm.progressThrottle[pid := now];
      var details := if pid in tm.workflowProgress then ProgressJson(tm.workflowProgress[pid]) else JObj([]);
      wm.queue := wm.queue + [Push(pid, "task_workflow_progress", JObj([
        ("prompt_id", JStr(pid)),
        ("status", JStr("running")),
        ("progress", JInt(percent)),
        ("progress_details", details)]))];
    }
    SweepThrottle(tm);
  }

  /** The loop of `safe_handle_progress` that drops the throttle entries of
      tasks no longer tracked. */
  method SweepThrottle(tm: TaskManager)
    modifies tm`progressThrottle
    ensures tm.progressThrottle == TrackedOnly(old(tm.progressThrottle), tm.workflowProgress)
  {
    ghost var th0 := tm.progressThrottle;
    var keys := tm.progressThrottle.Keys;
    while keys != {}
      invariant keys <= th0.Keys
      invariant tm.progressThrottle == map k | k in th0 && (k in keys || k in tm.workflowProgress) :: th0[k]
      decreases |keys|
    {
      var k :| k in keys;
      if k !in tm.workflowProgress {
        tm.progressThrottle := tm.progressThrottle - {k};
      }
      keys := keys - {k};
    }
  }

  // ---------------------------------------------------------------------
  // `EventHandler`

  /** The callbacks the plugin registers: the execution handler bound to
      one event name, or `safe_handle_progress`. */
  datatype Handler = ExecutionHandler(event: string) | ProgressHandler

  /** The callbacks registered for an event, in registration order. */
  function HandlersOf(callbacks: Dict<string, seq<Handler>>, name: string): seq<Handler>
  {
    match Find(callbacks, name)
    case Some(hs) => hs
    case None => []
  }

  /** `register_event`: the callback goes at the end of its event's list,
      which is created (at the end of the table) on first use. */
  function Registered(callbacks: Dict<string, seq<Handler>>, name: string, h: Handler): (r: Dict<string, seq<Handler>>)
    ensures HandlersOf(r, name) == HandlersOf(callbacks, name) + [h]
    ensures forall other :: other != name ==> HandlersOf(r, other) == HandlersOf(callbacks, other)
    ensures Keys(r) == if name in Keys(callbacks) then Keys(callbacks) else Keys(callbacks) + [name]
  {
    PutKeys(callbacks, name, HandlersOf(callbacks, name) + [h]);
    Put(callbacks, name, HandlersOf(callbacks, name) + [h])
  }

  /** The registrations made when the module loads, in order. */
  function Registrations(): seq<(string, Handler)>
  {
    [("execution_start", ExecutionHandler("execution_start")),
     ("execution_cached", ExecutionHandler("execution_cached")),
     ("executing", ExecutionHandler("executing")),
     ("executed", ExecutionHandler("executed")),
     ("execution_error", ExecutionHandler("execution_error")),
     ("execution_success", ExecutionHandler("execution_success")),
     ("progress", ProgressHandler)]
  }

  /** What one registered callback does to the registry, the queue and the
      (shared, mutable) event data. A callback that raises is caught by
      `handle_event`, keeping whatever it changed before raising. */
  datatype Run = Run(t: Tables, items: seq<Item>, data: Json)

  function RunHandler(enabled: bool, t: Tables, h: Handler, data: Json, queue: seq<QueueEntry>, now: nat): Run
  {
    if !data.JObj? then
      // `data.get` raises on anything but a dict
      Run(t, [], data)
    else match h
      case ExecutionHandler(event) =>
        var s := HandleExecution(enabled, t, event, data.fields, queue, now);
        Run(s.t, s.items, JObj(s.data))
      case ProgressHandler =>
        var e := SafeProgress(enabled, t, data.fields, now);
        Run(e.t, e.items, data)
  }

  /** The callbacks of an event, run in order on the same data. */
  function RunHandlers(enabled: bool, t: Tables, hs: seq<Handler>, data: Json, queue: seq<QueueEntry>, now: nat): Run
  {
    if hs == [] then Run(t, [], data)
    else
      var r := RunHandlers(enabled, t, hs[..|hs| - 1], data, queue, now);
      var last := RunHandler(enabled, r.t, hs[|hs| - 1], r.data, queue, now);
      Run(last.t, r.items + last.items, last.data)
  }

  class EventHandler {
    var callbacks: Dict<string, seq<Handler>>

    constructor ()
      ensures callbacks == []
    {
      callbacks := [];
    }

    /** `register_event` */
    method RegisterEvent(name: string, h: Handler)
      modifies this
      ensures callbacks == Registered(old(callbacks), name, h)
    {
      var hs: seq<Handler> := [];
      var found := Find(callbacks, name);
      if found.Some? {
        hs := found.value;
      }
      callbacks := Put(callbacks, name, hs + [h]);
    }

    /** `handle_event`: nothing when event handling is off; otherwise every
        callback registered for the event, in order, each on the data the
        previous one left. */
    method HandleEvent(enabled: bool, tm: TaskManager, wm: WebSocketManager, name: string, data: Json,
                       queue: seq<QueueEntry>, now: nat)
      modifies tm, wm`queue
      ensures enabled ==>
                var r := RunHandlers(enabled, old(tm.Model()), HandlersOf(callbacks, name), data, queue, now);
                tm.Model() == r.t && wm.queue == old(wm.queue) + r.items
      ensures !enabled ==> tm.Model() == old(tm.Model()) && wm.queue == old(wm.queue)
    {
      if !enabled {
        return;
      }
      RunAll(enabled, tm, wm, HandlersOf(callbacks, name), data, queue, now);
    }
  }

  /** The loop of `handle_event` over an event's callbacks. */
  method RunAll(enabled: bool, tm: TaskManager, wm: WebSocketManager, hs: seq<Handler>, data: Json,
                queue: seq<QueueEntry>, now: nat)
    modifies tm, wm`queue
    ensures tm.Model() == RunHandlers(enabled, old(tm.Model()), hs, data, queue, now).t
    ensures wm.queue == old(wm.queue) + RunHandlers(enabled, old(tm.Model()), hs, data, queue, now).items
  {
    var d := data;
    ghost var t0 := tm.Model();
    ghost var q0 := wm.queue;
    for i := 0 to |hs|
      invariant tm.Model() == RunHandlers(enabled, t0, hs[..i], data, queue, now).t
      invariant wm.queue == q0 + RunHandlers(enabled, t0, hs[..i], data, queue, now).items
      invariant d == RunHandlers(enabled, t0, hs[..i], data, queue, now).data
    {
      d := RunNext(enabled, tm, wm, hs, i, d, data, queue, now, t0, q0);
    }
    assert hs[..|hs|] == hs;
  }

  /** One turn of the loop of `handle_event`: the i-th callback. */
  method RunNext(enabled: bool, tm: TaskManager, wm: WebSocketManager, hs: seq<Handler>, i: nat, d: Json,
                 ghost data: Json, queue: seq<QueueEntry>, now: nat, ghost t0: Tables, ghost q0: seq<Item>)
    returns (d': Json)
    requires i < |hs|
    requires tm.Model() == RunHandlers(enabled, t0, hs[..i], data, queue, now).t
    requires wm.queue == q0 + RunHandlers(enabled, t0, hs[..i], data, queue, now).items
    requires d == RunHandlers(enabled, t0, hs[..i], data, queue, now).data
    modifies tm, wm`queue
    ensures tm.Model() == RunHandlers(enabled, t0, hs[..i + 1], data, queue, now).t
    ensures wm.queue == q0 + RunHandlers(enabled, t0, hs[..i + 1], data, queue, now).items
    ensures d' == RunHandlers(enabled, t0, hs[..i + 1], data, queue, now).data
  {
    ghost var r := RunHandlers(enabled, t0, hs[..i], data, queue, now);
    RunHandlersStep(enabled, t0, hs, i, data, queue, now);
    d' := RunOne(enabled, tm, wm, hs[i], d, queue, now);
    ghost var last := RunHandler(enabled, r.t, hs[i], r.data, queue, now);
    AppendAssoc(q0, r.items, last.items);
  }

  lemma RunHandlersStep(enabled: bool, t: Tables, hs: seq<Handler>, i: nat, data: Json, queue: seq<QueueEntry>, now: nat)
    requires i < |hs|
    ensures var r := RunHandlers(enabled, t, hs[..i], data, queue, now);
            var last := RunHandler(enabled, r.t, hs[i], r.data, queue, now);
            RunHandlers(enabled, t, hs[..i + 1], data, queue, now) == Run(last.t, r.items + last.items, last.data)
  {
    assert hs[..i + 1][..i] == hs[..i];
  }

  /** One callback, as `handle_event` calls it. */
  method RunOne(enabled: bool, tm: TaskManager, wm: WebSocketManager, h: Handler, data: Json,
                queue: seq<QueueEntry>, now: nat)
    returns (data': Json)
    modifies tm, wm`queue
    ensures var r := RunHandler(enabled, old(tm.Model()), h, data, queue, now);
            tm.Model() == r.t && wm.queue == old(wm.queue) + r.items && data' == r.data
  {
    data' := data;
    if !data.JObj? {
      return;
    }
    match h
    case ExecutionHandler(event) =>
      var fields, _ := HandleExecutionEvent(enabled, tm, wm, event, data.fields, queue, now);
      data' := JObj(fields);
    case ProgressHandler =>
      SafeHandleProgress(enabled, tm, wm, data.fields, now);
  }

  /** `custom_send_sync`: the engine's own `send_sync` runs first and its
      result is returned whatever the plugin does; the event is then handed
      to the plugin's handlers when event handling is on. */
  method CustomSendSync<R>(enabled: bool, eh: EventHandler, tm: TaskManager, wm: WebSocketManager,
                           event: string, data: Json, queue: seq<QueueEntry>, now: nat, sent: R)
    returns (result: R)
    modifies tm, wm`queue
    ensures result == sent
    ensures var r := RunHandlers(enabled, old(tm.Model()), HandlersOf(eh.callbacks, event), data, queue, now);
            enabled ==> tm.Model() == r.t && wm.queue == old(wm.queue) + r.items
    ensures !enabled ==> tm.Model() == old(tm.Model()) && wm.queue == old(wm.queue)
  {
    result := sent;
    if enabled {
      eh.HandleEvent(enabled, tm, wm, event, data, queue, now);
    }
  }

  // ---------------------------------------------------------------------
  // Properties of the dispatch

  /** Registering the plugin's callbacks in order, from an empty table. */
  function RegisterAll(callbacks: Dict<string, seq<Handler>>, regs: seq<(string, Handler)>): Dict<string, seq<Handler>>
    decreases |regs|
  {
    if regs == [] then callbacks
    else RegisterAll(Registered(callbacks, regs[0].0, regs[0].1), regs[1..])
  }

  /** Registering callbacks for distinct, new event names appends those
      names to the table, in order, each with its own callback added. */
  lemma {:induction false} RegisterAllFresh(callbacks: Dict<string, seq<Handler>>, regs: seq<(string, Handler)>)
    requires UniqueKeys(regs)
    requires forall i :: 0 <= i < |regs| ==> regs[i].0 !in Keys(callbacks)
    ensures Keys(RegisterAll(callbacks, regs)) == Keys(callbacks) + Keys(regs)
    ensures forall i :: 0 <= i < |regs| ==>
              HandlersOf(RegisterAll(callbacks, regs), regs[i].0) == HandlersOf(callbacks, regs[i].0) + [regs[i].1]
    ensures forall name :: name !in Keys(regs) ==>
              HandlersOf(RegisterAll(callbacks, regs), name) == HandlersOf(callbacks, name)
    decreases |regs|
  {
    if regs != [] {
      var next := Registered(callbacks, regs[0].0, regs[0].1);
      var table := RegisterAll(callbacks, regs);
      assert table == RegisterAll(next, regs[1..]);
      KeysCons(regs);
      UniqueTail(regs);
      assert Keys(next) == Keys(callbacks) + [regs[0].0];
      forall i | 0 <= i < |regs| - 1
        ensures regs[1..][i].0 !in Keys(next)
      {
        assert Keys(regs[1..])[i] == regs[1..][i].0 == regs[i + 1].0;
      }
      RegisterAllFresh(next, regs[1..]);
      AppendAssoc(Keys(callbacks), [regs[0].0], Keys(regs[1..]));
      forall i | 0 <= i < |regs|
        ensures HandlersOf(table, regs[i].0) == HandlersOf(callbacks, regs[i].0) + [regs[i].1]
      {
        if i == 0 {
          assert HandlersOf(table, regs[0].0) == HandlersOf(next, regs[0].0);
        } else {
          assert regs[1..][i - 1] == regs[i];
          assert regs[i].0 != regs[0].0 by {
            assert Keys(regs)[0] != Keys(regs)[i];
          }
          assert HandlersOf(next, regs[i].0) == HandlersOf(callbacks, regs[i].0);
        }
      }
      forall name | name !in Keys(regs)
        ensures HandlersOf(table, name) == HandlersOf(callbacks, name)
      {
        assert name != regs[0].0 && name !in Keys(regs[1..]);
      }
    }
  }

  /** The plugin registers each event name once. */
  lemma RegistrationsDistinct()
    ensures UniqueKeys(Registrations())
  {
    var regs := Registrations();
    forall i, j | 0 <= i < j < |regs|
      ensures regs[i].0 != regs[j].0
    {
      assert |regs[i].0| != |regs[j].0| || regs[i].0[|regs[i].0| - 2] != regs[j].0[|regs[j].0| - 2];
    }
  }

  /** After start-up every plugin event has exactly its own handler. */
  lemma StartupTable()
    ensures var table := RegisterAll([], Registrations());
            && Keys(table) == ["execution_start", "execution_cached", "executing", "executed",
                               "execution_error", "execution_success", "progress"]
            && (forall i :: 0 <= i < |Registrations()| ==>
                  HandlersOf(table, Registrations()[i].0) == [Registrations()[i].1])
  {
    var regs := Registrations();
    assert Keys(regs) == ["execution_start", "execution_cached", "executing", "executed",
                          "execution_error", "execution_success", "progress"];
    RegistrationsDistinct();
    RegisterAllFresh([], regs);
  }

  /** An event nobody registered for is ignored. */
  lemma UnregisteredIgnored(enabled: bool, callbacks: Dict<string, seq<Handler>>, name: string, t: Tables,
                            data: Json, queue: seq<QueueEntry>, now: nat)
    requires name !in Keys(callbacks)
    ensures RunHandlers(enabled, t, HandlersOf(callbacks, name), data, queue, now) == Run(t, [], data)
  {
  }

  /** An execution event dispatched through its one registered callback is
      exactly `handle_execution_events_with_ws_and_callback`. */
  lemma ExecutionDispatch(enabled: bool, t: Tables, event: string, data: Dict<string, Json>,
                          queue: seq<QueueEntry>, now: nat)
    ensures var r := RunHandlers(enabled, t, [ExecutionHandler(event)], JObj(data), queue, now);
            var s := HandleExecution(enabled, t, event, data, queue, now);
            r.t == s.t && r.items == s.items && r.data == JObj(s.data)
  {
    assert [ExecutionHandler(event)][..0] == [];
  }
}
