/** The delivery side of custom_routes.py: one step of the loop that drains
    `ws_event_queue`, `send_callback` with its terminal cleanup, and
    `send_task_update`, which pushes a task's enriched payload to that task's
    websocket subscribers and then to the machines related to that task. */
module Delivery {

  import opened Base
  import opened Tasks
  import opened Channels
  import opened Payloads
  import opened Subscribers

  // ---------------------------------------------------------------------
  // Callbacks

  /** An HTTP POST of a JSON body. */
  datatype Post = Post(url: Json, body: Json)

  /** The events after which a task's callback URL is forgotten. */
  predicate EndsTask(event: string)
  {
    event == "task_success" || event == "task_failed"
  }

  /** The body `send_callback` posts. */
  function CallbackBody(event: string, data: Json, now: nat): Json
  {
    JObj([("event", JStr(event)), ("data", data), ("timestamp", JInt(Seconds(now)))])
  }

  /** What `send_callback` posts: nothing when event handling is off or the
      task has no callback URL, and otherwise the event, its data and the
      time in whole seconds, to that task's URL. */
  function CallbackPost(enabled: bool, t: Tables, pid: string, event: string, data: Json, now: nat): (r: Option<Post>)
    ensures r.Some? <==> enabled && pid in t.callbackUrls
    ensures r.Some? ==> r.value.url == t.callbackUrls[pid]
    ensures r.Some? ==> Field(r.value.body, "event") == Some(JStr(event)) && Field(r.value.body, "data") == Some(data)
                        && Field(r.value.body, "timestamp") == Some(JInt(now / 1000))
  {
    if enabled && pid in t.callbackUrls then
      var body := CallbackBody(event, data, now);
      FindAt(body.fields, 1);
      FindAt(body.fields, 2);
      Some(Post(t.callbackUrls[pid], body))
    else None
  }

  /** The tables after `send_callback`: whatever the HTTP outcome, a
      terminal event forgets that task's callback URL and its API mark. It
      returns before that when event handling is off or that task has no
      URL. */
  function AfterCallback(enabled: bool, t: Tables, pid: string, event: string): (r: Tables)
    ensures r.workflowNodes == t.workflowNodes && r.workflowProgress == t.workflowProgress
    ensures r.progressThrottle == t.progressThrottle && r.clientPrompts == t.clientPrompts
    ensures r.executionOutputs == t.executionOutputs
    ensures enabled && pid in t.callbackUrls && EndsTask(event) ==> pid !in r.callbackUrls && pid !in r.apiCreatedTasks
    ensures !(enabled && pid in t.callbackUrls && EndsTask(event)) ==> r == t
    ensures forall p :: p != pid ==> (p in r.callbackUrls <==> p in t.callbackUrls) && (p in r.apiCreatedTasks <==> p in t.apiCreatedTasks)
    ensures forall p :: p in r.callbackUrls ==> r.callbackUrls[p] == t.callbackUrls[p]
  {
    if enabled && pid in t.callbackUrls && EndsTask(event) then
      t.(callbackUrls := t.callbackUrls - {pid}, apiCreatedTasks := t.apiCreatedTasks - {pid})
    else t
  }

  /** `send_callback`. The HTTP outcome changes nothing in the registry. */
  method SendCallback(enabled: bool, tm: TaskManager, pid: string, event: string, data: Json, now: nat)
    returns (post: Option<Post>)
    modifies tm`callbackUrls, tm`apiCreatedTasks
    ensures post == CallbackPost(enabled, old(tm.Model()), pid, event, data, now)
    ensures tm.Model() == AfterCallback(enabled, old(tm.Model()), pid, event)
  {
    if !enabled {
      return None;
    }
    if pid !in tm.callbackUrls {
      return None;
    }
    post := Some(Post(tm.callbackUrls[pid], CallbackBody(event, data, now)));
    if event == "task_success" || event == "task_failed" {
      tm.callbackUrls := tm.callbackUrls - {pid};
      if pid in tm.apiCreatedTasks {
        tm.apiCreatedTasks := tm.apiCreatedTasks - {pid};
      }
    }
  }

  /** Once a terminal callback went out, a repeated terminal item, or any
      later callback item of that task, posts nothing and changes nothing. */
  lemma RepeatedCallbackIsNoOp(enabled: bool, t: Tables, pid: string, event: string, event': string, data: Json, now: nat)
    requires EndsTask(event) && CallbackPost(enabled, t, pid, event, data, now).Some?
    ensures var t' := AfterCallback(enabled, t, pid, event);
            CallbackPost(enabled, t', pid, event', data, now).None? && AfterCallback(enabled, t', pid, event') == t'
  {
  }

  /** Forgetting a task's callback keeps the registry invariant. */
  lemma AfterCallbackKeepsValid(enabled: bool, t: Tables, pid: string, event: string)
    requires Valid(t)
    ensures Valid(AfterCallback(enabled, t, pid, event))
  {
    var r := AfterCallback(enabled, t, pid, event);
    assert r.workflowNodes == t.workflowNodes && r.workflowProgress == t.workflowProgress;
  }

  // ---------------------------------------------------------------------
  // Task updates

  /** `send_task_update` once the payload is built: the payload goes to the
      task's subscribers, and, unless the event is `progress`, to the
      machines related to that task; a machine call that raises ends the
      round. */
  method Deliver(tm: TaskManager, wm: WebSocketManager, pid: string, event: string, payload: Json)
    returns (reached: seq<Connection>, machineSent: seq<(string, Json)>, raised: bool)
    modifies wm`taskListeners, wm`machinePrompts, wm`machineListeners
    ensures pid !in old(wm.taskListeners) ==> wm.taskListeners == old(wm.taskListeners) && reached == []
    ensures pid in old(wm.taskListeners) ==>
              var cs := old(wm.taskListeners)[pid];
              reached == Kept(cs) && wm.taskListeners == Pruned(old(wm.taskListeners), pid, Kept(cs))
    ensures event == "progress" ==>
              wm.machinePrompts == old(wm.machinePrompts) && wm.machineListeners == old(wm.machineListeners)
              && machineSent == [] && !raised
    ensures event != "progress" ==>
              var ms := RelatedMachines(old(wm.machinePrompts), tm.clientPrompts, pid);
              var r := MachineRound(tm.Model(), pid, event, ms, Round(old(wm.machineListeners), payload, [], false));
              wm.machinePrompts == Linked(old(wm.machinePrompts), tm.clientPrompts, pid)
              && wm.machineListeners == r.listeners && machineSent == r.sent && raised == r.raised
  {
    machineSent, raised := [], false;
    reached := PushToListeners(wm, pid);
    if event != "progress" {
      var ms := FindRelated(wm, tm.clientPrompts, pid);
      machineSent, raised := SendMachineUpdates(tm.Model(), wm, pid, event, ms, payload);
    }
  }

  /** `send_task_update`: the payload is built from the event's data, and
      when that raises nothing is sent. `history` is the engine's history
      entry for that task. */
  method SendTaskUpdate(tm: TaskManager, wm: WebSocketManager, pid: string, event: string, data: Json,
                        history: Option<Json>)
    returns (payload: Option<Json>, reached: seq<Connection>, machineSent: seq<(string, Json)>, raised: bool)
    modifies wm`taskListeners, wm`machinePrompts, wm`machineListeners
    ensures payload == Enriched(tm.Model(), pid, event, data, history)
    ensures payload.None? ==> raised && reached == [] && machineSent == []
    ensures payload.None? ==>
              wm.taskListeners == old(wm.taskListeners)
              && wm.machinePrompts == old(wm.machinePrompts) && wm.machineListeners == old(wm.machineListeners)
    ensures payload.Some? && pid !in old(wm.taskListeners) ==> wm.taskListeners == old(wm.taskListeners) && reached == []
    ensures payload.Some? && pid in old(wm.taskListeners) ==>
              var cs := old(wm.taskListeners)[pid];
              reached == Kept(cs) && wm.taskListeners == Pruned(old(wm.taskListeners), pid, Kept(cs))
    ensures payload.Some? && event == "progress" ==>
              wm.machinePrompts == old(wm.machinePrompts) && wm.machineListeners == old(wm.machineListeners)
              && machineSent == [] && !raised
    ensures payload.Some? && event != "progress" ==>
              var ms := RelatedMachines(old(wm.machinePrompts), tm.clientPrompts, pid);
              var r := MachineRound(tm.Model(), pid, event, ms, Round(old(wm.machineListeners), payload.value, [], false));
              wm.machinePrompts == Linked(old(wm.machinePrompts), tm.clientPrompts, pid)
              && wm.machineListeners == r.listeners && machineSent == r.sent && raised == r.raised
  {
    payload := Enriched(tm.Model(), pid, event, data, history);
    if payload.None? {
      return payload, [], [], true;
    }
    reached, machineSent, raised := Deliver(tm, wm, pid, event, payload.value);
  }

  // ---------------------------------------------------------------------
  // The queue

  /** What one step of the delivery loop did. */
  datatype Outcome =
    | Idle
    | Posted(post: Option<Post>)
    | Pushed(payload: Option<Json>, reached: seq<Connection>, machineSent: seq<(string, Json)>, raised: bool)

  /** One step of `process_ws_event_queue`: the oldest item, if any, is
      taken off the queue; a callback item goes to `send_callback` and any
      other to `send_task_update`. */
  method DispatchStep(enabled: bool, tm: TaskManager, wm: WebSocketManager, history: Option<Json>, now: nat)
    returns (out: Outcome)
    modifies tm`callbackUrls, tm`apiCreatedTasks
    modifies wm`queue, wm`taskListeners, wm`machinePrompts, wm`machineListeners
    ensures old(wm.queue) == [] <==> out == Idle
    ensures old(wm.queue) == [] ==> wm.queue == [] && tm.Model() == old(tm.Model())
    ensures old(wm.queue) != [] ==> wm.queue == old(wm.queue)[1..]
    ensures old(wm.queue) == [] || old(wm.queue)[0].Callback? ==>
              wm.taskListeners == old(wm.taskListeners)
              && wm.machinePrompts == old(wm.machinePrompts) && wm.machineListeners == old(wm.machineListeners)
    ensures old(wm.queue) != [] && old(wm.queue)[0].Callback? ==>
              var it := old(wm.queue)[0];
              out == Posted(CallbackPost(enabled, old(tm.Model()), it.pid, it.event, it.body, now))
              && tm.Model() == AfterCallback(enabled, old(tm.Model()), it.pid, it.event)
    ensures old(wm.queue) != [] && old(wm.queue)[0].Push? ==>
              var it := old(wm.queue)[0];
              out.Pushed? && out.payload == Enriched(old(tm.Model()), it.pid, it.event, it.data, history)
              && tm.Model() == old(tm.Model())
    ensures old(wm.queue) != [] && old(wm.queue)[0].Push? && out.Pushed? && out.payload.None? ==>
              out.raised && out.reached == [] && out.machineSent == []
              && wm.taskListeners == old(wm.taskListeners)
              && wm.machinePrompts == old(wm.machinePrompts) && wm.machineListeners == old(wm.machineListeners)
    ensures old(wm.queue) != [] && old(wm.queue)[0].Push? && out.Pushed? && out.payload.Some? ==>
              var pid := old(wm.queue)[0].pid;
              (pid !in old(wm.taskListeners) ==> wm.taskListeners == old(wm.taskListeners) && out.reached == [])
              && (pid in old(wm.taskListeners) ==>
                    out.reached == Kept(old(wm.taskListeners)[pid])
                    && wm.taskListeners == Pruned(old(wm.taskListeners), pid, Kept(old(wm.taskListeners)[pid])))
    ensures old(wm.queue) != [] && old(wm.queue)[0].Push? && out.Pushed? && out.payload.Some? ==>
              var it := old(wm.queue)[0];
              (it.event == "progress" ==>
                 wm.machinePrompts == old(wm.machinePrompts) && wm.machineListeners == old(wm.machineListeners)
                 && out.machineSent == [] && !out.raised)
              && (it.event != "progress" ==>
                    var ms := RelatedMachines(old(wm.machinePrompts), old(tm.clientPrompts), it.pid);
                    var r := MachineRound(old(tm.Model()), it.pid, it.event, ms,
                                          Round(old(wm.machineListeners), out.payload.value, [], false));
                    wm.machinePrompts == Linked(old(wm.machinePrompts), old(tm.clientPrompts), it.pid)
                    && wm.machineListeners == r.listeners && out.machineSent == r.sent && out.raised == r.raised)
  {
    if wm.queue == [] {
      return Idle;
    }
    var it := wm.queue[0];
    wm.queue := wm.queue[1..];
    match it
    case Callback(pid, event, body) =>
      var post := SendCallback(enabled, tm, pid, event, body, now);
      out := Posted(post);
    case Push(pid, event, data) =>
      var payload, reached, machineSent, raised := SendTaskUpdate(tm, wm, pid, event, data, history);
      out := Pushed(payload, reached, machineSent, raised);
  }
}
