/** What the event handlers of custom_routes.py do to the registry of tasks and
    the event queue, as functions of the registry, the event and a clock
    reading in milliseconds. The imperative handlers are proved equal to
    these in module Handlers. */
module Events {

  import opened Base
  import opened Text
  import opened Tasks
  import opened Channels

  /** `Config.PROGRESS_THROTTLE_INTERVAL`, 0.5 s. */
  const ThrottleInterval: nat := 500

  /** The effect of an inner handler: the new tables, what it enqueued in
      order, and whether it raised part way. */
  datatype Effect = Effect(t: Tables, items: seq<Item>, raised: bool)

  /** The effect of a top-level handler, which may also complete the event
      data with the resolved prompt id. */
  datatype Step = Step(t: Tables, items: seq<Item>, data: Dict<string, Json>, raised: bool)

  /** A truthy string: the only ids that can be found in the registry. */
  predicate IsKey(j: Json)
  {
    j.JStr? && j.s != ""
  }

  // ---------------------------------------------------------------------
  // JSON views of the registry records

  function NodeProgressJson(np: NodeProgress): Json
  {
    JObj([("value", JInt(np.value)), ("max", JInt(np.max)), ("percent", JInt(np.percent))])
  }

  function NodeProgressTable(d: Dict<string, NodeProgress>): Dict<string, Json>
  {
    seq(|d|, i requires 0 <= i < |d| => (d[i].0, NodeProgressJson(d[i].1)))
  }

  function StrList(ns: seq<string>): Json
  {
    JList(seq(|ns|, i requires 0 <= i < |ns| => JStr(ns[i])))
  }

  function ProgressJson(wp: WorkflowProgress): Json
  {
    JObj([("percent", JInt(wp.percent)),
          ("current_node", OptStr(wp.currentNode)),
          ("node_progress", JObj(NodeProgressTable(wp.nodeProgress))),
          ("execution_order", StrList(wp.executionOrder))])
  }

  function NodesJson(wn: WorkflowNodes): Json
  {
    JObj([("total", JInt(wn.total)),
          ("completed", JInt(wn.completed)),
          ("nodes", StrList(wn.nodes)),
          ("active_node", OptStr(wn.activeNode)),
          ("workflow_definition", JObj(wn.definition))])
  }

  // ---------------------------------------------------------------------
  // Resolving that task an event belongs to

  /** The event's client id maps to a task and the event lacks a prompt id. */
  predicate Resolves(t: Tables, data: Dict<string, Json>)
  {
    var c := Get(data, "client_id");
    !Truthy(Get(data, "prompt_id")) && IsKey(c) && c.s in Keys(t.clientPrompts)
  }

  /** The prompt id the handlers work with. */
  function ResolvedPid(t: Tables, data: Dict<string, Json>): (p: Json)
    ensures Resolves(t, data) ==> p.JStr? && p.s in Values(t.clientPrompts)
    ensures !Resolves(t, data) ==> p == Get(data, "prompt_id")
  {
    if Resolves(t, data) then
      var c := Get(data, "client_id");
      FoundInValues(t.clientPrompts, c.s);
      JStr(Find(t.clientPrompts, c.s).value)
    else Get(data, "prompt_id")
  }

  // ---------------------------------------------------------------------
  // `send_workflow_progress_callback`

  /** The `message` of a `task_workflow_progress` callback; the commas
      are the full-width U+FF0C of the original text. */
  function ProgressMessage(percent: int, completed: int, total: int, current: Json): string
  {
    "Workflow total progress: " + IntToString(percent) + ProgressMessageTail(completed, total, current)
  }

  function ProgressMessageTail(completed: int, total: int, current: Json): (r: string)
    ensures r != [] && r[0] == '%'
  {
    "%\U{FF0C}executed: " + IntToString(completed) + "/" + IntToString(total) + " nodes\U{FF0C}current node: "
    + PyStr(current)
  }

  /** `workflow_nodes.get(pid, {}).get("completed", 0)` */
  function CompletedNodes(t: Tables, pid: string): int
  {
    if pid in t.workflowNodes then t.workflowNodes[pid].completed else 0
  }

  /** `workflow_nodes.get(pid, {}).get("total", 100)` */
  function TotalNodes(t: Tables, pid: string): int
  {
    if pid in t.workflowNodes then t.workflowNodes[pid].total else 100
  }

  /** The body of a `task_workflow_progress` callback. */
  function ProgressBody(t: Tables, pid: string, client: Json, now: nat): Json
    requires pid in t.workflowProgress
  {
    var wp := t.workflowProgress[pid];
    var tracked := pid in t.workflowNodes;
    var completed := CompletedNodes(t, pid);
    var total := TotalNodes(t, pid);
    var active := if tracked then OptStr(t.workflowNodes[pid].activeNode) else JNull;
    JObj([
      ("prompt_id", JStr(pid)),
      ("client_id", client),
      ("status", JStr("running")),
      ("progress", JInt(wp.percent)),
      ("progress_details", JObj([
        ("percent", JInt(wp.percent)),
        ("current_node", OptStr(wp.currentNode)),
        ("active_node", active),
        ("completed_nodes", JInt(completed)),
        ("total_nodes", JInt(total)),
        ("execution_order", StrList(wp.executionOrder)),
        ("node_progress", JObj(NodeProgressTable(wp.nodeProgress)))])),
      ("message", JStr(ProgressMessage(wp.percent, completed, total, OptStr(wp.currentNode)))),
      ("timestamp", JInt(Seconds(now)))])
  }

  /** Enqueues a `task_workflow_progress` callback for every tracked task
      with a callback URL, stamping the throttle table without consulting
      it. */
  function ProgressCallback(t: Tables, pid: string, client: Json, now: nat): Effect
  {
    if pid !in t.workflowProgress || pid !in t.callbackUrls then Effect(t, [], false)
    else
      Effect(t.(progressThrottle := t.progressThrottle[pid := now]),
             [Callback(pid, "task_workflow_progress", ProgressBody(t, pid, client, now))], false)
  }

  // ---------------------------------------------------------------------
  // `_update_workflow_progress`

  /** The workflow of the first queue entry (running ones first) for `pid`. */
  function FindWorkflow(entries: seq<QueueEntry>, pid: string): (r: Option<Dict<string, Json>>)
    ensures r.Some? <==> exists i :: 0 <= i < |entries| && entries[i].pid == pid
    ensures r.Some? ==> exists i :: 0 <= i < |entries| && entries[i].pid == pid
                          && (forall j :: 0 <= j < i ==> entries[j].pid != pid)
                          && r.value == entries[i].prompt
  {
    if entries == [] then None
    else if entries[0].pid == pid then Some(entries[0].prompt)
    else
      assert forall i :: 1 <= i < |entries| ==> entries[i] == entries[1..][i - 1];
      FindWorkflow(entries[1..], pid)
  }

  /** The body of the `task_started` callback. */
  function StartedBody(pid: string, client: Json, now: nat): Json
  {
    JObj([("prompt_id", JStr(pid)),
          ("client_id", client),
          ("status", JStr("running")),
          ("progress", JInt(0)),
          ("message", JStr("Task started executing")),
          ("timestamp", JInt(Seconds(now)))])
  }

  /** `execution_start`: a non-empty workflow found in the queue gives the
      real node count, anything else (not found, empty, or the queue lookup
      raising) gives the placeholder total 100. */
  function Start(t: Tables, pid: string, client: Json, queue: seq<QueueEntry>, now: nat): Effect
  {
    var wf := FindWorkflow(queue, pid);
    var wn := if wf.Some? && wf.value != [] then WorkflowNodes(|wf.value|, 0, Keys(wf.value), None, wf.value)
              else WorkflowNodes(100, 0, [], None, []);
    Effect(t.(workflowNodes := t.workflowNodes[pid := wn],
              workflowProgress := t.workflowProgress[pid := FreshProgress],
              executionOutputs := t.executionOutputs[pid := []]),
           [Callback(pid, "task_started", StartedBody(pid, client, now))], false)
  }

  /** Python's `int(a / b)` for a positive b: the quotient truncated toward
      zero. */
  function TruncDiv(a: int, b: int): (q: int)
    requires b > 0
    ensures a >= 0 ==> q == a / b
    ensures a < 0 ==> q == -((-a) / b)
  {
    if a >= 0 then a / b else -((-a) / b)
  }

  /** `min(100, int(((completed - 1) * 100) / total))`. */
  function Percent(completed: int, total: int): int
    requires total > 0
  {
    var p := TruncDiv((completed - 1) * 100, total);
    if p < 100 then p else 100
  }

  /** The tables once node n of a tracked task has started: n joins the
      execution order if absent, counts as completed if it had no progress
      entry, and its entry is reset. */
  function ExecutingTables(t: Tables, pid: string, n: string): Tables
    requires pid in t.workflowNodes && pid in t.workflowProgress
  {
    var wp := t.workflowProgress[pid].(currentNode := Some(n));
    var wn := t.workflowNodes[pid];
    var order := if n in wp.executionOrder then wp.executionOrder else wp.executionOrder + [n];
    var completed := if n in Keys(wp.nodeProgress) then wn.completed else wn.completed + 1;
    var total := if wn.total <= 0 then 1 else wn.total;
    var wp' := wp.(executionOrder := order,
                   nodeProgress := Put(wp.nodeProgress, n, NodeStarted),
                   percent := Percent(completed, total));
    var wn' := wn.(activeNode := Some(n), completed := completed);
    t.(workflowNodes := t.workflowNodes[pid := wn'], workflowProgress := t.workflowProgress[pid := wp'])
  }

  /** `executing`: node `node` of a tracked task starts. */
  function Executing(t: Tables, pid: string, client: Json, node: Json, now: nat): Effect
  {
    if !(pid in t.workflowProgress && IsKey(node)) then Effect(t, [], false)
    else if pid !in t.workflowNodes then
      // `workflow_nodes[prompt_id]` raises KeyError after `current_node` is set
      var wp := t.workflowProgress[pid].(currentNode := Some(node.s));
      Effect(t.(workflowProgress := t.workflowProgress[pid := wp]), [], true)
    else
      ProgressCallback(ExecutingTables(t, pid, node.s), pid, client, now)
  }

  /** `data.get('output', {})`. */
  function OutputOf(data: Dict<string, Json>): Json
  {
    match Find(data, "output")
    case Some(v) => v
    case None => JObj([])
  }

  /** Node n of a tracked task recorded as finished. */
  function FinishedNode(t: Tables, pid: string, n: string): Tables
    requires pid in t.workflowProgress
  {
    var wp := t.workflowProgress[pid];
    t.(workflowProgress := t.workflowProgress[pid := wp.(nodeProgress := Put(wp.nodeProgress, n, NodeFinished))])
  }

  /** The tables once node n of a tracked task has finished with the
      event's output. */
  function ExecutedTables(t: Tables, pid: string, n: string, data: Dict<string, Json>): Tables
    requires pid in t.workflowNodes && pid in t.workflowProgress && pid in t.executionOutputs
  {
    OutputStored(FinishedNode(t, pid, n), pid, n, data)
  }

  /** The output of node n stored under its id, and no node active. */
  function OutputStored(t: Tables, pid: string, n: string, data: Dict<string, Json>): Tables
    requires pid in t.workflowNodes && pid in t.executionOutputs
  {
    var wn := t.workflowNodes[pid];
    t.(executionOutputs := t.executionOutputs[pid := Put(t.executionOutputs[pid], n, OutputOf(data))],
       workflowNodes := t.workflowNodes[pid := wn.(activeNode := None)])
  }

  /** `executed`: node `node` of a tracked task has finished. */
  function Executed(t: Tables, pid: string, client: Json, node: Json, data: Dict<string, Json>, now: nat): Effect
  {
    if !(pid in t.workflowNodes && pid in t.workflowProgress && IsKey(node)) then Effect(t, [], false)
    else if pid !in t.executionOutputs then
      // `execution_outputs[prompt_id]` raises KeyError
      Effect(FinishedNode(t, pid, node.s), [], true)
    else
      ProgressCallback(ExecutedTables(t, pid, node.s, data), pid, client, now)
  }

  /** `execution_success` / `execution_error`: a tracked task reaches 100. */
  function Finished(t: Tables, pid: string, client: Json, now: nat): Effect
  {
    if pid !in t.workflowProgress then Effect(t, [], false)
    else
      var wp := t.workflowProgress[pid];
      ProgressCallback(t.(workflowProgress := t.workflowProgress[pid := wp.(percent := 100)]), pid, client, now)
  }

  predicate IsTerminal(event: string)
  {
    event == "execution_success" || event == "execution_error"
  }

  /** `_update_workflow_progress`. */
  function UpdateProgress(t: Tables, event: string, pid: string, client: Json, data: Dict<string, Json>,
                          queue: seq<QueueEntry>, now: nat): Effect
  {
    if event == "execution_start" then Start(t, pid, client, queue, now)
    else if event == "executing" then Executing(t, pid, client, Get(data, "node"), now)
    else if event == "executed" then Executed(t, pid, client, Get(data, "node"), data, now)
    else if IsTerminal(event) then Finished(t, pid, client, now)
    else Effect(t, [], false)
  }

  // ---------------------------------------------------------------------
  // `_prepare_callback_data`

  /** The media lists of a success callback. */
  datatype Media = Media(images: seq<Json>, videos: seq<Json>)

  const NoMedia := Media([], [])

  function Append(a: Media, b: Media): Media
  {
    Media(a.images + b.images, a.videos + b.videos)
  }

  /** What `list.extend(v)` appends: a list's items, a dict's keys, a
      string's characters; anything else raises TypeError. */
  function Listed(v: Json): (r: Option<seq<Json>>)
    ensures r.Some? <==> v.JList? || v.JObj? || v.JStr?
  {
    match v
    case JList(xs) => Some(xs)
    case JObj(fs) => Some(seq(|fs|, i requires 0 <= i < |fs| => JStr(fs[i].0)))
    case JStr(s) => Some(seq(|s|, i requires 0 <= i < |s| => JStr([s[i]])))
    case _ => None
  }

  /** Which list a key of a node's output feeds: "images" is tested first. */
  function Contribution(k: string, xs: seq<Json>): Media
  {
    if Contains(k, "images") then Media(xs, [])
    else if Contains(k, "videos") || Contains(k, "gifs") then Media([], xs)
    else NoMedia
  }

  predicate IsMediaKey(k: string)
  {
    Contains(k, "images") || Contains(k, "videos") || Contains(k, "gifs")
  }

  /** The media gathered so far and whether the walk ran to its end. */
  datatype Collected = Collected(media: Media, ok: bool)

  /** Walks one output's items; a media value that cannot be extended
      stops the walk with what was gathered before it. */
  function FieldsMedia(fs: Dict<string, Json>): Collected
  {
    if fs == [] then Collected(NoMedia, true)
    else if !IsMediaKey(fs[0].0) then FieldsMedia(fs[1..])
    else match Listed(fs[0].1)
      case None => Collected(NoMedia, false)
      case Some(xs) =>
        var rest := FieldsMedia(fs[1..]);
        Collected(Append(Contribution(fs[0].0, xs), rest.media), rest.ok)
  }

  /** Walks `outputs.values()`: falsy outputs are skipped, and a truthy one
      that is not a dict stops the walk (it has no `items`). */
  function OutputsMedia(outs: seq<Json>): Collected
  {
    if outs == [] then Collected(NoMedia, true)
    else if !Truthy(outs[0]) then OutputsMedia(outs[1..])
    else if !outs[0].JObj? then Collected(NoMedia, false)
    else
      var head := FieldsMedia(outs[0].fields);
      if !head.ok then head
      else
        var rest := OutputsMedia(outs[1..]);
        Collected(Append(head.media, rest.media), rest.ok)
  }

  function MediaJson(m: Media): Json
  {
    JObj([("images", JList(m.images)), ("videos", JList(m.videos))])
  }

  /** The `message` of a `task_failed` callback. */
  function FailedMessage(error: Json): string
  {
    "Task executed failed: " + PyStr(error)
  }

  /** What `_prepare_callback_data` returns, or that it raised. */
  datatype CallbackData = NoCallback | CallbackData(event: string, body: Json) | CallbackRaised

  function PrepareCallbackData(t: Tables, event: string, pid: string, client: Json,
                               data: Dict<string, Json>, now: nat): CallbackData
  {
    if event == "execution_start" then CallbackData("task_started", StartedBody(pid, client, now))
    else if event == "execution_success" then
      if pid !in t.executionOutputs then
        // the KeyError is caught, and reading `outputs` afterwards raises
        CallbackRaised
      else
        var outputs := t.executionOutputs[pid];
        var result := OutputsMedia(Values(outputs)).media;
        CallbackData("task_success", JObj([
          ("prompt_id", JStr(pid)),
          ("client_id", client),
          ("status", JStr("success")),
          ("progress", JInt(100)),
          ("message", JStr("Task executed successfully")),
          ("result", MediaJson(result)),
          ("raw_outputs", JObj(outputs)),
          ("timestamp", JInt(Seconds(now)))]))
    else if event == "execution_error" then
      var error := match Find(data, "exception_message") case Some(e) => e case None => JStr("unknown error");
      CallbackData("task_failed", JObj([
        ("prompt_id", JStr(pid)),
        ("client_id", client),
        ("status", JStr("failed")),
        ("progress", JInt(0)),
        ("message", JStr(FailedMessage(error))),
        ("error", error),
        ("timestamp", JInt(Seconds(now)))]))
    else NoCallback
  }

  // ---------------------------------------------------------------------
  // `handle_execution_events_with_ws_and_callback`

  /** The event data after the prompt id has been filled in. */
  function Completed(t: Tables, data: Dict<string, Json>): Dict<string, Json>
  {
    if Resolves(t, data) then Put(data, "prompt_id", ResolvedPid(t, data)) else data
  }

  /** What happens to an event of a tracked task, once its prompt id is
      known: progress tracking, the push item, the callback item when the
      task has a callback URL, and the end of the client mapping on a final
      event. */
  function HandleTracked(t: Tables, event: string, pid: string, client: Json, d: Dict<string, Json>,
                         queue: seq<QueueEntry>, now: nat): Effect
  {
    var u := UpdateProgress(t, event, pid, client, d, queue, now);
    if u.raised then u
    else
      var pushed := u.items + [Push(pid, event, JObj(d))];
      match PrepareCallbackData(u.t, event, pid, client, d, now)
      case CallbackRaised => Effect(u.t, pushed, true)
      case NoCallback => Effect(u.t, pushed, false)
      case CallbackData(name, body) =>
        var items := if pid in u.t.callbackUrls then pushed + [Callback(pid, name, body)] else pushed;
        var drop := IsTerminal(event) && IsKey(client) && client.s in Keys(u.t.clientPrompts);
        Effect(if drop then u.t.(clientPrompts := RemoveKey(u.t.clientPrompts, client.s)) else u.t,
               items, false)
  }

  function HandleExecution(enabled: bool, t: Tables, event: string, data: Dict<string, Json>,
                           queue: seq<QueueEntry>, now: nat): Step
  {
    if !enabled then Step(t, [], data, false)
    else
      var p := ResolvedPid(t, data);
      var d := Completed(t, data);
      if !IsKey(p) || !ApiTask(t, p.s) then Step(t, [], d, false)
      else
        var e := HandleTracked(t, event, p.s, Get(data, "client_id"), d, queue, now);
        Step(e.t, e.items, d, e.raised)
  }

  // ---------------------------------------------------------------------
  // `safe_handle_progress`

  /** The throttle entries of tasks still being tracked. */
  function TrackedOnly(th: map<string, int>, wp: map<string, WorkflowProgress>): (r: map<string, int>)
    ensures r.Keys == th.Keys * wp.Keys
    ensures forall k :: k in r ==> r[k] == th[k]
  {
    map k | k in th && k in wp :: th[k]
  }

  function SafeProgress(enabled: bool, t: Tables, data: Dict<string, Json>, now: nat): Effect
  {
    if !enabled then Effect(t, [], false)
    else
      var p := ResolvedPid(t, data);
      if !IsKey(p) || !ApiTask(t, p.s) then Effect(t, [], false)
      else
        var pid := p.s;
        var percent := if pid in t.workflowProgress then t.workflowProgress[pid].percent else 0;
        var last := if pid in t.progressThrottle then t.progressThrottle[pid] else 0;
        var due := now - last >= ThrottleInterval;
        var th := if due then t.progressThrottle[pid := now] else t.progressThrottle;
        var details := if pid in t.workflowProgress then ProgressJson(t.workflowProgress[pid]) else JObj([]);
        var items := if due then [Push(pid, "task_workflow_progress", JObj([
                       ("prompt_id", JStr(pid)),
                       ("status", JStr("running")),
                       ("progress", JInt(percent)),
                       ("progress_details", details)]))]
                     else [];
        Effect(t.(progressThrottle := TrackedOnly(th, t.workflowProgress)), items, false)
  }
}
