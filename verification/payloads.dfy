/** What `send_task_update` and `send_machine_task_update` in custom_routes.py
    send to websockets: the queued event data, enriched from the registry
    with that task's status, live status and progress. Every function here
    returns `None` where the source raises. */
module Payloads {

  import opened Base
  import opened Text
  import opened Tasks
  import opened Events

  // ---------------------------------------------------------------------
  // `get_node_class_type`

  /** The `class_type` of a node of that task's workflow; the node id when
      that task is not tracked, its workflow is empty or lacks the node, or
      the node has no `class_type`. `None` when the node's entry is not a
      dict: reading `class_type` from it raises. */
  function NodeClassType(t: Tables, pid: string, node: string): (r: Option<Json>)
    ensures pid !in t.workflowNodes ==> r == Some(JStr(node))
    ensures pid in t.workflowNodes && Find(t.workflowNodes[pid].definition, node).None? ==> r == Some(JStr(node))
    ensures r.None? <==> (pid in t.workflowNodes &&
                           exists info: Json :: (!info.JObj? && Find(t.workflowNodes[pid].definition, node) == Some(info)))
  {
    if pid !in t.workflowNodes then Some(JStr(node))
    else
      match Find(t.workflowNodes[pid].definition, node)
      case None => Some(JStr(node))
      case Some(info) =>
        if !info.JObj? then None
        else match Find(info.fields, "class_type")
          case Some(c) => Some(c)
          case None => Some(JStr(node))
  }

  /** Once a task has started from a queued workflow, a node of that
      workflow reports the `class_type` it was submitted with. */
  lemma ClassTypeAfterStart(t: Tables, pid: string, client: Json, queue: seq<QueueEntry>, now: nat,
                            wf: Dict<string, Json>, node: string, c: Json)
    requires FindWorkflow(queue, pid) == Some(wf)
    requires exists fs :: Find(wf, node) == Some(JObj(fs)) && Find(fs, "class_type") == Some(c)
    ensures NodeClassType(Start(t, pid, client, queue, now).t, pid, node) == Some(c)
  {
    var fs :| Find(wf, node) == Some(JObj(fs)) && Find(fs, "class_type") == Some(c);
    assert wf != [];
    var s := Start(t, pid, client, queue, now).t;
    assert s.workflowNodes[pid].definition == wf;
  }

  // ---------------------------------------------------------------------
  // Live status

  /** `workflow_progress.get(prompt_id, {}).get("percent", 0)` */
  function PercentOf(t: Tables, pid: string): int
  {
    if pid in t.workflowProgress then t.workflowProgress[pid].percent else 0
  }

  /** `current_node or active_node`, when it is truthy. */
  function CurrentNode(t: Tables, pid: string): (r: Option<string>)
    ensures r.Some? ==> r.value != ""
    ensures r.Some? ==> (pid in t.workflowProgress && t.workflowProgress[pid].currentNode == r)
                        || (pid in t.workflowNodes && t.workflowNodes[pid].activeNode == r)
  {
    var cur := if pid in t.workflowProgress then t.workflowProgress[pid].currentNode else None;
    var act := if pid in t.workflowNodes then t.workflowNodes[pid].activeNode else None;
    if cur.Some? && cur.value != "" then cur
    else if act.Some? && act.value != "" then act
    else None
  }

  /** Sets `live_status` to the class type of the node that task is on, and
      `node_id` to that node; with no such node `live_status` is `fallback`. */
  function RunningStatus(t: Tables, pid: string, fallback: Json, d: Dict<string, Json>): (r: Option<Dict<string, Json>>)
    ensures r.None? <==> CurrentNode(t, pid).Some? && NodeClassType(t, pid, CurrentNode(t, pid).value).None?
    ensures r.Some? ==> Find(r.value, "live_status").Some?
    ensures r.Some? ==> forall k :: k != "live_status" && k != "node_id" ==> Find(r.value, k) == Find(d, k)
    ensures r.Some? && CurrentNode(t, pid).None? ==> Find(r.value, "live_status") == Some(fallback)
    ensures r.Some? && CurrentNode(t, pid).Some? ==>
              Find(r.value, "node_id") == Some(JStr(CurrentNode(t, pid).value))
  {
    match CurrentNode(t, pid)
    case None => Some(Put(d, "live_status", fallback))
    case Some(n) =>
      match NodeClassType(t, pid, n)
      case None => None
      case Some(c) => Some(Put(Put(d, "live_status", c), "node_id", JStr(n)))
  }

  // ---------------------------------------------------------------------
  // `send_task_update`: enrichment, one event kind at a time

  /** The `status` event: that task's percent, and a status and live status
      normalised from the reported status. */
  function StatusEnriched(t: Tables, pid: string, d: Dict<string, Json>): (r: Option<Dict<string, Json>>)
    ensures r.Some? ==> Find(r.value, "progress") == Some(JInt(PercentOf(t, pid)))
    ensures r.Some? && Find(d, "status") == Some(JStr("completed")) ==>
              Find(r.value, "status") == Some(JStr("success")) && Find(r.value, "live_status") == Some(JStr("completed"))
    ensures r.Some? && Find(d, "status") in {Some(JStr("error")), Some(JStr("failed"))} ==>
              Find(r.value, "status") == Some(JStr("failed")) && Find(r.value, "live_status") == Some(JStr("failed"))
    ensures r.Some? && Find(d, "status").Some? ==> Find(r.value, "live_status").Some?
    ensures r.None? ==> Find(d, "status").Some?
  {
    var d1 := Put(d, "progress", JInt(PercentOf(t, pid)));
    match Find(d1, "status")
    case None => Some(d1)
    case Some(s) =>
      if s == JStr("completed") then Some(Marked(d1, "success", "completed"))
      else if s == JStr("error") || s == JStr("failed") then Some(Marked(d1, "failed", "failed"))
      else
        RunningStatus(t, pid, s, d1)
  }

  /** `setdefault`-style: `"running"` unless the data carries a status. */
  function WithStatus(d: Dict<string, Json>): (r: Dict<string, Json>)
    ensures Find(r, "status").Some?
    ensures Find(d, "status").Some? ==> r == d
    ensures forall k :: k != "status" ==> Find(r, k) == Find(d, k)
  {
    if "status" in Keys(d) then d else Put(d, "status", JStr("running"))
  }

  /** The three progress fields of a `progress` event. */
  function ProgressFields(d: Dict<string, Json>, percent: int, details: Json, info: Option<Json>): (r: Dict<string, Json>)
    ensures Find(r, "progress") == Some(JInt(percent)) && Find(r, "progress_details") == Some(details)
    ensures info.Some? ==> Find(r, "node_info") == info
    ensures forall k :: k != "progress" && k != "progress_details" && k != "node_info" ==> Find(r, k) == Find(d, k)
  {
    var d3 := Put(d, "progress", JInt(percent));
    var d4 := Put(d3, "progress_details", details);
    if info.Some? then Put(d4, "node_info", info.value) else d4
  }

  /** The `progress` event: a status, the live status, that task's percent,
      its progress record and, when tracked, its node record. */
  function ProgressEnriched(t: Tables, pid: string, d: Dict<string, Json>): (r: Option<Dict<string, Json>>)
    ensures r.Some? ==> Find(r.value, "progress") == Some(JInt(PercentOf(t, pid)))
    ensures r.Some? ==> Find(r.value, "status").Some? && Find(r.value, "live_status").Some?
    ensures r.Some? && pid in t.workflowProgress ==>
              Find(r.value, "progress_details") == Some(ProgressJson(t.workflowProgress[pid]))
    ensures r.Some? && pid in t.workflowNodes ==>
              Find(r.value, "node_info") == Some(NodesJson(t.workflowNodes[pid]))
  {
    match RunningStatus(t, pid, JStr("running"), WithStatus(d))
    case None => None
    case Some(d2) =>
      var details := if pid in t.workflowProgress then ProgressJson(t.workflowProgress[pid]) else JObj([]);
      var info := if pid in t.workflowNodes then Some(NodesJson(t.workflowNodes[pid])) else None;
      var r := ProgressFields(d2, PercentOf(t, pid), details, info);
      assert Find(r, "status") == Find(d2, "status") && Find(r, "live_status") == Find(d2, "live_status");
      Some(r)
  }

  /** Python's `int(v)` where ValueError and TypeError are caught and give 0. */
  function IntOf(v: Json): int
  {
    match v
    case JInt(i) => i
    case JBool(b) => if b then 1 else 0
    case JStr(s) => (match ParseInt(s) case Some(i) => i case None => 0)
    case _ => 0
  }

  /** The `task_workflow_progress` event: a status and the live status; a
      `progress` field made an int, or else copied from the `percent` of
      `progress_details`. */
  function WorkflowProgressEnriched(t: Tables, pid: string, d: Dict<string, Json>): (r: Option<Dict<string, Json>>)
    ensures r.Some? ==> Find(r.value, "status").Some? && Find(r.value, "live_status").Some?
    ensures r.Some? && Find(d, "status").Some? ==> Find(r.value, "status") == Find(d, "status")
    ensures r.Some? && Find(d, "progress").Some? ==>
              Find(r.value, "progress") == Some(JInt(IntOf(Find(d, "progress").value)))
    ensures r.Some? && Find(d, "progress").None? && Find(d, "progress_details").Some? &&
            Find(d, "progress_details").value.JObj? ==>
              Find(r.value, "progress") == Find(Find(d, "progress_details").value.fields, "percent")
    ensures r.None? ==> RunningStatus(t, pid, JStr("running"), WithStatus(d)).None? || Find(d, "progress_details").Some?
  {
    match RunningStatus(t, pid, JStr("running"), WithStatus(d))
    case None => None
    case Some(d2) =>
      assert Find(d2, "progress") == Find(d, "progress");
      assert Find(d2, "progress_details") == Find(d, "progress_details");
      match Find(d2, "progress")
      case Some(p) => Some(Put(d2, "progress", JInt(IntOf(p))))
      case None => DetailsPercent(d2)
  }

  /** `progress` copied from `progress_details["percent"]`. Testing
      `"percent" in details` on a value that is not a dict raises
      (TypeError), or finds it and then raises indexing the value. */
  function DetailsPercent(d: Dict<string, Json>): (r: Option<Dict<string, Json>>)
    ensures r.Some? ==> forall k :: k != "progress" ==> Find(r.value, k) == Find(d, k)
    ensures Find(d, "progress_details").None? ==> r == Some(d)
    ensures r.Some? && Find(d, "progress").None? && Find(d, "progress_details").Some? &&
            Find(d, "progress_details").value.JObj? ==>
              Find(r.value, "progress") == Find(Find(d, "progress_details").value.fields, "percent")
    ensures r.None? ==> Find(d, "progress_details").Some? && !Find(d, "progress_details").value.JObj?
  {
    var details: Option<Json> := Find(d, "progress_details");
    match details
    case None => Some(d)
    case Some(JObj(fs)) =>
      (match Find(fs, "percent") case Some(p) => Some(Put(d, "progress", p)) case None => Some(d))
    case Some(JStr(s)) => if Contains(s, "percent") then None else Some(d)
    case Some(JList(xs)) => if JStr("percent") in xs then None else Some(d)
    case Some(_) => None
  }

  /** `status` and `live_status` set together. */
  function Marked(d: Dict<string, Json>, status: string, live: string): (r: Dict<string, Json>)
    ensures Find(r, "status") == Some(JStr(status)) && Find(r, "live_status") == Some(JStr(live))
    ensures forall k :: k != "status" && k != "live_status" ==> Find(r, k) == Find(d, k)
  {
    Put(Put(d, "status", JStr(status)), "live_status", JStr(live))
  }

  /** The four fields every success event gets. */
  function SucceededFields(d: Dict<string, Json>): (r: Dict<string, Json>)
    ensures Find(r, "status") == Some(JStr("success")) && Find(r, "live_status") == Some(JStr("completed"))
    ensures Find(r, "progress") == Some(JInt(100)) && Find(r, "completed") == Some(JBool(true))
    ensures forall k :: (k != "status" && k != "live_status" && k != "progress" && k != "completed") ==>
              Find(r, k) == Find(d, k)
  {
    var m := Marked(d, "success", "completed");
    var p := Put(m, "progress", JInt(100));
    assert Find(p, "status") == Find(m, "status") && Find(p, "live_status") == Find(m, "live_status");
    Put(p, "completed", JBool(true))
  }

  /** `execution_success` and `task_success`: marked complete, and given the
      media of the engine's history entry for that task (`history`) when
      reading that entry raises nothing. */
  function SuccessEnriched(d: Dict<string, Json>, history: Option<Json>): (r: Dict<string, Json>)
    ensures Find(r, "status") == Some(JStr("success")) && Find(r, "live_status") == Some(JStr("completed"))
    ensures Find(r, "progress") == Some(JInt(100)) && Find(r, "completed") == Some(JBool(true))
    ensures forall k :: (k != "status" && k != "live_status" && k != "progress" && k != "completed" &&
                         k != "result" && k != "raw_outputs") ==> Find(r, k) == Find(d, k)
    ensures history.None? ==> r == SucceededFields(d)
  {
    var d1 := SucceededFields(d);
    match history
    case None => d1
    case Some(h) =>
      if !h.JObj? then d1
      else
        var outs := match Find(h.fields, "outputs") case Some(o) => o case None => JObj([]);
        if !outs.JObj? then d1
        else
          var c := OutputsMedia(Values(outs.fields));
          if !c.ok then d1 else WithOutputs(d1, MediaJson(c.media), outs)
  }

  /** The media summary and the raw outputs of a success event. */
  function WithOutputs(d: Dict<string, Json>, result: Json, raw: Json): (r: Dict<string, Json>)
    ensures Find(r, "result") == Some(result) && Find(r, "raw_outputs") == Some(raw)
    ensures forall k :: k != "result" && k != "raw_outputs" ==> Find(r, k) == Find(d, k)
  {
    Put(Put(d, "result", result), "raw_outputs", raw)
  }

  /** `execution_error` and `task_failed`. The error message is never added:
      the event data is a dict, which has no `exception_message` attribute. */
  function FailedEnriched(d: Dict<string, Json>): (r: Dict<string, Json>)
    ensures Find(r, "status") == Some(JStr("failed")) && Find(r, "live_status") == Some(JStr("failed"))
    ensures Find(r, "completed") == Some(JBool(true))
    ensures forall k :: k != "status" && k != "live_status" && k != "completed" ==> Find(r, k) == Find(d, k)
  {
    Put(Marked(d, "failed", "failed"), "completed", JBool(true))
  }

  /** The dict `send_task_update` works on: a copy of a dict, or the data
      wrapped as `original_data`. */
  function Copied(data: Json): (r: Dict<string, Json>)
    ensures data.JObj? ==> r == data.fields
    ensures !data.JObj? ==> Find(r, "original_data") == Some(data)
  {
    if data.JObj? then data.fields else [("original_data", data)]
  }

  /** The payload `send_task_update` pushes for an event; `None` when the
      enrichment raises, which only the status-reporting events can do. */
  function Enriched(t: Tables, pid: string, event: string, data: Json, history: Option<Json>): (r: Option<Json>)
    ensures r.Some? ==> r.value.JObj?
    ensures r.None? ==> event in ["status", "progress", "task_workflow_progress"]
    ensures (event !in ["status", "progress", "task_workflow_progress", "execution_success", "task_success",
                        "execution_error", "task_failed"]) ==> r == Some(JObj(Copied(data)))
  {
    var d := Copied(data);
    var e :=
      if event == "status" then StatusEnriched(t, pid, d)
      else if event == "progress" then ProgressEnriched(t, pid, d)
      else if event == "task_workflow_progress" then WorkflowProgressEnriched(t, pid, d)
      else if event == "execution_success" || event == "task_success" then Some(SuccessEnriched(d, history))
      else if event == "execution_error" || event == "task_failed" then Some(FailedEnriched(d))
      else Some(d);
    match e
    case None => None
    case Some(fs) => Some(JObj(fs))
  }

  /** The progress push that `safe_handle_progress` queues (a running
      status and that task's percent as an int) reaches the websockets with
      both unchanged. */
  lemma ProgressPushKeepsPercent(t: Tables, pid: string, fs: Dict<string, Json>, percent: int, history: Option<Json>)
    requires Find(fs, "status") == Some(JStr("running")) && Find(fs, "progress") == Some(JInt(percent))
    ensures var r := Enriched(t, pid, "task_workflow_progress", JObj(fs), history);
            r.Some? ==> Field(r.value, "progress") == Some(JInt(percent))
                        && Field(r.value, "status") == Some(JStr("running"))
  {
    var e := WorkflowProgressEnriched(t, pid, fs);
    assert Enriched(t, pid, "task_workflow_progress", JObj(fs), history) == if e.Some? then Some(JObj(e.value)) else None;
    if e.Some? {
      WorkflowProgressKeepsPercent(t, pid, fs, percent);
    }
  }

  lemma WorkflowProgressKeepsPercent(t: Tables, pid: string, fs: Dict<string, Json>, percent: int)
    requires Find(fs, "status") == Some(JStr("running")) && Find(fs, "progress") == Some(JInt(percent))
    ensures var e := WorkflowProgressEnriched(t, pid, fs);
            e.Some? ==> Find(e.value, "progress") == Some(JInt(percent)) && Find(e.value, "status") == Some(JStr("running"))
  {
    assert IntOf(JInt(percent)) == percent;
  }

  /** A success push reports the same media as the `task_success` callback
      when the engine's history holds the outputs the registry recorded and
      walking them raises nothing. */
  lemma SuccessMediaAgree(t: Tables, pid: string, client: Json, d: Dict<string, Json>, now: nat,
                          h: Dict<string, Json>)
    requires pid in t.executionOutputs
    requires Find(h, "outputs") == Some(JObj(t.executionOutputs[pid]))
    requires OutputsMedia(Values(t.executionOutputs[pid])).ok
    ensures var cb := PrepareCallbackData(t, "execution_success", pid, client, d, now);
            cb.CallbackData? && cb.body.JObj? && Field(cb.body, "result").Some?
            && Find(SuccessEnriched(d, Some(JObj(h))), "result") == Find(cb.body.fields, "result")
            && Find(SuccessEnriched(d, Some(JObj(h))), "raw_outputs") == Some(JObj(t.executionOutputs[pid]))
  {
    var outs := t.executionOutputs[pid];
    var m := MediaJson(OutputsMedia(Values(outs)).media);
    SuccessCallbackResult(t, pid, client, d, now);
    assert Find(SuccessEnriched(d, Some(JObj(h))), "result") == Some(m);
  }

  /** The `task_success` callback carries the media summary of the outputs
      the registry recorded. */
  lemma SuccessCallbackResult(t: Tables, pid: string, client: Json, d: Dict<string, Json>, now: nat)
    requires pid in t.executionOutputs
    ensures var cb := PrepareCallbackData(t, "execution_success", pid, client, d, now);
            cb.CallbackData? && cb.body.JObj?
            && Find(cb.body.fields, "result") == Some(MediaJson(OutputsMedia(Values(t.executionOutputs[pid])).media))
  {
    var cb := PrepareCallbackData(t, "execution_success", pid, client, d, now);
    var fs := cb.body.fields;
    assert fs[0].0 == "prompt_id" && fs[1].0 == "client_id" && fs[2].0 == "status" && fs[3].0 == "progress";
    assert fs[4].0 == "message" && fs[5].0 == "result";
    FindAt(fs, 5);
  }

  // ---------------------------------------------------------------------
  // `send_machine_task_update`, for data from `send_task_update`

  /** Adds a `live_status` derived from `status` when the data has a status
      and no live status yet; `None` where deriving it raises. */
  function MachinePayload(t: Tables, pid: string, d: Json): (r: Option<Json>)
    ensures r.Some? ==> r.value.JObj? == d.JObj?
    ensures r.Some? && d.JObj? ==> forall k :: k != "live_status" && k != "node_id" ==>
              Field(r.value, k) == Field(d, k)
    ensures r.Some? && Field(d, "status").Some? ==> Field(r.value, "live_status").Some?
    ensures Field(d, "status").None? || Field(d, "live_status").Some? ==> r == Some(d)
  {
    if d.JObj? && "status" in Keys(d.fields) && "live_status" !in Keys(d.fields) then
      var s := Get(d.fields, "status");
      if s == JStr("success") then Some(SetField(d, "live_status", JStr("completed")))
      else if s == JStr("failed") then Some(SetField(d, "live_status", JStr("failed")))
      else if s == JStr("running") then
        match RunningStatus(t, pid, JStr("running"), d.fields)
        case None => None
        case Some(fs) => Some(JObj(fs))
      else Some(SetField(d, "live_status", s))
    else Some(d)
  }

  /** Every machine of a task is sent the same dict object, which the first
      call completes in place: completing it again changes nothing, so each
      machine receives what the first one did. */
  lemma MachinePayloadIdempotent(t: Tables, pid: string, d: Json)
    requires MachinePayload(t, pid, d).Some?
    ensures MachinePayload(t, pid, MachinePayload(t, pid, d).value) == MachinePayload(t, pid, d)
  {
  }
}
