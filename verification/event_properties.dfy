/** Properties of the event handlers specified in module Events. */
module EventProperties {

  import opened Base
  import opened Text
  import opened Tasks
  import opened Channels
  import opened Events

  // ---------------------------------------------------------------------
  // The registry invariant is kept by every handler

  lemma ProgressCallbackKeepsValid(t: Tables, pid: string, client: Json, now: nat)
    requires Valid(t)
    ensures Valid(ProgressCallback(t, pid, client, now).t)
    ensures ProgressCallback(t, pid, client, now).t == t.(progressThrottle := ProgressCallback(t, pid, client, now).t.progressThrottle)
  {
  }

  lemma StartKeepsValid(t: Tables, pid: string, client: Json, queue: seq<QueueEntry>, now: nat)
    requires Valid(t)
    ensures Valid(Start(t, pid, client, queue, now).t)
  {
    var r := Start(t, pid, client, queue, now).t;
    assert TaskValid(r.workflowNodes[pid], r.workflowProgress[pid]);
  }

  lemma ExecutingTablesKeepValid(t: Tables, pid: string, n: string)
    requires Valid(t) && pid in t.workflowProgress
    ensures Valid(ExecutingTables(t, pid, n))
  {
    var wp := t.workflowProgress[pid];
    PutKeepsUniqueKeys(wp.nodeProgress, n, NodeStarted);
    PutKeys(wp.nodeProgress, n, NodeStarted);
    var r := ExecutingTables(t, pid, n);
    assert TaskValid(r.workflowNodes[pid], r.workflowProgress[pid]);
  }

  lemma ExecutingKeepsValid(t: Tables, pid: string, client: Json, node: Json, now: nat)
    requires Valid(t)
    ensures Valid(Executing(t, pid, client, node, now).t)
    ensures !Executing(t, pid, client, node, now).raised
  {
    if pid in t.workflowProgress && IsKey(node) {
      ExecutingTablesKeepValid(t, pid, node.s);
      ProgressCallbackKeepsValid(ExecutingTables(t, pid, node.s), pid, client, now);
    }
  }

  lemma ExecutedTablesKeepValid(t: Tables, pid: string, n: string, data: Dict<string, Json>)
    requires Valid(t) && pid in t.workflowProgress
    ensures Valid(ExecutedTables(t, pid, n, data))
  {
    var wp := t.workflowProgress[pid];
    PutKeepsUniqueKeys(wp.nodeProgress, n, NodeFinished);
    PutKeys(wp.nodeProgress, n, NodeFinished);
    var r := ExecutedTables(t, pid, n, data);
    assert TaskValid(r.workflowNodes[pid], r.workflowProgress[pid]);
  }

  lemma ExecutedKeepsValid(t: Tables, pid: string, client: Json, node: Json, data: Dict<string, Json>, now: nat)
    requires Valid(t)
    ensures Valid(Executed(t, pid, client, node, data, now).t)
    ensures !Executed(t, pid, client, node, data, now).raised
  {
    if pid in t.workflowNodes && pid in t.workflowProgress && IsKey(node) {
      ExecutedTablesKeepValid(t, pid, node.s, data);
      ProgressCallbackKeepsValid(ExecutedTables(t, pid, node.s, data), pid, client, now);
    }
  }

  lemma FinishedKeepsValid(t: Tables, pid: string, client: Json, now: nat)
    requires Valid(t)
    ensures Valid(Finished(t, pid, client, now).t)
    ensures !Finished(t, pid, client, now).raised
  {
    if pid in t.workflowProgress {
      var wp := t.workflowProgress[pid];
      var t' := t.(workflowProgress := t.workflowProgress[pid := wp.(percent := 100)]);
      assert TaskValid(t.workflowNodes[pid], wp.(percent := 100));
      assert Valid(t');
      ProgressCallbackKeepsValid(t', pid, client, now);
    }
  }

  lemma UpdateKeepsValid(t: Tables, event: string, pid: string, client: Json, data: Dict<string, Json>,
                         queue: seq<QueueEntry>, now: nat)
    requires Valid(t)
    ensures Valid(UpdateProgress(t, event, pid, client, data, queue, now).t)
    ensures !UpdateProgress(t, event, pid, client, data, queue, now).raised
  {
    if event == "execution_start" {
      StartKeepsValid(t, pid, client, queue, now);
    } else if event == "executing" {
      ExecutingKeepsValid(t, pid, client, Get(data, "node"), now);
    } else if event == "executed" {
      ExecutedKeepsValid(t, pid, client, Get(data, "node"), data, now);
    } else if IsTerminal(event) {
      FinishedKeepsValid(t, pid, client, now);
    }
  }

  /** Every execution event keeps the registry invariant, and no handler
      raises on a registry that satisfies it except for the success event of
      a task that never started. */
  lemma HandleKeepsValid(enabled: bool, t: Tables, event: string, data: Dict<string, Json>,
                         queue: seq<QueueEntry>, now: nat)
    requires Valid(t)
    ensures Valid(HandleExecution(enabled, t, event, data, queue, now).t)
    ensures HandleExecution(enabled, t, event, data, queue, now).raised ==>
              event == "execution_success" && IsKey(ResolvedPid(t, data))
              && ResolvedPid(t, data).s !in t.executionOutputs
  {
    var p := ResolvedPid(t, data);
    if enabled && IsKey(p) && ApiTask(t, p.s) {
      HandleTrackedKeepsValid(t, event, p.s, Get(data, "client_id"), Completed(t, data), queue, now);
      HandleTrackedRaises(t, event, p.s, Get(data, "client_id"), Completed(t, data), queue, now);
    }
  }

  lemma HandleTrackedKeepsValid(t: Tables, event: string, pid: string, client: Json, d: Dict<string, Json>,
                                queue: seq<QueueEntry>, now: nat)
    requires Valid(t)
    ensures Valid(HandleTracked(t, event, pid, client, d, queue, now).t)
  {
    UpdateKeepsValid(t, event, pid, client, d, queue, now);
    var u := UpdateProgress(t, event, pid, client, d, queue, now);
    if IsKey(client) && client.s in Keys(u.t.clientPrompts) {
      RemoveKeyKeepsUniqueKeys(u.t.clientPrompts, client.s);
      assert Valid(u.t.(clientPrompts := RemoveKey(u.t.clientPrompts, client.s)));
    }
  }

  /** On a valid registry a tracked event raises only as the success event
      of a task without an outputs entry. */
  lemma HandleTrackedRaises(t: Tables, event: string, pid: string, client: Json, d: Dict<string, Json>,
                            queue: seq<QueueEntry>, now: nat)
    requires Valid(t)
    ensures HandleTracked(t, event, pid, client, d, queue, now).raised ==>
              event == "execution_success" && pid !in t.executionOutputs
  {
    UpdateKeepsValid(t, event, pid, client, d, queue, now);
    if IsTerminal(event) {
      FinishedKeepsTables(t, pid, client, now);
    }
  }

  /** The final events change only the percent and the throttle stamp. */
  lemma FinishedKeepsTables(t: Tables, pid: string, client: Json, now: nat)
    ensures var r := Finished(t, pid, client, now).t;
            r == t.(workflowProgress := r.workflowProgress, progressThrottle := r.progressThrottle)
  {
  }

  lemma SafeProgressKeepsValid(enabled: bool, t: Tables, data: Dict<string, Json>, now: nat)
    requires Valid(t)
    ensures Valid(SafeProgress(enabled, t, data, now).t)
  {
  }

  // ---------------------------------------------------------------------
  // What an execution event enqueues

  /** The push items of a queue, in order. */
  function Pushes(items: seq<Item>): (r: seq<Item>)
    ensures forall i :: i in r ==> i in items && i.Push?
  {
    if items == [] then [] else (if items[0].Push? then [items[0]] else []) + Pushes(items[1..])
  }

  lemma {:induction false} PushesConcat(a: seq<Item>, b: seq<Item>)
    ensures Pushes(a + b) == Pushes(a) + Pushes(b)
  {
    if a == [] {
      assert a + b == b;
    } else {
      assert (a + b)[0] == a[0];
      assert (a + b)[1..] == a[1..] + b;
      PushesConcat(a[1..], b);
    }
  }

  lemma {:induction false} NoPushes(items: seq<Item>)
    requires forall i :: i in items ==> i.Callback?
    ensures Pushes(items) == []
  {
    if items != [] {
      NoPushes(items[1..]);
    }
  }

  /** The progress callback enqueues at most one item, a callback for the
      task itself. */
  lemma ProgressCallbackItems(t: Tables, pid: string, client: Json, now: nat)
    ensures var e := ProgressCallback(t, pid, client, now);
            |e.items| <= 1 && forall i :: i in e.items ==> i.Callback? && i.pid == pid
  {
  }

  lemma UpdateEnqueuesCallbacksOnly(t: Tables, event: string, pid: string, client: Json, data: Dict<string, Json>,
                                    queue: seq<QueueEntry>, now: nat)
    ensures forall i :: i in UpdateProgress(t, event, pid, client, data, queue, now).items ==> i.Callback? && i.pid == pid
  {
    var node := Get(data, "node");
    if event == "executing" {
      ExecutingEnqueuesCallbackOnly(t, pid, client, node, now);
    } else if event == "executed" {
      ExecutedEnqueuesCallbackOnly(t, pid, client, node, data, now);
    } else if IsTerminal(event) {
      if pid in t.workflowProgress {
        var wp := t.workflowProgress[pid];
        ProgressCallbackItems(t.(workflowProgress := t.workflowProgress[pid := wp.(percent := 100)]), pid, client, now);
      }
    }
  }

  lemma ExecutingEnqueuesCallbackOnly(t: Tables, pid: string, client: Json, node: Json, now: nat)
    ensures forall i :: i in Executing(t, pid, client, node, now).items ==> i.Callback? && i.pid == pid
  {
    if pid in t.workflowProgress && IsKey(node) && pid in t.workflowNodes {
      ProgressCallbackItems(ExecutingTables(t, pid, node.s), pid, client, now);
    }
  }

  lemma ExecutedEnqueuesCallbackOnly(t: Tables, pid: string, client: Json, node: Json, data: Dict<string, Json>,
                                     now: nat)
    ensures forall i :: i in Executed(t, pid, client, node, data, now).items ==> i.Callback? && i.pid == pid
  {
    if pid in t.workflowNodes && pid in t.workflowProgress && IsKey(node) && pid in t.executionOutputs {
      ProgressCallbackItems(ExecutedTables(t, pid, node.s, data), pid, client, now);
    }
  }

  /** An event is ignored, changing nothing and enqueuing nothing, exactly
      when handling is off, its task cannot be resolved, or that task is not
      an API task. Otherwise exactly one push item carries the event and
      its (completed) data. */
  lemma OnePushPerTrackedEvent(enabled: bool, t: Tables, event: string, data: Dict<string, Json>,
                               queue: seq<QueueEntry>, now: nat)
    requires Valid(t)
    ensures var s := HandleExecution(enabled, t, event, data, queue, now);
            var p := ResolvedPid(t, data);
            && (s.items == [] <==> !(enabled && IsKey(p) && ApiTask(t, p.s)))
            && (s.items == [] ==> s.t == t && !s.raised)
            && (s.items != [] ==> Pushes(s.items) == [Push(p.s, event, JObj(Completed(t, data)))])
  {
    var p := ResolvedPid(t, data);
    if enabled && IsKey(p) && ApiTask(t, p.s) {
      TrackedEventPushesOnce(t, event, p.s, Get(data, "client_id"), Completed(t, data), queue, now);
    }
  }

  /** A tracked event enqueues exactly one push: the event itself. */
  lemma TrackedEventPushesOnce(t: Tables, event: string, pid: string, client: Json, d: Dict<string, Json>,
                               queue: seq<QueueEntry>, now: nat)
    requires Valid(t)
    ensures var e := HandleTracked(t, event, pid, client, d, queue, now);
            e.items != [] && Pushes(e.items) == [Push(pid, event, JObj(d))]
  {
    UpdateKeepsValid(t, event, pid, client, d, queue, now);
    var u := UpdateProgress(t, event, pid, client, d, queue, now);
    UpdateEnqueuesCallbacksOnly(t, event, pid, client, d, queue, now);
    NoPushes(u.items);
    var pushed := u.items + [Push(pid, event, JObj(d))];
    PushesConcat(u.items, [Push(pid, event, JObj(d))]);
    assert Pushes([Push(pid, event, JObj(d))]) == [Push(pid, event, JObj(d))];
    match PrepareCallbackData(u.t, event, pid, client, d, now)
    case CallbackData(name, body) =>
      if pid in u.t.callbackUrls {
        PushesConcat(pushed, [Callback(pid, name, body)]);
        assert Pushes([Callback(pid, name, body)]) == [];
      }
    case _ =>
  }

  /** `execution_start` of a task with a callback URL enqueues the
      `task_started` callback twice, around the push; without a URL the
      first one is still enqueued (and later dropped on delivery). */
  lemma StartEnqueuesTaskStartedTwice(t: Tables, data: Dict<string, Json>, queue: seq<QueueEntry>, now: nat)
    requires IsKey(ResolvedPid(t, data)) && ApiTask(t, ResolvedPid(t, data).s)
    ensures var pid := ResolvedPid(t, data).s;
            var started := Callback(pid, "task_started", StartedBody(pid, Get(data, "client_id"), now));
            var push := Push(pid, "execution_start", JObj(Completed(t, data)));
            HandleExecution(true, t, "execution_start", data, queue, now).items
              == if pid in t.callbackUrls then [started, push, started] else [started, push]
  {
  }

  // ---------------------------------------------------------------------
  // `executing` and `executed`

  /** `executing` for node n of a started task: n joins the execution order
      only if absent, the completed count grows only if n had no progress
      entry, n's entry is reset to 0 even if it had finished, and the
      percent is the clamped-from-above quotient. */
  lemma ExecutingFacts(t: Tables, pid: string, n: string)
    requires pid in t.workflowNodes && pid in t.workflowProgress
    ensures var r := ExecutingTables(t, pid, n);
            var wp := t.workflowProgress[pid];
            var wn := t.workflowNodes[pid];
            var wp' := r.workflowProgress[pid];
            var wn' := r.workflowNodes[pid];
            && wp'.executionOrder == (if n in wp.executionOrder then wp.executionOrder else wp.executionOrder + [n])
            && wn'.completed == (if n in Keys(wp.nodeProgress) then wn.completed else wn.completed + 1)
            && wn'.total == wn.total
            && Find(wp'.nodeProgress, n) == Some(NodeStarted)
            && (forall m :: m != n ==> Find(wp'.nodeProgress, m) == Find(wp.nodeProgress, m))
            && wp'.percent == Percent(wn'.completed, if wn.total <= 0 then 1 else wn.total)
            && wp'.percent <= 100
            && wp'.currentNode == wn'.activeNode == Some(n)
  {
  }

  /** On a valid registry, `executing` for a tracked task does exactly that
      bookkeeping, apart from the throttle stamp. */
  lemma ExecutingUpdatesTables(t: Tables, pid: string, client: Json, n: string, now: nat)
    requires Valid(t) && pid in t.workflowProgress && n != ""
    ensures pid in t.workflowNodes
    ensures var r := Executing(t, pid, client, JStr(n), now).t;
            r == ExecutingTables(t, pid, n).(progressThrottle := r.progressThrottle)
  {
    ProgressCallbackKeepsTables(ExecutingTables(t, pid, n), pid, client, now);
  }

  /** `executed` for node n records it as finished, stores its output and
      clears the active node, and leaves the completed count, the percent
      and the execution order alone. */
  lemma ExecutedFacts(t: Tables, pid: string, n: string, data: Dict<string, Json>)
    requires pid in t.workflowNodes && pid in t.workflowProgress && pid in t.executionOutputs
    ensures var r := ExecutedTables(t, pid, n, data);
            var wp' := r.workflowProgress[pid];
            var wn' := r.workflowNodes[pid];
            && Find(wp'.nodeProgress, n) == Some(NodeFinished)
            && (forall m :: m != n ==> Find(wp'.nodeProgress, m) == Find(t.workflowProgress[pid].nodeProgress, m))
            && Find(r.executionOutputs[pid], n) == Some(OutputOf(data))
            && wn'.activeNode == None
            && wn'.completed == t.workflowNodes[pid].completed
            && wp'.percent == t.workflowProgress[pid].percent
            && wp'.executionOrder == t.workflowProgress[pid].executionOrder
  {
  }

  /** On a valid registry, `executed` for a tracked task does exactly that
      bookkeeping, apart from the throttle stamp. */
  lemma ExecutedUpdatesTables(t: Tables, pid: string, client: Json, n: string, data: Dict<string, Json>, now: nat)
    requires Valid(t) && pid in t.workflowProgress && n != ""
    ensures pid in t.workflowNodes && pid in t.executionOutputs
    ensures var r := Executed(t, pid, client, JStr(n), data, now).t;
            r == ExecutedTables(t, pid, n, data).(progressThrottle := r.progressThrottle)
  {
    ProgressCallbackKeepsTables(ExecutedTables(t, pid, n, data), pid, client, now);
  }

  /** Recording node n as finished a second time changes nothing. */
  lemma ExecutedTablesTwice(t: Tables, pid: string, n: string, data: Dict<string, Json>)
    requires pid in t.workflowNodes && pid in t.workflowProgress && pid in t.executionOutputs
    ensures ExecutedTables(ExecutedTables(t, pid, n, data), pid, n, data) == ExecutedTables(t, pid, n, data)
  {
    var e := ExecutedTables(t, pid, n, data);
    var e2 := ExecutedTables(e, pid, n, data);
    PutTwice(t.workflowProgress[pid].nodeProgress, n, NodeFinished);
    PutTwice(t.executionOutputs[pid], n, OutputOf(data));
    assert e2.workflowProgress[pid] == e.workflowProgress[pid];
    assert e2.workflowProgress == e.workflowProgress;
    assert e2.executionOutputs[pid] == e.executionOutputs[pid];
    assert e2.executionOutputs == e.executionOutputs;
    assert e2.workflowNodes == e.workflowNodes;
  }

  /** A repeated `executed` event for the same node and output leaves the
      tables as the first one did. */
  lemma ExecutedIdempotent(t: Tables, pid: string, client: Json, n: string, data: Dict<string, Json>, now: nat)
    requires Valid(t) && n != ""
    ensures var r := Executed(t, pid, client, JStr(n), data, now).t;
            Executed(r, pid, client, JStr(n), data, now).t == r
  {
    if pid in t.workflowProgress {
      ExecutedTwice(t, pid, client, n, data, now);
    }
  }

  lemma ExecutedTwice(t: Tables, pid: string, client: Json, n: string, data: Dict<string, Json>, now: nat)
    requires pid in t.workflowNodes && pid in t.workflowProgress && pid in t.executionOutputs && n != ""
    ensures var r := Executed(t, pid, client, JStr(n), data, now).t;
            Executed(r, pid, client, JStr(n), data, now).t == r
  {
    var e := ExecutedTables(t, pid, n, data);
    var r := ProgressCallback(e, pid, client, now).t;
    assert Executed(t, pid, client, JStr(n), data, now).t == r;
    ProgressCallbackKeepsTables(e, pid, client, now);
    ExecutedTablesTwice(t, pid, n, data);
    ExecutedTablesIgnoresThrottle(e, pid, n, data, r.progressThrottle);
    assert ExecutedTables(r, pid, n, data) == r;
    assert Executed(r, pid, client, JStr(n), data, now).t == ProgressCallback(r, pid, client, now).t;
    ProgressCallbackTwice(e, pid, client, now);
  }

  /** Stamping the throttle twice at the same time is stamping it once. */
  lemma ProgressCallbackTwice(t: Tables, pid: string, client: Json, now: nat)
    ensures var r := ProgressCallback(t, pid, client, now).t;
            ProgressCallback(r, pid, client, now).t == r
  {
  }

  lemma ProgressCallbackKeepsTables(t: Tables, pid: string, client: Json, now: nat)
    ensures ProgressCallback(t, pid, client, now).t == t.(progressThrottle := ProgressCallback(t, pid, client, now).t.progressThrottle)
  {
  }

  lemma ExecutedTablesIgnoresThrottle(t: Tables, pid: string, n: string, data: Dict<string, Json>, th: map<string, int>)
    requires pid in t.workflowNodes && pid in t.workflowProgress && pid in t.executionOutputs
    ensures ExecutedTables(t.(progressThrottle := th), pid, n, data) == ExecutedTables(t, pid, n, data).(progressThrottle := th)
  {
  }

  /** The progress callback is sent on every executing, executed and final
      event of a task with a callback URL: the throttle table is stamped but
      never consulted. */
  lemma ProgressCallbackIgnoresThrottle(t: Tables, pid: string, client: Json, now: nat, stamps: map<string, int>)
    requires pid in t.workflowProgress && pid in t.callbackUrls
    ensures var e := ProgressCallback(t.(progressThrottle := stamps), pid, client, now);
            |e.items| == 1 && e.items[0].event == "task_workflow_progress"
            && e.t.progressThrottle == stamps[pid := now]
  {
  }

  // ---------------------------------------------------------------------
  // The overall percent

  /** The percent of a task agrees with its completed count, or that task
      has just started. */
  predicate PercentConsistent(wn: WorkflowNodes, wp: WorkflowProgress)
  {
    (wn.completed == 0 && wp.percent == 0)
    || wp.percent == Percent(wn.completed, if wn.total <= 0 then 1 else wn.total)
  }

  lemma MulStrict(d: int, x: int, y: int)
    requires d > 0 && d * x < d * y
    ensures x < y
  {
  }

  lemma DivMonotone(a: int, b: int, d: int)
    requires 0 <= a <= b && d > 0
    ensures 0 <= a / d <= b / d
  {
    var qa, qb := a / d, b / d;
    assert d * qa <= a;
    assert b < d * qb + d;
    assert d * qb + d == d * (qb + 1);
    MulStrict(d, qa, qb + 1);
    assert d * 0 < d * (qa + 1);
    MulStrict(d, 0, qa + 1);
  }

  lemma TruncDivMonotone(a: int, b: int, d: int)
    requires a <= b && d > 0
    ensures TruncDiv(a, d) <= TruncDiv(b, d)
  {
    if 0 <= a {
      DivMonotone(a, b, d);
    } else if b < 0 {
      DivMonotone(-b, -a, d);
    } else {
      DivMonotone(0, -a, d);
      DivMonotone(0, b, d);
    }
  }

  lemma PercentMonotone(c: int, c': int, total: int)
    requires c <= c' && total > 0
    ensures Percent(c, total) <= Percent(c', total)
  {
    TruncDivMonotone((c - 1) * 100, (c' - 1) * 100, total);
  }

  /** A start leaves the percent consistent. */
  lemma StartIsConsistent(t: Tables, pid: string, client: Json, queue: seq<QueueEntry>, now: nat)
    ensures var r := Start(t, pid, client, queue, now).t;
            PercentConsistent(r.workflowNodes[pid], r.workflowProgress[pid])
  {
  }

  /** `executed` leaves the count, the total and the percent alone, so it
      keeps them consistent. */
  lemma ExecutedKeepsPercent(t: Tables, pid: string, client: Json, node: Json, data: Dict<string, Json>, now: nat)
    requires Valid(t) && pid in t.workflowProgress
    ensures var r := Executed(t, pid, client, node, data, now).t;
            && pid in r.workflowNodes && pid in r.workflowProgress
            && r.workflowNodes[pid].completed == t.workflowNodes[pid].completed
            && r.workflowNodes[pid].total == t.workflowNodes[pid].total
            && r.workflowProgress[pid].percent == t.workflowProgress[pid].percent
  {
    if IsKey(node) {
      var e := ExecutedTables(t, pid, node.s, data);
      assert Executed(t, pid, client, node, data, now).t == ProgressCallback(e, pid, client, now).t;
      ProgressCallbackKeepsTables(e, pid, client, now);
    }
  }

  /** Across `executing` events after a start the percent keeps agreeing
      with the completed count and never falls, unless an `executing`
      arrives for a node already recorded while nothing has been counted
      yet (see ExecutedThenExecutingGoesNegative). */
  lemma PercentNeverFalls(t: Tables, pid: string, n: string)
    requires pid in t.workflowNodes && pid in t.workflowProgress
    requires PercentConsistent(t.workflowNodes[pid], t.workflowProgress[pid])
    ensures var r := ExecutingTables(t, pid, n);
            PercentConsistent(r.workflowNodes[pid], r.workflowProgress[pid])
            && (t.workflowNodes[pid].completed > 0 || n !in Keys(t.workflowProgress[pid].nodeProgress)
                ==> r.workflowProgress[pid].percent >= t.workflowProgress[pid].percent)
  {
    var wn := t.workflowNodes[pid];
    var wp := t.workflowProgress[pid];
    var r := ExecutingTables(t, pid, n);
    var isNew := n !in Keys(wp.nodeProgress);
    ExecutingCounts(t, pid, n);
    PercentStep(wn.completed, r.workflowNodes[pid].completed, wn.total, wp.percent, r.workflowProgress[pid].percent, isNew);
  }

  /** The numbers `executing` changes: the count, and the percent from it. */
  lemma ExecutingCounts(t: Tables, pid: string, n: string)
    requires pid in t.workflowNodes && pid in t.workflowProgress
    ensures var wn := t.workflowNodes[pid];
            var c' := if n in Keys(t.workflowProgress[pid].nodeProgress) then wn.completed else wn.completed + 1;
            var r := ExecutingTables(t, pid, n);
            && r.workflowNodes[pid].completed == c' && r.workflowNodes[pid].total == wn.total
            && r.workflowProgress[pid].percent == Percent(c', if wn.total <= 0 then 1 else wn.total)
  {
  }

  /** One step of the completed count, on numbers alone. */
  lemma PercentStep(c: int, c': int, total: int, p: int, p': int, isNew: bool)
    requires c' == if isNew then c + 1 else c
    requires p' == Percent(c', if total <= 0 then 1 else total)
    requires (c == 0 && p == 0) || p == Percent(c, if total <= 0 then 1 else total)
    ensures (c' == 0 && p' == 0) || p' == Percent(c', if total <= 0 then 1 else total)
    ensures c > 0 || isNew ==> p' >= p
  {
    var d := if total <= 0 then 1 else total;
    PercentMonotone(c, c', d);
    assert Percent(1, d) == 0;
  }

  /** The percent is clamped only from above: a node reported `executed`
      before its `executing` event, in a task whose workflow was not found
      in the queue, drives the percent from 0 to -1. */
  lemma ExecutedThenExecutingGoesNegative(t: Tables, pid: string, client: Json, n: string,
                                          data: Dict<string, Json>, now: nat)
    ensures var t1 := Start(t, pid, client, [], now).t;
            && pid in t1.workflowNodes && pid in t1.workflowProgress && pid in t1.executionOutputs
            && t1.workflowProgress[pid].percent == 0
    ensures var t1 := Start(t, pid, client, [], now).t;
            var t2 := ExecutedTables(t1, pid, n, data);
            && t2.workflowProgress[pid].percent == 0
            && ExecutingTables(t2, pid, n).workflowProgress[pid].percent == -1
  {
    var t1 := Start(t, pid, client, [], now).t;
    var t2 := ExecutedTables(t1, pid, n, data);
    ExecutedFacts(t1, pid, n, data);
    assert n in Keys(t2.workflowProgress[pid].nodeProgress);
    assert t2.workflowNodes[pid].completed == 0 && t2.workflowNodes[pid].total == 100;
    ExecutingCounts(t2, pid, n);
    assert TruncDiv(-100, 100) == -1;
  }

  // ---------------------------------------------------------------------
  // `safe_handle_progress`

  /** A progress event of an API task enqueues one `task_workflow_progress`
      push exactly when 0.5 s have passed since that task's last stamp
      (0 when none), stamps that task only then, and afterwards the throttle
      table keeps only tasks still tracked. Any other progress event
      changes nothing. */
  lemma ThrottleIff(t: Tables, data: Dict<string, Json>, now: nat)
    ensures var e := SafeProgress(true, t, data, now);
            var p := ResolvedPid(t, data);
            if IsKey(p) && ApiTask(t, p.s) then
              var last := if p.s in t.progressThrottle then t.progressThrottle[p.s] else 0;
              && (|e.items| == 1 <==> now - last >= ThrottleInterval)
              && (|e.items| == 0 <==> now - last < ThrottleInterval)
              && (e.items != [] ==> e.items[0].pid == p.s && e.items[0].event == "task_workflow_progress")
              && e.t.progressThrottle.Keys <= t.workflowProgress.Keys
              && (forall k :: k in e.t.progressThrottle && k != p.s ==> e.t.progressThrottle[k] == t.progressThrottle[k])
              && (p.s in e.t.progressThrottle ==>
                    e.t.progressThrottle[p.s] == if now - last >= ThrottleInterval then now else last)
              && e.t == t.(progressThrottle := e.t.progressThrottle)
            else e == Effect(t, [], false)
  {
  }

  // ---------------------------------------------------------------------
  // `_prepare_callback_data`

  /** A failure is reported as `task_failed` with progress 0 and the
      exception message, "unknown error" when there is none, both as the
      error and after "Task executed failed: " in the message; events other
      than start, success and error yield no callback (OtherEventsNoCallback). */
  lemma FailedCallback(t: Tables, pid: string, client: Json, data: Dict<string, Json>, now: nat)
    ensures var c := PrepareCallbackData(t, "execution_error", pid, client, data, now);
            var error := if "exception_message" in Keys(data) then Find(data, "exception_message").value
                         else JStr("unknown error");
            && c.CallbackData? && c.event == "task_failed" && c.body.JObj?
            && ("status", JStr("failed")) in c.body.fields
            && ("progress", JInt(0)) in c.body.fields
            && ("error", error) in c.body.fields
            && ("message", JStr("Task executed failed: " + PyStr(error))) in c.body.fields
            && (error.JStr? ==> ("message", JStr("Task executed failed: " + error.s)) in c.body.fields)
  {
  }

  /** The percent a `task_workflow_progress` callback shows in its message,
      read back up to the `%` sign, is its `progress`. */
  lemma ProgressMessageReadsBack(t: Tables, pid: string, client: Json, now: nat)
    requires pid in t.workflowProgress
    ensures var b := ProgressBody(t, pid, client, now);
            var p := t.workflowProgress[pid].percent;
            b.JObj? && ("progress", JInt(p)) in b.fields
            && Get(b.fields, "message").JStr?
            && var m := Get(b.fields, "message").s;
               StartsWith(m, "Workflow total progress: ")
               && var n := RunLen(m[25..], NotPercent);
                  ParseInt(m[25..][..n]) == Some(p)
  {
    var wp := t.workflowProgress[pid];
    ProgressBodyFields(t, pid, client, now);
    PercentReadsBack(wp.percent, CompletedNodes(t, pid), TotalNodes(t, pid), OptStr(wp.currentNode));
  }

  lemma ProgressBodyFields(t: Tables, pid: string, client: Json, now: nat)
    requires pid in t.workflowProgress
    ensures var b := ProgressBody(t, pid, client, now);
            var wp := t.workflowProgress[pid];
            b.JObj? && ("progress", JInt(wp.percent)) in b.fields
            && Get(b.fields, "message")
               == JStr(ProgressMessage(wp.percent, CompletedNodes(t, pid), TotalNodes(t, pid), OptStr(wp.currentNode)))
  {
    var wp := t.workflowProgress[pid];
    var m := ProgressMessage(wp.percent, CompletedNodes(t, pid), TotalNodes(t, pid), OptStr(wp.currentNode));
    var fs := ProgressBody(t, pid, client, now).fields;
    assert fs[3] == ("progress", JInt(wp.percent));
    assert fs[5] == ("message", JStr(m));
    FindAt(fs, 5);
  }

  lemma PercentReadsBack(percent: int, completed: int, total: int, current: Json)
    ensures var m := ProgressMessage(percent, completed, total, current);
            StartsWith(m, "Workflow total progress: ")
            && var n := RunLen(m[25..], NotPercent);
               ParseInt(m[25..][..n]) == Some(percent)
  {
    NumberBeforePercent("Workflow total progress: ", percent, ProgressMessageTail(completed, total, current));
  }

  /** A printed number between a prefix and a `%` reads back. */
  lemma NumberBeforePercent(prefix: string, i: int, rest: string)
    requires rest != [] && rest[0] == '%'
    ensures var m := prefix + IntToString(i) + rest;
            StartsWith(m, prefix)
            && var n := RunLen(m[|prefix|..], NotPercent);
               ParseInt(m[|prefix|..][..n]) == Some(i)
  {
    var digits := IntToString(i);
    var m := prefix + digits + rest;
    assert m[..|prefix|] == prefix;
    var after := m[|prefix|..];
    assert after == digits + rest;
    assert after[..|digits|] == digits && after[|digits|] == '%';
    RunLenAt(after, NotPercent, |digits|);
    ParseIntOfIntToString(i);
  }

  predicate NotPercent(c: char)
  {
    c != '%'
  }

  lemma OtherEventsNoCallback(t: Tables, event: string, pid: string, client: Json, data: Dict<string, Json>, now: nat)
    requires event != "execution_start" && event != "execution_success" && event != "execution_error"
    ensures PrepareCallbackData(t, event, pid, client, data, now) == NoCallback
  {
  }

  /** The media of a success callback are gathered output by output, in
      the order of the outputs: gathering a concatenation is concatenating
      the gatherings, up to the first output that cannot be walked. */
  lemma {:induction false} OutputsMediaConcat(a: seq<Json>, b: seq<Json>)
    ensures OutputsMedia(a + b) ==
      if !OutputsMedia(a).ok then OutputsMedia(a)
      else Collected(Append(OutputsMedia(a).media, OutputsMedia(b).media), OutputsMedia(b).ok)
  {
    if a == [] {
      assert a + b == b;
    } else {
      assert (a + b)[0] == a[0];
      assert (a + b)[1..] == a[1..] + b;
      OutputsMediaConcat(a[1..], b);
    }
  }

  /** A node output the walk can read: falsy, or a dict whose media values
      are lists, dicts or strings. */
  predicate WellFormedOutput(o: Json)
  {
    !Truthy(o) || (o.JObj? && forall i :: 0 <= i < |o.fields| && IsMediaKey(o.fields[i].0) ==> Listed(o.fields[i].1).Some?)
  }

  lemma {:induction false} WellFormedFields(fs: Dict<string, Json>)
    requires forall i :: 0 <= i < |fs| && IsMediaKey(fs[i].0) ==> Listed(fs[i].1).Some?
    ensures FieldsMedia(fs).ok
  {
    if fs != [] {
      WellFormedFields(fs[1..]);
    }
  }

  /** Well-formed outputs are walked to the end. */
  lemma {:induction false} WellFormedOutputsCollect(outs: seq<Json>)
    requires forall i :: 0 <= i < |outs| ==> WellFormedOutput(outs[i])
    ensures OutputsMedia(outs).ok
  {
    if outs != [] {
      if Truthy(outs[0]) {
        WellFormedFields(outs[0].fields);
      }
      WellFormedOutputsCollect(outs[1..]);
    }
  }

  /** One output's media: a key containing "images" feeds the images even
      when it also contains "videos" or "gifs"; keys with none of the three
      words contribute nothing. */
  lemma FieldMediaHead(k: string, v: Json, rest: Dict<string, Json>)
    requires Listed(v).Some?
    ensures Contains(k, "images") ==>
              FieldsMedia([(k, v)] + rest) == Collected(Append(Media(Listed(v).value, []), FieldsMedia(rest).media), FieldsMedia(rest).ok)
    ensures !IsMediaKey(k) ==> FieldsMedia([(k, v)] + rest) == FieldsMedia(rest)
  {
    assert ([(k, v)] + rest)[1..] == rest;
  }
}
