/** That task registry of the plugin (`TaskManager` in custom_routes.py): what
    it knows about every task submitted through its API, and the snapshot of
    the engine's queue that several handlers consult. */
module Tasks {

  import opened Base

  /** `{"value", "max", "percent"}` recorded for one node. */
  datatype NodeProgress = NodeProgress(value: int, max: int, percent: int)

  /** A node that has started executing, and one that has finished. */
  const NodeStarted := NodeProgress(0, 100, 0)
  const NodeFinished := NodeProgress(100, 100, 100)

  /** `workflow_nodes[prompt_id]`. */
  datatype WorkflowNodes = WorkflowNodes(
    total: int,
    completed: int,
    nodes: seq<string>,
    activeNode: Option<string>,
    definition: Dict<string, Json>)

  /** `workflow_progress[prompt_id]`. */
  datatype WorkflowProgress = WorkflowProgress(
    percent: int,
    currentNode: Option<string>,
    nodeProgress: Dict<string, NodeProgress>,
    executionOrder: seq<string>)

  /** The progress record of a task that has just started. */
  const FreshProgress := WorkflowProgress(0, None, [], [])

  /** Every table of the registry. Times are in milliseconds; callback URLs
      are kept as the JSON value the client sent; `executionOutputs` holds
      the inner `outputs` dict, keyed by node in the order nodes finished. */
  datatype Tables = Tables(
    workflowNodes: map<string, WorkflowNodes>,
    workflowProgress: map<string, WorkflowProgress>,
    progressThrottle: map<string, int>,
    callbackUrls: map<string, Json>,
    clientPrompts: Dict<string, string>,
    apiCreatedTasks: set<string>,
    executionOutputs: map<string, Dict<string, Json>>)

  const EmptyTables := Tables(map[], map[], map[], map[], [], {}, map[])

  /** One entry of the engine's queue: its number, that task id and the
      workflow (node id to node). */
  datatype QueueEntry = QueueEntry(number: int, pid: string, prompt: Dict<string, Json>)

  /** `int(time.time())` for a clock reading in milliseconds. */
  function Seconds(now: nat): nat
  {
    now / 1000
  }

  /** `is_api_task`: submitted through the API, or given a callback URL, or
      still mapped from some client id. */
  predicate ApiTask(t: Tables, pid: string)
  {
    pid in t.apiCreatedTasks || pid in t.callbackUrls || pid in Values(t.clientPrompts)
  }

  /** The client mappings that do not lead to `pid`, in their order. */
  function WithoutPrompt(cp: Dict<string, string>, pid: string): (r: Dict<string, string>)
    ensures forall e :: e in r <==> e in cp && e.1 != pid
    ensures pid !in Values(r)
  {
    if cp == [] then []
    else if cp[0].1 == pid then WithoutPrompt(cp[1..], pid)
    else [cp[0]] + WithoutPrompt(cp[1..], pid)
  }

  /** `cleanup_task`: every table forgets `pid`. */
  function Cleanup(t: Tables, pid: string): (r: Tables)
    ensures !ApiTask(r, pid)
    ensures pid !in r.workflowNodes && pid !in r.workflowProgress && pid !in r.progressThrottle
    ensures pid !in r.executionOutputs
    ensures forall e :: e in r.clientPrompts <==> e in t.clientPrompts && e.1 != pid
  {
    t.(workflowNodes := t.workflowNodes - {pid},
       workflowProgress := t.workflowProgress - {pid},
       progressThrottle := t.progressThrottle - {pid},
       callbackUrls := t.callbackUrls - {pid},
       apiCreatedTasks := t.apiCreatedTasks - {pid},
       executionOutputs := t.executionOutputs - {pid},
       clientPrompts := WithoutPrompt(t.clientPrompts, pid))
  }

  /** What the tables of one tracked task always satisfy: nodes are listed
      once in execution order and each has a progress entry, and the count
      of completed nodes never exceeds the nodes seen executing. */
  predicate TaskValid(wn: WorkflowNodes, wp: WorkflowProgress)
  {
    && UniqueKeys(wp.nodeProgress)
    && Distinct(wp.executionOrder)
    && (forall n :: n in wp.executionOrder ==> n in Keys(wp.nodeProgress))
    && 0 <= wn.completed <= |wp.executionOrder|
  }

  /** The registry invariant: the two progress tables track the same tasks,
      every tracked task has an outputs entry, and dicts have unique keys. */
  predicate Valid(t: Tables)
  {
    && t.workflowNodes.Keys == t.workflowProgress.Keys
    && t.workflowProgress.Keys <= t.executionOutputs.Keys
    && UniqueKeys(t.clientPrompts)
    && (forall pid :: pid in t.workflowProgress ==>
          TaskValid(t.workflowNodes[pid], t.workflowProgress[pid]))
  }

  lemma EmptyValid()
    ensures Valid(EmptyTables)
  {
  }

  lemma {:induction false} WithoutPromptKeepsUniqueKeys(cp: Dict<string, string>, pid: string)
    requires UniqueKeys(cp)
    ensures UniqueKeys(WithoutPrompt(cp, pid))
    ensures forall k :: k in Keys(WithoutPrompt(cp, pid)) ==> k in Keys(cp)
  {
    if cp != [] {
      KeysCons(cp);
      UniqueTail(cp);
      WithoutPromptKeepsUniqueKeys(cp[1..], pid);
      if cp[0].1 != pid {
        var r := [cp[0]] + WithoutPrompt(cp[1..], pid);
        KeysCons(r);
        assert r[1..] == WithoutPrompt(cp[1..], pid);
      }
    }
  }

  /** Forgetting a task keeps the registry invariant. */
  lemma CleanupKeepsValid(t: Tables, pid: string)
    requires Valid(t)
    ensures Valid(Cleanup(t, pid))
  {
    WithoutPromptKeepsUniqueKeys(t.clientPrompts, pid);
  }

  /** The registry object; module-level handlers update its tables in place. */
  class TaskManager {
    var workflowNodes: map<string, WorkflowNodes>
    var workflowProgress: map<string, WorkflowProgress>
    var progressThrottle: map<string, int>
    var callbackUrls: map<string, Json>
    var clientPrompts: Dict<string, string>
    var apiCreatedTasks: set<string>
    var executionOutputs: map<string, Dict<string, Json>>

    function Model(): Tables
      reads this
    {
      Tables(workflowNodes, workflowProgress, progressThrottle, callbackUrls,
             clientPrompts, apiCreatedTasks, executionOutputs)
    }

    constructor ()
      ensures Model() == EmptyTables
    {
      workflowNodes := map[];
      workflowProgress := map[];
      progressThrottle := map[];
      callbackUrls := map[];
      clientPrompts := [];
      apiCreatedTasks := {};
      executionOutputs := map[];
    }

    /** `is_api_task`, scanning the client mappings' values. */
    method IsApiTask(pid: string) returns (r: bool)
      ensures r == ApiTask(Model(), pid)
    {
      if pid in apiCreatedTasks || pid in callbackUrls {
        return true;
      }
      r := false;
      for i := 0 to |clientPrompts|
        invariant r <==> pid in Values(clientPrompts)[..i]
      {
        assert Values(clientPrompts)[..i + 1] == Values(clientPrompts)[..i] + [clientPrompts[i].1];
        if clientPrompts[i].1 == pid {
          r := true;
        }
      }
      assert Values(clientPrompts)[..|clientPrompts|] == Values(clientPrompts);
    }

    /** `cleanup_task`: pops `pid` from every table, then walks a copy of the
        client mappings and drops each one that leads to `pid`. */
    method CleanupTask(pid: string)
      requires UniqueKeys(clientPrompts)
      modifies this
      ensures Model() == Cleanup(old(Model()), pid)
    {
      workflowNodes := workflowNodes - {pid};
      workflowProgress := workflowProgress - {pid};
      progressThrottle := progressThrottle - {pid};
      callbackUrls := callbackUrls - {pid};
      apiCreatedTasks := apiCreatedTasks - {pid};
      executionOutputs := executionOutputs - {pid};
      var items := clientPrompts;
      ghost var popped := Model();
      for i := 0 to |items|
        invariant Model() == popped.(clientPrompts := clientPrompts)
        invariant clientPrompts == WithoutPrompt(items[..i], pid) + items[i..]
      {
        CleanupStep(items, i, pid);
        if items[i].1 == pid {
          clientPrompts := RemoveKey(clientPrompts, items[i].0);
        }
      }
      assert items[..|items|] == items;
      assert items[|items|..] == [];
    }
  }

  /** One turn of the cleanup loop: entry i is dropped exactly when it
      leads to `pid`. */
  lemma CleanupStep(items: Dict<string, string>, i: nat, pid: string)
    requires i < |items| && UniqueKeys(items)
    ensures var cur := WithoutPrompt(items[..i], pid) + items[i..];
      (if items[i].1 == pid then RemoveKey(cur, items[i].0) else cur)
        == WithoutPrompt(items[..i + 1], pid) + items[i + 1..]
  {
    var pre := WithoutPrompt(items[..i], pid);
    assert items[..i + 1] == items[..i] + [items[i]];
    WithoutPromptAppend(items[..i], items[i], pid);
    if items[i].1 == pid {
      DropUnique(items, i, pid);
      assert WithoutPrompt(items[..i + 1], pid) == pre + [];
      assert pre + [] == pre;
    } else {
      assert items[i..] == [items[i]] + items[i + 1..];
      AppendAssoc(pre, [items[i]], items[i + 1..]);
    }
  }

  lemma {:induction false} WithoutPromptAppend(a: Dict<string, string>, e: (string, string), pid: string)
    ensures WithoutPrompt(a + [e], pid) == WithoutPrompt(a, pid) + (if e.1 == pid then [] else [e])
  {
    if a == [] {
      assert [e][1..] == [];
      assert a + [e] == [e];
    } else {
      assert (a + [e])[0] == a[0];
      assert (a + [e])[1..] == a[1..] + [e];
      WithoutPromptAppend(a[1..], e, pid);
    }
  }

  lemma {:induction false} RemoveAbsentKey(d: Dict<string, string>, k: string)
    requires k !in Keys(d)
    ensures RemoveKey(d, k) == d
  {
    if d != [] {
      KeysCons(d);
      RemoveAbsentKey(d[1..], k);
    }
  }

  lemma {:induction false} RemoveKeyConcat(a: Dict<string, string>, b: Dict<string, string>, k: string)
    ensures RemoveKey(a + b, k) == RemoveKey(a, k) + RemoveKey(b, k)
  {
    if a == [] {
      assert a + b == b;
    } else {
      assert (a + b)[0] == a[0];
      assert (a + b)[1..] == a[1..] + b;
      RemoveKeyConcat(a[1..], b, k);
    }
  }

  /** Popping the key of entry i, unique among the keys, from the partly
      filtered mappings removes just that entry. */
  lemma DropUnique(items: Dict<string, string>, i: nat, pid: string)
    requires i < |items| && UniqueKeys(items)
    ensures RemoveKey(WithoutPrompt(items[..i], pid) + items[i..], items[i].0)
         == WithoutPrompt(items[..i], pid) + items[i + 1..]
  {
    var k := items[i].0;
    var pre := WithoutPrompt(items[..i], pid);
    forall j | 0 <= j < |pre|
      ensures pre[j].0 != k
    {
      assert pre[j] in items[..i];
      var m :| 0 <= m < i && items[..i][m] == pre[j];
      assert Keys(items)[m] != Keys(items)[i];
    }
    assert k !in Keys(pre);
    forall j | i + 1 <= j < |items|
      ensures items[j].0 != k
    {
      assert Keys(items)[j] != Keys(items)[i];
    }
    assert k !in Keys(items[i + 1..]);
    assert items[i..] == [items[i]] + items[i + 1..];
    RemoveKeyConcat(pre, items[i..], k);
    RemoveKeyConcat([items[i]], items[i + 1..], k);
    RemoveAbsentKey(pre, k);
    RemoveAbsentKey(items[i + 1..], k);
    assert RemoveKey([items[i]], k) == [];
  }
}
