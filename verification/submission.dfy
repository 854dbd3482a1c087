/** The submission side of custom_routes.py: random seeds written into a
    workflow, `execute_prompt` and the `/api/v1/execute` endpoint, and the
    status and output queries over a snapshot of the engine's queue and
    history. The engine is not modelled: its validator, its queue counter,
    uuid4, random numbers and the clock are parameters. */
module Submission {

  import opened Base
  import opened Text
  import opened Tasks
  import opened Channels
  import opened Payloads
  import opened Subscribers

  // ---------------------------------------------------------------------
  // Random seeds

  /** `random.randint(0, 1125899906842624)` draws from [0, 2^50]. */
  const MaxSeed := 1125899906842624

  /** The node classes whose `noise_seed` is redrawn. */
  predicate NoiseClass(c: Json)
  {
    c == JStr("RandomNoise") || c == JStr("KSamplerAdvanced") || c == JStr("SamplerCustom") || c == JStr("XlabsSampler")
  }

  /** `node["inputs"][key]`, when the node and its inputs are dicts. */
  function Input(node: Json, key: string): Option<Json>
  {
    match Field(node, "inputs")
    case Some(JObj(ins)) => Find(ins, key)
    case _ => None
  }

  /** The node has a seed that is not a link to another node's output. */
  predicate SeedDrawn(node: Json)
  {
    Input(node, "seed").Some? && !Input(node, "seed").value.JList?
  }

  /** ... and a `noise_seed` that is not a link either. */
  predicate NoiseDrawable(node: Json)
  {
    SeedDrawn(node) && Input(node, "noise_seed").Some? && !Input(node, "noise_seed").value.JList?
  }

  /** `node["inputs"][key] = v` on a node whose inputs are a dict. */
  function WithInput(node: Json, key: string, v: Json): (r: Json)
    requires node.JObj? && Field(node, "inputs").Some? && Field(node, "inputs").value.JObj?
    ensures r.JObj? && Keys(r.fields) == Keys(node.fields)
    ensures Field(r, "inputs").Some? && Field(r, "inputs").value.JObj?
    ensures Input(r, key) == Some(v)
    ensures forall k :: k != key ==> Input(r, k) == Input(node, k)
    ensures forall k :: k != "inputs" ==> Field(r, k) == Field(node, k)
  {
    var ins := SetField(Field(node, "inputs").value, key, v);
    PutKeys(node.fields, "inputs", ins);
    SetField(node, "inputs", ins)
  }

  /** Python's `key in v`: a key of a dict, a substring of a string, an
      item of a list; `None` where `in` raises TypeError (a number, a
      boolean, None). */
  function PyIn(key: string, v: Json): (r: Option<bool>)
    ensures r.None? <==> v.JInt? || v.JBool? || v.JNull?
    ensures v.JObj? ==> r == Some(key in Keys(v.fields))
  {
    match v
    case JObj(fs) => Some(key in Keys(fs))
    case JStr(s) => Some(Contains(s, key))
    case JList(xs) => Some(JStr(key) in xs)
    case _ => None
  }

  /** The seeding of one node raises TypeError: `"inputs" in node` or
      `"seed" in node["inputs"]` raises, or finds the key in a string or a
      list, which the next subscript by a string then rejects. */
  predicate SeedingTypeError(node: Json)
  {
    match PyIn("inputs", node)
    case None => true
    case Some(found) =>
      found && (!node.JObj?
                || var ins := Field(node, "inputs").value;
                   PyIn("seed", ins).None? || (PyIn("seed", ins) == Some(true) && !ins.JObj?))
  }

  /** One node of `apply_random_seed_to_workflow`, with `seed` and `noise`
      the values drawn for it; `None` where it raises: TypeError on a node
      or inputs of the wrong kind, KeyError on a node without the
      `class_type` the noise check reads. */
  function SeededNode(node: Json, seed: int, noise: int): (r: Option<Json>)
    ensures r.None? <==> SeedingTypeError(node) || (NoiseDrawable(node) && Field(node, "class_type").None?)
    ensures r.Some? ==> forall k :: k != "inputs" ==> Field(r.value, k) == Field(node, k)
    ensures r.Some? ==> forall k :: k != "seed" && k != "noise_seed" ==> Input(r.value, k) == Input(node, k)
    ensures r.Some? ==> Input(r.value, "seed") == if SeedDrawn(node) then Some(JInt(seed)) else Input(node, "seed")
    ensures r.Some? ==> Input(r.value, "noise_seed")
                        == if NoiseDrawable(node) && NoiseClass(Field(node, "class_type").value) then Some(JInt(noise))
                           else Input(node, "noise_seed")
    ensures r.Some? && node.JObj? ==> r.value.JObj? && Keys(r.value.fields) == Keys(node.fields)
    ensures r.Some? && !node.JObj? ==> r.value == node
    ensures !node.JObj? ==> (r.None? <==> PyIn("inputs", node) != Some(false))
  {
    match PyIn("inputs", node)
    case None => None
    case Some(found) =>
      if !found then Some(node)
      else if !node.JObj? then None
      else
        var ins := Field(node, "inputs").value;
        match PyIn("seed", ins)
        case None => None
        case Some(hasSeed) =>
          if !hasSeed then Some(node)
          else if !ins.JObj? then None
          else if !SeedDrawn(node) then Some(node)
          else
            var seeded := WithInput(node, "seed", JInt(seed));
            if !NoiseDrawable(node) then Some(seeded)
            else
              match Field(node, "class_type")
              case None => None
              case Some(c) => if NoiseClass(c) then Some(WithInput(seeded, "noise_seed", JInt(noise))) else Some(seeded)
  }

  /** The node at position i of a workflow, seeded with the values the
      oracle `rand` draws for it. */
  function SeededAt(wf: Dict<string, Json>, rand: (string, string) -> int, i: nat): Option<Json>
    requires i < |wf|
  {
    SeededNode(wf[i].1, rand(wf[i].0, "seed"), rand(wf[i].0, "noise_seed"))
  }

  /** The whole workflow after `apply_random_seed_to_workflow`, or `None`
      when some node raises. */
  function SeededWorkflow(wf: Dict<string, Json>, rand: (string, string) -> int): (r: Option<Dict<string, Json>>)
    ensures r.None? <==> exists i :: 0 <= i < |wf| && SeededAt(wf, rand, i).None?
    ensures r.Some? ==> |r.value| == |wf| && forall i :: 0 <= i < |wf| ==> r.value[i] == (wf[i].0, SeededAt(wf, rand, i).value)
  {
    if exists i :: 0 <= i < |wf| && SeededAt(wf, rand, i).None? then None
    else Some(seq(|wf|, i requires 0 <= i < |wf| => (wf[i].0, SeededAt(wf, rand, i).value)))
  }

  /** The first n nodes of `out` are those of `wf`, seeded. */
  predicate SeededUpTo(wf: Dict<string, Json>, rand: (string, string) -> int, out: Dict<string, Json>, n: nat)
    requires |out| == |wf| && n <= |wf|
  {
    forall j :: 0 <= j < n ==> SeededAt(wf, rand, j).Some? && out[j] == (wf[j].0, SeededAt(wf, rand, j).value)
  }

  /** A workflow every node of which seeded without raising is the
      seeded workflow. */
  lemma SeededWorkflowIs(wf: Dict<string, Json>, rand: (string, string) -> int, out: Dict<string, Json>)
    requires |out| == |wf| && SeededUpTo(wf, rand, out, |wf|)
    ensures SeededWorkflow(wf, rand) == Some(out)
  {
    assert SeededWorkflow(wf, rand).Some?;
    var r := SeededWorkflow(wf, rand).value;
    assert forall j :: 0 <= j < |wf| ==> r[j] == out[j];
    assert r == out;
  }

  /** `apply_random_seed_to_workflow`: the loop over the workflow's nodes,
      each rewritten in place. */
  method ApplyRandomSeed(wf: Dict<string, Json>, rand: (string, string) -> int) returns (r: Option<Dict<string, Json>>)
    ensures r == SeededWorkflow(wf, rand)
  {
    var out := wf;
    for i := 0 to |wf|
      invariant |out| == |wf|
      invariant SeededUpTo(wf, rand, out, i)
    {
      var node := SeededAt(wf, rand, i);
      if node.None? {
        r := None;
        assert r == SeededWorkflow(wf, rand);
        return;
      }
      out := out[i := (wf[i].0, node.value)];
      assert SeededUpTo(wf, rand, out, i + 1);
    }
    r := Some(out);
    assert r == SeededWorkflow(wf, rand) by {
      SeededWorkflowIs(wf, rand, out);
    }
  }

  /** Seeding keeps every node, in its place, and every field of each node
      but its inputs; a drawn seed is a value of the oracle's range. */
  lemma SeedingKeepsNodes(wf: Dict<string, Json>, rand: (string, string) -> int, i: nat)
    requires SeededWorkflow(wf, rand).Some? && i < |wf|
    requires forall n, k :: 0 <= rand(n, k) <= MaxSeed
    ensures var node := SeededWorkflow(wf, rand).value[i];
            node.0 == wf[i].0
            && (forall k :: k != "inputs" ==> Field(node.1, k) == Field(wf[i].1, k))
            && (SeedDrawn(wf[i].1) ==> exists s :: 0 <= s <= MaxSeed && Input(node.1, "seed") == Some(JInt(s)))
  {
    var node := SeededWorkflow(wf, rand).value[i];
    assert SeededAt(wf, rand, i).Some?;
    if SeedDrawn(wf[i].1) {
      var s := rand(wf[i].0, "seed");
      assert Input(node.1, "seed") == Some(JInt(s));
    }
  }

  // ---------------------------------------------------------------------
  // execute_prompt

  /** `pre_prompt_id or str(uuid.uuid4())` */
  function PromptId(pre: string, uuid: string): string
  {
    if pre != "" then pre else uuid
  }

  /** `f"comfy-deploy-client-{prompt_id[:8]}"` */
  function DefaultClient(pid: string): (r: string)
    ensures StartsWith(r, "comfy-deploy-client-") && |r| == 20 + (if |pid| < 8 then |pid| else 8)
  {
    "comfy-deploy-client-" + pid[..if |pid| < 8 then |pid| else 8]
  }

  /** What `execute_prompt` did: raised while seeding, was refused by the
      validator (`None`), or queued that task under the given ids. */
  datatype Execution = Raised | Rejected | Queued(pid: string, client: string, entry: QueueEntry)

  function ExecutionOf(prompt: Dict<string, Json>, client: string, pre: string, uuid: string,
                       rand: (string, string) -> int, valid: bool, number: int): (e: Execution)
    ensures e.Raised? <==> SeededWorkflow(prompt, rand).None?
    ensures e.Rejected? <==> SeededWorkflow(prompt, rand).Some? && !valid
    ensures e.Queued? ==> e.pid == PromptId(pre, uuid) && e.entry.pid == e.pid && e.entry.number == number
    ensures e.Queued? ==> e.client == if client != "" then client else DefaultClient(e.pid)
    ensures e.Queued? ==> e.entry.prompt == SeededWorkflow(prompt, rand).value
  {
    var pid := PromptId(pre, uuid);
    var c := if client != "" then client else DefaultClient(pid);
    match SeededWorkflow(prompt, rand)
    case None => Raised
    case Some(seeded) => if !valid then Rejected else Queued(pid, c, QueueEntry(number, pid, seeded))
  }

  /** The registry after an execution: a queued task is marked as created
      through the API and its client id is mapped to it. */
  function Enrolled(t: Tables, e: Execution): (r: Tables)
  {
    if e.Queued? then t.(apiCreatedTasks := t.apiCreatedTasks + {e.pid}, clientPrompts := Put(t.clientPrompts, e.client, e.pid))
    else t
  }

  /** `execute_prompt`. `uuid` is the uuid4 string, `rand` the random draws,
      `valid` the validator's verdict and `number` the engine's counter. */
  method ExecutePrompt(tm: TaskManager, prompt: Dict<string, Json>, client: string, pre: string, uuid: string,
                       rand: (string, string) -> int, valid: bool, number: int) returns (e: Execution)
    modifies tm`apiCreatedTasks, tm`clientPrompts
    ensures e == ExecutionOf(prompt, client, pre, uuid, rand, valid, number)
    ensures tm.Model() == Enrolled(old(tm.Model()), e)
  {
    var pid := PromptId(pre, uuid);
    var c := client;
    if c == "" {
      c := DefaultClient(pid);
    }
    var seeded := ApplyRandomSeed(prompt, rand);
    if seeded.None? {
      return Raised;
    }
    if !valid {
      return Rejected;
    }
    e := Queued(pid, c, QueueEntry(number, pid, seeded.value));
    tm.apiCreatedTasks := tm.apiCreatedTasks + {pid};
    tm.clientPrompts := Put(tm.clientPrompts, c, pid);
  }

  /** A queued task is an API task from then on, so the event filter tracks
      it, and events that name its client id resolve to it; the registry
      invariant is kept. */
  lemma EnrolledIsTracked(t: Tables, e: Execution)
    requires e.Queued?
    ensures ApiTask(Enrolled(t, e), e.pid)
    ensures Find(Enrolled(t, e).clientPrompts, e.client) == Some(e.pid)
    ensures Valid(t) ==> Valid(Enrolled(t, e))
  {
    if Valid(t) {
      PutKeepsUniqueKeys(t.clientPrompts, e.client, e.pid);
    }
  }

  // ---------------------------------------------------------------------
  // Responses

  /** An HTTP response: its status and its JSON body; `None` stands for
      the text of an exception, which a 500 reply carries. */
  datatype Response = Response(status: int, body: Option<Json>)

  /** `{"error": msg}` */
  function Error(status: int, msg: string): Response
  {
    Response(status, Some(JObj([("error", JStr(msg))])))
  }

  /** The reply of the `except` branch. */
  const Failed := Response(500, None)

  // ---------------------------------------------------------------------
  // The machine index

  /** Every machine with a socket has an entry in `machine_prompts`: the
      connection handler creates the entry before anything can look it up,
      and nothing ever deletes one. */
  predicate Indexed(ml: map<string, Connection>, mp: Dict<string, set<string>>)
  {
    forall m :: m in ml ==> Find(mp, m).Some?
  }

  /** A connecting machine keeps the index. */
  lemma ConnectKeepsIndexed(ml: map<string, Connection>, mp: Dict<string, set<string>>, cp: Dict<string, string>,
                            m: string, ws: Connection, greeted: bool)
    requires Indexed(ml, mp)
    ensures Indexed(Registered(ml, m, ws), Subscribed(mp, cp, m, greeted))
  {
  }

  /** A disconnecting machine keeps the index. */
  lemma ReleaseKeepsIndexed(ml: map<string, Connection>, mp: Dict<string, set<string>>, m: string, ws: Connection)
    requires Indexed(ml, mp)
    ensures Indexed(Released(ml, m, ws), mp)
  {
  }

  /** Linking a task to the machines of its client ids keeps the index. */
  lemma LinkedKeepsIndexed(ml: map<string, Connection>, mp: Dict<string, set<string>>, cp: Dict<string, string>, pid: string)
    requires Indexed(ml, mp)
    ensures Indexed(ml, Linked(mp, cp, pid))
  {
    forall m | m in ml
      ensures Find(Linked(mp, cp, pid), m).Some?
    {
      LinkedTasks(mp, cp, pid, m);
    }
  }

  // ---------------------------------------------------------------------
  // POST /api/v1/execute

  /** `json_data.get("client_id") or f"comfy-deploy-{int(time.time())}"` */
  function ClientOf(body: Json, now: nat): (r: string)
    ensures r != ""
    ensures IdField(body, "client_id").Some? ==> r == IdField(body, "client_id").value
    ensures IdField(body, "client_id").None? ==> r == "comfy-deploy-" + NatToString(Seconds(now))
  {
    match IdField(body, "client_id")
    case Some(c) => c
    case None => "comfy-deploy-" + NatToString(Seconds(now))
  }

  /** The `task_id` the client asked for, or "" for a fresh one. */
  function PreId(body: Json): string
  {
    match IdField(body, "task_id")
    case Some(p) => p
    case None => ""
  }

  /** The data of the `task_queued` callback item. */
  function QueuedData(pid: string, client: string, now: nat): Json
  {
    JObj([("prompt_id", JStr(pid)), ("client_id", JStr(client)), ("status", JStr("queued")),
          ("message", JStr("Task queued")), ("timestamp", JInt(Seconds(now)))])
  }

  /** The `task_created` message sent to the machine's socket. */
  function CreatedNotice(pid: string, client: string, now: nat): Json
  {
    Message("task_created", JObj([("prompt_id", JStr(pid)), ("client_id", JStr(client)), ("status", JStr("created")),
                                  ("message", JStr("Task created")), ("timestamp", JInt(Seconds(now)))]))
  }

  /** The 200 reply. */
  function Accepted(pid: string, client: string): Json
  {
    JObj([("prompt_id", JStr(pid)), ("client_id", JStr(client)), ("status", JStr("submitted"))])
  }

  /** What a submission leaves behind: the reply, the client id used, the
      registry tables, `machine_prompts` and the items appended to the
      delivery queue. */
  datatype Submission = Submission(response: Response, client: string, t: Tables, mp: Dict<string, set<string>>,
                                   items: seq<Item>)

  /** A machine the client id names: one with a socket or with a task set. */
  predicate KnownMachine(listening: set<string>, mp: Dict<string, set<string>>, client: string)
  {
    client in listening || Find(mp, client).Some?
  }

  /** The part of `api_execute_prompt` after `execute_prompt` queued the
      task: the machine's task set, the callback URL and the `task_queued`
      item. `machine_prompts` is a `defaultdict(set)`, so a machine with a
      socket and no task set gets a fresh one. */
  function Admitted(t: Tables, mp: Dict<string, set<string>>, listening: set<string>, client: string, pid: string,
                    callback: Json, now: nat): Submission
  {
    var mp1 := if KnownMachine(listening, mp, client) then Put(mp, client, TasksOf(mp, client) + {pid}) else mp;
    var t1 := if Truthy(callback) then t.(callbackUrls := t.callbackUrls[pid := callback]) else t;
    Submission(Response(200, Some(Accepted(pid, client))), client, t1, mp1,
               [Callback(pid, "task_queued", QueuedData(pid, client, now))])
  }

  /** A queued task is always accepted: it joins the task set of its
      client's machine when the client id names one, gets its callback URL,
      and has its `task_queued` item; no other machine's set changes. */
  lemma AdmittedOutcome(t: Tables, mp: Dict<string, set<string>>, listening: set<string>, client: string, pid: string,
                        callback: Json, now: nat)
    ensures var s := Admitted(t, mp, listening, client, pid, callback, now);
            s.response == Response(200, Some(Accepted(pid, client))) && s.client == client
    ensures var s := Admitted(t, mp, listening, client, pid, callback, now);
            s.items == [Callback(pid, "task_queued", QueuedData(pid, client, now))]
            && s.t == (if Truthy(callback) then t.(callbackUrls := t.callbackUrls[pid := callback]) else t)
            && TasksOf(s.mp, client) == TasksOf(mp, client) + (if KnownMachine(listening, mp, client) then {pid} else {})
            && (Find(s.mp, client).Some? <==> KnownMachine(listening, mp, client))
            && (forall m :: m != client ==> Find(s.mp, m) == Find(mp, m))
            && (forall m :: Find(mp, m).Some? ==> Find(s.mp, m).Some?)
  {
    var s := Admitted(t, mp, listening, client, pid, callback, now);
    if KnownMachine(listening, mp, client) {
      assert Find(s.mp, client) == Some(TasksOf(mp, client) + {pid});
    }
  }

  /** What the index gives: while it holds, the socket half of the test
      that ties a task to a machine adds nothing, so the `defaultdict` never
      has to create a set there and admission adds no machine entry. */
  lemma IndexedAdmissionAddsNoMachine(t: Tables, ml: map<string, Connection>, mp: Dict<string, set<string>>,
                                      client: string, pid: string, callback: Json, now: nat)
    requires Indexed(ml, mp)
    ensures KnownMachine(ml.Keys, mp, client) <==> Find(mp, client).Some?
    ensures var s := Admitted(t, mp, ml.Keys, client, pid, callback, now);
            forall m :: Find(s.mp, m).Some? <==> Find(mp, m).Some?
  {
    AdmittedOutcome(t, mp, ml.Keys, client, pid, callback, now);
  }

  /** `api_execute_prompt` over the registry, `machine_prompts` and the ids
      of the machines with a socket. A body that is not a dict, a prompt
      that is not one, and a node whose seeding raises all end in the 500
      of the `except`. */
  function Submit(t: Tables, mp: Dict<string, set<string>>, listening: set<string>, body: Json, uuid: string,
                  rand: (string, string) -> int, valid: bool, number: int, now: nat): Submission
  {
    var client := ClientOf(body, now);
    if !body.JObj? then Submission(Failed, client, t, mp, [])
    else
      var prompt := Get(body.fields, "prompt");
      if !Truthy(prompt) then Submission(Error(400, "No workflow data provided"), client, t, mp, [])
      else if !prompt.JObj? then Submission(Failed, client, t, mp, [])
      else
        var e := ExecutionOf(prompt.fields, client, PreId(body), uuid, rand, valid, number);
        match e
        case Raised => Submission(Failed, client, t, mp, [])
        case Rejected => Submission(Error(400, "Task validation failed"), client, t, mp, [])
        case Queued(pid, _, _) => Admitted(Enrolled(t, e), mp, listening, client, pid, Get(body.fields, "callback_url"), now)
  }

  /** The execution `Submit` performs on a body it accepts. */
  function ExecutionFor(body: Json, uuid: string, rand: (string, string) -> int, valid: bool, number: int, now: nat): Execution
    requires body.JObj? && Get(body.fields, "prompt").JObj?
  {
    ExecutionOf(Get(body.fields, "prompt").fields, ClientOf(body, now), PreId(body), uuid, rand, valid, number)
  }

  /** A body that `Submit` hands on to `execute_prompt`. */
  predicate Executable(body: Json)
  {
    body.JObj? && Truthy(Get(body.fields, "prompt")) && Get(body.fields, "prompt").JObj?
  }

  /** A submission answers 200, 400 or the 500 of the `except`. 400
      answers an empty prompt or a rejected one, and changes nothing. */
  lemma SubmitRejects(t: Tables, mp: Dict<string, set<string>>, listening: set<string>, body: Json, uuid: string,
                      rand: (string, string) -> int, valid: bool, number: int, now: nat)
    ensures var s := Submit(t, mp, listening, body, uuid, rand, valid, number, now);
            s.response.status == 200 || s.response.status == 400 || s.response == Failed
    ensures var s := Submit(t, mp, listening, body, uuid, rand, valid, number, now);
            s.response.status == 400 ==> s.t == t && s.mp == mp && s.items == []
    ensures var s := Submit(t, mp, listening, body, uuid, rand, valid, number, now);
            s.response.status == 400
            <==> body.JObj? && (!Truthy(Get(body.fields, "prompt"))
                                || (Executable(body) && ExecutionFor(body, uuid, rand, valid, number, now).Rejected?))
  {
    if Executable(body) {
      var e := ExecutionFor(body, uuid, rand, valid, number, now);
      if e.Queued? {
        AdmittedOutcome(Enrolled(t, e), mp, listening, ClientOf(body, now), e.pid, Get(body.fields, "callback_url"), now);
      }
    }
  }

  /** 200 answers exactly the queued tasks. Such a task is from then on an
      API task mapped from its client id and tied to its client's machine,
      when the client id names one, and to its callback URL, with one
      `task_queued` item. */
  lemma SubmitAccepts(t: Tables, mp: Dict<string, set<string>>, listening: set<string>, body: Json, uuid: string,
                      rand: (string, string) -> int, valid: bool, number: int, now: nat)
    ensures var s := Submit(t, mp, listening, body, uuid, rand, valid, number, now);
            s.response.status == 200
            <==> Executable(body) && ExecutionFor(body, uuid, rand, valid, number, now).Queued?
    ensures var s := Submit(t, mp, listening, body, uuid, rand, valid, number, now);
            s.response.status == 200 ==>
              var e := ExecutionFor(body, uuid, rand, valid, number, now);
              var cb := Get(body.fields, "callback_url");
              e.client == s.client
              && s.response.body == Some(Accepted(e.pid, s.client))
              && s.items == [Callback(e.pid, "task_queued", QueuedData(e.pid, s.client, now))]
              && ApiTask(s.t, e.pid) && Find(s.t.clientPrompts, s.client) == Some(e.pid)
              && (Truthy(cb) ==> e.pid in s.t.callbackUrls && s.t.callbackUrls[e.pid] == cb)
              && (!Truthy(cb) ==> s.t.callbackUrls == t.callbackUrls)
              && TasksOf(s.mp, s.client) == TasksOf(mp, s.client) + (if KnownMachine(listening, mp, s.client) then {e.pid} else {})
              && (forall m :: m != s.client ==> Find(s.mp, m) == Find(mp, m))
  {
    if Executable(body) {
      var e := ExecutionFor(body, uuid, rand, valid, number, now);
      if e.Queued? {
        EnrolledIsTracked(t, e);
        AdmittedOutcome(Enrolled(t, e), mp, listening, ClientOf(body, now), e.pid, Get(body.fields, "callback_url"), now);
      }
    }
  }

  /** A 500 answers exactly a body or prompt that is not a dict, or a
      seeding that raised, and changes nothing. */
  lemma SubmitFailsCleanly(t: Tables, mp: Dict<string, set<string>>, listening: set<string>, body: Json,
                           uuid: string, rand: (string, string) -> int, valid: bool, number: int, now: nat)
    ensures var s := Submit(t, mp, listening, body, uuid, rand, valid, number, now);
            s.response == Failed ==> s.t == t && s.mp == mp && s.items == []
    ensures var s := Submit(t, mp, listening, body, uuid, rand, valid, number, now);
            s.response == Failed
            <==> !body.JObj?
                 || (Truthy(Get(body.fields, "prompt")) && !Get(body.fields, "prompt").JObj?)
                 || (Executable(body) && ExecutionFor(body, uuid, rand, valid, number, now).Raised?)
  {
    if Executable(body) {
      var e := ExecutionFor(body, uuid, rand, valid, number, now);
      if e.Queued? {
        AdmittedOutcome(Enrolled(t, e), mp, listening, ClientOf(body, now), e.pid, Get(body.fields, "callback_url"), now);
      }
    }
  }

  /** A submission keeps the registry invariant and the machine index. */
  lemma SubmitKeepsInvariants(t: Tables, ml: map<string, Connection>, mp: Dict<string, set<string>>, body: Json,
                              uuid: string, rand: (string, string) -> int, valid: bool, number: int, now: nat)
    requires Valid(t) && Indexed(ml, mp)
    ensures var s := Submit(t, mp, ml.Keys, body, uuid, rand, valid, number, now);
            Valid(s.t) && Indexed(ml, s.mp)
  {
    if Executable(body) {
      var e := ExecutionFor(body, uuid, rand, valid, number, now);
      if e.Queued? {
        EnrolledIsTracked(t, e);
        var t1 := Enrolled(t, e);
        AdmittedOutcome(t1, mp, ml.Keys, ClientOf(body, now), e.pid, Get(body.fields, "callback_url"), now);
        var s := Admitted(t1, mp, ml.Keys, ClientOf(body, now), e.pid, Get(body.fields, "callback_url"), now);
        assert s.t.workflowProgress == t1.workflowProgress && s.t.workflowNodes == t1.workflowNodes;
      }
    }
  }

  /** `machine_prompts[client_id].add(prompt_id)` when the client id names
      a machine, which creates the machine's set when it has none, and the
      `task_created` message for its open socket. */
  method TieToMachine(wm: WebSocketManager, client: string, pid: string, now: nat) returns (notice: Option<Json>)
    modifies wm`machinePrompts
    ensures wm.machinePrompts == if KnownMachine(wm.machineListeners.Keys, old(wm.machinePrompts), client)
                                 then Put(old(wm.machinePrompts), client, TasksOf(old(wm.machinePrompts), client) + {pid})
                                 else old(wm.machinePrompts)
    ensures notice.Some? <==> client in wm.machineListeners && !wm.machineListeners[client].closed
    ensures notice.Some? ==> notice.value == CreatedNotice(pid, client, now)
  {
    notice := None;
    if client in wm.machineListeners || Find(wm.machinePrompts, client).Some? {
      AddToMachine(wm, client, pid);
      if client in wm.machineListeners && !wm.machineListeners[client].closed {
        notice := Some(CreatedNotice(pid, client, now));
      }
    }
  }

  /** The machine part of `api_execute_prompt` and the queue append, on the
      live state. Returns the reply, and the `task_created` message when the
      machine's socket is open. */
  method Admit(tm: TaskManager, wm: WebSocketManager, client: string, pid: string, callback: Json, now: nat)
    returns (response: Response, notice: Option<Json>)
    modifies tm`callbackUrls, wm`machinePrompts, wm`queue
    ensures var s := Admitted(old(tm.Model()), old(wm.machinePrompts), wm.machineListeners.Keys, client, pid, callback, now);
            response == s.response && tm.Model() == s.t && wm.machinePrompts == s.mp && wm.queue == old(wm.queue) + s.items
    ensures response == Response(200, Some(Accepted(pid, client)))
    ensures notice.Some? <==> client in wm.machineListeners && !wm.machineListeners[client].closed
    ensures notice.Some? ==> notice.value == CreatedNotice(pid, client, now)
  {
    notice := TieToMachine(wm, client, pid, now);
    if Truthy(callback) {
      tm.callbackUrls := tm.callbackUrls[pid := callback];
    }
    wm.queue := wm.queue + [Callback(pid, "task_queued", QueuedData(pid, client, now))];
    response := Response(200, Some(Accepted(pid, client)));
  }

  /** `api_execute_prompt`. `uuid`, `rand`, `valid`, `number` and `now` are
      what the engine, the random source and the clock supply; `uuid` is the
      36-character text of a uuid4, so the prompt id is never empty. */
  method ApiExecutePrompt(tm: TaskManager, wm: WebSocketManager, body: Json, uuid: string,
                          rand: (string, string) -> int, valid: bool, number: int, now: nat)
    returns (response: Response, entry: Option<QueueEntry>, notice: Option<Json>)
    requires |uuid| == 36
    modifies tm`apiCreatedTasks, tm`clientPrompts, tm`callbackUrls, wm`machinePrompts, wm`queue
    ensures var s := Submit(old(tm.Model()), old(wm.machinePrompts), wm.machineListeners.Keys, body, uuid, rand, valid, number, now);
            response == s.response && tm.Model() == s.t && wm.machinePrompts == s.mp && wm.queue == old(wm.queue) + s.items
    ensures entry.Some? <==> Executable(body) && ExecutionFor(body, uuid, rand, valid, number, now).Queued?
    ensures entry.Some? ==> entry.value == ExecutionFor(body, uuid, rand, valid, number, now).entry
    ensures entry.Some? <==> response.status == 200
    ensures notice.Some? <==> entry.Some? && ClientOf(body, now) in wm.machineListeners
                              && !wm.machineListeners[ClientOf(body, now)].closed
    ensures notice.Some? ==> notice.value == CreatedNotice(entry.value.pid, ClientOf(body, now), now)
  {
    entry, notice := None, None;
    var client := ClientOf(body, now);
    if !body.JObj? {
      return Failed, None, None;
    }
    var prompt := Get(body.fields, "prompt");
    if !Truthy(prompt) {
      return Error(400, "No workflow data provided"), None, None;
    }
    if !prompt.JObj? {
      return Failed, None, None;
    }
    var e := ExecutePrompt(tm, prompt.fields, client, PreId(body), uuid, rand, valid, number);
    match e
    case Raised =>
      response := Failed;
    case Rejected =>
      response := Error(400, "Task validation failed");
    case Queued(pid, _, q) =>
      entry := Some(q);
      response, notice := Admit(tm, wm, client, pid, Get(body.fields, "callback_url"), now);
  }

  // ---------------------------------------------------------------------
  // get_task_details

  /** What `get_task_details` found: nothing, the details, or an exception
      (a history entry of the wrong shape). */
  datatype Details = Missing | Found(info: Json) | Broken

  /** `d.get(key, default)` */
  function GetOr(d: Dict<string, Json>, key: string, default: Json): (r: Json)
    ensures Find(d, key).Some? ==> r == Find(d, key).value
    ensures Find(d, key).None? ==> r == default
  {
    match Find(d, key)
    case Some(v) => v
    case None => default
  }

  /** `len(x)`, for the values that have one. */
  function Len(j: Json): Option<nat>
  {
    match j
    case JStr(s) => Some(|s|)
    case JList(xs) => Some(|xs|)
    case JObj(fs) => Some(|fs|)
    case _ => None
  }

  /** The position of the first entry for that task, if any. */
  function Position(q: seq<QueueEntry>, pid: string): (r: Option<nat>)
    ensures r.Some? <==> exists i :: 0 <= i < |q| && q[i].pid == pid
    ensures r.Some? ==> r.value < |q| && q[r.value].pid == pid && forall j :: 0 <= j < r.value ==> q[j].pid != pid
  {
    if q == [] then None
    else if q[0].pid == pid then Some(0)
    else
      match Position(q[1..], pid)
      case None =>
        assert forall i :: 1 <= i < |q| ==> q[i] == q[1..][i - 1];
        None
      case Some(i) =>
        assert q[1..][i] == q[i + 1];
        Some(i + 1)
  }

  /** That task is among the running entries. */
  predicate Running(running: seq<QueueEntry>, pid: string)
  {
    exists i :: 0 <= i < |running| && running[i].pid == pid
  }

  /** The details of a running task. */
  function RunningInfo(t: Tables, pid: string): Json
  {
    var cur := if pid in t.workflowProgress then t.workflowProgress[pid].currentNode else None;
    JObj([("prompt_id", JStr(pid)), ("status", JStr("running")), ("progress", JInt(PercentOf(t, pid))),
          ("current_node", OptStr(cur))])
  }

  /** The details of a waiting task; positions count from 1. */
  function QueuedInfo(pid: string, position: nat): Json
  {
    JObj([("prompt_id", JStr(pid)), ("status", JStr("queued")), ("position", JInt(position))])
  }

  /** The fields read from a history entry, in the order of the reply. */
  function HistoryFields(pid: string, st: Dict<string, Json>, outputs: Json, size: nat): Dict<string, Json>
  {
    [("prompt_id", JStr(pid)), ("status", GetOr(st, "status_str", JStr("unknown"))),
     ("completed", GetOr(st, "completed", JBool(false))), ("has_output", JBool(size > 0)), ("outputs", outputs)]
  }

  /** The outputs of a finished task are exposed as `raw_outputs` too. */
  predicate CleanFinish(st: Dict<string, Json>)
  {
    Truthy(GetOr(st, "completed", JBool(false))) && !Truthy(GetOr(st, "error", JBool(false)))
  }

  /** The details of a task with a history entry. */
  function HistoryInfo(pid: string, entry: Json): (r: Details)
    ensures r.Broken? <==> !entry.JObj? || !GetOr(entry.fields, "status", JObj([])).JObj?
                           || Len(GetOr(entry.fields, "outputs", JObj([]))).None?
    ensures r.Found? ==>
              var outputs := GetOr(entry.fields, "outputs", JObj([]));
              var st := GetOr(entry.fields, "status", JObj([])).fields;
              r.info.JObj? && HistoryFields(pid, st, outputs, Len(outputs).value) <= r.info.fields
              && (CleanFinish(st) ==> r.info.fields == HistoryFields(pid, st, outputs, Len(outputs).value) + [("raw_outputs", outputs)])
              && (!CleanFinish(st) ==> r.info.fields == HistoryFields(pid, st, outputs, Len(outputs).value))
  {
    if !entry.JObj? then Broken
    else
      var st := GetOr(entry.fields, "status", JObj([]));
      var outputs := GetOr(entry.fields, "outputs", JObj([]));
      if !st.JObj? then Broken
      else
        match Len(outputs)
        case None => Broken
        case Some(n) =>
          var fields := HistoryFields(pid, st.fields, outputs, n);
          Found(JObj(if CleanFinish(st.fields) then fields + [("raw_outputs", outputs)] else fields))
  }

  /** `get_task_details` over a snapshot: `history` is what the engine's
      `get_history(prompt_id)` returns, `running` and `queued` its current
      queue. */
  function TaskDetails(t: Tables, pid: string, history: Dict<string, Json>, running: seq<QueueEntry>,
                       queued: seq<QueueEntry>): Details
  {
    match Find(history, pid)
    case Some(entry) => HistoryInfo(pid, entry)
    case None =>
      if Running(running, pid) then Found(RunningInfo(t, pid))
      else
        match Position(queued, pid)
        case Some(i) => Found(QueuedInfo(pid, i + 1))
        case None => Missing
  }

  /** A task the history does not know is reported from the queue: running
      first, then waiting at its first position counted from 1, and missing
      when neither holds it. */
  lemma DetailsFromQueue(t: Tables, pid: string, history: Dict<string, Json>, running: seq<QueueEntry>,
                         queued: seq<QueueEntry>)
    requires Find(history, pid).None?
    ensures var d := TaskDetails(t, pid, history, running, queued);
            (d.Missing? <==> !Running(running, pid) && forall i :: 0 <= i < |queued| ==> queued[i].pid != pid)
            && (Running(running, pid) ==> d == Found(RunningInfo(t, pid)))
            && (!Running(running, pid) ==>
                  forall i :: 0 <= i < |queued| && queued[i].pid == pid && (forall j :: 0 <= j < i ==> queued[j].pid != pid)
                    ==> d == Found(QueuedInfo(pid, i + 1)))
  {
    var d := TaskDetails(t, pid, history, running, queued);
    if !Running(running, pid) {
      forall i | 0 <= i < |queued| && queued[i].pid == pid && (forall j :: 0 <= j < i ==> queued[j].pid != pid)
        ensures d == Found(QueuedInfo(pid, i + 1))
      {
        var p := Position(queued, pid);
        assert p.Some?;
        assert p.value == i;
      }
    }
  }

  // ---------------------------------------------------------------------
  // The two query endpoints

  /** `api_get_prompt_status`, given the details of that task. */
  function PromptStatus(pid: string, d: Details): (r: Response)
    ensures r.status == 400 <==> pid == ""
    ensures r.status == 404 <==> pid != "" && d.Missing?
    ensures r.status == 500 <==> pid != "" && d.Broken?
    ensures r.status == 200 <==> pid != "" && d.Found?
    ensures r.status == 200 ==> r.body == Some(d.info)
  {
    if pid == "" then Error(400, "No task ID provided")
    else
      match d
      case Missing => Error(404, "Task not found")
      case Broken => Failed
      case Found(info) => Response(200, Some(info))
  }

  /** The 200 reply of `api_get_output`. */
  function OutputBody(pid: string, node: string, output: Json): Json
  {
    JObj([("prompt_id", JStr(pid)), ("node_id", JStr(node)), ("output", output)])
  }

  /** `api_get_output`, given the details of that task: the outputs are
      looked up with `in`, which on a list tests membership and on a string
      tests for a substring; only a dict then has the `get` that follows. */
  function OutputReply(pid: string, node: string, d: Details): Response
  {
    if pid == "" || node == "" then Error(400, "No task ID or node ID provided")
    else
      match d
      case Missing => Error(404, "Task not found")
      case Broken => Failed
      case Found(info) =>
        match GetOr(if info.JObj? then info.fields else [], "outputs", JObj([]))
        case JObj(fs) =>
          if Find(fs, node).None? then Error(404, "Node output not found")
          else Response(200, Some(OutputBody(pid, node, Find(fs, node).value)))
        case JList(xs) => if JStr(node) in xs then Failed else Error(404, "Node output not found")
        case JStr(s) => if Contains(s, node) then Failed else Error(404, "Node output not found")
        case _ => Failed
  }

  /** The outputs recorded in some details. */
  function OutputsOf(d: Details): Json
    requires d.Found?
  {
    GetOr(if d.info.JObj? then d.info.fields else [], "outputs", JObj([]))
  }

  /** `node_id not in outputs` holds without raising. */
  predicate Lacks(outputs: Json, node: string)
  {
    match outputs
    case JObj(fs) => Find(fs, node).None?
    case JList(xs) => JStr(node) !in xs
    case JStr(s) => !Contains(s, node)
    case _ => false
  }

  /** `api_get_output` answers 200 exactly when both ids are given and the
      task's outputs are a dict holding the node, and then returns the
      node's stored output. */
  lemma OutputReplyIff(pid: string, node: string, d: Details)
    ensures OutputReply(pid, node, d).status == 200
            <==> pid != "" && node != "" && d.Found? && OutputsOf(d).JObj? && Find(OutputsOf(d).fields, node).Some?
    ensures OutputReply(pid, node, d).status == 200 ==>
              OutputReply(pid, node, d).body == Some(OutputBody(pid, node, Find(OutputsOf(d).fields, node).value))
  {
  }

  /** It answers 404 exactly when both ids are given and that task is
      unknown, or its outputs lack the node without raising. */
  lemma OutputReplyNotFound(pid: string, node: string, d: Details)
    ensures OutputReply(pid, node, d).status == 404 <==>
              pid != "" && node != "" && (d.Missing? || (d.Found? && Lacks(OutputsOf(d), node)))
  {
  }

  /** A task that is still running or waiting has no outputs yet: asking
      for any node's output gets 404. */
  lemma LiveTaskHasNoOutput(t: Tables, pid: string, node: string, history: Dict<string, Json>,
                            running: seq<QueueEntry>, queued: seq<QueueEntry>)
    requires pid != "" && node != "" && Find(history, pid).None?
    ensures OutputReply(pid, node, TaskDetails(t, pid, history, running, queued)).status == 404
  {
    var d := TaskDetails(t, pid, history, running, queued);
    if d.Found? {
      assert Find(d.info.fields, "outputs").None?;
    }
  }

  /** The outputs dict of a history entry is the one its details carry. */
  lemma HistoryOutputs(pid: string, entry: Dict<string, Json>, outputs: Dict<string, Json>)
    requires GetOr(entry, "status", JObj([])).JObj? && Find(entry, "outputs") == Some(JObj(outputs))
    ensures HistoryInfo(pid, JObj(entry)).Found? && OutputsOf(HistoryInfo(pid, JObj(entry))) == JObj(outputs)
  {
    assert GetOr(entry, "outputs", JObj([])) == JObj(outputs);
    assert Len(JObj(outputs)) == Some(|outputs|);
    var st := GetOr(entry, "status", JObj([])).fields;
    var fs := HistoryFields(pid, st, JObj(outputs), |outputs|);
    var d := HistoryInfo(pid, JObj(entry));
    assert d.Found?;
    if CleanFinish(st) {
      OutputsField(pid, st, JObj(outputs), |outputs|, [("raw_outputs", JObj(outputs))]);
    } else {
      OutputsField(pid, st, JObj(outputs), |outputs|, []);
      assert fs + [] == fs;
    }
  }

  /** The outputs stand fifth among the fields of the details. */
  lemma OutputsField(pid: string, st: Dict<string, Json>, outputs: Json, size: nat, extra: Dict<string, Json>)
    ensures Find(HistoryFields(pid, st, outputs, size) + extra, "outputs") == Some(outputs)
  {
    var fs := HistoryFields(pid, st, outputs, size) + extra;
    assert fs[0].0 == "prompt_id" && fs[1].0 == "status" && fs[2].0 == "completed" && fs[3].0 == "has_output";
    assert fs[4] == ("outputs", outputs);
    FindAt(fs, 4);
  }

  /** A finished task's node output is served from its history entry. */
  lemma HistoryOutputServed(t: Tables, pid: string, node: string, history: Dict<string, Json>,
                            running: seq<QueueEntry>, queued: seq<QueueEntry>, entry: Dict<string, Json>,
                            outputs: Dict<string, Json>)
    requires pid != "" && node != "" && Find(history, pid) == Some(JObj(entry))
    requires GetOr(entry, "status", JObj([])).JObj? && Find(entry, "outputs") == Some(JObj(outputs))
    requires Find(outputs, node).Some?
    ensures OutputReply(pid, node, TaskDetails(t, pid, history, running, queued))
            == Response(200, Some(OutputBody(pid, node, Find(outputs, node).value)))
  {
    var d := TaskDetails(t, pid, history, running, queued);
    assert d == HistoryInfo(pid, JObj(entry));
    HistoryOutputs(pid, entry, outputs);
    OutputReplyIff(pid, node, d);
  }
}
