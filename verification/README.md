# comfy-deploy: a verified model of the plugin's task tracking and delivery

comfy-deploy is a ComfyUI plugin. It lets other services submit workflows
over HTTP and then follow them: it keeps a registry of the tasks created
through its API, intercepts the engine's execution events and turns them
into progress bookkeeping, websocket pushes and callback POSTs, and delivers
those from a queue. It also ships node plugins that load an image from a
URL, a base64 data URI or a list of URLs. This project models that core in
Dafny and proves what it promises.

The modules follow the program:

- `Base`, `Text`: ordered dicts with Python's insertion order, JSON values,
  and the string operations the code relies on (`strip`, `split`,
  substring tests, decimal text).
- `Tasks`: the `TaskManager` registry (`workflow_nodes`,
  `workflow_progress`, `progress_throttle`, `callback_urls`,
  `client_prompts`, `api_created_tasks`, `execution_outputs`). It is a
  class whose methods update its fields, plus a value `Tables` snapshot and
  its invariant `Valid`.
- `Channels`: the `WebSocketManager` (task listeners, machine listeners,
  machine task sets, the event queue) and socket connections.
- `Events`: `handle_execution_events_with_ws_and_callback`,
  `_update_workflow_progress`, `_prepare_callback_data`,
  `send_workflow_progress_callback` and `safe_handle_progress`, as
  functions from the registry to its new state plus the queue items.
- `EventProperties`: the lemmas about those.
- `Handlers`: the same operations as methods on the classes, the toggle
  endpoints, `EventHandler` with its registrations, and `custom_send_sync`.
- `Payloads`: the payload enrichment of `send_task_update` and
  `send_machine_task_update`, and `get_node_class_type`.
- `Subscribers`: pushing to task listeners and pruning closed sockets, the
  machine websocket handler, finding related machines, and the machine
  send round.
- `Delivery`: `send_callback`, `send_task_update` and one step of
  `process_ws_event_queue`.
- `Submission`: seeding (`apply_random_seed_to_workflow`),
  `execute_prompt`, `api_execute_prompt`, `get_task_details`, and the
  status and output endpoints.
- `Url`, `Download`, `ExternalImage`, `ImageBatch`: `is_valid_url`, the
  retry loop shared by the image nodes, `load_image` and
  `load_image_batch`.

The engine (its queue, history, validator and prompt numbers), the clock,
the random seed source, HTTP and websocket outcomes, and image decoding are
parameters of the model.

The model follows what the code does, including some behaviour that
differs from what the surrounding design text implies:

- The overall percent is clamped only from above, at `min(100, …)`. A node
  reported `executed` before its `executing` event, in a task whose
  workflow was not found in the queue, drives it from 0 to -1
  (`EventProperties.ExecutedThenExecutingGoesNegative`).
- `send_workflow_progress_callback` has no throttle; only
  `safe_handle_progress` has one.
- On `execution_start` the `task_started` callback item is enqueued twice
  when that task has a callback URL, and once when it has none.
- On a failure event, `send_task_update` never adds the `error` field,
  because the `hasattr` test on a dict is always false.
- On `execution_success` without a recorded outputs entry, building the
  callback raises. The `outputs` variable is then unbound, so the handler
  stops after the push.
- `noise_seed` is redrawn only for a node whose `seed` was redrawn.
- `machine_prompts` is a `defaultdict(set)` (custom_routes.py:91), so
  tying a task to a machine that has a socket but no task set yet creates
  the set instead of raising.
- Nothing in the plugin adds to `task_listeners`: it is only read and
  pruned, so pushes to task listeners reach no one as the code stands.
  `Subscribers` models them for any table.

## Model

| member | source | states |
|---|---|---|
| Base.Find | custom_routes.py:223-224 | a dict lookup finds a value exactly when the key is present, and the value found is one stored under that key |
| Base.Put | custom_routes.py:716 | after `d[k] = v`, k maps to v and every other key keeps its value |
| Base.PutKeys | custom_routes.py:716 | assigning to an existing key keeps the key order; a new key goes last, the order `items()` later walks |
| Base.PutTwice | custom_routes.py:716 | repeating the same assignment changes nothing |
| Base.PutKeepsUniqueKeys | custom_routes.py:716 | an assignment never duplicates a key |
| Base.RemoveKey | custom_routes.py:255 | `pop(k, None)` removes k, keeps every other key's value and adds no entry |
| Base.RemoveKeyKeepsUniqueKeys | custom_routes.py:255 | a removal keeps keys unique and adds no key |
| Base.Get | custom_routes.py:220-221 | `data.get(key)` is JSON null for an absent key and the stored value otherwise |
| Base.IdField | custom_routes.py:841-843 | an id field counts as given exactly when it holds a non-empty string, and then it is that string |
| Base.SetField | custom_routes.py:225 | writing a field sets it and leaves every other field as it was |
| Text.ContainsIffOccurs | custom_routes.py:424-426 | the substring test `'images' in k` holds exactly when the text occurs at some position |
| Text.Split | nodes/comfydeploy_external_image_batch.py:61-64 | `split` with a separator always yields at least one piece |
| Text.JoinSplit | nodes/comfydeploy_external_image_batch.py:61-64 | joining the pieces of a split with the separator gives the string back |
| Text.SplitPiecesLackSeparator | nodes/comfydeploy_external_image_batch.py:61-64 | no piece of a split contains the separator |
| Text.SplitJoin | nodes/comfydeploy_external_image_batch.py:61-64 | splitting a join of separator-free pieces gives the pieces back |
| Text.SplitNoSeparator | nodes/comfydeploy_external_image_batch.py:64 | a text without the separator splits into itself alone |
| Text.SplitConcat | nodes/comfydeploy_external_image_batch.py:64 | splitting around one separator splits each side independently |
| Text.StripRemovesSurroundingSpace | nodes/comfydeploy_external_image_batch.py:62-64 | `strip` removes exactly the surrounding whitespace and keeps a trimmed core |
| Text.StripTrimmed | nodes/comfydeploy_external_image_batch.py:62-64 | the result of `strip` neither starts nor ends with whitespace |
| Text.DigitsValueOfNatToString | custom_routes.py:843 | the decimal text of a timestamp denotes that number |
| Text.ParseIntOfNatToString | custom_routes.py:1101-1104 | `int()` of a number's decimal text gives the number back |
| Text.ParseIntOfIntToString | custom_routes.py:506 | `int()` of `str(i)` gives any integer back, negative ones included |
| Tasks.WithoutPrompt | custom_routes.py:83-85 | dropping a task's client mappings keeps exactly the entries that map to another task |
| Tasks.Cleanup | custom_routes.py:70-85 | after cleanup that task is no API task, has no progress, throttle or outputs entry, and only other tasks' client mappings remain |
| Tasks.EmptyValid | custom_routes.py:38-55 | the empty registry satisfies the registry invariant |
| Tasks.WithoutPromptKeepsUniqueKeys | custom_routes.py:83-85 | dropping mappings keeps client ids unique and adds none |
| Tasks.CleanupKeepsValid | custom_routes.py:70-85 | cleanup keeps the registry invariant |
| Tasks.TaskManager.constructor | custom_routes.py:38-55 | a new registry is empty |
| Tasks.TaskManager.IsApiTask | custom_routes.py:57-68 | a task is an API task exactly when it was created through the API, has a callback URL or is mapped from a client id |
| Tasks.TaskManager.CleanupTask | custom_routes.py:70-85 | the loop over `client_prompts` leaves the registry equal to `Cleanup` of the old one |
| Channels.Connection.constructor | custom_routes.py:1154-1173 | a socket is open or closed, and a send on it succeeds or raises |
| Channels.WebSocketManager.constructor | custom_routes.py:87-93 | the listener tables, the machine task sets and the event queue start empty |
| Download.AttemptsFrom | nodes/comfydeploy_external_image.py:54-73 | the download loop stops at the first attempt that succeeds, after at most three; every earlier attempt failed |
| Download.Attempts | nodes/comfydeploy_external_image.py:54-56 | a download makes between one and three attempts |
| Download.Tries | nodes/comfydeploy_external_image.py:56-65 | the requests of one entry are its attempts, numbered consecutively |
| Download.DownloadedIffSomeAttemptSucceeds | nodes/comfydeploy_external_image.py:54-73 | a download yields an image exactly when one of the three attempts succeeds |
| Events.ResolvedPid | custom_routes.py:220-225 | an event without a prompt id takes that task mapped from its client id; otherwise its own `prompt_id` stands |
| Events.FindWorkflow | custom_routes.py:275-279 | the queued workflow is found exactly when some queue entry has that task's id, and it is the first such entry |
| Events.TruncDiv | custom_routes.py:352 | `int()` of the quotient truncates toward zero, negative numerators included |
| Events.Listed | custom_routes.py:425-427 | `extend(v)` accepts a list, a dict or a string, and raises on anything else |
| Events.TrackedOnly | custom_routes.py:562-564 | the throttle sweep keeps exactly the stamps of tasks still tracked, unchanged |
| EventProperties.ProgressCallbackKeepsValid | custom_routes.py:465-511 | the workflow progress callback keeps the invariant and changes only the throttle table |
| EventProperties.StartKeepsValid | custom_routes.py:270-324 | `execution_start` keeps the registry invariant |
| EventProperties.ExecutingTablesKeepValid | custom_routes.py:329-353 | the bookkeeping of `executing` keeps the invariant |
| EventProperties.ExecutingKeepsValid | custom_routes.py:326-356 | `executing` keeps the invariant and never raises |
| EventProperties.ExecutedTablesKeepValid | custom_routes.py:361-370 | the bookkeeping of `executed` keeps the invariant |
| EventProperties.ExecutedKeepsValid | custom_routes.py:358-372 | `executed` keeps the invariant and never raises |
| EventProperties.FinishedKeepsValid | custom_routes.py:374-377 | success or error keeps the invariant and never raises |
| EventProperties.UpdateKeepsValid | custom_routes.py:258-378 | `_update_workflow_progress` keeps the invariant and never raises |
| EventProperties.HandleKeepsValid | custom_routes.py:206-255 | handling an execution event keeps the invariant; it raises only on `execution_success` of a resolved task |
| EventProperties.HandleTrackedKeepsValid | custom_routes.py:236-255 | handling an event of an API task keeps the invariant |
| EventProperties.HandleTrackedRaises | custom_routes.py:410-444 | handling raises only on `execution_success` of a task without an outputs entry, where `outputs` is unbound |
| EventProperties.FinishedKeepsTables | custom_routes.py:374-377 | success or error touches only the progress and throttle tables |
| EventProperties.SafeProgressKeepsValid | custom_routes.py:514-568 | `safe_handle_progress` keeps the invariant |
| EventProperties.ProgressCallbackItems | custom_routes.py:473-510 | the progress callback enqueues at most one item, a callback of that task |
| EventProperties.UpdateEnqueuesCallbacksOnly | custom_routes.py:258-378 | progress bookkeeping enqueues only callback items of that task |
| EventProperties.ExecutingEnqueuesCallbackOnly | custom_routes.py:326-356 | `executing` enqueues only callbacks of that task |
| EventProperties.ExecutedEnqueuesCallbackOnly | custom_routes.py:358-372 | `executed` enqueues only callbacks of that task |
| EventProperties.OnePushPerTrackedEvent | custom_routes.py:206-255 | an execution event enqueues nothing and changes nothing when handling is off, that task is unresolved or it is no API task; otherwise it enqueues exactly one push, carrying the event and its completed data |
| EventProperties.TrackedEventPushesOnce | custom_routes.py:240-250 | an event of an API task enqueues exactly one push: the event itself |
| EventProperties.StartEnqueuesTaskStartedTwice | custom_routes.py:317-324 | `execution_start` enqueues `task_started`, the push, and `task_started` again when that task has a callback URL |
| EventProperties.ExecutingFacts | custom_routes.py:329-353 | `executing` appends the node to the execution order once, counts it only if new, resets its entry to 0, sets the current and active node, and sets the percent from the count, at most 100 |
| EventProperties.ExecutingUpdatesTables | custom_routes.py:326-356 | on a valid registry `executing` does exactly that bookkeeping, apart from the throttle stamp |
| EventProperties.ExecutedFacts | custom_routes.py:361-370 | `executed` marks the node finished, stores its output, clears the active node, and leaves the count, percent and order alone |
| EventProperties.ExecutedUpdatesTables | custom_routes.py:358-372 | on a valid registry `executed` does exactly that bookkeeping, apart from the throttle stamp |
| EventProperties.ExecutedTablesTwice | custom_routes.py:361-370 | recording a node as finished twice is the same as once |
| EventProperties.ExecutedIdempotent | custom_routes.py:358-372 | on a valid registry a repeated `executed` event leaves the registry as it was |
| EventProperties.ExecutedTwice | custom_routes.py:358-372 | a repeated `executed` event for a tracked task changes nothing |
| EventProperties.ProgressCallbackTwice | custom_routes.py:473-481 | a second progress callback at the same time leaves the registry as the first did |
| EventProperties.ProgressCallbackKeepsTables | custom_routes.py:473-510 | the progress callback changes only the throttle table |
| EventProperties.ExecutedTablesIgnoresThrottle | custom_routes.py:361-370 | the `executed` bookkeeping does not read or change the throttle table |
| EventProperties.ProgressCallbackIgnoresThrottle | custom_routes.py:473-510 | the progress callback of a tracked task with a URL fires whatever the throttle stamps say |
| EventProperties.PercentMonotone | custom_routes.py:352 | a larger completed count never gives a smaller percent |
| EventProperties.StartIsConsistent | custom_routes.py:282-304 | after a start the percent agrees with the completed count |
| EventProperties.ExecutedKeepsPercent | custom_routes.py:358-372 | `executed` leaves the count, the total and the percent as they were |
| EventProperties.PercentNeverFalls | custom_routes.py:339-353 | `executing` keeps the percent consistent with the count, and it does not fall unless a recorded node arrives while the count is 0 |
| EventProperties.ExecutingCounts | custom_routes.py:339-353 | `executing` raises the count only for a node without an entry and recomputes the percent from it |
| EventProperties.ExecutedThenExecutingGoesNegative | custom_routes.py:297-353 | with the workflow not found, `executed` then `executing` of one node drives the percent from 0 to -1 |
| EventProperties.ThrottleIff | custom_routes.py:539-564 | a progress event of an API task enqueues one `task_workflow_progress` exactly when 0.5 s passed since its stamp (0 if none), restamps only then, and keeps only stamps of tracked tasks; any other progress event changes nothing |
| EventProperties.FailedCallback | custom_routes.py:410-457 | an error becomes `task_failed` with progress 0, the exception message or "unknown error", and the message `Task executed failed: ` followed by `str()` of that error |
| EventProperties.ProgressMessageReadsBack | custom_routes.py:491-508 | the `message` of a `task_workflow_progress` callback starts with `Workflow total progress: ` and the number before its `%` reads back as the callback's `progress` |
| EventProperties.NumberBeforePercent | custom_routes.py:506 | any integer printed between a prefix and a `%` reads back from the text |
| EventProperties.OtherEventsNoCallback | custom_routes.py:394-461 | only start, success and error events produce a callback |
| EventProperties.OutputsMediaConcat | custom_routes.py:416-429 | media are gathered output by output, in order, up to the first output that cannot be walked |
| EventProperties.WellFormedFields | custom_routes.py:421-427 | an output whose media keys hold lists, dicts or strings is walked without raising |
| EventProperties.WellFormedOutputsCollect | custom_routes.py:416-429 | outputs that are all well formed are gathered without raising |
| EventProperties.FieldMediaHead | custom_routes.py:423-427 | a key containing "images" feeds the images, and a key naming no media contributes nothing |
| Handlers.ToggleIdempotent | custom_routes.py:797-830 | a toggle request is idempotent and flips a switch only when it names the other value |
| Handlers.Config.constructor | custom_routes.py:24-28 | event handling starts on and verbose logging off |
| Handlers.Config.ToggleEventListener | custom_routes.py:797-812 | the switch becomes what the request asks, and the reply reports the new value |
| Handlers.Config.ToggleVerboseLogging | custom_routes.py:815-830 | the switch becomes what the request asks, and the reply reports the new value |
| Handlers.SendWorkflowProgressCallback | custom_routes.py:465-511 | stamps the throttle and appends the `task_workflow_progress` body, its `message` text included, exactly as `ProgressCallback` specifies |
| Handlers.FindQueuedWorkflow | custom_routes.py:275-279 | the loop over the queue finds the workflow `FindWorkflow` names |
| Handlers.StartTask | custom_routes.py:270-324 | updates the registry and queue as `execution_start` specifies |
| Handlers.NodeExecuting | custom_routes.py:326-356 | updates the registry and queue as `executing` specifies |
| Handlers.MarkExecuting | custom_routes.py:329-353 | performs exactly the `executing` bookkeeping on the class fields |
| Handlers.NodeExecuted | custom_routes.py:358-372 | updates the registry and queue as `executed` specifies |
| Handlers.MarkExecuted | custom_routes.py:361-370 | performs exactly the `executed` bookkeeping on the class fields |
| Handlers.TaskFinished | custom_routes.py:374-377 | updates the registry and queue as success or error specifies |
| Handlers.UpdateWorkflowProgress | custom_routes.py:258-378 | updates the registry and queue as `_update_workflow_progress` specifies, raising when it raises |
| Handlers.HandleExecutionEvent | custom_routes.py:206-255 | updates the registry, queue and event data as the execution handler specifies |
| Handlers.HandleTrackedEvent | custom_routes.py:236-255 | updates the registry and queue as the handling of an API task's event specifies |
| Handlers.SafeHandleProgress | custom_routes.py:514-568 | updates the throttle table and queue as `safe_handle_progress` specifies |
| Handlers.SweepThrottle | custom_routes.py:562-564 | the sweep loop leaves exactly the stamps of tracked tasks |
| Handlers.Registered | custom_routes.py:113-125 | `register_event` appends the callback to its event's list, creating the list at the end of the table, and leaves other events alone |
| Handlers.EventHandler.constructor | custom_routes.py:110-111 | a new handler has no registrations |
| Handlers.EventHandler.RegisterEvent | custom_routes.py:113-125 | the callback table becomes `Registered` of the old one |
| Handlers.EventHandler.HandleEvent | custom_routes.py:127-155 | with handling on, every callback of the event runs in registration order; with it off, nothing changes |
| Handlers.RunAll | custom_routes.py:147-151 | the loop over the callbacks has the effect of running them all in order |
| Handlers.RunNext | custom_routes.py:148-151 | one more callback extends the effect of the ones before it |
| Handlers.RunOne | custom_routes.py:148-151 | one callback has the effect its handler specifies |
| Handlers.CustomSendSync | custom_routes.py:577-611 | the engine's result is returned unchanged; with handling on the event's callbacks run, with it off nothing changes |
| Handlers.RegisterAllFresh | custom_routes.py:1459-1471 | registering distinct fresh events adds them in order, each with its one callback, and leaves other events alone |
| Handlers.RegistrationsDistinct | custom_routes.py:1459-1471 | the plugin registers each event name once |
| Handlers.StartupTable | custom_routes.py:1459-1471 | after start-up the table lists the six execution events and `progress`, each with exactly its own handler |
| Handlers.UnregisteredIgnored | custom_routes.py:147-155 | an event nobody registered for changes nothing |
| Handlers.ExecutionDispatch | custom_routes.py:1459-1468 | an execution event dispatched through its registered callback is exactly the execution handler |
| Payloads.NodeClassType | custom_routes.py:1432-1454 | a node's `class_type` falls back to the node id when that task, workflow or field is missing, and lookup raises only when the node's entry is not a dict |
| Payloads.ClassTypeAfterStart | custom_routes.py:282-288 | after a start from a queued workflow, a node reports the `class_type` it was submitted with |
| Payloads.CurrentNode | custom_routes.py:1053-1057 | the node reported is the current node, or else the active node, and never empty |
| Payloads.RunningStatus | custom_routes.py:1038-1046 | a running status gets the class type of the current node and its id, or the fallback when there is none; it raises exactly when the class type lookup does |
| Payloads.StatusEnriched | custom_routes.py:1021-1046 | a `status` push carries the percent; "completed" becomes success and completed, "error" and "failed" become failed |
| Payloads.WithStatus | custom_routes.py:1049-1050 | a missing status becomes "running"; an existing one is kept |
| Payloads.ProgressFields | custom_routes.py:1068-1075 | the progress fields are set and everything else is kept |
| Payloads.ProgressEnriched | custom_routes.py:1048-1079 | a `progress` push carries the percent, a status and a live status, the progress details and the node info |
| Payloads.WorkflowProgressEnriched | custom_routes.py:1081-1107 | `task_workflow_progress` keeps its status and makes its `progress` an int, or takes the percent of `progress_details` |
| Payloads.DetailsPercent | custom_routes.py:1105-1106 | without `progress`, a dict of details supplies its `percent`; missing details leave the payload as it is; the copy raises only when the details are not a dict, and every other field is kept |
| Payloads.Marked | custom_routes.py:1139-1140 | sets the status and live status and keeps everything else |
| Payloads.SucceededFields | custom_routes.py:1110-1114 | a success is marked success, completed, 100 % |
| Payloads.SuccessEnriched | custom_routes.py:1110-1136 | a success push is marked success, completed, 100 %; every other field is kept except `result` and `raw_outputs`, and without a history entry nothing more is added |
| Payloads.WithOutputs | custom_routes.py:1133-1134 | adds `result` and `raw_outputs` and keeps everything else |
| Payloads.FailedEnriched | custom_routes.py:1138-1144 | a failure push is marked failed and completed, and no `error` field is added |
| Payloads.Copied | custom_routes.py:1019 | a dict is copied as it is, and anything else is wrapped as `original_data` |
| Payloads.Enriched | custom_routes.py:1018-1144 | a push payload is always a dict; only `status`, `progress` and `task_workflow_progress` pushes can raise; events the code does not enrich are copied unchanged |
| Payloads.ProgressPushKeepsPercent | custom_routes.py:551-556 | a throttled progress push keeps the percent `safe_handle_progress` put in it |
| Payloads.WorkflowProgressKeepsPercent | custom_routes.py:1081-1104 | enriching a running progress push keeps its status and percent |
| Payloads.SuccessMediaAgree | custom_routes.py:416-442 | when the history holds the recorded outputs, the success push and the success callback carry the same media |
| Payloads.SuccessCallbackResult | custom_routes.py:433-444 | the `task_success` callback carries the media summary of the recorded outputs |
| Payloads.MachinePayload | custom_routes.py:1326-1345 | a machine payload keeps every field but the live status and node id, gets a live status when it has a status, and is left alone when it has none or already has one |
| Payloads.MachinePayloadIdempotent | custom_routes.py:1326-1345 | completing a machine payload twice is the same as once |
| Subscribers.KeptAndDropped | custom_routes.py:1154-1173 | a listener is reached exactly when it is open and its send succeeds, and dropped otherwise |
| Subscribers.PrunedIsKept | custom_routes.py:1180-1182 | removing the dropped sockets leaves exactly the reached ones |
| Subscribers.Pruned | custom_routes.py:1180-1187 | that task keeps its reached listeners, its entry goes when none remain, and other tasks are untouched |
| Subscribers.Partition | custom_routes.py:1154-1173 | the send loop splits the listeners into those reached and those closed, in order |
| Subscribers.RemoveClosed | custom_routes.py:1180-1182 | the removal loop removes each closed socket from that task's list |
| Subscribers.PushToListeners | custom_routes.py:1149-1187 | a push reaches exactly the live listeners and leaves only them registered; a task without listeners is untouched |
| Subscribers.Subscribed | custom_routes.py:968-990 | a connecting machine gets a task set, extended with the tasks mapped from its id when the greeting went out, and other machines are untouched |
| Subscribers.Released | custom_routes.py:1010-1013 | a machine is unregistered only when its current socket is the one closing |
| Subscribers.StaleReleaseKeepsNewer | custom_routes.py:1010-1013 | an old socket closing does not unregister a newer connection |
| Subscribers.ConnectMachine | custom_routes.py:959-990 | an empty machine id is refused; otherwise the socket is registered and its task set subscribed |
| Subscribers.MapTasks | custom_routes.py:986-990 | the mapping loop adds the tasks mapped from the machine's id to its set |
| Subscribers.AddToMachine | custom_routes.py:855 | a task joins its machine's set |
| Subscribers.DisconnectMachine | custom_routes.py:1010-1013 | the `finally` clause releases the machine's socket |
| Subscribers.LinkMachines | custom_routes.py:1199-1206 | the first loop lists the machines mapped to that task and adds that task to their sets |
| Subscribers.ListMachines | custom_routes.py:1209-1211 | the second loop adds the machines whose set holds that task |
| Subscribers.FindRelated | custom_routes.py:1194-1211 | the related machines and the new task sets are those `RelatedMachines` and `Linked` name |
| Subscribers.MappedMachinesIff | custom_routes.py:1199-1201 | a machine is mapped exactly when its client id maps to that task |
| Subscribers.LinkedTasks | custom_routes.py:1203-1206 | linking adds that task to exactly the mapped machines' sets, creating a set when missing |
| Subscribers.LinkedKeepsUniqueKeys | custom_routes.py:1203-1206 | linking never duplicates a machine |
| Subscribers.ListingIff | custom_routes.py:1209-1211 | a machine is listed exactly when already related or its set holds that task |
| Subscribers.ListingDistinct | custom_routes.py:1210 | listing never repeats a machine |
| Subscribers.RelatedMachinesIff | custom_routes.py:1194-1211 | a machine is related exactly when its client id maps to that task or its set holds that task |
| Subscribers.MappedDistinct | custom_routes.py:1199-1201 | mapped machines are distinct |
| Subscribers.RelatedDistinct | custom_routes.py:1194-1211 | no related machine is sent twice |
| Subscribers.MachineStep | custom_routes.py:1223-1232 | a send step only forgets sockets; it never adds one |
| Subscribers.SendMachineTaskUpdate | custom_routes.py:1223-1358 | one machine send does what the send step specifies |
| Subscribers.SendMachineUpdates | custom_routes.py:1213-1220 | the send loop does what the machine round specifies |
| Subscribers.StepKeepsPayload | custom_routes.py:1326-1345 | after any send step, every message carries the once-completed payload |
| Subscribers.RoundKeepsPayload | custom_routes.py:1219-1220 | a whole round keeps that property |
| Subscribers.MachinesShareOnePayload | custom_routes.py:1219-1220 | when any machine of a round is sent something, the shared dict was completed, and every machine is sent that same first completion |
| Subscribers.StepRecipients | custom_routes.py:1223-1356 | a step reaches the machine exactly when its socket is open and the send succeeds, and forgets it exactly when closed |
| Subscribers.RoundRecipients | custom_routes.py:1219-1220 | a round that does not raise reaches exactly the related machines with a live socket and forgets only the closed ones |
| Delivery.CallbackPost | custom_routes.py:1391-1420 | a callback is posted exactly when handling is on and that task has a URL, to that URL, with the event, data and time in whole seconds |
| Delivery.AfterCallback | custom_routes.py:1425-1428 | a terminal callback forgets that task's URL and API mark and nothing else; any other callback changes nothing |
| Delivery.SendCallback | custom_routes.py:1391-1428 | posts what `CallbackPost` says and leaves the registry as `AfterCallback` says |
| Delivery.RepeatedCallbackIsNoOp | custom_routes.py:1425-1428 | after a terminal callback, any later callback of that task posts and changes nothing |
| Delivery.AfterCallbackKeepsValid | custom_routes.py:1425-1428 | forgetting a callback keeps the invariant |
| Delivery.Deliver | custom_routes.py:1149-1191 | the payload reaches the live listeners, and, unless the event is `progress`, the related machines |
| Delivery.SendTaskUpdate | custom_routes.py:1018-1191 | the payload is the enrichment of the data; when enrichment raises nothing is sent, and otherwise it is delivered as `Deliver` says |
| Delivery.DispatchStep | custom_routes.py:1368-1388 | an empty queue is left idle and nothing changes; otherwise the oldest item is removed; a callback item is posted and leaves every socket table alone; any other item is enriched and, unless that raises, reaches exactly the live listeners of its task (the others are pruned) and, except for `progress`, the live related machines of the round, with the machine tables as that round leaves them |
| Submission.WithInput | custom_routes.py:628 | writing an input sets it and keeps the node's other inputs and fields |
| Submission.SeededNode | custom_routes.py:623-656 | a seed that is not a link is redrawn; `noise_seed` is redrawn only after it, and only for the four sampler classes; nothing else changes; it raises exactly on a TypeError from `in` or from subscripting a node or inputs that are not dicts, or when a node whose noise seed is examined has no `class_type`; a node that is not a dict is kept exactly when `"inputs" in node` is false |
| Submission.PyIn | custom_routes.py:624-625 | `key in v` tests the keys of a dict, and raises exactly on a number, a boolean or None |
| Submission.SeededWorkflow | custom_routes.py:622-656 | seeding raises exactly when some node raises (TypeError or KeyError), and otherwise seeds every node in place |
| Submission.SeededWorkflowIs | custom_routes.py:623-656 | a workflow seeded node by node is the seeded workflow |
| Submission.ApplyRandomSeed | custom_routes.py:622-656 | the loop over the nodes computes the seeded workflow |
| Submission.SeedingKeepsNodes | custom_routes.py:619-656 | seeding keeps every node in its place with its fields, and a drawn seed lies in the range of `random_seed` |
| Submission.DefaultClient | custom_routes.py:675-676 | the default client id is `comfy-deploy-client-` followed by the first eight characters of that task id |
| Submission.ExecutionOf | custom_routes.py:659-719 | `execute_prompt` raises when seeding raises, is rejected when validation fails, and otherwise queues the seeded workflow under the given or new id |
| Submission.ExecutePrompt | custom_routes.py:659-719 | the outcome is `ExecutionOf`, and a queued task is enrolled in the registry |
| Submission.EnrolledIsTracked | custom_routes.py:713-716 | an enrolled task is an API task mapped from its client id, and enrolling keeps the invariant |
| Submission.ConnectKeepsIndexed | custom_routes.py:968-971 | a connecting machine keeps every socket's machine in `machine_prompts` |
| Submission.ReleaseKeepsIndexed | custom_routes.py:1010-1013 | a disconnecting machine keeps the index |
| Submission.LinkedKeepsIndexed | custom_routes.py:1199-1206 | linking a task keeps the index |
| Submission.IndexedAdmissionAddsNoMachine | custom_routes.py:853-855 | while the index holds, a client is a known machine exactly when `machine_prompts` has it, so admitting a task adds no machine entry |
| Submission.ClientOf | custom_routes.py:843 | the client id is the given non-empty string, or else `comfy-deploy-` and the time in seconds |
| Submission.AdmittedOutcome | custom_routes.py:851-883 | a queued task is always answered 200 with its id and client; it joins its client's machine set exactly when the client id names a socket machine or a `machine_prompts` entry (the `defaultdict(set)` creates a missing set), no other machine's set changes, its callback URL is recorded when truthy, and one `task_queued` item is enqueued |
| Submission.SubmitRejects | custom_routes.py:833-889 | a submission answers 200, 400 or the 500 of the `except`; 400 answers exactly a dict body whose prompt is empty or rejected by validation, and changes nothing |
| Submission.SubmitAccepts | custom_routes.py:833-883 | 200 answers exactly an executable body whose task is queued; that task is then an API task mapped from its client, tied to its URL when truthy and to its client's machine when the client names one, with one `task_queued` item, and no other machine's set changes |
| Submission.SubmitFailsCleanly | custom_routes.py:833-889 | a 500 answers exactly a body that is not a dict, a truthy prompt that is not a dict, or a seeding that raised, and changes nothing |
| Submission.SubmitKeepsInvariants | custom_routes.py:833-883 | a submission keeps the registry invariant and the machine index |
| Submission.TieToMachine | custom_routes.py:853-868 | that task joins its client's machine set, created when missing, exactly when the client names a socket machine or a `machine_prompts` entry; `task_created` is returned exactly for an open socket |
| Submission.Admit | custom_routes.py:851-883 | admission updates the registry, the machine sets and the queue as `Admitted` says, always answers 200 with the task and client ids, and returns `task_created` exactly for an open machine socket |
| Submission.ApiExecutePrompt | custom_routes.py:833-889 | the endpoint's reply and new state are those of `Submit`; it queues exactly executable bodies whose task is queued, and those are exactly its 200 answers; `task_created` goes out exactly for such a task whose client is an open machine socket |
| Submission.GetOr | custom_routes.py:760-761 | `get(key, default)` gives the stored value or the default |
| Submission.Position | custom_routes.py:749-755 | a waiting task's position is its first index in the queue |
| Submission.HistoryInfo | custom_routes.py:759-774 | the history reply lists id, status, completed flag, `has_output` and outputs, plus `raw_outputs` exactly on a clean finish; malformed entries raise |
| Submission.DetailsFromQueue | custom_routes.py:735-757 | a task absent from the history is reported running, else queued at its first position counted from 1, else missing |
| Submission.PromptStatus | custom_routes.py:892-911 | the status endpoint answers 400 without an id, 404 for a missing task, 500 when details raise, and 200 with the details otherwise |
| Submission.OutputReplyIff | custom_routes.py:914-946 | the output endpoint answers 200 exactly when both ids are given and that task's outputs hold the node, with that node's output |
| Submission.OutputReplyNotFound | custom_routes.py:926-932 | 404 answers exactly a missing task or outputs lacking the node |
| Submission.LiveTaskHasNoOutput | custom_routes.py:924-932 | a task still running or queued has no node output to serve |
| Submission.HistoryOutputs | custom_routes.py:759-774 | the details of a history entry expose its outputs |
| Submission.OutputsField | custom_routes.py:763-769 | the `outputs` field of a history reply is the entry's outputs |
| Submission.HistoryOutputServed | custom_routes.py:914-940 | a node output in the history is served with status 200 |
| Url.AfterScheme | nodes/comfydeploy_utils.py:11 | the scheme group matches exactly the prefixes `http://` and `https://` |
| Url.SplitScheme | nodes/comfydeploy_utils.py:7 | `urlparse` finds a scheme only before a colon |
| Url.UrlParse | nodes/comfydeploy_utils.py:7 | `urlparse` raises only on a bracket |
| Url.ValidStartsWithHttp | nodes/comfydeploy_utils.py:5-18 | a valid URL starts with `http://` or `https://` |
| Url.PatternPassesUrlParse | nodes/comfydeploy_utils.py:7-9 | a URL the pattern matches has a scheme and a netloc, so the pre-check never rejects it, and that netloc is ASCII |
| Url.ValidIffPattern | nodes/comfydeploy_utils.py:5-18 | `is_valid_url` holds exactly when the regular expression matches, `$` included, which also matches before a final newline |
| Url.ValidHasNoSpace | nodes/comfydeploy_utils.py:10-16 | a valid URL is non-empty and holds no whitespace, except that its last character may be a newline |
| Url.ValidUrlParts | nodes/comfydeploy_utils.py:10-16 | a scheme, a maximal host and a tail form a valid URL exactly when the host and the tail match their groups |
| Url.FinalNewline | nodes/comfydeploy_utils.py:10-16 | a URL not ending in a newline keeps its verdict when one newline is appended, and is rejected with two |
| Url.SpaceBeforeEndRejected | nodes/comfydeploy_utils.py:12-14 | whitespace anywhere but at the last character makes a URL invalid |
| Url.NetlocOfMatch | nodes/comfydeploy_utils.py:7-14 | the network location of a matching remainder is non-empty, ASCII and free of brackets |
| Url.DotlessHostRejected | nodes/comfydeploy_utils.py:12 | a host without a dot is rejected |
| Url.LongFinalLabelRejected | nodes/comfydeploy_utils.py:12 | a final label longer than six characters is rejected |
| Url.TwoLabelHost | nodes/comfydeploy_utils.py:12 | a label, a dot and a short alphanumeric label form a valid host |
| ExternalImage.RouteOf | nodes/comfydeploy_external_image.py:51-85 | an input starting with `http` is downloaded, else a data URI is decoded, else the default is used |
| ExternalImage.FetchImage | nodes/comfydeploy_external_image.py:54-73 | reports whether the URL is valid; for a valid one, yields the first successful download and issues exactly the attempts made |
| ExternalImage.LoadImage | nodes/comfydeploy_external_image.py:47-88 | the node's result and requests are those of `LoadImageSpec` and `LoadImageRequests` |
| ExternalImage.DataUriPayload | nodes/comfydeploy_external_image.py:75-79 | the payload of a data URI is what follows its prefix |
| ExternalImage.InvalidUrlUsesDefault | nodes/comfydeploy_external_image.py:59-61 | an `http` input that is not a valid URL returns the default without any request |
| ExternalImage.ValidUrlDownloads | nodes/comfydeploy_external_image.py:54-88 | a valid URL issues one to three requests and raises exactly when all three attempts fail |
| ExternalImage.OtherInputsUseDefault | nodes/comfydeploy_external_image.py:83-85 | an input neither `http` nor a data URI returns the default without any request |
| ImageBatch.DownloadEntry | nodes/comfydeploy_external_image_batch.py:74-92 | one entry's retry loop yields its image and requests as specified |
| ImageBatch.Retry | nodes/comfydeploy_external_image_batch.py:74-92 | the retry loop stops at the first success or after three attempts |
| ImageBatch.LoadEntries | nodes/comfydeploy_external_image_batch.py:69-92 | the loop over the entries raises exactly when some item is not a string, and gathers, entry by entry up to the first such item, exactly the images and the requests that `ImagesUpTo` and `RequestsUpTo` define |
| ImageBatch.LoadNext | nodes/comfydeploy_external_image_batch.py:69-92 | one more entry extends the images and requests by that entry's |
| ImageBatch.LoadEntry | nodes/comfydeploy_external_image_batch.py:72-92 | an empty, non-`http` or invalid entry is skipped without a request; any other entry is downloaded |
| ImageBatch.LoadImageBatch | nodes/comfydeploy_external_image_batch.py:48-95 | the node's outcome and requests are those `BatchOutcome` and `BatchRequests` define: it parses a string input or iterates any other value, skips empty, non-`http` and invalid entries, downloads the rest, raises on a value or item that is not a string, and raises when nothing loads |
| ImageBatch.PlainTextSplitsOnCommas | nodes/comfydeploy_external_image_batch.py:63-64 | text without brackets is split on commas and stripped |
| ImageBatch.BracketedTextTakesLastList | nodes/comfydeploy_external_image_batch.py:60-62 | bracketed text without `["` takes the text inside the last bracket pair |
| ImageBatch.JsonTextDecoded | nodes/comfydeploy_external_image_batch.py:55-59 | text with `["` is decoded as JSON, undecodable text raises, and a decoded value is iterated as Python iterates it |
| ImageBatch.EntryRequestsShape | nodes/comfydeploy_external_image_batch.py:70-92 | an entry issues at most three requests, and only when it is tried |
| ImageBatch.RequestsWellFormed | nodes/comfydeploy_external_image_batch.py:69-92 | requests go entry by entry, in order, numbered from 1 within each entry |
| ImageBatch.UntriedNeverRequested | nodes/comfydeploy_external_image_batch.py:72-79 | a skipped or invalid entry is never requested |
| ImageBatch.NothingLoadedIffNoEntryLoads | nodes/comfydeploy_external_image_batch.py:94-95 | the node raises for an empty result exactly when the input yields a listing of strings none of which loads |
| ImageBatch.NonStringsRaise | nodes/comfydeploy_external_image_batch.py:65-72 | None, a number or a boolean raises before any request; an item that is not a string raises, and no request names it or any later entry |
| ImageBatch.NoImagesIffNoneLoad | nodes/comfydeploy_external_image_batch.py:87-95 | the image list is empty exactly when no entry loads |
| ImageBatch.ImageCount | nodes/comfydeploy_external_image_batch.py:87 | the batch holds one image per loading entry, so at most one per entry |

## Left out

- Network and socket I/O is left out: HTTP responses, websocket sends, aiohttp's receive loop with its "ping"/"close" messages, and the socket greeting. A send outcome is the `closed`/`failing` flags of a connection, and a failed greeting is a connection that is not live.
- `asyncio` scheduling, the thread-safety of `ws_event_queue`, and the sleeps and exception retry of `process_ws_event_queue` are left out. One iteration is modelled as `Delivery.DispatchStep`.
- Logging is left out, including everything `ENABLE_VERBOSE_LOGGING` gates. The switch itself is modelled.
- `handle_execution_events` (custom_routes.py:160-202) only logs and is never registered.
- The branch of `send_machine_task_update` with `data=None` (custom_routes.py:1235-1325) is never reached, because every caller passes data.
- `get_prompt_history` (custom_routes.py:777-793) and `get_hello` (custom_routes.py:949-955) touch no plugin state. They are not part of this model.
- The engine is modelled only as an oracle: its validator, queue, history and prompt counter. So are `extra_data`, `sensitive_data` and `partial_execution_targets`, which `execute_prompt` only forwards.
- The clock is a natural number of milliseconds. `random_seed` is an oracle over node and input names.
- A request body that is not JSON is left out. A malformed body gives the 500 of the `except` clause, which is modelled without its error text.
- Base.IdField: a `task_id` or `client_id` that is truthy but not a string is treated as absent.
- The `task_created` message is sent fire-and-forget. It is modelled as the notice the endpoint returns.
- Text.ParseInt: Python `int()` on strings is modelled with surrounding whitespace, an optional sign and ASCII decimal digits. Digit separators (`_`), non-ASCII decimal digits and floats are left out.
- Text.Repr: `repr` of a string escapes the backslash, the quote in use, newline, carriage return and tab. Python's escaping of other non-printable characters is left out.
- Url.ValidIffPattern: the port's `\d` is modelled as the ASCII digits. On a `str` pattern Python's `\d` also matches other Unicode decimal digits, so a URL whose port uses them is valid in Python and not in the model.
- Url.ValidUrlParts: the same ASCII-only `\d` for the port as in Url.ValidIffPattern.
- Url.UrlParse: `urlsplit`'s removal of tab, CR and LF, its stripping of leading C0 controls and spaces, and the ValueError it raises when a non-ASCII network location normalises (NFKC) to one holding `/?#@:` are left out. None of them changes `is_valid_url`, because the pattern must match as well: a matching URL has an ASCII network location (Url.PatternPassesUrlParse) and no whitespace but a final newline (Url.ValidHasNoSpace), which leaves scheme and network location non-empty when removed.
- Events.ProgressBody, Events.SafeProgress: the code queues live objects. The node progress table, the `execution_order` list and the whole progress details of `safe_handle_progress` are shared with the registry (custom_routes.py:487-488, 503-504, 551-556), so an update made before the queue delivers an item changes what it sends. The model enqueues a copy taken when the item is queued. Payloads.ProgressEnriched reads the registry when the item is delivered (custom_routes.py:1071-1075), as the code does.
- Image decoding is an oracle: base64 decoding, `PIL.Image.open`, EXIF transposition, RGB/RGBA conversion and the tensor layout.
- Text.Split: modelled for a single-character separator, which is all the batch node uses.
- `None` inputs to `load_image` are left out. Inputs are strings.
