/** The websocket subscribers of custom_routes.py: the per-task listener
    lists that `send_task_update` prunes, the machine sockets that
    `machine_websocket_handler` registers and releases, and the round of
    `send_machine_updates_for_task` over the machines related to a task. */
module Subscribers {

  import opened Base
  import opened Tasks
  import opened Channels
  import opened Payloads

  // ---------------------------------------------------------------------
  // Task listeners

  /** A socket a send reaches: open, and the network does not fail it. */
  predicate Live(c: Connection)
    reads c
  {
    !c.closed && !c.failing
  }

  /** The subscribers a send reaches, in subscription order. */
  function Kept(cs: seq<Connection>): seq<Connection>
    reads cs
  {
    if cs == [] then [] else (if Live(cs[0]) then [cs[0]] else []) + Kept(cs[1..])
  }

  /** `closed_ws`: the subscribers given up on, because they are closed or
      their send raised, in subscription order. */
  function Dropped(cs: seq<Connection>): seq<Connection>
    reads cs
  {
    if cs == [] then [] else (if Live(cs[0]) then [] else [cs[0]]) + Dropped(cs[1..])
  }

  /** A send reaches exactly the live subscribers and gives up on exactly
      the others. */
  lemma {:induction false} KeptAndDropped(cs: seq<Connection>, c: Connection)
    ensures c in Kept(cs) <==> c in cs && Live(c)
    ensures c in Dropped(cs) <==> c in cs && !Live(c)
  {
    if cs != [] {
      KeptAndDropped(cs[1..], c);
      assert c in cs <==> c == cs[0] || c in cs[1..];
    }
  }

  /** `list.remove(x)`: the first occurrence of x is gone. */
  function RemoveFirst<T(==)>(s: seq<T>, x: T): (r: seq<T>)
    ensures x !in s ==> r == s
  {
    if s == [] then []
    else if s[0] == x then s[1..]
    else [s[0]] + RemoveFirst(s[1..], x)
  }

  /** `for ws in xs: if ws in s: s.remove(ws)` */
  function RemoveAll<T(==)>(s: seq<T>, xs: seq<T>): seq<T>
    decreases |xs|
  {
    if xs == [] then s else RemoveAll(RemoveFirst(s, xs[0]), xs[1..])
  }

  /** Removing sockets other than the head passes over the head. */
  lemma {:induction false} RemoveAllKeepsLiveHead(s: seq<Connection>, xs: seq<Connection>)
    requires s != [] && s[0] !in xs
    ensures RemoveAll(s, xs) == [s[0]] + RemoveAll(s[1..], xs)
    decreases |xs|
  {
    if xs != [] {
      var s' := RemoveFirst(s, xs[0]);
      assert s' == [s[0]] + RemoveFirst(s[1..], xs[0]);
      assert s'[1..] == RemoveFirst(s[1..], xs[0]);
      RemoveAllKeepsLiveHead(s', xs[1..]);
    }
  }

  /** Removing every socket of `closed_ws` one at a time leaves exactly the
      subscribers the send reached, in their order: no live subscriber is
      lost, even when a socket is subscribed twice. */
  lemma {:induction false} PrunedIsKept(cs: seq<Connection>)
    ensures RemoveAll(cs, Dropped(cs)) == Kept(cs)
  {
    if cs != [] {
      PrunedIsKept(cs[1..]);
      if Live(cs[0]) {
        KeptAndDropped(cs, cs[0]);
        assert Dropped(cs) == Dropped(cs[1..]);
        RemoveAllKeepsLiveHead(cs, Dropped(cs));
      } else {
        assert Dropped(cs) == [cs[0]] + Dropped(cs[1..]);
      }
    }
  }

  /** The new listener table once the dead subscribers of `pid` are gone:
      the entry is deleted when none is left. */
  function Pruned(tl: map<string, seq<Connection>>, pid: string, kept: seq<Connection>): (r: map<string, seq<Connection>>)
    requires pid in tl
    ensures pid in r <==> kept != []
    ensures pid in r ==> r[pid] == kept
    ensures forall p :: p != pid ==> (p in r <==> p in tl) && (p in r ==> r[p] == tl[p])
  {
    if kept == [] then tl - {pid} else tl[pid := kept]
  }

  lemma KeptStep(cs: seq<Connection>, i: nat)
    requires i < |cs|
    ensures Live(cs[i]) ==> Kept(cs[i..]) == [cs[i]] + Kept(cs[i + 1..]) && Dropped(cs[i..]) == Dropped(cs[i + 1..])
    ensures !Live(cs[i]) ==> Kept(cs[i..]) == Kept(cs[i + 1..]) && Dropped(cs[i..]) == [cs[i]] + Dropped(cs[i + 1..])
  {
    assert cs[i..][1..] == cs[i + 1..];
  }

  /** The first loop of the websocket half of `send_task_update`: the
      message goes to every open subscriber, and the closed ones and those
      whose send raised are collected as `closed_ws`. */
  method Partition(cs: seq<Connection>) returns (reached: seq<Connection>, closedWs: seq<Connection>)
    ensures reached == Kept(cs) && closedWs == Dropped(cs)
  {
    reached, closedWs := [], [];
    assert cs[0..] == cs;
    for i := 0 to |cs|
      invariant reached + Kept(cs[i..]) == Kept(cs)
      invariant closedWs + Dropped(cs[i..]) == Dropped(cs)
    {
      var ws := cs[i];
      KeptStep(cs, i);
      if !ws.closed && !ws.failing {
        AppendAssoc(reached, [ws], Kept(cs[i + 1..]));
        reached := reached + [ws];
      } else {
        AppendAssoc(closedWs, [ws], Dropped(cs[i + 1..]));
        closedWs := closedWs + [ws];
      }
    }
    assert cs[|cs|..] == [];
  }

  /** The second loop: each socket of `closed_ws` still subscribed to the
      task is removed from its list. */
  method RemoveClosed(wm: WebSocketManager, pid: string, closedWs: seq<Connection>)
    requires pid in wm.taskListeners
    modifies wm`taskListeners
    ensures wm.taskListeners == old(wm.taskListeners)[pid := RemoveAll(old(wm.taskListeners)[pid], closedWs)]
  {
    ghost var tl := wm.taskListeners;
    assert closedWs[0..] == closedWs;
    for j := 0 to |closedWs|
      invariant pid in wm.taskListeners
      invariant wm.taskListeners == tl[pid := wm.taskListeners[pid]]
      invariant RemoveAll(wm.taskListeners[pid], closedWs[j..]) == RemoveAll(tl[pid], closedWs)
    {
      assert closedWs[j..][1..] == closedWs[j + 1..];
      var ws := closedWs[j];
      if ws in wm.taskListeners[pid] {
        wm.taskListeners := wm.taskListeners[pid := RemoveFirst(wm.taskListeners[pid], ws)];
      }
    }
    assert closedWs[|closedWs|..] == [];
  }

  /** The websocket half of `send_task_update`: the message is sent to each
      subscriber of that task that is open, and the closed ones and those
      whose send raised are removed; a task left with no subscriber loses
      its entry. Returns the sockets the message reached. */
  method PushToListeners(wm: WebSocketManager, pid: string) returns (reached: seq<Connection>)
    modifies wm`taskListeners
    ensures pid !in old(wm.taskListeners) ==> wm.taskListeners == old(wm.taskListeners) && reached == []
    ensures pid in old(wm.taskListeners) ==>
              var cs := old(wm.taskListeners)[pid];
              reached == Kept(cs) && wm.taskListeners == Pruned(old(wm.taskListeners), pid, Kept(cs))
  {
    reached := [];
    if pid !in wm.taskListeners {
      return;
    }
    var cs := wm.taskListeners[pid];
    var closedWs;
    reached, closedWs := Partition(cs);
    RemoveClosed(wm, pid, closedWs);
    PrunedIsKept(cs);
    if wm.taskListeners[pid] == [] {
      wm.taskListeners := wm.taskListeners - {pid};
    }
  }

  // ---------------------------------------------------------------------
  // Machine sockets

  /** The tasks recorded for a machine (`machine_prompts.get(m, set())`). */
  function TasksOf(mp: Dict<string, set<string>>, m: string): set<string>
  {
    match Find(mp, m)
    case Some(s) => s
    case None => {}
  }

  /** The tasks a client-id mapping assigns to machine `m`. */
  function MappedTo(cp: Dict<string, string>, m: string): set<string>
  {
    set j | 0 <= j < |cp| && cp[j].0 == m :: cp[j].1
  }

  /** The machine's task set after a connection: created empty when
      missing and, once the greeting went out, joined by the tasks mapped to
      the machine. */
  function Subscribed(mp: Dict<string, set<string>>, cp: Dict<string, string>, m: string, greeted: bool)
    : (r: Dict<string, set<string>>)
    ensures Find(r, m).Some?
    ensures TasksOf(r, m) == TasksOf(mp, m) + (if greeted then MappedTo(cp, m) else {})
    ensures forall m' :: m' != m ==> Find(r, m') == Find(mp, m')
  {
    var mp1 := if Find(mp, m).Some? then mp else Put(mp, m, {});
    if greeted then Put(mp1, m, TasksOf(mp1, m) + MappedTo(cp, m)) else mp1
  }

  lemma {:induction false} PutOverwrite<K(!new), V>(d: Dict<K, V>, k: K, v: V, w: V)
    ensures Put(Put(d, k, v), k, w) == Put(d, k, w)
  {
    if d != [] && d[0].0 != k {
      PutOverwrite(d[1..], k, v, w);
      assert Put(d, k, v)[1..] == Put(d[1..], k, v);
    }
  }

  lemma MappedToSnoc(cp: Dict<string, string>, i: nat, m: string)
    requires i < |cp|
    ensures cp[i].0 == m ==> MappedTo(cp[..i + 1], m) == MappedTo(cp[..i], m) + {cp[i].1}
    ensures cp[i].0 != m ==> MappedTo(cp[..i + 1], m) == MappedTo(cp[..i], m)
  {
    var a, b := cp[..i + 1], cp[..i];
    assert forall j :: 0 <= j < i ==> a[j] == b[j];
    assert a[i] == cp[i];
  }

  /** `machine_prompts[m].add(p)` on a set just stored. */
  lemma AddTask(mp: Dict<string, set<string>>, m: string, a: set<string>, p: string)
    ensures Put(Put(mp, m, a), m, TasksOf(Put(mp, m, a), m) + {p}) == Put(mp, m, a + {p})
  {
    assert TasksOf(Put(mp, m, a), m) == a;
    PutOverwrite(mp, m, a, a + {p});
  }

  /** Storing the set a machine already has changes nothing. */
  lemma {:induction false} PutFound(mp: Dict<string, set<string>>, m: string)
    requires Find(mp, m).Some?
    ensures Put(mp, m, TasksOf(mp, m)) == mp
  {
    var v := TasksOf(mp, m);
    if mp[0].0 == m {
      assert Put(mp, m, v) == [(m, v)] + mp[1..];
      assert mp == [mp[0]] + mp[1..];
    } else {
      assert TasksOf(mp[1..], m) == v;
      PutFound(mp[1..], m);
      assert Put(mp, m, v) == [mp[0]] + Put(mp[1..], m, v);
    }
  }

  /** The listener table after `machine_id`'s socket connects: it replaces
      any earlier socket of the machine. */
  function Registered(ml: map<string, Connection>, m: string, ws: Connection): map<string, Connection>
  {
    ml[m := ws]
  }

  /** The `finally` of the handler: the machine's entry goes only when it
      still holds this socket. */
  function Released(ml: map<string, Connection>, m: string, ws: Connection): (r: map<string, Connection>)
    ensures m in ml && ml[m] == ws ==> m !in r
    ensures forall m' :: m' in r <==> m' in ml && (m' != m || ml[m] != ws)
    ensures forall m' :: m' in r ==> r[m'] == ml[m']
  {
    if m in ml && ml[m] == ws then ml - {m} else ml
  }

  /** A machine that reconnects keeps its new socket when the old one
      closes; when the current socket closes the machine has none. */
  lemma StaleReleaseKeepsNewer(ml: map<string, Connection>, m: string, old_: Connection, new_: Connection)
    requires old_ != new_
    ensures Released(Registered(Registered(ml, m, old_), m, new_), m, old_) == Registered(ml, m, new_)
    ensures m !in Released(Registered(ml, m, new_), m, new_)
  {
  }

  /** `machine_websocket_handler` up to its receive loop: a missing machine
      id is refused (400); otherwise the socket replaces the machine's
      previous one, the machine gets a task set, the `connected` greeting is
      sent, and the tasks mapped to the machine join its set. A greeting
      that cannot be sent raises out of the handler before that loop. */
  method ConnectMachine(tm: TaskManager, wm: WebSocketManager, m: string, ws: Connection) returns (accepted: bool)
    modifies wm`machineListeners, wm`machinePrompts
    ensures accepted <==> m != ""
    ensures !accepted ==> wm.machineListeners == old(wm.machineListeners) && wm.machinePrompts == old(wm.machinePrompts)
    ensures accepted ==> wm.machineListeners == Registered(old(wm.machineListeners), m, ws)
    ensures accepted ==> wm.machinePrompts == Subscribed(old(wm.machinePrompts), tm.clientPrompts, m, Live(ws))
  {
    if m == "" {
      return false;
    }
    accepted := true;
    wm.machineListeners := wm.machineListeners[m := ws];
    if Find(wm.machinePrompts, m).None? {
      wm.machinePrompts := Put(wm.machinePrompts, m, {});
    }
    if ws.closed || ws.failing {
      return;
    }
    MapTasks(wm, m, tm.clientPrompts);
  }

  /** The loop over `client_prompts` of the handler: each task mapped to the
      machine joins the machine's set. */
  method MapTasks(wm: WebSocketManager, m: string, cp: Dict<string, string>)
    requires Find(wm.machinePrompts, m).Some?
    modifies wm`machinePrompts
    ensures wm.machinePrompts == Put(old(wm.machinePrompts), m, TasksOf(old(wm.machinePrompts), m) + MappedTo(cp, m))
  {
    ghost var mp1 := wm.machinePrompts;
    ghost var acc := TasksOf(mp1, m);
    assert wm.machinePrompts == Put(mp1, m, acc) by {
      PutFound(mp1, m);
    }
    assert cp[..0] == [];
    for i := 0 to |cp|
      invariant acc == TasksOf(mp1, m) + MappedTo(cp[..i], m)
      invariant wm.machinePrompts == Put(mp1, m, acc)
    {
      if cp[i].0 == m {
        AddToMachine(wm, m, cp[i].1);
        assert wm.machinePrompts == Put(mp1, m, acc + {cp[i].1}) by {
          AddTask(mp1, m, acc, cp[i].1);
        }
        acc := acc + {cp[i].1};
      }
      assert acc == TasksOf(mp1, m) + MappedTo(cp[..i + 1], m) by {
        MappedToSnoc(cp, i, m);
      }
    }
    assert cp[..|cp|] == cp;
  }

  /** `machine_prompts[m].add(p)` */
  method AddToMachine(wm: WebSocketManager, m: string, p: string)
    modifies wm`machinePrompts
    ensures wm.machinePrompts == Put(old(wm.machinePrompts), m, TasksOf(old(wm.machinePrompts), m) + {p})
  {
    wm.machinePrompts := Put(wm.machinePrompts, m, TasksOf(wm.machinePrompts, m) + {p});
  }

  /** The `finally` of `machine_websocket_handler`. */
  method DisconnectMachine(wm: WebSocketManager, m: string, ws: Connection)
    modifies wm`machineListeners
    ensures wm.machineListeners == Released(old(wm.machineListeners), m, ws)
  {
    if m in wm.machineListeners && wm.machineListeners[m] == ws {
      wm.machineListeners := wm.machineListeners - {m};
    }
  }

  // ---------------------------------------------------------------------
  // Machines related to a task

  /** The machines that `client_prompts` maps to that task, in its order. */
  function MappedMachines(cp: Dict<string, string>, pid: string): seq<string>
  {
    if cp == [] then [] else (if cp[0].1 == pid then [cp[0].0] else []) + MappedMachines(cp[1..], pid)
  }

  /** The writes of the first loop of `send_machine_updates_for_task`: each
      machine mapped to that task gets that task in its set, the set being
      created when missing. */
  function Linked(mp: Dict<string, set<string>>, cp: Dict<string, string>, pid: string): Dict<string, set<string>>
    decreases |cp|
  {
    if cp == [] then mp
    else Linked(if cp[0].1 == pid then Put(mp, cp[0].0, TasksOf(mp, cp[0].0) + {pid}) else mp, cp[1..], pid)
  }

  /** The second loop: each machine whose set holds that task and is not yet
      listed is appended. */
  function Listing(mp: Dict<string, set<string>>, pid: string, related: seq<string>): seq<string>
    decreases |mp|
  {
    if mp == [] then related
    else Listing(mp[1..], pid, if pid in mp[0].1 && mp[0].0 !in related then related + [mp[0].0] else related)
  }

  /** `related_machines` of `send_machine_updates_for_task`. */
  function RelatedMachines(mp: Dict<string, set<string>>, cp: Dict<string, string>, pid: string): seq<string>
  {
    Listing(Linked(mp, cp, pid), pid, MappedMachines(cp, pid))
  }

  lemma MappedStep(cp: Dict<string, string>, i: nat, pid: string)
    requires i < |cp|
    ensures MappedMachines(cp[i..], pid) == (if cp[i].1 == pid then [cp[i].0] else []) + MappedMachines(cp[i + 1..], pid)
  {
    assert cp[i..][1..] == cp[i + 1..];
  }

  lemma LinkedStep(cp: Dict<string, string>, i: nat, pid: string, mp: Dict<string, set<string>>)
    requires i < |cp|
    ensures Linked(mp, cp[i..], pid)
            == Linked(if cp[i].1 == pid then Put(mp, cp[i].0, TasksOf(mp, cp[i].0) + {pid}) else mp, cp[i + 1..], pid)
  {
    assert cp[i..][1..] == cp[i + 1..];
  }

  lemma ListingStep(mp: Dict<string, set<string>>, j: nat, pid: string, related: seq<string>)
    requires j < |mp|
    ensures Listing(mp[j..], pid, related)
            == Listing(mp[j + 1..], pid, if pid in mp[j].1 && mp[j].0 !in related then related + [mp[j].0] else related)
  {
    assert mp[j..][1..] == mp[j + 1..];
  }

  /** The first loop of `send_machine_updates_for_task`. */
  method LinkMachines(wm: WebSocketManager, cp: Dict<string, string>, pid: string) returns (related: seq<string>)
    modifies wm`machinePrompts
    ensures related == MappedMachines(cp, pid)
    ensures wm.machinePrompts == Linked(old(wm.machinePrompts), cp, pid)
  {
    related := [];
    ghost var mp0 := wm.machinePrompts;
    assert cp[0..] == cp;
    for i := 0 to |cp|
      invariant related + MappedMachines(cp[i..], pid) == MappedMachines(cp, pid)
      invariant Linked(wm.machinePrompts, cp[i..], pid) == Linked(mp0, cp, pid)
    {
      if cp[i].1 == pid {
        assert related + [cp[i].0] + MappedMachines(cp[i + 1..], pid) == MappedMachines(cp, pid) by {
          MappedStep(cp, i, pid);
          AppendAssoc(related, [cp[i].0], MappedMachines(cp[i + 1..], pid));
        }
        assert Linked(Put(wm.machinePrompts, cp[i].0, TasksOf(wm.machinePrompts, cp[i].0) + {pid}), cp[i + 1..], pid)
               == Linked(mp0, cp, pid) by {
          LinkedStep(cp, i, pid, wm.machinePrompts);
        }
        related := related + [cp[i].0];
        AddToMachine(wm, cp[i].0, pid);
      } else {
        assert related + MappedMachines(cp[i + 1..], pid) == MappedMachines(cp, pid) by {
          MappedStep(cp, i, pid);
        }
        assert Linked(wm.machinePrompts, cp[i + 1..], pid) == Linked(mp0, cp, pid) by {
          LinkedStep(cp, i, pid, wm.machinePrompts);
        }
      }
    }
    assert cp[|cp|..] == [];
  }

  /** The second loop of `send_machine_updates_for_task`. */
  method ListMachines(mp: Dict<string, set<string>>, pid: string, mapped: seq<string>) returns (related: seq<string>)
    ensures related == Listing(mp, pid, mapped)
  {
    related := mapped;
    assert mp[0..] == mp;
    for j := 0 to |mp|
      invariant Listing(mp[j..], pid, related) == Listing(mp, pid, mapped)
    {
      ListingStep(mp, j, pid, related);
      if pid in mp[j].1 && mp[j].0 !in related {
        related := related + [mp[j].0];
      }
    }
    assert mp[|mp|..] == [];
  }

  /** Both loops: the machines that task's update goes to, with the machine
      sets updated along the way. */
  method FindRelated(wm: WebSocketManager, cp: Dict<string, string>, pid: string) returns (related: seq<string>)
    modifies wm`machinePrompts
    ensures related == RelatedMachines(old(wm.machinePrompts), cp, pid)
    ensures wm.machinePrompts == Linked(old(wm.machinePrompts), cp, pid)
  {
    var mapped := LinkMachines(wm, cp, pid);
    related := ListMachines(wm.machinePrompts, pid, mapped);
  }

  /** A machine is mapped to that task exactly when `client_prompts` has an
      entry from it to that task. */
  lemma {:induction false} MappedMachinesIff(cp: Dict<string, string>, pid: string, m: string)
    ensures m in MappedMachines(cp, pid) <==> exists j :: 0 <= j < |cp| && cp[j] == (m, pid)
  {
    if cp != [] {
      MappedMachinesIff(cp[1..], pid, m);
      if exists j :: 0 <= j < |cp| && cp[j] == (m, pid) {
        var j :| 0 <= j < |cp| && cp[j] == (m, pid);
        if j > 0 {
          assert cp[1..][j - 1] == (m, pid);
        }
      }
      if exists j :: 0 <= j < |cp[1..]| && cp[1..][j] == (m, pid) {
        var j :| 0 <= j < |cp[1..]| && cp[1..][j] == (m, pid);
        assert cp[j + 1] == (m, pid);
      }
    }
  }

  /** After the first loop a machine's set holds that task exactly when it
      did before or `client_prompts` maps the machine to it, and every
      other task of the set is kept. */
  lemma {:induction false} LinkedTasks(mp: Dict<string, set<string>>, cp: Dict<string, string>, pid: string, m: string)
    ensures TasksOf(Linked(mp, cp, pid), m) == TasksOf(mp, m) + (if m in MappedMachines(cp, pid) then {pid} else {})
    ensures Find(Linked(mp, cp, pid), m).Some? <==> Find(mp, m).Some? || m in MappedMachines(cp, pid)
    decreases |cp|
  {
    if cp != [] {
      var mp' := if cp[0].1 == pid then Put(mp, cp[0].0, TasksOf(mp, cp[0].0) + {pid}) else mp;
      LinkedTasks(mp', cp[1..], pid, m);
    }
  }

  lemma {:induction false} LinkedKeepsUniqueKeys(mp: Dict<string, set<string>>, cp: Dict<string, string>, pid: string)
    requires UniqueKeys(mp)
    ensures UniqueKeys(Linked(mp, cp, pid))
    decreases |cp|
  {
    if cp != [] {
      var mp' := if cp[0].1 == pid then Put(mp, cp[0].0, TasksOf(mp, cp[0].0) + {pid}) else mp;
      if cp[0].1 == pid {
        PutKeepsUniqueKeys(mp, cp[0].0, TasksOf(mp, cp[0].0) + {pid});
      }
      LinkedKeepsUniqueKeys(mp', cp[1..], pid);
    }
  }

  /** The second loop lists, after the machines already listed, exactly the
      machines with an entry holding that task. */
  lemma {:induction false} ListingIff(mp: Dict<string, set<string>>, pid: string, related: seq<string>, m: string)
    ensures m in Listing(mp, pid, related) <==> m in related || exists j :: 0 <= j < |mp| && mp[j].0 == m && pid in mp[j].1
    decreases |mp|
  {
    if mp != [] {
      var related' := if pid in mp[0].1 && mp[0].0 !in related then related + [mp[0].0] else related;
      ListingIff(mp[1..], pid, related', m);
      if exists j :: 0 <= j < |mp| && mp[j].0 == m && pid in mp[j].1 {
        var j :| 0 <= j < |mp| && mp[j].0 == m && pid in mp[j].1;
        if j > 0 {
          assert mp[1..][j - 1] == mp[j];
        }
      }
      if exists j :: 0 <= j < |mp[1..]| && mp[1..][j].0 == m && pid in mp[1..][j].1 {
        var j :| 0 <= j < |mp[1..]| && mp[1..][j].0 == m && pid in mp[1..][j].1;
        assert mp[j + 1] == mp[1..][j];
      }
    }
  }

  /** The second loop never lists a machine twice. */
  lemma {:induction false} ListingDistinct(mp: Dict<string, set<string>>, pid: string, related: seq<string>)
    requires Distinct(related)
    ensures Distinct(Listing(mp, pid, related))
    decreases |mp|
  {
    if mp != [] {
      var related' := if pid in mp[0].1 && mp[0].0 !in related then related + [mp[0].0] else related;
      ListingDistinct(mp[1..], pid, related');
    }
  }

  /** In a dict an entry holding that task is the machine's entry. */
  lemma EntryHolds(d: Dict<string, set<string>>, m: string, pid: string)
    requires UniqueKeys(d)
    ensures (exists j :: 0 <= j < |d| && d[j].0 == m && pid in d[j].1) <==> pid in TasksOf(d, m)
  {
    if exists j :: 0 <= j < |d| && d[j].0 == m && pid in d[j].1 {
      var j :| 0 <= j < |d| && d[j].0 == m && pid in d[j].1;
      forall i | 0 <= i < j
        ensures d[i].0 != d[j].0
      {
        assert Keys(d)[i] != Keys(d)[j];
      }
      FindAt(d, j);
    }
    if pid in TasksOf(d, m) {
      var i :| 0 <= i < |d| && d[i] == (m, TasksOf(d, m));
      assert d[i].0 == m && pid in d[i].1;
    }
  }

  /** The machines a task's update goes to are exactly those that
      `client_prompts` maps to that task and those whose set already held
      it. */
  lemma RelatedMachinesIff(mp: Dict<string, set<string>>, cp: Dict<string, string>, pid: string, m: string)
    requires UniqueKeys(mp)
    ensures m in RelatedMachines(mp, cp, pid) <==> (exists j :: 0 <= j < |cp| && cp[j] == (m, pid)) || pid in TasksOf(mp, m)
  {
    var linked := Linked(mp, cp, pid);
    MappedMachinesIff(cp, pid, m);
    LinkedTasks(mp, cp, pid, m);
    LinkedKeepsUniqueKeys(mp, cp, pid);
    ListingIff(linked, pid, MappedMachines(cp, pid), m);
    EntryHolds(linked, m, pid);
  }

  /** A machine mapped to that task by a dict is listed once. */
  lemma {:induction false} MappedDistinct(cp: Dict<string, string>, pid: string)
    requires UniqueKeys(cp)
    ensures Distinct(MappedMachines(cp, pid))
  {
    if cp != [] {
      UniqueTail(cp);
      MappedDistinct(cp[1..], pid);
      var rest := MappedMachines(cp[1..], pid);
      if cp[0].1 == pid {
        MappedMachinesIff(cp[1..], pid, cp[0].0);
        forall j | 0 <= j < |cp[1..]|
          ensures cp[1..][j] != (cp[0].0, pid)
        {
          assert Keys(cp[1..])[j] == cp[1..][j].0;
        }
        var r := [cp[0].0] + rest;
        forall i, k | 0 <= i < k < |r|
          ensures r[i] != r[k]
        {
          if i > 0 {
            assert r[i] == rest[i - 1] && r[k] == rest[k - 1];
          } else {
            assert r[k] == rest[k - 1];
          }
        }
      }
    }
  }

  /** When `client_prompts` is a dict, no machine is sent a task's update
      twice. */
  lemma RelatedDistinct(mp: Dict<string, set<string>>, cp: Dict<string, string>, pid: string)
    requires UniqueKeys(cp)
    ensures Distinct(RelatedMachines(mp, cp, pid))
  {
    MappedDistinct(cp, pid);
    ListingDistinct(Linked(mp, cp, pid), pid, MappedMachines(cp, pid));
  }

  // ---------------------------------------------------------------------
  // The round over the related machines

  /** What a machine socket is sent. */
  function Message(event: string, data: Json): Json
  {
    JObj([("event", JStr(event)), ("data", data)])
  }

  /** The state a round of `send_machine_task_update` calls carries: the
      machine sockets, that task's payload (one dict, completed in place by
      the calls), the messages that went out, and whether a call raised. */
  datatype Round = Round(listeners: map<string, Connection>, data: Json, sent: seq<(string, Json)>, raised: bool)

  /** `send_machine_task_update` for one machine: nothing without a socket;
      a closed socket is dropped; otherwise the payload is completed (which
      raises when the running node's entry is not a dict) and sent, a
      failing send being swallowed. */
  function MachineStep(t: Tables, pid: string, event: string, m: string, r: Round): (r': Round)
    reads r.listeners.Values
    ensures r'.listeners.Values <= r.listeners.Values
  {
    if m !in r.listeners then r
    else
      var ws := r.listeners[m];
      if ws.closed then r.(listeners := r.listeners - {m})
      else
        match MachinePayload(t, pid, r.data)
        case None => r.(raised := true)
        case Some(p) => r.(data := p, sent := if ws.failing then r.sent else r.sent + [(m, Message(event, p))])
  }

  /** The loop of `send_machine_updates_for_task` over the related machines;
      a call that raises ends it. */
  function MachineRound(t: Tables, pid: string, event: string, ms: seq<string>, r: Round): Round
    reads r.listeners.Values
    decreases |ms|
  {
    if ms == [] || r.raised then r
    else MachineRound(t, pid, event, ms[1..], MachineStep(t, pid, event, ms[0], r))
  }

  lemma RoundStep(t: Tables, pid: string, event: string, ms: seq<string>, i: nat, r: Round)
    requires i < |ms| && !r.raised
    ensures MachineRound(t, pid, event, ms[i..], r) == MachineRound(t, pid, event, ms[i + 1..], MachineStep(t, pid, event, ms[i], r))
  {
    assert ms[i..][1..] == ms[i + 1..];
  }

  /** A call's messages follow those sent before it. */
  lemma StepAppends(t: Tables, pid: string, event: string, m: string, l: map<string, Connection>, d: Json, sent: seq<(string, Json)>)
    ensures var r := MachineStep(t, pid, event, m, Round(l, d, [], false));
            MachineStep(t, pid, event, m, Round(l, d, sent, false)) == r.(sent := sent + r.sent)
  {
    assert sent + [] == sent;
  }

  /** One call of `send_machine_task_update`. */
  method SendMachineTaskUpdate(t: Tables, wm: WebSocketManager, pid: string, event: string, m: string, d: Json)
    returns (data: Json, sent: seq<(string, Json)>, raised: bool)
    modifies wm`machineListeners
    ensures var r := MachineStep(t, pid, event, m, Round(old(wm.machineListeners), d, [], false));
            wm.machineListeners == r.listeners && data == r.data && sent == r.sent && raised == r.raised
  {
    data, sent, raised := d, [], false;
    if m !in wm.machineListeners {
      return;
    }
    var ws := wm.machineListeners[m];
    if ws.closed {
      wm.machineListeners := wm.machineListeners - {m};
      return;
    }
    var p := MachinePayload(t, pid, d);
    if p.None? {
      raised := true;
      return;
    }
    data := p.value;
    if !ws.failing {
      sent := [(m, Message(event, data))];
    }
  }

  /** The loop over the related machines. */
  method SendMachineUpdates(t: Tables, wm: WebSocketManager, pid: string, event: string, ms: seq<string>, d: Json)
    returns (sent: seq<(string, Json)>, raised: bool)
    modifies wm`machineListeners
    ensures var r := MachineRound(t, pid, event, ms, Round(old(wm.machineListeners), d, [], false));
            wm.machineListeners == r.listeners && sent == r.sent && raised == r.raised
  {
    var data := d;
    sent, raised := [], false;
    ghost var r0 := Round(wm.machineListeners, d, [], false);
    assert ms[0..] == ms;
    for i := 0 to |ms|
      invariant MachineRound(t, pid, event, ms[i..], Round(wm.machineListeners, data, sent, false))
                == MachineRound(t, pid, event, ms, r0)
    {
      ghost var before := Round(wm.machineListeners, data, sent, false);
      RoundStep(t, pid, event, ms, i, before);
      StepAppends(t, pid, event, ms[i], wm.machineListeners, data, sent);
      var data', sent', raised' := SendMachineTaskUpdate(t, wm, pid, event, ms[i], data);
      data := data';
      sent := sent + sent';
      if raised' {
        raised := true;
        return;
      }
    }
    assert ms[|ms|..] == [];
  }

  /** The payload a round carries is that task's payload or its completion,
      and every message sent carries the completion. */
  predicate Settled(t: Tables, pid: string, event: string, d0: Json, data: Json, sent: seq<(string, Json)>)
  {
    var p := MachinePayload(t, pid, d0);
    (data == d0 || (p.Some? && data == p.value))
    && (sent != [] ==> p.Some? && forall i :: 0 <= i < |sent| ==> sent[i].1 == Message(event, p.value))
  }

  lemma StepKeepsPayload(t: Tables, pid: string, event: string, m: string, r: Round, d0: Json)
    requires Settled(t, pid, event, d0, r.data, r.sent)
    ensures var r' := MachineStep(t, pid, event, m, r);
            Settled(t, pid, event, d0, r'.data, r'.sent)
  {
    var r' := MachineStep(t, pid, event, m, r);
    if m in r.listeners && !r.listeners[m].closed && MachinePayload(t, pid, r.data).Some? {
      var p0 := MachinePayload(t, pid, d0);
      var p := MachinePayload(t, pid, r.data).value;
      var sent := if r.listeners[m].failing then r.sent else r.sent + [(m, Message(event, p))];
      assert r' == r.(data := p, sent := sent);
      assert p0 == Some(p) by {
        if r.data != d0 {
          MachinePayloadIdempotent(t, pid, d0);
        }
      }
      forall i | 0 <= i < |sent|
        ensures sent[i].1 == Message(event, p)
      {
        if i < |r.sent| {
          assert sent[i] == r.sent[i];
        }
      }
    } else {
      assert r'.data == r.data && r'.sent == r.sent;
    }
  }

  lemma {:induction false} RoundKeepsPayload(t: Tables, pid: string, event: string, ms: seq<string>, r: Round, d0: Json)
    requires Settled(t, pid, event, d0, r.data, r.sent)
    ensures var r' := MachineRound(t, pid, event, ms, r);
            Settled(t, pid, event, d0, r'.data, r'.sent)
    decreases |ms|
  {
    if ms != [] && !r.raised {
      StepKeepsPayload(t, pid, event, ms[0], r, d0);
      RoundKeepsPayload(t, pid, event, ms[1..], MachineStep(t, pid, event, ms[0], r), d0);
    }
  }

  /** Every machine of a round is sent the same payload: the one the first
      completion of that task's dict produced, since the calls share that
      dict and completing it again changes nothing. */
  lemma MachinesShareOnePayload(t: Tables, pid: string, event: string, ms: seq<string>, l: map<string, Connection>, d: Json)
    ensures var r := MachineRound(t, pid, event, ms, Round(l, d, [], false));
            r.sent != [] ==>
              MachinePayload(t, pid, d).Some?
              && forall i :: 0 <= i < |r.sent| ==> r.sent[i].1 == Message(event, MachinePayload(t, pid, d).value)
  {
    var r0 := Round(l, d, [], false);
    assert Settled(t, pid, event, d, r0.data, r0.sent);
    RoundKeepsPayload(t, pid, event, ms, r0, d);
    var r := MachineRound(t, pid, event, ms, r0);
    assert Settled(t, pid, event, d, r.data, r.sent);
  }

  /** Some message of `sent` went to machine m. */
  predicate SentTo(sent: seq<(string, Json)>, m: string)
  {
    exists i :: 0 <= i < |sent| && sent[i].0 == m
  }

  lemma SentToAppend(sent: seq<(string, Json)>, e: (string, Json), m: string)
    ensures SentTo(sent + [e], m) <==> SentTo(sent, m) || e.0 == m
  {
    var s := sent + [e];
    if SentTo(s, m) {
      var i :| 0 <= i < |s| && s[i].0 == m;
      if i < |sent| {
        assert sent[i] == s[i];
      }
    }
    if SentTo(sent, m) {
      var i :| 0 <= i < |sent| && sent[i].0 == m;
      assert s[i] == sent[i];
    }
    assert s[|sent|] == e;
  }

  lemma StepRecipients(t: Tables, pid: string, event: string, m0: string, r: Round, m: string)
    requires !r.raised && !MachineStep(t, pid, event, m0, r).raised
    ensures var r' := MachineStep(t, pid, event, m0, r);
            (SentTo(r'.sent, m) <==> SentTo(r.sent, m) || (m == m0 && m in r.listeners && Live(r.listeners[m]))) &&
            (m in r'.listeners <==> m in r.listeners && !(m == m0 && r.listeners[m].closed)) &&
            (m in r'.listeners ==> r'.listeners[m] == r.listeners[m])
  {
    if m0 in r.listeners && !r.listeners[m0].closed && !r.listeners[m0].failing {
      var p := MachinePayload(t, pid, r.data).value;
      SentToAppend(r.sent, (m0, Message(event, p)), m);
    }
  }

  /** A round that does not raise reaches exactly the related machines
      whose socket is open and whose send succeeds, and gives up only the
      sockets it found closed. */
  lemma {:induction false} RoundRecipients(t: Tables, pid: string, event: string, ms: seq<string>, r: Round, m: string)
    requires !MachineRound(t, pid, event, ms, r).raised
    ensures var r' := MachineRound(t, pid, event, ms, r);
            (SentTo(r'.sent, m) <==> SentTo(r.sent, m) || (m in ms && m in r.listeners && Live(r.listeners[m]))) &&
            (m in r'.listeners <==> m in r.listeners && !(m in ms && r.listeners[m].closed)) &&
            (m in r'.listeners ==> r'.listeners[m] == r.listeners[m])
    decreases |ms|
  {
    if ms != [] {
      var r1 := MachineStep(t, pid, event, ms[0], r);
      StepRecipients(t, pid, event, ms[0], r, m);
      RoundRecipients(t, pid, event, ms[1..], r1, m);
      assert m in ms <==> m == ms[0] || m in ms[1..];
    }
  }
}
