/** The delivery side's state (`WebSocketManager` in custom_routes.py): the
    websocket subscribers and the queue between the engine's event thread and
    the delivery loop. */
module Channels {

  import opened Base

  /** A websocket. `closed` is what the socket reports; `failing` stands for
      the network: a send on a failing socket raises. */
  class Connection {
    var closed: bool
    var failing: bool

    constructor (closed: bool, failing: bool)
      ensures this.closed == closed && this.failing == failing
    {
      this.closed := closed;
      this.failing := failing;
    }
  }

  /** An entry of `ws_event_queue`: a `(prompt_id, event, data)` to push to
      the subscribers, or a `(prompt_id, "callback", (event, body))` to post
      to that task's callback URL. */
  datatype Item =
    | Push(pid: string, event: string, data: Json)
    | Callback(pid: string, event: string, body: Json)

  class WebSocketManager {
    /** Task id to the sockets subscribed to it, in subscription order. */
    var taskListeners: map<string, seq<Connection>>
    /** Machine id to its one socket. */
    var machineListeners: map<string, Connection>
    /** Machine id to the tasks associated with it, in first-use order. */
    var machinePrompts: Dict<string, set<string>>
    var queue: seq<Item>

    constructor ()
      ensures taskListeners == map[] && machineListeners == map[]
      ensures machinePrompts == [] && queue == []
    {
      taskListeners := map[];
      machineListeners := map[];
      machinePrompts := [];
      queue := [];
    }
  }
}
