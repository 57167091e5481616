// The state of the socket web worker and what each of its handlers does to it.
//
// Handlers run to completion, so each is one step. Timers, the clock and the Socket.IO clients are part of the state
// as far as the worker can tell: which timers are armed, and whether the client in `socket` is connected.

module WorkerSpec {
  import opened Text

  type RequestId = string
  type TimerId = nat

  const SEND_TIMEOUT_MS: nat := 30000
  const HEARTBEAT_COMPACT_MS: nat := 4500
  const HEARTBEAT_RELAXED_MS: nat := 5000

  // The four requests of the main thread that are answered by an ack.
  datatype Kind = Send | Receipt | WebRtc | LastSeen

  datatype AckBody = Unavailable(message: string) | Server(payload: string)

  datatype PostBody =
    | SocketConnecting
    | Connected
    | Disconnected(reason: string)
    | ConnectError(message: string)
    | Inbound(event: string, payload: string)
    | Ack(kind: Kind, request: RequestId, ack: AckBody)

  // Who caused a post: a message of the main thread, a listener of the client of some generation, or a callback.
  datatype Origin = Main | Client(generation: nat) | Callback

  datatype Post = Post(body: PostBody, origin: Origin)

  datatype SocketClient = SocketClient(generation: nat, connected: bool)

  // arrival numbers the accepted send requests.
  datatype Item = Item(arrival: nat, request: RequestId, timeoutId: TimerId)

  datatype Emission = Emission(arrival: nat, request: RequestId, generation: nat)

  datatype Timeout = Timeout(deadline: int, request: RequestId)

  datatype Arrival = Arrival(request: RequestId, at: int)

  datatype Worker = Worker(
    generation: nat,
    socket: Option<SocketClient>,
    heartbeat: Option<TimerId>,
    heartbeatMs: nat,
    queue: seq<Item>,
    // the timers armed in the runtime, by id
    intervals: map<TimerId, nat>,
    timeouts: map<TimerId, Timeout>,
    nextTimer: TimerId,
    now: int,
    // what happened so far
    arrivals: seq<Arrival>,
    emitted: seq<Emission>,
    inFlight: set<(Kind, RequestId)>,
    posts: seq<Post>)

  datatype Event =
    | Connect
    | Disconnect
    | HeartbeatMode(activeThread: bool)
    | MessageSend(request: RequestId)
    | Query(kind: Kind, request: RequestId)
    | ReconnectAttempt(generation: nat)
    | ClientConnect(generation: nat)
    | ClientDisconnect(generation: nat, reason: string)
    | ClientConnectError(generation: nat, message: string)
    | ClientEvent(generation: nat, event: string, payload: string)
    | AckArrives(kind: Kind, request: RequestId, payload: string)
    | TimerFires(id: TimerId)
    | Tick(to: int)

  function Init(now: int): Worker {
    Worker(0, None, None, HEARTBEAT_RELAXED_MS, [], map[], map[], 0, now, [], [], {}, [])
  }

  predicate IsConnected(w: Worker) {
    w.socket.Some? && w.socket.value.connected
  }

  function Say(w: Worker, body: PostBody, origin: Origin): Worker {
    w.(posts := w.posts + [Post(body, origin)])
  }

  function ClearHeartbeat(w: Worker): Worker {
    match w.heartbeat
    case None => w
    case Some(h) => w.(heartbeat := None, intervals := w.intervals - {h})
  }

  function StartHeartbeat(w: Worker): Worker {
    var c := ClearHeartbeat(w);
    c.(heartbeat := Some(c.nextTimer), intervals := c.intervals[c.nextTimer := c.heartbeatMs], nextTimer := c.nextTimer + 1)
  }

  function ApplyHeartbeatMode(w: Worker, activeThread: bool): Worker {
    var next := if activeThread then HEARTBEAT_COMPACT_MS else HEARTBEAT_RELAXED_MS;
    if next == w.heartbeatMs then w
    else
      var w1 := w.(heartbeatMs := next);
      if IsConnected(w1) then StartHeartbeat(w1) else w1
  }

  // An ack for every item of the queue.
  function Refusals(queue: seq<Item>, message: string): seq<Post> {
    seq(|queue|, i requires 0 <= i < |queue| => Post(Ack(Send, queue[i].request, Unavailable(message)), Main))
  }

  function TimeoutIds(queue: seq<Item>): set<TimerId> {
    set item | item in queue :: item.timeoutId
  }

  function ClearQueue(w: Worker, message: string): Worker {
    w.(queue := [], timeouts := w.timeouts - TimeoutIds(w.queue), posts := w.posts + Refusals(w.queue, message))
  }

  function Emissions(queue: seq<Item>, generation: nat): seq<Emission> {
    seq(|queue|, i requires 0 <= i < |queue| => Emission(queue[i].arrival, queue[i].request, generation))
  }

  function Requests(queue: seq<Item>): set<(Kind, RequestId)> {
    set item | item in queue :: (Send, item.request)
  }

  // On a connected client the whole queue goes out, oldest first.
  function Flush(w: Worker): Worker {
    if !IsConnected(w) then w
    else
      w.(queue := [],
         timeouts := w.timeouts - TimeoutIds(w.queue),
         emitted := w.emitted + Emissions(w.queue, w.socket.value.generation),
         inFlight := w.inFlight + Requests(w.queue))
  }

  function SendOrQueue(w: Worker, request: RequestId): Worker {
    var n := |w.arrivals|;
    var w1 := w.(arrivals := w.arrivals + [Arrival(request, w.now)]);
    if IsConnected(w) then
      w1.(emitted := w.emitted + [Emission(n, request, w.socket.value.generation)],
          inFlight := w.inFlight + {(Send, request)})
    else
      w1.(queue := w.queue + [Item(n, request, w.nextTimer)],
          timeouts := w.timeouts[w.nextTimer := Timeout(w.now + SEND_TIMEOUT_MS, request)],
          nextTimer := w.nextTimer + 1)
  }

  // The other requests are never queued.
  function EmitOrRefuse(w: Worker, kind: Kind, request: RequestId): Worker {
    if IsConnected(w) then w.(inFlight := w.inFlight + {(kind, request)})
    else Say(w, Ack(kind, request, Unavailable("Socket not connected")), Main)
  }

  function IndexOf(queue: seq<Item>, request: RequestId): Option<nat> {
    if queue == [] then None
    else if queue[0].request == request then Some(0)
    else match IndexOf(queue[1..], request) case None => None case Some(i) => Some(i + 1)
  }

  function Without(queue: seq<Item>, i: nat): seq<Item>
    requires i < |queue|
  {
    queue[..i] + queue[i + 1..]
  }

  // The 30 s timer of a queued send; a timer that fired is no longer armed.
  function FireTimeout(w: Worker, id: TimerId): Worker {
    if id !in w.timeouts then w
    else
      var request := w.timeouts[id].request;
      var w1 := w.(timeouts := w.timeouts - {id});
      match IndexOf(w.queue, request)
      case None => w1
      case Some(i) =>
        if i < |w.queue| then
          Say(w1.(queue := Without(w.queue, i)),
              Ack(Send, request, Unavailable("Timed out waiting for chat connection")), Callback)
        else w1
  }

  function ConnectSocket(w: Worker): Worker {
    var g := w.generation + 1;
    var w1 := ClearHeartbeat(w.(generation := g));
    var w2 := if w1.socket.Some? then Say(w1, Disconnected("reconnect"), Main) else w1;
    Say(w2, SocketConnecting, Main).(socket := Some(SocketClient(g, false)))
  }

  function DisconnectSocket(w: Worker): Worker {
    var w1 := ClearHeartbeat(ClearQueue(w.(generation := w.generation + 1), "Socket not connected"));
    Say(w1.(heartbeatMs := HEARTBEAT_RELAXED_MS, socket := None), Disconnected("client"), Main)
  }

  // The client library flips the flag of its own client before it calls the listener.
  function SetConnected(w: Worker, generation: nat, connected: bool): Worker {
    if w.socket.Some? && w.socket.value.generation == generation
    then w.(socket := Some(SocketClient(generation, connected))) else w
  }

  function OnConnect(w: Worker, g: nat): Worker {
    var w1 := SetConnected(w, g, true);
    if g != w1.generation then w1 else Flush(StartHeartbeat(Say(w1, Connected, Client(g))))
  }

  function OnDisconnect(w: Worker, g: nat, reason: string): Worker {
    var w1 := SetConnected(w, g, false);
    if g != w1.generation then w1 else Say(ClearHeartbeat(w1), Disconnected(reason), Client(g))
  }

  function OnClientPost(w: Worker, g: nat, body: PostBody): Worker {
    if g != w.generation then w else Say(w, body, Client(g))
  }

  // The ack callback of an emit has no generation guard; the library calls it at most once.
  function OnAck(w: Worker, kind: Kind, request: RequestId, payload: string): Worker {
    Say(w.(inFlight := w.inFlight - {(kind, request)}), Ack(kind, request, Server(payload)), Callback)
  }

  function Step(w: Worker, e: Event): Worker {
    match e
    case Connect => ConnectSocket(w)
    case Disconnect => DisconnectSocket(w)
    case HeartbeatMode(active) => ApplyHeartbeatMode(w, active)
    case MessageSend(request) => SendOrQueue(w, request)
    case Query(kind, request) => EmitOrRefuse(w, kind, request)
    case ReconnectAttempt(g) => OnClientPost(w, g, SocketConnecting)
    case ClientConnect(g) => OnConnect(w, g)
    case ClientDisconnect(g, reason) => OnDisconnect(w, g, reason)
    case ClientConnectError(g, message) => OnClientPost(w, g, ConnectError(message))
    case ClientEvent(g, event, payload) => OnClientPost(w, g, Inbound(event, payload))
    case AckArrives(kind, request, payload) => OnAck(w, kind, request, payload)
    case TimerFires(id) => FireTimeout(w, id)
    case Tick(to) => w.(now := to)
  }

  function QueryKinds(): set<Kind> { {Receipt, WebRtc, LastSeen} }

  predicate Arrived(w: Worker, r: RequestId) {
    exists k :: 0 <= k < |w.arrivals| && w.arrivals[k].request == r
  }

  // The client of generation g exists, and its flag is as given if it is the current one.
  predicate ClientIn(w: Worker, g: nat, connected: bool) {
    || 0 < g < w.generation
    || (w.socket.Some? && w.socket.value == SocketClient(g, connected))
  }

  // What the environment can do: request ids are fresh UUIDs, a client connects only when it is not connected and
  // drops only when it is, an ack answers an emit once, a timer fires when due, the clock stops at armed timers.
  predicate Possible(w: Worker, e: Event) {
    match e
    case Connect => true
    case Disconnect => true
    case HeartbeatMode(_) => true
    case MessageSend(request) => !Arrived(w, request)
    case Query(kind, _) => kind in QueryKinds()
    case ReconnectAttempt(g) => ClientIn(w, g, false)
    case ClientConnect(g) => ClientIn(w, g, false)
    case ClientDisconnect(g, _) => ClientIn(w, g, true)
    case ClientConnectError(g, _) => ClientIn(w, g, false)
    case ClientEvent(g, _, _) => ClientIn(w, g, true)
    case AckArrives(kind, request, _) => (kind, request) in w.inFlight
    case TimerFires(id) => id in w.timeouts && w.timeouts[id].deadline <= w.now
    case Tick(to) => w.now <= to && forall id :: id in w.timeouts ==> to <= w.timeouts[id].deadline
  }

  // A run takes the events that are possible when they come up.
  function Run(w: Worker, es: seq<Event>): Worker
    decreases |es|
  {
    if es == [] then w
    else
      var before := Run(w, es[..|es| - 1]);
      var e := es[|es| - 1];
      if Possible(before, e) then Step(before, e) else before
  }
}
