// The socket worker in its own form: module variables that the handlers reassign, and the loops over the send queue.
// Every method is proved against the step of WorkerSpec that it implements.

module SocketWorker {
  import opened Text
  import opened WorkerSpec

  // What one item adds to what is said of a queue.
  lemma OneMoreItem(items: seq<Item>, item: Item, message: string, generation: nat)
    ensures TimeoutIds(items + [item]) == TimeoutIds(items) + {item.timeoutId}
    ensures Requests(items + [item]) == Requests(items) + {(Send, item.request)}
    ensures Emissions(items + [item], generation)
            == Emissions(items, generation) + [Emission(item.arrival, item.request, generation)]
    ensures Refusals(items + [item], message)
            == Refusals(items, message) + [Post(Ack(Send, item.request, Unavailable(message)), Main)]
  {
  }

  lemma NoItems(message: string, generation: nat)
    ensures TimeoutIds([]) == {} && Requests([]) == {} && Emissions([], generation) == [] && Refusals([], message) == []
  {
  }

  class SocketWorker {
    var generation: nat
    var socket: Option<SocketClient>
    var heartbeat: Option<TimerId>
    var heartbeatMs: nat
    var queue: seq<Item>
    var intervals: map<TimerId, nat>
    var timeouts: map<TimerId, Timeout>
    var nextTimer: TimerId
    var now: int
    var arrivals: seq<Arrival>
    var emitted: seq<Emission>
    var inFlight: set<(Kind, RequestId)>
    var posts: seq<Post>

    function View(): Worker
      reads this
    {
      Worker(generation, socket, heartbeat, heartbeatMs, queue, intervals, timeouts, nextTimer, now,
             arrivals, emitted, inFlight, posts)
    }

    constructor (now: int)
      ensures View() == Init(now)
    {
      generation, socket, heartbeat, heartbeatMs, queue := 0, None, None, HEARTBEAT_RELAXED_MS, [];
      intervals, timeouts, nextTimer, this.now := map[], map[], 0, now;
      arrivals, emitted, inFlight, posts := [], [], {}, [];
    }

    method PostToMain(body: PostBody, origin: Origin)
      modifies this`posts
      ensures View() == Say(old(View()), body, origin)
    {
      posts := posts + [Post(body, origin)];
    }

    method ClearPendingMessageSendQueue(message: string)
      modifies this`queue, this`timeouts, this`posts
      ensures View() == ClearQueue(old(View()), message)
    {
      hide TimeoutIds, Refusals;
      var i := 0;
      NoItems(message, generation);
      while i < |queue|
        invariant i <= |queue| && queue == old(queue)
        invariant timeouts == old(timeouts) - TimeoutIds(queue[..i])
        invariant posts == old(posts) + Refusals(queue[..i], message)
      {
        var item := queue[i];
        timeouts := timeouts - {item.timeoutId};
        PostToMain(Ack(Send, item.request, Unavailable(message)), Main);
        assert queue[..i + 1] == queue[..i] + [item];
        OneMoreItem(queue[..i], item, message, generation);
        i := i + 1;
      }
      assert queue[..i] == queue;
      queue := [];
    }

    // socket!.emit: the caller has seen a connected client.
    method EmitMessageSend(item: Item)
      requires IsConnected(View())
      modifies this`emitted, this`inFlight
      ensures emitted == old(emitted) + [Emission(item.arrival, item.request, socket.value.generation)]
      ensures inFlight == old(inFlight) + {(Send, item.request)}
    {
      emitted := emitted + [Emission(item.arrival, item.request, socket.value.generation)];
      inFlight := inFlight + {(Send, item.request)};
    }

    method FlushPendingMessageSends()
      modifies this`queue, this`timeouts, this`emitted, this`inFlight
      ensures View() == Flush(old(View()))
    {
      hide TimeoutIds, Requests, Emissions, Refusals;
      ghost var done: seq<Item> := [];
      if socket.Some? { NoItems("", socket.value.generation); } else { NoItems("", 0); }
      while IsConnected(View()) && |queue| > 0
        invariant done + queue == old(queue)
        invariant !IsConnected(View()) ==> done == []
        invariant timeouts == old(timeouts) - TimeoutIds(done)
        invariant IsConnected(View()) ==> emitted == old(emitted) + Emissions(done, socket.value.generation)
        invariant !IsConnected(View()) ==> emitted == old(emitted)
        invariant inFlight == old(inFlight) + Requests(done)
        decreases |queue|
      {
        var item := queue[0];
        queue := queue[1..];
        timeouts := timeouts - {item.timeoutId};
        EmitMessageSend(item);
        OneMoreItem(done, item, "", socket.value.generation);
        done := done + [item];
      }
      assert IsConnected(View()) ==> done == old(queue);
    }

    method TryMessageSendOrQueue(request: RequestId)
      modifies this`arrivals, this`emitted, this`inFlight, this`timeouts, this`nextTimer, this`queue
      ensures View() == SendOrQueue(old(View()), request)
    {
      var n := |arrivals|;
      arrivals := arrivals + [Arrival(request, now)];
      if IsConnected(View()) {
        EmitMessageSend(Item(n, request, nextTimer));
        return;
      }
      var timeoutId := nextTimer;
      timeouts, nextTimer := timeouts[timeoutId := Timeout(now + SEND_TIMEOUT_MS, request)], nextTimer + 1;
      queue := queue + [Item(n, request, timeoutId)];
    }

    // The callback that TryMessageSendOrQueue hands to setTimeout.
    method OnSendTimeout(id: TimerId)
      modifies this`timeouts, this`queue, this`posts
      ensures View() == FireTimeout(old(View()), id)
    {
      if id !in timeouts {
        return;
      }
      var request := timeouts[id].request;
      timeouts := timeouts - {id};
      var idx := IndexOf(queue, request);
      if idx.None? || idx.value >= |queue| {
        return;
      }
      queue := queue[..idx.value] + queue[idx.value + 1..];
      PostToMain(Ack(Send, request, Unavailable("Timed out waiting for chat connection")), Callback);
    }

    method StopHeartbeat()
      modifies this`heartbeat, this`intervals
      ensures View() == ClearHeartbeat(old(View()))
    {
      if heartbeat.Some? {
        intervals := intervals - {heartbeat.value};
        heartbeat := None;
      }
    }

    method RestartHeartbeat()
      modifies this`heartbeat, this`intervals, this`nextTimer
      ensures View() == StartHeartbeat(old(View()))
    {
      StopHeartbeat();
      heartbeat := Some(nextTimer);
      intervals := intervals[nextTimer := heartbeatMs];
      nextTimer := nextTimer + 1;
    }

    method SetHeartbeatMode(activeThread: bool)
      modifies this`heartbeat, this`intervals, this`nextTimer, this`heartbeatMs
      ensures View() == ApplyHeartbeatMode(old(View()), activeThread)
    {
      var next := if activeThread then HEARTBEAT_COMPACT_MS else HEARTBEAT_RELAXED_MS;
      if next == heartbeatMs {
        return;
      }
      heartbeatMs := next;
      if IsConnected(View()) {
        RestartHeartbeat();
      }
    }

    method Connect()
      modifies this`generation, this`heartbeat, this`intervals, this`posts, this`socket
      ensures View() == ConnectSocket(old(View()))
    {
      generation := generation + 1;
      StopHeartbeat();
      if socket.Some? {
        PostToMain(Disconnected("reconnect"), Main);
      }
      PostToMain(SocketConnecting, Main);
      socket := Some(SocketClient(generation, false));
    }

    method Disconnect()
      modifies this
      ensures View() == DisconnectSocket(old(View()))
    {
      generation := generation + 1;
      ClearPendingMessageSendQueue("Socket not connected");
      StopHeartbeat();
      heartbeatMs := HEARTBEAT_RELAXED_MS;
      socket := None;
      PostToMain(Disconnected("client"), Main);
    }

    // receipt_emit, webrtc_emit and presence_get_last_seen.
    method EmitWithAck(kind: Kind, request: RequestId)
      modifies this`inFlight, this`posts
      ensures View() == EmitOrRefuse(old(View()), kind, request)
    {
      if !IsConnected(View()) {
        PostToMain(Ack(kind, request, Unavailable("Socket not connected")), Main);
        return;
      }
      inFlight := inFlight + {(kind, request)};
    }

    // The connect listener of the client of generation g; the library has just set its flag.
    method OnClientConnect(g: nat)
      modifies this
      ensures View() == OnConnect(old(View()), g)
    {
      if socket.Some? && socket.value.generation == g {
        socket := Some(SocketClient(g, true));
      }
      if g != generation {
        return;
      }
      PostToMain(Connected, Client(g));
      RestartHeartbeat();
      FlushPendingMessageSends();
    }

    method OnClientDisconnect(g: nat, reason: string)
      modifies this
      ensures View() == OnDisconnect(old(View()), g, reason)
    {
      if socket.Some? && socket.value.generation == g {
        socket := Some(SocketClient(g, false));
      }
      if g != generation {
        return;
      }
      StopHeartbeat();
      PostToMain(Disconnected(reason), Client(g));
    }

    // Every other listener of a client: a guarded post.
    method OnClientEvent(g: nat, body: PostBody)
      modifies this`posts
      ensures View() == OnClientPost(old(View()), g, body)
    {
      if g != generation {
        return;
      }
      PostToMain(body, Client(g));
    }

    method OnServerAck(kind: Kind, request: RequestId, payload: string)
      modifies this`inFlight, this`posts
      ensures View() == OnAck(old(View()), kind, request, payload)
    {
      inFlight := inFlight - {(kind, request)};
      PostToMain(Ack(kind, request, Server(payload)), Callback);
    }

    // self.onmessage, the client listeners and the timer callbacks, dispatched.
    method Dispatch(e: Event)
      modifies this
      ensures View() == Step(old(View()), e)
    {
      match e
      case Connect => Connect();
      case Disconnect => Disconnect();
      case HeartbeatMode(activeThread) => SetHeartbeatMode(activeThread);
      case MessageSend(request) => TryMessageSendOrQueue(request);
      case Query(kind, request) => EmitWithAck(kind, request);
      case ReconnectAttempt(g) => OnClientEvent(g, SocketConnecting);
      case ClientConnect(g) => OnClientConnect(g);
      case ClientDisconnect(g, reason) => OnClientDisconnect(g, reason);
      case ClientConnectError(g, message) => OnClientEvent(g, ConnectError(message));
      case ClientEvent(g, event, payload) => OnClientEvent(g, Inbound(event, payload));
      case AckArrives(kind, request, payload) => OnServerAck(kind, request, payload);
      case TimerFires(id) => OnSendTimeout(id);
      case Tick(to) => now := to;
    }
  }
}
