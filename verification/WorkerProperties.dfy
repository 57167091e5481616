// What holds of the socket worker after every run of possible events.

module WorkerProperties {
  import opened Text
  import opened WorkerSpec

  // ----- Counting -----

  function Queued(queue: seq<Item>, r: RequestId): nat {
    if queue == [] then 0
    else Queued(queue[..|queue| - 1], r) + if queue[|queue| - 1].request == r then 1 else 0
  }

  // The acks of a send request among the posts.
  function Acks(posts: seq<Post>, r: RequestId): nat {
    if posts == [] then 0
    else
      var body := posts[|posts| - 1].body;
      Acks(posts[..|posts| - 1], r) + if body.Ack? && body.kind == Send && body.request == r then 1 else 0
  }

  lemma {:induction false} QueuedConcat(a: seq<Item>, b: seq<Item>, r: RequestId)
    ensures Queued(a + b, r) == Queued(a, r) + Queued(b, r)
  {
    if b == [] {
      assert a + b == a;
    } else {
      QueuedConcat(a, b[..|b| - 1], r);
      assert (a + b)[..|a + b| - 1] == a + b[..|b| - 1];
    }
  }

  lemma {:induction false} AcksConcat(a: seq<Post>, b: seq<Post>, r: RequestId)
    ensures Acks(a + b, r) == Acks(a, r) + Acks(b, r)
  {
    if b == [] {
      assert a + b == a;
    } else {
      AcksConcat(a, b[..|b| - 1], r);
      assert (a + b)[..|a + b| - 1] == a + b[..|b| - 1];
    }
  }

  lemma {:induction false} AcksOfRefusals(queue: seq<Item>, message: string, r: RequestId)
    ensures Acks(Refusals(queue, message), r) == Queued(queue, r)
  {
    if queue != [] {
      var front := queue[..|queue| - 1];
      AcksOfRefusals(front, message, r);
      assert Refusals(queue, message)[..|queue| - 1] == Refusals(front, message);
    }
  }

  lemma {:induction false} QueuedMember(queue: seq<Item>, r: RequestId)
    ensures Queued(queue, r) > 0 <==> exists i :: 0 <= i < |queue| && queue[i].request == r
  {
    if queue != [] {
      var front := queue[..|queue| - 1];
      QueuedMember(front, r);
      if i :| 0 <= i < |queue| && queue[i].request == r {
        if i < |front| { assert front[i].request == r; } else { assert queue[|queue| - 1].request == r; }
      }
      if Queued(front, r) > 0 {
        var i :| 0 <= i < |front| && front[i].request == r;
        assert queue[i].request == r;
      }
    }
  }

  lemma QueuedWithout(queue: seq<Item>, i: nat, r: RequestId)
    requires i < |queue|
    ensures Queued(Without(queue, i), r) + (if queue[i].request == r then 1 else 0) == Queued(queue, r)
  {
    var a, b := queue[..i], queue[i + 1..];
    assert queue == a + [queue[i]] + b;
    QueuedConcat(a, b, r);
    QueuedConcat(a, [queue[i]], r);
    QueuedConcat(a + [queue[i]], b, r);
  }

  lemma {:induction false} IndexOfFinds(queue: seq<Item>, r: RequestId)
    ensures match IndexOf(queue, r)
            case None => forall i :: 0 <= i < |queue| ==> queue[i].request != r
            case Some(i) => i < |queue| && queue[i].request == r
  {
    if queue != [] { IndexOfFinds(queue[1..], r); }
  }

  // ----- Conservation -----

  function InFlight(w: Worker, r: RequestId): nat {
    if (Send, r) in w.inFlight then 1 else 0
  }

  // A send request is in exactly one place: nowhere before it arrives, and after that in the queue, in flight,
  // or answered by exactly one ack.
  ghost predicate Conserved(w: Worker, r: RequestId) {
    Queued(w.queue, r) + InFlight(w, r) + Acks(w.posts, r) == if Arrived(w, r) then 1 else 0
  }

  ghost predicate Conservation(w: Worker) {
    forall r :: Conserved(w, r)
  }

  // ----- Order -----

  // Emitted requests, then queued ones, in arrival order.
  ghost predicate OrderedIn(arrivals: seq<Arrival>, emitted: seq<Emission>, queue: seq<Item>) {
    && (forall i :: 0 <= i < |emitted| ==>
          emitted[i].arrival < |arrivals| && emitted[i].request == arrivals[emitted[i].arrival].request)
    && (forall i :: 0 <= i < |queue| ==>
          queue[i].arrival < |arrivals| && queue[i].request == arrivals[queue[i].arrival].request)
    && (forall i, k :: 0 <= i < k < |arrivals| ==> arrivals[i].request != arrivals[k].request)
    && (forall i, k :: 0 <= i < k < |emitted| ==> emitted[i].arrival < emitted[k].arrival)
    && (forall i, k :: 0 <= i < k < |queue| ==> queue[i].arrival < queue[k].arrival)
    && (forall i, k :: 0 <= i < |emitted| && 0 <= k < |queue| ==> emitted[i].arrival < queue[k].arrival)
  }

  ghost predicate Ordered(w: Worker) {
    OrderedIn(w.arrivals, w.emitted, w.queue)
  }

  // ----- Time -----

  // The timer of a queued item is armed and due 30 s after the item arrived.
  ghost predicate ItemTimed(arrivals: seq<Arrival>, timeouts: map<TimerId, Timeout>, item: Item) {
    && item.arrival < |arrivals|
    && item.timeoutId in timeouts
    && timeouts[item.timeoutId] == Timeout(arrivals[item.arrival].at + 30000, item.request)
  }

  // Every queued item has a timer of its own, and no other timer is armed.
  ghost predicate TimedIn(arrivals: seq<Arrival>, queue: seq<Item>, timeouts: map<TimerId, Timeout>,
                          nextTimer: TimerId, now: int) {
    && (forall i :: 0 <= i < |queue| ==> ItemTimed(arrivals, timeouts, queue[i]))
    && (forall i, k :: 0 <= i < k < |queue| ==> queue[i].timeoutId != queue[k].timeoutId)
    && (forall id :: id in timeouts ==> id < nextTimer && now <= timeouts[id].deadline && id in TimeoutIds(queue))
    && (forall k :: 0 <= k < |arrivals| ==> arrivals[k].at <= now)
    && (forall i, k :: 0 <= i < k < |arrivals| ==> arrivals[i].at <= arrivals[k].at)
  }

  ghost predicate Timed(w: Worker) {
    TimedIn(w.arrivals, w.queue, w.timeouts, w.nextTimer, w.now)
  }

  // ----- Lifecycle -----

  // Whether the last lifecycle post says connected.
  function SaysConnected(posts: seq<Post>): bool {
    if posts == [] then false
    else
      match posts[|posts| - 1].body
      case Connected => true
      case Disconnected(_) => false
      case _ => SaysConnected(posts[..|posts| - 1])
  }

  // Between any two connected posts there is a disconnected one.
  ghost predicate Alternates(posts: seq<Post>) {
    forall i, k :: 0 <= i < k < |posts| && posts[i].body.Connected? && posts[k].body.Connected? ==>
      exists m :: i < m < k && posts[m].body.Disconnected?
  }

  ghost predicate Lifecycle(w: Worker) {
    && (w.socket.Some? ==> w.socket.value.generation == w.generation > 0)
    && (IsConnected(w) <==> SaysConnected(w.posts))
    && Alternates(w.posts)
    && (IsConnected(w) ==> w.queue == [])
    && (forall i :: 0 <= i < |w.posts| && w.posts[i].origin.Client? ==> w.posts[i].origin.generation <= w.generation)
  }

  // The one live interval is the heartbeat of the connected client, at the current cadence.
  ghost predicate OneHeartbeat(w: Worker) {
    && (w.heartbeat.Some? <==> IsConnected(w))
    && (w.heartbeat.Some? ==> w.heartbeat.value < w.nextTimer)
    && w.intervals == match w.heartbeat case None => map[] case Some(h) => map[h := w.heartbeatMs]
  }

  ghost predicate Inv(w: Worker) {
    Conservation(w) && Ordered(w) && Timed(w) && Lifecycle(w) && OneHeartbeat(w)
  }

  // ----- Conservation is kept -----

  lemma QuietPost(w: Worker, w': Worker, post: Post)
    requires Conservation(w)
    requires w'.posts == w.posts + [post] && !(post.body.Ack? && post.body.kind == Send)
    requires w'.queue == w.queue && w'.arrivals == w.arrivals
    requires forall r :: (Send, r) in w'.inFlight <==> (Send, r) in w.inFlight
    ensures Conservation(w')
  {
    forall r ensures Conserved(w', r) {
      assert Conserved(w, r);
      AcksConcat(w.posts, [post], r);
      assert Acks([post], r) == 0 by { assert [post][..0] == []; }
    }
  }

  lemma AckOne(w: Worker, post: Post, r: RequestId)
    requires post.body.Ack? && post.body.kind == Send
    ensures Acks(w.posts + [post], r) == Acks(w.posts, r) + if post.body.request == r then 1 else 0
  {
    assert (w.posts + [post])[..|w.posts|] == w.posts;
  }

  lemma ClearQueueConserves(w: Worker, message: string)
    requires Conservation(w)
    ensures Conservation(ClearQueue(w, message))
  {
    var w' := ClearQueue(w, message);
    forall r ensures Conserved(w', r) {
      assert Conserved(w, r);
      AcksConcat(w.posts, Refusals(w.queue, message), r);
      AcksOfRefusals(w.queue, message, r);
    }
  }

  lemma FlushConserves(w: Worker)
    requires Conservation(w)
    ensures Conservation(Flush(w))
  {
    var w' := Flush(w);
    if IsConnected(w) {
      forall r ensures Conserved(w', r) {
        assert Conserved(w, r);
        QueuedMember(w.queue, r);
        assert (Send, r) in Requests(w.queue) <==> exists i :: 0 <= i < |w.queue| && w.queue[i].request == r by {
          if i :| 0 <= i < |w.queue| && w.queue[i].request == r { assert w.queue[i] in w.queue; }
        }
      }
    }
  }

  lemma SendOrQueueConserves(w: Worker, request: RequestId)
    requires Conservation(w) && !Arrived(w, request)
    ensures Conservation(SendOrQueue(w, request))
  {
    var w' := SendOrQueue(w, request);
    forall r ensures Conserved(w', r) {
      assert Conserved(w, r);
      assert Arrived(w', r) <==> Arrived(w, r) || r == request by {
        if Arrived(w, r) {
          var k :| 0 <= k < |w.arrivals| && w.arrivals[k].request == r;
          assert w'.arrivals[k].request == r;
        }
        assert w'.arrivals[|w.arrivals|].request == request;
      }
      if !IsConnected(w) {
        assert w'.queue[..|w.queue|] == w.queue;
      }
    }
  }

  lemma FireTimeoutConserves(w: Worker, id: TimerId)
    requires Conservation(w)
    ensures Conservation(FireTimeout(w, id))
  {
    var w' := FireTimeout(w, id);
    if id in w.timeouts {
      var request := w.timeouts[id].request;
      IndexOfFinds(w.queue, request);
      var found := IndexOf(w.queue, request);
      forall r ensures Conserved(w', r) {
        assert Conserved(w, r);
        if found.Some? {
          QueuedWithout(w.queue, found.value, r);
          AckOne(w, w'.posts[|w.posts|], r);
        }
      }
    }
  }

  lemma OnAckConserves(w: Worker, kind: Kind, request: RequestId, payload: string)
    requires Conservation(w) && (kind, request) in w.inFlight
    ensures Conservation(OnAck(w, kind, request, payload))
  {
    var w' := OnAck(w, kind, request, payload);
    if kind == Send {
      forall r ensures Conserved(w', r) {
        assert Conserved(w, r);
        AckOne(w, w'.posts[|w.posts|], r);
      }
    } else {
      QuietPost(w, w', w'.posts[|w.posts|]);
    }
  }

  // Steps that touch none of the four places.
  lemma SamePlaces(w: Worker, w': Worker)
    requires Conservation(w)
    requires w'.posts == w.posts && w'.queue == w.queue && w'.arrivals == w.arrivals && w'.inFlight == w.inFlight
    ensures Conservation(w')
  {
    forall r ensures Conserved(w', r) { assert Conserved(w, r); }
  }

  lemma StepConserves(w: Worker, e: Event)
    requires Conservation(w) && Possible(w, e)
    ensures Conservation(Step(w, e))
  {
    match e
    case Connect =>
      var w1 := ClearHeartbeat(w.(generation := w.generation + 1));
      SamePlaces(w, w1);
      var w2 := if w1.socket.Some? then Say(w1, Disconnected("reconnect"), Main) else w1;
      if w1.socket.Some? { QuietPost(w1, w2, Post(Disconnected("reconnect"), Main)); }
      QuietPost(w2, Step(w, e), Post(SocketConnecting, Main));
    case Disconnect =>
      var w0 := w.(generation := w.generation + 1);
      SamePlaces(w, w0);
      ClearQueueConserves(w0, "Socket not connected");
      var w1 := ClearHeartbeat(ClearQueue(w0, "Socket not connected"));
      SamePlaces(ClearQueue(w0, "Socket not connected"), w1);
      QuietPost(w1, Step(w, e), Post(Disconnected("client"), Main));
    case HeartbeatMode(_) => SamePlaces(w, Step(w, e));
    case MessageSend(request) => SendOrQueueConserves(w, request);
    case Query(kind, request) =>
      if IsConnected(w) {
        forall r ensures Conserved(Step(w, e), r) { assert Conserved(w, r); }
      } else {
        QuietPost(w, Step(w, e), Step(w, e).posts[|w.posts|]);
      }
    case ClientConnect(g) =>
      var w1 := SetConnected(w, g, true);
      SamePlaces(w, w1);
      if g == w1.generation {
        var w2 := Say(w1, Connected, Client(g));
        QuietPost(w1, w2, Post(Connected, Client(g)));
        SamePlaces(w2, StartHeartbeat(w2));
        FlushConserves(StartHeartbeat(w2));
      }
    case ClientDisconnect(g, reason) =>
      var w1 := SetConnected(w, g, false);
      SamePlaces(w, w1);
      if g == w1.generation {
        SamePlaces(w1, ClearHeartbeat(w1));
        QuietPost(ClearHeartbeat(w1), Step(w, e), Post(Disconnected(reason), Client(g)));
      }
    case AckArrives(kind, request, payload) => OnAckConserves(w, kind, request, payload);
    case TimerFires(id) => FireTimeoutConserves(w, id);
    case Tick(_) => SamePlaces(w, Step(w, e));
    case ReconnectAttempt(g) => if g == w.generation { QuietPost(w, Step(w, e), Step(w, e).posts[|w.posts|]); }
    case ClientConnectError(g, _) => if g == w.generation { QuietPost(w, Step(w, e), Step(w, e).posts[|w.posts|]); }
    case ClientEvent(g, _, _) => if g == w.generation { QuietPost(w, Step(w, e), Step(w, e).posts[|w.posts|]); }
  }

  // ----- Order is kept -----

  lemma FlushKeepsOrder(arrivals: seq<Arrival>, emitted: seq<Emission>, queue: seq<Item>, g: nat)
    requires OrderedIn(arrivals, emitted, queue)
    ensures OrderedIn(arrivals, emitted + Emissions(queue, g), [])
  {
  }

  lemma ArrivalKeepsOrder(w: Worker, request: RequestId)
    requires Ordered(w) && !Arrived(w, request) && (IsConnected(w) ==> w.queue == [])
    ensures Ordered(SendOrQueue(w, request))
  {
    var n := |w.arrivals|;
    var arrivals := w.arrivals + [Arrival(request, w.now)];
    assert OrderedIn(arrivals, w.emitted, w.queue);
    if IsConnected(w) {
      assert OrderedIn(arrivals, w.emitted + [Emission(n, request, w.socket.value.generation)], []);
    } else {
      assert OrderedIn(arrivals, w.emitted, w.queue + [Item(n, request, w.nextTimer)]);
    }
  }

  // Events that leave the queue, its timers and the emissions alone.
  predicate Quiet(e: Event) {
    !(e.MessageSend? || e.ClientConnect? || e.TimerFires? || e.Disconnect? || e.Tick?)
  }

  // The queue, its timers and the emissions are as before, and timers are only added.
  ghost predicate QueueAlone(w: Worker, w': Worker) {
    && w'.arrivals == w.arrivals && w'.emitted == w.emitted && w'.queue == w.queue
    && w'.timeouts == w.timeouts && w'.now == w.now && w.nextTimer <= w'.nextTimer
  }

  lemma QuietMainStep(w: Worker, e: Event)
    requires e.Connect? || e.HeartbeatMode? || e.Query?
    ensures QueueAlone(w, Step(w, e))
  {
  }

  lemma QuietClientStep(w: Worker, e: Event)
    requires Quiet(e) && !(e.Connect? || e.HeartbeatMode? || e.Query?)
    ensures QueueAlone(w, Step(w, e))
  {
  }

  lemma QuietStep(w: Worker, e: Event)
    requires Quiet(e)
    ensures QueueAlone(w, Step(w, e))
  {
    hide Step;
    if e.Connect? || e.HeartbeatMode? || e.Query? { QuietMainStep(w, e); } else { QuietClientStep(w, e); }
  }

  // A stale client changes nothing but its own flag; the current one flushes the whole queue.
  lemma ConnectStep(w: Worker, g: nat)
    requires Lifecycle(w) && ClientIn(w, g, false)
    ensures var w' := OnConnect(w, g);
            var flush := g == w.generation;
            && w'.arrivals == w.arrivals && w'.now == w.now && w.nextTimer <= w'.nextTimer
            && w'.queue == (if flush then [] else w.queue)
            && w'.emitted == (if flush then w.emitted + Emissions(w.queue, g) else w.emitted)
            && w'.timeouts == (if flush then w.timeouts - TimeoutIds(w.queue) else w.timeouts)
  {
  }

  lemma DisconnectStep(w: Worker)
    ensures var w' := DisconnectSocket(w);
            && w'.arrivals == w.arrivals && w'.now == w.now && w.nextTimer == w'.nextTimer
            && w'.queue == [] && w'.emitted == w.emitted && w'.timeouts == w.timeouts - TimeoutIds(w.queue)
  {
  }

  lemma FiringKeepsOrder(w: Worker, id: TimerId)
    requires Ordered(w)
    ensures Ordered(FireTimeout(w, id))
  {
    if id in w.timeouts {
      var i := IndexOf(w.queue, w.timeouts[id].request);
      IndexOfFinds(w.queue, w.timeouts[id].request);
      if i.Some? { RemovalKeepsOrder(w.arrivals, w.emitted, w.queue, i.value); }
    }
  }

  lemma RemovalKeepsOrder(arrivals: seq<Arrival>, emitted: seq<Emission>, queue: seq<Item>, i: nat)
    requires i < |queue| && OrderedIn(arrivals, emitted, queue)
    ensures OrderedIn(arrivals, emitted, Without(queue, i))
  {
  }

  lemma StepKeepsOrder(w: Worker, e: Event)
    requires Inv(w) && Possible(w, e)
    ensures Ordered(Step(w, e))
  {
    if Quiet(e) {
      QuietStep(w, e);
    } else if e.MessageSend? {
      ArrivalKeepsOrder(w, e.request);
    } else if e.ClientConnect? {
      ConnectStep(w, e.generation);
      FlushKeepsOrder(w.arrivals, w.emitted, w.queue, e.generation);
    } else if e.TimerFires? {
      FiringKeepsOrder(w, e.id);
    } else if e.Disconnect? {
      DisconnectStep(w);
    }
  }

  // ----- The timers are kept -----

  lemma AllTimersQueued(w: Worker)
    requires Timed(w)
    ensures w.timeouts - TimeoutIds(w.queue) == map[]
  {
  }

  lemma LaterTimersKeepTimed(w: Worker, next: TimerId)
    requires Timed(w) && w.nextTimer <= next
    ensures TimedIn(w.arrivals, w.queue, w.timeouts, next, w.now)
    ensures TimedIn(w.arrivals, [], map[], next, w.now)
  {
  }

  lemma ArrivalKeepsTimed(w: Worker, request: RequestId)
    requires Timed(w)
    ensures TimedIn(w.arrivals + [Arrival(request, w.now)], w.queue, w.timeouts, w.nextTimer, w.now)
  {
    var arrivals := w.arrivals + [Arrival(request, w.now)];
    forall i | 0 <= i < |w.queue| ensures ItemTimed(arrivals, w.timeouts, w.queue[i]) {
      assert ItemTimed(w.arrivals, w.timeouts, w.queue[i]);
    }
  }

  lemma QueueingKeepsTimed(arrivals: seq<Arrival>, queue: seq<Item>, timeouts: map<TimerId, Timeout>, t: TimerId,
                           now: int, request: RequestId)
    requires TimedIn(arrivals, queue, timeouts, t, now)
    requires arrivals != [] && arrivals[|arrivals| - 1] == Arrival(request, now)
    ensures TimedIn(arrivals, queue + [Item(|arrivals| - 1, request, t)],
                    timeouts[t := Timeout(now + SEND_TIMEOUT_MS, request)], t + 1, now)
  {
    var item := Item(|arrivals| - 1, request, t);
    var queue' := queue + [item];
    var timeouts' := timeouts[t := Timeout(now + SEND_TIMEOUT_MS, request)];
    forall i | 0 <= i < |queue'| ensures ItemTimed(arrivals, timeouts', queue'[i]) {
      if i < |queue| {
        assert ItemTimed(arrivals, timeouts, queue[i]);
        assert queue[i].timeoutId < t;
      }
    }
    assert TimeoutIds(queue') == TimeoutIds(queue) + {t} by {
      assert item in queue';
      forall id | id in TimeoutIds(queue) ensures id in TimeoutIds(queue') {
        var o :| o in queue && o.timeoutId == id;
        assert o in queue';
      }
    }
  }

  // The timer that fires finds its own item, because queued requests are distinct.
  lemma TimerFindsItsItem(w: Worker, id: TimerId)
    requires Ordered(w) && Timed(w) && id in w.timeouts
    ensures var found := IndexOf(w.queue, w.timeouts[id].request);
            found.Some? && found.value < |w.queue| && w.queue[found.value].timeoutId == id
  {
    IndexOfFinds(w.queue, w.timeouts[id].request);
    assert id in TimeoutIds(w.queue);
    var item :| item in w.queue && item.timeoutId == id;
    var i :| 0 <= i < |w.queue| && w.queue[i] == item;
    assert ItemTimed(w.arrivals, w.timeouts, w.queue[i]);
    var found := IndexOf(w.queue, w.timeouts[id].request);
    assert w.queue[found.value].arrival == w.queue[i].arrival;
  }

  lemma WithoutAt(queue: seq<Item>, n: nat, i: nat)
    requires n < |queue| && i < |queue| - 1
    ensures |Without(queue, n)| == |queue| - 1
    ensures Without(queue, n)[i] == queue[if i < n then i else i + 1]
  {
  }

  lemma RemovalKeepsTimed(arrivals: seq<Arrival>, queue: seq<Item>, timeouts: map<TimerId, Timeout>, t: TimerId,
                          now: int, n: nat)
    requires TimedIn(arrivals, queue, timeouts, t, now) && n < |queue|
    ensures TimedIn(arrivals, Without(queue, n), timeouts - {queue[n].timeoutId}, t, now)
  {
    var id := queue[n].timeoutId;
    var queue', timeouts' := Without(queue, n), timeouts - {id};
    forall i | 0 <= i < |queue'| ensures ItemTimed(arrivals, timeouts', queue'[i]) {
      WithoutAt(queue, n, i);
      assert ItemTimed(arrivals, timeouts, queue[if i < n then i else i + 1]);
    }
    forall i, k | 0 <= i < k < |queue'| ensures queue'[i].timeoutId != queue'[k].timeoutId {
      WithoutAt(queue, n, i);
      WithoutAt(queue, n, k);
    }
    forall d | d in timeouts' ensures d in TimeoutIds(queue') {
      RemainingTimer(queue, n, d);
    }
  }

  lemma RemainingTimer(queue: seq<Item>, n: nat, d: TimerId)
    requires n < |queue| && d in TimeoutIds(queue) && d != queue[n].timeoutId
    ensures d in TimeoutIds(Without(queue, n))
  {
    var item :| item in queue && item.timeoutId == d;
    var k :| 0 <= k < |queue| && queue[k] == item;
    var i := if k < n then k else k - 1;
    WithoutAt(queue, n, i);
    assert Without(queue, n)[i] in Without(queue, n);
  }

  lemma FiringKeepsTimed(w: Worker, id: TimerId)
    requires Ordered(w) && Timed(w) && id in w.timeouts
    ensures Timed(FireTimeout(w, id))
  {
    TimerFindsItsItem(w, id);
    RemovalKeepsTimed(w.arrivals, w.queue, w.timeouts, w.nextTimer, w.now,
                      IndexOf(w.queue, w.timeouts[id].request).value);
  }

  lemma SendKeepsTimed(w: Worker, request: RequestId)
    requires Timed(w)
    ensures Timed(SendOrQueue(w, request))
  {
    hide TimedIn;
    ArrivalKeepsTimed(w, request);
    QueueingKeepsTimed(w.arrivals + [Arrival(request, w.now)], w.queue, w.timeouts, w.nextTimer, w.now, request);
  }

  lemma StepKeepsTimed(w: Worker, e: Event)
    requires Inv(w) && Possible(w, e)
    ensures Timed(Step(w, e))
  {
    if Quiet(e) {
      QuietStep(w, e);
      LaterTimersKeepTimed(w, Step(w, e).nextTimer);
    } else if e.MessageSend? {
      SendKeepsTimed(w, e.request);
    } else if e.ClientConnect? {
      ConnectStep(w, e.generation);
      AllTimersQueued(w);
      LaterTimersKeepTimed(w, Step(w, e).nextTimer);
    } else if e.TimerFires? {
      FiringKeepsTimed(w, e.id);
    } else if e.Disconnect? {
      DisconnectStep(w);
      AllTimersQueued(w);
      LaterTimersKeepTimed(w, w.nextTimer);
    }
  }

  // ----- Lifecycle and heartbeat are kept -----

  lemma {:induction false} SilentSince(posts: seq<Post>)
    requires !SaysConnected(posts)
    ensures forall i :: 0 <= i < |posts| && posts[i].body.Connected? ==>
              exists m :: i < m < |posts| && posts[m].body.Disconnected?
  {
    if posts != [] && !posts[|posts| - 1].body.Disconnected? {
      var front := posts[..|posts| - 1];
      SilentSince(front);
      forall i | 0 <= i < |posts| && posts[i].body.Connected?
        ensures exists m :: i < m < |posts| && posts[m].body.Disconnected?
      {
        assert front[i].body.Connected?;
        var m :| i < m < |front| && front[m].body.Disconnected?;
        assert posts[m].body.Disconnected?;
      }
    }
  }

  lemma SayKeepsAlternation(posts: seq<Post>, post: Post)
    requires Alternates(posts) && (post.body.Connected? ==> !SaysConnected(posts))
    ensures Alternates(posts + [post])
    ensures SaysConnected(posts + [post]) ==
            if post.body.Connected? then true else if post.body.Disconnected? then false else SaysConnected(posts)
  {
    var all := posts + [post];
    assert all[..|posts|] == posts;
    if post.body.Connected? { SilentSince(posts); }
    forall i, k | 0 <= i < k < |all| && all[i].body.Connected? && all[k].body.Connected?
      ensures exists m :: i < m < k && all[m].body.Disconnected?
    {
      var m :| i < m < k && posts[m].body.Disconnected?;
      assert all[m].body.Disconnected?;
    }
  }

  lemma {:induction false} RefusalsKeepAlternation(posts: seq<Post>, queue: seq<Item>, message: string)
    requires Alternates(posts)
    ensures Alternates(posts + Refusals(queue, message))
    ensures SaysConnected(posts + Refusals(queue, message)) == SaysConnected(posts)
  {
    if queue == [] {
      assert posts + Refusals(queue, message) == posts;
    } else {
      var front := queue[..|queue| - 1];
      var last := Post(Ack(Send, queue[|queue| - 1].request, Unavailable(message)), Main);
      RefusalsKeepAlternation(posts, front, message);
      SayKeepsAlternation(posts + Refusals(front, message), last);
      assert posts + Refusals(queue, message) == posts + Refusals(front, message) + [last];
    }
  }

  // One more post by the current client or by nobody's client, with the flag moved along with what it says.
  lemma SayKeepsLifecycle(w: Worker, w': Worker, post: Post)
    requires Lifecycle(w) && w'.posts == w.posts + [post] && w'.generation == w.generation
    requires post.origin.Client? ==> post.origin.generation <= w.generation
    requires post.body.Connected? ==> !IsConnected(w) && IsConnected(w') && w'.queue == []
    requires post.body.Disconnected? ==> !IsConnected(w')
    requires !post.body.Connected? && !post.body.Disconnected? ==> IsConnected(w') == IsConnected(w)
    requires w'.socket.Some? ==> w'.socket.value.generation == w'.generation > 0
    requires IsConnected(w') ==> w'.queue == []
    ensures Lifecycle(w')
  {
    SayKeepsAlternation(w.posts, post);
  }

  lemma ConnectKeepsLifecycle(w: Worker)
    requires Lifecycle(w)
    ensures Lifecycle(ConnectSocket(w))
  {
    var bye, dial := Post(Disconnected("reconnect"), Main), Post(SocketConnecting, Main);
    var hungUp := if w.socket.Some? then w.(posts := w.posts + [bye], socket := None) else w;
    if w.socket.Some? { SayKeepsLifecycle(w, hungUp, bye); }
    var w' := ConnectSocket(w);
    NextGeneration(hungUp);
    SayKeepsLifecycle(hungUp.(generation := w.generation + 1), w', dial);
  }

  lemma NextGeneration(w: Worker)
    requires Lifecycle(w) && w.socket.None?
    ensures Lifecycle(w.(generation := w.generation + 1))
  {
  }

  lemma DisconnectKeepsLifecycle(w: Worker)
    requires Lifecycle(w)
    ensures Lifecycle(DisconnectSocket(w))
  {
    RefusalsKeepAlternation(w.posts, w.queue, "Socket not connected");
    SayKeepsAlternation(w.posts + Refusals(w.queue, "Socket not connected"), Post(Disconnected("client"), Main));
  }

  lemma FiringKeepsLifecycle(w: Worker, id: TimerId)
    requires Lifecycle(w)
    ensures Lifecycle(FireTimeout(w, id))
  {
    if id in w.timeouts {
      IndexOfFinds(w.queue, w.timeouts[id].request);
      if IndexOf(w.queue, w.timeouts[id].request).Some? {
        SayKeepsLifecycle(w, FireTimeout(w, id), FireTimeout(w, id).posts[|w.posts|]);
      }
    }
  }

  lemma StepKeepsLifecycle(w: Worker, e: Event)
    requires Lifecycle(w) && Possible(w, e)
    ensures Lifecycle(Step(w, e))
  {
    match e
    case Connect => ConnectKeepsLifecycle(w);
    case Disconnect => DisconnectKeepsLifecycle(w);
    case HeartbeatMode(_) =>
    case MessageSend(_) =>
    case Query(_, _) => if !IsConnected(w) { SayKeepsLifecycle(w, Step(w, e), Step(w, e).posts[|w.posts|]); }
    case ClientConnect(g) =>
      if g == w.generation { SayKeepsLifecycle(w, Step(w, e), Post(Connected, Client(g))); }
    case ClientDisconnect(g, reason) =>
      if g == w.generation { SayKeepsLifecycle(w, Step(w, e), Post(Disconnected(reason), Client(g))); }
    case ReconnectAttempt(g) =>
      if g == w.generation { SayKeepsLifecycle(w, Step(w, e), Post(SocketConnecting, Client(g))); }
    case ClientConnectError(g, message) =>
      if g == w.generation { SayKeepsLifecycle(w, Step(w, e), Post(ConnectError(message), Client(g))); }
    case ClientEvent(g, event, payload) =>
      if g == w.generation { SayKeepsLifecycle(w, Step(w, e), Post(Inbound(event, payload), Client(g))); }
    case AckArrives(kind, request, payload) =>
      SayKeepsLifecycle(w, Step(w, e), Post(Ack(kind, request, Server(payload)), Callback));
    case TimerFires(id) => FiringKeepsLifecycle(w, id);
    case Tick(_) =>
  }

  lemma StepKeepsHeartbeat(w: Worker, e: Event)
    requires Lifecycle(w) && OneHeartbeat(w) && Possible(w, e)
    ensures OneHeartbeat(Step(w, e))
  {
    assert forall h: TimerId, ms: nat :: map[h := ms] - {h} == map[];
    match e
    case ClientConnect(g) =>
    case ClientDisconnect(g, _) =>
    case _ =>
  }

  lemma StepKeepsInv(w: Worker, e: Event)
    requires Inv(w) && Possible(w, e)
    ensures Inv(Step(w, e))
  {
    StepConserves(w, e);
    StepKeepsOrder(w, e);
    StepKeepsTimed(w, e);
    StepKeepsLifecycle(w, e);
    StepKeepsHeartbeat(w, e);
  }

  lemma {:induction false} RunKeepsInv(w: Worker, es: seq<Event>)
    requires Inv(w)
    ensures Inv(Run(w, es))
  {
    if es != [] {
      RunKeepsInv(w, es[..|es| - 1]);
      var before := Run(w, es[..|es| - 1]);
      if Possible(before, es[|es| - 1]) { StepKeepsInv(before, es[|es| - 1]); }
    }
  }

  // ----- What every run guarantees -----

  lemma InitInv(now: int)
    ensures Inv(Init(now))
  {
    forall r ensures Conserved(Init(now), r) { }
  }

  // A send request that arrived is queued, in flight or answered, in exactly one of the three and never answered
  // twice; one that never arrived is in none.
  lemma EveryRequestInOnePlace(now: int, es: seq<Event>, r: RequestId)
    ensures var w := Run(Init(now), es);
            Queued(w.queue, r) + InFlight(w, r) + Acks(w.posts, r) == if Arrived(w, r) then 1 else 0
  {
    InitInv(now);
    RunKeepsInv(Init(now), es);
    assert Conserved(Run(Init(now), es), r);
  }

  // Requests go out in the order they came in, across reconnects and replaced clients, and none goes out twice.
  lemma EmittedInArrivalOrder(now: int, es: seq<Event>)
    ensures var w := Run(Init(now), es);
            && (forall i :: 0 <= i < |w.emitted| ==>
                  w.emitted[i].arrival < |w.arrivals| && w.arrivals[w.emitted[i].arrival].request == w.emitted[i].request)
            && (forall i, k :: 0 <= i < k < |w.emitted| ==>
                  w.emitted[i].arrival < w.emitted[k].arrival && w.emitted[i].request != w.emitted[k].request)
            && (IsConnected(w) ==> w.queue == [])
  {
    InitInv(now);
    RunKeepsInv(Init(now), es);
  }

  // More than thirty seconds after it arrived a request is no longer queued: it was emitted or answered. (A timer that
  // is due just now may not have fired yet.)
  lemma QueuedAtMostThirtySeconds(now: int, es: seq<Event>, k: nat)
    ensures var w := Run(Init(now), es);
            k < |w.arrivals| && w.arrivals[k].at + 30000 < w.now ==>
              var r := w.arrivals[k].request;
              Queued(w.queue, r) == 0 && InFlight(w, r) + Acks(w.posts, r) == 1
  {
    InitInv(now);
    RunKeepsInv(Init(now), es);
    var w := Run(Init(now), es);
    if k < |w.arrivals| && w.arrivals[k].at + 30000 < w.now { OverdueIsNotQueued(w, k); }
  }

  lemma OverdueIsNotQueued(w: Worker, k: nat)
    requires Inv(w) && k < |w.arrivals| && w.arrivals[k].at + 30000 < w.now
    ensures var r := w.arrivals[k].request;
            Queued(w.queue, r) == 0 && InFlight(w, r) + Acks(w.posts, r) == 1
  {
    hide Lifecycle, OneHeartbeat;
    var r := w.arrivals[k].request;
    assert Conserved(w, r);
    QueuedMember(w.queue, r);
    forall i | 0 <= i < |w.queue| ensures w.queue[i].request != r {
      assert ItemTimed(w.arrivals, w.timeouts, w.queue[i]);
    }
  }

  // The timers of the queue fall due thirty seconds after the arrivals, and in queue order.
  lemma DeadlinesNondecreasing(now: int, es: seq<Event>, i: nat, k: nat)
    ensures var w := Run(Init(now), es);
            i < k < |w.queue| ==>
              && w.queue[i].timeoutId in w.timeouts && w.queue[k].timeoutId in w.timeouts
              && w.timeouts[w.queue[i].timeoutId].deadline <= w.timeouts[w.queue[k].timeoutId].deadline
    ensures var w := Run(Init(now), es);
            i < |w.queue| ==>
              && w.queue[i].arrival < |w.arrivals| && w.queue[i].timeoutId in w.timeouts
              && w.timeouts[w.queue[i].timeoutId]
                 == Timeout(w.arrivals[w.queue[i].arrival].at + 30000, w.queue[i].request)
  {
    InitInv(now);
    RunKeepsInv(Init(now), es);
    var w := Run(Init(now), es);
    if i < |w.queue| { assert ItemTimed(w.arrivals, w.timeouts, w.queue[i]); }
    if k < |w.queue| { assert ItemTimed(w.arrivals, w.timeouts, w.queue[k]); }
  }

  // What a post may be, by who caused it: a client's listener posts under the generation of its client, a callback
  // posts an ack, and what a client hears from its server is posted by a listener only.
  predicate RightOrigin(post: Post, generation: nat) {
    && (post.origin.Client? ==> post.origin.generation == generation)
    && (post.origin.Callback? ==> post.body.Ack?)
    && (post.body.Connected? || post.body.ConnectError? || post.body.Inbound? ==> post.origin.Client?)
  }

  // A step only adds posts, and what it adds for a client it adds for the current one.
  ghost predicate Appends(w: Worker, w': Worker) {
    && w.posts <= w'.posts && w.generation <= w'.generation
    && forall i :: |w.posts| <= i < |w'.posts| ==> RightOrigin(w'.posts[i], w.generation)
  }

  lemma MainMessageAppends(w: Worker, e: Event)
    requires e.Connect? || e.Disconnect? || e.HeartbeatMode? || e.MessageSend? || e.Query? || e.Tick?
    ensures Appends(w, Step(w, e))
    ensures forall i :: |w.posts| <= i < |Step(w, e).posts| ==> Step(w, e).posts[i].origin.Main?
  {
  }

  lemma ClientStepAppends(w: Worker, e: Event)
    requires e.ReconnectAttempt? || e.ClientConnect? || e.ClientDisconnect? || e.ClientConnectError? || e.ClientEvent?
    ensures Appends(w, Step(w, e))
  {
  }

  lemma CallbackStepAppends(w: Worker, e: Event)
    requires e.AckArrives? || e.TimerFires?
    ensures Appends(w, Step(w, e))
  {
  }

  lemma StepAppendsPosts(w: Worker, e: Event)
    ensures Appends(w, Step(w, e))
  {
    hide Step, Appends;
    if e.AckArrives? || e.TimerFires? {
      CallbackStepAppends(w, e);
    } else if e.ReconnectAttempt? || e.ClientConnect? || e.ClientDisconnect? || e.ClientConnectError? || e.ClientEvent? {
      ClientStepAppends(w, e);
    } else {
      MainMessageAppends(w, e);
    }
  }

  // A post that is no event of a client older than the given generation.
  predicate NotStale(post: Post, generation: nat) {
    && (post.origin.Client? ==> post.origin.generation >= generation)
    && (post.origin.Callback? ==> post.body.Ack?)
    && (post.body.Connected? || post.body.ConnectError? || post.body.Inbound? ==> post.origin.Client?)
  }

  // From any moment on, no event of a client older than the one current at that moment is posted.
  lemma {:induction false} LaterPostsAreNotOlder(w: Worker, es: seq<Event>)
    requires Inv(w)
    ensures var w' := Run(w, es);
            && w.posts <= w'.posts && w.generation <= w'.generation
            && forall i :: |w.posts| <= i < |w'.posts| ==> NotStale(w'.posts[i], w.generation)
  {
    if es != [] {
      var before, e := Run(w, es[..|es| - 1]), es[|es| - 1];
      LaterPostsAreNotOlder(w, es[..|es| - 1]);
      RunKeepsInv(w, es[..|es| - 1]);
      if Possible(before, e) {
        StepAppendsPosts(before, e);
        var after := Step(before, e);
        forall i | |before.posts| <= i < |after.posts| ensures NotStale(after.posts[i], w.generation) {
          assert RightOrigin(after.posts[i], before.generation);
        }
      }
    }
  }

  lemma NextClient(w: Worker, replace: Event)
    requires replace in {Connect, Disconnect}
    ensures Possible(w, replace) && Step(w, replace).generation == w.generation + 1
  {
  }

  // Once a client is replaced or torn down, none of its events is ever posted again: every later post comes from a
  // newer client, answers the main thread, or is an ack. Acks are the exception, see below.
  lemma NoStalePosts(now: int, es: seq<Event>, replace: Event, later: seq<Event>)
    requires replace in {Connect, Disconnect}
    ensures var w := Run(Init(now), es);
            var w2 := Run(Step(w, replace), later);
            w.posts <= w2.posts &&
            forall i :: |w.posts| <= i < |w2.posts| ==> NotStale(w2.posts[i], w.generation + 1)
  {
    hide Step, Run, Inv;
    InitInv(now);
    RunKeepsInv(Init(now), es);
    var w := Run(Init(now), es);
    var w1 := Step(w, replace);
    NextClient(w, replace);
    StepKeepsInv(w, replace);
    MainMessageAppends(w, replace);
    LaterPostsAreNotOlder(w1, later);
    var w2 := Run(w1, later);
    forall i | |w.posts| <= i < |w2.posts| ensures NotStale(w2.posts[i], w.generation + 1) {
      if i < |w1.posts| {
        assert w2.posts[i] == w1.posts[i];
        assert RightOrigin(w1.posts[i], w.generation);
      }
    }
  }

  // The exception: the callback of an emit has no generation guard, so an emit of an older client that was in flight
  // when the client was replaced or torn down can still be answered, and the answer is posted.
  lemma OldEmitsAreStillAnswered(w: Worker, replace: Event, kind: Kind, request: RequestId, payload: string)
    requires replace in {Connect, Disconnect} && (kind, request) in w.inFlight
    ensures var w1 := Step(w, replace);
            var e := AckArrives(kind, request, payload);
            && Possible(w1, e)
            && Step(w1, e).posts == w1.posts + [Post(Ack(kind, request, Server(payload)), Callback)]
            && w1.generation == w.generation + 1
  {
  }

  // The main thread never hears connected twice without a disconnected in between, and what it heard last is true.
  lemma ConnectedPostsAlternate(now: int, es: seq<Event>, i: nat, k: nat)
    ensures var w := Run(Init(now), es);
            && (SaysConnected(w.posts) <==> IsConnected(w))
            && (i < k < |w.posts| && w.posts[i].body.Connected? && w.posts[k].body.Connected? ==>
                  exists m :: i < m < k && w.posts[m].body.Disconnected?)
  {
    InitInv(now);
    RunKeepsInv(Init(now), es);
  }

  // Exactly one heartbeat interval while connected, none otherwise, and always at the current cadence.
  lemma HeartbeatFollowsConnection(now: int, es: seq<Event>)
    ensures var w := Run(Init(now), es);
            && |w.intervals| == (if IsConnected(w) then 1 else 0)
            && forall id :: id in w.intervals ==> w.intervals[id] == w.heartbeatMs
  {
    InitInv(now);
    RunKeepsInv(Init(now), es);
  }
}
