// What becomes of each send request, and at which cadence the heartbeat runs, told by the events alone.

module WorkerFates {
  import opened Text
  import opened WorkerSpec
  import opened WorkerProperties
  import opened WorkerReports

  // The current client is connected.
  function Online(now: int, es: seq<Event>): bool
    decreases |es|
  {
    if es == [] then false
    else
      var front, e := es[..|es| - 1], es[|es| - 1];
      if !Possible(Run(Init(now), front), e) then Online(now, front)
      else
        match e
        case Connect => false
        case Disconnect => false
        case ClientConnect(g) => g == Generation(front) || Online(now, front)
        case ClientDisconnect(g, _) => g != Generation(front) && Online(now, front)
        case _ => Online(now, front)
  }

  // The cadence of the last mode the main thread set; a disconnect goes back to the relaxed one.
  function Cadence(es: seq<Event>): nat {
    if es == [] then 5000
    else
      match es[|es| - 1]
      case HeartbeatMode(activeThread) => if activeThread then 4500 else 5000
      case Disconnect => 5000
      case _ => Cadence(es[..|es| - 1])
  }

  datatype Fate = NotAsked | Held | Sent(generation: nat) | TurnedAway(message: string)

  // What an event that happens in state w, after the events in front, does to a request.
  function After(now: int, front: seq<Event>, w: Worker, e: Event, r: RequestId, fate: Fate): Fate {
    match e
    case MessageSend(x) =>
      if x != r then fate else if Online(now, front) then Sent(Generation(front)) else Held
    case ClientConnect(g) => if fate.Held? && g == Generation(front) then Sent(g) else fate
    case Disconnect => if fate.Held? then TurnedAway("Socket not connected") else fate
    case TimerFires(id) =>
      if fate.Held? && id in w.timeouts && w.timeouts[id].request == r
      then TurnedAway("Timed out waiting for chat connection") else fate
    case _ => fate
  }

  function FateOf(now: int, es: seq<Event>, r: RequestId): Fate
    decreases |es|
  {
    if es == [] then NotAsked
    else
      var front, e := es[..|es| - 1], es[|es| - 1];
      var w := Run(Init(now), front);
      if Possible(w, e) then After(now, front, w, e, r, FateOf(now, front, r)) else FateOf(now, front, r)
  }

  // ----- Where a request shows -----

  predicate InQueue(w: Worker, r: RequestId) {
    exists i :: 0 <= i < |w.queue| && w.queue[i].request == r
  }

  predicate SentBy(emitted: seq<Emission>, r: RequestId, g: nat) {
    exists i :: 0 <= i < |emitted| && emitted[i].request == r && emitted[i].generation == g
  }

  predicate RefusedWith(posts: seq<Post>, r: RequestId, message: string) {
    exists i :: 0 <= i < |posts| && posts[i].body == Ack(Send, r, Unavailable(message))
  }

  ghost predicate Shows(w: Worker, r: RequestId, fate: Fate) {
    && (fate.NotAsked? <==> !Arrived(w, r))
    && (InQueue(w, r) <==> fate.Held?)
    && (forall g :: SentBy(w.emitted, r, g) <==> fate == Sent(g))
    && (forall m :: RefusedWith(w.posts, r, m) <==> fate == TurnedAway(m))
  }

  lemma RefusedInConcat(a: seq<Post>, b: seq<Post>, r: RequestId, m: string)
    ensures RefusedWith(a + b, r, m) <==> RefusedWith(a, r, m) || RefusedWith(b, r, m)
  {
    if i :| 0 <= i < |a| && a[i].body == Ack(Send, r, Unavailable(m)) { assert (a + b)[i] == a[i]; }
    if i :| 0 <= i < |b| && b[i].body == Ack(Send, r, Unavailable(m)) { assert (a + b)[|a| + i] == b[i]; }
  }

  // Nothing of the kind is posted, and the rest stays.
  lemma QuietShows(w: Worker, w': Worker, added: seq<Post>, r: RequestId, fate: Fate)
    requires Shows(w, r, fate) && QueueAlone(w, w') && w'.posts == w.posts + added
    requires forall i :: 0 <= i < |added| ==> !(added[i].body.Ack? && added[i].body.kind == Send && added[i].body.ack.Unavailable?)
    ensures Shows(w', r, fate)
  {
    forall m ensures RefusedWith(w'.posts, r, m) <==> fate == TurnedAway(m) {
      RefusedInConcat(w.posts, added, r, m);
      assert !RefusedWith(added, r, m);
      assert RefusedWith(w.posts, r, m) <==> fate == TurnedAway(m);
    }
  }

  predicate RefusesSend(post: Post) {
    post.body.Ack? && post.body.kind == Send && post.body.ack.Unavailable?
  }

  lemma QuietPosts(w: Worker, e: Event)
    requires Quiet(e) && (e.Query? ==> e.kind in QueryKinds())
    ensures w.posts <= Step(w, e).posts
    ensures forall i :: |w.posts| <= i < |Step(w, e).posts| ==> !RefusesSend(Step(w, e).posts[i])
  {
  }

  lemma SendShows(w: Worker, x: RequestId, r: RequestId, fate: Fate)
    requires Shows(w, r, fate) && !Arrived(w, x)
    ensures var fate' := if x != r then fate else if IsConnected(w) then Sent(w.socket.value.generation) else Held;
            Shows(Step(w, MessageSend(x)), r, fate')
  {
    var w' := Step(w, MessageSend(x));
    ArrivalsGrow(w, x, r);
    if IsConnected(w) {
      var more := [Emission(|w.arrivals|, x, w.socket.value.generation)];
      assert more[0].request == x && more[0].generation == w.socket.value.generation;
      forall g ensures SentBy(w'.emitted, r, g) <==> SentBy(w.emitted, r, g) || (r == x && g == more[0].generation) {
        SentInConcat(w.emitted, more, r, g);
      }
    } else {
      assert w'.queue == w.queue + [Item(|w.arrivals|, x, w.nextTimer)];
      if i :| 0 <= i < |w.queue| && w.queue[i].request == r { assert w'.queue[i].request == r; }
      assert w'.queue[|w.queue|].request == x;
    }
  }

  lemma ArrivalsGrow(w: Worker, x: RequestId, r: RequestId)
    ensures Arrived(Step(w, MessageSend(x)), r) <==> Arrived(w, r) || r == x
  {
    var w' := Step(w, MessageSend(x));
    if k :| 0 <= k < |w.arrivals| && w.arrivals[k].request == r { assert w'.arrivals[k].request == r; }
    assert w'.arrivals[|w.arrivals|].request == x;
  }

  lemma SentInConcat(a: seq<Emission>, b: seq<Emission>, r: RequestId, g: nat)
    ensures SentBy(a + b, r, g) <==> SentBy(a, r, g) || SentBy(b, r, g)
  {
    if i :| 0 <= i < |a| && a[i].request == r && a[i].generation == g { assert (a + b)[i] == a[i]; }
    if i :| 0 <= i < |b| && b[i].request == r && b[i].generation == g { assert (a + b)[|a| + i] == b[i]; }
  }

  // A connect of the current client sends the whole queue.
  lemma FlushShows(w: Worker, g: nat, r: RequestId, fate: Fate)
    requires Lifecycle(w) && ClientIn(w, g, false) && Shows(w, r, fate)
    ensures Shows(OnConnect(w, g), r, if fate.Held? && g == w.generation then Sent(g) else fate)
  {
    hide Lifecycle, Alternates, SaysConnected;
    var w' := OnConnect(w, g);
    ConnectKeepsPosts(w, g);
    assert !RefusedWith([Post(Connected, Client(g))], r, "");
    ConnectStepOf(w, g);
    if g == w.generation {
      var more := Emissions(w.queue, g);
      forall h ensures SentBy(w'.emitted, r, h) <==> SentBy(w.emitted, r, h) || (InQueue(w, r) && h == g) {
        SentInConcat(w.emitted, more, r, h);
        if i :| 0 <= i < |w.queue| && w.queue[i].request == r { assert more[i].request == r && more[i].generation == g; }
        if i :| 0 <= i < |more| && more[i].request == r && more[i].generation == h { assert w.queue[i].request == r; }
      }
      forall m ensures RefusedWith(w'.posts, r, m) <==> RefusedWith(w.posts, r, m) {
        RefusedInConcat(w.posts, [Post(Connected, Client(g))], r, m);
      }
    }
  }

  lemma ConnectStepOf(w: Worker, g: nat)
    requires Lifecycle(w) && ClientIn(w, g, false)
    ensures var w' := OnConnect(w, g);
            && w'.arrivals == w.arrivals
            && w'.queue == (if g == w.generation then [] else w.queue)
            && w'.emitted == (if g == w.generation then w.emitted + Emissions(w.queue, g) else w.emitted)
  {
    ConnectStep(w, g);
  }

  lemma ConnectKeepsPosts(w: Worker, g: nat)
    ensures OnConnect(w, g).posts == w.posts + if g == w.generation then [Post(Connected, Client(g))] else []
  {
  }

  // A disconnect turns away the whole queue.
  lemma DisconnectShows(w: Worker, r: RequestId, fate: Fate)
    requires Shows(w, r, fate)
    ensures Shows(DisconnectSocket(w), r, if fate.Held? then TurnedAway("Socket not connected") else fate)
  {
    var w' := DisconnectSocket(w);
    var refusals, bye := Refusals(w.queue, "Socket not connected"), [Post(Disconnected("client"), Main)];
    DisconnectStep(w);
    assert w'.posts == w.posts + refusals + bye;
    forall m ensures RefusedWith(w'.posts, r, m) <==> RefusedWith(w.posts, r, m) || (InQueue(w, r) && m == "Socket not connected") {
      RefusedInConcat(w.posts + refusals, bye, r, m);
      RefusedInConcat(w.posts, refusals, r, m);
      if i :| 0 <= i < |w.queue| && w.queue[i].request == r {
        assert refusals[i].body == Ack(Send, r, Unavailable("Socket not connected"));
      }
      if i :| 0 <= i < |refusals| && refusals[i].body == Ack(Send, r, Unavailable(m)) { assert w.queue[i].request == r; }
    }
  }

  // A timer turns away its own request.
  lemma TimerShows(w: Worker, id: TimerId, r: RequestId, fate: Fate)
    requires Inv(w) && id in w.timeouts && Shows(w, r, fate)
    ensures var fate' := if fate.Held? && w.timeouts[id].request == r
                         then TurnedAway("Timed out waiting for chat connection") else fate;
            Shows(FireTimeout(w, id), r, fate')
  {
    hide FireTimeout, Inv;
    var w' := FireTimeout(w, id);
    var x, timedOut := w.timeouts[id].request, "Timed out waiting for chat connection";
    var n := TimerEffect(w, id);
    var post := Post(Ack(Send, x, Unavailable(timedOut)), Callback);
    forall m ensures RefusedWith(w'.posts, r, m) <==> RefusedWith(w.posts, r, m) || (r == x && m == timedOut) {
      RefusedInConcat(w.posts, [post], r, m);
      assert [post][0] == post;
    }
    OneLess(w, n, r);
    assert InQueue(w, x);
  }

  // The timer's request is at some place of the queue, and leaves it with a refusal.
  lemma TimerEffect(w: Worker, id: TimerId) returns (n: nat)
    requires Inv(w) && id in w.timeouts
    ensures var w', x := FireTimeout(w, id), w.timeouts[id].request;
            && n < |w.queue| && w.queue[n].request == x && Ordered(w)
            && w'.queue == Without(w.queue, n) && w'.arrivals == w.arrivals && w'.emitted == w.emitted
            && w'.posts == w.posts + [Post(Ack(Send, x, Unavailable("Timed out waiting for chat connection")), Callback)]
  {
    hide Conservation, Lifecycle, OneHeartbeat;
    TimerFindsItsItem(w, id);
    IndexOfFinds(w.queue, w.timeouts[id].request);
    n := IndexOf(w.queue, w.timeouts[id].request).value;
  }

  lemma OneLess(w: Worker, n: nat, r: RequestId)
    requires Ordered(w) && n < |w.queue|
    ensures var w' := w.(queue := Without(w.queue, n));
            InQueue(w', r) <==> InQueue(w, r) && r != w.queue[n].request
  {
    var w' := w.(queue := Without(w.queue, n));
    if i :| 0 <= i < |w.queue| && w.queue[i].request == r && i != n {
      assert w'.queue[if i < n then i else i - 1].request == r;
    }
    if i :| 0 <= i < |w'.queue| && w'.queue[i].request == r {
      var k := if i < n then i else i + 1;
      assert w.queue[k].request == r && k != n;
      assert w.queue[k].arrival != w.queue[n].arrival;
    }
  }

  lemma StepShows(now: int, front: seq<Event>, w: Worker, e: Event, r: RequestId, fate: Fate)
    requires Inv(w) && Possible(w, e) && Tells(front, w) && (IsConnected(w) <==> Online(now, front))
    requires Shows(w, r, fate)
    ensures Shows(Step(w, e), r, After(now, front, w, e, r, fate))
  {
    hide Shows, Online, Conservation, Ordered, Timed, OneHeartbeat, QueueAlone, ClearQueue, Flush, FireTimeout,
         ConnectSocket, DisconnectSocket, OnConnect;
    match e
    case MessageSend(x) => SendShows(w, x, r, fate);
    case ClientConnect(g) => FlushShows(w, g, r, fate);
    case Disconnect => DisconnectShows(w, r, fate);
    case TimerFires(id) => TimerShows(w, id, r, fate);
    case Tick(to) => TickShows(w, to, r, fate);
    case _ => OthersShow(w, e, r, fate);
  }

  lemma TickShows(w: Worker, to: int, r: RequestId, fate: Fate)
    requires Shows(w, r, fate)
    ensures Shows(w.(now := to), r, fate)
  {
  }

  lemma OthersShow(w: Worker, e: Event, r: RequestId, fate: Fate)
    requires Quiet(e) && Possible(w, e) && Shows(w, r, fate)
    ensures Shows(Step(w, e), r, fate)
  {
    hide Step, Shows, QueueAlone;
    QuietStep(w, e);
    QuietPosts(w, e);
    QuietShows(w, Step(w, e), Step(w, e).posts[|w.posts|..], r, fate);
  }

  // ----- The connection and the cadence -----

  lemma ConnectedAfter(w: Worker, e: Event)
    requires Lifecycle(w) && Possible(w, e)
    ensures IsConnected(Step(w, e)) <==>
            match e
            case Connect => false
            case Disconnect => false
            case ClientConnect(g) => g == w.generation || IsConnected(w)
            case ClientDisconnect(g, _) => g != w.generation && IsConnected(w)
            case _ => IsConnected(w)
  {
    hide Alternates, SaysConnected;
  }

  lemma CadenceAfter(w: Worker, e: Event)
    ensures Step(w, e).heartbeatMs ==
            match e
            case HeartbeatMode(activeThread) => if activeThread then HEARTBEAT_COMPACT_MS else HEARTBEAT_RELAXED_MS
            case Disconnect => HEARTBEAT_RELAXED_MS
            case _ => w.heartbeatMs
  {
  }

  // What the events say about the connection, the cadence and one request.
  ghost predicate Agrees(now: int, es: seq<Event>, w: Worker, r: RequestId) {
    && Tells(es, w) && (IsConnected(w) <==> Online(now, es)) && w.heartbeatMs == Cadence(es)
    && Shows(w, r, FateOf(now, es, r))
  }

  lemma {:induction false} EventsTell(now: int, es: seq<Event>, r: RequestId)
    ensures Agrees(now, es, Run(Init(now), es), r) && Inv(Run(Init(now), es))
  {
    hide Step, Possible, Inv, After, Shows;
    HeardIsReported(now, es);
    InitInv(now);
    RunKeepsInv(Init(now), es);
    if es == [] {
      NothingShows(now, r);
    } else {
      var front, e := es[..|es| - 1], es[|es| - 1];
      var w := Run(Init(now), front);
      EventsTell(now, front, r);
      if Possible(w, e) {
        StepShows(now, front, w, e, r, FateOf(now, front, r));
        InvHasLifecycle(w);
        ConnectedAfter(w, e);
        CadenceAfter(w, e);
      } else {
        ImpossibleIsHarmless(w, e);
      }
    }
  }

  lemma InvHasLifecycle(w: Worker)
    requires Inv(w)
    ensures Lifecycle(w)
  {
  }

  lemma ImpossibleIsHarmless(w: Worker, e: Event)
    requires !Possible(w, e)
    ensures !e.HeartbeatMode? && !e.Disconnect?
  {
  }

  lemma NothingShows(now: int, r: RequestId)
    ensures Shows(Init(now), r, NotAsked)
  {
  }

  // ----- Results -----

  // The exact fate of a send request, over every run. It goes out at once if the current client is connected when it
  // comes, and else with the next connect of a current client; it is turned away by a disconnect or by its own timer
  // if one of these comes first, with the reason that belongs to it. Replacing the client never turns it away.
  lemma FateExactly(now: int, es: seq<Event>, r: RequestId)
    ensures var w, fate := Run(Init(now), es), FateOf(now, es, r);
            && (fate.NotAsked? <==> !Arrived(w, r))
            && (InQueue(w, r) <==> fate.Held?)
            && (forall g :: SentBy(w.emitted, r, g) <==> fate == Sent(g))
            && (forall m :: RefusedWith(w.posts, r, m) <==> fate == TurnedAway(m))
  {
    EventsTell(now, es, r);
  }

  // Nothing is ever stuck: a held request has a timer that can fire, or that time can come closer to; what is in flight
  // can be answered; and a client that is there can connect or drop.
  lemma NoneIsStranded(now: int, es: seq<Event>, r: RequestId)
    ensures var w := Run(Init(now), es);
            && (FateOf(now, es, r).Held? ==>
                  exists e :: Possible(w, e) && (e.TimerFires? || (e.Tick? && e.to > w.now)))
            && (forall kind, x, payload :: (kind, x) in w.inFlight ==> Possible(w, AckArrives(kind, x, payload)))
            && (w.socket.Some? ==>
                  if Online(now, es) then forall reason :: Possible(w, ClientDisconnect(Generation(es), reason))
                  else Possible(w, ClientConnect(Generation(es))))
  {
    hide Run, FateOf, Inv, Possible, Arrived, SentBy, RefusedWith, Online;
    EventsTell(now, es, r);
    var w := Run(Init(now), es);
    if FateOf(now, es, r).Held? { HeldCanMove(w, r); }
    ClientCanMove(w);
    forall kind, x, payload | (kind, x) in w.inFlight ensures Possible(w, AckArrives(kind, x, payload)) {
      AnswerCanCome(w, kind, x, payload);
    }
  }

  lemma AnswerCanCome(w: Worker, kind: Kind, x: RequestId, payload: string)
    requires (kind, x) in w.inFlight
    ensures Possible(w, AckArrives(kind, x, payload))
  {
  }

  lemma ClientCanMove(w: Worker)
    requires Inv(w)
    ensures w.socket.Some? ==>
              if IsConnected(w) then forall reason :: Possible(w, ClientDisconnect(w.generation, reason))
              else Possible(w, ClientConnect(w.generation))
  {
    hide Conservation, Ordered, Timed, OneHeartbeat, Alternates, SaysConnected;
  }

  lemma HeldCanMove(w: Worker, r: RequestId)
    requires Inv(w) && InQueue(w, r)
    ensures exists e :: Possible(w, e) && (e.TimerFires? || (e.Tick? && e.to > w.now))
  {
    hide Conservation, Ordered, Lifecycle, OneHeartbeat;
    var i :| 0 <= i < |w.queue| && w.queue[i].request == r;
    assert ItemTimed(w.arrivals, w.timeouts, w.queue[i]);
    var first := FirstTimer(w.timeouts, w.timeouts.Keys);
    if w.timeouts[first].deadline <= w.now {
      assert Possible(w, TimerFires(first));
    } else {
      assert Possible(w, Tick(w.timeouts[first].deadline));
    }
  }

  lemma FirstTimer(timeouts: map<TimerId, Timeout>, ids: set<TimerId>) returns (first: TimerId)
    requires ids != {} && ids <= timeouts.Keys
    ensures first in ids && forall id :: id in ids ==> timeouts[first].deadline <= timeouts[id].deadline
    decreases ids
  {
    first :| first in ids;
    if ids != {first} {
      var rest := FirstTimer(timeouts, ids - {first});
      if timeouts[rest].deadline < timeouts[first].deadline { first := rest; }
    }
  }

  // Queries are never held: with a connected client they go out, and nothing is posted; without one they are turned
  // away on the spot.
  lemma QueriesGoOutOrBack(now: int, es: seq<Event>, kind: Kind, request: RequestId)
    ensures var w := Run(Init(now), es);
            var w' := Step(w, Query(kind, request));
            if Online(now, es) then w' == w.(inFlight := w.inFlight + {(kind, request)})
            else w' == w.(posts := w.posts + [Post(Ack(kind, request, Unavailable("Socket not connected")), Main)])
  {
    EventsTell(now, es, request);
  }

  // The heartbeat runs exactly while the current client is connected, and at the cadence of the last mode set since
  // the last disconnect.
  lemma HeartbeatAtLastMode(now: int, es: seq<Event>)
    ensures var w := Run(Init(now), es);
            && (w.intervals == map[] <==> !Online(now, es))
            && forall id :: id in w.intervals ==> w.intervals[id] == Cadence(es)
  {
    EventsTell(now, es, "");
    var w := Run(Init(now), es);
    if w.heartbeat.Some? { assert w.heartbeat.value in w.intervals; }
  }
}
