// Main thread and socket worker at once: the bridge posts into the worker's inbox, the worker takes from it whenever
// it is idle, and its posts reach the bridge one by one, at any time later.

module SocketSystem {
  import opened Text
  import opened Json
  import opened WorkerSpec
  import opened WorkerProperties
  import opened SocketBridge

  // heard counts the posts that reached the main thread. At the first terminate, cut is what had been heard by then;
  // late are the requests made after it, which no worker ever gets.
  datatype System = System(
    worker: Worker,
    bridge: Bridge,
    inbox: seq<WorkerSpec.Event>,
    heard: nat,
    cut: Option<nat>,
    late: set<(Kind, RequestId)>)

  datatype SystemEvent =
    // sendMessage, emitReceipt, emitWebRtcSignaling, getLastSeen
    | Ask(kind: Kind, request: RequestId)
    // connect, disconnect, setPresenceHeartbeatMode
    | Tell(e: WorkerSpec.Event)
    | Take
    // a listener, an ack callback, a timer or the clock of the worker
    | Happen(e: WorkerSpec.Event)
    | HearNext
    | TerminateAll

  function Start(now: int): System {
    System(WorkerSpec.Init(now), SocketBridge.EMPTY, [], 0, None, {})
  }

  function RequestEvent(kind: Kind, request: RequestId): WorkerSpec.Event {
    if kind == Send then MessageSend(request) else Query(kind, request)
  }

  predicate Command(e: WorkerSpec.Event) {
    e.Connect? || e.Disconnect? || e.HeartbeatMode?
  }

  predicate FromMain(e: WorkerSpec.Event) {
    Command(e) || e.MessageSend? || e.Query?
  }

  // Request ids are fresh UUIDs, and a terminated worker does nothing any more.
  predicate Enabled(s: System, e: SystemEvent) {
    match e
    case Ask(kind, request) => (kind, request) !in s.bridge.issued
    case Tell(c) => Command(c)
    case Take => s.cut.None? && s.inbox != []
    case Happen(h) => s.cut.None? && !FromMain(h) && Possible(s.worker, h)
    case HearNext => s.heard < |s.worker.posts|
    case TerminateAll => true
  }

  function PostTo(s: System, e: WorkerSpec.Event): System {
    if s.cut.None? then s.(inbox := s.inbox + [e]) else s
  }

  function HearPost(b: Bridge, body: PostBody, decode: AckBody -> Json): Bridge {
    match body
    case Ack(kind, request, ack) => BridgeStep(b, AckMessage(kind, request, decode(ack)))
    case _ => b
  }

  function SystemStep(s: System, e: SystemEvent, decode: AckBody -> Json): System
    requires Enabled(s, e)
  {
    match e
    case Ask(kind, request) =>
      PostTo(s, RequestEvent(kind, request)).(
        bridge := BridgeStep(s.bridge, Issue(kind, request)),
        late := if s.cut.None? then s.late else s.late + {(kind, request)})
    case Tell(c) => PostTo(s, c)
    case Take => s.(worker := Step(s.worker, s.inbox[0]), inbox := s.inbox[1..])
    case Happen(h) => s.(worker := Step(s.worker, h))
    case HearNext => s.(bridge := HearPost(s.bridge, s.worker.posts[s.heard].body, decode), heard := s.heard + 1)
    case TerminateAll =>
      s.(bridge := BridgeStep(s.bridge, BridgeEvent.Terminate), cut := if s.cut.None? then Some(s.heard) else s.cut)
  }

  function SystemRun(s: System, es: seq<SystemEvent>, decode: AckBody -> Json): System
    decreases |es|
  {
    if es == [] then s
    else
      var before := SystemRun(s, es[..|es| - 1], decode);
      var e := es[|es| - 1];
      if Enabled(before, e) then SystemStep(before, e, decode) else before
  }

  // ----- Where a request is -----

  function AcksOf(posts: seq<WorkerSpec.Post>, kind: Kind, r: RequestId): nat {
    if posts == [] then 0
    else
      var body := posts[|posts| - 1].body;
      AcksOf(posts[..|posts| - 1], kind, r) + if body.Ack? && body.kind == kind && body.request == r then 1 else 0
  }

  function Waiting(s: System, kind: Kind, r: RequestId): nat {
    multiset(s.inbox)[RequestEvent(kind, r)]
  }

  // In the worker's queue or in flight.
  function Held(w: Worker, kind: Kind, r: RequestId): nat {
    (if kind == Kind.Send then Queued(w.queue, r) else 0) + (if (kind, r) in w.inFlight then 1 else 0)
  }

  function Places(w: Worker, kind: Kind, r: RequestId): nat {
    Held(w, kind, r) + AcksOf(w.posts, kind, r)
  }

  predicate Asked(s: System, kind: Kind, r: RequestId) {
    (kind, r) in s.bridge.issued && (kind, r) !in s.late
  }

  // A request made before the first terminate is in exactly one place, every other in none.
  ghost predicate Placed(s: System, kind: Kind, r: RequestId) {
    Waiting(s, kind, r) + Places(s.worker, kind, r) == if Asked(s, kind, r) then 1 else 0
  }

  lemma {:induction false} AcksOfConcat(a: seq<WorkerSpec.Post>, b: seq<WorkerSpec.Post>, kind: Kind, r: RequestId)
    ensures AcksOf(a + b, kind, r) == AcksOf(a, kind, r) + AcksOf(b, kind, r)
  {
    if b == [] {
      assert a + b == a;
    } else {
      AcksOfConcat(a, b[..|b| - 1], kind, r);
      assert (a + b)[..|a + b| - 1] == a + b[..|b| - 1];
    }
  }

  lemma {:induction false} AcksOfSend(posts: seq<WorkerSpec.Post>, r: RequestId)
    ensures AcksOf(posts, Kind.Send, r) == Acks(posts, r)
  {
    if posts != [] { AcksOfSend(posts[..|posts| - 1], r); }
  }

  predicate AnswersQuery(body: PostBody) {
    body.Ack? && body.kind != Kind.Send
  }

  lemma {:induction false} NoAnswers(posts: seq<WorkerSpec.Post>, kind: Kind, r: RequestId)
    requires kind != Kind.Send && forall i :: 0 <= i < |posts| ==> !AnswersQuery(posts[i].body)
    ensures AcksOf(posts, kind, r) == 0
  {
    if posts != [] { NoAnswers(posts[..|posts| - 1], kind, r); }
  }

  // What the other steps leave alone: queries in flight, and the acks of queries.
  ghost predicate QueriesAlone(w: Worker, w': Worker) {
    && w.posts <= w'.posts
    && (forall i :: |w.posts| <= i < |w'.posts| ==> !AnswersQuery(w'.posts[i].body))
    && (forall kind, r :: kind != Kind.Send ==> ((kind, r) in w'.inFlight <==> (kind, r) in w.inFlight))
  }

  lemma FromMainLeavesQueries(w: Worker, e: WorkerSpec.Event)
    requires Command(e) || e.MessageSend?
    ensures QueriesAlone(w, Step(w, e))
  {
  }

  lemma ClientLeavesQueries(w: Worker, e: WorkerSpec.Event)
    requires e.ReconnectAttempt? || e.ClientConnect? || e.ClientDisconnect? || e.ClientConnectError? || e.ClientEvent?
    ensures QueriesAlone(w, Step(w, e))
  {
    hide Possible;
  }

  lemma ClockLeavesQueries(w: Worker, e: WorkerSpec.Event)
    requires e.TimerFires? || e.Tick?
    ensures QueriesAlone(w, Step(w, e))
  {
    hide IndexOf;
  }

  lemma AskingMoves(w: Worker, e: WorkerSpec.Event, kind: Kind, r: RequestId)
    requires kind != Kind.Send && e.Query? && (e == Query(kind, r) ==> Places(w, kind, r) == 0)
    ensures Places(Step(w, e), kind, r) == Places(w, kind, r) + if e == Query(kind, r) then 1 else 0
  {
    var w' := Step(w, e);
    if w'.posts != w.posts { assert w'.posts[..|w.posts|] == w.posts; }
  }

  lemma AnswerMoves(w: Worker, e: WorkerSpec.Event, kind: Kind, r: RequestId)
    requires kind != Kind.Send && e.AckArrives? && (e.kind, e.request) in w.inFlight
    ensures Places(Step(w, e), kind, r) == Places(w, kind, r)
  {
    assert Step(w, e).posts[..|w.posts|] == w.posts;
  }

  lemma QueryMoves(w: Worker, e: WorkerSpec.Event, kind: Kind, r: RequestId)
    requires kind != Kind.Send && Possible(w, e) && (e == Query(kind, r) ==> Places(w, kind, r) == 0)
    ensures Places(Step(w, e), kind, r) == Places(w, kind, r) + if e == Query(kind, r) then 1 else 0
  {
    hide Step;
    if e.Query? {
      AskingMoves(w, e, kind, r);
    } else if e.AckArrives? {
      AnswerMoves(w, e, kind, r);
    } else {
      if FromMain(e) { FromMainLeavesQueries(w, e); }
      else if e.TimerFires? || e.Tick? { ClockLeavesQueries(w, e); }
      else { ClientLeavesQueries(w, e); }
      var w' := Step(w, e);
      var added := w'.posts[|w.posts|..];
      assert w'.posts == w.posts + added;
      AcksOfConcat(w.posts, added, kind, r);
      NoAnswers(added, kind, r);
    }
  }

  lemma SendMoves(w: Worker, e: WorkerSpec.Event, r: RequestId)
    requires Conservation(w) && Possible(w, e)
    ensures Conservation(Step(w, e))
    ensures Places(Step(w, e), Kind.Send, r) == Places(w, Kind.Send, r) + if e == MessageSend(r) then 1 else 0
  {
    hide Step;
    StepConserves(w, e);
    var w' := Step(w, e);
    assert Conserved(w, r) && Conserved(w', r);
    AcksOfSend(w.posts, r);
    AcksOfSend(w'.posts, r);
    ArrivedAfter(w, e, r);
  }

  lemma ArrivedAfter(w: Worker, e: WorkerSpec.Event, r: RequestId)
    ensures Arrived(Step(w, e), r) <==> Arrived(w, r) || e == MessageSend(r)
  {
    var w' := Step(w, e);
    if e.MessageSend? {
      assert w'.arrivals == w.arrivals + [WorkerSpec.Arrival(e.request, w.now)];
      if Arrived(w, r) {
        var k :| 0 <= k < |w.arrivals| && w.arrivals[k].request == r;
        assert w'.arrivals[k].request == r;
      }
      assert w'.arrivals[|w.arrivals|].request == e.request;
    } else {
      NothingArrives(w, e);
    }
  }

  lemma NothingArrives(w: Worker, e: WorkerSpec.Event)
    requires !e.MessageSend?
    ensures Step(w, e).arrivals == w.arrivals
  {
  }

  // Every step of the worker moves requests between its places; a new one comes in with its own message only.
  lemma WorkerMoves(w: Worker, e: WorkerSpec.Event, kind: Kind, r: RequestId)
    requires Conservation(w) && Possible(w, e) && (e == RequestEvent(kind, r) ==> Places(w, kind, r) == 0)
    ensures Places(Step(w, e), kind, r) == Places(w, kind, r) + if e == RequestEvent(kind, r) then 1 else 0
  {
    hide Step, Places;
    if kind == Kind.Send { SendMoves(w, e, r); } else { QueryMoves(w, e, kind, r); }
  }

  // ----- Invariant -----

  // How many posts the bridge heard before the first terminate.
  function Live(s: System): nat {
    match s.cut case None => s.heard case Some(n) => n
  }

  // The settlements that acks bring, one each.
  function Outcomes(posts: seq<WorkerSpec.Post>, decode: AckBody -> Json): seq<Settlement> {
    if posts == [] then []
    else
      var before := Outcomes(posts[..|posts| - 1], decode);
      match posts[|posts| - 1].body
      case Ack(kind, request, ack) => before + [Settlement(kind, request, Accepts(kind, decode(ack)))]
      case _ => before
  }

  predicate FitsInbox(e: WorkerSpec.Event) {
    Command(e) || e.MessageSend? || (e.Query? && e.kind in QueryKinds())
  }

  // Up to the first terminate the promises that wait are those made and not heard of; after it, only late ones wait.
  ghost predicate Promised(s: System)
    requires s.heard <= |s.worker.posts|
  {
    if s.cut.Some? then s.bridge.pending <= s.late
    else
      && s.late == {}
      && forall kind, r :: (kind, r) in s.bridge.pending <==>
           (kind, r) in s.bridge.issued && AcksOf(s.worker.posts[..s.heard], kind, r) == 0
  }

  ghost predicate SystemInv(s: System, decode: AckBody -> Json) {
    && Conservation(s.worker)
    && Live(s) <= s.heard <= |s.worker.posts|
    && (forall e :: e in s.inbox ==> FitsInbox(e))
    && s.late <= s.bridge.issued
    && (forall kind, r :: Placed(s, kind, r))
    && s.bridge.settled == Outcomes(s.worker.posts[..Live(s)], decode)
    && Promised(s)
  }

  lemma RequestEventTells(kind: Kind, r: RequestId, kind': Kind, r': RequestId)
    ensures RequestEvent(kind, r) == RequestEvent(kind', r') ==> kind == kind' && r == r'
  {
  }

  lemma AskKeepsInv(s: System, kind: Kind, request: RequestId, decode: AckBody -> Json)
    requires SystemInv(s, decode) && Enabled(s, Ask(kind, request))
    ensures SystemInv(SystemStep(s, Ask(kind, request), decode), decode)
  {
    hide Conservation, Outcomes, Held;
    var s' := SystemStep(s, Ask(kind, request), decode);
    forall k, r ensures Placed(s', k, r) {
      assert Placed(s, k, r) && Placed(s, kind, request);
      RequestEventTells(kind, request, k, r);
    }
    assert Promised(s') by {
      assert Placed(s, kind, request);
      HeardAtMostPosted(s.worker.posts, s.heard, kind, request);
    }
  }

  lemma HeardAtMostPosted(posts: seq<WorkerSpec.Post>, n: nat, kind: Kind, r: RequestId)
    requires n <= |posts|
    ensures AcksOf(posts, kind, r) == AcksOf(posts[..n], kind, r) + AcksOf(posts[n..], kind, r)
  {
    assert posts == posts[..n] + posts[n..];
    AcksOfConcat(posts[..n], posts[n..], kind, r);
  }

  lemma TellKeepsInv(s: System, c: WorkerSpec.Event, decode: AckBody -> Json)
    requires SystemInv(s, decode) && Enabled(s, Tell(c))
    ensures SystemInv(SystemStep(s, Tell(c), decode), decode)
  {
    hide Conservation, Places, Outcomes;
    var s' := SystemStep(s, Tell(c), decode);
    forall k, r ensures Placed(s', k, r) { assert Placed(s, k, r); }
  }

  // What the worker does, as the bridge sees it.
  lemma WorkKeepsInv(s: System, e: WorkerSpec.Event, s': System, decode: AckBody -> Json)
    requires SystemInv(s, decode) && Possible(s.worker, e)
    requires s' == s.(worker := Step(s.worker, e), inbox := s'.inbox)
    requires forall x :: x in s'.inbox ==> FitsInbox(x)
    requires forall k, r :: Waiting(s, k, r) == Waiting(s', k, r) + if e == RequestEvent(k, r) then 1 else 0
    ensures SystemInv(s', decode)
  {
    hide Step, Places, Outcomes, Possible;
    StepConserves(s.worker, e);
    StepAppendsPosts(s.worker, e);
    forall k, r ensures Placed(s', k, r) {
      assert Placed(s, k, r);
      WorkerMoves(s.worker, e, k, r);
    }
    assert s'.worker.posts[..s.heard] == s.worker.posts[..s.heard];
    assert s'.worker.posts[..Live(s)] == s.worker.posts[..Live(s)];
  }

  lemma TakeKeepsInv(s: System, decode: AckBody -> Json)
    requires SystemInv(s, decode) && Enabled(s, Take)
    ensures Possible(s.worker, s.inbox[0]) && SystemInv(SystemStep(s, Take, decode), decode)
  {
    hide Step, Outcomes;
    var e := s.inbox[0];
    assert s.inbox == [e] + s.inbox[1..];
    assert e in s.inbox && FitsInbox(e);
    if e.MessageSend? {
      assert Placed(s, Kind.Send, e.request) && Conserved(s.worker, e.request);
      AcksOfSend(s.worker.posts, e.request);
    }
    WorkKeepsInv(s, e, SystemStep(s, Take, decode), decode);
  }

  // While nothing is terminated, every ack that is heard settles a promise.
  lemma HearKeepsInv(s: System, decode: AckBody -> Json)
    requires SystemInv(s, decode) && Enabled(s, HearNext)
    ensures SystemInv(SystemStep(s, HearNext, decode), decode)
  {
    hide Conservation, Accepts;
    var s' := SystemStep(s, HearNext, decode);
    var posts, n := s.worker.posts, s.heard;
    var body := posts[n].body;
    assert posts[..n + 1][..n] == posts[..n];
    forall k, r ensures Placed(s', k, r) { assert Placed(s, k, r); }
    if body.Ack? {
      assert Placed(s, body.kind, body.request);
      HeardAtMostPosted(posts, n + 1, body.kind, body.request);
    }
  }

  lemma TerminateKeepsInv(s: System, decode: AckBody -> Json)
    requires SystemInv(s, decode)
    ensures SystemInv(SystemStep(s, TerminateAll, decode), decode)
  {
    hide Conservation, Places, Outcomes;
    var s' := SystemStep(s, TerminateAll, decode);
    forall k, r ensures Placed(s', k, r) { assert Placed(s, k, r); }
  }

  lemma SystemStepKeepsInv(s: System, e: SystemEvent, decode: AckBody -> Json)
    requires SystemInv(s, decode) && Enabled(s, e)
    ensures SystemInv(SystemStep(s, e, decode), decode)
  {
    hide SystemInv;
    match e
    case Ask(kind, request) => AskKeepsInv(s, kind, request, decode);
    case Tell(c) => TellKeepsInv(s, c, decode);
    case Take => TakeKeepsInv(s, decode);
    case Happen(h) => HappenKeepsInv(s, h, decode);
    case HearNext => HearKeepsInv(s, decode);
    case TerminateAll => TerminateKeepsInv(s, decode);
  }

  lemma HappenKeepsInv(s: System, h: WorkerSpec.Event, decode: AckBody -> Json)
    requires SystemInv(s, decode) && Enabled(s, Happen(h))
    ensures SystemInv(SystemStep(s, Happen(h), decode), decode)
  {
    hide Step, Possible, Outcomes, Places;
    WorkKeepsInv(s, h, SystemStep(s, Happen(h), decode), decode);
  }

  lemma StartInv(now: int, decode: AckBody -> Json)
    ensures SystemInv(Start(now), decode)
  {
    InitInv(now);
  }

  lemma {:induction false} SystemRunKeepsInv(s: System, es: seq<SystemEvent>, decode: AckBody -> Json)
    requires SystemInv(s, decode)
    ensures SystemInv(SystemRun(s, es, decode), decode)
  {
    hide SystemInv;
    if es != [] {
      SystemRunKeepsInv(s, es[..|es| - 1], decode);
      var before := SystemRun(s, es[..|es| - 1], decode);
      if Enabled(before, es[|es| - 1]) { SystemStepKeepsInv(before, es[|es| - 1], decode); }
    }
  }

  // ----- Results -----

  lemma {:induction false} CountOfOutcomes(posts: seq<WorkerSpec.Post>, decode: AckBody -> Json, kind: Kind, r: RequestId)
    ensures Count(Outcomes(posts, decode), kind, r) == AcksOf(posts, kind, r)
  {
    hide Accepts;
    if posts != [] {
      var front, body := posts[..|posts| - 1], posts[|posts| - 1].body;
      CountOfOutcomes(front, decode, kind, r);
      if body.Ack? {
        CountSnoc(Outcomes(front, decode), Settlement(body.kind, body.request, Accepts(body.kind, decode(body.ack))), kind, r);
      }
    }
  }

  // As long as a promise has not settled, nothing was terminated, and its request is not waiting in the worker's queue
  // for a connection, it can move on: the worker can take a message, the main thread can hear a post, or the answer can
  // come. What is queued has its timer.
  lemma PromiseCanGoOn(now: int, es: seq<SystemEvent>, decode: AckBody -> Json, kind: Kind, r: RequestId)
    ensures var s := SystemRun(Start(now), es, decode);
            s.cut.None? && (kind, r) in s.bridge.pending && (kind == Kind.Send ==> Queued(s.worker.queue, r) == 0) ==>
              || Enabled(s, Take) || Enabled(s, HearNext)
              || forall payload :: Enabled(s, Happen(AckArrives(kind, r, payload)))
  {
    hide SystemRun, Accepts, Outcomes;
    StartInv(now, decode);
    SystemRunKeepsInv(Start(now), es, decode);
    var s := SystemRun(Start(now), es, decode);
    assert Placed(s, kind, r);
    if s.heard == |s.worker.posts| { assert s.worker.posts[..s.heard] == s.worker.posts; }
  }

  // What happens to a promise, over every run of main thread and worker. The settlements are the acks among the posts
  // heard before a terminate, one for one, in order and with their outcomes. So a promise is settled if and only if
  // its request was answered and the answer heard before any terminate, and it is settled once. Without a terminate a
  // promise that is not settled still waits, and its request is in exactly one place: on its way to the worker,
  // queued, in flight, or answered with the answer not heard yet. After one, only requests made later wait, and they
  // are never settled.
  lemma PromiseLife(now: int, es: seq<SystemEvent>, decode: AckBody -> Json, kind: Kind, r: RequestId)
    ensures var s := SystemRun(Start(now), es, decode);
            var posts := s.worker.posts;
            && Live(s) <= s.heard <= |posts|
            && s.bridge.settled == Outcomes(posts[..Live(s)], decode)
            && Settlements(s.bridge, kind, r) == AcksOf(posts[..Live(s)], kind, r) <= 1
            && (Settlements(s.bridge, kind, r) == 1 ==> Asked(s, kind, r))
            && (s.cut.None? && (kind, r) in s.bridge.issued ==>
                  && ((kind, r) in s.bridge.pending <==> Settlements(s.bridge, kind, r) == 0)
                  && Waiting(s, kind, r) + Held(s.worker, kind, r) + AcksOf(posts[s.heard..], kind, r)
                     == 1 - Settlements(s.bridge, kind, r))
            && (s.cut.Some? ==> s.bridge.pending <= s.late)
  {
    hide SystemRun, Accepts, Outcomes;
    StartInv(now, decode);
    SystemRunKeepsInv(Start(now), es, decode);
    var s := SystemRun(Start(now), es, decode);
    assert Placed(s, kind, r);
    CountOfOutcomes(s.worker.posts[..Live(s)], decode, kind, r);
    HeardAtMostPosted(s.worker.posts, s.heard, kind, r);
    HeardAtMostPosted(s.worker.posts, Live(s), kind, r);
  }
}
