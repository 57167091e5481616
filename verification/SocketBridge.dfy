// The main-thread side of the socket worker: promises waiting for an ack, by kind and request id.

module SocketBridge {
  import opened Text
  import opened Json
  import opened WorkerSpec
  import WorkerProperties

  // How the four ack parsers classify an ack: resolve (true) or reject (false).
  function Accepts(kind: Kind, ack: Json): bool {
    match kind
    case Send => HasString(ack, "id") && HasString(ack, "conversationId")
    case Receipt => ack.JObj? && "ok" in ack.fields && ack.fields["ok"] == JBool(true)
    case WebRtc => ack.JObj? && "ok" in ack.fields && ack.fields["ok"] == JBool(true)
    case LastSeen =>
      match StringField(ack, "status")
      case Some(status) =>
        if status == "ok" then
          && StringField(ack, "source") in {Some("redis"), Some("mongodb")}
          && HasString(ack, "lastSeenAt") && StringField(ack, "lastSeenAt") != Some("")
        else status == "not_available"
      case None => false
  }

  datatype Settlement = Settlement(kind: Kind, request: RequestId, resolved: bool)

  // pending: promises not settled yet; issued: every promise ever handed out.
  datatype Bridge = Bridge(pending: set<(Kind, RequestId)>, issued: set<(Kind, RequestId)>, settled: seq<Settlement>)

  datatype BridgeEvent =
    | Issue(kind: Kind, request: RequestId)
    | AckMessage(kind: Kind, request: RequestId, ack: Json)
    | Terminate

  function BridgeStep(b: Bridge, e: BridgeEvent): Bridge {
    match e
    case Issue(kind, request) =>
      b.(pending := b.pending + {(kind, request)}, issued := b.issued + {(kind, request)})
    case AckMessage(kind, request, ack) =>
      if (kind, request) !in b.pending then b
      else
        b.(pending := b.pending - {(kind, request)},
           settled := b.settled + [Settlement(kind, request, Accepts(kind, ack))])
    case Terminate => b.(pending := {})
  }

  // Request ids are fresh UUIDs.
  predicate Fresh(b: Bridge, e: BridgeEvent) {
    e.Issue? ==> (e.kind, e.request) !in b.issued
  }

  function BridgeRun(b: Bridge, es: seq<BridgeEvent>): Bridge
    decreases |es|
  {
    if es == [] then b
    else
      var before := BridgeRun(b, es[..|es| - 1]);
      var e := es[|es| - 1];
      if Fresh(before, e) then BridgeStep(before, e) else before
  }

  const EMPTY := Bridge({}, {}, [])

  function Settlements(b: Bridge, kind: Kind, request: RequestId): nat {
    Count(b.settled, kind, request)
  }

  function Count(settled: seq<Settlement>, kind: Kind, request: RequestId): nat {
    if settled == [] then 0
    else
      var last := settled[|settled| - 1];
      Count(settled[..|settled| - 1], kind, request) + if last.kind == kind && last.request == request then 1 else 0
  }

  ghost predicate BridgeInv(b: Bridge) {
    && b.pending <= b.issued
    && (forall k, r :: (k, r) in b.pending || (k, r) !in b.issued ==> Settlements(b, k, r) == 0)
    && (forall k, r :: Settlements(b, k, r) <= 1)
  }

  lemma CountSnoc(settled: seq<Settlement>, s: Settlement, kind: Kind, request: RequestId)
    ensures Count(settled + [s], kind, request)
            == Count(settled, kind, request) + if s.kind == kind && s.request == request then 1 else 0
  {
    assert (settled + [s])[..|settled|] == settled;
  }

  lemma BridgeStepKeepsInv(b: Bridge, e: BridgeEvent)
    requires BridgeInv(b) && Fresh(b, e)
    ensures BridgeInv(BridgeStep(b, e))
  {
    var b' := BridgeStep(b, e);
    forall k, r
      ensures (k, r) in b'.pending || (k, r) !in b'.issued ==> Settlements(b', k, r) == 0
      ensures Settlements(b', k, r) <= 1
    {
      assert Settlements(b, k, r) <= 1;
      if e.AckMessage? && (e.kind, e.request) in b.pending {
        CountSnoc(b.settled, Settlement(e.kind, e.request, Accepts(e.kind, e.ack)), k, r);
      }
    }
  }

  lemma {:induction false} BridgeRunKeepsInv(b: Bridge, es: seq<BridgeEvent>)
    requires BridgeInv(b)
    ensures BridgeInv(BridgeRun(b, es))
  {
    if es != [] {
      BridgeRunKeepsInv(b, es[..|es| - 1]);
      var before := BridgeRun(b, es[..|es| - 1]);
      if Fresh(before, es[|es| - 1]) { BridgeStepKeepsInv(before, es[|es| - 1]); }
    }
  }

  // Whatever acks arrive, in whatever number and order: a promise settles at most once, never before it was issued,
  // and a promise still pending has not settled.
  lemma SettledAtMostOnce(es: seq<BridgeEvent>, kind: Kind, request: RequestId)
    ensures var b := BridgeRun(EMPTY, es);
            && Settlements(b, kind, request) <= 1
            && ((kind, request) !in b.issued || (kind, request) in b.pending ==> Settlements(b, kind, request) == 0)
  {
    BridgeRunKeepsInv(EMPTY, es);
  }

  // A promise settles in the step of an ack of its own kind and id and in no other, with that ack's outcome.
  lemma SettledOnlyByItsOwnAck(b: Bridge, e: BridgeEvent, kind: Kind, request: RequestId)
    ensures Settlements(BridgeStep(b, e), kind, request) ==
            Settlements(b, kind, request) +
            if e.AckMessage? && e.kind == kind && e.request == request && (kind, request) in b.pending then 1 else 0
    ensures BridgeStep(b, e).settled == b.settled || (e.AckMessage? &&
              BridgeStep(b, e).settled == b.settled + [Settlement(e.kind, e.request, Accepts(e.kind, e.ack))])
  {
    if e.AckMessage? && (e.kind, e.request) in b.pending {
      CountSnoc(b.settled, Settlement(e.kind, e.request, Accepts(e.kind, e.ack)), kind, request);
    }
  }

  // ----- Bridge and worker together -----

  // The bridge hears the posts of the worker one after the other; decode reads the payload of a server ack.
  function Hear(b: Bridge, posts: seq<Post>, decode: AckBody -> Json): Bridge
    decreases |posts|
  {
    if posts == [] then b
    else
      var before := Hear(b, posts[..|posts| - 1], decode);
      match posts[|posts| - 1].body
      case Ack(kind, request, ack) => BridgeStep(before, AckMessage(kind, request, decode(ack)))
      case _ => before
  }

  lemma PendingAfterAck(b: Bridge, e: BridgeEvent, kind: Kind, request: RequestId)
    requires e.AckMessage?
    ensures (kind, request) in BridgeStep(b, e).pending <==>
              (kind, request) in b.pending && !(e.kind == kind && e.request == request)
  {
  }

  lemma {:induction false} HeardSettlements(b: Bridge, posts: seq<Post>, decode: AckBody -> Json, r: RequestId)
    requires (Send, r) in b.pending && Settlements(b, Send, r) == 0
    ensures var b' := Hear(b, posts, decode);
            && Settlements(b', Send, r) == (if WorkerProperties.Acks(posts, r) == 0 then 0 else 1)
            && ((Send, r) in b'.pending <==> WorkerProperties.Acks(posts, r) == 0)
  {
    hide Accepts, BridgeStep, Count;
    if posts != [] {
      HeardSettlements(b, posts[..|posts| - 1], decode, r);
      var before := Hear(b, posts[..|posts| - 1], decode);
      var body := posts[|posts| - 1].body;
      if body.Ack? {
        var e := AckMessage(body.kind, body.request, decode(body.ack));
        SettledOnlyByItsOwnAck(before, e, Send, r);
        PendingAfterAck(before, e, Send, r);
      }
    }
  }

  // A bridge that has heard all that the worker posted, with nothing issued or terminated in between, has settled a
  // pending send promise exactly if the worker answered, and the worker answers exactly those arrived requests that are
  // neither queued nor in flight. SocketSystem has the statement for all interleavings.
  lemma PromiseFollowsRequest(now: int, es: seq<WorkerSpec.Event>, b: Bridge, decode: AckBody -> Json, r: RequestId)
    requires (Send, r) in b.pending && Settlements(b, Send, r) == 0
    ensures var w := WorkerSpec.Run(WorkerSpec.Init(now), es);
            WorkerSpec.Arrived(w, r) ==>
              Settlements(Hear(b, w.posts, decode), Send, r) ==
              1 - WorkerProperties.Queued(w.queue, r) - WorkerProperties.InFlight(w, r)
  {
    var w := WorkerSpec.Run(WorkerSpec.Init(now), es);
    WorkerProperties.EveryRequestInOnePlace(now, es, r);
    HeardSettlements(b, w.posts, decode, r);
  }

  // ----- The bridge with its four maps -----

  class SocketWorkerBridge {
    var pending: set<RequestId>
    var pendingReceipt: set<RequestId>
    var pendingWebRtc: set<RequestId>
    var pendingGetLastSeen: set<RequestId>
    var issued: set<(Kind, RequestId)>
    var settled: seq<Settlement>

    function PendingOf(kind: Kind): set<RequestId>
      reads this
    {
      match kind
      case Send => pending
      case Receipt => pendingReceipt
      case WebRtc => pendingWebRtc
      case LastSeen => pendingGetLastSeen
    }

    // The four maps seen as one.
    ghost predicate Shows(b: Bridge)
      reads this
    {
      && (forall k, r :: (k, r) in b.pending <==> r in PendingOf(k))
      && b.issued == issued && b.settled == settled
    }

    constructor ()
      ensures Shows(EMPTY)
    {
      pending, pendingReceipt, pendingWebRtc, pendingGetLastSeen, issued, settled := {}, {}, {}, {}, {}, [];
    }

    // sendMessage, emitReceipt, emitWebRtcSignaling and getLastSeen differ in the map they use.
    method NewPromise(kind: Kind, request: RequestId, ghost b: Bridge)
      requires Shows(b)
      modifies this
      ensures Shows(BridgeStep(b, Issue(kind, request)))
    {
      issued := issued + {(kind, request)};
      match kind
      case Send => pending := pending + {request};
      case Receipt => pendingReceipt := pendingReceipt + {request};
      case WebRtc => pendingWebRtc := pendingWebRtc + {request};
      case LastSeen => pendingGetLastSeen := pendingGetLastSeen + {request};
    }

    method OnAckMessage(kind: Kind, request: RequestId, ack: Json, ghost b: Bridge)
      requires Shows(b)
      modifies this
      ensures Shows(BridgeStep(b, AckMessage(kind, request, ack)))
    {
      match kind
      case LastSeen =>
        if request !in pendingGetLastSeen { return; }
        pendingGetLastSeen := pendingGetLastSeen - {request};
        settled := settled + [Settlement(kind, request, Accepts(kind, ack))];
      case WebRtc =>
        if request !in pendingWebRtc { return; }
        pendingWebRtc := pendingWebRtc - {request};
        settled := settled + [Settlement(kind, request, Accepts(kind, ack))];
      case Receipt =>
        if request !in pendingReceipt { return; }
        pendingReceipt := pendingReceipt - {request};
        settled := settled + [Settlement(kind, request, Accepts(kind, ack))];
      case Send =>
        if request !in pending { return; }
        pending := pending - {request};
        settled := settled + [Settlement(kind, request, Accepts(kind, ack))];
    }

    method Terminate(ghost b: Bridge)
      requires Shows(b)
      modifies this
      ensures Shows(BridgeStep(b, BridgeEvent.Terminate))
    {
      pending, pendingReceipt, pendingWebRtc, pendingGetLastSeen := {}, {}, {}, {};
    }
  }
}
