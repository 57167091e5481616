// What the main thread hears from the worker, told by the events alone: everything but the refusals of requests.

module WorkerReports {
  import opened Text
  import opened WorkerSpec

  predicate Command(e: Event) {
    e.Connect? || e.Disconnect?
  }

  // The generation of the client that is current after the events: clients are numbered by commands.
  function Generation(es: seq<Event>): nat {
    if es == [] then 0
    else Generation(es[..|es| - 1]) + if Command(es[|es| - 1]) then 1 else 0
  }

  // The last command was a connect.
  function ClientThere(es: seq<Event>): bool {
    if es == [] then false
    else if Command(es[|es| - 1]) then es[|es| - 1].Connect?
    else ClientThere(es[..|es| - 1])
  }

  // What an event makes the worker report, after the events before it. Of a client that is not the current one,
  // nothing; of the current one, every event, with what it carries.
  function Report(before: seq<Event>, e: Event): seq<Post> {
    var g := Generation(before);
    match e
    case Connect =>
      (if ClientThere(before) then [Post(Disconnected("reconnect"), Main)] else []) + [Post(SocketConnecting, Main)]
    case Disconnect => [Post(Disconnected("client"), Main)]
    case ReconnectAttempt(n) => if n == g then [Post(SocketConnecting, Client(n))] else []
    case ClientConnect(n) => if n == g then [Post(Connected, Client(n))] else []
    case ClientDisconnect(n, reason) => if n == g then [Post(Disconnected(reason), Client(n))] else []
    case ClientConnectError(n, message) => if n == g then [Post(ConnectError(message), Client(n))] else []
    case ClientEvent(n, event, payload) => if n == g then [Post(Inbound(event, payload), Client(n))] else []
    case AckArrives(kind, request, payload) => [Post(Ack(kind, request, Server(payload)), Callback)]
    case _ => []
  }

  // The reports of a run, in order.
  function Reports(now: int, es: seq<Event>): seq<Post>
    decreases |es|
  {
    if es == [] then []
    else
      var front, e := es[..|es| - 1], es[|es| - 1];
      Reports(now, front) + if Possible(Run(Init(now), front), e) then Report(front, e) else []
  }

  // The worker's own answer to a request.
  predicate Refusal(post: Post) {
    post.body.Ack? && post.body.ack.Unavailable?
  }

  function WithoutRefusals(posts: seq<Post>): seq<Post> {
    if posts == [] then []
    else
      var last := posts[|posts| - 1];
      WithoutRefusals(posts[..|posts| - 1]) + if Refusal(last) then [] else [last]
  }

  lemma {:induction false} WithoutRefusalsConcat(a: seq<Post>, b: seq<Post>)
    ensures WithoutRefusals(a + b) == WithoutRefusals(a) + WithoutRefusals(b)
  {
    if b == [] {
      assert a + b == a;
    } else {
      WithoutRefusalsConcat(a, b[..|b| - 1]);
      assert (a + b)[..|a + b| - 1] == a + b[..|b| - 1];
    }
  }

  lemma {:induction false} OnlyRefusals(posts: seq<Post>)
    requires forall i :: 0 <= i < |posts| ==> Refusal(posts[i])
    ensures WithoutRefusals(posts) == []
  {
    if posts != [] { OnlyRefusals(posts[..|posts| - 1]); }
  }

  lemma {:induction false} NoRefusals(posts: seq<Post>)
    requires forall i :: 0 <= i < |posts| ==> !Refusal(posts[i])
    ensures WithoutRefusals(posts) == posts
  {
    if posts != [] { NoRefusals(posts[..|posts| - 1]); }
  }

  // A step adds refusals, if any, in front of what it reports.
  ghost predicate Adds(w: Worker, w': Worker, refusals: seq<Post>, report: seq<Post>) {
    && w'.posts == w.posts + refusals + report
    && (forall i :: 0 <= i < |refusals| ==> Refusal(refusals[i]))
    && forall i :: 0 <= i < |report| ==> !Refusal(report[i])
  }

  lemma AddsReports(w: Worker, w': Worker, refusals: seq<Post>, report: seq<Post>)
    requires Adds(w, w', refusals, report)
    ensures WithoutRefusals(w'.posts) == WithoutRefusals(w.posts) + report
  {
    WithoutRefusalsConcat(w.posts + refusals, report);
    WithoutRefusalsConcat(w.posts, refusals);
    OnlyRefusals(refusals);
    NoRefusals(report);
  }

  // What the events say about the state.
  ghost predicate Tells(es: seq<Event>, w: Worker) {
    w.generation == Generation(es) && (w.socket.Some? <==> ClientThere(es))
  }

  lemma TellsAfter(es: seq<Event>, w: Worker, e: Event)
    requires Tells(es, w)
    ensures Tells(es + [e], Step(w, e))
  {
    assert (es + [e])[..|es|] == es;
    hide Step;
    if Command(e) { CommandTells(w, e); }
    else if e.HeartbeatMode? || e.MessageSend? || e.Query? || e.TimerFires? || e.Tick? || e.AckArrives? {
      OthersKeepClient(w, e);
    } else { ListenersKeepClient(w, e); }
  }

  lemma CommandTells(w: Worker, e: Event)
    requires Command(e)
    ensures Step(w, e).generation == w.generation + 1 && (Step(w, e).socket.Some? <==> e.Connect?)
  {
  }

  ghost predicate SameClient(w: Worker, w': Worker) {
    w'.generation == w.generation && (w'.socket.Some? <==> w.socket.Some?)
  }

  lemma ListenersKeepClient(w: Worker, e: Event)
    requires e.ReconnectAttempt? || e.ClientConnect? || e.ClientDisconnect? || e.ClientConnectError? || e.ClientEvent?
    ensures SameClient(w, Step(w, e))
  {
  }

  lemma OthersKeepClient(w: Worker, e: Event)
    requires e.HeartbeatMode? || e.MessageSend? || e.Query? || e.TimerFires? || e.Tick? || e.AckArrives?
    ensures SameClient(w, Step(w, e))
  {
  }

  lemma ClientStepReports(es: seq<Event>, w: Worker, e: Event)
    requires Tells(es, w)
    requires e.ReconnectAttempt? || e.ClientConnect? || e.ClientDisconnect? || e.ClientConnectError? || e.ClientEvent?
    ensures Adds(w, Step(w, e), [], Report(es, e))
  {
  }

  lemma CommandReports(es: seq<Event>, w: Worker, e: Event)
    requires Tells(es, w) && Command(e)
    ensures Adds(w, Step(w, e), if e.Connect? then [] else Refusals(w.queue, "Socket not connected"), Report(es, e))
  {
  }

  lemma OtherStepReports(es: seq<Event>, w: Worker, e: Event)
    requires e.HeartbeatMode? || e.MessageSend? || e.Query? || e.TimerFires? || e.Tick? || e.AckArrives?
    ensures w.posts <= Step(w, e).posts
    ensures Adds(w, Step(w, e), if e.AckArrives? then [] else Step(w, e).posts[|w.posts|..], Report(es, e))
  {
  }

  lemma StepReports(es: seq<Event>, w: Worker, e: Event)
    requires Tells(es, w)
    ensures WithoutRefusals(Step(w, e).posts) == WithoutRefusals(w.posts) + Report(es, e)
  {
    hide Step, Adds, Report, Refusals;
    if Command(e) {
      CommandReports(es, w, e);
      AddsReports(w, Step(w, e), if e.Connect? then [] else Refusals(w.queue, "Socket not connected"), Report(es, e));
    } else if e.HeartbeatMode? || e.MessageSend? || e.Query? || e.TimerFires? || e.Tick? || e.AckArrives? {
      OtherStepReports(es, w, e);
      AddsReports(w, Step(w, e), if e.AckArrives? then [] else Step(w, e).posts[|w.posts|..], Report(es, e));
    } else {
      ClientStepReports(es, w, e);
      AddsReports(w, Step(w, e), [], Report(es, e));
    }
  }

  // Over every run the main thread hears exactly the reports, one for one, in order, with their payloads: each event of
  // the client that is current when it comes, each server ack, and the lifecycle of the clients. Nothing is dropped,
  // nothing is added, and of replaced clients there are only acks.
  lemma {:induction false} HeardIsReported(now: int, es: seq<Event>)
    ensures WithoutRefusals(Run(Init(now), es).posts) == Reports(now, es)
    ensures Tells(es, Run(Init(now), es))
  {
    hide Step, Possible, Report;
    if es != [] {
      var front, e := es[..|es| - 1], es[|es| - 1];
      HeardIsReported(now, front);
      var w := Run(Init(now), front);
      assert es == front + [e];
      if Possible(w, e) {
        StepReports(front, w, e);
        TellsAfter(front, w, e);
      } else {
        ImpossibleIsNoCommand(w, e);
        assert (front + [e])[..|front|] == front;
      }
    }
  }

  lemma ImpossibleIsNoCommand(w: Worker, e: Event)
    requires !Possible(w, e)
    ensures !Command(e)
  {
  }
}
