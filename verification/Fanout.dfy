// The realtime fan-out protocol as a state machine over its atomic steps.
//
// A job (a send, or a receipt update) publishes its messages one after the other. The exchange copies each
// published message into the queue of every replica, each copy at a time of its own. A replica consumes its
// queue in order: the Socket.IO emit happens in the same step, the notification in a later one.

module Fanout {
  import opened Text
  import opened Json
  import opened Messages
  import opened RoutingKeys
  import opened BrokerPayload

  type SocketId = string
  type UserId = string
  type ReplicaId = nat
  type JobId = nat

  datatype Job =
    | SendJob(doc: MessageDoc, recipient: UserId, origin: Option<SocketId>)
    | ReceiptJob(participants: seq<UserId>, actor: UserId, event: string, data: ReceiptData, origin: Option<SocketId>)

  // What a job publishes, in publishing order.
  function Publications(env: Env, job: Job): seq<Pub> {
    match job
    case SendJob(doc, recipient, origin) =>
      [RecipientPub(env, recipient, doc), EchoPub(env, doc, origin)]
    case ReceiptJob(participants, actor, event, data, origin) =>
      seq(|participants|, i requires 0 <= i < |participants| =>
        ReceiptPub(env, participants[i], actor, event, data, origin))
  }

  // One copy of a published message; job and slot say which message it is.
  datatype Copy = Copy(job: JobId, slot: nat, pub: Pub)

  // present: the sockets that were connected when the job started.
  datatype Progress = Progress(job: Job, next: nat, present: set<SocketId>)

  // order: everything that entered the replica's queue, oldest first; the first `consumed` of them are gone.
  datatype Replica = Replica(ready: bool, transit: set<Copy>, order: seq<Copy>, consumed: nat, notify: set<Copy>)

  // joinedAt and leftAt count what the replica had consumed when the socket joined and left.
  datatype Socket = Socket(user: UserId, replica: ReplicaId, joinedAt: nat, leftAt: Option<nat>,
                           inbox: seq<Copy>, notes: seq<Copy>)

  datatype State = State(jobs: map<JobId, Progress>, replicas: map<ReplicaId, Replica>, sockets: map<SocketId, Socket>)

  datatype Event =
    | Ready(r: ReplicaId)
    | Join(s: SocketId, user: UserId, r: ReplicaId)
    | Leave(s: SocketId)
    | Start(j: JobId, job: Job)
    | Publish(j: JobId)
    | Enqueue(r: ReplicaId, c: Copy)
    | Consume(r: ReplicaId)
    | Notify(r: ReplicaId, c: Copy)

  function Init(replicas: set<ReplicaId>): State {
    State(map[], map r | r in replicas :: Replica(false, {}, [], 0, {}), map[])
  }

  // Whether one emit reaches a socket of the given user: it is in the room and not excepted.
  predicate Hits(e: Emit, s: SocketId, user: UserId) {
    e.room == UserRoom(user) && e.except != Some(s)
  }

  predicate Reaches(env: Env, p: Pub, s: SocketId, user: UserId) {
    var now := Deliver(env, p.key, p.content).now;
    |now| > 0 && Hits(now[0], s, user)
  }

  predicate Notifies(env: Env, p: Pub, s: SocketId, user: UserId) {
    var later := Deliver(env, p.key, p.content).later;
    |later| > 0 && Hits(later[0], s, user)
  }

  // The part of a stretch of the queue that is addressed to a socket.
  function Addressed(env: Env, copies: seq<Copy>, s: SocketId, user: UserId): seq<Copy> {
    if copies == [] then []
    else
      var last := copies[|copies| - 1];
      Addressed(env, copies[..|copies| - 1], s, user) + if Reaches(env, last.pub, s, user) then [last] else []
  }

  // A send comes from a known user to another one, and its origin socket, if any, is one of the sender's;
  // a receipt names one of the three receipt events.
  predicate JobOk(st: State, job: Job) {
    match job
    case SendJob(doc, recipient, origin) =>
      && CleanId(doc.senderId) && CleanId(recipient) && doc.senderId != recipient
      && (origin.Some? ==> origin != Some("") && origin.value in st.sockets
                           && st.sockets[origin.value].user == doc.senderId)
    case ReceiptJob(participants, actor, event, data, origin) =>
      && (forall p :: p in participants ==> CleanId(p))
      && IsReceiptEvent(event)
      && origin != Some("")
  }

  predicate Enabled(env: Env, st: State, e: Event) {
    match e
    case Ready(r) => r in st.replicas
    case Join(s, user, r) => s !in st.sockets && CleanId(user) && r in st.replicas && st.replicas[r].ready
    case Leave(s) => s in st.sockets && st.sockets[s].leftAt.None?
    case Start(j, job) => j !in st.jobs && JobOk(st, job)
    case Publish(j) => j in st.jobs && st.jobs[j].next < |Publications(env, st.jobs[j].job)|
    case Enqueue(r, c) => r in st.replicas && c in st.replicas[r].transit
    case Consume(r) => r in st.replicas && st.replicas[r].consumed < |st.replicas[r].order|
    case Notify(r, c) => r in st.replicas && c in st.replicas[r].notify
  }

  // The message a job publishes next.
  function NextCopy(env: Env, st: State, j: JobId): Copy
    requires Enabled(env, st, Publish(j))
  {
    Copy(j, st.jobs[j].next, Publications(env, st.jobs[j].job)[st.jobs[j].next])
  }

  function Receive(env: Env, sk: Socket, s: SocketId, r: ReplicaId, c: Copy): Socket {
    if sk.replica == r && sk.leftAt.None? && Reaches(env, c.pub, s, sk.user)
    then sk.(inbox := sk.inbox + [c]) else sk
  }

  function TakeNote(env: Env, sk: Socket, s: SocketId, r: ReplicaId, c: Copy): Socket {
    if sk.replica == r && sk.leftAt.None? && Notifies(env, c.pub, s, sk.user)
    then sk.(notes := sk.notes + [c]) else sk
  }

  // Without a registered Socket.IO server a consumed message is dropped.
  function AfterConsume(env: Env, rep: Replica): Replica
    requires rep.consumed < |rep.order|
  {
    var c := rep.order[rep.consumed];
    rep.(consumed := rep.consumed + 1,
         notify := if rep.ready && Deliver(env, c.pub.key, c.pub.content).later != [] then rep.notify + {c}
                   else rep.notify)
  }

  function Step(env: Env, st: State, e: Event): State
    requires Enabled(env, st, e)
  {
    match e
    case Ready(r) => st.(replicas := st.replicas[r := st.replicas[r].(ready := true)])
    case Join(s, user, r) =>
      st.(sockets := st.sockets[s := Socket(user, r, st.replicas[r].consumed, None, [], [])])
    case Leave(s) =>
      var sk := st.sockets[s];
      if sk.replica in st.replicas then
        st.(sockets := st.sockets[s := sk.(leftAt := Some(st.replicas[sk.replica].consumed))])
      else st
    case Start(j, job) =>
      st.(jobs := st.jobs[j := Progress(job, 0, set s | s in st.sockets && st.sockets[s].leftAt.None?)])
    case Publish(j) =>
      var p := st.jobs[j];
      st.(jobs := st.jobs[j := p.(next := p.next + 1)],
          replicas := map r | r in st.replicas ::
            st.replicas[r].(transit := st.replicas[r].transit + {NextCopy(env, st, j)}))
    case Enqueue(r, c) =>
      var rep := st.replicas[r];
      st.(replicas := st.replicas[r := rep.(transit := rep.transit - {c}, order := rep.order + [c])])
    case Consume(r) =>
      var rep := st.replicas[r];
      var c := rep.order[rep.consumed];
      st.(replicas := st.replicas[r := AfterConsume(env, rep)],
          sockets := if rep.ready then map s | s in st.sockets :: Receive(env, st.sockets[s], s, r, c) else st.sockets)
    case Notify(r, c) =>
      var rep := st.replicas[r];
      st.(replicas := st.replicas[r := rep.(notify := rep.notify - {c})],
          sockets := map s | s in st.sockets :: TakeNote(env, st.sockets[s], s, r, c))
  }

  // A run takes the events that are enabled when they come up.
  function Run(env: Env, st: State, es: seq<Event>): State
    decreases |es|
  {
    if es == [] then st
    else
      var before := Run(env, st, es[..|es| - 1]);
      var e := es[|es| - 1];
      if Enabled(env, before, e) then Step(env, before, e) else before
  }

  // A job starts with all sockets that are connected at that moment, and with nothing published.
  lemma StartsForAllConnected(env: Env, st: State, j: JobId, job: Job, s: SocketId)
    requires Enabled(env, st, Start(j, job))
    ensures var st' := Step(env, st, Start(j, job));
            && j in st'.jobs && st'.jobs[j].job == job && st'.jobs[j].next == 0
            && (s in st'.jobs[j].present <==> s in st.sockets && st.sockets[s].leftAt.None?)
            && st'.replicas == st.replicas && st'.sockets == st.sockets
  {
  }

  // ----- Invariant -----

  predicate Published(env: Env, st: State, c: Copy) {
    && c.job in st.jobs && c.slot < st.jobs[c.job].next
    && c.slot < |Publications(env, st.jobs[c.job].job)|
    && c.pub == Publications(env, st.jobs[c.job].job)[c.slot]
  }

  // Every published copy is in transit or has entered the queue, never both and never twice.
  ghost predicate ReplicaInv(env: Env, st: State, rep: Replica) {
    && rep.consumed <= |rep.order|
    && (forall i, k :: 0 <= i < k < |rep.order| ==> rep.order[i] != rep.order[k])
    && (forall c :: c in rep.transit ==> c !in rep.order)
    && (forall c :: c in rep.transit || c in rep.order <==> Published(env, st, c))
    && (forall c :: c in rep.notify ==> c in rep.order[..rep.consumed])
  }

  function Until(sk: Socket, rep: Replica): nat {
    match sk.leftAt case None => rep.consumed case Some(n) => n
  }

  // A connected socket has been notified, or will be, of every copy consumed since it joined that notifies its user.
  ghost predicate NotesDue(env: Env, s: SocketId, sk: Socket, rep: Replica)
    requires sk.joinedAt <= rep.consumed <= |rep.order|
  {
    sk.leftAt.None? ==>
      forall c :: c in rep.order[sk.joinedAt..rep.consumed] && Notifies(env, c.pub, s, sk.user) ==>
        c in sk.notes || c in rep.notify
  }

  // What a socket has received is exactly the addressed part of what its replica consumed while it was there.
  ghost predicate SocketInv(env: Env, s: SocketId, sk: Socket, rep: Replica) {
    && rep.ready && CleanId(sk.user)
    && sk.joinedAt <= Until(sk, rep) <= rep.consumed <= |rep.order|
    && sk.inbox == Addressed(env, rep.order[sk.joinedAt..Until(sk, rep)], s, sk.user)
    && (forall i, k :: 0 <= i < k < |sk.notes| ==> sk.notes[i] != sk.notes[k])
    && (forall c :: c in sk.notes ==> c in rep.order[..rep.consumed] && c !in rep.notify && Notifies(env, c.pub, s, sk.user))
    && NotesDue(env, s, sk, rep)
  }

  // The copies of a job come after every socket that was connected when it started.
  ghost predicate JobInv(env: Env, st: State, j: JobId, p: Progress) {
    && p.next <= |Publications(env, p.job)|
    && JobOk(st, p.job)
    && (forall s :: s in p.present ==>
          && s in st.sockets && st.sockets[s].replica in st.replicas
          && var rep := st.replicas[st.sockets[s].replica];
             st.sockets[s].joinedAt <= |rep.order|
             && forall c :: c in rep.order[..st.sockets[s].joinedAt] ==> c.job != j)
  }

  ghost predicate Inv(env: Env, st: State) {
    && (forall r :: r in st.replicas ==> ReplicaInv(env, st, st.replicas[r]))
    && (forall s :: s in st.sockets ==> st.sockets[s].replica in st.replicas
                                        && SocketInv(env, s, st.sockets[s], st.replicas[st.sockets[s].replica]))
    && (forall j :: j in st.jobs ==> JobInv(env, st, j, st.jobs[j]))
  }

  lemma AddressedSnoc(env: Env, copies: seq<Copy>, c: Copy, s: SocketId, user: UserId)
    ensures Addressed(env, copies + [c], s, user)
            == Addressed(env, copies, s, user) + if Reaches(env, c.pub, s, user) then [c] else []
  {
    assert (copies + [c])[..|copies|] == copies;
  }

  lemma ConsumeKeepsDue(env: Env, s: SocketId, sk: Socket, rep: Replica)
    requires rep.consumed < |rep.order| && rep.ready && sk.joinedAt <= rep.consumed && NotesDue(env, s, sk, rep)
    ensures NotesDue(env, s, sk, AfterConsume(env, rep))
  {
    hide Deliver;
    var c := rep.order[rep.consumed];
    assert rep.order[sk.joinedAt..rep.consumed + 1] == rep.order[sk.joinedAt..rep.consumed] + [c];
  }

  lemma InboxIsNoMatter(env: Env, s: SocketId, sk: Socket, rep: Replica, inbox: seq<Copy>)
    requires sk.joinedAt <= rep.consumed <= |rep.order| && NotesDue(env, s, sk, rep)
    ensures NotesDue(env, s, sk.(inbox := inbox), rep)
  {
    hide Deliver;
  }

  lemma ConsumeKeepsSocket(env: Env, s: SocketId, sk: Socket, rep: Replica, r: ReplicaId)
    requires sk.replica == r && rep.consumed < |rep.order| && SocketInv(env, s, sk, rep)
    requires forall i, k :: 0 <= i < k < |rep.order| ==> rep.order[i] != rep.order[k]
    ensures SocketInv(env, s, Receive(env, sk, s, r, rep.order[rep.consumed]), AfterConsume(env, rep))
  {
    hide Deliver, NotesDue, Reaches, Notifies, Addressed;
    var c := rep.order[rep.consumed];
    var after := AfterConsume(env, rep);
    ConsumeKeepsDue(env, s, sk, rep);
    InboxIsNoMatter(env, s, sk, after, Receive(env, sk, s, r, c).inbox);
    assert after.order[..after.consumed] == rep.order[..rep.consumed] + [c];
    assert c !in rep.order[..rep.consumed];
    if sk.leftAt.None? {
      assert rep.order[sk.joinedAt..rep.consumed + 1] == rep.order[sk.joinedAt..rep.consumed] + [c];
      AddressedSnoc(env, rep.order[sk.joinedAt..rep.consumed], c, s, sk.user);
    }
  }

  // What no step takes back: sockets stay on record with their user, replica and joining point, and queues only grow.
  ghost predicate Grown(st: State, st': State) {
    && st.replicas.Keys == st'.replicas.Keys
    && (forall r :: r in st.replicas ==> st.replicas[r].order <= st'.replicas[r].order)
    && (forall s :: s in st.sockets ==>
          && s in st'.sockets
          && st'.sockets[s].user == st.sockets[s].user
          && st'.sockets[s].replica == st.sockets[s].replica
          && st'.sockets[s].joinedAt == st.sockets[s].joinedAt)
  }

  lemma JobInvGrows(env: Env, st: State, st': State, j: JobId, p: Progress)
    requires JobInv(env, st, j, p) && Grown(st, st')
    ensures JobInv(env, st', j, p)
  {
    forall s | s in p.present
      ensures && s in st'.sockets && st'.sockets[s].replica in st'.replicas
              && st'.sockets[s].joinedAt <= |st'.replicas[st'.sockets[s].replica].order|
              && forall c :: c in st'.replicas[st'.sockets[s].replica].order[..st'.sockets[s].joinedAt] ==> c.job != j
    {
      var r, n := st.sockets[s].replica, st.sockets[s].joinedAt;
      assert st'.replicas[r].order[..n] == st.replicas[r].order[..n];
    }
  }

  lemma AllJobInvsGrow(env: Env, st: State, st': State)
    requires Inv(env, st) && Grown(st, st') && st'.jobs == st.jobs
    ensures forall j :: j in st'.jobs ==> JobInv(env, st', j, st'.jobs[j])
  {
    forall j | j in st'.jobs ensures JobInv(env, st', j, st'.jobs[j]) {
      JobInvGrows(env, st, st', j, st.jobs[j]);
    }
  }

  // Replicas that a step leaves alone keep their invariant when the published copies are the same.
  lemma ReplicaInvFrame(env: Env, st: State, st': State, rep: Replica)
    requires ReplicaInv(env, st, rep) && st'.jobs == st.jobs
    ensures ReplicaInv(env, st', rep)
  {
    assert forall c :: Published(env, st', c) <==> Published(env, st, c);
  }

  lemma StepGrows(env: Env, st: State, e: Event)
    requires Enabled(env, st, e)
    ensures Grown(st, Step(env, st, e))
  {
    hide Deliver;
  }

  // The parts of the invariant put together, for a step that starts and publishes nothing.
  lemma Assemble(env: Env, st: State, e: Event)
    requires Inv(env, st) && Enabled(env, st, e) && Step(env, st, e).jobs == st.jobs
    requires var st' := Step(env, st, e);
             && (forall q :: q in st'.replicas ==> ReplicaInv(env, st', st'.replicas[q]))
             && forall s :: s in st'.sockets ==>
                  st'.sockets[s].replica in st'.replicas
                  && SocketInv(env, s, st'.sockets[s], st'.replicas[st'.sockets[s].replica])
    ensures Inv(env, Step(env, st, e))
  {
    hide Deliver, ReplicaInv, SocketInv, Step, Enabled;
    StepGrows(env, st, e);
    AllJobInvsGrow(env, st, Step(env, st, e));
  }

  lemma ReadyKeepsInv(env: Env, st: State, r: ReplicaId)
    requires Inv(env, st) && r in st.replicas
    ensures Inv(env, Step(env, st, Ready(r)))
  {
    var st' := Step(env, st, Ready(r));
    forall q | q in st'.replicas ensures ReplicaInv(env, st', st'.replicas[q]) {
      ReplicaInvFrame(env, st, st', st.replicas[q]);
    }
    forall s | s in st'.sockets
      ensures SocketInv(env, s, st'.sockets[s], st'.replicas[st'.sockets[s].replica])
    {
      assert SocketInv(env, s, st.sockets[s], st.replicas[st.sockets[s].replica]);
    }
    AllJobInvsGrow(env, st, st');
  }

  lemma JoinKeepsInv(env: Env, st: State, s: SocketId, user: UserId, r: ReplicaId)
    requires Inv(env, st) && Enabled(env, st, Join(s, user, r))
    ensures Inv(env, Step(env, st, Join(s, user, r)))
  {
    var st' := Step(env, st, Join(s, user, r));
    forall q | q in st'.replicas ensures ReplicaInv(env, st', st'.replicas[q]) {
      ReplicaInvFrame(env, st, st', st.replicas[q]);
    }
    AllJobInvsGrow(env, st, st');
    var rep := st.replicas[r];
    assert ReplicaInv(env, st, rep);
    assert rep.order[rep.consumed..rep.consumed] == [];
    assert SocketInv(env, s, st'.sockets[s], rep);
  }

  lemma LeaveKeepsInv(env: Env, st: State, s: SocketId)
    requires Inv(env, st) && Enabled(env, st, Leave(s))
    ensures Inv(env, Step(env, st, Leave(s)))
  {
    hide Deliver;
    var st' := Step(env, st, Leave(s));
    assert SocketInv(env, s, st.sockets[s], st.replicas[st.sockets[s].replica]);
    forall q | q in st'.replicas ensures ReplicaInv(env, st', st'.replicas[q]) {
      ReplicaInvFrame(env, st, st', st.replicas[q]);
    }
    Assemble(env, st, Leave(s));
  }

  // A job that starts finds none of its copies in any queue.
  lemma StartedAfterPresent(env: Env, st: State, j: JobId, s: SocketId)
    requires Inv(env, st) && j !in st.jobs && s in st.sockets
    ensures var rep := st.replicas[st.sockets[s].replica];
            && st.sockets[s].joinedAt <= |rep.order|
            && forall c :: c in rep.order[..st.sockets[s].joinedAt] ==> c.job != j
  {
    var rep := st.replicas[st.sockets[s].replica];
    assert SocketInv(env, s, st.sockets[s], rep);
    assert ReplicaInv(env, st, rep);
    forall c | c in rep.order[..st.sockets[s].joinedAt] ensures c.job != j {
      assert c in rep.order;
      assert Published(env, st, c);
    }
  }

  lemma StartKeepsInv(env: Env, st: State, j: JobId, job: Job)
    requires Inv(env, st) && Enabled(env, st, Start(j, job))
    ensures Inv(env, Step(env, st, Start(j, job)))
  {
    var st' := Step(env, st, Start(j, job));
    forall q | q in st'.replicas ensures ReplicaInv(env, st', st'.replicas[q]) {
      assert ReplicaInv(env, st, st.replicas[q]);
      assert forall c :: Published(env, st', c) <==> Published(env, st, c);
    }
    forall s | s in st'.jobs[j].present
      ensures var rep := st.replicas[st.sockets[s].replica];
              && st.sockets[s].joinedAt <= |rep.order|
              && forall c :: c in rep.order[..st.sockets[s].joinedAt] ==> c.job != j
    {
      StartedAfterPresent(env, st, j, s);
    }
    forall i | i in st'.jobs ensures JobInv(env, st', i, st'.jobs[i]) {
      if i != j { JobInvGrows(env, st, st', i, st.jobs[i]); }
    }
  }

  lemma PublishKeepsReplica(env: Env, st: State, st': State, rep: Replica, c: Copy)
    requires ReplicaInv(env, st, rep) && !Published(env, st, c)
    requires forall d :: Published(env, st', d) <==> Published(env, st, d) || d == c
    ensures ReplicaInv(env, st', rep.(transit := rep.transit + {c}))
  {
    assert c !in rep.order;
  }

  lemma PublishAddsOne(env: Env, st: State, j: JobId, d: Copy)
    requires Enabled(env, st, Publish(j))
    ensures Published(env, Step(env, st, Publish(j)), d) <==> Published(env, st, d) || d == NextCopy(env, st, j)
    ensures !Published(env, st, NextCopy(env, st, j))
  {
  }

  lemma PublishedAfter(env: Env, st: State, j: JobId)
    requires Enabled(env, st, Publish(j))
    ensures forall d: Copy ::
              Published(env, Step(env, st, Publish(j)), d) <==> Published(env, st, d) || d == NextCopy(env, st, j)
    ensures !Published(env, st, NextCopy(env, st, j))
  {
    PublishAddsOne(env, st, j, NextCopy(env, st, j));
    forall d: Copy
      ensures Published(env, Step(env, st, Publish(j)), d) <==> Published(env, st, d) || d == NextCopy(env, st, j)
    {
      PublishAddsOne(env, st, j, d);
    }
  }

  lemma TransitIsNoMatter(env: Env, s: SocketId, sk: Socket, rep: Replica, transit: set<Copy>)
    requires SocketInv(env, s, sk, rep)
    ensures SocketInv(env, s, sk, rep.(transit := transit))
  {
    hide Deliver;
  }

  lemma PublishKeepsJob(env: Env, st: State, j: JobId, i: JobId)
    requires Inv(env, st) && Enabled(env, st, Publish(j)) && i in st.jobs
    ensures var st' := Step(env, st, Publish(j)); i in st'.jobs && JobInv(env, st', i, st'.jobs[i])
  {
    hide Deliver, ReplicaInv, SocketInv, RecipientPub, EchoPub, ReceiptPub;
    StepGrows(env, st, Publish(j));
    JobInvGrows(env, st, Step(env, st, Publish(j)), i, st.jobs[i]);
  }

  lemma PublishKeepsInv(env: Env, st: State, j: JobId)
    requires Inv(env, st) && Enabled(env, st, Publish(j))
    ensures Inv(env, Step(env, st, Publish(j)))
  {
    hide Deliver, ReplicaInv, SocketInv, JobInv, Published;
    var st' := Step(env, st, Publish(j));
    var c := NextCopy(env, st, j);
    PublishedAfter(env, st, j);
    forall q | q in st'.replicas ensures ReplicaInv(env, st', st'.replicas[q]) {
      PublishKeepsReplica(env, st, st', st.replicas[q], c);
    }
    forall s | s in st'.sockets
      ensures SocketInv(env, s, st'.sockets[s], st'.replicas[st'.sockets[s].replica])
    {
      var rep := st.replicas[st.sockets[s].replica];
      TransitIsNoMatter(env, s, st.sockets[s], rep, rep.transit + {c});
    }
    forall i | i in st'.jobs ensures JobInv(env, st', i, st'.jobs[i]) {
      PublishKeepsJob(env, st, j, i);
    }
  }

  lemma EnqueueKeepsReplica(env: Env, st: State, rep: Replica, c: Copy)
    requires ReplicaInv(env, st, rep) && c in rep.transit
    ensures ReplicaInv(env, st, rep.(transit := rep.transit - {c}, order := rep.order + [c]))
  {
    assert (rep.order + [c])[..rep.consumed] == rep.order[..rep.consumed];
  }

  lemma EnqueueKeepsSocket(env: Env, s: SocketId, sk: Socket, rep: Replica, c: Copy)
    requires SocketInv(env, s, sk, rep)
    ensures SocketInv(env, s, sk, rep.(transit := rep.transit - {c}, order := rep.order + [c]))
  {
    assert (rep.order + [c])[..rep.consumed] == rep.order[..rep.consumed];
    assert (rep.order + [c])[sk.joinedAt..Until(sk, rep)] == rep.order[sk.joinedAt..Until(sk, rep)];
  }

  lemma EnqueueKeepsInv(env: Env, st: State, r: ReplicaId, c: Copy)
    requires Inv(env, st) && Enabled(env, st, Enqueue(r, c))
    ensures Inv(env, Step(env, st, Enqueue(r, c)))
  {
    hide Deliver, ReplicaInv, SocketInv, JobInv;
    var st' := Step(env, st, Enqueue(r, c));
    EnqueueKeepsReplica(env, st, st.replicas[r], c);
    forall q | q in st'.replicas ensures ReplicaInv(env, st', st'.replicas[q]) {
      ReplicaInvFrame(env, st, st', st'.replicas[q]);
    }
    forall s | s in st'.sockets
      ensures SocketInv(env, s, st'.sockets[s], st'.replicas[st'.sockets[s].replica])
    {
      EnqueueKeepsSocket(env, s, st.sockets[s], st.replicas[st.sockets[s].replica], c);
    }
    Assemble(env, st, Enqueue(r, c));
  }

  lemma ConsumeKeepsReplica(env: Env, st: State, rep: Replica)
    requires ReplicaInv(env, st, rep) && rep.consumed < |rep.order|
    ensures ReplicaInv(env, st, AfterConsume(env, rep))
  {
    var c := rep.order[rep.consumed];
    assert rep.order[..rep.consumed + 1] == rep.order[..rep.consumed] + [c];
  }

  lemma ConsumeKeepsItsSockets(env: Env, st: State, r: ReplicaId, s: SocketId)
    requires Inv(env, st) && Enabled(env, st, Consume(r)) && s in st.sockets
    ensures var st' := Step(env, st, Consume(r));
            st'.sockets[s].replica in st'.replicas
            && SocketInv(env, s, st'.sockets[s], st'.replicas[st'.sockets[s].replica])
  {
    hide Deliver;
    var sk := st.sockets[s];
    assert SocketInv(env, s, sk, st.replicas[sk.replica]);
    if sk.replica == r {
      assert ReplicaInv(env, st, st.replicas[r]);
      ConsumeKeepsSocket(env, s, sk, st.replicas[r], r);
    }
  }

  lemma ConsumeKeepsInv(env: Env, st: State, r: ReplicaId)
    requires Inv(env, st) && Enabled(env, st, Consume(r))
    ensures Inv(env, Step(env, st, Consume(r)))
  {
    hide Deliver, ReplicaInv, SocketInv, JobInv;
    var st' := Step(env, st, Consume(r));
    ConsumeKeepsReplica(env, st, st.replicas[r]);
    forall q | q in st'.replicas ensures ReplicaInv(env, st', st'.replicas[q]) {
      ReplicaInvFrame(env, st, st', st'.replicas[q]);
    }
    forall s | s in st'.sockets
      ensures st'.sockets[s].replica in st'.replicas
              && SocketInv(env, s, st'.sockets[s], st'.replicas[st'.sockets[s].replica])
    {
      ConsumeKeepsItsSockets(env, st, r, s);
    }
    Assemble(env, st, Consume(r));
  }

  lemma NotifyKeepsSocket(env: Env, s: SocketId, sk: Socket, rep: Replica, r: ReplicaId, c: Copy)
    requires sk.replica == r && SocketInv(env, s, sk, rep)
    requires c in rep.notify && c in rep.order[..rep.consumed]
    ensures SocketInv(env, s, TakeNote(env, sk, s, r, c), rep.(notify := rep.notify - {c}))
  {
    assert c !in sk.notes;
  }

  lemma NotifyKeepsItsSockets(env: Env, st: State, r: ReplicaId, c: Copy, s: SocketId)
    requires Inv(env, st) && Enabled(env, st, Notify(r, c)) && s in st.sockets
    ensures var st' := Step(env, st, Notify(r, c));
            st'.sockets[s].replica in st'.replicas
            && SocketInv(env, s, st'.sockets[s], st'.replicas[st'.sockets[s].replica])
  {
    hide Deliver;
    var sk := st.sockets[s];
    assert SocketInv(env, s, sk, st.replicas[sk.replica]);
    if sk.replica == r {
      assert ReplicaInv(env, st, st.replicas[r]);
      NotifyKeepsSocket(env, s, sk, st.replicas[r], r, c);
    }
  }

  lemma NotifyKeepsReplica(env: Env, st: State, rep: Replica, c: Copy)
    requires ReplicaInv(env, st, rep)
    ensures ReplicaInv(env, st, rep.(notify := rep.notify - {c}))
  {
  }

  lemma NotifyKeepsInv(env: Env, st: State, r: ReplicaId, c: Copy)
    requires Inv(env, st) && Enabled(env, st, Notify(r, c))
    ensures Inv(env, Step(env, st, Notify(r, c)))
  {
    hide Deliver, ReplicaInv, SocketInv, JobInv;
    var st' := Step(env, st, Notify(r, c));
    NotifyKeepsReplica(env, st, st.replicas[r], c);
    forall q | q in st'.replicas ensures ReplicaInv(env, st', st'.replicas[q]) {
      ReplicaInvFrame(env, st, st', st'.replicas[q]);
    }
    forall s | s in st'.sockets
      ensures st'.sockets[s].replica in st'.replicas
              && SocketInv(env, s, st'.sockets[s], st'.replicas[st'.sockets[s].replica])
    {
      NotifyKeepsItsSockets(env, st, r, c, s);
    }
    Assemble(env, st, Notify(r, c));
  }

  lemma StepKeepsInv(env: Env, st: State, e: Event)
    requires Inv(env, st) && Enabled(env, st, e)
    ensures Inv(env, Step(env, st, e))
  {
    match e
    case Ready(r) => ReadyKeepsInv(env, st, r);
    case Join(s, user, r) => JoinKeepsInv(env, st, s, user, r);
    case Leave(s) => LeaveKeepsInv(env, st, s);
    case Start(j, job) => StartKeepsInv(env, st, j, job);
    case Publish(j) => PublishKeepsInv(env, st, j);
    case Enqueue(r, c) => EnqueueKeepsInv(env, st, r, c);
    case Consume(r) => ConsumeKeepsInv(env, st, r);
    case Notify(r, c) => NotifyKeepsInv(env, st, r, c);
  }

  lemma {:induction false} RunKeepsInv(env: Env, replicas: set<ReplicaId>, es: seq<Event>)
    ensures Inv(env, Run(env, Init(replicas), es))
  {
    if es != [] {
      var front := es[..|es| - 1];
      RunKeepsInv(env, replicas, front);
      var before := Run(env, Init(replicas), front);
      if Enabled(env, before, es[|es| - 1]) { StepKeepsInv(env, before, es[|es| - 1]); }
    } else {
      forall r | r in replicas ensures ReplicaInv(env, Init(replicas), Init(replicas).replicas[r]) { }
    }
  }
}
