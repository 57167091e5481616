// What the fan-out protocol promises, over every run from the empty system.

module FanoutResults {
  import opened Text
  import opened Json
  import opened Messages
  import opened RoutingKeys
  import opened BrokerPayload
  import opened Fanout
  import ClientMessage

  // The deliveries of one job among those of a socket.
  function Deliveries(inbox: seq<Copy>, j: JobId): seq<Copy> {
    if inbox == [] then []
    else (if inbox[0].job == j then [inbox[0]] else []) + Deliveries(inbox[1..], j)
  }

  ghost predicate Distinct<T>(xs: seq<T>) {
    forall i, k :: 0 <= i < k < |xs| ==> xs[i] != xs[k]
  }

  // A replica with nothing in transit and nothing queued.
  predicate Drained(rep: Replica) {
    rep.transit == {} && rep.consumed == |rep.order|
  }

  // The socket was there when the job started, still is, and its replica has caught up with the finished job.
  predicate Settled(env: Env, st: State, s: SocketId, j: JobId)
    requires s in st.sockets && j in st.jobs
  {
    var sk := st.sockets[s];
    && s in st.jobs[j].present && sk.leftAt.None?
    && st.jobs[j].next == |Publications(env, st.jobs[j].job)|
    && sk.replica in st.replicas && Drained(st.replicas[sk.replica])
  }

  // The publications of a job that are addressed to a socket.
  function Wanted(env: Env, job: Job, s: SocketId, user: UserId): set<nat> {
    set i: nat | i < |Publications(env, job)| && Reaches(env, Publications(env, job)[i], s, user)
  }

  // ----- Lemmas about sequences of copies -----

  lemma {:induction false} AddressedMembers(env: Env, copies: seq<Copy>, s: SocketId, user: UserId)
    ensures forall c :: c in Addressed(env, copies, s, user) <==> c in copies && Reaches(env, c.pub, s, user)
  {
    if copies != [] {
      var front, last := copies[..|copies| - 1], copies[|copies| - 1];
      AddressedMembers(env, front, s, user);
      assert copies == front + [last];
    }
  }

  lemma {:induction false} AddressedDistinct(env: Env, copies: seq<Copy>, s: SocketId, user: UserId)
    requires Distinct(copies)
    ensures Distinct(Addressed(env, copies, s, user))
  {
    if copies != [] {
      var front := copies[..|copies| - 1];
      AddressedDistinct(env, front, s, user);
      AddressedMembers(env, front, s, user);
    }
  }

  lemma {:induction false} DeliveriesMembers(inbox: seq<Copy>, j: JobId)
    ensures forall c :: c in Deliveries(inbox, j) <==> c in inbox && c.job == j
  {
    if inbox != [] {
      DeliveriesMembers(inbox[1..], j);
      assert inbox == [inbox[0]] + inbox[1..];
    }
  }

  lemma {:induction false} DeliveriesDistinct(inbox: seq<Copy>, j: JobId)
    requires Distinct(inbox)
    ensures Distinct(Deliveries(inbox, j))
  {
    if inbox != [] {
      DeliveriesDistinct(inbox[1..], j);
      DeliveriesMembers(inbox[1..], j);
    }
  }

  function SlotsOf(ds: seq<Copy>): set<nat> {
    set c | c in ds :: c.slot
  }

  // Distinct copies of one job have distinct slots, so counting copies is counting slots.
  lemma {:induction false} CountSlots(env: Env, ds: seq<Copy>, j: JobId, pubs: seq<Pub>)
    requires Distinct(ds)
    requires forall c :: c in ds ==> c.job == j && c.slot < |pubs| && c.pub == pubs[c.slot]
    ensures |SlotsOf(ds)| == |ds|
  {
    if ds == [] {
      assert SlotsOf(ds) == {};
    } else {
      var rest := ds[1..];
      assert ds == [ds[0]] + rest;
      CountSlots(env, rest, j, pubs);
      assert SlotsOf(ds) == SlotsOf(rest) + {ds[0].slot};
      assert ds[0] !in rest;
    }
  }

  lemma SubsetSize<T>(a: set<T>, b: set<T>)
    requires a <= b
    ensures |a| <= |b|
  {
    assert |b| == |a| + |b - a| by { assert b == a + (b - a); }
  }

  // ----- The main counting theorem -----

  // Everything a socket receives is a distinct published copy addressed to it.
  lemma InboxFacts(env: Env, st: State, s: SocketId)
    requires Inv(env, st) && s in st.sockets
    ensures var sk := st.sockets[s];
            && Distinct(sk.inbox)
            && forall c :: c in sk.inbox ==> Published(env, st, c) && Reaches(env, c.pub, s, sk.user)
  {
    var sk := st.sockets[s];
    var rep := st.replicas[sk.replica];
    assert SocketInv(env, s, sk, rep) && ReplicaInv(env, st, rep);
    var part := rep.order[sk.joinedAt..Until(sk, rep)];
    AddressedMembers(env, part, s, sk.user);
    AddressedDistinct(env, part, s, sk.user);
    forall c | c in sk.inbox ensures Published(env, st, c) && Reaches(env, c.pub, s, sk.user) {
      assert c in part && c in rep.order;
    }
  }

  lemma DeliveredSlotsAreWanted(env: Env, st: State, s: SocketId, j: JobId)
    requires Inv(env, st) && s in st.sockets && j in st.jobs
    ensures var sk := st.sockets[s];
            var ds := Deliveries(sk.inbox, j);
            |SlotsOf(ds)| == |ds| && SlotsOf(ds) <= Wanted(env, st.jobs[j].job, s, sk.user)
  {
    var sk := st.sockets[s];
    InboxFacts(env, st, s);
    DeliveriesMembers(sk.inbox, j);
    DeliveriesDistinct(sk.inbox, j);
    CountSlots(env, Deliveries(sk.inbox, j), j, Publications(env, st.jobs[j].job));
  }

  lemma PastTheJoin(order: seq<Copy>, n: nat, c: Copy)
    requires n <= |order| && c in order && c !in order[..n]
    ensures c in order[n..]
  {
    assert order == order[..n] + order[n..];
  }

  lemma WantedSlotsAreDelivered(env: Env, st: State, s: SocketId, j: JobId)
    requires Inv(env, st) && s in st.sockets && j in st.jobs && Settled(env, st, s, j)
    ensures var sk := st.sockets[s];
            Wanted(env, st.jobs[j].job, s, sk.user) <= SlotsOf(Deliveries(sk.inbox, j))
  {
    var sk := st.sockets[s];
    forall i | i in Wanted(env, st.jobs[j].job, s, sk.user)
      ensures i in SlotsOf(Deliveries(sk.inbox, j))
    {
      var c := Copy(j, i, Publications(env, st.jobs[j].job)[i]);
      PublishedIsDelivered(env, st, s, c);
      DeliveriesMembers(sk.inbox, j);
    }
  }

  // A settled replica has consumed every copy of the job after the socket joined.
  lemma SettledIsConsumed(env: Env, st: State, s: SocketId, c: Copy)
    requires Inv(env, st) && s in st.sockets && c.job in st.jobs && Settled(env, st, s, c.job)
    requires Published(env, st, c)
    ensures var sk := st.sockets[s];
            var rep := st.replicas[sk.replica];
            sk.joinedAt <= rep.consumed && c in rep.order[sk.joinedAt..rep.consumed]
  {
    hide Deliver, Reaches, Notifies, NotesDue, Addressed, Published, JobOk, Publications;
    var sk := st.sockets[s];
    var rep := st.replicas[sk.replica];
    assert ReplicaInv(env, st, rep);
    assert c in rep.order;
    assert JobInv(env, st, c.job, st.jobs[c.job]);
    assert c !in rep.order[..sk.joinedAt];
    PastTheJoin(rep.order, sk.joinedAt, c);
    assert rep.order[sk.joinedAt..] == rep.order[sk.joinedAt..rep.consumed];
  }

  lemma PublishedIsDelivered(env: Env, st: State, s: SocketId, c: Copy)
    requires Inv(env, st) && s in st.sockets && c.job in st.jobs && Settled(env, st, s, c.job)
    requires Published(env, st, c) && Reaches(env, c.pub, s, st.sockets[s].user)
    ensures c in st.sockets[s].inbox
  {
    hide Deliver;
    var sk := st.sockets[s];
    var rep := st.replicas[sk.replica];
    SettledIsConsumed(env, st, s, c);
    assert SocketInv(env, s, sk, rep);
    AddressedMembers(env, rep.order[sk.joinedAt..rep.consumed], s, sk.user);
  }

  // Over every run: a socket gets at most one delivery per publication addressed to it,
  // and exactly one once everything has settled.
  lemma DeliveryCount(env: Env, replicas: set<ReplicaId>, es: seq<Event>, s: SocketId, j: JobId)
    ensures var st := Run(env, Init(replicas), es);
            s in st.sockets && j in st.jobs ==>
              var sk := st.sockets[s];
              var n := |Deliveries(sk.inbox, j)|;
              var wanted := |Wanted(env, st.jobs[j].job, s, sk.user)|;
              n <= wanted && (Settled(env, st, s, j) ==> n == wanted)
  {
    RunKeepsInv(env, replicas, es);
    var st := Run(env, Init(replicas), es);
    if s in st.sockets && j in st.jobs {
      var sk := st.sockets[s];
      var slots := SlotsOf(Deliveries(sk.inbox, j));
      var wanted := Wanted(env, st.jobs[j].job, s, sk.user);
      DeliveredSlotsAreWanted(env, st, s, j);
      SubsetSize(slots, wanted);
      if Settled(env, st, s, j) {
        WantedSlotsAreDelivered(env, st, s, j);
        assert slots == wanted;
      }
    }
  }

  // As long as a socket of a running job has not been served, some publish, copy or consumption can go on: only the
  // schedule keeps it waiting.
  lemma NoneIsStranded(env: Env, replicas: set<ReplicaId>, es: seq<Event>, s: SocketId, j: JobId)
    ensures var st := Run(env, Init(replicas), es);
            s in st.sockets && j in st.jobs && s in st.jobs[j].present && st.sockets[s].leftAt.None?
            && !Settled(env, st, s, j) ==>
              exists e :: Enabled(env, st, e) && (e.Publish? || e.Enqueue? || e.Consume?)
  {
    RunKeepsInv(env, replicas, es);
    var st := Run(env, Init(replicas), es);
    if s in st.sockets && j in st.jobs && s in st.jobs[j].present && st.sockets[s].leftAt.None? && !Settled(env, st, s, j) {
      assert JobInv(env, st, j, st.jobs[j]);
      var r := st.sockets[s].replica;
      assert ReplicaInv(env, st, st.replicas[r]);
      if st.jobs[j].next < |Publications(env, st.jobs[j].job)| {
        assert Enabled(env, st, Publish(j));
      } else if st.replicas[r].transit != {} {
        var c :| c in st.replicas[r].transit;
        assert Enabled(env, st, Enqueue(r, c));
      } else {
        assert Enabled(env, st, Consume(r));
      }
    }
  }

  // ----- Sends -----

  lemma RoomsApart(u: UserId, v: UserId)
    ensures UserRoom(u) == UserRoom(v) <==> u == v
  {
    assert UserRoom(u)[5..] == u && UserRoom(v)[5..] == v;
  }

  predicate IsParty(job: Job, user: UserId)
    requires job.SendJob?
  {
    user == job.recipient || user == job.doc.senderId
  }

  lemma WantedOfSend(env: Env, st: State, job: Job, s: SocketId, user: UserId)
    requires Faithful(env.codec) && job.SendJob? && JobOk(st, job)
    requires s in st.sockets && st.sockets[s].user == user
    ensures |Wanted(env, job, s, user)| == if IsParty(job, user) && job.origin != Some(s) then 1 else 0
    ensures forall i :: i in Wanted(env, job, s, user) ==>
              var p := Publications(env, job)[i];
              var e := Deliver(env, p.key, p.content).now[0];
              e.event == "message:new" && e.body == ToApi(job.doc, env.iso)
  {
    var sender := job.doc.senderId;
    var pubs := Publications(env, job);
    RecipientCopyDelivers(env, job.recipient, job.doc);
    EchoDelivers(env, job.doc, job.origin);
    RoomsApart(user, job.recipient);
    RoomsApart(user, sender);
    assert Reaches(env, pubs[0], s, user) <==> user == job.recipient;
    assert Reaches(env, pubs[1], s, user) <==> user == sender && job.origin != Some(s);
    assert Wanted(env, job, s, user) ==
      if user == job.recipient then {0} else if user == sender && job.origin != Some(s) then {1} else {};
  }

  // No socket gets a message twice, the origin socket never gets its own, nobody else gets it at all, and when
  // all has settled every other socket of the two users has it exactly once. What a client reads off it is the stored
  // message, field by field.
  lemma SendIsExactlyOnce(env: Env, replicas: set<ReplicaId>, es: seq<Event>, s: SocketId, j: JobId)
    requires Faithful(env.codec)
    ensures var st := Run(env, Init(replicas), es);
            s in st.sockets && j in st.jobs && st.jobs[j].job.SendJob? ==>
              var sk, job := st.sockets[s], st.jobs[j].job;
              var ds := Deliveries(sk.inbox, j);
              && |ds| <= 1
              && (job.origin == Some(s) || !IsParty(job, sk.user) ==> |ds| == 0)
              && (Settled(env, st, s, j) && IsParty(job, sk.user) && job.origin != Some(s) ==> |ds| == 1)
              && forall c :: c in ds ==>
                   var e := Deliver(env, c.pub.key, c.pub.content).now;
                   && |e| > 0 && e[0].event == "message:new" && e[0].body == ToApi(job.doc, env.iso)
                   && ClientMessage.Carries(e[0].body, job.doc, env.iso(job.doc.createdAt))
  {
    RunKeepsInv(env, replicas, es);
    var st := Run(env, Init(replicas), es);
    if s in st.sockets && j in st.jobs && st.jobs[j].job.SendJob? {
      var sk, job := st.sockets[s], st.jobs[j].job;
      assert JobInv(env, st, j, st.jobs[j]);
      DeliveryCount(env, replicas, es, s, j);
      WantedOfSend(env, st, job, s, sk.user);
      InboxFacts(env, st, s);
      DeliveriesMembers(sk.inbox, j);
      DeliveredSlotsAreWanted(env, st, s, j);
      ClientMessage.ReadsAsStored(job.doc, env.iso);
    }
  }

  // ----- Receipts -----

  function Occurrences(users: seq<UserId>, u: UserId): set<nat> {
    set i: nat | i < |users| && users[i] == u
  }

  lemma {:induction false} OccurrencesCount(users: seq<UserId>, u: UserId)
    ensures |Occurrences(users, u)| == multiset(users)[u]
  {
    if users == [] {
      assert Occurrences(users, u) == {};
    } else {
      var n := |users| - 1;
      OccurrencesCount(users[..n], u);
      assert users == users[..n] + [users[n]];
      assert Occurrences(users, u) == Occurrences(users[..n], u) + if users[n] == u then {n} else {};
    }
  }

  lemma WantedOfReceipt(env: Env, st: State, job: Job, s: SocketId, user: UserId)
    requires Faithful(env.codec) && job.ReceiptJob? && JobOk(st, job)
    ensures Wanted(env, job, s, user) ==
            if user == job.actor && job.origin == Some(s) then {} else Occurrences(job.participants, user)
  {
    var pubs := Publications(env, job);
    forall i: nat | i < |pubs|
      ensures Reaches(env, pubs[i], s, user) <==>
              job.participants[i] == user && !(user == job.actor && job.origin == Some(s))
    {
      ReceiptDelivers(env, job.participants[i], job.actor, job.event, job.data, job.origin);
      RoomsApart(user, job.participants[i]);
    }
  }

  // A receipt reaches a socket as often as its user is listed as a participant - once for the two participants of a
  // direct conversation - except the socket it came from, which gets none.
  lemma ReceiptIsExactlyOncePerListing(env: Env, replicas: set<ReplicaId>, es: seq<Event>, s: SocketId, j: JobId)
    requires Faithful(env.codec)
    ensures var st := Run(env, Init(replicas), es);
            s in st.sockets && j in st.jobs && st.jobs[j].job.ReceiptJob? ==>
              var sk, job := st.sockets[s], st.jobs[j].job;
              var n := |Deliveries(sk.inbox, j)|;
              var own := sk.user == job.actor && job.origin == Some(s);
              && n <= multiset(job.participants)[sk.user]
              && (own ==> n == 0)
              && (Settled(env, st, s, j) && !own ==> n == multiset(job.participants)[sk.user])
              && forall c :: c in Deliveries(sk.inbox, j) ==>
                   var e := Deliver(env, c.pub.key, c.pub.content).now;
                   |e| > 0 && e[0].event == job.event && SaysReceipt(e[0].body, job.data)
  {
    RunKeepsInv(env, replicas, es);
    var st := Run(env, Init(replicas), es);
    if s in st.sockets && j in st.jobs && st.jobs[j].job.ReceiptJob? {
      var sk, job := st.sockets[s], st.jobs[j].job;
      assert JobInv(env, st, j, st.jobs[j]);
      DeliveryCount(env, replicas, es, s, j);
      WantedOfReceipt(env, st, job, s, sk.user);
      OccurrencesCount(job.participants, sk.user);
      forall c | c in Deliveries(sk.inbox, j)
        ensures var e := Deliver(env, c.pub.key, c.pub.content).now;
                |e| > 0 && e[0].event == job.event && SaysReceipt(e[0].body, job.data)
      {
        ReceiptContent(env, st, s, j, c);
      }
    }
  }

  // What a receipt tells: which message of which conversation, whose receipt, and when.
  predicate SaysReceipt(body: Json, data: ReceiptData) {
    && StringField(body, "messageId") == Some(data.messageId)
    && StringField(body, "conversationId") == Some(data.conversationId)
    && StringField(body, "userId") == Some(data.userId) && StringField(body, "at") == Some(data.at)
  }

  lemma ReceiptContent(env: Env, st: State, s: SocketId, j: JobId, c: Copy)
    requires Faithful(env.codec) && Inv(env, st) && s in st.sockets && j in st.jobs && st.jobs[j].job.ReceiptJob?
    requires c in Deliveries(st.sockets[s].inbox, j)
    ensures var job := st.jobs[j].job;
            var e := Deliver(env, c.pub.key, c.pub.content).now;
            |e| > 0 && e[0].event == job.event && SaysReceipt(e[0].body, job.data)
  {
    hide Deliver, Reaches, Notifies, Addressed;
    var job := st.jobs[j].job;
    InboxFacts(env, st, s);
    DeliveriesMembers(st.sockets[s].inbox, j);
    assert JobInv(env, st, j, st.jobs[j]);
    var p := job.participants[c.slot];
    ReceiptDelivers(env, p, job.actor, job.event, job.data, job.origin);
    DataFields(job.data);
  }

  // ----- Order and notifications -----

  // A socket sees its messages in the order of its replica's queue: the inbox is the addressed part of the stretch
  // of the queue that was consumed while the socket was connected.
  lemma InboxInQueueOrder(env: Env, replicas: set<ReplicaId>, es: seq<Event>, s: SocketId)
    ensures var st := Run(env, Init(replicas), es);
            s in st.sockets ==>
              var sk := st.sockets[s];
              sk.replica in st.replicas &&
              var rep := st.replicas[sk.replica];
              && sk.joinedAt <= Until(sk, rep) <= rep.consumed <= |rep.order|
              && sk.inbox == Addressed(env, rep.order[sk.joinedAt..Until(sk, rep)], s, sk.user)
  {
    RunKeepsInv(env, replicas, es);
    var st := Run(env, Init(replicas), es);
    if s in st.sockets { assert SocketInv(env, s, st.sockets[s], st.replicas[st.sockets[s].replica]); }
  }

  // Queues are first in, first out: no step changes what was queued before, and only Enqueue adds to a queue.
  lemma QueueIsAppendOnly(env: Env, st: State, e: Event, r: ReplicaId)
    requires Enabled(env, st, e) && r in st.replicas && Inv(env, st)
    ensures var st' := Step(env, st, e);
            r in st'.replicas
            && st'.replicas[r].order == st.replicas[r].order + (if e.Enqueue? && e.r == r then [e.c] else [])
            && st'.replicas[r].consumed == st.replicas[r].consumed + (if e.Consume? && e.r == r then 1 else 0)
  {
    if e.Leave? { assert SocketInv(env, e.s, st.sockets[e.s], st.replicas[st.sockets[e.s].replica]); }
  }

  lemma NoteFacts(env: Env, st: State, s: SocketId)
    requires Inv(env, st) && s in st.sockets
    ensures var sk := st.sockets[s];
            && Distinct(sk.notes)
            && forall c :: c in sk.notes ==> Published(env, st, c) && Notifies(env, c.pub, s, sk.user)
  {
    var sk := st.sockets[s];
    var rep := st.replicas[sk.replica];
    assert SocketInv(env, s, sk, rep) && ReplicaInv(env, st, rep);
    forall c | c in sk.notes ensures Published(env, st, c) {
      assert c in rep.order[..rep.consumed] && c in rep.order;
    }
  }

  // Which of the two publications of a send notifies whom.
  lemma NotifyingSlots(env: Env, st: State, job: Job, i: nat, s: SocketId, user: UserId)
    requires Faithful(env.codec) && job.SendJob? && JobOk(st, job) && i < 2
    ensures Notifies(env, Publications(env, job)[i], s, user) <==>
            if i == 0 then user == job.recipient else user == job.doc.senderId && job.origin.None?
  {
    RecipientCopyDelivers(env, job.recipient, job.doc);
    EchoDelivers(env, job.doc, job.origin);
    RoomsApart(user, job.recipient);
    RoomsApart(user, job.doc.senderId);
  }

  lemma OneNote(env: Env, st: State, s: SocketId, c: Copy)
    requires Faithful(env.codec) && Inv(env, st) && s in st.sockets && c in st.sockets[s].notes
    requires c.job in st.jobs && st.jobs[c.job].job.SendJob?
    ensures var job, user := st.jobs[c.job].job, st.sockets[s].user;
            && IsParty(job, user)
            && !(user == job.doc.senderId && job.origin.Some?)
            && c == Copy(c.job, if user == job.recipient then 0 else 1,
                         Publications(env, job)[if user == job.recipient then 0 else 1])
  {
    NoteFacts(env, st, s);
    assert JobInv(env, st, c.job, st.jobs[c.job]);
    NotifyingSlots(env, st, st.jobs[c.job].job, c.slot, s, st.sockets[s].user);
  }

  lemma EqualElementsRepeat<T>(xs: seq<T>, x: T)
    requires |xs| > 1 && forall y :: y in xs ==> y == x
    ensures !Distinct(xs)
  {
    assert xs[0] in xs && xs[1] in xs;
  }

  // Notifications about a send, in every state: at most one per socket, and none for third parties, nor for the
  // sender if the send came through a socket.
  lemma SenderIsNotNotifiedOfSocketSends(env: Env, replicas: set<ReplicaId>, es: seq<Event>, s: SocketId, j: JobId)
    requires Faithful(env.codec)
    ensures var st := Run(env, Init(replicas), es);
            s in st.sockets && j in st.jobs && st.jobs[j].job.SendJob? ==>
              var sk, job := st.sockets[s], st.jobs[j].job;
              var ns := Deliveries(sk.notes, j);
              && |ns| <= 1
              && (!IsParty(job, sk.user) || (sk.user == job.doc.senderId && job.origin.Some?) ==> ns == [])
  {
    RunKeepsInv(env, replicas, es);
    var st := Run(env, Init(replicas), es);
    if s in st.sockets && j in st.jobs && st.jobs[j].job.SendJob? {
      var ns := Deliveries(st.sockets[s].notes, j);
      NoteFacts(env, st, s);
      DeliveriesMembers(st.sockets[s].notes, j);
      DeliveriesDistinct(st.sockets[s].notes, j);
      if ns != [] {
        assert ns[0] in ns;
        OneNote(env, st, s, ns[0]);
        forall c | c in ns ensures c == ns[0] { OneNote(env, st, s, c); }
        if |ns| > 1 { EqualElementsRepeat(ns, ns[0]); }
      }
    }
  }

  // No notification about the job is still on its way from the socket's replica.
  predicate NotesSettled(env: Env, st: State, s: SocketId, j: JobId)
    requires s in st.sockets && j in st.jobs
  {
    Settled(env, st, s, j) && forall c :: c in st.replicas[st.sockets[s].replica].notify ==> c.job != j
  }

  // As long as notifications about a settled job are due on a replica, one of them can go out.
  lemma NotificationsCanGoOut(env: Env, st: State, s: SocketId, j: JobId)
    requires s in st.sockets && j in st.jobs && Settled(env, st, s, j) && !NotesSettled(env, st, s, j)
    ensures exists c: Copy :: c.job == j && Enabled(env, st, Notify(st.sockets[s].replica, c))
  {
    var c :| c in st.replicas[st.sockets[s].replica].notify && c.job == j;
    assert Enabled(env, st, Notify(st.sockets[s].replica, c));
  }

  // Any user can connect a new socket to a replica that is ready, and every replica can get ready.
  lemma SocketsCanJoin(env: Env, st: State, s: SocketId, user: UserId, r: ReplicaId)
    requires s !in st.sockets && CleanId(user) && r in st.replicas
    ensures Enabled(env, st, Ready(r)) && Step(env, st, Ready(r)).replicas[r].ready
    ensures st.replicas[r].ready ==> Enabled(env, st, Join(s, user, r))
  {
  }

  // Whose sockets are notified of a send: the recipient's, and without an origin socket the sender's as well.
  predicate IsNotified(job: Job, user: UserId)
    requires job.SendJob?
  {
    user == job.recipient || (user == job.doc.senderId && job.origin.None?)
  }

  // The notifying publication of a settled send has reached the socket.
  lemma NotifiedOnce(env: Env, st: State, s: SocketId, j: JobId)
    requires Faithful(env.codec) && Inv(env, st) && s in st.sockets && j in st.jobs && st.jobs[j].job.SendJob?
    requires NotesSettled(env, st, s, j) && IsNotified(st.jobs[j].job, st.sockets[s].user)
    ensures Deliveries(st.sockets[s].notes, j) != []
  {
    hide Deliver, Notifies, Reaches, Addressed;
    var sk, job := st.sockets[s], st.jobs[j].job;
    var slot := if sk.user == job.recipient then 0 else 1;
    var c := Copy(j, slot, Publications(env, job)[slot]);
    assert JobInv(env, st, j, st.jobs[j]);
    NotifyingSlots(env, st, job, slot, s, sk.user);
    SettledIsConsumed(env, st, s, c);
    assert SocketInv(env, s, sk, st.replicas[sk.replica]);
    assert c in sk.notes;
    DeliveriesMembers(sk.notes, j);
    assert c in Deliveries(sk.notes, j);
  }

  // Once all has settled, each socket of the recipient that was there from the start has exactly one notification of
  // the send. If the send came through a socket, no other socket has any; if it came without one, as over REST, each
  // socket of the sender has exactly one as well.
  lemma NotificationsAreExact(env: Env, replicas: set<ReplicaId>, es: seq<Event>, s: SocketId, j: JobId)
    requires Faithful(env.codec)
    ensures var st := Run(env, Init(replicas), es);
            s in st.sockets && j in st.jobs && st.jobs[j].job.SendJob? && NotesSettled(env, st, s, j) ==>
              |Deliveries(st.sockets[s].notes, j)| == if IsNotified(st.jobs[j].job, st.sockets[s].user) then 1 else 0
  {
    RunKeepsInv(env, replicas, es);
    SenderIsNotNotifiedOfSocketSends(env, replicas, es, s, j);
    var st := Run(env, Init(replicas), es);
    if s in st.sockets && j in st.jobs && st.jobs[j].job.SendJob? && NotesSettled(env, st, s, j) {
      if IsNotified(st.jobs[j].job, st.sockets[s].user) { NotifiedOnce(env, st, s, j); }
    }
  }
}
