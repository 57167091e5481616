// The REST client's answer to 401: one refresh shared by all requests that meet one, at most three attempts for it,
// and one retry for each request.

module HttpRefresh {
  import opened Text

  type RequestIx = nat
  type RoundIx = nat

  const MAX_REFRESH_ATTEMPTS: nat := 3

  // A request as the interceptors see it. retried is the _retryAfterRefresh mark.
  datatype Phase =
    | Idle
    | InFlight(retried: bool)
    | Waiting(round: RoundIx)
    | Settled(ok: bool)

  // skipAuthRefresh, a URL that contains the refresh path, and how often it went out.
  datatype Request = Request(skip: bool, refreshUrl: bool, phase: Phase, sent: nat)

  // One performRefresh: a post in flight, the pause before the next, or its end. attempt counts its posts.
  datatype Round =
    | Posting(attempt: nat)
    | Sleeping(attempt: nat)
    | Ended(attempt: nat, ok: bool)

  // saw: the outcome of the round that each waiting request was woken with.
  datatype State = State(
    access: Option<string>,
    refresh: Option<string>,
    refreshPromise: Option<RoundIx>,
    requests: seq<Request>,
    rounds: seq<Round>,
    saw: map<RequestIx, (RoundIx, bool)>,
    calls: nat)

  // What comes back for a request: a response with a status, or no response.
  datatype Answer = Success | Status(code: nat) | NoResponse

  datatype RefreshAnswer = Tokens(access: Option<string>, refresh: Option<string>) | Failure(answer: Answer)

  datatype Event =
    // gated: rejected by the device-sync gate before it goes out
    | Send(i: RequestIx, gated: bool)
    | Respond(i: RequestIx, answer: Answer)
    | RefreshReply(r: RoundIx, reply: RefreshAnswer)
    | Wake(r: RoundIx)
    | Resume(i: RequestIx, gated: bool)
    // sign-in, sign-out and the like, by other parts of the client
    | Session(access: Option<string>, refresh: Option<string>)

  function Init(requests: seq<Request>): State {
    State(None, None, None, seq(|requests|, i requires 0 <= i < |requests| => requests[i].(phase := Idle, sent := 0)),
          [], map[], 0)
  }

  predicate Enabled(st: State, e: Event) {
    match e
    case Send(i, _) => i < |st.requests| && st.requests[i].phase.Idle?
    case Respond(i, answer) => i < |st.requests| && st.requests[i].phase.InFlight?
    case RefreshReply(r, _) => r < |st.rounds| && st.rounds[r].Posting?
    case Wake(r) => r < |st.rounds| && st.rounds[r].Sleeping?
    case Resume(i, _) =>
      && i < |st.requests| && st.requests[i].phase.Waiting?
      && var r := st.requests[i].phase.round; r < |st.rounds| && st.rounds[r].Ended?
    case Session(_, _) => true
  }

  function SetPhase(st: State, i: RequestIx, phase: Phase): State
    requires i < |st.requests|
  {
    st.(requests := st.requests[i := st.requests[i].(phase := phase)])
  }

  // httpClient.request.
  function GoOut(st: State, i: RequestIx, retried: bool): State
    requires i < |st.requests|
  {
    st.(requests := st.requests[i := st.requests[i].(phase := InFlight(retried), sent := st.requests[i].sent + 1)],
        calls := st.calls + 1)
  }

  // clearSessionAndLogin, and the rejection of the request.
  function GiveUp(st: State, i: RequestIx): State
    requires i < |st.requests|
  {
    SetPhase(st, i, Settled(false)).(access := None, refresh := None)
  }

  // refreshWithMutex: join the refresh that runs, or start one.
  function JoinRefresh(st: State, i: RequestIx): State
    requires i < |st.requests|
  {
    match st.refreshPromise
    case Some(r) => SetPhase(st, i, Waiting(r))
    case None =>
      SetPhase(st, i, Waiting(|st.rounds|)).(
        refreshPromise := Some(|st.rounds|), rounds := st.rounds + [Posting(1)], calls := st.calls + 1)
  }

  // The response interceptor.
  function OnAnswer(st: State, i: RequestIx, answer: Answer): State
    requires i < |st.requests| && st.requests[i].phase.InFlight?
  {
    var q := st.requests[i];
    if answer.Success? then SetPhase(st, i, Settled(true))
    else if answer != Status(401) || q.skip then SetPhase(st, i, Settled(false))
    else if q.refreshUrl || q.phase.retried || st.refresh.None? || st.refresh.value == "" then GiveUp(st, i)
    else JoinRefresh(st, i)
  }

  // A failure that ends the refresh at once.
  predicate Final(reply: RefreshAnswer) {
    reply == Failure(Status(401)) || reply == Failure(Status(403)) || reply == Failure(Status(429))
  }

  predicate Usable(reply: RefreshAnswer) {
    reply.Tokens? && reply.access.Some? && reply.access.value != ""
  }

  // A refresh ends with a new access token, or at once with 401, 403 or 429; everything else is tried again.
  lemma EndingReplies(reply: RefreshAnswer)
    ensures Final(reply) <==> reply in {Failure(Status(401)), Failure(Status(403)), Failure(Status(429))}
    ensures Usable(reply) <==> exists token, other :: token != "" && reply == Tokens(Some(token), other)
  {
    if Usable(reply) { assert reply == Tokens(Some(reply.access.value), reply.refresh); }
  }

  function NewRefresh(current: Option<string>, reply: RefreshAnswer): Option<string>
    requires reply.Tokens?
  {
    if reply.refresh.Some? && reply.refresh.value != "" then reply.refresh else current
  }

  function EndRound(st: State, r: RoundIx, ok: bool): State
    requires r < |st.rounds|
  {
    st.(rounds := st.rounds[r := Ended(st.rounds[r].attempt, ok)], refreshPromise := None)
  }

  function OnReply(st: State, r: RoundIx, reply: RefreshAnswer): State
    requires r < |st.rounds| && st.rounds[r].Posting?
  {
    if Usable(reply) then EndRound(st, r, true).(access := reply.access, refresh := NewRefresh(st.refresh, reply))
    else if Final(reply) || st.rounds[r].attempt >= MAX_REFRESH_ATTEMPTS then EndRound(st, r, false)
    else st.(rounds := st.rounds[r := Sleeping(st.rounds[r].attempt)])
  }

  function OnResume(st: State, i: RequestIx, gated: bool): State
    requires Enabled(st, Resume(i, gated))
  {
    var r := st.requests[i].phase.round;
    var st' := st.(saw := st.saw[i := (r, st.rounds[r].ok)]);
    if !st.rounds[r].ok || st.access.None? || st.access.value == "" then GiveUp(st', i)
    else if gated then SetPhase(st', i, Settled(false))
    else GoOut(st', i, true)
  }

  function Step(st: State, e: Event): State
    requires Enabled(st, e)
  {
    match e
    case Send(i, gated) =>
      if gated then SetPhase(st, i, Settled(false)) else GoOut(st, i, false)
    case Respond(i, answer) => OnAnswer(st, i, answer)
    case RefreshReply(r, reply) => OnReply(st, r, reply)
    case Wake(r) => st.(rounds := st.rounds[r := Posting(st.rounds[r].attempt + 1)], calls := st.calls + 1)
    case Resume(i, gated) => OnResume(st, i, gated)
    case Session(access, refresh) => st.(access := access, refresh := refresh)
  }

  function Run(st: State, es: seq<Event>): State
    decreases |es|
  {
    if es == [] then st
    else
      var before := Run(st, es[..|es| - 1]);
      if Enabled(before, es[|es| - 1]) then Step(before, es[|es| - 1]) else before
  }

  // ----- Invariants -----

  predicate Active(round: Round) { !round.Ended? }

  // The rounds that run are exactly the one that refreshPromise holds.
  ghost predicate OneActive(st: State) {
    forall r :: 0 <= r < |st.rounds| ==> (Active(st.rounds[r]) <==> st.refreshPromise == Some(r))
  }

  ghost predicate RoundsOk(st: State) {
    && (st.refreshPromise.Some? ==> st.refreshPromise.value < |st.rounds|)
    && OneActive(st)
    && forall r :: 0 <= r < |st.rounds| ==>
         1 <= st.rounds[r].attempt <= if st.rounds[r].Sleeping? then MAX_REFRESH_ATTEMPTS - 1 else MAX_REFRESH_ATTEMPTS
  }

  // How often a request has gone out, at most, by the time it is in a phase.
  function SentBy(phase: Phase): nat {
    match phase
    case Idle => 0
    case InFlight(retried) => if retried then 2 else 1
    case Waiting(_) => 1
    case Settled(_) => 2
  }

  ghost predicate RequestOk(st: State, i: RequestIx)
    requires i < |st.requests|
  {
    && (st.requests[i].phase.Waiting? ==> st.requests[i].phase.round < |st.rounds|)
    && (i in st.saw ==>
          var r := st.saw[i].0; r < |st.rounds| && st.rounds[r].Ended? && st.rounds[r].ok == st.saw[i].1)
    && st.requests[i].sent <= SentBy(st.requests[i].phase)
  }

  ghost predicate Inv(st: State) {
    && RoundsOk(st)
    && (forall i :: 0 <= i < |st.requests| ==> RequestOk(st, i))
    && forall i :: i in st.saw ==> i < |st.requests|
  }

  lemma RoundsStayOk(st: State, e: Event)
    requires RoundsOk(st) && Enabled(st, e)
    ensures RoundsOk(Step(st, e))
  {
  }

  // No round disappears, and one that ended stays as it is.
  ghost predicate RoundsGrow(before: seq<Round>, after: seq<Round>) {
    && |before| <= |after|
    && forall r :: 0 <= r < |before| && before[r].Ended? ==> after[r] == before[r]
  }

  lemma StepGrowsRounds(st: State, e: Event)
    requires Enabled(st, e)
    ensures RoundsGrow(st.rounds, Step(st, e).rounds)
  {
  }

  // The request that an event is about.
  predicate Concerns(e: Event, i: RequestIx) {
    (e.Send? || e.Respond? || e.Resume?) && e.i == i
  }

  lemma OtherRequests(st: State, e: Event, i: RequestIx)
    requires Enabled(st, e) && i < |st.requests| && !Concerns(e, i)
    ensures var st' := Step(st, e);
            && |st'.requests| == |st.requests| && st'.requests[i] == st.requests[i]
            && (i in st'.saw <==> i in st.saw) && (i in st.saw ==> st'.saw[i] == st.saw[i])
  {
  }

  lemma ItsRequestStaysOk(st: State, e: Event, i: RequestIx)
    requires RoundsOk(st) && Enabled(st, e) && i < |st.requests| && Concerns(e, i) && RequestOk(st, i)
    ensures i < |Step(st, e).requests| && RequestOk(Step(st, e), i)
  {
    hide OneActive, OnReply;
    StepGrowsRounds(st, e);
  }

  lemma RequestStaysOk(st: State, e: Event, i: RequestIx)
    requires Inv(st) && Enabled(st, e) && i < |st.requests|
    ensures i < |Step(st, e).requests| && RequestOk(Step(st, e), i)
  {
    hide Step, RoundsOk;
    assert RequestOk(st, i);
    if Concerns(e, i) {
      ItsRequestStaysOk(st, e, i);
    } else {
      OtherRequests(st, e, i);
      StepGrowsRounds(st, e);
    }
  }

  lemma StepKeepsInv(st: State, e: Event)
    requires Inv(st) && Enabled(st, e)
    ensures Inv(Step(st, e))
  {
    var st' := Step(st, e);
    RoundsStayOk(st, e);
    assert |st'.requests| == |st.requests|;
    forall i | 0 <= i < |st'.requests| ensures RequestOk(st', i) { RequestStaysOk(st, e, i); }
  }

  lemma {:induction false} RunKeepsInv(st: State, es: seq<Event>)
    requires Inv(st)
    ensures Inv(Run(st, es))
  {
    if es != [] {
      RunKeepsInv(st, es[..|es| - 1]);
      var before := Run(st, es[..|es| - 1]);
      if Enabled(before, es[|es| - 1]) { StepKeepsInv(before, es[|es| - 1]); }
    }
  }

  // ----- Counting -----

  function Sum<T>(xs: seq<T>, weight: T -> nat): nat {
    if xs == [] then 0 else weight(xs[0]) + Sum(xs[1..], weight)
  }

  lemma {:induction false} SumUpdate<T>(xs: seq<T>, weight: T -> nat, i: nat, x: T)
    requires i < |xs|
    ensures Sum(xs[i := x], weight) + weight(xs[i]) == Sum(xs, weight) + weight(x)
  {
    if i == 0 {
      assert xs[i := x][1..] == xs[1..];
    } else {
      assert xs[i := x][1..] == xs[1..][i - 1 := x];
      SumUpdate(xs[1..], weight, i - 1, x);
    }
  }

  lemma {:induction false} SumAppend<T>(xs: seq<T>, weight: T -> nat, x: T)
    ensures Sum(xs + [x], weight) == Sum(xs, weight) + weight(x)
  {
    if xs == [] {
      assert [x][1..] == [];
      assert xs + [x] == [x];
    } else {
      assert (xs + [x])[1..] == xs[1..] + [x];
      SumAppend(xs[1..], weight, x);
    }
  }

  lemma {:induction false} SumConstant<T>(xs: seq<T>, weight: T -> nat, w: nat)
    requires forall x :: x in xs ==> weight(x) == w
    ensures Sum(xs, weight) == w * |xs|
  {
    if xs != [] {
      assert xs[0] in xs;
      SumConstant(xs[1..], weight, w);
      assert w * |xs| == w + w * |xs[1..]|;
    }
  }

  // The calls that a request, and a round, can still cause.
  function RequestBudget(q: Request): nat {
    match q.phase
    case Idle => 5
    case InFlight(retried) => if retried then 0 else 4
    case Waiting(_) => 1
    case Settled(_) => 0
  }

  function RoundBudget(round: Round): nat {
    match round
    case Posting(attempt) => if attempt < 3 then 3 - attempt else 0
    case Sleeping(attempt) => if attempt < 3 then 3 - attempt else 0
    case Ended(_, _) => 0
  }

  function Budget(st: State): nat {
    st.calls + Sum(st.requests, RequestBudget) + Sum(st.rounds, RoundBudget)
  }

  // The steps that a request, and a round, can still take part in.
  function RequestWork(q: Request): nat {
    match q.phase
    case Idle => 9
    case InFlight(retried) => if retried then 1 else 8
    case Waiting(_) => 2
    case Settled(_) => 0
  }

  function RoundWork(round: Round): nat {
    match round
    case Posting(attempt) => if attempt < 3 then 7 - 2 * attempt else 1
    case Sleeping(attempt) => if attempt < 3 then 6 - 2 * attempt else 0
    case Ended(_, _) => 0
  }

  function Work(st: State): nat {
    Sum(st.requests, RequestWork) + Sum(st.rounds, RoundWork)
  }

  function Sent(q: Request): nat { q.sent }

  function Posts(round: Round): nat { round.attempt }

  // Every call is a request going out or a post of a refresh.
  ghost predicate CallsAddUp(st: State) {
    st.calls == Sum(st.requests, Sent) + Sum(st.rounds, Posts)
  }

  // How the sums change when one request, one round, or both change.
  lemma OneRequest(st: State, i: RequestIx, q: Request)
    requires i < |st.requests|
    ensures Sum(st.requests[i := q], RequestBudget)
            == Sum(st.requests, RequestBudget) - RequestBudget(st.requests[i]) + RequestBudget(q)
    ensures Sum(st.requests[i := q], RequestWork)
            == Sum(st.requests, RequestWork) - RequestWork(st.requests[i]) + RequestWork(q)
    ensures Sum(st.requests[i := q], Sent) == Sum(st.requests, Sent) - st.requests[i].sent + q.sent
  {
    SumUpdate(st.requests, Sent, i, q);
    SumUpdate(st.requests, RequestBudget, i, q);
    SumUpdate(st.requests, RequestWork, i, q);
  }

  lemma OneRound(st: State, r: RoundIx, round: Round)
    requires r < |st.rounds|
    ensures Sum(st.rounds[r := round], RoundBudget)
            == Sum(st.rounds, RoundBudget) - RoundBudget(st.rounds[r]) + RoundBudget(round)
    ensures Sum(st.rounds[r := round], RoundWork)
            == Sum(st.rounds, RoundWork) - RoundWork(st.rounds[r]) + RoundWork(round)
    ensures Sum(st.rounds[r := round], Posts) == Sum(st.rounds, Posts) - st.rounds[r].attempt + round.attempt
  {
    SumUpdate(st.rounds, Posts, r, round);
    SumUpdate(st.rounds, RoundBudget, r, round);
    SumUpdate(st.rounds, RoundWork, r, round);
  }

  lemma NewRound(st: State)
    ensures Sum(st.rounds + [Posting(1)], RoundBudget) == Sum(st.rounds, RoundBudget) + 2
    ensures Sum(st.rounds + [Posting(1)], RoundWork) == Sum(st.rounds, RoundWork) + 5
    ensures Sum(st.rounds + [Posting(1)], Posts) == Sum(st.rounds, Posts) + 1
  {
    SumAppend(st.rounds, Posts, Posting(1));
    SumAppend(st.rounds, RoundBudget, Posting(1));
    SumAppend(st.rounds, RoundWork, Posting(1));
  }

  // No step raises the budget, and every step other than a change of session uses up work.
  ghost predicate Spends(st: State, st': State) {
    && |st'.requests| == |st.requests| && Budget(st') <= Budget(st) && Work(st') < Work(st)
    && (CallsAddUp(st) ==> CallsAddUp(st'))
  }

  // A step that changes one request and no round, or one round and no request.
  lemma RequestStepSpends(st: State, st': State, i: RequestIx)
    requires i < |st.requests| && |st'.requests| == |st.requests|
    requires st'.requests == st.requests[i := st'.requests[i]] && st'.rounds == st.rounds
    requires RequestWork(st'.requests[i]) < RequestWork(st.requests[i])
    requires st'.calls + RequestBudget(st'.requests[i]) <= st.calls + RequestBudget(st.requests[i])
    requires st'.calls - st.calls == st'.requests[i].sent - st.requests[i].sent
    ensures Spends(st, st')
  {
    OneRequest(st, i, st'.requests[i]);
  }

  lemma RoundStepSpends(st: State, st': State, r: RoundIx)
    requires r < |st.rounds| && |st'.rounds| == |st.rounds|
    requires st'.rounds == st.rounds[r := st'.rounds[r]] && st'.requests == st.requests
    requires RoundWork(st'.rounds[r]) < RoundWork(st.rounds[r])
    requires st'.calls + RoundBudget(st'.rounds[r]) <= st.calls + RoundBudget(st.rounds[r])
    requires st'.calls - st.calls == st'.rounds[r].attempt - st.rounds[r].attempt
    ensures Spends(st, st')
  {
    OneRound(st, r, st'.rounds[r]);
  }

  lemma JoinSpends(st: State, i: RequestIx)
    requires i < |st.requests| && st.requests[i].phase == InFlight(false)
    ensures Spends(st, JoinRefresh(st, i))
  {
    var st' := JoinRefresh(st, i);
    OneRequest(st, i, st'.requests[i]);
    NewRound(st);
  }

  lemma StepSpends(st: State, e: Event)
    requires RoundsOk(st) && Enabled(st, e)
    ensures var st' := Step(st, e);
            if e.Session? then st' == st.(access := e.access, refresh := e.refresh) else Spends(st, st')
  {
    var st' := Step(st, e);
    match e
    case Send(i, gated) => RequestStepSpends(st, st', i);
    case Respond(i, answer) =>
      if st'.requests[i].phase.Waiting? {
        assert st' == JoinRefresh(st, i);
        JoinSpends(st, i);
      } else {
        RequestStepSpends(st, st', i);
      }
    case RefreshReply(r, reply) => RoundStepSpends(st, st', r);
    case Wake(r) => RoundStepSpends(st, st', r);
    case Resume(i, gated) => RequestStepSpends(st, st', i);
    case Session(_, _) =>
  }

  // Steps taken in a run, not counting changes of session.
  function Taken(st: State, es: seq<Event>): nat
    decreases |es|
  {
    if es == [] then 0
    else
      var before := Run(st, es[..|es| - 1]);
      var e := es[|es| - 1];
      Taken(st, es[..|es| - 1]) + if Enabled(before, e) && !e.Session? then 1 else 0
  }

  lemma {:induction false} RunSpends(st: State, es: seq<Event>)
    requires Inv(st)
    ensures var st' := Run(st, es);
            && |st'.requests| == |st.requests| && Budget(st') <= Budget(st)
            && Taken(st, es) + Work(st') <= Work(st)
            && (CallsAddUp(st) ==> CallsAddUp(st'))
  {
    if es != [] {
      RunSpends(st, es[..|es| - 1]);
      RunKeepsInv(st, es[..|es| - 1]);
      var before := Run(st, es[..|es| - 1]);
      if Enabled(before, es[|es| - 1]) { StepSpends(before, es[|es| - 1]); }
    }
  }

  lemma InitFacts(requests: seq<Request>)
    ensures Inv(Init(requests))
    ensures Budget(Init(requests)) == 5 * |requests| && Work(Init(requests)) == 9 * |requests|
    ensures CallsAddUp(Init(requests))
  {
    var st := Init(requests);
    SumConstant(st.requests, Sent, 0);
    SumConstant(st.requests, RequestBudget, 5);
    SumConstant(st.requests, RequestWork, 9);
  }

  // ----- Results -----

  // At most one refresh runs at any time.
  lemma SingleFlight(requests: seq<Request>, es: seq<Event>)
    ensures var st := Run(Init(requests), es);
            forall r, s :: 0 <= r < s < |st.rounds| ==> !(Active(st.rounds[r]) && Active(st.rounds[s]))
  {
    InitFacts(requests);
    RunKeepsInv(Init(requests), es);
  }

  // Requests that joined the same refresh are woken with the same outcome.
  lemma JoinersAgree(requests: seq<Request>, es: seq<Event>, i: RequestIx, j: RequestIx)
    ensures var st := Run(Init(requests), es);
            i in st.saw && j in st.saw && st.saw[i].0 == st.saw[j].0 ==> st.saw[i].1 == st.saw[j].1
  {
    InitFacts(requests);
    RunKeepsInv(Init(requests), es);
    var st := Run(Init(requests), es);
    if i in st.saw && j in st.saw { assert RequestOk(st, i) && RequestOk(st, j); }
  }

  // Each request goes out at most twice, each refresh posts at most three times, and N requests cause at most 5N
  // calls of the two kinds together.
  lemma CallsBounded(requests: seq<Request>, es: seq<Event>)
    ensures var st := Run(Init(requests), es);
            && |st.requests| == |requests|
            && (forall i :: 0 <= i < |st.requests| ==> st.requests[i].sent <= 2)
            && (forall r :: 0 <= r < |st.rounds| ==> 1 <= st.rounds[r].attempt <= 3)
            && st.calls == Sum(st.requests, Sent) + Sum(st.rounds, Posts)
            && st.calls <= 5 * |requests|
  {
    InitFacts(requests);
    RunSpends(Init(requests), es);
    RunKeepsInv(Init(requests), es);
    var st := Run(Init(requests), es);
    forall i | 0 <= i < |st.requests| ensures st.requests[i].sent <= 2 { assert RequestOk(st, i); }
  }

  // Whatever the answers, a run takes at most 9N steps, not counting changes of session.
  lemma StepsBounded(requests: seq<Request>, es: seq<Event>)
    ensures Taken(Init(requests), es) <= 9 * |requests|
  {
    InitFacts(requests);
    RunSpends(Init(requests), es);
  }

  // No request is ever left without a next step: with the bound on steps, every run that keeps going settles all.
  lemma NoneIsStranded(requests: seq<Request>, es: seq<Event>, i: RequestIx)
    ensures var st := Run(Init(requests), es);
            i < |st.requests| && !st.requests[i].phase.Settled? ==>
              exists e :: Enabled(st, e) && !e.Session?
  {
    InitFacts(requests);
    RunKeepsInv(Init(requests), es);
    var st := Run(Init(requests), es);
    if i < |st.requests| {
      assert RequestOk(st, i);
      match st.requests[i].phase
      case Idle => assert Enabled(st, Send(i, false));
      case InFlight(_) => assert Enabled(st, Respond(i, Success));
      case Waiting(r) =>
        if st.rounds[r].Posting? {
          assert Enabled(st, RefreshReply(r, Failure(NoResponse)));
        } else if st.rounds[r].Sleeping? {
          assert Enabled(st, Wake(r));
        } else {
          assert Enabled(st, Resume(i, false));
        }
      case Settled(_) =>
    }
  }

  // ----- The attempt loop -----

  // The attempt that decides a refresh: the first usable or final reply, or else the last allowed attempt.
  predicate Decides(replies: seq<RefreshAnswer>, k: nat)
    requires |replies| >= MAX_REFRESH_ATTEMPTS
  {
    && 1 <= k <= MAX_REFRESH_ATTEMPTS
    && (Usable(replies[k - 1]) || Final(replies[k - 1]) || k == MAX_REFRESH_ATTEMPTS)
    && forall j :: 0 <= j < k - 1 ==> !Usable(replies[j]) && !Final(replies[j])
  }

  // Three posts, if the first two replies are neither usable nor final.
  lemma ThirdIsLast(replies: seq<RefreshAnswer>, k: nat)
    requires |replies| >= MAX_REFRESH_ATTEMPTS && Decides(replies, k)
    ensures k == 3 <==> (forall j :: 0 <= j < 2 ==> !Usable(replies[j]) && !Final(replies[j]))
    ensures k <= 3
  {
    if k < 3 { assert Usable(replies[k - 1]) || Final(replies[k - 1]); }
  }

  // The attempts of one refresh as steps of the protocol.
  function Attempts(r: RoundIx, replies: seq<RefreshAnswer>, k: nat): seq<Event>
    requires k <= |replies|
  {
    if k == 0 then []
    else if k == 1 then [RefreshReply(r, replies[0])]
    else Attempts(r, replies, k - 1) + [Wake(r), RefreshReply(r, replies[k - 1])]
  }

  lemma RunTwo(st: State, es: seq<Event>, a: Event, b: Event)
    ensures var s1 := Run(st, es);
            var s2 := if Enabled(s1, a) then Step(s1, a) else s1;
            Run(st, es + [a, b]) == if Enabled(s2, b) then Step(s2, b) else s2
  {
    var all := es + [a, b];
    assert all[..|all| - 1] == es + [a];
    assert (es + [a])[..|es|] == es;
  }

  // As long as no reply decides, the round goes to sleep after each attempt.
  lemma {:induction false} Undecided(st: State, r: RoundIx, replies: seq<RefreshAnswer>, k: nat)
    requires r < |st.rounds| && st.rounds[r] == Posting(1) && 1 <= k < MAX_REFRESH_ATTEMPTS <= |replies|
    requires forall j :: 0 <= j < k ==> !Usable(replies[j]) && !Final(replies[j])
    ensures var st' := Run(st, Attempts(r, replies, k));
            && |st'.rounds| == |st.rounds| && st'.rounds[r] == Sleeping(k)
            && st'.access == st.access && st'.refresh == st.refresh && st'.calls == st.calls + k - 1
  {
    if k == 1 {
      assert [RefreshReply(r, replies[0])][..0] == [];
    } else {
      Undecided(st, r, replies, k - 1);
      RunTwo(st, Attempts(r, replies, k - 1), Wake(r), RefreshReply(r, replies[k - 1]));
    }
  }

  class HttpClient {
    var access: Option<string>
    var refresh: Option<string>
    var posts: nat

    constructor (access: Option<string>, refresh: Option<string>)
      ensures this.access == access && this.refresh == refresh && posts == 0
    {
      this.access, this.refresh, this.posts := access, refresh, 0;
    }

    // replies are the answers the posts would get, in order. ok is false when performRefresh throws.
    method PerformRefresh(replies: seq<RefreshAnswer>) returns (ok: bool)
      requires |replies| >= MAX_REFRESH_ATTEMPTS
      modifies this
      ensures old(refresh).None? || old(refresh).value == "" ==>
                !ok && posts == old(posts) && access == old(access) && refresh == old(refresh)
      ensures old(refresh).Some? && old(refresh).value != "" ==>
                var k := posts - old(posts);
                && k >= 0 && Decides(replies, k)
                && (ok <==> Usable(replies[k - 1]))
                && access == (if ok then replies[k - 1].access else old(access))
                && refresh == (if ok then NewRefresh(old(refresh), replies[k - 1]) else old(refresh))
    {
      if refresh.None? || refresh.value == "" { return false; }
      var attempt := 1;
      while attempt <= MAX_REFRESH_ATTEMPTS
        invariant 1 <= attempt <= MAX_REFRESH_ATTEMPTS
        invariant posts == old(posts) + attempt - 1
        invariant access == old(access) && refresh == old(refresh)
        invariant forall j :: 0 <= j < attempt - 1 ==> !Usable(replies[j]) && !Final(replies[j])
        decreases MAX_REFRESH_ATTEMPTS - attempt
      {
        posts := posts + 1;
        var reply := replies[attempt - 1];
        if Usable(reply) {
          access := reply.access;
          refresh := NewRefresh(refresh, reply);
          return true;
        }
        if Final(reply) { return false; }
        if attempt == MAX_REFRESH_ATTEMPTS { return false; }
        attempt := attempt + 1;
      }
      assert false;
    }
  }

  // The loop and the protocol agree: the deciding attempt ends the round, with the outcome and the tokens of the loop.
  lemma LoopIsTheRound(st: State, r: RoundIx, replies: seq<RefreshAnswer>, k: nat)
    requires r < |st.rounds| && st.rounds[r] == Posting(1) && |replies| >= MAX_REFRESH_ATTEMPTS && Decides(replies, k)
    ensures var st' := Run(st, Attempts(r, replies, k));
            var ok := Usable(replies[k - 1]);
            && |st'.rounds| == |st.rounds| && st'.rounds[r] == Ended(k, ok)
            && st'.access == (if ok then replies[k - 1].access else st.access)
            && st'.refresh == (if ok then NewRefresh(st.refresh, replies[k - 1]) else st.refresh)
            && st'.refreshPromise == None && st'.calls == st.calls + k - 1
  {
    if k == 1 {
      assert [RefreshReply(r, replies[0])][..0] == [];
    } else {
      Undecided(st, r, replies, k - 1);
      RunTwo(st, Attempts(r, replies, k - 1), Wake(r), RefreshReply(r, replies[k - 1]));
    }
  }
}
