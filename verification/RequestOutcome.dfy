// How each request of the REST client ends, told by what happened to it.

module RequestOutcome {
  import opened Text
  import opened HttpRefresh

  datatype Departure = NotYet | Blocked | Out

  // An answer, whether a refresh token was stored when it came, and the refresh that ran then or that was the next to
  // run.
  datatype Heard = Heard(answer: Answer, canRefresh: bool, round: RoundIx)

  // How the refresh that the request waited for ended, whether an access token was there on waking, and the gate.
  datatype Waking = Waking(ok: bool, token: bool, gated: bool)

  datatype Story = Story(departure: Departure, first: Option<Heard>, waking: Option<Waking>, second: Option<Answer>)

  const UNTOLD := Story(NotYet, None, None, None)

  predicate HasToken(token: Option<string>) {
    token.Some? && token.value != ""
  }

  predicate Succeeded(st: State, r: RoundIx) {
    r < |st.rounds| && st.rounds[r].Ended? && st.rounds[r].ok
  }

  // What an event adds to the story of request i.
  function Told(s: Story, st: State, e: Event, i: RequestIx): Story {
    match e
    case Send(k, gated) => if k == i then s.(departure := if gated then Blocked else Out) else s
    case Respond(k, answer) =>
      if k != i then s
      else if s.first.Some? then s.(second := Some(answer))
      else
        var round := match st.refreshPromise case Some(r) => r case None => |st.rounds|;
        s.(first := Some(Heard(answer, HasToken(st.refresh), round)))
    case Resume(k, gated) =>
      if k != i || s.first.None? then s
      else s.(waking := Some(Waking(Succeeded(st, s.first.value.round), HasToken(st.access), gated)))
    case _ => s
  }

  function StoryOf(requests: seq<Request>, es: seq<Event>, i: RequestIx): Story
    decreases |es|
  {
    if es == [] then UNTOLD
    else
      var before := Run(Init(requests), es[..|es| - 1]);
      var s := StoryOf(requests, es[..|es| - 1], i);
      if Enabled(before, es[|es| - 1]) then Told(s, before, es[|es| - 1], i) else s
  }

  // A first answer that leads to a refresh.
  predicate Refreshes(q: Request, h: Heard) {
    h.answer == Status(401) && !q.skip && !q.refreshUrl && h.canRefresh
  }

  // A waking that leads to the second sending.
  predicate Retries(w: Waking) {
    w.ok && w.token && !w.gated
  }

  predicate GoesAgain(s: Story) {
    s.waking.Some? && Retries(s.waking.value)
  }

  // The stories there are.
  predicate Coherent(q: Request, s: Story) {
    && (s.first.Some? ==> s.departure.Out?)
    && (s.waking.Some? ==> s.first.Some? && Refreshes(q, s.first.value))
    && (s.second.Some? ==> GoesAgain(s))
  }

  function PhaseAfter(q: Request, s: Story): Phase {
    if s.departure.NotYet? then Idle
    else if s.departure.Blocked? then Settled(false)
    else if s.first.None? then InFlight(false)
    else if s.first.value.answer.Success? then Settled(true)
    else if !Refreshes(q, s.first.value) then Settled(false)
    else if s.waking.None? then Waiting(s.first.value.round)
    else if !GoesAgain(s) then Settled(false)
    else if s.second.None? then InFlight(true)
    else Settled(s.second.value.Success?)
  }

  ghost predicate StoryOk(q: Request, s: Story) {
    && Coherent(q, s)
    && q.phase == PhaseAfter(q, s)
    && q.sent == (if s.departure.Out? then 1 else 0) + (if GoesAgain(s) then 1 else 0)
  }

  lemma Untouched(s: Story, st: State, e: Event, i: RequestIx)
    requires !Concerns(e, i)
    ensures Told(s, st, e, i) == s
  {
  }

  lemma ToldStaysOk(s: Story, st: State, e: Event, i: RequestIx)
    requires Enabled(st, e) && Concerns(e, i) && StoryOk(st.requests[i], s)
    ensures i < |Step(st, e).requests| && StoryOk(Step(st, e).requests[i], Told(s, st, e, i))
  {
  }

  predicate SameKind(q: Request, q': Request) {
    q.skip == q'.skip && q.refreshUrl == q'.refreshUrl
  }

  lemma StepKeepsKind(st: State, e: Event, i: RequestIx)
    requires Enabled(st, e) && i < |st.requests|
    ensures |Step(st, e).requests| == |st.requests| && SameKind(st.requests[i], Step(st, e).requests[i])
  {
  }

  lemma {:induction false} StoryHolds(requests: seq<Request>, es: seq<Event>, i: RequestIx)
    requires i < |requests|
    ensures var st := Run(Init(requests), es);
            && |st.requests| == |requests| && SameKind(requests[i], st.requests[i])
            && StoryOk(st.requests[i], StoryOf(requests, es, i))
  {
    hide Step, Enabled, Told, StoryOk;
    if es == [] {
      FreshIsUntold(requests, i);
    } else {
      var front, e := es[..|es| - 1], es[|es| - 1];
      StoryHolds(requests, front, i);
      var st := Run(Init(requests), front);
      if Enabled(st, e) {
        StepKeepsKind(st, e, i);
        if Concerns(e, i) {
          ToldStaysOk(StoryOf(requests, front, i), st, e, i);
        } else {
          OtherRequests(st, e, i);
          Untouched(StoryOf(requests, front, i), st, e, i);
        }
      }
    }
  }

  lemma FreshIsUntold(requests: seq<Request>, i: RequestIx)
    requires i < |requests|
    ensures StoryOk(Init(requests).requests[i], UNTOLD)
  {
  }

  // The exact outcome of a request, over every run. It goes out a second time if and only if its first answer was a
  // 401 that may lead to a refresh, that refresh succeeded, an access token was there on waking, and the gate was
  // open. It has settled if and only if it was blocked, or its last answer was final, or it was woken and not sent
  // again; it resolves if and only if its last answer was a success. In between it waits for the refresh that ran when
  // its 401 came, or for the one it started.
  lemma RequestOutcomeExactly(requests: seq<Request>, es: seq<Event>, i: RequestIx)
    requires i < |requests|
    ensures |Run(Init(requests), es).requests| == |requests|
    ensures var q, s := Run(Init(requests), es).requests[i], StoryOf(requests, es, i);
            var refreshes := s.first.Some? && s.first.value.answer == Status(401) && s.first.value.canRefresh
                             && !requests[i].skip && !requests[i].refreshUrl;
            var again := refreshes && s.waking == Some(Waking(true, true, false));
            && (q.sent == 2 <==> again) && (q.sent >= 1 <==> s.departure.Out?) && q.sent <= 2
            && (q.phase.Settled? <==>
                  || s.departure.Blocked? || s.second.Some? || (s.first.Some? && !refreshes) || (s.waking.Some? && !again))
            && (q.phase == Settled(true) <==>
                  s.second == Some(Success) || (s.first.Some? && s.first.value.answer == Success))
            && (q.phase.Waiting? <==> refreshes && s.waking.None?)
            && (q.phase.Waiting? ==> q.phase.round == s.first.value.round)
            && (s.second.Some? ==> again)
  {
    StoryHolds(requests, es, i);
  }

  // The request gives up the session: a 401 that cannot lead to a refresh, because it is the second one, or answers a
  // refresh, or no refresh token is stored; or a waking without success or without a token.
  predicate GivesUp(requests: seq<Request>, es: seq<Event>, e: Event) {
    match e
    case Respond(i, answer) =>
      && i < |requests| && answer == Status(401) && !requests[i].skip
      && (StoryOf(requests, es, i).first.Some? || requests[i].refreshUrl
          || !HasToken(Run(Init(requests), es).refresh))
    case Resume(i, _) =>
      var st, s := Run(Init(requests), es), StoryOf(requests, es, i);
      s.first.Some? && !(Succeeded(st, s.first.value.round) && HasToken(st.access))
    case _ => false
  }

  // The session is cleared exactly when a request gives it up; otherwise only a usable reply or another part of the
  // client changes it, and to what they carry.
  lemma SessionExactly(requests: seq<Request>, es: seq<Event>, e: Event)
    requires Enabled(Run(Init(requests), es), e)
    ensures var st := Run(Init(requests), es);
            var st' := Step(st, e);
            (st'.access, st'.refresh) ==
            if GivesUp(requests, es, e) then (None, None)
            else if e.Session? then (e.access, e.refresh)
            else if e.RefreshReply? && e.reply.Tokens? && HasToken(e.reply.access) then
              (e.reply.access, if HasToken(e.reply.refresh) then e.reply.refresh else st.refresh)
            else (st.access, st.refresh)
  {
    hide Run, StoryOf;
    InitFacts(requests);
    RunKeepsLength(requests, es);
    if e.Respond? || e.Resume? { StoryHolds(requests, es, e.i); }
  }

  lemma RunKeepsLength(requests: seq<Request>, es: seq<Event>)
    ensures |Run(Init(requests), es).requests| == |requests|
  {
    InitFacts(requests);
    RunSpends(Init(requests), es);
  }
}
