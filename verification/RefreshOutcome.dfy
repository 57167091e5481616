// What one refresh comes to, in every interleaving with sign-ins, other refreshes, logouts, resets, expiry and edits
// of users: it is settled by what the token store held at its first step and what the user store held at its second.

module RefreshOutcome {
  import opened Text
  import opened Tokens
  import opened AuthService

  predicate About(e: Event, b: RequestId) {
    Advances(e) && e.id == b
  }

  // Steps of other requests and of the environment.
  ghost predicate Others(es: seq<Event>, b: RequestId) {
    forall e :: e in es ==> !About(e, b)
  }

  lemma {:induction false} RunConcat(st: State, a: seq<Event>, b: seq<Event>)
    ensures Run(st, a + b) == Run(Run(st, a), b)
    decreases |b|
  {
    if b == [] {
      assert a + b == a;
    } else {
      RunConcat(st, a, b[..|b| - 1]);
      assert (a + b)[..|a + b| - 1] == a + b[..|b| - 1];
    }
  }

  lemma {:induction false} Undisturbed(st: State, es: seq<Event>, b: RequestId)
    requires Others(es, b)
    ensures var st' := Run(st, es);
            && (b in st'.requests <==> b in st.requests)
            && (b in st.requests ==> st'.requests[b] == st.requests[b])
  {
    if es != [] {
      var front, e := es[..|es| - 1], es[|es| - 1];
      assert es == front + [e] && e in es;
      assert !About(e, b);
      Undisturbed(st, front, b);
      var before := Run(st, front);
      if Enabled(before, e) {
        if b in before.requests { KeptRequest(before, e, b); }
        if b in Step(before, e).requests { OtherRequests(before, e, b); }
      }
    }
  }

  lemma KeptRequest(st: State, e: Event, b: RequestId)
    requires Enabled(st, e) && b in st.requests
    ensures b in Step(st, e).requests
  {
  }

  // ----- When a token is gone -----

  // Expiry, a logout, and the last step of a refresh, granted or rejected, remove the token they name.
  predicate Removes(st: State, e: Event, t: Token)
    requires Enabled(st, e)
  {
    match e
    case Expire(x) => x == t
    case Logout(_, x) => x == t
    case RefreshRevoke(id) => st.requests[id].token == t
    case _ => false
  }

  predicate RemovedIn(st: State, es: seq<Event>, t: Token)
    decreases |es|
  {
    es != [] &&
    var before := Run(st, es[..|es| - 1]);
    var e := es[|es| - 1];
    RemovedIn(st, es[..|es| - 1], t) || (Enabled(before, e) && Removes(before, e, t))
  }

  lemma OneStepToken(st: State, e: Event, t: Token)
    requires Enabled(st, e) && !NeverSeen(st, t)
    ensures var st' := Step(st, e);
            && !NeverSeen(st', t)
            && (t in st'.tokens <==> t in st.tokens && !Removes(st, e, t))
            && (t in st'.tokens ==> st'.tokens[t] == st.tokens[t])
  {
  }

  // A stored token is there as long as nothing has removed it, with the payload it was given.
  lemma {:induction false} StoredUntilRemoved(st: State, es: seq<Event>, t: Token)
    requires t in st.tokens && !NeverSeen(st, t)
    ensures var st' := Run(st, es);
            && !NeverSeen(st', t)
            && (t in st'.tokens <==> !RemovedIn(st, es, t))
            && (t in st'.tokens ==> st'.tokens[t] == st.tokens[t])
  {
    if es != [] {
      var front, e := es[..|es| - 1], es[|es| - 1];
      StoredUntilRemoved(st, front, t);
      if Enabled(Run(st, front), e) { OneStepToken(Run(st, front), e, t); }
    }
  }

  // ----- The four steps of a refresh among others -----

  // The steps of others before the refresh and between its own steps.
  datatype Schedule = Schedule(before: seq<Event>, toRead: seq<Event>, toIssue: seq<Event>, toRevoke: seq<Event>)

  ghost predicate OthersOnly(s: Schedule, b: RequestId) {
    Others(s.before, b) && Others(s.toRead, b) && Others(s.toIssue, b) && Others(s.toRevoke, b)
  }

  // The email and device guards, and the token that is issued if they let it.
  datatype Guards = Guards(verificationRequired: bool, deviceKnown: bool, newToken: Token)

  function UpToRead(s: Schedule, b: RequestId, t: Token): seq<Event> {
    s.before + [RefreshGet(b, t)] + s.toRead
  }

  function UpToIssue(s: Schedule, b: RequestId, t: Token): seq<Event> {
    UpToRead(s, b, t) + [RefreshRead(b)] + s.toIssue
  }

  function Whole(s: Schedule, b: RequestId, t: Token, g: Guards): seq<Event> {
    UpToIssue(s, b, t) + [RefreshIssue(b, g.verificationRequired, g.deviceKnown, g.newToken)]
    + s.toRevoke + [RefreshRevoke(b)]
  }

  function StageOf(st: State, b: RequestId): Stage
    requires AtStage(st, b)
  {
    st.requests[b].stage
  }

  // A refresh of t by b has come this far.
  predicate Reached(st: State, b: RequestId, t: Token, stage: Stage) {
    b in st.requests && st.requests[b] == Refresh(t, stage)
  }

  lemma ThenOthers(st: State, e: Event, es: seq<Event>, b: RequestId)
    requires Others(es, b)
    ensures var st1 := Run(st, [e]);
            var st' := Run(st, [e] + es);
            && st' == Run(st1, es)
            && (b in st'.requests <==> b in st1.requests)
            && (b in st1.requests ==> st'.requests[b] == st1.requests[b])
  {
    RunConcat(st, [e], es);
    Undisturbed(Run(st, [e]), es, b);
  }

  // What a refresh that found payload p comes to, by the user store at its second step and the guards at its third.
  function Verdict(users: map<UserId, User>, p: Payload, g: Guards): Reply {
    if p.user !in users then Refused(UserGone)
    else if users[p.user].version != p.v then Refused(VersionRevoked)
    else if g.verificationRequired && !users[p.user].emailVerified then Refused(NotVerified)
    else if !g.deviceKnown then Refused(BadDevice)
    else Granted(g.newToken)
  }

  lemma GetStage(st: State, s: Schedule, b: RequestId, t: Token)
    requires b !in st.requests && OthersOnly(s, b)
    ensures var tokens := Run(st, s.before).tokens;
            Reached(Run(st, UpToRead(s, b, t)), b, t, if t in tokens then Got(tokens[t]) else Failed(UnknownToken))
  {
    Undisturbed(st, s.before, b);
    One(Run(st, s.before), RefreshGet(b, t));
    ThenOthers(Run(st, s.before), RefreshGet(b, t), s.toRead, b);
    RunConcat(st, s.before, [RefreshGet(b, t)] + s.toRead);
    assert UpToRead(s, b, t) == s.before + ([RefreshGet(b, t)] + s.toRead);
  }

  lemma ReadStage(st: State, s: Schedule, b: RequestId, t: Token, stage: Stage)
    requires OthersOnly(s, b) && Reached(Run(st, UpToRead(s, b, t)), b, t, stage)
    ensures var at := Run(st, UpToRead(s, b, t));
            Reached(Run(st, UpToIssue(s, b, t)), b, t, if stage.Got? then AfterRead(at, stage.payload) else stage)
  {
    var at := Run(st, UpToRead(s, b, t));
    One(at, RefreshRead(b));
    ThenOthers(at, RefreshRead(b), s.toIssue, b);
    RunConcat(st, UpToRead(s, b, t), [RefreshRead(b)] + s.toIssue);
    assert UpToIssue(s, b, t) == UpToRead(s, b, t) + ([RefreshRead(b)] + s.toIssue);
  }

  // The last two steps, from each stage that the first two can lead to.
  lemma EndStage(st: State, s: Schedule, b: RequestId, t: Token, g: Guards, stage: Stage)
    requires OthersOnly(s, b) && Reached(Run(st, UpToIssue(s, b, t)), b, t, stage)
    requires stage.Checked? || stage.Rejecting? || stage.Failed?
    requires NeverSeen(Run(st, UpToIssue(s, b, t)), g.newToken)
    ensures var st' := Run(st, Whole(s, b, t, g));
            && AtStage(st', b) && st'.requests[b].token == t
            && ReplyOf(StageOf(st', b)) == Some(
                 match stage
                 case Checked(snap) =>
                   if g.verificationRequired && !snap.doc.emailVerified then Refused(NotVerified)
                   else if !g.deviceKnown then Refused(BadDevice)
                   else Granted(g.newToken)
                 case Rejecting(why) => Refused(why)
                 case Failed(why) => Refused(why)
                 case _ => Refused(UnknownToken))
  {
    hide Run, UpToIssue;
    var at := Run(st, UpToIssue(s, b, t));
    var issue := RefreshIssue(b, g.verificationRequired, g.deviceKnown, g.newToken);
    One(at, issue);
    ThenOthers(at, issue, s.toRevoke, b);
    var last := Run(at, [issue] + s.toRevoke);
    One(last, RefreshRevoke(b));
    RunConcat(at, [issue] + s.toRevoke, [RefreshRevoke(b)]);
    RunConcat(st, UpToIssue(s, b, t), [issue] + s.toRevoke + [RefreshRevoke(b)]);
    assert Whole(s, b, t, g) == UpToIssue(s, b, t) + ([issue] + s.toRevoke + [RefreshRevoke(b)]);
  }

  // The exact outcome of a refresh over every interleaving. It is refused as unknown if and only if the token was
  // removed before its first step. Otherwise only the user as its second step reads it, and the two guards, decide:
  // whether and when another refresh, a logout or the expiry removes the token after the first step does not matter.
  // So any number of refreshes that find the token before its removal are granted together.
  lemma RefreshOutcomeExactly(st: State, s: Schedule, b: RequestId, t: Token, g: Guards)
    requires Inv(st) && t in st.tokens && b !in st.requests && OthersOnly(s, b)
    requires NeverSeen(Run(st, UpToIssue(s, b, t)), g.newToken)
    ensures var st' := Run(st, Whole(s, b, t, g));
            var users := Run(st, UpToRead(s, b, t)).users;
            var p := st.tokens[t];
            && AtStage(st', b) && st'.requests[b].token == t
            && ReplyOf(StageOf(st', b)) ==
               Some(if RemovedIn(st, s.before, t) then Refused(UnknownToken) else Verdict(users, p, g))
            && (ReplyOf(StageOf(st', b)) == Some(Refused(UnknownToken)) <==> RemovedIn(st, s.before, t))
            && (ReplyOf(StageOf(st', b)) == Some(Granted(g.newToken)) <==>
                  && !RemovedIn(st, s.before, t)
                  && p.user in users && users[p.user].version == p.v
                  && (g.verificationRequired ==> users[p.user].emailVerified) && g.deviceKnown)
  {
    hide Run, Whole, UpToRead, UpToIssue, RemovedIn;
    assert TokenOk(st, t);
    StoredUntilRemoved(st, s.before, t);
    GetStage(st, s, b, t);
    var tokens := Run(st, s.before).tokens;
    var got := if t in tokens then Got(tokens[t]) else Failed(UnknownToken);
    ReadStage(st, s, b, t, got);
    var at := Run(st, UpToRead(s, b, t));
    EndStage(st, s, b, t, g, if got.Got? then AfterRead(at, got.payload) else got);
  }
}
