// Sign-in and password reset among other requests: what each of them comes to, and that a finished reset ends every
// token from before it.

module SignInAndReset {
  import opened Text
  import opened Tokens
  import opened AuthService
  import opened RefreshOutcome

  // A request with a first and a last step, and others in between.
  function Around(first: Event, others: seq<Event>, last: Event): seq<Event> {
    [first] + others + [last]
  }

  lemma RunAround(st: State, first: Event, others: seq<Event>, last: Event, b: RequestId)
    requires Others(others, b)
    ensures var st1 := Run(st, [first]);
            var st2 := Run(st1, others);
            && Run(st, Around(first, others, last)) == Run(st2, [last])
            && (b in st2.requests <==> b in st1.requests)
            && (b in st1.requests ==> st2.requests[b] == st1.requests[b])
  {
    RunConcat(st, [first], others);
    RunConcat(st, [first] + others, [last]);
    Undisturbed(Run(st, [first]), others, b);
  }

  // A sign-in is granted exactly if its guards let it and the user is there when it is read. It then stores one new
  // token, with the version that was read; refused, it stores none.
  lemma SignInExactly(st: State, id: RequestId, user: UserId, allowed: bool, others: seq<Event>, newToken: Token)
    requires id !in st.requests && Others(others, id)
    requires NeverSeen(Run(Run(st, [SignInRead(id, user, allowed)]), others), newToken)
    ensures var before := Run(Run(st, [SignInRead(id, user, allowed)]), others);
            var st' := Run(st, Around(SignInRead(id, user, allowed), others, SignInIssue(id, newToken)));
            && id in st'.requests
            && (st'.requests[id] == SignedIn(newToken) <==> user in st.users && allowed)
            && (st'.requests[id] == SignInRefused <==> !(user in st.users && allowed))
            && st'.tokens == if user in st.users && allowed
                             then before.tokens[newToken := Payload(user, st.users[user].version)] else before.tokens
  {
    hide Run;
    var first, last := SignInRead(id, user, allowed), SignInIssue(id, newToken);
    RunAround(st, first, others, last, id);
    One(st, first);
    One(Run(Run(st, [first]), others), last);
  }

  // A reset is done exactly if its guards let it and the user is there at both of its steps. It then raises the user's
  // version by one; refused, it leaves all users alone. It touches no token itself.
  lemma ResetExactly(st: State, id: RequestId, user: UserId, allowed: bool, others: seq<Event>)
    requires id !in st.requests && Others(others, id)
    ensures var before := Run(Run(st, [ResetRead(id, user, allowed)]), others);
            var st' := Run(st, Around(ResetRead(id, user, allowed), others, ResetBump(id)));
            var done := allowed && user in st.users && user in before.users;
            && id in st'.requests && st'.requests[id] == ResetEnded(done) && st'.tokens == before.tokens
            && st'.users == if done
                            then before.users[user := before.users[user].(version := before.users[user].version + 1)]
                            else before.users
  {
    hide Run;
    var first, last := ResetRead(id, user, allowed), ResetBump(id);
    RunAround(st, first, others, last, id);
    One(st, first);
    One(Run(Run(st, [first]), others), last);
  }

  // Versions never fall, and a user that was removed does not come back.
  lemma {:induction false} VersionsGrow(st: State, es: seq<Event>, user: UserId)
    requires Inv(st) && user in st.known
    ensures var st' := Run(st, es);
            && Inv(st') && user in st'.known
            && (user in st'.users ==> user in st.users && st.users[user].version <= st'.users[user].version)
  {
    hide Step, Inv, Enabled;
    if es != [] {
      var front, e := es[..|es| - 1], es[|es| - 1];
      VersionsGrow(st, front, user);
      if Enabled(Run(st, front), e) {
        StepKeepsInv(Run(st, front), e);
        StepIsSteady(Run(st, front), e);
      }
    }
  }

  // Once a reset is done, no refresh that starts later is granted for a token from before it, whatever comes in
  // between: it is refused because the token or the user is gone, or the version is revoked.
  lemma ResetEndsTokens(st: State, id: RequestId, t: Token, s: Schedule, b: RequestId, g: Guards)
    requires Inv(st) && t in st.tokens && st.tokens[t].user in st.users
    requires id in st.requests && st.requests[id] == Resetting(st.tokens[t].user)
    requires b != id && b !in st.requests && OthersOnly(s, b)
    requires NeverSeen(Run(Step(st, ResetBump(id)), UpToIssue(s, b, t)), g.newToken)
    ensures var st' := Run(Step(st, ResetBump(id)), Whole(s, b, t, g));
            && AtStage(st', b)
            && ReplyOf(StageOf(st', b)) in {Some(Refused(UnknownToken)), Some(Refused(UserGone)), Some(Refused(VersionRevoked))}
  {
    hide Run, Whole, UpToRead, UpToIssue, RemovedIn;
    var st1 := Step(st, ResetBump(id));
    var user := st.tokens[t].user;
    StepKeepsInv(st, ResetBump(id));
    assert TokenOk(st, t) && MintOk(st, st.minted[t]);
    assert st1.users[user].version == st.users[user].version + 1 && st1.tokens == st.tokens;
    RefreshOutcomeExactly(st1, s, b, t, g);
    VersionsGrow(st1, UpToRead(s, b, t), user);
  }
}
