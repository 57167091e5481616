// The handlers that issue, renew and withdraw refresh tokens, run without interruption, and how they relate to the
// interleaved protocol.

module AuthService {
  import opened Text
  import opened Tokens

  datatype Reply = Granted(newToken: Token) | Refused(why: Why)

  // What a refresh does when nothing comes in between.
  function RefreshAtOnce(users: map<UserId, User>, tokens: map<Token, Payload>, t: Token,
                         verificationRequired: bool, deviceKnown: bool, newToken: Token)
    : (map<Token, Payload>, Reply)
  {
    if t !in tokens then (tokens, Refused(UnknownToken))
    else
      var p := tokens[t];
      if p.user !in users then (tokens - {t}, Refused(UserGone))
      else if users[p.user].version != p.v then (tokens - {t}, Refused(VersionRevoked))
      else if verificationRequired && !users[p.user].emailVerified then (tokens, Refused(NotVerified))
      else if !deviceKnown then (tokens, Refused(BadDevice))
      else (tokens[newToken := p] - {t}, Granted(newToken))
  }

  function ReplyOf(stage: Stage): Option<Reply> {
    match stage
    case Succeeded(_, newToken) => Some(Granted(newToken))
    case Failed(why) => Some(Refused(why))
    case _ => None
  }

  function RefreshSteps(id: RequestId, t: Token, verificationRequired: bool, deviceKnown: bool, newToken: Token)
    : seq<Event>
  {
    [RefreshGet(id, t), RefreshRead(id), RefreshIssue(id, verificationRequired, deviceKnown, newToken), RefreshRevoke(id)]
  }

  lemma RunFour(st: State, a: Event, b: Event, c: Event, d: Event)
    ensures var s1 := Run(st, [a]);
            var s2 := Run(s1, [b]);
            var s3 := Run(s2, [c]);
            Run(st, [a, b, c, d]) == Run(s3, [d])
  {
    assert [a, b, c, d] == [a, b, c] + [d] && [a, b, c] == [a, b] + [c] && [a, b] == [a] + [b];
    RunSnoc(st, [a, b, c], d);
    RunSnoc(st, [a, b], c);
    RunSnoc(st, [a], b);
    One(Run(st, [a]), b);
    One(Run(Run(st, [a]), [b]), c);
    One(Run(Run(Run(st, [a]), [b]), [c]), d);
  }

  lemma One(st: State, e: Event)
    ensures Run(st, [e]) == if Enabled(st, e) then Step(st, e) else st
  {
    assert [e] == [] + [e];
    RunSnoc(st, [], e);
  }

  // The four atomic steps of a refresh, taken in a row, are the refresh at once.
  lemma UninterruptedRefresh(st: State, id: RequestId, t: Token, verificationRequired: bool, deviceKnown: bool,
                             newToken: Token)
    requires id !in st.requests && NeverSeen(st, newToken) && newToken != t
    ensures var st' := Run(st, RefreshSteps(id, t, verificationRequired, deviceKnown, newToken));
            var r := RefreshAtOnce(st.users, st.tokens, t, verificationRequired, deviceKnown, newToken);
            && id in st'.requests && st'.requests[id].Refresh? && st'.requests[id].token == t
            && ReplyOf(st'.requests[id].stage) == Some(r.1) && st'.tokens == r.0 && st'.users == st.users
  {
    hide Run;
    var s0 := RefreshGet(id, t);
    var s1 := RefreshRead(id);
    var s2 := RefreshIssue(id, verificationRequired, deviceKnown, newToken);
    RunFour(st, s0, s1, s2, RefreshRevoke(id));
    One(st, s0);
    var st1 := Run(st, [s0]);
    One(st1, s1);
    var st2 := Run(st1, [s1]);
    One(st2, s2);
    One(Run(st2, [s2]), RefreshRevoke(id));
  }

  // A successful refresh swaps the token for one of the same user and version, and a refused one never adds any;
  // only the email and device guards leave the presented token in place.
  lemma RefreshSwaps(users: map<UserId, User>, tokens: map<Token, Payload>, t: Token,
                     verificationRequired: bool, deviceKnown: bool, newToken: Token)
    requires newToken !in tokens && newToken != t
    ensures var r := RefreshAtOnce(users, tokens, t, verificationRequired, deviceKnown, newToken);
            && (r.1.Granted? <==>
                  && t in tokens && tokens[t].user in users && users[tokens[t].user].version == tokens[t].v
                  && (verificationRequired ==> users[tokens[t].user].emailVerified) && deviceKnown)
            && (r.1.Granted? ==> newToken in r.0 && r.0[newToken] == tokens[t] && |r.0| == |tokens|)
            && (r.1.Refused? ==> r.0.Keys <= tokens.Keys)
            && (t in r.0 <==> r.1 == Refused(NotVerified) || r.1 == Refused(BadDevice))
            && forall o :: o != t && o != newToken ==> (o in r.0 <==> o in tokens) && (o in tokens ==> r.0[o] == tokens[o])
  {
    var r := RefreshAtOnce(users, tokens, t, verificationRequired, deviceKnown, newToken);
    if r.1.Granted? {
      assert tokens.Keys == r.0.Keys - {newToken} + {t};
      assert r.0.Keys == tokens.Keys - {t} + {newToken};
      assert |tokens.Keys - {t}| == |tokens.Keys| - 1;
    }
  }

  // Two refreshes of one token that both read it before either has revoked it both succeed, and both new tokens stay
  // valid: the code does not make a token single-use under overlap. Module RefreshOutcome has the exact condition.
  lemma OverlappingRefreshesBothSucceed(st: State, t: Token, a: RequestId, b: RequestId, newA: Token, newB: Token)
    requires t in st.tokens && st.tokens[t].user in st.users && st.users[st.tokens[t].user].version == st.tokens[t].v
    requires a != b && a !in st.requests && b !in st.requests
    requires NeverSeen(st, newA) && NeverSeen(st, newB) && newA != newB && newA != t && newB != t
    ensures var st' := Run(Run(st, [RefreshGet(a, t), RefreshGet(b, t), RefreshRead(a), RefreshRead(b)]),
                           [RefreshIssue(a, false, true, newA), RefreshIssue(b, false, true, newB),
                            RefreshRevoke(a), RefreshRevoke(b)]);
            && a in st'.requests && st'.requests[a].Refresh? && ReplyOf(st'.requests[a].stage) == Some(Granted(newA))
            && b in st'.requests && st'.requests[b].Refresh? && ReplyOf(st'.requests[b].stage) == Some(Granted(newB))
            && newA in st'.tokens && newB in st'.tokens && t !in st'.tokens
  {
    hide Run;
    var p := st.tokens[t];
    RunFour(st, RefreshGet(a, t), RefreshGet(b, t), RefreshRead(a), RefreshRead(b));
    One(st, RefreshGet(a, t));
    var s1 := Run(st, [RefreshGet(a, t)]);
    One(s1, RefreshGet(b, t));
    var s2 := Run(s1, [RefreshGet(b, t)]);
    One(s2, RefreshRead(a));
    var s3 := Run(s2, [RefreshRead(a)]);
    One(s3, RefreshRead(b));
    var s4 := Run(s3, [RefreshRead(b)]);
    assert s4.requests[a] == Refresh(t, Checked(Snapshot(p.user, st.users[p.user], s2.clock)));
    assert s4.requests[b] == Refresh(t, Checked(Snapshot(p.user, st.users[p.user], s3.clock)));
    assert s4.tokens == st.tokens && NeverSeen(s4, newA) && NeverSeen(s4, newB);
    BothFinish(s4, t, a, b, newA, newB);
  }

  lemma BothFinish(s4: State, t: Token, a: RequestId, b: RequestId, newA: Token, newB: Token)
    requires a != b && newA != newB && newA != t && newB != t && NeverSeen(s4, newA) && NeverSeen(s4, newB)
    requires AtStage(s4, a) && AtStage(s4, b)
    requires s4.requests[a].token == t && s4.requests[b].token == t
    requires s4.requests[a].stage.Checked? && s4.requests[b].stage.Checked?
    ensures var st' := Run(s4, [RefreshIssue(a, false, true, newA), RefreshIssue(b, false, true, newB),
                                RefreshRevoke(a), RefreshRevoke(b)]);
            && a in st'.requests && st'.requests[a].Refresh? && ReplyOf(st'.requests[a].stage) == Some(Granted(newA))
            && b in st'.requests && st'.requests[b].Refresh? && ReplyOf(st'.requests[b].stage) == Some(Granted(newB))
            && newA in st'.tokens && newB in st'.tokens && t !in st'.tokens
  {
    hide Run;
    var e5, e6 := RefreshIssue(a, false, true, newA), RefreshIssue(b, false, true, newB);
    RunFour(s4, e5, e6, RefreshRevoke(a), RefreshRevoke(b));
    IssueStep(s4, a, newA);
    var s5 := Run(s4, [e5]);
    IssueStep(s5, b, newB);
    var s6 := Run(s5, [e6]);
    RevokeStep(s6, a);
    var s7 := Run(s6, [RefreshRevoke(a)]);
    RevokeStep(s7, b);
  }

  lemma IssueStep(st: State, id: RequestId, newToken: Token)
    requires AtStage(st, id) && st.requests[id].stage.Checked? && NeverSeen(st, newToken)
    ensures var st' := Run(st, [RefreshIssue(id, false, true, newToken)]);
            var snap := st.requests[id].stage.snap;
            && st'.tokens == st.tokens[newToken := Payload(snap.user, snap.doc.version)]
            && st'.minted.Keys == st.minted.Keys + {newToken} && st'.presented == st.presented
            && st'.requests == st.requests[id := Refresh(st.requests[id].token, Issued(snap, newToken))]
  {
    One(st, RefreshIssue(id, false, true, newToken));
  }

  lemma RevokeStep(st: State, id: RequestId)
    requires AtStage(st, id) && st.requests[id].stage.Issued?
    ensures var st' := Run(st, [RefreshRevoke(id)]);
            var stage := st.requests[id].stage;
            && st'.tokens == st.tokens - {st.requests[id].token}
            && st'.requests == st.requests[id := Refresh(st.requests[id].token, Succeeded(stage.snap, stage.newToken))]
  {
    One(st, RefreshRevoke(id));
  }

  class Service {
    var users: map<UserId, User>
    var tokens: map<Token, Payload>

    constructor ()
      ensures users == map[] && tokens == map[]
    {
      users, tokens := map[], map[];
    }

    method CreateRefreshToken(user: UserId, version: nat, newToken: Token)
      modifies this`tokens
      ensures tokens == old(tokens)[newToken := Payload(user, version)]
    {
      tokens := tokens[newToken := Payload(user, version)];
    }

    method RevokeRefreshToken(t: Token)
      modifies this`tokens
      ensures tokens == old(tokens) - {t}
    {
      tokens := tokens - {t};
    }

    method GetRefreshPayload(t: Token) returns (p: Option<Payload>)
      ensures p == if t in tokens then Some(tokens[t]) else None
    {
      p := if t in tokens then Some(tokens[t]) else None;
    }

    // The version is taken from the document the handler read, not from the store: the token can be refreshed as
    // long as the user still has that version.
    method IssueAuthTokens(user: UserId, doc: User, newToken: Token)
      modifies this`tokens
      ensures tokens == old(tokens)[newToken := Payload(user, doc.version)]
      ensures forall now: map<UserId, User>, next ::
                RefreshAtOnce(now, tokens, newToken, false, true, next).1.Granted?
                <==> user in now && now[user].version == doc.version
    {
      CreateRefreshToken(user, doc.version, newToken);
    }

    method PostRefresh(t: Token, verificationRequired: bool, deviceKnown: bool, newToken: Token) returns (r: Reply)
      modifies this`tokens
      ensures (tokens, r) == RefreshAtOnce(users, old(tokens), t, verificationRequired, deviceKnown, newToken)
    {
      var stored := GetRefreshPayload(t);
      if stored.None? { return Refused(UnknownToken); }
      var p := stored.value;
      if p.user !in users {
        RevokeRefreshToken(t);
        return Refused(UserGone);
      }
      var user := users[p.user];
      if user.version != p.v {
        RevokeRefreshToken(t);
        return Refused(VersionRevoked);
      }
      if verificationRequired && !user.emailVerified { return Refused(NotVerified); }
      if !deviceKnown { return Refused(BadDevice); }
      IssueAuthTokens(p.user, user, newToken);
      RevokeRefreshToken(t);
      r := Granted(newToken);
    }

    // No refresh of the token is granted afterwards, and none of another token is affected.
    method PostLogout(t: Token)
      modifies this`tokens
      ensures tokens == old(tokens) - {t}
      ensures forall verificationRequired, deviceKnown, next ::
                RefreshAtOnce(users, tokens, t, verificationRequired, deviceKnown, next) == (tokens, Refused(UnknownToken))
      ensures forall o, verificationRequired, deviceKnown, next :: o != t ==>
                RefreshAtOnce(users, tokens, o, verificationRequired, deviceKnown, next).1
                == RefreshAtOnce(users, old(tokens), o, verificationRequired, deviceKnown, next).1
    {
      RevokeRefreshToken(t);
    }

    // account: what the look-up by email finds.
    method PostLogin(account: Option<UserId>, passwordOk: bool, deviceKnown: bool, newToken: Token)
      returns (r: Option<Token>)
      modifies this`tokens
      ensures r.Some? <==> account.Some? && account.value in users && passwordOk
                           && users[account.value].emailVerified && deviceKnown
      ensures match r
              case None => tokens == old(tokens)
              case Some(n) =>
                n == newToken && tokens == old(tokens)[n := Payload(account.value, users[account.value].version)]
    {
      if account.None? || account.value !in users || !passwordOk { return None; }
      var user := users[account.value];
      if !user.emailVerified { return None; }
      if !deviceKnown { return None; }
      IssueAuthTokens(account.value, user, newToken);
      r := Some(newToken);
    }

    method SetUserPasswordAndBumpVersion(user: UserId) returns (ok: bool)
      modifies this`users
      ensures ok == (user in old(users))
      ensures users == if ok then old(users)[user := old(users)[user].(version := old(users)[user].version + 1)]
                       else old(users)
    {
      ok := user in users;
      if ok { users := users[user := users[user].(version := users[user].version + 1)]; }
    }

    // After an accepted reset no token that could be refreshed before can be refreshed again.
    method PostResetPassword(user: UserId, emailMatches: bool) returns (ok: bool)
      requires forall t :: t in tokens && tokens[t].user in users ==> tokens[t].v <= users[tokens[t].user].version
      modifies this`users
      ensures ok <==> user in old(users) && emailMatches && !old(users)[user].guest
      ensures !ok ==> users == old(users)
      ensures ok ==> users == old(users)[user := old(users)[user].(version := old(users)[user].version + 1)]
      ensures ok ==> forall t, verificationRequired, deviceKnown, newToken :: t in tokens && tokens[t].user == user ==>
                RefreshAtOnce(users, tokens, t, verificationRequired, deviceKnown, newToken).1 == Refused(VersionRevoked)
    {
      if user !in users || !emailMatches { return false; }
      if users[user].guest { return false; }
      ok := SetUserPasswordAndBumpVersion(user);
    }
  }
}
