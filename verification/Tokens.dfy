// Refresh tokens on the server: sign-in, refresh, logout and password reset, interleaved at each read and write of
// the token store and the user store.

module Tokens {
  import opened Text

  // Opaque names. A token stands for its hash, under which it is stored.
  type UserId = nat
  type Token = nat
  type RequestId = nat

  datatype User = User(version: nat, emailVerified: bool, guest: bool)

  // What the token store holds for a token.
  datatype Payload = Payload(user: UserId, v: nat)

  // A user document as a request read it, and when.
  datatype Snapshot = Snapshot(user: UserId, doc: User, at: nat)

  datatype Why = UnknownToken | UserGone | VersionRevoked | NotVerified | BadDevice

  // A refresh between its steps: payload read, user read and version checked, about to revoke and reject, tokens
  // issued, and the two ends.
  datatype Stage =
    | Got(payload: Payload)
    | Checked(snap: Snapshot)
    | Rejecting(why: Why)
    | Issued(snap: Snapshot, newToken: Token)
    | Succeeded(snap: Snapshot, newToken: Token)
    | Failed(why: Why)

  datatype Request =
    | SigningIn(snap: Snapshot)
    | SignedIn(newToken: Token)
    | SignInRefused
    | Refresh(token: Token, stage: Stage)
    | LoggedOut(token: Token)
    | Resetting(user: UserId)
    | ResetEnded(done: bool)

  // How a token came about: from which user document.
  datatype Mint = Mint(user: UserId, v: nat, readAt: nat)

  // clock counts steps; known, minted, presented and resets record the past.
  datatype State = State(
    clock: nat,
    users: map<UserId, User>,
    known: set<UserId>,
    tokens: map<Token, Payload>,
    minted: map<Token, Mint>,
    presented: set<Token>,
    resets: set<(UserId, nat)>,
    requests: map<RequestId, Request>)

  const EMPTY := State(0, map[], {}, map[], map[], {}, {}, map[])

  datatype Event =
    | CreateUser(user: UserId, emailVerified: bool, guest: bool)
    | VerifyEmail(user: UserId)
    | RemoveUser(user: UserId)
    | Expire(token: Token)
    // allowed: the password, email and guest guards of the sign-in at hand
    | SignInRead(id: RequestId, user: UserId, allowed: bool)
    | SignInIssue(id: RequestId, newToken: Token)
    | RefreshGet(id: RequestId, token: Token)
    | RefreshRead(id: RequestId)
    | RefreshIssue(id: RequestId, verificationRequired: bool, deviceKnown: bool, newToken: Token)
    | RefreshRevoke(id: RequestId)
    | Logout(id: RequestId, token: Token)
    // allowed: the claims name this account and it is no guest
    | ResetRead(id: RequestId, user: UserId, allowed: bool)
    | ResetBump(id: RequestId)

  // Tokens are 48 random bytes: never one that was issued or presented before.
  predicate NeverSeen(st: State, t: Token) {
    t !in st.minted && t !in st.presented
  }

  predicate AtStage(st: State, id: RequestId) {
    id in st.requests && st.requests[id].Refresh?
  }

  predicate Enabled(st: State, e: Event) {
    match e
    case CreateUser(user, _, _) => user !in st.known
    case VerifyEmail(user) => user in st.users
    case RemoveUser(user) => true
    case Expire(t) => true
    case SignInRead(id, _, _) => id !in st.requests
    case SignInIssue(id, newToken) => id in st.requests && st.requests[id].SigningIn? && NeverSeen(st, newToken)
    case RefreshGet(id, t) => id !in st.requests
    case RefreshRead(id) => AtStage(st, id) && st.requests[id].stage.Got?
    case RefreshIssue(id, _, _, newToken) => AtStage(st, id) && st.requests[id].stage.Checked? && NeverSeen(st, newToken)
    case RefreshRevoke(id) =>
      AtStage(st, id) && (st.requests[id].stage.Rejecting? || st.requests[id].stage.Issued?)
    case Logout(id, t) => id !in st.requests
    case ResetRead(id, _, _) => id !in st.requests
    case ResetBump(id) => id in st.requests && st.requests[id].Resetting?
  }

  function Put(st: State, id: RequestId, r: Request): State {
    st.(requests := st.requests[id := r])
  }

  // createRefreshToken with the version of the user document in hand.
  function MintFrom(st: State, snap: Snapshot, newToken: Token): State {
    st.(tokens := st.tokens[newToken := Payload(snap.user, snap.doc.version)],
        minted := st.minted[newToken := Mint(snap.user, snap.doc.version, snap.at)])
  }

  function Drop(st: State, t: Token): State {
    st.(tokens := st.tokens - {t})
  }

  function AfterRead(st: State, p: Payload): Stage {
    if p.user !in st.users then Rejecting(UserGone)
    else if st.users[p.user].version != p.v then Rejecting(VersionRevoked)
    else Checked(Snapshot(p.user, st.users[p.user], st.clock))
  }

  function Effect(st: State, e: Event): State
    requires Enabled(st, e)
  {
    match e
    case CreateUser(user, verified, guest) =>
      st.(users := st.users[user := User(0, verified, guest)], known := st.known + {user})
    case VerifyEmail(user) => st.(users := st.users[user := st.users[user].(emailVerified := true)])
    case RemoveUser(user) => st.(users := st.users - {user})
    case Expire(t) => Drop(st, t)
    case SignInRead(id, user, allowed) =>
      Put(st, id, if user in st.users && allowed then SigningIn(Snapshot(user, st.users[user], st.clock)) else SignInRefused)
    case SignInIssue(id, newToken) => Put(MintFrom(st, st.requests[id].snap, newToken), id, SignedIn(newToken))
    case RefreshGet(id, t) =>
      var stage := if t in st.tokens then Got(st.tokens[t]) else Failed(UnknownToken);
      Put(st.(presented := st.presented + {t}), id, Refresh(t, stage))
    case RefreshRead(id) =>
      Put(st, id, st.requests[id].(stage := AfterRead(st, st.requests[id].stage.payload)))
    case RefreshIssue(id, verificationRequired, deviceKnown, newToken) =>
      var r := st.requests[id];
      if verificationRequired && !r.stage.snap.doc.emailVerified then Put(st, id, r.(stage := Failed(NotVerified)))
      else if !deviceKnown then Put(st, id, r.(stage := Failed(BadDevice)))
      else Put(MintFrom(st, r.stage.snap, newToken), id, r.(stage := Issued(r.stage.snap, newToken)))
    case RefreshRevoke(id) =>
      var r := st.requests[id];
      Put(Drop(st, r.token), id,
          r.(stage := if r.stage.Rejecting? then Failed(r.stage.why) else Succeeded(r.stage.snap, r.stage.newToken)))
    case Logout(id, t) => Put(Drop(st, t).(presented := st.presented + {t}), id, LoggedOut(t))
    case ResetRead(id, user, allowed) =>
      Put(st, id, if user in st.users && allowed then Resetting(user) else ResetEnded(false))
    case ResetBump(id) =>
      var user := st.requests[id].user;
      if user in st.users then
        Put(st.(users := st.users[user := st.users[user].(version := st.users[user].version + 1)],
                resets := st.resets + {(user, st.clock)}), id, ResetEnded(true))
      else Put(st, id, ResetEnded(false))
  }

  function Step(st: State, e: Event): State
    requires Enabled(st, e)
  {
    Effect(st, e).(clock := st.clock + 1)
  }

  // What the environment does to users: a new one starts at version 0, verifying sets the one mark, and neither
  // touches another user or a token.
  lemma UsersChange(st: State, e: Event)
    requires Enabled(st, e) && (e.CreateUser? || e.VerifyEmail? || e.RemoveUser?)
    ensures var st' := Step(st, e);
            && st'.tokens == st.tokens && st'.requests == st.requests
            && (forall u :: u != e.user ==> (u in st'.users <==> u in st.users) && (u in st.users ==> st'.users[u] == st.users[u]))
            && (e.user in st'.users <==> !e.RemoveUser?)
            && (e.CreateUser? ==> st'.users[e.user] == User(0, e.emailVerified, e.guest))
            && (e.VerifyEmail? ==> st'.users[e.user] == st.users[e.user].(emailVerified := true))
  {
  }

  function Run(st: State, es: seq<Event>): State
    decreases |es|
  {
    if es == [] then st
    else
      var before := Run(st, es[..|es| - 1]);
      if Enabled(before, es[|es| - 1]) then Step(before, es[|es| - 1]) else before
  }

  // ----- Invariant -----

  // All resets of the user so far happened before the given time.
  ghost predicate NoResetSince(st: State, user: UserId, at: nat) {
    forall r :: r in st.resets && r.0 == user ==> r.1 < at
  }

  // A version read at some time: not ahead of the user's, and equal only if there was no reset since.
  ghost predicate VersionOk(st: State, user: UserId, v: nat, at: nat) {
    && user in st.known
    && (user in st.users ==>
          v <= st.users[user].version && (v == st.users[user].version ==> NoResetSince(st, user, at)))
  }

  ghost predicate MintOk(st: State, m: Mint) {
    VersionOk(st, m.user, m.v, m.readAt)
  }

  ghost predicate TokenOk(st: State, t: Token) {
    t in st.tokens ==>
      && t in st.minted
      && st.tokens[t] == Payload(st.minted[t].user, st.minted[t].v)
  }

  ghost predicate SnapOk(st: State, snap: Snapshot) {
    snap.at < st.clock && VersionOk(st, snap.user, snap.doc.version, snap.at)
  }

  // The token presented to a refresh that passed the version check was minted after all resets that its user read saw.
  ghost predicate PassedOk(st: State, t: Token, snap: Snapshot) {
    && SnapOk(st, snap) && t in st.minted
    && st.minted[t].user == snap.user && st.minted[t].v == snap.doc.version
    && forall r :: r in st.resets && r.0 == snap.user && r.1 < snap.at ==> r.1 < st.minted[t].readAt
  }

  ghost predicate RequestOk(st: State, r: Request) {
    match r
    case SigningIn(snap) => SnapOk(st, snap)
    case Refresh(t, stage) =>
      t in st.presented &&
      (match stage
       case Got(p) => t in st.minted && p == Payload(st.minted[t].user, st.minted[t].v)
       case Checked(snap) => PassedOk(st, t, snap)
       case Issued(snap, newToken) => PassedOk(st, t, snap) && st.minted[t].v == snap.doc.version
       case Succeeded(snap, newToken) => PassedOk(st, t, snap) && t !in st.tokens
       case Rejecting(_) => t in st.minted
       case Failed(why) => why.UnknownToken? || why.UserGone? || why.VersionRevoked? ==> t !in st.tokens)
    case LoggedOut(t) => t in st.presented && t !in st.tokens
    case _ => true
  }

  ghost predicate Inv(st: State) {
    && st.users.Keys <= st.known
    && (forall r :: r in st.resets ==> r.1 < st.clock && r.0 in st.known)
    && (forall t :: t in st.tokens ==> TokenOk(st, t))
    && (forall t :: t in st.minted ==> MintOk(st, st.minted[t]))
    && (forall id :: id in st.requests ==> RequestOk(st, st.requests[id]))
  }

  // What a step does to a request other than the one it advances.
  ghost predicate Steady(st: State, st': State) {
    && st.clock < st'.clock && st.known <= st'.known && st.presented <= st'.presented
    && (forall t :: t in st.minted ==> t in st'.minted && st'.minted[t] == st.minted[t])
    && (forall t :: t in st'.tokens && t !in st.tokens ==> NeverSeen(st, t))
    && (forall u :: u in st'.users && u in st.known ==> u in st.users && st.users[u].version <= st'.users[u].version)
    && (forall r :: r in st'.resets ==> r in st.resets || r.1 == st.clock)
    && (forall r :: r in st'.resets && r !in st.resets ==>
          r.0 in st'.users && r.0 in st.users && st.users[r.0].version < st'.users[r.0].version)
  }

  lemma StepIsSteady(st: State, e: Event)
    requires Enabled(st, e) && Inv(st)
    ensures Steady(st, Step(st, e))
  {
    hide RequestOk, VersionOk, MintOk, TokenOk;
  }

  lemma VersionStays(st: State, st': State, user: UserId, v: nat, at: nat)
    requires Steady(st, st') && VersionOk(st, user, v, at)
    ensures VersionOk(st', user, v, at)
  {
  }

  lemma RequestStays(st: State, st': State, r: Request)
    requires Steady(st, st') && RequestOk(st, r)
    ensures RequestOk(st', r)
  {
    match r
    case SigningIn(snap) => VersionStays(st, st', snap.user, snap.doc.version, snap.at);
    case Refresh(t, stage) =>
      if stage.Checked? || stage.Issued? || stage.Succeeded? {
        VersionStays(st, st', stage.snap.user, stage.snap.doc.version, stage.snap.at);
      }
    case _ =>
  }

  // The request that an event advances, and what becomes of it.
  predicate Advances(e: Event) {
    !(e.CreateUser? || e.VerifyEmail? || e.RemoveUser? || e.Expire?)
  }

  lemma OtherRequests(st: State, e: Event, id: RequestId)
    requires Enabled(st, e) && id in Step(st, e).requests && !(Advances(e) && e.id == id)
    ensures id in st.requests && Step(st, e).requests[id] == st.requests[id]
  {
  }

  lemma SnapshotNow(st: State, user: UserId, st': State)
    requires Inv(st) && user in st.users && Steady(st, st')
    requires st'.users == st.users && st'.resets == st.resets
    ensures SnapOk(st', Snapshot(user, st.users[user], st.clock))
  {
  }

  lemma ReadKeepsOk(st: State, id: RequestId)
    requires Inv(st) && Enabled(st, RefreshRead(id))
    ensures var st' := Step(st, RefreshRead(id)); RequestOk(st', st'.requests[id])
  {
    var e := RefreshRead(id);
    var st' := Step(st, e);
    var r := st.requests[id];
    StepIsSteady(st, e);
    assert RequestOk(st, r);
    var stage := AfterRead(st, r.stage.payload);
    if stage.Checked? {
      SnapshotNow(st, stage.snap.user, st');
      assert MintOk(st, st.minted[r.token]);
    }
  }

  lemma SignInReadOk(st: State, id: RequestId, user: UserId, allowed: bool)
    requires Inv(st) && Enabled(st, SignInRead(id, user, allowed))
    ensures var st' := Step(st, SignInRead(id, user, allowed)); id in st'.requests && RequestOk(st', st'.requests[id])
  {
    var e := SignInRead(id, user, allowed);
    StepIsSteady(st, e);
    if user in st.users { SnapshotNow(st, user, Step(st, e)); }
  }

  lemma RefreshGetOk(st: State, id: RequestId, t: Token)
    requires Inv(st) && Enabled(st, RefreshGet(id, t))
    ensures var st' := Step(st, RefreshGet(id, t)); id in st'.requests && RequestOk(st', st'.requests[id])
  {
    if t in st.tokens { assert TokenOk(st, t); }
  }

  // Issuing and revoking take over what was established when the user was read.
  lemma RefreshGoesOnOk(st: State, e: Event)
    requires Inv(st) && Enabled(st, e) && (e.RefreshIssue? || e.RefreshRevoke?)
    ensures var st' := Step(st, e); e.id in st'.requests && RequestOk(st', st'.requests[e.id])
  {
    hide MintOk, TokenOk;
    StepIsSteady(st, e);
    assert RequestOk(st, st.requests[e.id]);
    RequestStays(st, Step(st, e), st.requests[e.id]);
  }

  lemma AdvancedOk(st: State, e: Event)
    requires Inv(st) && Enabled(st, e) && Advances(e)
    ensures var st' := Step(st, e); e.id in st'.requests && RequestOk(st', st'.requests[e.id])
  {
    match e
    case SignInRead(id, user, allowed) => SignInReadOk(st, id, user, allowed);
    case RefreshGet(id, t) => RefreshGetOk(st, id, t);
    case RefreshRead(id) => ReadKeepsOk(st, id);
    case RefreshIssue(_, _, _, _) => RefreshGoesOnOk(st, e);
    case RefreshRevoke(_) => RefreshGoesOnOk(st, e);
    case _ =>
  }

  lemma MintedOk(st: State, e: Event, t: Token)
    requires Inv(st) && Enabled(st, e) && t in Step(st, e).minted
    ensures MintOk(Step(st, e), Step(st, e).minted[t])
  {
    var st' := Step(st, e);
    StepIsSteady(st, e);
    if t in st.minted {
      var m := st.minted[t];
      assert MintOk(st, m);
      VersionStays(st, st', m.user, m.v, m.readAt);
    } else {
      var r := st.requests[e.id];
      assert RequestOk(st, r);
      var snap := if e.SignInIssue? then r.snap else r.stage.snap;
      VersionStays(st, st', snap.user, snap.doc.version, snap.at);
    }
  }

  lemma TokensOk(st: State, e: Event)
    requires Inv(st) && Enabled(st, e)
    ensures forall t :: t in Step(st, e).tokens ==> TokenOk(Step(st, e), t)
  {
    var st' := Step(st, e);
    forall t | t in st'.tokens ensures TokenOk(st', t) {
      if t in st.tokens { assert TokenOk(st, t); }
    }
  }

  lemma StepKeepsInv(st: State, e: Event)
    requires Inv(st) && Enabled(st, e)
    ensures Inv(Step(st, e))
  {
    var st' := Step(st, e);
    StepIsSteady(st, e);
    TokensOk(st, e);
    forall t | t in st'.minted ensures MintOk(st', st'.minted[t]) { MintedOk(st, e, t); }
    forall id | id in st'.requests ensures RequestOk(st', st'.requests[id]) {
      if Advances(e) && e.id == id {
        AdvancedOk(st, e);
      } else {
        OtherRequests(st, e, id);
        assert RequestOk(st, st.requests[id]);
        RequestStays(st, st', st.requests[id]);
      }
    }
  }

  lemma {:induction false} RunKeepsInv(st: State, es: seq<Event>)
    requires Inv(st)
    ensures Inv(Run(st, es))
  {
    if es != [] {
      RunKeepsInv(st, es[..|es| - 1]);
      var before := Run(st, es[..|es| - 1]);
      if Enabled(before, es[|es| - 1]) { StepKeepsInv(before, es[|es| - 1]); }
    }
  }

  // ----- Results -----

  // No stored token's version is ahead of its user's, and one that is level with it was minted from a user document
  // read after all of the user's resets.
  lemma StoredVersionsNeverAhead(es: seq<Event>, t: Token)
    ensures var st := Run(EMPTY, es);
            t in st.tokens && st.tokens[t].user in st.users ==>
              var p := st.tokens[t];
              && p.v <= st.users[p.user].version
              && (p.v == st.users[p.user].version ==>
                    t in st.minted && NoResetSince(st, p.user, st.minted[t].readAt))
  {
    RunKeepsInv(EMPTY, es);
    var st := Run(EMPTY, es);
    if t in st.tokens { assert TokenOk(st, t) && MintOk(st, st.minted[t]); }
  }

  // In any interleaving, a refresh that succeeds was given a token minted from a user read later than every reset
  // that came before the refresh's own user read.
  lemma SuccessMeansMintedAfterResets(es: seq<Event>, id: RequestId)
    ensures var st := Run(EMPTY, es);
            id in st.requests && st.requests[id].Refresh? && st.requests[id].stage.Succeeded? ==>
              var t, snap := st.requests[id].token, st.requests[id].stage.snap;
              && t in st.minted && st.minted[t].user == snap.user && st.minted[t].v == snap.doc.version
              && forall r :: r in st.resets && r.0 == snap.user && r.1 < snap.at ==> r.1 < st.minted[t].readAt
  {
    RunKeepsInv(EMPTY, es);
    var st := Run(EMPTY, es);
    if id in st.requests { assert RequestOk(st, st.requests[id]); }
  }

  // A token that is gone stays gone.
  lemma {:induction false} GoneForGood(st: State, es: seq<Event>, t: Token)
    requires Inv(st) && t !in st.tokens && !NeverSeen(st, t)
    ensures var st' := Run(st, es); t !in st'.tokens && !NeverSeen(st', t)
  {
    if es != [] {
      GoneForGood(st, es[..|es| - 1], t);
      RunKeepsInv(st, es[..|es| - 1]);
      var before := Run(st, es[..|es| - 1]);
      if Enabled(before, es[|es| - 1]) { StepIsSteady(before, es[|es| - 1]); }
    }
  }

  // The token is spent: a refresh of it has ended, other than by the email or device guard, or a logout has.
  predicate Spent(st: State, id: RequestId, t: Token) {
    id in st.requests &&
    match st.requests[id]
    case Refresh(t', stage) =>
      t' == t && (stage.Succeeded? || (stage.Failed? && !stage.why.NotVerified? && !stage.why.BadDevice?))
    case LoggedOut(t') => t' == t
    case _ => false
  }

  lemma {:induction false} LaterRefreshFails(st: State, es: seq<Event>, t: Token, later: RequestId)
    requires Inv(st) && t !in st.tokens && !NeverSeen(st, t) && later !in st.requests
    ensures var st' := Run(st, es);
            later in st'.requests && st'.requests[later].Refresh? && st'.requests[later].token == t ==>
              st'.requests[later].stage == Failed(UnknownToken)
  {
    if es != [] {
      var front, e := es[..|es| - 1], es[|es| - 1];
      var before := Run(st, front);
      LaterRefreshFails(st, front, t, later);
      GoneForGood(st, front, t);
      if Enabled(before, e) {
        var st' := Step(before, e);
        if later in st'.requests && !(Advances(e) && e.id == later) { OtherRequests(before, e, later); }
      }
    }
  }

  // A refresh that starts after the same token was refreshed, rejected or logged out is refused, however the rest of
  // the run goes.
  lemma SpentTokenIsRefused(es: seq<Event>, more: seq<Event>, id: RequestId, later: RequestId, t: Token)
    ensures var st := Run(EMPTY, es);
            var st' := Run(st, more);
            Spent(st, id, t) && later !in st.requests
            && later in st'.requests && st'.requests[later].Refresh? && st'.requests[later].token == t ==>
              st'.requests[later].stage == Failed(UnknownToken)
  {
    RunKeepsInv(EMPTY, es);
    var st := Run(EMPTY, es);
    if Spent(st, id, t) && later !in st.requests {
      assert RequestOk(st, st.requests[id]);
      LaterRefreshFails(st, more, t, later);
    }
  }

  lemma RunSnoc(st: State, es: seq<Event>, e: Event)
    ensures Run(st, es + [e]) == if Enabled(Run(st, es), e) then Step(Run(st, es), e) else Run(st, es)
  {
    assert (es + [e])[..|es|] == es;
  }
}
