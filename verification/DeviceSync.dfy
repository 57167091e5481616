// The sync loop with real keys: a new device reads what the approving device could read.

module DeviceSync {
  import opened Text
  import opened Messages
  import opened Keyset
  import opened KeySync
  import opened SyncWalk
  import H = HybridCrypto

  // The approving device: its active private key, and the registered public key of the new device.
  datatype Approval = Approval(user: string, source: string, mine: H.PrivateKey, target: string, targetKey: string,
                               limit: int, ephemerals: string -> H.Ephemeral)

  function ToParams(lib: H.Lib, a: Approval): Params {
    Params(a.user, a.source, a.target, a.limit,
           (id: string, wrapped: string) =>
             match H.Rewrap(lib, wrapped, a.mine, a.targetKey, a.ephemerals(id))
             case Ok(key) => Some(key)
             case Err(_) => None)
  }

  // What decryptHybridMessageToUtf8 gets from a message.
  function PayloadOf(d: MessageDoc): H.Payload {
    H.Payload(match d.algorithm case Value(t) => t case _ => "",
              match d.body case Some(t) => t case None => "",
              match d.iv case Value(t) => t case _ => "",
              match d.encryptedMessageKeys case Some(m) => m case None => map[])
  }

  // Everything that Ready asks for but the answer of rewrap.
  ghost predicate CleanRequest(a: Approval, st: Store, turns: seq<Turn>) {
    && CleanId(a.user) && CleanId(a.source) && CleanId(a.target) && a.source != a.target
    && (a.user, a.source) in st.devices && (a.user, a.target) in st.devices
    && CleanNames(st.conversations)
    && (forall t :: t in turns ==> CleanNames(t.beforeUpload.conversations) && CleanNames(t.afterUpload.conversations))
    && UniqueIds(Everything(st, turns)) && CleanIds(Everything(st, turns))
  }

  lemma RewrapIsNotEmpty(lib: H.Lib, a: Approval, id: string, wrapped: string)
    requires H.LibOk(lib)
    ensures ToParams(lib, a).rewrap(id, wrapped) != Some("")
  {
    var key := H.Unwrap(lib, wrapped, a.mine);
    assert Trim("") == "";
    if key.Ok? && H.Wrap(lib, key.value, a.targetKey, a.ephemerals(id)).Ok? {
      H.WrappedIsNotBlank(lib, key.value, a.targetKey, a.ephemerals(id));
    }
  }

  lemma RequestIsReady(lib: H.Lib, a: Approval, st: Store, turns: seq<Turn>)
    requires H.LibOk(lib) && CleanRequest(a, st, turns)
    ensures Ready(ToParams(lib, a), st, turns)
  {
    var p := ToParams(lib, a);
    forall id, key ensures p.rewrap(id, key) != Some("") { RewrapIsNotEmpty(lib, a, id, key); }
  }

  lemma SourceKey(d: MessageDoc, lib: H.Lib, source: string, mine: H.PrivateKey)
    requires H.DecryptAs(lib, PayloadOf(d), source, mine).Ok?
    ensures KeyFor(d, source) == Some(PayloadOf(d).encryptedMessageKeys[source])
  {
  }

  lemma UploadedPayload(d: MessageDoc, d': MessageDoc, target: string, key: string)
    requires OnlyKeyChanged(target, d, d') && KeyFor(d', target) == Some(key)
    ensures PayloadOf(d') == PayloadOf(d).(encryptedMessageKeys := PayloadOf(d).encryptedMessageKeys[target := key])
  {
    var was, now := StoredKeys(d), StoredKeys(d');
    assert target in now && now[target] == key;
    assert now == (now - {target})[target := key] && was[target := key] == (was - {target})[target := key];
  }

  // The new device reads everything: once the loop is done, each message that was there at the start and that the
  // approving device could read, the new device reads with its own private key, and it reads the same text. Messages
  // may arrive all the while.
  lemma NewDeviceReadsEverything(lib: H.Lib, a: Approval, theirs: H.PrivateKey, st: Store, turns: seq<Turn>, i: nat)
    requires H.LibOk(lib) && CleanRequest(a, st, turns) && H.ImportPublic(lib, a.targetKey) == Some(theirs)
    requires i < |st.messages| && st.messages[i].conversationId in ConversationsOf(st, a.user)
    requires H.Decrypt(lib, PayloadOf(st.messages[i]), a.source, a.mine).Ok?
    ensures var r := Approve(ToParams(lib, a), st, None, turns);
            r.outcome.Done? ==>
              i < |r.st.messages| &&
              H.Decrypt(lib, PayloadOf(r.st.messages[i]), a.target, theirs)
              == H.Decrypt(lib, PayloadOf(st.messages[i]), a.source, a.mine)
  {
    RequestIsReady(lib, a, st, turns);
    var p := ToParams(lib, a);
    SyncCompletes(p, st, turns);
    var d := st.messages[i];
    var r := Approve(p, st, None, turns);
    TrimIsTrimmed(a.source);
    TrimIsTrimmed(a.target);
    SourceKey(d, lib, a.source, a.mine);
    assert Eligible(ConversationsOf(st, p.user), p.source, d);
    if r.outcome.Done? {
      var key := p.rewrap(d.id, KeyFor(d, p.source).value);
      assert Everything(st, turns)[i] == d;
      UploadedPayload(d, r.st.messages[i], a.target, key.value);
      H.RewrappedKeyReads(lib, PayloadOf(d), a.source, a.mine, a.target, theirs, a.targetKey, a.ephemerals(d.id));
    }
  }

  // A key for the source device that its active private key does not open, or that is no message key.
  predicate Unreadable(lib: H.Lib, a: Approval, d: MessageDoc) {
    && KeyFor(d, a.source).Some?
    && var key := H.Unwrap(lib, KeyFor(d, a.source).value, a.mine);
       key.Err? || !H.HasLength(key.value, 32)
  }

  lemma StuckIsUnreadable(lib: H.Lib, a: Approval, d: MessageDoc)
    requires H.ImportPublic(lib, a.targetKey).Some?
    ensures Stuck(ToParams(lib, a), d) <==> Unreadable(lib, a, d)
  {
  }

  // The approving device can open all its keys in the user's conversations.
  ghost predicate StartIsReadable(lib: H.Lib, a: Approval, st: Store) {
    forall i :: 0 <= i < |st.messages| && st.messages[i].conversationId in ConversationsOf(st, a.user) ==>
      !Unreadable(lib, a, st.messages[i])
  }

  // It can open its keys of whatever is new in the user's conversations.
  ghost predicate NewsAreReadable(lib: H.Lib, a: Approval, st: Store, turns: seq<Turn>) {
    var p, all := ToParams(lib, a), Everything(st, turns);
    forall i :: 0 <= i < |all| && all[i].conversationId in UserConversations(st, turns, a.user) && IsNew(p, st, turns, i) ==>
      !Unreadable(lib, a, all[i])
  }

  // The sync gets done if and only if the approving device can open every key it has in the user's conversations at
  // the start, for every schedule of arrivals whose keys for it, in these conversations, it can open as well. For any
  // other schedule the condition is still necessary. In both cases the loop otherwise stops at such a key.
  lemma SyncDoneUnlessUnreadable(lib: H.Lib, a: Approval, st: Store, turns: seq<Turn>)
    requires H.LibOk(lib) && CleanRequest(a, st, turns) && H.ImportPublic(lib, a.targetKey).Some?
    requires |turns| > |Pending(ToParams(lib, a), st, turns, None)|
    ensures var r := Approve(ToParams(lib, a), st, None, turns);
            && (r.outcome.Done? ==> StartIsReadable(lib, a, st))
            && (NewsAreReadable(lib, a, st, turns) ==> (r.outcome.Done? <==> StartIsReadable(lib, a, st)))
            && (!r.outcome.Done? ==>
                  && r.outcome.RewrapFailed?
                  && exists i :: 0 <= i < |r.st.messages|
                       && r.st.messages[i].conversationId in ConversationsOf(r.st, a.user)
                       && Unreadable(lib, a, r.st.messages[i]))
  {
    hide Approve, Ready;
    RequestIsReady(lib, a, st, turns);
    var p := ToParams(lib, a);
    var r := Approve(p, st, None, turns);
    SyncDoneExactly(p, st, turns);
    SyncCompletes(p, st, turns);
    forall d ensures Stuck(p, d) <==> Unreadable(lib, a, d) { StuckIsUnreadable(lib, a, d); }
    assert StartIsFine(p, st) <==> StartIsReadable(lib, a, st);
    assert NewsAreReadable(lib, a, st, turns) ==> NewsAreFine(p, st, turns);
  }

  // With nothing arriving, the condition is exact as it stands.
  lemma QuietSyncDoneExactly(lib: H.Lib, a: Approval, st: Store, turns: seq<Turn>)
    requires H.LibOk(lib) && CleanRequest(a, st, turns) && H.ImportPublic(lib, a.targetKey).Some?
    requires |turns| > |Pending(ToParams(lib, a), st, turns, None)|
    requires forall t :: t in turns ==> t == Turn(Arrival([], map[]), Arrival([], map[]))
    ensures Approve(ToParams(lib, a), st, None, turns).outcome.Done? <==> StartIsReadable(lib, a, st)
  {
    hide Approve;
    NothingArrives(turns, a.user);
    SyncDoneUnlessUnreadable(lib, a, st, turns);
    assert Everything(st, turns) == st.messages;
  }

  lemma {:induction false} NothingArrives(turns: seq<Turn>, user: string)
    requires forall t :: t in turns ==> t == Turn(Arrival([], map[]), Arrival([], map[]))
    ensures Incoming(turns) == [] && OpenedIn(turns, user) == {}
  {
    if turns != [] {
      assert turns[0] in turns;
      forall t | t in turns[1..] ensures t in turns { }
      NothingArrives(turns[1..], user);
    }
  }

  // After a rotation the device keeps its id, so the keys wrapped for its older public key are such keys: as long as
  // the user has one message from before, approving a new device fails. Older private keys stay in the keyring, but
  // neither this loop nor reading a message uses them.
  lemma RotatedKeyIsUnreadable(lib: H.Lib, a: Approval, d: MessageDoc, messageKey: H.Bytes, olderKey: string)
    requires H.LibOk(lib) && KeyFor(d, a.source).Some?
    requires H.WrappedFor(lib, messageKey, olderKey, KeyFor(d, a.source).value)
    requires H.ImportPublic(lib, olderKey) != Some(a.mine)
    ensures Unreadable(lib, a, d)
    ensures CleanId(a.source) ==> H.Decrypt(lib, PayloadOf(d), a.source, a.mine).Err?
  {
    var e :| H.Wrap(lib, messageKey, olderKey, e) == Ok(KeyFor(d, a.source).value);
    H.UnwrapsExactlyForItsDevice(lib, messageKey, olderKey, e, a.mine);
    TrimIsTrimmed(a.source);
  }
}
