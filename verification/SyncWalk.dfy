// The approving device's loop: read a page of wrapped keys, re-wrap each for the new device, upload the batch, go on
// after the last message of the page. Other clients keep sending in between.

module SyncWalk {
  import opened Text
  import opened Messages
  import opened Keyset
  import opened KeySync

  // rewrap unwraps a key with this device's private key and wraps it for the new device; None when that throws.
  datatype Params = Params(user: string, source: string, target: string, limit: int,
                           rewrap: (string, string) -> Option<string>)

  // New messages and conversations that appear between two requests of the loop.
  datatype Arrival = Arrival(messages: Collection, conversations: map<string, seq<string>>)

  // What arrives during one turn of the loop: between reading the page and the upload, and after the upload.
  datatype Turn = Turn(beforeUpload: Arrival, afterUpload: Arrival)

  function Arrive(st: Store, a: Arrival): Store {
    st.(messages := st.messages + a.messages, conversations := a.conversations + st.conversations)
  }

  function RewrapAll(p: Params, items: seq<KeyEntry>): Option<seq<KeyEntry>> {
    if items == [] then Some([])
    else
      var key := p.rewrap(items[0].messageId, items[0].encryptedMessageKey);
      if key.None? then None
      else
        match RewrapAll(p, items[1..])
        case None => None
        case Some(rest) => Some([KeyEntry(items[0].messageId, key.value)] + rest)
  }

  // Unfinished: the schedule of turns ran out before the loop did.
  datatype Outcome = Done | RewrapFailed | RequestFailed(error: SyncError) | Unfinished

  datatype Sync = Sync(st: Store, outcome: Outcome, applied: nat, skipped: nat)

  function Approve(p: Params, st: Store, after: Option<string>, turns: seq<Turn>): Sync
    decreases |turns|
  {
    if turns == [] then Sync(st, Unfinished, 0, 0)
    else
      match ListKeys(st, p.user, p.source, after, p.limit)
      case Err(e) => Sync(st, RequestFailed(e), 0, 0)
      case Ok(page) =>
        if page.items == [] then Sync(st, Done, 0, 0)
        else
          match RewrapAll(p, page.items)
          case None => Sync(st, RewrapFailed, 0, 0)
          case Some(keys) => Upload(p, st, page, keys, turns)
  }

  function Upload(p: Params, st: Store, page: KeyPage, keys: seq<KeyEntry>, turns: seq<Turn>): Sync
    requires turns != []
    decreases |turns|, 0
  {
    var st1 := Arrive(st, turns[0].beforeUpload);
    match ApplyBatch(st1, p.user, p.source, p.target, keys)
    case Err(e) => Sync(st1, RequestFailed(e), 0, 0)
    case Ok(b) =>
      var st2 := st1.(messages := b.messages);
      if !page.hasMore || page.nextAfterMessageId.None? || Trim(page.nextAfterMessageId.value) == "" then
        Sync(st2, Done, b.applied, b.skipped)
      else
        var st3 := Arrive(st2, turns[0].afterUpload);
        var rest := Approve(p, st3, Some(Trim(page.nextAfterMessageId.value)), turns[1..]);
        rest.(applied := b.applied + rest.applied, skipped := b.skipped + rest.skipped)
  }

  // ----- What the loop may rely on -----

  function Incoming(turns: seq<Turn>): Collection {
    if turns == [] then []
    else turns[0].beforeUpload.messages + turns[0].afterUpload.messages + Incoming(turns[1..])
  }

  // Every message there is or will be.
  function Everything(st: Store, turns: seq<Turn>): Collection { st.messages + Incoming(turns) }

  ghost predicate CleanNames(conversations: map<string, seq<string>>) {
    forall c :: c in conversations ==> CleanId(c)
  }

  ghost predicate CleanIds(docs: Collection) {
    forall i :: 0 <= i < |docs| ==> CleanId(docs[i].id)
  }

  // Two registered devices of the user; clean, unique ids; re-wrapping never gives an empty key.
  ghost predicate Ready(p: Params, st: Store, turns: seq<Turn>) {
    && CleanId(p.user) && CleanId(p.source) && CleanId(p.target) && p.source != p.target
    && (p.user, p.source) in st.devices && (p.user, p.target) in st.devices
    && (forall id, key :: p.rewrap(id, key) != Some(""))
    && CleanNames(st.conversations)
    && (forall t :: t in turns ==> CleanNames(t.beforeUpload.conversations) && CleanNames(t.afterUpload.conversations))
    && UniqueIds(Everything(st, turns)) && CleanIds(Everything(st, turns))
  }

  // ----- One page -----

  predicate Due(p: Params, st: Store, k: Option<Key>, d: MessageDoc) {
    Eligible(ConversationsOf(st, p.user), p.source, d) && After(true, k, d)
  }

  predicate AtCursor(p: Params, st: Store, id: string, k: Key, d: MessageDoc) {
    d.id == id && KeyOf(d) == k && Eligible(ConversationsOf(st, p.user), p.source, d)
  }

  // The cursor names a message that the source device can read.
  ghost predicate CursorAt(p: Params, st: Store, after: Option<string>, k: Option<Key>) {
    match k
    case None => after == None
    case Some(key) => after.Some? && CleanId(after.value)
                      && exists i :: 0 <= i < |st.messages| && AtCursor(p, st, after.value, key, st.messages[i])
  }

  lemma {:induction false} FindsById(docs: Collection, i: nat)
    requires UniqueIds(docs) && i < |docs|
    ensures FindMessage(docs, docs[i].id) == Some(docs[i])
  {
    if i > 0 {
      assert docs[0].id != docs[i].id;
      FindsById(docs[1..], i - 1);
    }
  }

  lemma UniquePrefix(a: Collection, b: Collection)
    requires UniqueIds(a + b)
    ensures UniqueIds(a)
  {
    forall i, k | 0 <= i < k < |a| ensures a[i].id != a[k].id {
      assert (a + b)[i].id != (a + b)[k].id;
    }
  }

  lemma AnchorFound(p: Params, st: Store, after: Option<string>, k: Option<Key>)
    requires UniqueIds(st.messages) && CleanNames(st.conversations) && CursorAt(p, st, after, k)
    ensures Anchor(st, p.user, p.source, after) == Ok(k)
  {
    if k.Some? {
      var i :| 0 <= i < |st.messages| && AtCursor(p, st, after.value, k.value, st.messages[i]);
      FindsById(st.messages, i);
      TrimIsTrimmed(after.value);
      TrimIsTrimmed(st.messages[i].conversationId);
    }
  }

  // The documents behind a page.
  ghost predicate PageOf(p: Params, st: Store, k: Option<Key>, page: KeyPage, docs: seq<MessageDoc>) {
    && page.items == Entries(docs, p.source)
    && (forall d :: d in docs ==> d in st.messages && Due(p, st, k, d))
    && (forall d :: d in st.messages && Due(p, st, k, d) ==>
          d in docs || (page.hasMore && docs != [] && Before(true, Last(docs), KeyOf(d))))
    && (page.hasMore ==> docs != [] && page.nextAfterMessageId == Some(docs[|docs| - 1].id))
  }

  lemma ReadPage(p: Params, st: Store, turns: seq<Turn>, after: Option<string>, k: Option<Key>)
    returns (docs: seq<MessageDoc>)
    requires Ready(p, st, turns) && CursorAt(p, st, after, k)
    ensures var r := ListKeys(st, p.user, p.source, after, p.limit);
            r.Ok? && PageOf(p, st, k, r.value, docs)
    ensures Sorted(true, docs)
  {
    hide ConversationsOf, FetchPage, Anchor, Incoming;
    TrimIsTrimmed(p.user);
    TrimIsTrimmed(p.source);
    UniquePrefix(st.messages, Incoming(turns));
    AnchorFound(p, st, after, k);
    var convs := ConversationsOf(st, p.user);
    if convs == {} {
      docs := [];
    } else {
      var keep := (d: MessageDoc) => Eligible(convs, p.source, d);
      PageFacts(true, st.messages, keep, k, p.limit);
      var page := FetchPage(true, st.messages, keep, k, p.limit);
      docs := page.items;
      forall d | d in docs ensures d in st.messages && Due(p, st, k, d) {
        assert Matches(true, st.messages, keep, k, d);
      }
      forall d | d in st.messages && Due(p, st, k, d)
        ensures d in docs || (page.hasMore && docs != [] && Before(true, Last(docs), KeyOf(d)))
      {
        assert Matches(true, st.messages, keep, k, d);
      }
    }
  }

  // ----- One upload -----

  predicate CanRewrap(p: Params, d: MessageDoc) {
    KeyFor(d, p.source).Some? && p.rewrap(d.id, KeyFor(d, p.source).value).Some?
  }

  // The message with its key re-wrapped for the target device.
  function Synced(p: Params, d: MessageDoc): MessageDoc {
    if CanRewrap(p, d) then WithKey(d, p.target, p.rewrap(d.id, KeyFor(d, p.source).value).value) else d
  }

  lemma SyncedFacts(p: Params, d: MessageDoc)
    requires p.source != p.target
    ensures var d' := Synced(p, d);
            && d'.id == d.id && KeyOf(d') == KeyOf(d) && d'.conversationId == d.conversationId
            && KeyFor(d', p.source) == KeyFor(d, p.source)
            && Synced(p, d') == d' && OnlyKeyChanged(p.target, d, d')
  {
    if CanRewrap(p, d) {
      SetTwice(d, p.target, p.rewrap(d.id, KeyFor(d, p.source).value).value);
    }
  }

  lemma {:induction false} RewrapAllFacts(p: Params, docs: seq<MessageDoc>)
    requires forall d :: d in docs ==> KeyFor(d, p.source).Some?
    ensures RewrapAll(p, Entries(docs, p.source)).Some? <==> forall d :: d in docs ==> CanRewrap(p, d)
    ensures var r := RewrapAll(p, Entries(docs, p.source));
            r.Some? ==>
              && |r.value| == |docs|
              && forall i :: 0 <= i < |docs| ==>
                   && CanRewrap(p, docs[i])
                   && r.value[i] == KeyEntry(docs[i].id, p.rewrap(docs[i].id, KeyFor(docs[i], p.source).value).value)
  {
    if docs != [] {
      var items := Entries(docs, p.source);
      assert docs[0] in docs;
      assert items[1..] == Entries(docs[1..], p.source);
      assert docs == [docs[0]] + docs[1..];
      RewrapAllFacts(p, docs[1..]);
    }
  }

  // The entries of a re-wrapped page.
  ghost predicate EntriesFor(p: Params, docs: seq<MessageDoc>, keys: seq<KeyEntry>) {
    && |keys| == |docs|
    && forall i :: 0 <= i < |docs| ==>
         && CanRewrap(p, docs[i])
         && keys[i] == KeyEntry(docs[i].id, p.rewrap(docs[i].id, KeyFor(docs[i], p.source).value).value)
  }

  lemma PageEntries(p: Params, all: Collection, docs: seq<MessageDoc>, keys: seq<KeyEntry>, d: MessageDoc)
    requires UniqueIds(all) && d in all && (forall x :: x in docs ==> x in all) && EntriesFor(p, docs, keys)
    ensures d.id in LastEntries(keys) <==> d in docs
    ensures d in docs ==> CanRewrap(p, d) && LastEntries(keys)[d.id] == p.rewrap(d.id, KeyFor(d, p.source).value).value
  {
    if d in docs {
      var i :| 0 <= i < |docs| && docs[i] == d;
      EveryIdHasAnEntry(keys, i);
    }
    if d.id in LastEntries(keys) {
      LastEntryWins(keys, d.id);
      var i :| 0 <= i < |keys| && keys[i] == KeyEntry(d.id, LastEntries(keys)[d.id]);
      assert docs[i] in all && docs[i].id == d.id;
      SameId(all, docs[i], d);
    }
  }

  lemma SameId(all: Collection, a: MessageDoc, b: MessageDoc)
    requires UniqueIds(all) && a in all && b in all && a.id == b.id
    ensures a == b
  {
    var i, k :| 0 <= i < |all| && all[i] == a && 0 <= k < |all| && all[k] == b;
    assert i == k;
  }

  lemma NormalizedPage(p: Params, all: Collection, docs: seq<MessageDoc>, keys: seq<KeyEntry>)
    requires CleanIds(all) && (forall x :: x in docs ==> x in all) && EntriesFor(p, docs, keys)
    ensures Normalized(keys) == keys
  {
    forall i | 0 <= i < |keys| ensures Trim(keys[i].messageId) == keys[i].messageId {
      assert docs[i] in all;
      var k :| 0 <= k < |all| && all[k] == docs[i];
      TrimIsTrimmed(keys[i].messageId);
    }
  }

  lemma ConversationsGrow(st: Store, a: Arrival, user: string)
    ensures ConversationsOf(st, user) <= ConversationsOf(Arrive(st, a), user)
  {
  }

  // Uploading a page re-wraps exactly the messages of the page and skips nothing, whatever has arrived in between.
  lemma UploadPage(p: Params, st: Store, st1: Store, k: Option<Key>, page: KeyPage, docs: seq<MessageDoc>,
                   keys: seq<KeyEntry>)
    requires CleanId(p.user) && CleanId(p.source) && CleanId(p.target)
    requires (p.user, p.source) in st1.devices && (p.user, p.target) in st1.devices
    requires UniqueIds(st1.messages) && CleanIds(st1.messages) && st.messages <= st1.messages
    requires ConversationsOf(st, p.user) <= ConversationsOf(st1, p.user)
    requires PageOf(p, st, k, page, docs) && docs != [] && EntriesFor(p, docs, keys)
    ensures var r := ApplyBatch(st1, p.user, p.source, p.target, keys);
            && r.Ok? && r.value.skipped == 0 && |r.value.messages| == |st1.messages|
            && forall i :: 0 <= i < |st1.messages| ==>
                 r.value.messages[i] == if st1.messages[i] in docs then Synced(p, st1.messages[i]) else st1.messages[i]
  {
    hide Trim, WithKey, KeyFor;
    TrimIsTrimmed(p.user);
    TrimIsTrimmed(p.source);
    TrimIsTrimmed(p.target);
    var all := st1.messages;
    assert forall d :: d in st.messages ==> d in all;
    NormalizedPage(p, all, docs, keys);
    var convs, last := ConversationsOf(st1, p.user), LastEntries(keys);
    assert docs[0] in docs && docs[0].conversationId in convs;
    forall i | 0 <= i < |all|
      ensures UploadedDoc(all[i], convs, p.source, p.target, last) == if all[i] in docs then Synced(p, all[i]) else all[i]
    {
      PageEntries(p, all, docs, keys, all[i]);
    }
    forall id | id in last ensures HasEligible(all, convs, p.source, id) {
      LastEntryWins(keys, id);
      var i :| 0 <= i < |keys| && keys[i] == KeyEntry(id, last[id]);
      assert docs[i] in docs;
      var n :| 0 <= n < |all| && all[n] == docs[i];
      assert Eligible(convs, p.source, all[n]);
    }
    assert Accepted(all, convs, p.source, last.Keys) == last.Keys;
  }

  // ----- The whole loop -----

  // Any message, at any time, is as it was or has its key re-wrapped for the target, and nothing else.
  predicate SameOrSynced(p: Params, d: MessageDoc, d': MessageDoc) {
    d' == d || d' == Synced(p, d)
  }

  predicate Stuck(p: Params, d: MessageDoc) {
    KeyFor(d, p.source).Some? && !CanRewrap(p, d)
  }

  // Some message in the user's conversations holds a key for the source device that cannot be re-wrapped.
  ghost predicate SomeStuck(p: Params, st: Store) {
    exists i :: 0 <= i < |st.messages| && Eligible(ConversationsOf(st, p.user), p.source, st.messages[i])
      && Stuck(p, st.messages[i])
  }

  function OpenedFor(conversations: map<string, seq<string>>, user: string): set<string> {
    set c | c in conversations && c != "" && user in conversations[c]
  }

  function OpenedIn(turns: seq<Turn>, user: string): set<string> {
    if turns == [] then {}
    else
      OpenedFor(turns[0].beforeUpload.conversations, user) + OpenedFor(turns[0].afterUpload.conversations, user)
      + OpenedIn(turns[1..], user)
  }

  // The user's conversations, present or to come.
  function UserConversations(st: Store, turns: seq<Turn>, user: string): set<string> {
    ConversationsOf(st, user) + OpenedIn(turns, user)
  }

  // The end of a loop that started at a cursor: nothing skipped, no request refused, every message - those that
  // arrived included - unchanged or re-wrapped, a failure explained by a message in the user's conversations, and once
  // done, all that were due at the start re-wrapped.
  ghost predicate SyncOk(p: Params, st: Store, turns: seq<Turn>, k: Option<Key>, r: Sync) {
    var all := Everything(st, turns);
    && r.skipped == 0 && !r.outcome.RequestFailed?
    && |st.messages| <= |r.st.messages| <= |all|
    && (forall i :: 0 <= i < |r.st.messages| ==> SameOrSynced(p, all[i], r.st.messages[i]))
    && ConversationsOf(r.st, p.user) <= UserConversations(st, turns, p.user)
    && (r.outcome.RewrapFailed? ==> SomeStuck(p, r.st))
    && (r.outcome.Done? ==>
          forall i :: 0 <= i < |st.messages| && Due(p, st, k, st.messages[i]) ==>
            CanRewrap(p, st.messages[i]) && r.st.messages[i] == Synced(p, st.messages[i]))
  }

  // The store after one turn, seen from the store before it.
  ghost predicate AfterTurn(p: Params, st: Store, turn: Turn, docs: seq<MessageDoc>, st3: Store) {
    var arrived := st.messages + turn.beforeUpload.messages + turn.afterUpload.messages;
    && st3.devices == st.devices
    && st3.conversations
       == turn.afterUpload.conversations + (turn.beforeUpload.conversations + st.conversations)
    && |st3.messages| == |arrived|
    && forall i :: 0 <= i < |arrived| ==>
         st3.messages[i] == if arrived[i] in docs then Synced(p, arrived[i]) else arrived[i]
  }

  lemma TurnKeepsReady(p: Params, st: Store, turns: seq<Turn>, docs: seq<MessageDoc>, st3: Store)
    requires Ready(p, st, turns) && turns != [] && AfterTurn(p, st, turns[0], docs, st3)
    ensures Ready(p, st3, turns[1..])
    ensures var a, b := Everything(st, turns), Everything(st3, turns[1..]);
            && |a| == |b|
            && forall i :: 0 <= i < |a| ==>
                 && SameOrSynced(p, a[i], b[i]) && KeyOf(b[i]) == KeyOf(a[i])
                 && KeyFor(b[i], p.source) == KeyFor(a[i], p.source)
  {
    hide Trim, Trimmed, WithKey, KeyFor;
    var a, b := Everything(st, turns), Everything(st3, turns[1..]);
    var arrived := st.messages + turns[0].beforeUpload.messages + turns[0].afterUpload.messages;
    assert a == arrived + Incoming(turns[1..]);
    assert turns[0] in turns;
    forall i | 0 <= i < |a|
      ensures SameOrSynced(p, a[i], b[i]) && KeyOf(b[i]) == KeyOf(a[i]) && b[i].id == a[i].id
      ensures KeyFor(b[i], p.source) == KeyFor(a[i], p.source)
    {
      SyncedFacts(p, a[i]);
      if i < |arrived| { assert a[i] == arrived[i] && b[i] == st3.messages[i]; }
    }
  }

  lemma TurnConversations(p: Params, st: Store, turns: seq<Turn>, docs: seq<MessageDoc>, st3: Store)
    requires turns != [] && AfterTurn(p, st, turns[0], docs, st3)
    ensures UserConversations(st3, turns[1..], p.user) <= UserConversations(st, turns, p.user)
    ensures ConversationsOf(st, p.user) <= ConversationsOf(st3, p.user)
  {
  }

  lemma TurnKeepsDue(p: Params, st: Store, turn: Turn, docs: seq<MessageDoc>, st3: Store, i: nat)
    requires p.source != p.target && AfterTurn(p, st, turn, docs, st3) && i < |st.messages|
    ensures SameOrSynced(p, st.messages[i], st3.messages[i])
    ensures Eligible(ConversationsOf(st, p.user), p.source, st.messages[i]) ==>
              Eligible(ConversationsOf(st3, p.user), p.source, st3.messages[i])
    ensures KeyOf(st3.messages[i]) == KeyOf(st.messages[i])
    ensures st.messages[i] in docs ==> st3.messages[i] == Synced(p, st.messages[i])
  {
    SyncedFacts(p, st.messages[i]);
    var arrived := st.messages + turn.beforeUpload.messages + turn.afterUpload.messages;
    assert arrived[i] == st.messages[i];
    assert ConversationsOf(st, p.user) <= ConversationsOf(st3, p.user);
  }

  lemma NextCursor(p: Params, st: Store, turns: seq<Turn>, k: Option<Key>, page: KeyPage, docs: seq<MessageDoc>, st3: Store)
    requires Ready(p, st, turns) && turns != [] && PageOf(p, st, k, page, docs) && page.hasMore
    requires AfterTurn(p, st, turns[0], docs, st3)
    ensures var next := page.nextAfterMessageId;
            && next.Some? && Trim(next.value) == next.value && CleanId(next.value)
            && CursorAt(p, st3, next, Some(Last(docs)))
  {
    var last := docs[|docs| - 1];
    assert last in docs;
    var i :| 0 <= i < |st.messages| && st.messages[i] == last;
    assert Everything(st, turns)[i] == last;
    TrimIsTrimmed(last.id);
    TurnKeepsDue(p, st, turns[0], docs, st3, i);
    SyncedFacts(p, last);
    assert AtCursor(p, st3, last.id, KeyOf(last), st3.messages[i]);
  }

  // A turn followed by the rest of the loop.
  lemma JoinTurn(p: Params, st: Store, turns: seq<Turn>, k: Option<Key>, page: KeyPage, docs: seq<MessageDoc>,
                 st3: Store, rest: Sync)
    requires Ready(p, st, turns) && turns != [] && PageOf(p, st, k, page, docs) && page.hasMore
    requires AfterTurn(p, st, turns[0], docs, st3)
    requires forall d :: d in docs ==> CanRewrap(p, d)
    requires SyncOk(p, st3, turns[1..], Some(Last(docs)), rest)
    ensures SyncOk(p, st, turns, k, rest)
  {
    TurnKeepsReady(p, st, turns, docs, st3);
    var all, all3 := Everything(st, turns), Everything(st3, turns[1..]);
    forall i | 0 <= i < |rest.st.messages| ensures SameOrSynced(p, all[i], rest.st.messages[i]) {
      SyncedFacts(p, all[i]);
      assert SameOrSynced(p, all3[i], rest.st.messages[i]) && SameOrSynced(p, all[i], all3[i]);
    }
    TurnConversations(p, st, turns, docs, st3);
    if rest.outcome.Done? {
      forall i | 0 <= i < |st.messages| && Due(p, st, k, st.messages[i])
        ensures CanRewrap(p, st.messages[i]) && rest.st.messages[i] == Synced(p, st.messages[i])
      {
        var d := st.messages[i];
        TurnKeepsDue(p, st, turns[0], docs, st3, i);
        SyncedFacts(p, d);
        assert SameOrSynced(p, all3[i], rest.st.messages[i]) && all3[i] == st3.messages[i];
        if d !in docs {
          var arrived := st.messages + turns[0].beforeUpload.messages + turns[0].afterUpload.messages;
          assert arrived[i] == d && st3.messages[i] == d;
          assert Due(p, st3, Some(Last(docs)), st3.messages[i]);
        }
      }
    }
  }

  lemma LastTurn(p: Params, st: Store, turns: seq<Turn>, k: Option<Key>, page: KeyPage, docs: seq<MessageDoc>, r: Sync)
    requires Ready(p, st, turns) && turns != [] && PageOf(p, st, k, page, docs) && !page.hasMore
    requires forall d :: d in docs ==> CanRewrap(p, d)
    requires r.skipped == 0 && r.outcome.Done?
    requires r.st.conversations == turns[0].beforeUpload.conversations + st.conversations
    requires var arrived := st.messages + turns[0].beforeUpload.messages;
             && |r.st.messages| == |arrived|
             && forall i :: 0 <= i < |arrived| ==>
                  r.st.messages[i] == if arrived[i] in docs then Synced(p, arrived[i]) else arrived[i]
    ensures SyncOk(p, st, turns, k, r)
  {
    var all := Everything(st, turns);
    var arrived := st.messages + turns[0].beforeUpload.messages;
    assert all == arrived + (turns[0].afterUpload.messages + Incoming(turns[1..]));
    forall i | 0 <= i < |st.messages| && Due(p, st, k, st.messages[i])
      ensures CanRewrap(p, st.messages[i]) && r.st.messages[i] == Synced(p, st.messages[i])
    {
      assert arrived[i] == st.messages[i];
    }
  }

  // Why the loop could not go on with a page.
  lemma StoppedOk(p: Params, st: Store, turns: seq<Turn>, k: Option<Key>, outcome: Outcome)
    requires outcome.Unfinished? || (outcome.RewrapFailed? && SomeStuck(p, st))
             || (outcome.Done? && forall d :: d in st.messages ==> !Due(p, st, k, d))
    ensures SyncOk(p, st, turns, k, Sync(st, outcome, 0, 0))
  {
  }

  lemma ArrivedUnique(p: Params, st: Store, turns: seq<Turn>)
    requires Ready(p, st, turns) && turns != []
    ensures var st1 := Arrive(st, turns[0].beforeUpload);
            UniqueIds(st1.messages) && CleanIds(st1.messages) && st.messages <= st1.messages
  {
    var st1 := Arrive(st, turns[0].beforeUpload);
    var later := turns[0].afterUpload.messages + Incoming(turns[1..]);
    assert Everything(st, turns) == st1.messages + later;
    UniquePrefix(st1.messages, later);
    forall i | 0 <= i < |st1.messages| ensures CleanId(st1.messages[i].id) {
      assert Everything(st, turns)[i] == st1.messages[i];
    }
  }

  lemma {:induction false} LoopFromCursor(p: Params, st: Store, after: Option<string>, k: Option<Key>, turns: seq<Turn>)
    requires Ready(p, st, turns) && CursorAt(p, st, after, k)
    ensures SyncOk(p, st, turns, k, Approve(p, st, after, turns))
    decreases |turns|, 2
  {
    if turns == [] {
      StoppedOk(p, st, turns, k, Unfinished);
    } else {
      var docs := ReadPage(p, st, turns, after, k);
      var page := ListKeys(st, p.user, p.source, after, p.limit).value;
      RewrapAllFacts(p, docs);
      if docs == [] {
        StoppedOk(p, st, turns, k, Done);
      } else {
        match RewrapAll(p, page.items)
        case None =>
          var d :| d in docs && !CanRewrap(p, d);
          var i :| 0 <= i < |st.messages| && st.messages[i] == d;
          assert Due(p, st, k, d) && Stuck(p, st.messages[i]);
          StoppedOk(p, st, turns, k, RewrapFailed);
        case Some(keys) =>
          UploadFromCursor(p, st, after, k, turns, page, docs, keys);
      }
    }
  }

  lemma {:induction false} UploadFromCursor(p: Params, st: Store, after: Option<string>, k: Option<Key>, turns: seq<Turn>,
                                            page: KeyPage, docs: seq<MessageDoc>, keys: seq<KeyEntry>)
    requires Ready(p, st, turns) && CursorAt(p, st, after, k) && turns != []
    requires PageOf(p, st, k, page, docs) && docs != [] && EntriesFor(p, docs, keys)
    ensures SyncOk(p, st, turns, k, Upload(p, st, page, keys, turns))
    decreases |turns|, 1
  {
    hide ApplyBatch, Trim, KeyFor;
    var st1 := Arrive(st, turns[0].beforeUpload);
    ArrivedUnique(p, st, turns);
    ConversationsGrow(st, turns[0].beforeUpload, p.user);
    UploadPage(p, st, st1, k, page, docs, keys);
    var b := ApplyBatch(st1, p.user, p.source, p.target, keys).value;
    forall d | d in docs ensures CanRewrap(p, d) { var i :| 0 <= i < |docs| && docs[i] == d; }
    if !page.hasMore {
      LastTurn(p, st, turns, k, page, docs, Sync(st1.(messages := b.messages), Done, b.applied, b.skipped));
    } else {
      GoOn(p, st, k, turns, page, docs, b, keys);
    }
  }

  lemma {:induction false} GoOn(p: Params, st: Store, k: Option<Key>, turns: seq<Turn>, page: KeyPage,
                                docs: seq<MessageDoc>, b: Batch, keys: seq<KeyEntry>)
    requires Ready(p, st, turns) && turns != []
    requires PageOf(p, st, k, page, docs) && page.hasMore && forall d :: d in docs ==> CanRewrap(p, d)
    requires var st1 := Arrive(st, turns[0].beforeUpload);
             && ApplyBatch(st1, p.user, p.source, p.target, keys) == Ok(b) && b.skipped == 0
             && |b.messages| == |st1.messages|
             && forall i :: 0 <= i < |st1.messages| ==>
                  b.messages[i] == if st1.messages[i] in docs then Synced(p, st1.messages[i]) else st1.messages[i]
    ensures SyncOk(p, st, turns, k, Upload(p, st, page, keys, turns))
    decreases |turns|, 0
  {
    var st3 := Arrive(Arrive(st, turns[0].beforeUpload).(messages := b.messages), turns[0].afterUpload);
    TurnHappened(p, st, turns, docs, b.messages);
    TurnKeepsReady(p, st, turns, docs, st3);
    NextCursor(p, st, turns, k, page, docs, st3);
    LoopFromCursor(p, st3, page.nextAfterMessageId, Some(Last(docs)), turns[1..]);
    var rest := Approve(p, st3, page.nextAfterMessageId, turns[1..]);
    JoinTurn(p, st, turns, k, page, docs, st3, rest);
    SameOutcome(p, st, turns, k, rest, Upload(p, st, page, keys, turns));
  }

  lemma SameOutcome(p: Params, st: Store, turns: seq<Turn>, k: Option<Key>, r: Sync, r': Sync)
    requires SyncOk(p, st, turns, k, r) && r'.st == r.st && r'.outcome == r.outcome && r'.skipped == 0
    ensures SyncOk(p, st, turns, k, r')
  {
  }

  lemma TurnHappened(p: Params, st: Store, turns: seq<Turn>, docs: seq<MessageDoc>, uploaded: Collection)
    requires Ready(p, st, turns) && turns != []
    requires forall d :: d in docs ==> d in st.messages
    requires var st1 := Arrive(st, turns[0].beforeUpload);
             && |uploaded| == |st1.messages|
             && forall i :: 0 <= i < |st1.messages| ==>
                  uploaded[i] == if st1.messages[i] in docs then Synced(p, st1.messages[i]) else st1.messages[i]
    ensures var st2 := Arrive(st, turns[0].beforeUpload).(messages := uploaded);
            AfterTurn(p, st, turns[0], docs, Arrive(st2, turns[0].afterUpload))
  {
    var arrived := Arrive(st, turns[0].beforeUpload).messages + turns[0].afterUpload.messages;
    forall i | |uploaded| <= i < |arrived| ensures arrived[i] !in docs {
      NewArrival(st, turns, i);
    }
  }

  lemma NewArrival(st: Store, turns: seq<Turn>, i: nat)
    requires turns != [] && UniqueIds(Everything(st, turns))
    requires |st.messages| <= i < |st.messages + turns[0].beforeUpload.messages + turns[0].afterUpload.messages|
    ensures (st.messages + turns[0].beforeUpload.messages + turns[0].afterUpload.messages)[i] !in st.messages
  {
    var all := Everything(st, turns);
    assert all == st.messages + turns[0].beforeUpload.messages + turns[0].afterUpload.messages + Incoming(turns[1..]);
    assert all[..|st.messages|] == st.messages;
    LaterIsNew(all, |st.messages|, i);
  }

  lemma LaterIsNew(all: Collection, n: nat, i: nat)
    requires UniqueIds(all) && n <= i < |all|
    ensures all[i] !in all[..n]
  {
    forall m | 0 <= m < n ensures all[..n][m] != all[i] {}
  }

  // ----- The loop ends -----

  // Messages in the user's conversations, present or to come, with a key for the source device, and past the cursor.
  function Pending(p: Params, st: Store, turns: seq<Turn>, k: Option<Key>): set<nat> {
    PendingIn(p, UserConversations(st, turns, p.user), Everything(st, turns), k)
  }

  function PendingIn(p: Params, convs: set<string>, all: Collection, k: Option<Key>): set<nat> {
    set i: nat | i < |all| && Eligible(convs, p.source, all[i]) && After(true, k, all[i])
  }

  lemma PendingShrinks(p: Params, st: Store, turns: seq<Turn>, k: Option<Key>, page: KeyPage, docs: seq<MessageDoc>,
                       st3: Store)
    requires Ready(p, st, turns) && turns != [] && PageOf(p, st, k, page, docs) && page.hasMore
    requires AfterTurn(p, st, turns[0], docs, st3)
    ensures |Pending(p, st3, turns[1..], Some(Last(docs)))| < |Pending(p, st, turns, k)|
  {
    var a, b := Everything(st, turns), Everything(st3, turns[1..]);
    TurnKeepsReady(p, st, turns, docs, st3);
    TurnConversations(p, st, turns, docs, st3);
    var last := docs[|docs| - 1];
    assert last in docs;
    var n :| 0 <= n < |st.messages| && st.messages[n] == last;
    assert a[n] == last;
    BeforeIsTotalOrder(true, KeyOf(last), KeyOf(last));
    var before, after := Pending(p, st, turns, k), Pending(p, st3, turns[1..], Some(Last(docs)));
    forall i | i in after ensures i in before {
      SyncedFacts(p, a[i]);
      if k.Some? { BeforeTransitive(true, k.value, KeyOf(last), KeyOf(a[i])); }
    }
    assert n in before && n !in after;
    SmallerSet(after, before, n);
  }

  lemma SmallerSet(a: set<nat>, b: set<nat>, n: nat)
    requires a <= b && n in b && n !in a
    ensures |a| < |b|
  {
    assert b == a + (b - a) && n in b - a;
  }

  lemma {:induction false} LoopEnds(p: Params, st: Store, after: Option<string>, k: Option<Key>, turns: seq<Turn>)
    requires Ready(p, st, turns) && CursorAt(p, st, after, k)
    requires |turns| > |Pending(p, st, turns, k)|
    ensures !Approve(p, st, after, turns).outcome.Unfinished?
    decreases |turns|
  {
    hide ListKeys, RewrapAll, ApplyBatch, Pending, CursorAt;
    var docs := ReadPage(p, st, turns, after, k);
    var page := ListKeys(st, p.user, p.source, after, p.limit).value;
    RewrapAllFacts(p, docs);
    var keys := RewrapAll(p, page.items);
    if docs != [] && keys.Some? && page.hasMore {
      var st1 := Arrive(st, turns[0].beforeUpload);
      ArrivedUnique(p, st, turns);
      ConversationsGrow(st, turns[0].beforeUpload, p.user);
      UploadPage(p, st, st1, k, page, docs, keys.value);
      var b := ApplyBatch(st1, p.user, p.source, p.target, keys.value).value;
      EndsAfterUpload(p, st, k, turns, page, docs, b, keys.value);
    }
  }

  lemma {:induction false} EndsAfterUpload(p: Params, st: Store, k: Option<Key>, turns: seq<Turn>, page: KeyPage,
                                           docs: seq<MessageDoc>, b: Batch, keys: seq<KeyEntry>)
    requires Ready(p, st, turns) && |turns| > |Pending(p, st, turns, k)|
    requires PageOf(p, st, k, page, docs) && page.hasMore
    requires var st1 := Arrive(st, turns[0].beforeUpload);
             && ApplyBatch(st1, p.user, p.source, p.target, keys) == Ok(b)
             && |b.messages| == |st1.messages|
             && forall i :: 0 <= i < |st1.messages| ==>
                  b.messages[i] == if st1.messages[i] in docs then Synced(p, st1.messages[i]) else st1.messages[i]
    ensures !Upload(p, st, page, keys, turns).outcome.Unfinished?
    decreases |turns|, 0
  {
    var st3 := Arrive(Arrive(st, turns[0].beforeUpload).(messages := b.messages), turns[0].afterUpload);
    TurnHappened(p, st, turns, docs, b.messages);
    TurnKeepsReady(p, st, turns, docs, st3);
    NextCursor(p, st, turns, k, page, docs, st3);
    PendingShrinks(p, st, turns, k, page, docs, st3);
    LoopEnds(p, st3, page.nextAfterMessageId, Some(Last(docs)), turns[1..]);
  }

  // ----- Results -----

  // Sync completeness. Whatever arrives meanwhile: no key is skipped, no request is refused, no message loses or
  // changes anything but the target device's key, and when the loop is done, every message whose key the source
  // device held at the start has that key re-wrapped for the target. The loop ends within one turn more than there
  // are messages with such a key in the user's conversations, and only such a key that cannot be re-wrapped keeps it
  // from getting done.
  lemma SyncCompletes(p: Params, st: Store, turns: seq<Turn>)
    requires Ready(p, st, turns)
    ensures var r := Approve(p, st, None, turns);
            var all := Everything(st, turns);
            && r.skipped == 0 && !r.outcome.RequestFailed?
            && |st.messages| <= |r.st.messages| <= |all|
            && (forall i :: 0 <= i < |r.st.messages| ==>
                  && OnlyKeyChanged(p.target, all[i], r.st.messages[i])
                  && (forall device :: device != p.target ==> KeyFor(r.st.messages[i], device) == KeyFor(all[i], device)))
            && (r.outcome.Done? ==>
                  forall i :: 0 <= i < |st.messages| && Eligible(ConversationsOf(st, p.user), p.source, st.messages[i]) ==>
                    var d := st.messages[i];
                    var key := p.rewrap(d.id, KeyFor(d, p.source).value);
                    key.Some? && KeyFor(r.st.messages[i], p.target) == key)
            && (r.outcome.RewrapFailed? ==> SomeStuck(p, r.st))
            && (|turns| > |Pending(p, st, turns, None)| ==> r.outcome.Done? || r.outcome.RewrapFailed?)
  {
    var r := Approve(p, st, None, turns);
    var all := Everything(st, turns);
    LoopFromCursor(p, st, None, None, turns);
    if |turns| > |Pending(p, st, turns, None)| { LoopEnds(p, st, None, None, turns); }
    forall i | 0 <= i < |r.st.messages|
      ensures OnlyKeyChanged(p.target, all[i], r.st.messages[i])
      ensures forall device :: device != p.target ==> KeyFor(r.st.messages[i], device) == KeyFor(all[i], device)
    {
      SyncedFacts(p, all[i]);
      assert SameOrSynced(p, all[i], r.st.messages[i]);
    }
    if r.outcome.Done? {
      forall i | 0 <= i < |st.messages| && Eligible(ConversationsOf(st, p.user), p.source, st.messages[i])
        ensures var d := st.messages[i];
                var key := p.rewrap(d.id, KeyFor(d, p.source).value);
                key.Some? && KeyFor(r.st.messages[i], p.target) == key
      {
        assert Due(p, st, None, st.messages[i]);
        var d := st.messages[i];
        assert p.rewrap(d.id, KeyFor(d, p.source).value) != Some("");
      }
    }
  }

  // A message that is not in the user's conversations at the start, because it or its conversation is new.
  predicate IsNew(p: Params, st: Store, turns: seq<Turn>, i: nat)
    requires i < |Everything(st, turns)|
  {
    !(i < |st.messages| && st.messages[i].conversationId in ConversationsOf(st, p.user))
  }

  // What is new in the user's conversations can be re-wrapped.
  ghost predicate NewsAreFine(p: Params, st: Store, turns: seq<Turn>) {
    var all := Everything(st, turns);
    forall i :: 0 <= i < |all| && all[i].conversationId in UserConversations(st, turns, p.user) && IsNew(p, st, turns, i) ==>
      !Stuck(p, all[i])
  }

  // No message in the user's conversations at the start holds a key that cannot be re-wrapped.
  ghost predicate StartIsFine(p: Params, st: Store) {
    forall i :: 0 <= i < |st.messages| && st.messages[i].conversationId in ConversationsOf(st, p.user) ==>
      !Stuck(p, st.messages[i])
  }

  // When the loop gets done: only if the start is fine, whatever arrives, and, as long as what is new is fine, exactly
  // then. Messages of other users do not matter, whatever keys they hold.
  lemma SyncDoneExactly(p: Params, st: Store, turns: seq<Turn>)
    requires Ready(p, st, turns) && |turns| > |Pending(p, st, turns, None)|
    ensures var r := Approve(p, st, None, turns);
            && (r.outcome.Done? ==> StartIsFine(p, st))
            && (NewsAreFine(p, st, turns) ==> (r.outcome.Done? <==> StartIsFine(p, st)))
            && (!r.outcome.Done? ==> r.outcome.RewrapFailed?)
  {
    hide Approve;
    var r := Approve(p, st, None, turns);
    LoopFromCursor(p, st, None, None, turns);
    LoopEnds(p, st, None, None, turns);
    if r.outcome.Done? {
      forall i | 0 <= i < |st.messages| && st.messages[i].conversationId in ConversationsOf(st, p.user)
        ensures !Stuck(p, st.messages[i])
      {
        assert KeyFor(st.messages[i], p.source).Some? ==> Due(p, st, None, st.messages[i]);
      }
    } else {
      var i :| 0 <= i < |r.st.messages| && Eligible(ConversationsOf(r.st, p.user), p.source, r.st.messages[i])
               && Stuck(p, r.st.messages[i]);
      var all := Everything(st, turns);
      SyncedFacts(p, all[i]);
      assert SameOrSynced(p, all[i], r.st.messages[i]);
      assert Stuck(p, all[i]) && all[i].conversationId in UserConversations(st, turns, p.user);
      if !IsNew(p, st, turns, i) { assert st.messages[i] == all[i]; }
    }
  }

  // Every page fits into one upload: the list is cut at 100 entries, a batch may hold 200.
  const MAX_BATCH: nat := 200

  lemma PagesFitBatches(st: Store, user: string, device: string, after: Option<string>, limit: int)
    requires UniqueIds(st.messages)
    ensures var r := ListKeys(st, user, device, after, limit);
            r.Ok? ==> |r.value.items| <= Clamp(limit) <= MAX_LIST_LIMIT <= MAX_BATCH
  {
    var convs := ConversationsOf(st, Trim(user));
    var anchor := Anchor(st, Trim(user), Trim(device), after);
    if anchor.Ok? {
      PageFacts(true, st.messages, (d: MessageDoc) => Eligible(convs, Trim(device), d), anchor.value, limit);
    }
  }
}
