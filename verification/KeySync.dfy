// Copying message keys from one device of a user to another: the paged list of wrapped keys, the batch upload, and
// the client loop that walks the pages, re-wraps each key and uploads it while new messages keep arriving.

module KeySync {
  import opened Text
  import opened Messages
  import opened Keyset

  // devices: the registered (user, device) pairs; conversations: participants by id; messages: as stored, in
  // insertion order, which no query depends on.
  datatype Store = Store(devices: set<(string, string)>, conversations: map<string, seq<string>>, messages: Collection)

  datatype SyncError =
    | MissingId | DeviceNotRegistered | AnchorNotFound | NotAllowed | AnchorWithoutKey

  datatype KeyEntry = KeyEntry(messageId: string, encryptedMessageKey: string)

  datatype KeyPage = KeyPage(items: seq<KeyEntry>, hasMore: bool, nextAfterMessageId: Option<string>)

  function ConversationsOf(st: Store, userId: string): set<string> {
    set c | c in st.conversations && c != "" && userId in st.conversations[c]
  }

  predicate Eligible(convs: set<string>, deviceId: string, d: MessageDoc) {
    d.conversationId in convs && KeyFor(d, deviceId).Some?
  }

  function FindMessage(docs: Collection, id: string): Option<MessageDoc> {
    if docs == [] then None else if docs[0].id == id then Some(docs[0]) else FindMessage(docs[1..], id)
  }

  predicate MayAccess(st: Store, userId: string, conversationId: string) {
    Trim(conversationId) in st.conversations && userId in st.conversations[Trim(conversationId)]
  }

  // The exclusive lower bound that afterMessageId stands for.
  function Anchor(st: Store, userId: string, deviceId: string, after: Option<string>): Result<Option<Key>, SyncError> {
    if after.None? || after.value == "" then Ok(None)
    else
      match FindMessage(st.messages, Trim(after.value))
      case None => Err(AnchorNotFound)
      case Some(d) =>
        if !MayAccess(st, userId, d.conversationId) then Err(NotAllowed)
        else if KeyFor(d, deviceId).None? then Err(AnchorWithoutKey)
        else Ok(Some(KeyOf(d)))
  }

  function Entry(d: MessageDoc, deviceId: string): KeyEntry {
    KeyEntry(d.id, match KeyFor(d, deviceId) case Some(k) => k case None => "")
  }

  function Entries(docs: seq<MessageDoc>, deviceId: string): seq<KeyEntry> {
    seq(|docs|, i requires 0 <= i < |docs| => Entry(docs[i], deviceId))
  }

  function ToKeyPage(p: Page, deviceId: string): KeyPage {
    KeyPage(Entries(p.items, deviceId), p.hasMore,
            if p.hasMore && p.items != [] then Some(p.items[|p.items| - 1].id) else None)
  }

  function ListKeys(st: Store, user: string, device: string, after: Option<string>, limit: int)
    : Result<KeyPage, SyncError>
  {
    var userId, deviceId := Trim(user), Trim(device);
    if userId == "" || deviceId == "" then Err(MissingId)
    else if (userId, deviceId) !in st.devices then Err(DeviceNotRegistered)
    else if ConversationsOf(st, userId) == {} then Ok(KeyPage([], false, None))
    else
      match Anchor(st, userId, deviceId, after)
      case Err(e) => Err(e)
      case Ok(bound) =>
        var convs := ConversationsOf(st, userId);
        Ok(ToKeyPage(FetchPage(true, st.messages, (d: MessageDoc) => Eligible(convs, deviceId, d), bound, limit), deviceId))
  }

  // Who may list the keys of which device: exactly a user with that device registered; a cursor, if there is one, must
  // name a message of one of the user's conversations that the device can read. Each refusal has its own reason, asked
  // in this order, and a user without conversations gets an empty page whatever the cursor.
  lemma ListRefusals(st: Store, user: string, device: string, after: Option<string>, limit: int)
    ensures var r := ListKeys(st, user, device, after, limit);
            var u, d := Trim(user), Trim(device);
            var registered := u != "" && d != "" && (u, d) in st.devices;
            var cursor := registered && ConversationsOf(st, u) != {} && after.Some? && after.value != "";
            var found := FindMessage(st.messages, if after.Some? then Trim(after.value) else "");
            && (r == Err(MissingId) <==> u == "" || d == "")
            && (r == Err(DeviceNotRegistered) <==> u != "" && d != "" && !registered)
            && (r == Err(AnchorNotFound) <==> cursor && found.None?)
            && (r == Err(NotAllowed) <==> cursor && found.Some? && !MayAccess(st, u, found.value.conversationId))
            && (r == Err(AnchorWithoutKey) <==>
                  cursor && found.Some? && MayAccess(st, u, found.value.conversationId) && KeyFor(found.value, d).None?)
            && (registered && ConversationsOf(st, u) == {} ==> r == Ok(KeyPage([], false, None)))
  {
    hide FetchPage, ToKeyPage, KeyFor;
  }

  // What a device of a user can read: a message of a conversation with the user in it, wrapped for the device.
  predicate CanRead(st: Store, userId: string, deviceId: string, d: MessageDoc) {
    && d.conversationId != "" && d.conversationId in st.conversations && userId in st.conversations[d.conversationId]
    && d.encryptedMessageKeys.Some? && deviceId in d.encryptedMessageKeys.value
    && d.encryptedMessageKeys.value[deviceId] != ""
  }

  lemma EligibleIsCanRead(st: Store, userId: string, deviceId: string, d: MessageDoc)
    ensures Eligible(ConversationsOf(st, userId), deviceId, d) <==> CanRead(st, userId, deviceId, d)
    ensures CanRead(st, userId, deviceId, d) ==> KeyFor(d, deviceId) == Some(d.encryptedMessageKeys.value[deviceId])
  {
  }

  // An item of a list shows the key that the device has for one of the messages it can read.
  ghost predicate ShowsKey(st: Store, userId: string, deviceId: string, item: KeyEntry) {
    exists d :: d in st.messages && CanRead(st, userId, deviceId, d)
      && item == KeyEntry(d.id, d.encryptedMessageKeys.value[deviceId])
  }

  // A list without a cursor: only what the device can read, at most the page size, and all of it unless there is more.
  lemma ListedExactly(st: Store, user: string, device: string, limit: int)
    requires UniqueIds(st.messages)
    requires ListKeys(st, user, device, None, limit).Ok?
    ensures var page := ListKeys(st, user, device, None, limit).value;
            && |page.items| <= Clamp(limit)
            && (forall k :: 0 <= k < |page.items| ==> ShowsKey(st, Trim(user), Trim(device), page.items[k]))
            && (!page.hasMore ==> forall d :: d in st.messages && CanRead(st, Trim(user), Trim(device), d) ==>
                  KeyEntry(d.id, d.encryptedMessageKeys.value[Trim(device)]) in page.items)
  {
    hide FetchPage, KeyFor;
    var u, dev := Trim(user), Trim(device);
    var convs := ConversationsOf(st, u);
    forall d ensures Eligible(convs, dev, d) <==> CanRead(st, u, dev, d) { EligibleIsCanRead(st, u, dev, d); }
    if convs != {} {
      var keep := (d: MessageDoc) => Eligible(convs, dev, d);
      PageFacts(true, st.messages, keep, None, limit);
      var p := FetchPage(true, st.messages, keep, None, limit);
      forall k | 0 <= k < |p.items|
        ensures ShowsKey(st, u, dev, Entries(p.items, dev)[k])
      {
        assert p.items[k] in p.items && Matches(true, st.messages, keep, None, p.items[k]);
        EligibleIsCanRead(st, u, dev, p.items[k]);
      }
      forall d | d in st.messages && CanRead(st, u, dev, d) && !p.hasMore
        ensures KeyEntry(d.id, d.encryptedMessageKeys.value[dev]) in Entries(p.items, dev)
      {
        assert Matches(true, st.messages, keep, None, d);
        EligibleIsCanRead(st, u, dev, d);
        var k :| 0 <= k < |p.items| && p.items[k] == d;
        assert Entries(p.items, dev)[k] == KeyEntry(d.id, d.encryptedMessageKeys.value[dev]);
      }
    }
  }

  // ----- Batch upload -----

  function Normalized(keys: seq<KeyEntry>): seq<KeyEntry> {
    seq(|keys|, i requires 0 <= i < |keys| => KeyEntry(Trim(keys[i].messageId), keys[i].encryptedMessageKey))
  }

  // Ids are compared trimmed; keys are taken as they are.
  lemma NormalizedExactly(keys: seq<KeyEntry>)
    ensures |Normalized(keys)| == |keys|
    ensures forall i :: 0 <= i < |keys| ==>
              && Normalized(keys)[i].messageId == Trim(keys[i].messageId)
              && Normalized(keys)[i].encryptedMessageKey == keys[i].encryptedMessageKey
  {
  }

  // The last entry for a message wins.
  function LastEntries(entries: seq<KeyEntry>): map<string, string> {
    if entries == [] then map[]
    else
      var last := entries[|entries| - 1];
      LastEntries(entries[..|entries| - 1])[last.messageId := last.encryptedMessageKey]
  }

  predicate HasEligible(docs: Collection, convs: set<string>, source: string, id: string) {
    exists i :: 0 <= i < |docs| && docs[i].id == id && Eligible(convs, source, docs[i])
  }

  function UploadedDoc(d: MessageDoc, convs: set<string>, source: string, target: string, keys: map<string, string>)
    : MessageDoc
  {
    if d.id in keys && Eligible(convs, source, d) then WithKey(d, target, keys[d.id]) else d
  }

  // All keys of a batch written at once.
  function Uploaded(docs: Collection, convs: set<string>, source: string, target: string, keys: map<string, string>)
    : Collection
  {
    seq(|docs|, i requires 0 <= i < |docs| => UploadedDoc(docs[i], convs, source, target, keys))
  }

  function Accepted(docs: Collection, convs: set<string>, source: string, ids: set<string>): set<string> {
    set id | id in ids && HasEligible(docs, convs, source, id)
  }

  datatype Batch = Batch(messages: Collection, applied: nat, skipped: nat)

  // The request with its ids already trimmed.
  function Apply(st: Store, userId: string, source: string, target: string, entries: seq<KeyEntry>)
    : Result<Batch, SyncError>
  {
    if userId == "" || source == "" || target == "" then Err(MissingId)
    else if (userId, target) !in st.devices || (userId, source) !in st.devices then Err(DeviceNotRegistered)
    else
      var convs := ConversationsOf(st, userId);
      if convs == {} then Ok(Batch(st.messages, 0, |entries|))
      else
        var last := LastEntries(entries);
        var accepted := Accepted(st.messages, convs, source, last.Keys);
        Ok(Batch(Uploaded(st.messages, convs, source, target, last), |accepted|, |last.Keys - accepted|))
  }

  function ApplyBatch(st: Store, user: string, source: string, target: string, keys: seq<KeyEntry>)
    : Result<Batch, SyncError>
  {
    Apply(st, Trim(user), Trim(source), Trim(target), Normalized(keys))
  }

  // Both devices must be registered for the user.
  lemma BatchRefusals(st: Store, user: string, source: string, target: string, keys: seq<KeyEntry>)
    ensures var r := ApplyBatch(st, user, source, target, keys);
            var u, s, t := Trim(user), Trim(source), Trim(target);
            && (r == Err(MissingId) <==> u == "" || s == "" || t == "")
            && (r.Ok? <==> u != "" && s != "" && t != "" && (u, s) in st.devices && (u, t) in st.devices)
            && (r.Err? ==> r.error in {MissingId, DeviceNotRegistered})
  {
    hide Uploaded, Accepted, LastEntries;
  }

  ghost predicate IsLastEntry(entries: seq<KeyEntry>, id: string, key: string) {
    exists i :: 0 <= i < |entries| && entries[i] == KeyEntry(id, key)
      && forall j :: i < j < |entries| ==> entries[j].messageId != id
  }

  lemma {:induction false} EveryIdHasAnEntry(entries: seq<KeyEntry>, i: nat)
    requires i < |entries|
    ensures entries[i].messageId in LastEntries(entries)
  {
    if i < |entries| - 1 { EveryIdHasAnEntry(entries[..|entries| - 1], i); }
  }

  // What LastEntries means: each of its values is that of the last entry with the id.
  lemma {:induction false} LastEntryWins(entries: seq<KeyEntry>, id: string)
    requires id in LastEntries(entries)
    ensures IsLastEntry(entries, id, LastEntries(entries)[id])
  {
    var n := |entries| - 1;
    var key := LastEntries(entries)[id];
    if id == entries[n].messageId {
      assert entries[n] == KeyEntry(id, key);
    } else {
      var front := entries[..n];
      LastEntryWins(front, id);
      var i :| 0 <= i < |front| && front[i] == KeyEntry(id, key)
               && forall j :: i < j < |front| ==> front[j].messageId != id;
      assert entries[i] == KeyEntry(id, key);
      assert forall j :: i < j < n ==> entries[j] == front[j];
    }
  }

  lemma LastEntriesDomain(entries: seq<KeyEntry>)
    ensures LastEntries(entries).Keys == set i | 0 <= i < |entries| :: entries[i].messageId
  {
    forall i | 0 <= i < |entries| ensures entries[i].messageId in LastEntries(entries) {
      EveryIdHasAnEntry(entries, i);
    }
    forall id | id in LastEntries(entries) ensures exists i :: 0 <= i < |entries| && entries[i].messageId == id {
      LastEntryWins(entries, id);
    }
  }

  lemma AcceptedSplit(ids: set<string>, accepted: set<string>)
    requires accepted <= ids
    ensures |accepted| + |ids - accepted| == |ids|
  {
    assert ids == accepted + (ids - accepted);
  }

  // Every distinct message id is either applied or skipped; without any conversation each raw entry counts as skipped.
  lemma EveryEntryCounted(st: Store, userId: string, source: string, target: string, entries: seq<KeyEntry>)
    ensures var r := Apply(st, userId, source, target, entries);
            r.Ok? ==>
              r.value.applied + r.value.skipped ==
              if ConversationsOf(st, userId) == {} then |entries|
              else |set i | 0 <= i < |entries| :: entries[i].messageId|
  {
    LastEntriesDomain(entries);
    var last := LastEntries(entries);
    AcceptedSplit(last.Keys, Accepted(st.messages, ConversationsOf(st, userId), source, last.Keys));
  }

  // The changes a batch may make to a message: none, or another value for the target device's key.
  predicate OnlyKeyChanged(target: string, d: MessageDoc, d': MessageDoc) {
    && d'.id == d.id && d'.conversationId == d.conversationId && d'.senderId == d.senderId
    && d'.body == d.body && d'.mediaKey == d.mediaKey && d'.createdAt == d.createdAt
    && d'.iv == d.iv && d'.algorithm == d.algorithm && d'.receiptsByUserId == d.receiptsByUserId
    && (d'.encryptedMessageKeys == d.encryptedMessageKeys
        || (d'.encryptedMessageKeys.Some? && target in d'.encryptedMessageKeys.value
            && d'.encryptedMessageKeys.value - {target} == StoredKeys(d) - {target}))
  }

  // The entries for all devices, if there are any.
  function StoredKeys(d: MessageDoc): map<string, string> {
    match d.encryptedMessageKeys case None => map[] case Some(m) => m
  }

  // The batch has a key for the message and the source device can already read it.
  predicate Applies(st: Store, userId: string, source: string, entries: seq<KeyEntry>, d: MessageDoc) {
    Eligible(ConversationsOf(st, userId), source, d) && d.id in LastEntries(entries)
  }

  // A batch applies to exactly those messages that it names and that the source device can read.
  lemma AppliesExactly(st: Store, userId: string, source: string, entries: seq<KeyEntry>, d: MessageDoc)
    ensures Applies(st, userId, source, entries, d) <==>
            CanRead(st, userId, source, d) && exists i :: 0 <= i < |entries| && entries[i].messageId == d.id
  {
    EligibleIsCanRead(st, userId, source, d);
    LastEntriesDomain(entries);
  }

  // Message by message: an uploaded key reaches the target device of the message it names, if the source device can
  // already read it, and no other device's key and no other field of any message changes.
  lemma BatchTouchesOnlyTarget(st: Store, userId: string, source: string, target: string, entries: seq<KeyEntry>, i: nat)
    requires i < |st.messages| && Apply(st, userId, source, target, entries).Ok?
    ensures var after := Apply(st, userId, source, target, entries).value.messages;
            var d := st.messages[i];
            && |after| == |st.messages|
            && OnlyKeyChanged(target, d, after[i])
            && (forall device :: device != target ==> KeyFor(after[i], device) == KeyFor(d, device))
            && (Applies(st, userId, source, entries, d) ==>
                  var key := LastEntries(entries)[d.id];
                  KeyFor(after[i], target) == if key == "" then None else Some(key))
            && (!Applies(st, userId, source, entries, d) ==> after[i] == d)
  {
    hide OnlyKeyChanged, WithKey, KeyFor;
    var d, last := st.messages[i], LastEntries(entries);
    if Applies(st, userId, source, entries, d) { WithKeyFrame(d, target, last[d.id]); }
    assert OnlyKeyChanged(target, d, d) by { NothingChanged(target, d); }
  }

  lemma NothingChanged(target: string, d: MessageDoc)
    ensures OnlyKeyChanged(target, d, d)
  {
  }

  lemma WithKeyFrame(d: MessageDoc, target: string, key: string)
    ensures OnlyKeyChanged(target, d, WithKey(d, target, key))
    ensures KeyFor(WithKey(d, target, key), target) == if key == "" then None else Some(key)
    ensures forall device :: device != target ==> KeyFor(WithKey(d, target, key), device) == KeyFor(d, device)
  {
  }

  function Holders(d: MessageDoc): set<string> {
    match d.encryptedMessageKeys case None => {} case Some(m) => set k | k in m && m[k] != ""
  }

  // The devices that hold a key of a message never become fewer, as long as no uploaded key is empty.
  lemma HoldersNeverShrink(st: Store, userId: string, source: string, target: string, entries: seq<KeyEntry>, i: nat)
    requires i < |st.messages| && forall k :: k in entries ==> k.encryptedMessageKey != ""
    ensures var r := Apply(st, userId, source, target, entries);
            r.Ok? ==> Holders(st.messages[i]) <= Holders(r.value.messages[i])
  {
    var last, id := LastEntries(entries), st.messages[i].id;
    if id in last {
      LastEntryWins(entries, id);
      assert IsLastEntry(entries, id, last[id]);
      assert KeyEntry(id, last[id]) in entries;
    }
  }

  // An empty key for a message that the batch applies to, with the source device as its own target: the first upload
  // then takes away the key that the second one looks for.
  ghost predicate WipesOwnKey(docs: Collection, convs: set<string>, source: string, target: string,
                              last: map<string, string>)
  {
    source == target && exists id :: id in Accepted(docs, convs, source, last.Keys) && last[id] == ""
  }

  lemma EligibleAfterUpload(docs: Collection, convs: set<string>, source: string, target: string,
                            last: map<string, string>, id: string)
    requires UniqueIds(docs) && id in last
    ensures HasEligible(Uploaded(docs, convs, source, target, last), convs, source, id) <==>
            HasEligible(docs, convs, source, id) && !(source == target && last[id] == "")
  {
    var up := Uploaded(docs, convs, source, target, last);
    if HasEligible(docs, convs, source, id) {
      var i :| 0 <= i < |docs| && docs[i].id == id && Eligible(convs, source, docs[i]);
      assert up[i] == WithKey(docs[i], target, last[id]);
      if !(source == target && last[id] == "") {
        assert Eligible(convs, source, up[i]);
      } else {
        forall k | 0 <= k < |up| && up[k].id == id ensures !Eligible(convs, source, up[k]) { assert k == i; }
      }
    } else {
      forall k | 0 <= k < |up| && up[k].id == id ensures !Eligible(convs, source, up[k]) {
        assert docs[k].id == id;
        assert up[k] == docs[k];
      }
    }
  }

  lemma SetTwice(d: MessageDoc, target: string, key: string)
    ensures WithKey(WithKey(d, target, key), target, key) == WithKey(d, target, key)
  {
    var keys := match d.encryptedMessageKeys case None => map[] case Some(m) => m;
    assert keys[target := key][target := key] == keys[target := key];
  }

  lemma UploadTwice(docs: Collection, convs: set<string>, source: string, target: string, last: map<string, string>)
    requires UniqueIds(docs)
    ensures var up := Uploaded(docs, convs, source, target, last);
            && Uploaded(up, convs, source, target, last) == up
            && var before, after := Accepted(docs, convs, source, last.Keys), Accepted(up, convs, source, last.Keys);
               after <= before && (after == before <==> !WipesOwnKey(docs, convs, source, target, last))
  {
    var up := Uploaded(docs, convs, source, target, last);
    var before, after := Accepted(docs, convs, source, last.Keys), Accepted(up, convs, source, last.Keys);
    forall i | 0 <= i < |docs| ensures UploadedDoc(up[i], convs, source, target, last) == up[i] {
      assert up[i] == UploadedDoc(docs[i], convs, source, target, last);
      SetTwice(docs[i], target, if docs[i].id in last then last[docs[i].id] else "");
    }
    forall id | id in last ensures id in after <==> id in before && !(source == target && last[id] == "") {
      EligibleAfterUpload(docs, convs, source, target, last, id);
    }
  }

  // Uploading the same batch a second time never changes the store, and it counts as the first time exactly if no
  // accepted entry wipes the key it depends on. The request schema asks for non-empty keys, which rules that out.
  lemma BatchIsIdempotent(st: Store, userId: string, source: string, target: string, entries: seq<KeyEntry>)
    requires UniqueIds(st.messages) && Apply(st, userId, source, target, entries).Ok?
    ensures var r := Apply(st, userId, source, target, entries);
            var again := Apply(st.(messages := r.value.messages), userId, source, target, entries);
            var convs := ConversationsOf(st, userId);
            && again.Ok? && again.value.messages == r.value.messages
            && (again == r <==>
                  convs == {} || !WipesOwnKey(st.messages, convs, source, target, LastEntries(entries)))
  {
    var r := Apply(st, userId, source, target, entries);
    var convs, last := ConversationsOf(st, userId), LastEntries(entries);
    assert ConversationsOf(st.(messages := r.value.messages), userId) == convs;
    if convs != {} {
      UploadTwice(st.messages, convs, source, target, last);
      var before := Accepted(st.messages, convs, source, last.Keys);
      var after := Accepted(r.value.messages, convs, source, last.Keys);
      if after != before { SmallerSubset(after, before); }
    }
  }

  lemma SmallerSubset(a: set<string>, b: set<string>)
    requires a < b
    ensures |a| < |b|
  {
    assert b == a + (b - a);
    assert b - a != {};
  }

  // ----- The service -----

  class SyncService {
    var store: Store

    constructor (store: Store)
      ensures this.store == store
    {
      this.store := store;
    }

    method ListSyncMessageKeys(user: string, device: string, after: Option<string>, limit: int)
      returns (r: Result<KeyPage, SyncError>)
      ensures r == ListKeys(store, user, device, after, limit)
    {
      var userId, deviceId := Trim(user), Trim(device);
      if userId == "" || deviceId == "" { return Err(MissingId); }
      if (userId, deviceId) !in store.devices { return Err(DeviceNotRegistered); }
      var convs := ConversationsOf(store, userId);
      if convs == {} { return Ok(KeyPage([], false, None)); }
      var anchor := Anchor(store, userId, deviceId, after);
      if anchor.Err? { return Err(anchor.error); }
      var page := FetchPage(true, store.messages, (d: MessageDoc) => Eligible(convs, deviceId, d), anchor.value, limit);
      var r' := CollectItems(page, deviceId);
      r := Ok(r');
    }

    method CollectItems(page: Page, deviceId: string) returns (r: KeyPage)
      ensures r == ToKeyPage(page, deviceId)
    {
      var items := [];
      for i := 0 to |page.items|
        invariant items == Entries(page.items[..i], deviceId)
      {
        items := items + [Entry(page.items[i], deviceId)];
      }
      assert page.items[..|page.items|] == page.items;
      var next := if page.hasMore && items != [] then Some(items[|items| - 1].messageId) else None;
      r := KeyPage(items, page.hasMore, next);
    }

    // The Map of the batch and its insertion order.
    method Deduplicate(entries: seq<KeyEntry>) returns (lastByMessage: map<string, string>, order: seq<string>)
      ensures lastByMessage == LastEntries(entries) && Lists(order, lastByMessage.Keys)
    {
      lastByMessage, order := map[], [];
      for i := 0 to |entries|
        invariant lastByMessage == LastEntries(entries[..i])
        invariant Lists(order, lastByMessage.Keys)
      {
        assert entries[..i + 1][..i] == entries[..i];
        var mid := entries[i].messageId;
        if mid !in lastByMessage { order := order + [mid]; }
        lastByMessage := lastByMessage[mid := entries[i].encryptedMessageKey];
      }
      assert entries[..|entries|] == entries;
    }

    // updateOne: at most one message has the id. Its keys change exactly if the filter matched.
    method UpdateOne(convs: set<string>, source: string, target: string, id: string, key: string) returns (matched: bool)
      modifies this
      ensures matched == HasEligible(old(store).messages, convs, source, id)
      ensures store == old(store).(messages := Uploaded(old(store).messages, convs, source, target, map[id := key]))
    {
      matched := HasEligible(store.messages, convs, source, id);
      store := store.(messages := Uploaded(store.messages, convs, source, target, map[id := key]));
    }

    method ApplyBatchSyncMessageKeys(user: string, source: string, target: string, keys: seq<KeyEntry>)
      returns (r: Result<(nat, nat), SyncError>)
      modifies this
      ensures match ApplyBatch(old(store), user, source, target, keys)
              case Err(e) => r == Err(e) && store == old(store)
              case Ok(b) => r == Ok((b.applied, b.skipped)) && store == old(store).(messages := b.messages)
    {
      r := ApplyEntries(Trim(user), Trim(source), Trim(target), Normalized(keys));
    }

    method ApplyEntries(userId: string, sourceId: string, targetId: string, entries: seq<KeyEntry>)
      returns (r: Result<(nat, nat), SyncError>)
      modifies this
      ensures match Apply(old(store), userId, sourceId, targetId, entries)
              case Err(e) => r == Err(e) && store == old(store)
              case Ok(b) => r == Ok((b.applied, b.skipped)) && store == old(store).(messages := b.messages)
    {
      if userId == "" || sourceId == "" || targetId == "" { return Err(MissingId); }
      if (userId, targetId) !in store.devices { return Err(DeviceNotRegistered); }
      if (userId, sourceId) !in store.devices { return Err(DeviceNotRegistered); }
      var convs := ConversationsOf(store, userId);
      if convs == {} { return Ok((0, |entries|)); }
      var lastByMessage, order := Deduplicate(entries);
      var applied, skipped := UploadAll(convs, sourceId, targetId, lastByMessage, order);
      r := Ok((applied, skipped));
    }

    method UploadAll(convs: set<string>, source: string, target: string, last: map<string, string>, order: seq<string>)
      returns (applied: nat, skipped: nat)
      requires Lists(order, last.Keys)
      modifies this
      ensures store == old(store).(messages := Uploaded(old(store).messages, convs, source, target, last))
      ensures var accepted := Accepted(old(store).messages, convs, source, last.Keys);
              applied == |accepted| && skipped == |last.Keys - accepted|
    {
      applied, skipped := 0, 0;
      ghost var docs := store.messages;
      ghost var request := Request(docs, convs, source, target, last, order);
      NothingUploaded(request);
      for i := 0 to |order|
        invariant store == old(store).(messages := store.messages)
        invariant Progress(request, i, store.messages, applied, skipped)
      {
        OneMoreUpload(request, i, store.messages, applied, skipped);
        var matched := UpdateOne(convs, source, target, order[i], last[order[i]]);
        if matched { applied := applied + 1; } else { skipped := skipped + 1; }
      }
      AllUploaded(request, store.messages, applied, skipped);
    }
  }

  // A batch in progress: the messages at the start, the upload, and the order it is taken in.
  datatype Request = Request(docs: Collection, convs: set<string>, source: string, target: string,
                             last: map<string, string>, order: seq<string>)

  ghost predicate Progress(q: Request, i: nat, now: Collection, applied: nat, skipped: nat) {
    && i <= |q.order| && Lists(q.order, q.last.Keys)
    && now == Uploaded(q.docs, q.convs, q.source, q.target, First(q.last, q.order, i))
    && var accepted := Accepted(q.docs, q.convs, q.source, q.last.Keys);
       applied == |IdsOf(q.order[..i]) * accepted| && skipped == |IdsOf(q.order[..i]) - accepted|
  }

  // Each id once.
  ghost predicate Lists(order: seq<string>, ids: set<string>) {
    && (forall i, j :: 0 <= i < j < |order| ==> order[i] != order[j])
    && IdsOf(order) == ids
  }

  ghost function IdsOf(order: seq<string>): set<string> { set id | id in order }

  ghost function First(last: map<string, string>, order: seq<string>, n: nat): map<string, string>
    requires n <= |order| && IdsOf(order) == last.Keys
  {
    map id | id in IdsOf(order[..n]) :: last[id]
  }

  lemma OneMoreUpload(q: Request, i: nat, now: Collection, applied: nat, skipped: nat)
    requires i < |q.order| && Progress(q, i, now, applied, skipped)
    ensures var id := q.order[i];
            var matched := HasEligible(now, q.convs, q.source, id);
            Progress(q, i + 1, Uploaded(now, q.convs, q.source, q.target, map[id := q.last[id]]),
                     applied + (if matched then 1 else 0), skipped + if matched then 0 else 1)
  {
    var id := q.order[i];
    assert id in q.order;
    OneMoreEntry(q.last, q.order, i);
    SetOneMore(q.docs, q.convs, q.source, q.target, First(q.last, q.order, i), id, q.last[id]);
    OneMoreCounted(q.order, i, Accepted(q.docs, q.convs, q.source, q.last.Keys));
  }

  lemma OneMoreEntry(last: map<string, string>, order: seq<string>, i: nat)
    requires i < |order| && Lists(order, last.Keys)
    ensures order[i] in last && order[i] !in First(last, order, i)
    ensures First(last, order, i + 1) == First(last, order, i)[order[i] := last[order[i]]]
  {
    assert order[i] in order;
    assert order[..i + 1] == order[..i] + [order[i]];
  }

  lemma SetOneMore(docs: Collection, convs: set<string>, source: string, target: string, keys: map<string, string>,
                   id: string, key: string)
    requires id !in keys
    ensures var now := Uploaded(docs, convs, source, target, keys);
            && (HasEligible(now, convs, source, id) <==> HasEligible(docs, convs, source, id))
            && Uploaded(now, convs, source, target, map[id := key])
               == Uploaded(docs, convs, source, target, keys[id := key])
  {
    var now := Uploaded(docs, convs, source, target, keys);
    forall k | 0 <= k < |docs| && docs[k].id == id ensures now[k] == docs[k] {}
    SameEligible(docs, now, convs, source, id);
  }

  lemma SameEligible(a: Collection, b: Collection, convs: set<string>, source: string, id: string)
    requires |a| == |b| && forall k :: 0 <= k < |a| ==> a[k].id == b[k].id && (a[k].id == id ==> a[k] == b[k])
    ensures HasEligible(a, convs, source, id) <==> HasEligible(b, convs, source, id)
  {
    if HasEligible(a, convs, source, id) {
      var k :| 0 <= k < |a| && a[k].id == id && Eligible(convs, source, a[k]);
      assert b[k].id == id;
    }
    if HasEligible(b, convs, source, id) {
      var k :| 0 <= k < |b| && b[k].id == id && Eligible(convs, source, b[k]);
      assert a[k].id == id;
    }
  }

  lemma NothingUploaded(q: Request)
    requires Lists(q.order, q.last.Keys)
    ensures Progress(q, 0, q.docs, 0, 0)
  {
    assert q.order[..0] == [];
    assert IdsOf(q.order[..0]) == {};
  }

  lemma OneMoreCounted(order: seq<string>, i: nat, accepted: set<string>)
    requires i < |order| && Lists(order, IdsOf(order))
    ensures |IdsOf(order[..i + 1]) * accepted| == |IdsOf(order[..i]) * accepted| + if order[i] in accepted then 1 else 0
    ensures |IdsOf(order[..i + 1]) - accepted| == |IdsOf(order[..i]) - accepted| + if order[i] in accepted then 0 else 1
  {
    var id := order[i];
    assert order[..i + 1] == order[..i] + [id];
    assert id !in IdsOf(order[..i]);
    if id in accepted {
      assert IdsOf(order[..i + 1]) * accepted == IdsOf(order[..i]) * accepted + {id};
      assert IdsOf(order[..i + 1]) - accepted == IdsOf(order[..i]) - accepted;
    } else {
      assert IdsOf(order[..i + 1]) * accepted == IdsOf(order[..i]) * accepted;
      assert IdsOf(order[..i + 1]) - accepted == IdsOf(order[..i]) - accepted + {id};
    }
  }

  lemma AllUploaded(q: Request, now: Collection, applied: nat, skipped: nat)
    requires Progress(q, |q.order|, now, applied, skipped)
    ensures now == Uploaded(q.docs, q.convs, q.source, q.target, q.last)
    ensures var accepted := Accepted(q.docs, q.convs, q.source, q.last.Keys);
            applied == |accepted| && skipped == |q.last.Keys - accepted|
  {
    AllEntries(q.last, q.order);
    AllCounted(q.order, q.last.Keys, Accepted(q.docs, q.convs, q.source, q.last.Keys));
  }

  lemma AllEntries(last: map<string, string>, order: seq<string>)
    requires Lists(order, last.Keys)
    ensures First(last, order, |order|) == last
  {
    assert order[..|order|] == order;
  }

  lemma AllCounted(order: seq<string>, ids: set<string>, accepted: set<string>)
    requires Lists(order, ids) && accepted <= ids
    ensures |IdsOf(order[..|order|]) * accepted| == |accepted|
    ensures |IdsOf(order[..|order|]) - accepted| == |ids - accepted|
  {
    assert order[..|order|] == order;
    assert ids * accepted == accepted;
  }
}
