// The number of keys that the sync loop reports as applied.

module SyncCount {
  import opened Text
  import opened Messages
  import opened Keyset
  import opened KeySync
  import opened SyncWalk

  // The messages of the user's conversations with a key for the source device, past the cursor.
  function DueAt(p: Params, st: Store, k: Option<Key>): set<nat> {
    set i: nat | i < |st.messages| && Due(p, st, k, st.messages[i])
  }

  function Places(all: Collection, docs: seq<MessageDoc>): set<nat> {
    set i: nat | i < |all| && all[i] in docs
  }

  lemma {:induction false} ImageSize(all: Collection, places: set<nat>, ids: set<string>)
    requires UniqueIds(all) && (forall i :: i in places ==> i < |all|)
    requires forall id :: id in ids <==> exists i :: i in places && all[i].id == id
    ensures |ids| == |places|
    decreases |places|
  {
    if places != {} {
      var i :| i in places;
      assert all[i].id in ids;
      forall id ensures id in ids - {all[i].id} <==> exists j :: j in places - {i} && all[j].id == id {
        if id in ids - {all[i].id} {
          var j :| j in places && all[j].id == id;
          assert j in places - {i};
        }
        if j :| j in places - {i} && all[j].id == id { assert all[i].id != all[j].id; }
      }
      ImageSize(all, places - {i}, ids - {all[i].id});
    } else {
      assert ids == {};
    }
  }

  lemma IdsOfPage(p: Params, all: Collection, docs: seq<MessageDoc>, keys: seq<KeyEntry>)
    requires UniqueIds(all) && (forall d :: d in docs ==> d in all) && EntriesFor(p, docs, keys)
    ensures |LastEntries(keys).Keys| == |Places(all, docs)|
  {
    hide LastEntries;
    LastEntriesDomain(keys);
    var ids, places := LastEntries(keys).Keys, Places(all, docs);
    forall id | id in ids ensures exists i :: i in places && all[i].id == id {
      var n :| 0 <= n < |keys| && keys[n].messageId == id;
      assert docs[n] in docs && docs[n].id == id;
      var i :| 0 <= i < |all| && all[i] == docs[n];
      assert i in places;
    }
    forall i | i in places ensures all[i].id in ids {
      var n :| 0 <= n < |docs| && docs[n] == all[i];
      assert keys[n].messageId == all[i].id;
    }
    ImageSize(all, places, ids);
  }

  lemma AppliedWhenNoneSkipped(st: Store, user: string, source: string, target: string, keys: seq<KeyEntry>)
    requires var r := Apply(st, user, source, target, keys); r.Ok? && r.value.skipped == 0
    requires ConversationsOf(st, user) != {}
    ensures Apply(st, user, source, target, keys).value.applied == |LastEntries(keys).Keys|
  {
    hide Uploaded, LastEntries;
    var last := LastEntries(keys);
    var accepted := Accepted(st.messages, ConversationsOf(st, user), source, last.Keys);
    assert last.Keys - accepted == {};
    assert accepted == last.Keys;
  }

  // An upload counts each message of its page once.
  lemma PageCounts(p: Params, st: Store, st1: Store, k: Option<Key>, page: KeyPage, docs: seq<MessageDoc>,
                   keys: seq<KeyEntry>)
    requires CleanId(p.user) && CleanId(p.source) && CleanId(p.target)
    requires (p.user, p.source) in st1.devices && (p.user, p.target) in st1.devices
    requires UniqueIds(st.messages) && UniqueIds(st1.messages) && CleanIds(st1.messages) && st.messages <= st1.messages
    requires ConversationsOf(st, p.user) <= ConversationsOf(st1, p.user)
    requires PageOf(p, st, k, page, docs) && docs != [] && EntriesFor(p, docs, keys)
    ensures var r := ApplyBatch(st1, p.user, p.source, p.target, keys);
            r.Ok? && r.value.applied == |Places(st.messages, docs)|
  {
    hide Trim, Apply, KeyFor, EntriesFor;
    UploadPage(p, st, st1, k, page, docs, keys);
    forall d | d in docs ensures d in st1.messages { assert d in st.messages; }
    NormalizedPage(p, st1.messages, docs, keys);
    TrimIsTrimmed(p.user);
    TrimIsTrimmed(p.source);
    TrimIsTrimmed(p.target);
    assert docs[0] in docs && docs[0].conversationId in ConversationsOf(st1, p.user);
    AppliedWhenNoneSkipped(st1, p.user, p.source, p.target, keys);
    IdsOfPage(p, st.messages, docs, keys);
  }

  // At least the messages due at the start once done, and at most those there are or will be.
  ghost predicate Counts(p: Params, st: Store, turns: seq<Turn>, k: Option<Key>, r: Sync) {
    && r.applied <= |Pending(p, st, turns, k)|
    && (r.outcome.Done? ==> |DueAt(p, st, k)| <= r.applied)
  }

  lemma DueIsPending(p: Params, st: Store, turns: seq<Turn>, k: Option<Key>)
    ensures DueAt(p, st, k) <= Pending(p, st, turns, k)
  {
    forall i | i in DueAt(p, st, k) ensures i in Pending(p, st, turns, k) {
      assert Everything(st, turns)[i] == st.messages[i];
    }
  }

  lemma Size(a: set<nat>, b: set<nat>)
    requires a <= b
    ensures |a| <= |b|
  {
    assert b == a + (b - a);
  }

  lemma DisjointSize(a: set<nat>, b: set<nat>, all: set<nat>)
    requires a !! b && a + b <= all
    ensures |a| + |b| <= |all|
  {
    assert |a + b| == |a| + |b|;
    Size(a + b, all);
  }

  lemma UnionSize(a: set<nat>, b: set<nat>, part: set<nat>)
    requires part <= a + b
    ensures |part| <= |a| + |b|
  {
    assert a + b == a + (b - a);
    Size(b - a, b);
    Size(part, a + b);
  }

  // A page that is not the last: its messages come before what is left.
  lemma HereIsNotLater(p: Params, st: Store, turns: seq<Turn>, k: Option<Key>, page: KeyPage, docs: seq<MessageDoc>,
                       st3: Store)
    requires Ready(p, st, turns) && turns != [] && PageOf(p, st, k, page, docs) && docs != [] && Sorted(true, docs)
    requires AfterTurn(p, st, turns[0], docs, st3)
    ensures Places(st.messages, docs) !! Pending(p, st3, turns[1..], Some(Last(docs)))
    ensures Places(st.messages, docs) <= Pending(p, st, turns, k)
  {
    hide Ready, AfterTurn, UniqueIds;
    TurnKeepsReady(p, st, turns, docs, st3);
    var a, last := Everything(st, turns), docs[|docs| - 1];
    forall i | i in Places(st.messages, docs)
      ensures i in Pending(p, st, turns, k) && i !in Pending(p, st3, turns[1..], Some(Last(docs)))
    {
      var n :| 0 <= n < |docs| && docs[n] == st.messages[i];
      assert a[i] == st.messages[i] && docs[n] in docs;
      BeforeIsTotalOrder(true, KeyOf(docs[n]), KeyOf(last));
    }
  }

  lemma LaterIsPending(p: Params, st: Store, turns: seq<Turn>, k: Option<Key>, page: KeyPage, docs: seq<MessageDoc>,
                       st3: Store)
    requires Ready(p, st, turns) && turns != [] && PageOf(p, st, k, page, docs) && docs != []
    requires AfterTurn(p, st, turns[0], docs, st3)
    ensures Pending(p, st3, turns[1..], Some(Last(docs))) <= Pending(p, st, turns, k)
  {
    var a, last := Everything(st, turns), docs[|docs| - 1];
    TurnKeepsReady(p, st, turns, docs, st3);
    TurnConversations(p, st, turns, docs, st3);
    hide Ready, AfterTurn, Everything, UserConversations;
    assert last in docs;
    forall i | i in Pending(p, st3, turns[1..], Some(Last(docs))) ensures i in Pending(p, st, turns, k) {
      SyncedFacts(p, a[i]);
      if k.Some? { BeforeTransitive(true, k.value, KeyOf(last), KeyOf(a[i])); }
    }
  }

  lemma DueIsHereOrLater(p: Params, st: Store, turns: seq<Turn>, k: Option<Key>, page: KeyPage, docs: seq<MessageDoc>,
                         st3: Store)
    requires Ready(p, st, turns) && turns != [] && PageOf(p, st, k, page, docs) && docs != []
    requires AfterTurn(p, st, turns[0], docs, st3)
    ensures DueAt(p, st, k) <= Places(st.messages, docs) + DueAt(p, st3, Some(Last(docs)))
  {
    forall i | i in DueAt(p, st, k) && i !in Places(st.messages, docs) ensures i in DueAt(p, st3, Some(Last(docs))) {
      TurnKeepsDue(p, st, turns[0], docs, st3, i);
      assert st.messages[i] in st.messages;
    }
  }

  lemma {:induction false} CountFromCursor(p: Params, st: Store, after: Option<string>, k: Option<Key>, turns: seq<Turn>)
    requires Ready(p, st, turns) && CursorAt(p, st, after, k)
    ensures Counts(p, st, turns, k, Approve(p, st, after, turns))
    decreases |turns|
  {
    hide ListKeys, RewrapAll, ApplyBatch, Pending, CursorAt, EntriesFor;
    if turns != [] {
      var docs := ReadPage(p, st, turns, after, k);
      var page := ListKeys(st, p.user, p.source, after, p.limit).value;
      RewrapAllFacts(p, docs);
      if docs == [] {
        NothingDue(p, st, k, page);
      } else if RewrapAll(p, page.items).Some? {
        var keys := RewrapAll(p, page.items).value;
        PageIsRewrapped(p, docs, page, keys);
        CountAfterUpload(p, st, k, turns, page, docs, keys);
      }
    }
  }

  lemma NothingDue(p: Params, st: Store, k: Option<Key>, page: KeyPage)
    requires PageOf(p, st, k, page, [])
    ensures DueAt(p, st, k) == {}
  {
    forall i: nat | i < |st.messages| ensures !Due(p, st, k, st.messages[i]) { assert st.messages[i] in st.messages; }
  }

  lemma PageIsRewrapped(p: Params, docs: seq<MessageDoc>, page: KeyPage, keys: seq<KeyEntry>)
    requires (forall d :: d in docs ==> KeyFor(d, p.source).Some?) && page.items == Entries(docs, p.source)
    requires RewrapAll(p, page.items) == Some(keys)
    ensures EntriesFor(p, docs, keys)
  {
    RewrapAllFacts(p, docs);
  }

  lemma LastPageCounts(p: Params, st: Store, turns: seq<Turn>, k: Option<Key>, page: KeyPage, docs: seq<MessageDoc>)
    requires PageOf(p, st, k, page, docs) && !page.hasMore
    ensures DueAt(p, st, k) == Places(st.messages, docs)
    ensures |Places(st.messages, docs)| <= |Pending(p, st, turns, k)|
  {
    forall i | i in DueAt(p, st, k) ensures i in Places(st.messages, docs) { assert st.messages[i] in st.messages; }
    DueIsPending(p, st, turns, k);
    Size(DueAt(p, st, k), Pending(p, st, turns, k));
  }

  lemma {:induction false} CountAfterUpload(p: Params, st: Store, k: Option<Key>, turns: seq<Turn>, page: KeyPage,
                                            docs: seq<MessageDoc>, keys: seq<KeyEntry>)
    requires Ready(p, st, turns) && turns != []
    requires PageOf(p, st, k, page, docs) && docs != [] && Sorted(true, docs) && EntriesFor(p, docs, keys)
    ensures Counts(p, st, turns, k, Upload(p, st, page, keys, turns))
    decreases |turns|, 0
  {
    hide ApplyBatch, Pending, PageOf, EntriesFor, Trim, AfterTurn, CursorAt;
    var st1 := Arrive(st, turns[0].beforeUpload);
    ArrivedUnique(p, st, turns);
    UniquePrefix(st.messages, Incoming(turns));
    ConversationsGrow(st, turns[0].beforeUpload, p.user);
    UploadPage(p, st, st1, k, page, docs, keys);
    PageCounts(p, st, st1, k, page, docs, keys);
    var b := ApplyBatch(st1, p.user, p.source, p.target, keys).value;
    if !page.hasMore {
      LastPageCounts(p, st, turns, k, page, docs);
    } else {
      var st3 := Arrive(st1.(messages := b.messages), turns[0].afterUpload);
      PageIsPresent(p, st, k, page, docs);
      TurnHappened(p, st, turns, docs, b.messages);
      TurnKeepsReady(p, st, turns, docs, st3);
      NextCursor(p, st, turns, k, page, docs, st3);
      CountFromCursor(p, st3, page.nextAfterMessageId, Some(Last(docs)), turns[1..]);
      HereIsNotLater(p, st, turns, k, page, docs, st3);
      LaterIsPending(p, st, turns, k, page, docs, st3);
      DueIsHereOrLater(p, st, turns, k, page, docs, st3);
      var here, later := Places(st.messages, docs), Pending(p, st3, turns[1..], Some(Last(docs)));
      DisjointSize(here, later, Pending(p, st, turns, k));
      UnionSize(here, DueAt(p, st3, Some(Last(docs))), DueAt(p, st, k));
    }
  }

  lemma PageIsPresent(p: Params, st: Store, k: Option<Key>, page: KeyPage, docs: seq<MessageDoc>)
    requires PageOf(p, st, k, page, docs)
    ensures forall d :: d in docs ==> d in st.messages
  {
  }

  // The sum that the loop reports counts every message once: at least all that were due at the start, once it is done,
  // and never more than there are or will be in the user's conversations with a key for the source device. With
  // nothing arriving it is the number of messages due at the start.
  lemma AppliedCountsOnce(p: Params, st: Store, turns: seq<Turn>)
    requires Ready(p, st, turns)
    ensures var r := Approve(p, st, None, turns);
            && r.applied <= |Pending(p, st, turns, None)|
            && (r.outcome.Done? ==> |DueAt(p, st, None)| <= r.applied)
            && (r.outcome.Done? && Incoming(turns) == [] && OpenedIn(turns, p.user) == {} ==>
                  r.applied == |DueAt(p, st, None)|)
  {
    hide Approve;
    CountFromCursor(p, st, None, None, turns);
    if Incoming(turns) == [] && OpenedIn(turns, p.user) == {} {
      assert Everything(st, turns) == st.messages;
      assert Pending(p, st, turns, None) == DueAt(p, st, None);
    }
  }
}
