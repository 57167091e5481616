// GET /conversations/{id}/messages: the opaque cursor, one page, and a client that follows nextCursor.

module MessageListing {
  import opened Text
  import opened Json
  import opened Messages
  import opened Directory
  import opened Keyset

  // ----- The cursor -----

  // Runtime functions behind the cursor: JSON, UTF-8 in base64url, and ISO dates.
  datatype Lib = Lib(codec: Codec, b64url: string -> string, unb64url: string -> string,
                     iso: int -> string, parseDate: string -> Option<int>)

  // Decoding undoes encoding; base64url text has no white space; dates read back as they were printed.
  ghost predicate LibFaithful(lib: Lib) {
    && Faithful(lib.codec)
    && (forall s :: lib.unb64url(lib.b64url(s)) == s)
    && (forall j: Json :: var text := lib.b64url(lib.codec.stringify(j)); text != "" && Trimmed(text))
    && (forall t :: lib.parseDate(lib.iso(t)) == Some(t))
  }

  function EncodeCursor(lib: Lib, k: Key): string {
    lib.b64url(lib.codec.stringify(JObj(map["t" := JStr(lib.iso(k.createdAt)), "id" := JStr(k.id)])))
  }

  // None is the INVALID_REQUEST error.
  function ParseCursor(lib: Lib, raw: string): Option<Key> {
    var trimmed := Trim(raw);
    if |trimmed| == 0 then None
    else
      match lib.codec.parse(lib.unb64url(trimmed))
      case None => None
      case Some(o) =>
        var t, id := StringField(o, "t"), StringField(o, "id");
        if t.None? || id.None? || |Trim(id.value)| == 0 then None
        else
          match lib.parseDate(t.value)
          case None => None
          case Some(createdAt) => Some(Key(createdAt, Trim(id.value)))
  }

  // A cursor reads back as it was written exactly when its id is not blank and has no white space around it.
  lemma CursorRoundTrip(lib: Lib, k: Key)
    requires LibFaithful(lib)
    ensures ParseCursor(lib, EncodeCursor(lib, k)) == if Trim(k.id) == "" then None else Some(Key(k.createdAt, Trim(k.id)))
    ensures ParseCursor(lib, EncodeCursor(lib, k)) == Some(k) <==> k.id != "" && Trimmed(k.id)
  {
    var o := JObj(map["t" := JStr(lib.iso(k.createdAt)), "id" := JStr(k.id)]);
    assert |"t"| == 1 && |"id"| == 2;
    assert StringField(o, "t") == Some(lib.iso(k.createdAt)) && StringField(o, "id") == Some(k.id);
    var raw := EncodeCursor(lib, k);
    TrimIsTrimmed(raw);
    TrimIsTrimmed(k.id);
    assert lib.codec.parse(lib.unb64url(Trim(raw))) == Some(o);
  }

  // ----- One page -----

  datatype ListError = InvalidCursor | ConversationNotFound | GroupNotSupported | NotAParticipant

  datatype ListPage = ListPage(items: seq<MessageDoc>, nextCursor: Option<string>, hasMore: bool)

  // buildConversationMessagesFilter and the descending sort.
  function ListByConversation(docs: Collection, conversationId: string, limit: int, cursor: Option<Key>): Page {
    FetchPage(false, docs, (d: MessageDoc) => d.conversationId == conversationId, cursor, limit)
  }

  datatype ReceiptRow = ReceiptRow(id: string, conversationId: string, createdAt: int,
                                   receiptsByUserId: map<string, ReceiptEntry>)

  datatype ReceiptPage = ReceiptPage(items: seq<ReceiptRow>, hasMore: bool)

  function ToReceiptRows(docs: seq<MessageDoc>): seq<ReceiptRow> {
    seq(|docs|, i requires 0 <= i < |docs| =>
      ReceiptRow(docs[i].id, docs[i].conversationId, docs[i].createdAt, docs[i].receiptsByUserId))
  }

  // The receipt listing runs the same query with another projection.
  function ListReceipts(docs: Collection, conversationId: string, limit: int, cursor: Option<Key>): ReceiptPage {
    var cap := Clamp(limit);
    var rows := ToReceiptRows(Take(
      Selected(false, docs, (d: MessageDoc) => d.conversationId == conversationId, cursor), cap + 1));
    if |rows| > cap then ReceiptPage(rows[..cap], true) else ReceiptPage(rows, false)
  }

  function ListMessages(lib: Lib, dir: Directory, docs: Collection, userId: string, conversationId: string,
                        cursor: Option<string>, limit: int): Result<ListPage, ListError>
  {
    var boundary := if cursor.Some? && Trim(cursor.value) != "" then ParseCursor(lib, cursor.value) else None;
    if cursor.Some? && Trim(cursor.value) != "" && boundary.None? then Err(InvalidCursor)
    else
      match LookupConversation(dir, conversationId)
      case None => Err(ConversationNotFound)
      case Some(Group) => Err(GroupNotSupported)
      case Some(Direct(id, participants)) =>
        if userId !in participants then Err(NotAParticipant)
        else
          var p := ListByConversation(docs, id, limit, boundary);
          var next := if p.hasMore && |p.items| > 0 then Some(EncodeCursor(lib, Last(p.items))) else None;
          Ok(ListPage(p.items, next, p.hasMore))
  }

  // What a cursor must be: base64url JSON text of an object with a date and an id that is not blank.
  lemma CursorsAccepted(lib: Lib, raw: string, k: Key)
    ensures ParseCursor(lib, raw) == Some(k) <==>
            && Trim(raw) != ""
            && var o := lib.codec.parse(lib.unb64url(Trim(raw)));
               && o.Some? && HasString(o.value, "t") && HasString(o.value, "id")
               && lib.parseDate(StringField(o.value, "t").value) == Some(k.createdAt)
               && k.id == Trim(StringField(o.value, "id").value) && k.id != ""
  {
    TrimIsTrimmed(raw);
  }

  // Who may list what: a page is given exactly to a participant of an existing direct conversation whose cursor, if
  // there is one that is not blank, reads; every refusal has its own reason.
  lemma ListingRefusals(lib: Lib, dir: Directory, docs: Collection, userId: string, conversationId: string,
                        cursor: Option<string>, limit: int)
    ensures var r := ListMessages(lib, dir, docs, userId, conversationId, cursor, limit);
            var bad := cursor.Some? && Trim(cursor.value) != "" && ParseCursor(lib, cursor.value).None?;
            var found := LookupConversation(dir, conversationId);
            && (r.Ok? <==> !bad && found.Some? && found.value.Direct? && userId in found.value.participants)
            && (r == Err(InvalidCursor) <==> bad)
            && (r == Err(ConversationNotFound) <==> !bad && found.None?)
            && (r == Err(GroupNotSupported) <==> !bad && found == Some(Group))
            && (r == Err(NotAParticipant) <==>
                  !bad && found.Some? && found.value.Direct? && userId !in found.value.participants)
  {
    hide ParseCursor, EncodeCursor, FetchPage;
  }

  // Message and receipt pages list the same ids page by page.
  lemma ReceiptPagesMatchMessagePages(docs: Collection, conversationId: string, limit: int, cursor: Option<Key>)
    ensures var m := ListByConversation(docs, conversationId, limit, cursor);
            var r := ListReceipts(docs, conversationId, limit, cursor);
            && m.hasMore == r.hasMore && |m.items| == |r.items|
            && forall i :: 0 <= i < |m.items| ==>
                 && r.items[i].id == m.items[i].id && r.items[i].createdAt == m.items[i].createdAt
                 && r.items[i].receiptsByUserId == m.items[i].receiptsByUserId
  {
    var keep := (d: MessageDoc) => d.conversationId == conversationId;
    assert ListByConversation(docs, conversationId, limit, cursor) == FetchPage(false, docs, keep, cursor, limit);
  }

  // ----- Following nextCursor -----

  datatype Walk = Walk(items: seq<MessageDoc>, finished: bool)

  // One page is read from each collection in turn; in between, the collection may have become any other.
  function FollowCursor(lib: Lib, dir: Directory, userId: string, conversationId: string, limit: int,
                        collections: seq<Collection>, cursor: Option<string>): Walk
    decreases |collections|
  {
    if collections == [] then Walk([], false)
    else
      match ListMessages(lib, dir, collections[0], userId, conversationId, cursor, limit)
      case Err(_) => Walk([], false)
      case Ok(p) =>
        if !p.hasMore then Walk(p.items, true)
        else
          var rest := FollowCursor(lib, dir, userId, conversationId, limit, collections[1..], p.nextCursor);
          Walk(p.items + rest.items, rest.finished)
  }

  // Ids are UUIDs, unique in the collection.
  ghost predicate GoodCollection(docs: Collection) {
    UniqueIds(docs) && forall d :: d in docs ==> CleanId(d.id)
  }

  ghost predicate MayRead(dir: Directory, userId: string, conversationId: string, id: string) {
    var c := LookupConversation(dir, conversationId);
    c.Some? && c.value.Direct? && c.value.id == id && userId in c.value.participants
  }

  // A message of the conversation with this key is in the collection, past the cursor.
  ghost predicate Has(docs: Collection, id: string, after: Option<Key>, k: Key) {
    exists d :: d in docs && d.conversationId == id && KeyOf(d) == k && After(false, after, d)
  }

  ghost predicate CursorIs(lib: Lib, cursor: Option<string>, after: Option<Key>) {
    match after
    case None => cursor.None? || Trim(cursor.value) == ""
    case Some(k) => cursor.Some? && Trim(cursor.value) != "" && ParseCursor(lib, cursor.value) == Some(k)
  }

  lemma NextCursorIsLast(lib: Lib, items: seq<MessageDoc>)
    requires LibFaithful(lib) && items != [] && items[|items| - 1].id != "" && Trimmed(items[|items| - 1].id)
    ensures CursorIs(lib, Some(EncodeCursor(lib, Last(items))), Some(Last(items)))
  {
    CursorRoundTrip(lib, Last(items));
  }

  lemma SortedConcat(asc: bool, a: seq<MessageDoc>, b: seq<MessageDoc>)
    requires Sorted(asc, a) && Sorted(asc, b)
    requires a != [] ==> forall d :: d in b ==> Before(asc, Last(a), KeyOf(d))
    ensures Sorted(asc, a + b)
  {
    var c := a + b;
    forall i, k | 0 <= i < k < |c| ensures Before(asc, KeyOf(c[i]), KeyOf(c[k])) {
      if i < |a| <= k {
        assert b[k - |a|] in b;
        if i < |a| - 1 { BeforeTransitive(asc, KeyOf(a[i]), Last(a), KeyOf(c[k])); }
      }
    }
  }

  // A page read from the first collection of a walk.
  ghost predicate PageOk(docs: Collection, id: string, after: Option<Key>, p: ListPage) {
    && Sorted(false, p.items) && (p.hasMore ==> p.items != [])
    && (forall d :: d in p.items ==> d in docs && d.conversationId == id && After(false, after, d))
    && forall k :: Has(docs, id, after, k) ==>
         (exists d :: d in p.items && KeyOf(d) == k) || (p.hasMore && Before(false, Last(p.items), k))
  }

  // What one page contributes to a walk.
  lemma OnePage(lib: Lib, dir: Directory, docs: Collection, userId: string, conversationId: string, id: string,
                cursor: Option<string>, after: Option<Key>, limit: int)
    requires LibFaithful(lib) && GoodCollection(docs) && MayRead(dir, userId, conversationId, id)
    requires CursorIs(lib, cursor, after)
    ensures var r := ListMessages(lib, dir, docs, userId, conversationId, cursor, limit);
            && r.Ok? && PageOk(docs, id, after, r.value)
            && (r.value.hasMore ==> CursorIs(lib, r.value.nextCursor, Some(Last(r.value.items))))
  {
    hide Trim, EncodeCursor, ParseCursor, FetchPage, PageOk, Has;
    var keep := (d: MessageDoc) => d.conversationId == id;
    var p := FetchPage(false, docs, keep, after, limit);
    var r := ListMessages(lib, dir, docs, userId, conversationId, cursor, limit);
    assert r.Ok? && r.value.items == p.items && r.value.hasMore == p.hasMore;
    FetchedPage(docs, id, after, limit, r.value);
    if p.hasMore { NextCursorIsLast(lib, p.items); }
  }

  lemma FetchedPage(docs: Collection, id: string, after: Option<Key>, limit: int, r: ListPage)
    requires GoodCollection(docs)
    requires var p := FetchPage(false, docs, (d: MessageDoc) => d.conversationId == id, after, limit);
             r.items == p.items && r.hasMore == p.hasMore
    ensures PageOk(docs, id, after, r)
    ensures r.hasMore ==> r.items != [] && CleanId(r.items[|r.items| - 1].id)
  {
    hide FetchPage;
    var keep := (d: MessageDoc) => d.conversationId == id;
    var p := FetchPage(false, docs, keep, after, limit);
    PageFacts(false, docs, keep, after, limit);
    forall d | d in r.items ensures d in docs && d.conversationId == id && After(false, after, d) {
      assert Matches(false, docs, keep, after, d);
    }
    if r.hasMore { assert r.items[|r.items| - 1] in r.items; }
    forall k | Has(docs, id, after, k)
      ensures (exists d :: d in r.items && KeyOf(d) == k) || (r.hasMore && Before(false, Last(r.items), k))
    {
      var d :| d in docs && d.conversationId == id && KeyOf(d) == k && After(false, after, d);
      assert Matches(false, docs, keep, after, d);
    }
  }

  // Every collection of the walk has the message.
  ghost predicate HasAlways(collections: seq<Collection>, id: string, after: Option<Key>, k: Key) {
    forall i :: 0 <= i < |collections| ==> Has(collections[i], id, after, k)
  }

  ghost predicate Listed(items: seq<MessageDoc>, k: Key) {
    exists n :: 0 <= n < |items| && KeyOf(items[n]) == k
  }

  ghost predicate InSome(collections: seq<Collection>, d: MessageDoc) {
    exists i :: 0 <= i < |collections| && d in collections[i]
  }

  // A walk from a cursor on: newest first, past the cursor, in the conversation, and, once finished, complete for
  // every message that each of the collections has.
  ghost predicate WalkOk(collections: seq<Collection>, id: string, after: Option<Key>, w: Walk) {
    && Sorted(false, w.items)
    && (forall d :: d in w.items ==> d.conversationId == id && After(false, after, d) && InSome(collections, d))
    && (w.finished ==> forall k :: HasAlways(collections, id, after, k) ==> Listed(w.items, k))
  }

  lemma {:induction false} WalkFromCursor(lib: Lib, dir: Directory, userId: string, conversationId: string, id: string,
                                          limit: int, collections: seq<Collection>, cursor: Option<string>,
                                          after: Option<Key>)
    requires LibFaithful(lib) && MayRead(dir, userId, conversationId, id)
    requires forall i :: 0 <= i < |collections| ==> GoodCollection(collections[i])
    requires CursorIs(lib, cursor, after)
    ensures WalkOk(collections, id, after, FollowCursor(lib, dir, userId, conversationId, limit, collections, cursor))
    decreases |collections|
  {
    if collections != [] {
      OnePage(lib, dir, collections[0], userId, conversationId, id, cursor, after, limit);
      var p := ListMessages(lib, dir, collections[0], userId, conversationId, cursor, limit).value;
      FirstPageOk(collections, id, after, p);
      if p.hasMore {
        WalkFromCursor(lib, dir, userId, conversationId, id, limit, collections[1..], p.nextCursor, Some(Last(p.items)));
        var rest := FollowCursor(lib, dir, userId, conversationId, limit, collections[1..], p.nextCursor);
        JoinWalk(collections, id, after, p, rest);
      }
    }
  }

  lemma FirstPageOk(collections: seq<Collection>, id: string, after: Option<Key>, p: ListPage)
    requires collections != [] && PageOk(collections[0], id, after, p)
    ensures !p.hasMore ==> WalkOk(collections, id, after, Walk(p.items, true))
  {
    forall d | d in p.items ensures InSome(collections, d) { assert d in collections[0]; }
    if !p.hasMore {
      forall k | HasAlways(collections, id, after, k) ensures Listed(p.items, k) {
        assert Has(collections[0], id, after, k);
      }
    }
  }

  lemma JoinMembers(collections: seq<Collection>, id: string, after: Option<Key>, p: ListPage, rest: Walk, d: MessageDoc)
    requires collections != [] && PageOk(collections[0], id, after, p) && p.hasMore
    requires WalkOk(collections[1..], id, Some(Last(p.items)), rest)
    requires d in p.items || d in rest.items
    ensures d.conversationId == id && After(false, after, d) && InSome(collections, d)
  {
    assert p.items[|p.items| - 1] in p.items;
    if d in p.items {
      assert d in collections[0];
    } else {
      var i :| 0 <= i < |collections[1..]| && d in collections[1..][i];
      assert d in collections[i + 1];
      if after.Some? { BeforeTransitive(false, after.value, Last(p.items), KeyOf(d)); }
    }
  }

  lemma JoinComplete(collections: seq<Collection>, id: string, after: Option<Key>, p: ListPage, rest: Walk, k: Key)
    requires collections != [] && PageOk(collections[0], id, after, p) && p.hasMore
    requires WalkOk(collections[1..], id, Some(Last(p.items)), rest) && rest.finished
    requires HasAlways(collections, id, after, k)
    ensures Listed(p.items + rest.items, k)
  {
    var items := p.items + rest.items;
    assert Has(collections[0], id, after, k);
    if d :| d in p.items && KeyOf(d) == k {
      var n :| 0 <= n < |p.items| && p.items[n] == d;
      assert KeyOf(items[n]) == k;
    } else {
      forall i | 0 <= i < |collections[1..]| ensures Has(collections[1..][i], id, Some(Last(p.items)), k) {
        assert Has(collections[i + 1], id, after, k);
      }
      assert HasAlways(collections[1..], id, Some(Last(p.items)), k);
      var n :| 0 <= n < |rest.items| && KeyOf(rest.items[n]) == k;
      assert KeyOf(items[|p.items| + n]) == k;
    }
  }

  lemma JoinWalk(collections: seq<Collection>, id: string, after: Option<Key>, p: ListPage, rest: Walk)
    requires collections != [] && PageOk(collections[0], id, after, p) && p.hasMore
    requires WalkOk(collections[1..], id, Some(Last(p.items)), rest)
    ensures WalkOk(collections, id, after, Walk(p.items + rest.items, rest.finished))
  {
    SortedConcat(false, p.items, rest.items);
    forall d | d in p.items + rest.items
      ensures d.conversationId == id && After(false, after, d) && InSome(collections, d)
    {
      JoinMembers(collections, id, after, p, rest, d);
    }
    if rest.finished {
      forall k | HasAlways(collections, id, after, k) ensures Listed(p.items + rest.items, k) {
        JoinComplete(collections, id, after, p, rest, k);
      }
    }
  }

  // Later, or of the same time with the greater id.
  predicate IsNewer(d: MessageDoc, e: MessageDoc) {
    d.createdAt > e.createdAt || (d.createdAt == e.createdAt && Less(e.id, d.id))
  }

  // A walk over a changing conversation: strictly newest first, so nothing twice, nothing foreign, and every message
  // that was there at each page is listed. Inserts, edits and removals between the pages are all allowed.
  lemma WalkIsGapFree(lib: Lib, dir: Directory, userId: string, conversationId: string, id: string, limit: int,
                      collections: seq<Collection>)
    requires LibFaithful(lib) && MayRead(dir, userId, conversationId, id)
    requires forall i :: 0 <= i < |collections| ==> GoodCollection(collections[i])
    ensures var w := FollowCursor(lib, dir, userId, conversationId, limit, collections, None);
            && (forall i, k :: 0 <= i < k < |w.items| ==>
                  KeyLess(KeyOf(w.items[k]), KeyOf(w.items[i])) && KeyOf(w.items[i]) != KeyOf(w.items[k]))
            && (forall i, k :: 0 <= i < k < |w.items| ==> IsNewer(w.items[i], w.items[k]))
            && (forall d :: d in w.items ==> d.conversationId == id && InSome(collections, d))
            && (w.finished ==> forall k :: HasAlways(collections, id, None, k) ==> Listed(w.items, k))
  {
    WalkFromCursor(lib, dir, userId, conversationId, id, limit, collections, None, None);
    var w := FollowCursor(lib, dir, userId, conversationId, limit, collections, None);
    forall i, k | 0 <= i < k < |w.items|
      ensures KeyLess(KeyOf(w.items[k]), KeyOf(w.items[i])) && KeyOf(w.items[i]) != KeyOf(w.items[k])
    {
      assert Before(false, KeyOf(w.items[i]), KeyOf(w.items[k]));
      BeforeIsTotalOrder(false, KeyOf(w.items[i]), KeyOf(w.items[k]));
    }
  }

  // ----- A conversation that does not change -----

  function Conversation(docs: Collection, id: string, after: Option<Key>): seq<MessageDoc> {
    Selected(false, docs, (d: MessageDoc) => d.conversationId == id, after)
  }

  // One read of a fixed conversation: the front of what is left, the rest still to come past its last item.
  lemma FixedPage(lib: Lib, dir: Directory, docs: Collection, userId: string, conversationId: string, id: string,
                  cursor: Option<string>, after: Option<Key>, limit: int)
    requires LibFaithful(lib) && GoodCollection(docs) && MayRead(dir, userId, conversationId, id)
    requires CursorIs(lib, cursor, after)
    ensures var found := Conversation(docs, id, after);
            var r := ListMessages(lib, dir, docs, userId, conversationId, cursor, limit);
            && r.Ok?
            && (r.value.hasMore <==> |found| > Clamp(limit))
            && (!r.value.hasMore ==> r.value.items == found)
            && (r.value.hasMore ==>
                  && r.value.items != [] && r.value.items == found[..Clamp(limit)]
                  && CursorIs(lib, r.value.nextCursor, Some(Last(r.value.items)))
                  && Conversation(docs, id, Some(Last(r.value.items))) == found[Clamp(limit)..])
  {
    hide PageOk, Trim;
    var keep := (d: MessageDoc) => d.conversationId == id;
    var found := Conversation(docs, id, after);
    OnePage(lib, dir, docs, userId, conversationId, id, cursor, after, limit);
    assert ListMessages(lib, dir, docs, userId, conversationId, cursor, limit).value.items
        == FetchPage(false, docs, keep, after, limit).items;
    if |found| > Clamp(limit) {
      assert Take(found, Clamp(limit) + 1)[..Clamp(limit)] == found[..Clamp(limit)];
      NextSelection(false, docs, keep, after, Clamp(limit));
    }
  }

  function Unchanged(docs: Collection, pages: nat): seq<Collection> {
    seq(pages, i => docs)
  }

  lemma WalkStep(lib: Lib, dir: Directory, userId: string, conversationId: string, limit: int, docs: Collection,
                 pages: nat, cursor: Option<string>)
    requires pages > 0
    ensures var r := ListMessages(lib, dir, docs, userId, conversationId, cursor, limit);
            r.Ok? ==>
              FollowCursor(lib, dir, userId, conversationId, limit, Unchanged(docs, pages), cursor) ==
              if !r.value.hasMore then Walk(r.value.items, true)
              else
                var rest := FollowCursor(lib, dir, userId, conversationId, limit, Unchanged(docs, pages - 1),
                                         r.value.nextCursor);
                Walk(r.value.items + rest.items, rest.finished)
  {
    assert Unchanged(docs, pages)[1..] == Unchanged(docs, pages - 1);
  }

  ghost predicate WalksTo(lib: Lib, dir: Directory, userId: string, conversationId: string, limit: int,
                          docs: Collection, pages: nat, cursor: Option<string>, w: Walk)
  {
    FollowCursor(lib, dir, userId, conversationId, limit, Unchanged(docs, pages), cursor) == w
  }

  lemma Split<T>(s: seq<T>, n: nat)
    ensures n <= |s| ==> s == s[..n] + s[n..]
  {
  }

  // One read of a fixed conversation and the walk that goes on from there.
  lemma FixedStep(lib: Lib, dir: Directory, userId: string, conversationId: string, id: string, limit: int,
                  docs: Collection, pages: nat, cursor: Option<string>, after: Option<Key>)
    returns (next: Option<string>)
    requires LibFaithful(lib) && MayRead(dir, userId, conversationId, id) && GoodCollection(docs)
    requires CursorIs(lib, cursor, after) && pages > 0
    ensures var found := Conversation(docs, id, after);
            var cap := Clamp(limit);
            if |found| <= cap then WalksTo(lib, dir, userId, conversationId, limit, docs, pages, cursor, Walk(found, true))
            else
              && CursorIs(lib, next, Some(Last(found[..cap])))
              && Conversation(docs, id, Some(Last(found[..cap]))) == found[cap..]
              && (WalksTo(lib, dir, userId, conversationId, limit, docs, pages - 1, next, Walk(found[cap..], true)) ==>
                  WalksTo(lib, dir, userId, conversationId, limit, docs, pages, cursor, Walk(found, true)))
  {
    FixedPage(lib, dir, docs, userId, conversationId, id, cursor, after, limit);
    WalkStep(lib, dir, userId, conversationId, limit, docs, pages, cursor);
    next := ListMessages(lib, dir, docs, userId, conversationId, cursor, limit).value.nextCursor;
    Split(Conversation(docs, id, after), Clamp(limit));
  }

  // Paging through a fixed conversation, with any page size, gives the whole sorted conversation: the paged form
  // refines the one big query. As many reads as there are messages, plus one, always suffice.
  lemma {:induction false} FixedWalkIsFullListing(lib: Lib, dir: Directory, userId: string, conversationId: string,
                                                  id: string, limit: int, docs: Collection, pages: nat,
                                                  cursor: Option<string>, after: Option<Key>)
    requires LibFaithful(lib) && MayRead(dir, userId, conversationId, id) && GoodCollection(docs)
    requires CursorIs(lib, cursor, after)
    requires pages > |Conversation(docs, id, after)|
    ensures WalksTo(lib, dir, userId, conversationId, limit, docs, pages, cursor,
                    Walk(Conversation(docs, id, after), true))
    decreases pages
  {
    hide FollowCursor, ListMessages, Selected;
    var found := Conversation(docs, id, after);
    var cap := Clamp(limit);
    var next := FixedStep(lib, dir, userId, conversationId, id, limit, docs, pages, cursor, after);
    if |found| > cap {
      FixedWalkIsFullListing(lib, dir, userId, conversationId, id, limit, docs, pages - 1, next, Some(Last(found[..cap])));
    }
  }
}
