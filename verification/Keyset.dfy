// Keyset pagination over a collection of messages: filter, sort by (createdAt, id), take one more than the page.

module Keyset {
  import opened Text
  import opened Messages

  datatype Key = Key(createdAt: int, id: string)

  function KeyOf(d: MessageDoc): Key { Key(d.createdAt, d.id) }

  predicate KeyLess(a: Key, b: Key) {
    a.createdAt < b.createdAt || (a.createdAt == b.createdAt && Less(a.id, b.id))
  }

  // Listing order: oldest first when asc, else newest first.
  predicate Before(asc: bool, a: Key, b: Key) {
    if asc then KeyLess(a, b) else KeyLess(b, a)
  }

  lemma BeforeIsTotalOrder(asc: bool, a: Key, b: Key)
    ensures Before(asc, a, b) || Before(asc, b, a) || a == b
    ensures !(Before(asc, a, b) && Before(asc, b, a)) && !Before(asc, a, a)
  {
    LessTotal(a.id, b.id);
  }

  lemma BeforeTransitive(asc: bool, a: Key, b: Key, c: Key)
    requires Before(asc, a, b) && Before(asc, b, c)
    ensures Before(asc, a, c)
  {
    if a.createdAt == b.createdAt == c.createdAt {
      if asc { LessTransitive(a.id, b.id, c.id); } else { LessTransitive(c.id, b.id, a.id); }
    }
  }

  // A collection of documents in no particular order.
  type Collection = seq<MessageDoc>

  ghost predicate DistinctKeys(docs: Collection) {
    forall i, k :: 0 <= i < k < |docs| ==> KeyOf(docs[i]) != KeyOf(docs[k])
  }

  ghost predicate Sorted(asc: bool, docs: seq<MessageDoc>) {
    forall i, k :: 0 <= i < k < |docs| ==> Before(asc, KeyOf(docs[i]), KeyOf(docs[k]))
  }

  // The unique index on id.
  ghost predicate UniqueIds(docs: Collection) {
    forall i, k :: 0 <= i < k < |docs| ==> docs[i].id != docs[k].id
  }

  function Matching(docs: Collection, keep: MessageDoc -> bool): seq<MessageDoc> {
    if docs == [] then []
    else (if keep(docs[0]) then [docs[0]] else []) + Matching(docs[1..], keep)
  }

  function Insert(asc: bool, d: MessageDoc, docs: seq<MessageDoc>): seq<MessageDoc> {
    if docs == [] || Before(asc, KeyOf(d), KeyOf(docs[0])) then [d] + docs
    else [docs[0]] + Insert(asc, d, docs[1..])
  }

  function Sort(asc: bool, docs: seq<MessageDoc>): seq<MessageDoc> {
    if docs == [] then [] else Insert(asc, docs[0], Sort(asc, docs[1..]))
  }

  const MAX_LIST_LIMIT: nat := 100

  function Clamp(limit: int): nat {
    if limit < 1 then 1 else if limit > MAX_LIST_LIMIT then MAX_LIST_LIMIT else limit
  }

  function Take(docs: seq<MessageDoc>, n: nat): seq<MessageDoc> {
    if |docs| <= n then docs else docs[..n]
  }

  predicate After(asc: bool, after: Option<Key>, d: MessageDoc) {
    after.Some? ==> Before(asc, after.value, KeyOf(d))
  }

  // find(filter).sort(key): everything that matches, past the cursor.
  function Selected(asc: bool, docs: Collection, keep: MessageDoc -> bool, after: Option<Key>): seq<MessageDoc> {
    Sort(asc, Matching(docs, d => keep(d) && After(asc, after, d)))
  }

  datatype Page = Page(items: seq<MessageDoc>, hasMore: bool)

  function FetchPage(asc: bool, docs: Collection, keep: MessageDoc -> bool, after: Option<Key>, limit: int): Page {
    var cap := Clamp(limit);
    var found := Take(Selected(asc, docs, keep, after), cap + 1);
    if |found| > cap then Page(found[..cap], true) else Page(found, false)
  }

  // ----- Sorting -----

  lemma {:induction false} MatchingMembers(docs: Collection, keep: MessageDoc -> bool)
    ensures forall d :: d in Matching(docs, keep) <==> d in docs && keep(d)
  {
    if docs != [] {
      MatchingMembers(docs[1..], keep);
      assert docs == [docs[0]] + docs[1..];
    }
  }

  lemma {:induction false} MatchingDistinct(docs: Collection, keep: MessageDoc -> bool)
    requires DistinctKeys(docs)
    ensures DistinctKeys(Matching(docs, keep))
  {
    if docs != [] {
      MatchingDistinct(docs[1..], keep);
      MatchingMembers(docs[1..], keep);
      var rest := Matching(docs[1..], keep);
      forall k | 0 <= k < |rest| ensures KeyOf(rest[k]) != KeyOf(docs[0]) {
        assert rest[k] in docs[1..];
      }
    }
  }

  lemma {:induction false} InsertMembers(asc: bool, d: MessageDoc, docs: seq<MessageDoc>)
    ensures forall x :: x in Insert(asc, d, docs) <==> x == d || x in docs
    ensures |Insert(asc, d, docs)| == |docs| + 1
  {
    if !(docs == [] || Before(asc, KeyOf(d), KeyOf(docs[0]))) {
      InsertMembers(asc, d, docs[1..]);
      assert docs == [docs[0]] + docs[1..];
    }
  }

  lemma {:induction false} InsertSorts(asc: bool, d: MessageDoc, docs: seq<MessageDoc>)
    requires Sorted(asc, docs) && forall x :: x in docs ==> KeyOf(x) != KeyOf(d)
    ensures Sorted(asc, Insert(asc, d, docs))
  {
    if docs == [] {
    } else if Before(asc, KeyOf(d), KeyOf(docs[0])) {
      forall k | 0 < k < |docs| ensures Before(asc, KeyOf(d), KeyOf(docs[k])) {
        BeforeTransitive(asc, KeyOf(d), KeyOf(docs[0]), KeyOf(docs[k]));
      }
    } else {
      InsertSorts(asc, d, docs[1..]);
      InsertMembers(asc, d, docs[1..]);
      BeforeIsTotalOrder(asc, KeyOf(d), KeyOf(docs[0]));
      assert docs[0] in docs;
      var rest := Insert(asc, d, docs[1..]);
      forall k | 0 <= k < |rest| ensures Before(asc, KeyOf(docs[0]), KeyOf(rest[k])) {
        if rest[k] != d { assert rest[k] in docs[1..]; }
      }
    }
  }

  lemma {:induction false} SortFacts(asc: bool, docs: seq<MessageDoc>)
    requires DistinctKeys(docs)
    ensures Sorted(asc, Sort(asc, docs)) && |Sort(asc, docs)| == |docs|
    ensures forall d :: d in Sort(asc, docs) <==> d in docs
  {
    if docs != [] {
      SortFacts(asc, docs[1..]);
      InsertMembers(asc, docs[0], Sort(asc, docs[1..]));
      InsertSorts(asc, docs[0], Sort(asc, docs[1..]));
      assert docs == [docs[0]] + docs[1..];
    }
  }

  lemma UniqueIdsDistinctKeys(docs: Collection)
    requires UniqueIds(docs)
    ensures DistinctKeys(docs)
  {
  }

  lemma SelectedFacts(asc: bool, docs: Collection, keep: MessageDoc -> bool, after: Option<Key>)
    requires UniqueIds(docs)
    ensures var found := Selected(asc, docs, keep, after);
            && Sorted(asc, found)
            && forall d :: d in found <==> d in docs && keep(d) && After(asc, after, d)
  {
    var p := (d: MessageDoc) => keep(d) && After(asc, after, d);
    UniqueIdsDistinctKeys(docs);
    MatchingMembers(docs, p);
    MatchingDistinct(docs, p);
    SortFacts(asc, Matching(docs, p));
  }

  // ----- Pages -----

  function Last(items: seq<MessageDoc>): Key
    requires items != []
  {
    KeyOf(items[|items| - 1])
  }

  // What a query is meant to return.
  predicate Matches(asc: bool, docs: Collection, keep: MessageDoc -> bool, after: Option<Key>, d: MessageDoc) {
    d in docs && keep(d) && After(asc, after, d)
  }

  lemma PrefixOfSorted(asc: bool, found: seq<MessageDoc>, cap: nat)
    requires Sorted(asc, found) && 0 < cap < |found|
    ensures forall d :: d in found ==> d in found[..cap] || Before(asc, Last(found[..cap]), KeyOf(d))
    ensures found[cap] in found && Before(asc, Last(found[..cap]), KeyOf(found[cap]))
    ensures forall d :: d in found[..cap] ==> d in found
    ensures Sorted(asc, found[..cap])
  {
    forall d | d in found && d !in found[..cap] ensures Before(asc, Last(found[..cap]), KeyOf(d)) {
      assert found == found[..cap] + found[cap..];
      var k :| 0 <= k < |found| && found[k] == d;
    }
  }

  // The page size is the limit, brought into 1..100.
  lemma ClampExactly(limit: int)
    ensures 1 <= Clamp(limit) <= 100
    ensures 1 <= limit <= 100 ==> Clamp(limit) == limit
    ensures limit < 1 ==> Clamp(limit) == 1
    ensures limit > 100 ==> Clamp(limit) == 100
  {
  }

  // A page is sorted, within bounds and past the cursor, and it skips nothing: what matches and is not on the page
  // comes after its last item, and then - and only then - the page says that there is more.
  lemma PageFacts(asc: bool, docs: Collection, keep: MessageDoc -> bool, after: Option<Key>, limit: int)
    requires UniqueIds(docs)
    ensures var p := FetchPage(asc, docs, keep, after, limit);
            && Sorted(asc, p.items) && |p.items| <= Clamp(limit) && (p.hasMore ==> |p.items| == Clamp(limit))
            && (forall d :: d in p.items ==> Matches(asc, docs, keep, after, d))
            && (forall d :: Matches(asc, docs, keep, after, d) ==>
                  d in p.items || (p.hasMore && Before(asc, Last(p.items), KeyOf(d))))
            && (p.hasMore ==> exists d :: Matches(asc, docs, keep, after, d) && Before(asc, Last(p.items), KeyOf(d)))
  {
    SelectedFacts(asc, docs, keep, after);
    var found := Selected(asc, docs, keep, after);
    var cap := Clamp(limit);
    assert forall d :: d in found <==> Matches(asc, docs, keep, after, d);
    if |found| > cap {
      PrefixOfSorted(asc, found, cap);
      assert Take(found, cap + 1)[..cap] == found[..cap];
      assert Matches(asc, docs, keep, after, found[cap]);
    }
  }

  // ----- Listings of a fixed collection -----

  lemma {:induction false} SortedUnique(asc: bool, a: seq<MessageDoc>, b: seq<MessageDoc>)
    requires Sorted(asc, a) && Sorted(asc, b) && forall d :: d in a <==> d in b
    ensures a == b
  {
    assert a == [] || a[0] in a;
    assert b == [] || b[0] in b;
    if a != [] {
      BeforeIsTotalOrder(asc, KeyOf(a[0]), KeyOf(b[0]));
      TailMembers(asc, a);
      TailMembers(asc, b);
      SortedUnique(asc, a[1..], b[1..]);
      assert a == [a[0]] + a[1..] && b == [b[0]] + b[1..];
    }
  }

  lemma TailMembers(asc: bool, a: seq<MessageDoc>)
    requires Sorted(asc, a) && a != []
    ensures forall d :: d in a[1..] <==> d in a && d != a[0]
    ensures forall d :: d in a && d != a[0] ==> Before(asc, KeyOf(a[0]), KeyOf(d))
  {
    BeforeIsTotalOrder(asc, KeyOf(a[0]), KeyOf(a[0]));
    assert a == [a[0]] + a[1..];
    forall d | d in a[1..] ensures d in a && d != a[0] && Before(asc, KeyOf(a[0]), KeyOf(d)) {
      var k :| 0 <= k < |a[1..]| && a[1..][k] == d;
      assert a[k + 1] == d;
    }
  }

  lemma SuffixMembers(asc: bool, found: seq<MessageDoc>, cap: nat)
    requires Sorted(asc, found) && 0 < cap < |found|
    ensures forall d :: d in found[cap..] <==> d in found && Before(asc, Last(found[..cap]), KeyOf(d))
  {
    var last := found[cap - 1];
    forall d | d in found[cap..] ensures d in found && Before(asc, KeyOf(last), KeyOf(d)) {
      var k :| 0 <= k < |found[cap..]| && found[cap..][k] == d;
      assert found[cap + k] == d;
    }
    forall d | d in found && Before(asc, KeyOf(last), KeyOf(d)) ensures d in found[cap..] {
      var k :| 0 <= k < |found| && found[k] == d;
      BeforeIsTotalOrder(asc, KeyOf(last), KeyOf(d));
      assert k >= cap;
      assert found[cap..][k - cap] == d;
    }
  }

  // Moving the cursor to the last item of a full page drops exactly that page from the front of the listing.
  lemma NextSelection(asc: bool, docs: Collection, keep: MessageDoc -> bool, after: Option<Key>, cap: nat)
    requires UniqueIds(docs) && 0 < cap < |Selected(asc, docs, keep, after)|
    ensures var found := Selected(asc, docs, keep, after);
            Selected(asc, docs, keep, Some(Last(found[..cap]))) == found[cap..]
  {
    var found := Selected(asc, docs, keep, after);
    var last := Last(found[..cap]);
    var next := Selected(asc, docs, keep, Some(last));
    SelectedFacts(asc, docs, keep, after);
    SelectedFacts(asc, docs, keep, Some(last));
    SuffixMembers(asc, found, cap);
    assert found[cap - 1] in found;
    forall d ensures d in next <==> d in found[cap..] {
      if d in next && after.Some? { BeforeTransitive(asc, after.value, last, KeyOf(d)); }
    }
    SortedUnique(asc, next, found[cap..]);
  }
}
