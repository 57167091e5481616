// Find or create the direct conversation of two users, by any number of callers at once, over a collection with a
// unique index on the pair key.

module Conversations {
  import opened Text

  type UserId = string
  type ConvId = string
  type Caller = nat

  // ----- The pair key -----

  function Sorted(a: UserId, b: UserId): (UserId, UserId) {
    if Less(b, a) then (b, a) else (a, b)
  }

  function PairKey(a: UserId, b: UserId): string {
    Sorted(a, b).0 + "|" + Sorted(a, b).1
  }

  predicate SamePair(a: UserId, b: UserId, c: UserId, d: UserId) {
    (a == c && b == d) || (a == d && b == c)
  }

  lemma SortedSame(a: UserId, b: UserId)
    ensures Sorted(a, b) == Sorted(b, a)
  {
    LessTotal(a, b);
  }

  lemma BarAt(x: string, y: string)
    requires '|' !in x
    ensures var s := x + "|" + y;
            s[|x|] == '|' && forall i :: 0 <= i < |x| ==> s[i] != '|'
  {
    var s := x + "|" + y;
    forall i | 0 <= i < |x| ensures s[i] != '|' { assert s[i] == x[i] && x[i] in x; }
  }

  lemma FirstBar(x: string, y: string, x': string, y': string)
    requires x + "|" + y == x' + "|" + y' && '|' !in x && '|' !in x'
    ensures x == x' && y == y'
  {
    var s := x + "|" + y;
    BarAt(x, y);
    BarAt(x', y');
    assert |x| == |x'|;
    assert x == s[..|x|] && x' == s[..|x'|];
    assert y == s[|x| + 1..] && y' == s[|x'| + 1..];
  }

  // The key depends on the unordered pair only, and tells pairs apart as long as no id contains a bar.
  lemma PairKeyIsInjective(a: UserId, b: UserId, c: UserId, d: UserId)
    ensures SamePair(a, b, c, d) ==> PairKey(a, b) == PairKey(c, d)
    ensures '|' !in a + b + c + d && PairKey(a, b) == PairKey(c, d) ==> SamePair(a, b, c, d)
  {
    SortedSame(a, b);
    if '|' !in a + b + c + d && PairKey(a, b) == PairKey(c, d) {
      assert '|' !in a && '|' !in b && '|' !in c && '|' !in d;
      var p, q := Sorted(a, b), Sorted(c, d);
      FirstBar(p.0, p.1, q.0, q.1);
    }
  }

  // With a bar in an id, two pairs can have one key.
  lemma PairKeyCollides()
    ensures PairKey("a|b", "c") == PairKey("a", "b|c") && !SamePair("a|b", "c", "a", "b|c")
  {
    assert "a|b"[0] == 'a' && "c"[0] == 'c' && "a"[0] == 'a' && "b|c"[0] == 'b';
    assert !Less("c", "a|b") && !Less("b|c", "a");
    assert PairKey("a|b", "c") == "a|b|c" && PairKey("a", "b|c") == "a|b|c";
    assert |"a|b"| == 3 && |"a"| == 1 && |"c"| == 1 && "c"[0] != "a"[0];
  }

  // ----- The protocol -----

  datatype Row = Row(key: string, participants: (UserId, UserId), updatedAt: int)

  // Where a caller is between its requests to the collection.
  datatype Stage =
    | Finding
    | Getting(id: ConvId)
    | Inserting
    | Refinding
    | Regetting(id: ConvId)
    | Returned(id: ConvId)
    | DuplicateThrown

  datatype Call = Call(a: UserId, b: UserId, stage: Stage)

  // index is the unique index on the pair key; created records which caller's insert made a conversation.
  datatype State = State(
    rows: map<ConvId, Row>, index: map<string, ConvId>, calls: map<Caller, Call>, created: map<ConvId, Caller>)

  datatype Event =
    | Begin(c: Caller, a: UserId, b: UserId)
    // the caller's next request; newId is the id it has drawn for an insert
    | Advance(c: Caller, newId: ConvId, now: int)
    // a message in the conversation
    | Touch(id: ConvId, now: int)

  const EMPTY := State(map[], map[], map[], map[])

  predicate Enabled(st: State, e: Event) {
    match e
    case Begin(c, a, b) => c !in st.calls
    case Advance(c, newId, now) =>
      && c in st.calls && !st.calls[c].stage.Returned? && !st.calls[c].stage.DuplicateThrown?
      && newId !in st.rows
    case Touch(id, now) => id in st.rows
  }

  // findDirectConversationIdBetween.
  function Find(st: State, a: UserId, b: UserId): Option<ConvId> {
    if a == b then None
    else if PairKey(a, b) in st.index then Some(st.index[PairKey(a, b)])
    else None
  }

  function NewRow(a: UserId, b: UserId, now: int): Row {
    Row(PairKey(a, b), Sorted(a, b), now)
  }

  function SetStage(st: State, c: Caller, stage: Stage): State
    requires c in st.calls
  {
    st.(calls := st.calls[c := st.calls[c].(stage := stage)])
  }

  function AdvanceCall(st: State, c: Caller, newId: ConvId, now: int): State
    requires Enabled(st, Advance(c, newId, now))
  {
    var call := st.calls[c];
    match call.stage
    case Finding =>
      (match Find(st, call.a, call.b)
       case Some(id) => SetStage(st, c, Getting(id))
       case None => SetStage(st, c, Inserting))
    case Getting(id) => SetStage(st, c, if id in st.rows then Returned(id) else Inserting)
    case Inserting =>
      var key := PairKey(call.a, call.b);
      if key in st.index then SetStage(st, c, Refinding)
      else
        SetStage(st.(rows := st.rows[newId := NewRow(call.a, call.b, now)], index := st.index[key := newId],
                     created := st.created[newId := c]),
                 c, Returned(newId))
    case Refinding =>
      (match Find(st, call.a, call.b)
       case Some(id) => SetStage(st, c, Regetting(id))
       case None => SetStage(st, c, DuplicateThrown))
    case Regetting(id) => SetStage(st, c, if id in st.rows then Returned(id) else DuplicateThrown)
    case _ => st
  }

  function Step(st: State, e: Event): State
    requires Enabled(st, e)
  {
    match e
    case Begin(c, a, b) => st.(calls := st.calls[c := Call(a, b, Finding)])
    case Advance(c, newId, now) => AdvanceCall(st, c, newId, now)
    case Touch(id, now) => st.(rows := st.rows[id := st.rows[id].(updatedAt := now)])
  }

  function Run(st: State, es: seq<Event>): State
    decreases |es|
  {
    if es == [] then st
    else
      var before := Run(st, es[..|es| - 1]);
      if Enabled(before, es[|es| - 1]) then Step(before, es[|es| - 1]) else before
  }

  // The rows and the index agree, so no two rows have one key.
  ghost predicate Indexed(rows: map<ConvId, Row>, index: map<string, ConvId>) {
    && (forall id :: id in rows ==> rows[id].key in index && index[rows[id].key] == id)
    && (forall key :: key in index ==> index[key] in rows && rows[index[key]].key == key)
  }

  ghost predicate RowOk(row: Row) {
    exists a, b :: RowOf(row, a, b)
  }

  predicate RowOf(row: Row, a: UserId, b: UserId) {
    row.key == PairKey(a, b) && row.participants == Sorted(a, b)
  }

  ghost predicate CallOk(st: State, call: Call) {
    var key := PairKey(call.a, call.b);
    match call.stage
    case Getting(id) => key in st.index && st.index[key] == id
    case Refinding => key in st.index
    case Regetting(id) => key in st.index && st.index[key] == id
    case Returned(id) => key in st.index && st.index[key] == id
    case DuplicateThrown => call.a == call.b
    case _ => true
  }

  // The caller whose insert made a conversation has returned with it.
  ghost predicate Creators(st: State) {
    && st.created.Keys == st.rows.Keys
    && forall id :: id in st.created ==> st.created[id] in st.calls && st.calls[st.created[id]].stage == Returned(id)
  }

  predicate TakenByOther(st: State, key: string, c: Caller) {
    key in st.index && st.index[key] in st.created && st.created[st.index[key]] != c
  }

  // A caller that names one user twice never finds anything: it returns what it inserted itself, or throws.
  ghost predicate SelfOk(st: State, c: Caller)
    requires c in st.calls
  {
    var call := st.calls[c];
    call.a == call.b ==>
      match call.stage
      case Finding => true
      case Inserting => true
      case Getting(_) => false
      case Regetting(_) => false
      case Refinding => TakenByOther(st, PairKey(call.a, call.b), c)
      case DuplicateThrown => TakenByOther(st, PairKey(call.a, call.b), c)
      case Returned(id) => id in st.created && st.created[id] == c
  }

  ghost predicate Inv(st: State) {
    && Indexed(st.rows, st.index)
    && Creators(st)
    && (forall c :: c in st.calls ==> SelfOk(st, c))
    && (forall id :: id in st.rows ==> RowOk(st.rows[id]))
    && forall c :: c in st.calls ==> CallOk(st, st.calls[c])
  }

  // Neither index entries nor who made them are ever changed or removed.
  ghost predicate Extends(st: State, st': State) {
    && (forall key :: key in st.index ==> key in st'.index && st'.index[key] == st.index[key])
    && (forall id :: id in st.created ==> id in st'.created && st'.created[id] == st.created[id])
  }

  // A request changes nothing in the collection, or inserts the conversation of the caller under a key not taken.
  lemma AdvanceEffect(st: State, c: Caller, newId: ConvId, now: int)
    requires Enabled(st, Advance(c, newId, now))
    ensures var st' := AdvanceCall(st, c, newId, now);
            var key := PairKey(st.calls[c].a, st.calls[c].b);
            || (st'.rows == st.rows && st'.index == st.index && st'.created == st.created)
            || (key !in st.index && st'.rows == st.rows[newId := NewRow(st.calls[c].a, st.calls[c].b, now)]
                && st'.index == st.index[key := newId] && st'.created == st.created[newId := c])
  {
    hide PairKey, NewRow;
  }

  // It touches no other caller, and a caller that inserted returns.
  lemma AdvanceCallers(st: State, c: Caller, newId: ConvId, now: int)
    requires Enabled(st, Advance(c, newId, now))
    ensures var st' := AdvanceCall(st, c, newId, now);
            && st'.calls == st.calls[c := st'.calls[c]]
            && (st'.created != st.created ==> st'.calls[c].stage == Returned(newId))
  {
    hide PairKey, NewRow, Find;
  }

  lemma StepExtends(st: State, e: Event)
    requires Enabled(st, e) && Indexed(st.rows, st.index) && Creators(st)
    ensures Extends(st, Step(st, e)) && Indexed(Step(st, e).rows, Step(st, e).index)
  {
    hide PairKey, Sorted, AdvanceCall;
    if e.Advance? { AdvanceEffect(st, e.c, e.newId, e.now); }
  }

  lemma CallKept(st: State, st': State, call: Call)
    requires CallOk(st, call) && Extends(st, st')
    ensures CallOk(st', call)
  {
  }

  lemma OtherCalls(st: State, e: Event, c: Caller)
    requires Enabled(st, e) && c in Step(st, e).calls && (e.Touch? || e.c != c)
    ensures c in st.calls && Step(st, e).calls[c] == st.calls[c]
  {
  }

  lemma AdvancedCall(st: State, c: Caller, newId: ConvId, now: int)
    requires Indexed(st.rows, st.index) && Enabled(st, Advance(c, newId, now)) && CallOk(st, st.calls[c])
    ensures c in AdvanceCall(st, c, newId, now).calls
    ensures CallOk(AdvanceCall(st, c, newId, now), AdvanceCall(st, c, newId, now).calls[c])
  {
  }

  lemma CallStaysOk(st: State, e: Event, c: Caller)
    requires Inv(st) && Enabled(st, e) && c in Step(st, e).calls
    ensures CallOk(Step(st, e), Step(st, e).calls[c])
  {
    if e.Touch? || e.c != c {
      OtherCalls(st, e, c);
      StepExtends(st, e);
      CallKept(st, Step(st, e), st.calls[c]);
    } else if e.Advance? {
      AdvancedCall(st, c, e.newId, e.now);
    }
  }

  lemma StepKeepsCreators(st: State, e: Event)
    requires Creators(st) && Enabled(st, e)
    ensures Creators(Step(st, e))
  {
    hide PairKey, Sorted, AdvanceCall;
    if e.Advance? {
      AdvanceEffect(st, e.c, e.newId, e.now);
      AdvanceCallers(st, e.c, e.newId, e.now);
    }
  }

  lemma SelfStaysOk(st: State, e: Event, c: Caller)
    requires Inv(st) && Enabled(st, e) && c in Step(st, e).calls
    ensures SelfOk(Step(st, e), c)
  {
    if e.Touch? || e.c != c {
      OtherCalls(st, e, c);
      StepExtends(st, e);
      SelfKept(st, Step(st, e), c);
    } else if e.Advance? {
      AdvancedSelf(st, c, e.newId, e.now);
    }
  }

  lemma SelfKept(st: State, st': State, c: Caller)
    requires c in st.calls && c in st'.calls && st.calls[c] == st'.calls[c] && SelfOk(st, c) && Extends(st, st')
    ensures SelfOk(st', c)
  {
  }

  lemma AdvancedSelf(st: State, c: Caller, newId: ConvId, now: int)
    requires Indexed(st.rows, st.index) && Creators(st) && Enabled(st, Advance(c, newId, now)) && SelfOk(st, c)
    ensures c in AdvanceCall(st, c, newId, now).calls && SelfOk(AdvanceCall(st, c, newId, now), c)
  {
    hide PairKey, Sorted;
  }

  lemma RowStaysOk(st: State, e: Event, id: ConvId)
    requires Inv(st) && Enabled(st, e) && id in Step(st, e).rows
    ensures RowOk(Step(st, e).rows[id])
  {
    hide PairKey, Sorted, CallOk, Creators, SelfOk, Find;
    var st' := Step(st, e);
    if id in st.rows {
      assert RowOk(st.rows[id]);
      var a, b :| RowOf(st.rows[id], a, b);
      assert RowOf(st'.rows[id], a, b);
    } else {
      assert RowOf(st'.rows[id], st.calls[e.c].a, st.calls[e.c].b);
    }
  }

  lemma StepKeepsInv(st: State, e: Event)
    requires Inv(st) && Enabled(st, e)
    ensures Inv(Step(st, e)) && Extends(st, Step(st, e))
  {
    var st' := Step(st, e);
    StepExtends(st, e);
    forall id | id in st'.rows ensures RowOk(st'.rows[id]) { RowStaysOk(st, e, id); }
    StepKeepsCreators(st, e);
    forall c | c in st'.calls ensures CallOk(st', st'.calls[c]) { CallStaysOk(st, e, c); }
    forall c | c in st'.calls ensures SelfOk(st', c) { SelfStaysOk(st, e, c); }
  }

  lemma {:induction false} RunKeepsInv(st: State, es: seq<Event>)
    requires Inv(st)
    ensures Inv(Run(st, es)) && Extends(st, Run(st, es))
  {
    if es != [] {
      RunKeepsInv(st, es[..|es| - 1]);
      var before := Run(st, es[..|es| - 1]);
      if Enabled(before, es[|es| - 1]) { StepKeepsInv(before, es[|es| - 1]); }
    }
  }

  // ----- Results -----

  // At most one conversation per unordered pair.
  lemma OnePerPair(es: seq<Event>, a: UserId, b: UserId, c: UserId, d: UserId, i: ConvId, k: ConvId)
    requires SamePair(a, b, c, d)
    ensures var st := Run(EMPTY, es);
            i in st.rows && k in st.rows && st.rows[i].key == PairKey(a, b) && st.rows[k].key == PairKey(c, d) ==> i == k
  {
    RunKeepsInv(EMPTY, es);
    PairKeyIsInjective(a, b, c, d);
  }

  // All callers on a pair get the same conversation, in whichever order they name the users, at whatever times they
  // return; it is a conversation of these two users; and as long as ids have no bar, callers on different pairs get
  // different ones.
  lemma CallersAgree(es: seq<Event>, more: seq<Event>, c: Caller, d: Caller)
    ensures var st := Run(EMPTY, es);
            var st' := Run(st, more);
            c in st.calls && d in st'.calls && st.calls[c].stage.Returned? && st'.calls[d].stage.Returned? ==>
              var x, y := st.calls[c], st'.calls[d];
              && (SamePair(x.a, x.b, y.a, y.b) ==> x.stage.id == y.stage.id)
              && ('|' !in x.a + x.b + y.a + y.b && x.stage.id == y.stage.id ==> SamePair(x.a, x.b, y.a, y.b))
  {
    hide Run, RowOk, Creators, SelfOk;
    RunKeepsInv(EMPTY, es);
    var st := Run(EMPTY, es);
    RunKeepsInv(st, more);
    var st' := Run(st, more);
    if c in st.calls && d in st'.calls {
      assert CallOk(st, st.calls[c]) && CallOk(st', st'.calls[d]);
      PairKeyIsInjective(st.calls[c].a, st.calls[c].b, st'.calls[d].a, st'.calls[d].b);
      assert Indexed(st'.rows, st'.index);
    }
  }

  // The conversation a caller gets lists its two users in order, unless ids contain a bar.
  lemma ReturnsTheirConversation(es: seq<Event>, c: Caller)
    ensures var st := Run(EMPTY, es);
            c in st.calls && st.calls[c].stage.Returned? ==>
              var call := st.calls[c];
              && call.stage.id in st.rows && st.rows[call.stage.id].key == PairKey(call.a, call.b)
              && exists a, b :: RowOf(st.rows[call.stage.id], a, b)
                   && ('|' !in a + b + call.a + call.b ==> SamePair(a, b, call.a, call.b))
  {
    hide Run, Creators, SelfOk;
    RunKeepsInv(EMPTY, es);
    var st := Run(EMPTY, es);
    if c in st.calls && st.calls[c].stage.Returned? {
      var call := st.calls[c];
      assert CallOk(st, call);
      assert RowOk(st.rows[call.stage.id]);
      var a, b :| RowOf(st.rows[call.stage.id], a, b);
      PairKeyIsInjective(a, b, call.a, call.b);
    }
  }

  // The duplicate error never reaches a caller that names two different users.
  lemma OnlySelfPairsFail(es: seq<Event>, c: Caller)
    ensures var st := Run(EMPTY, es);
            c in st.calls && st.calls[c].stage.DuplicateThrown? ==> st.calls[c].a == st.calls[c].b
  {
    hide PairKey, Sorted, Run, RowOk, Creators, SelfOk, Indexed;
    RunKeepsInv(EMPTY, es);
    var st := Run(EMPTY, es);
    if c in st.calls { assert CallOk(st, st.calls[c]); }
  }

  predicate Finished(call: Call) {
    call.stage.Returned? || call.stage.DuplicateThrown?
  }

  // Over every run, a finished caller that names one user twice has returned if it inserted the conversation under
  // their key itself, and has thrown if another caller had: that other caller has returned with the conversation.
  lemma SelfCallExactly(es: seq<Event>, c: Caller)
    ensures var st := Run(EMPTY, es);
            c in st.calls && st.calls[c].a == st.calls[c].b && Finished(st.calls[c]) ==>
              var key := PairKey(st.calls[c].a, st.calls[c].b);
              && key in st.index && st.index[key] in st.created
              && (st.calls[c].stage.Returned? <==> st.created[st.index[key]] == c)
              && st.created[st.index[key]] in st.calls
              && st.calls[st.created[st.index[key]]].stage == Returned(st.index[key])
  {
    hide PairKey, Sorted, Run, RowOk;
    RunKeepsInv(EMPTY, es);
    var st := Run(EMPTY, es);
    if c in st.calls { assert CallOk(st, st.calls[c]) && SelfOk(st, c); }
  }

  // So of all the callers that ever name one user twice, at whatever times, at most one returns.
  lemma OneSelfCallReturns(es: seq<Event>, more: seq<Event>, c: Caller, d: Caller)
    ensures var st := Run(EMPTY, es);
            var st' := Run(st, more);
            c in st.calls && d in st'.calls && st.calls[c].stage.Returned? && st'.calls[d].stage.Returned? ==>
              st.calls[c].a == st.calls[c].b == st'.calls[d].a == st'.calls[d].b ==> c == d
  {
    hide PairKey, Sorted, Run, RowOk;
    RunKeepsInv(EMPTY, es);
    var st := Run(EMPTY, es);
    RunKeepsInv(st, more);
    var st' := Run(st, more);
    if c in st.calls && d in st'.calls {
      assert CallOk(st, st.calls[c]) && SelfOk(st, c);
      assert CallOk(st', st'.calls[d]) && SelfOk(st', d);
    }
  }

  // ----- One call on its own -----

  datatype Outcome = Conversation(id: ConvId) | DuplicateKey

  function FindOrCreate(rows: map<ConvId, Row>, index: map<string, ConvId>, a: UserId, b: UserId, newId: ConvId, now: int)
    : (map<ConvId, Row>, map<string, ConvId>, Outcome)
  {
    var key := PairKey(a, b);
    if key in index then (rows, index, if a == b then DuplicateKey else Conversation(index[key]))
    else (rows[newId := NewRow(a, b, now)], index[key := newId], Conversation(newId))
  }

  function Try(st: State, e: Event): State {
    if Enabled(st, e) then Step(st, e) else st
  }

  lemma RunOfFive(st: State, first: Event, e: Event)
    ensures Run(st, [first, e, e, e, e]) == Try(Try(Try(Try(Try(st, first), e), e), e), e)
  {
    hide Enabled, Step;
    var es := [first, e, e, e, e];
    assert es[..4][..3] == es[..3] && es[..3][..2] == es[..2] && es[..2][..1] == es[..1] && es[..1][..0] == [];
    assert Run(st, es[..1]) == Try(st, first);
    assert Run(st, es[..2]) == Try(Try(st, first), e);
    assert Run(st, es[..3]) == Try(Try(Try(st, first), e), e);
    assert Run(st, es[..4]) == Try(Try(Try(Try(st, first), e), e), e);
  }

  function At(st: State, c: Caller, a: UserId, b: UserId, stage: Stage): State {
    st.(calls := st.calls[c := Call(a, b, stage)])
  }

  lemma NextStage(st: State, c: Caller, a: UserId, b: UserId, stage: Stage, next: Stage)
    ensures SetStage(At(st, c, a, b, stage), c, next) == At(st, c, a, b, next)
  {
    assert At(st, c, a, b, stage).calls[c := Call(a, b, next)] == st.calls[c := Call(a, b, next)];
  }

  // The conversation is there.
  lemma CallFinds(st: State, c: Caller, a: UserId, b: UserId, e: Event)
    requires Indexed(st.rows, st.index) && PairKey(a, b) in st.index && a != b
    requires e.Advance? && e.c == c && e.newId !in st.rows
    ensures var id := st.index[PairKey(a, b)];
            Try(Try(Try(Try(At(st, c, a, b, Finding), e), e), e), e) == At(st, c, a, b, Returned(id))
  {
    hide PairKey, SetStage;
    var id := st.index[PairKey(a, b)];
    NextStage(st, c, a, b, Finding, Getting(id));
    assert Try(At(st, c, a, b, Finding), e) == At(st, c, a, b, Getting(id));
    NextStage(st, c, a, b, Getting(id), Returned(id));
    assert Try(At(st, c, a, b, Getting(id)), e) == At(st, c, a, b, Returned(id));
    assert Try(At(st, c, a, b, Returned(id)), e) == At(st, c, a, b, Returned(id));
  }

  // It is there, but a user is not looked up with themselves.
  lemma SelfCallThrows(st: State, c: Caller, a: UserId, e: Event)
    requires PairKey(a, a) in st.index && e.Advance? && e.c == c && e.newId !in st.rows
    ensures Try(Try(Try(Try(At(st, c, a, a, Finding), e), e), e), e) == At(st, c, a, a, DuplicateThrown)
  {
    hide PairKey, SetStage;
    NextStage(st, c, a, a, Finding, Inserting);
    assert Try(At(st, c, a, a, Finding), e) == At(st, c, a, a, Inserting);
    NextStage(st, c, a, a, Inserting, Refinding);
    assert Try(At(st, c, a, a, Inserting), e) == At(st, c, a, a, Refinding);
    NextStage(st, c, a, a, Refinding, DuplicateThrown);
    assert Try(At(st, c, a, a, Refinding), e) == At(st, c, a, a, DuplicateThrown);
    assert Try(At(st, c, a, a, DuplicateThrown), e) == At(st, c, a, a, DuplicateThrown);
  }

  // It is not there.
  lemma CallInserts(st: State, c: Caller, a: UserId, b: UserId, e: Event)
    requires PairKey(a, b) !in st.index && e.Advance? && e.c == c && e.newId !in st.rows
    ensures var rows, index := st.rows[e.newId := NewRow(a, b, e.now)], st.index[PairKey(a, b) := e.newId];
            Try(Try(Try(Try(At(st, c, a, b, Finding), e), e), e), e)
            == At(st.(rows := rows, index := index, created := st.created[e.newId := c]), c, a, b, Returned(e.newId))
  {
    hide PairKey, SetStage, NewRow;
    NextStage(st, c, a, b, Finding, Inserting);
    assert Try(At(st, c, a, b, Finding), e) == At(st, c, a, b, Inserting);
    var st' := st.(rows := st.rows[e.newId := NewRow(a, b, e.now)], index := st.index[PairKey(a, b) := e.newId],
                   created := st.created[e.newId := c]);
    NextStage(st', c, a, b, Inserting, Returned(e.newId));
    var last := At(st', c, a, b, Returned(e.newId));
    assert Try(At(st, c, a, b, Inserting), e) == last;
    assert Try(last, e) == last;
  }

  // A call that nothing interrupts, with the four requests it can need, gives the outcome of the single step. A
  // conversation with oneself is created by the first such call, and every later one throws.
  lemma UninterruptedCall(st: State, c: Caller, a: UserId, b: UserId, newId: ConvId, now: int)
    requires Inv(st) && c !in st.calls && newId !in st.rows
    ensures var e := Advance(c, newId, now);
            var st' := Run(st, [Begin(c, a, b), e, e, e, e]);
            var r := FindOrCreate(st.rows, st.index, a, b, newId, now);
            && st'.rows == r.0 && st'.index == r.1 && c in st'.calls
            && st'.calls[c] ==
               Call(a, b, match r.2 case Conversation(id) => Returned(id) case DuplicateKey => DuplicateThrown)
  {
    hide PairKey, Creators, SelfOk, CallOk, RowOk, Run, Enabled, Step, Try;
    var e := Advance(c, newId, now);
    RunOfFive(st, Begin(c, a, b), e);
    CallBegins(st, c, a, b);
    if PairKey(a, b) !in st.index { CallInserts(st, c, a, b, e); }
    else if a == b { SelfCallThrows(st, c, a, e); }
    else { CallFinds(st, c, a, b, e); }
  }

  lemma CallBegins(st: State, c: Caller, a: UserId, b: UserId)
    requires c !in st.calls
    ensures Try(st, Begin(c, a, b)) == At(st, c, a, b, Finding)
  {
  }

  class ConversationRepo {
    var rows: map<ConvId, Row>
    var index: map<string, ConvId>

    ghost predicate Valid()
      reads this
    {
      Indexed(rows, index)
    }

    constructor ()
      ensures Valid() && rows == map[] && index == map[]
    {
      rows, index := map[], map[];
    }

    method FindDirectConversationIdBetween(a: UserId, b: UserId) returns (id: Option<ConvId>)
      requires Valid()
      ensures id.Some? <==> a != b && PairKey(a, b) in index
      ensures id.Some? ==> id.value in rows && id.value == index[PairKey(a, b)]
    {
      if a == b { return None; }
      var key := PairKey(a, b);
      id := if key in index then Some(index[key]) else None;
    }

    // insertOne; false is error 11000.
    method InsertOne(id: ConvId, row: Row) returns (ok: bool)
      requires Valid() && id !in rows
      modifies this
      ensures Valid() && ok == (row.key !in old(index))
      ensures rows == if ok then old(rows)[id := row] else old(rows)
      ensures index == if ok then old(index)[row.key := id] else old(index)
    {
      ok := row.key !in index;
      if ok { rows, index := rows[id := row], index[row.key := id]; }
    }

    // rival: the conversation that another caller on the same users inserts after the first look-up, if any.
    method FindOrCreateDirectConversation(a: UserId, b: UserId, newId: ConvId, now: int, rival: Option<ConvId>)
      returns (r: Outcome)
      requires Valid() && newId !in rows && (rival.Some? ==> rival.value !in rows && rival.value != newId)
      modifies this
      ensures Valid()
      ensures var first := if rival.Some? then FindOrCreate(old(rows), old(index), a, b, rival.value, now).0 else old(rows);
              var key := PairKey(a, b);
              var taken := key in old(index) || rival.Some?;
              && r == (if !taken then Conversation(newId)
                       else if a == b then DuplicateKey
                       else if key in old(index) then Conversation(old(index)[key])
                       else Conversation(rival.value))
              && rows == (if taken then first else old(rows)[newId := NewRow(a, b, now)])
              && (r.Conversation? ==> r.id in rows && rows[r.id].key == key && index[key] == r.id)
    {
      var existing := FindDirectConversationIdBetween(a, b);
      if existing.Some? && existing.value in rows { return Conversation(existing.value); }
      if rival.Some? { var _ := InsertOne(rival.value, NewRow(a, b, now)); }
      var ok := InsertOne(newId, NewRow(a, b, now));
      if !ok {
        var retry := FindDirectConversationIdBetween(a, b);
        if retry.Some? && retry.value in rows { return Conversation(retry.value); }
        return DuplicateKey;
      }
      r := Conversation(newId);
    }
  }
}
