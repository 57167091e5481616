// The runtime configuration: a database document merged with the environment, cached for 300 seconds in a store
// that all replicas share.

module RuntimeConfig {
  import opened Text
  import opened Json

  const RUNTIME_CONFIG_REDIS_TTL_SECONDS: int := 300

  datatype Config = Config(emailVerificationRequired: bool, guestSessionsEnabled: bool, guestDataTtlEnabled: bool)

  // The singleton document; a field that is missing or no boolean is None.
  datatype Doc = NoDoc | Doc(email: Option<bool>, guests: Option<bool>, ttl: Option<bool>)

  function Or(field: Option<bool>, default: bool): bool {
    match field case Some(b) => b case None => default
  }

  function Merge(env: Config, doc: Doc): Config {
    match doc
    case NoDoc => env
    case Doc(email, guests, ttl) =>
      Config(Or(email, env.emailVerificationRequired), Or(guests, env.guestSessionsEnabled),
             Or(ttl, env.guestDataTtlEnabled))
  }

  // Field by field, a document that has a boolean decides, and the environment otherwise.
  lemma DocumentDecides(env: Config, doc: Doc)
    ensures var c := Merge(env, doc);
            && c.emailVerificationRequired ==
               (if doc.Doc? && doc.email.Some? then doc.email.value else env.emailVerificationRequired)
            && c.guestSessionsEnabled ==
               (if doc.Doc? && doc.guests.Some? then doc.guests.value else env.guestSessionsEnabled)
            && c.guestDataTtlEnabled == (if doc.Doc? && doc.ttl.Some? then doc.ttl.value else env.guestDataTtlEnabled)
  {
  }

  function ToJson(c: Config): Json {
    JObj(map["emailVerificationRequired" := JBool(c.emailVerificationRequired),
             "guestSessionsEnabled" := JBool(c.guestSessionsEnabled),
             "guestDataTtlEnabled" := JBool(c.guestDataTtlEnabled)])
  }

  function BoolField(o: Json, name: string): Option<bool> {
    if o.JObj? && name in o.fields && o.fields[name].JBool? then Some(o.fields[name].b) else None
  }

  function ParseCached(codec: Codec, raw: string): Option<Config> {
    match codec.parse(raw)
    case None => None
    case Some(o) =>
      var email, guests := BoolField(o, "emailVerificationRequired"), BoolField(o, "guestSessionsEnabled");
      var ttl := BoolField(o, "guestDataTtlEnabled");
      if email.None? || guests.None? || ttl.None? then None else Some(Config(email.value, guests.value, ttl.value))
  }

  lemma CachedRoundTrip(codec: Codec, c: Config)
    requires Faithful(codec)
    ensures ParseCached(codec, codec.stringify(ToJson(c))) == Some(c)
  {
    var o := ToJson(c);
    assert codec.parse(codec.stringify(o)) == Some(o);
    assert |"emailVerificationRequired"| == 25 && |"guestSessionsEnabled"| == 20 && |"guestDataTtlEnabled"| == 19;
    assert BoolField(o, "emailVerificationRequired") == Some(c.emailVerificationRequired);
    assert BoolField(o, "guestSessionsEnabled") == Some(c.guestSessionsEnabled);
    assert BoolField(o, "guestDataTtlEnabled") == Some(c.guestDataTtlEnabled);
  }

  // Cached text counts only if it is an object with all three booleans, and then as what they say.
  lemma CachedTextCounts(codec: Codec, raw: string, c: Config)
    ensures ParseCached(codec, raw) == Some(c) <==>
            && codec.parse(raw).Some?
            && var o := codec.parse(raw).value;
               && BoolField(o, "emailVerificationRequired") == Some(c.emailVerificationRequired)
               && BoolField(o, "guestSessionsEnabled") == Some(c.guestSessionsEnabled)
               && BoolField(o, "guestDataTtlEnabled") == Some(c.guestDataTtlEnabled)
  {
  }

  // ----- The protocol -----

  // The document from some time on.
  datatype Edit = Edit(doc: Doc, at: int)

  datatype Entry = Entry(text: string, expireAt: int)

  // A request: the cache is not asked yet, it gave nothing, the database was read, the answer is given.
  datatype Stage =
    | Started
    | Missed
    | Loaded(config: Config, readAt: int)
    | Answered(config: Config, at: int)

  datatype Settings = Settings(codec: Codec, env: Config, maxDelay: nat)

  // edits: all versions of the document, the current one last.
  datatype State = State(now: int, edits: seq<Edit>, cache: Option<Entry>, requests: map<nat, Stage>)

  datatype Event =
    | Tick(to: int)
    | EditDoc(doc: Doc)
    | Evict
    | Start(id: nat)
    // ok: the store answers; without it the request goes on to the database
    | Get(id: nat, ok: bool)
    | Load(id: nat)
    // ok: the answer is cached as well
    | Store(id: nat, ok: bool)

  function Init(doc: Doc): State { State(0, [Edit(doc, 0)], None, map[]) }

  // maxDelay bounds the time between a request's database read and its attempt to cache what it read.
  predicate Enabled(s: Settings, st: State, e: Event) {
    match e
    case Tick(to) => to >= st.now
    case EditDoc(_) => true
    case Evict => true
    case Start(id) => id !in st.requests
    case Get(id, _) => id in st.requests && st.requests[id].Started?
    case Load(id) => id in st.requests && st.requests[id].Missed? && st.edits != []
    case Store(id, _) =>
      id in st.requests && st.requests[id].Loaded? && st.now <= st.requests[id].readAt + s.maxDelay
  }

  // What the cache gives at the moment.
  function Cached(s: Settings, st: State): Option<Config> {
    if st.cache.Some? && st.now < st.cache.value.expireAt then ParseCached(s.codec, st.cache.value.text) else None
  }

  function Step(s: Settings, st: State, e: Event): State
    requires Enabled(s, st, e)
  {
    match e
    case Tick(to) => st.(now := to)
    case EditDoc(doc) => st.(edits := st.edits + [Edit(doc, st.now)])
    case Evict => st.(cache := None)
    case Start(id) => st.(requests := st.requests[id := Started])
    case Get(id, ok) =>
      var hit := if ok then Cached(s, st) else None;
      st.(requests := st.requests[id := if hit.Some? then Answered(hit.value, st.now) else Missed])
    case Load(id) =>
      st.(requests := st.requests[id := Loaded(Merge(s.env, st.edits[|st.edits| - 1].doc), st.now)])
    case Store(id, ok) =>
      var c := st.requests[id].config;
      st.(cache := if ok then Some(Entry(s.codec.stringify(ToJson(c)), st.now + RUNTIME_CONFIG_REDIS_TTL_SECONDS))
                   else st.cache,
          requests := st.requests[id := Answered(c, st.now)])
  }

  function Run(s: Settings, st: State, es: seq<Event>): State
    decreases |es|
  {
    if es == [] then st
    else
      var before := Run(s, st, es[..|es| - 1]);
      if Enabled(s, before, es[|es| - 1]) then Step(s, before, es[|es| - 1]) else before
  }

  // ----- Invariant -----

  // The i-th version of the document was the current one at a time.
  predicate Current(edits: seq<Edit>, i: nat, t: int)
    requires i < |edits|
  {
    edits[i].at <= t && (i + 1 < |edits| ==> t <= edits[i + 1].at)
  }

  ghost predicate TrueAt(s: Settings, edits: seq<Edit>, c: Config, t: int) {
    exists i :: 0 <= i < |edits| && Current(edits, i, t) && c == Merge(s.env, edits[i].doc)
  }

  // The configuration was true at some time between two times.
  ghost predicate TrueWithin(s: Settings, edits: seq<Edit>, c: Config, from: int, to: int) {
    exists t :: from <= t <= to && TrueAt(s, edits, c, t)
  }

  ghost predicate EntryOk(s: Settings, st: State, e: Entry) {
    var c := ParseCached(s.codec, e.text);
    c.Some? ==> TrueWithin(s, st.edits, c.value, e.expireAt - RUNTIME_CONFIG_REDIS_TTL_SECONDS - s.maxDelay, st.now)
  }

  ghost predicate StageOk(s: Settings, st: State, stage: Stage) {
    match stage
    case Loaded(c, readAt) => readAt <= st.now && TrueAt(s, st.edits, c, readAt)
    case Answered(c, at) =>
      at <= st.now && TrueWithin(s, st.edits, c, at - RUNTIME_CONFIG_REDIS_TTL_SECONDS - s.maxDelay, at)
    case _ => true
  }

  ghost predicate Inv(s: Settings, st: State) {
    && (forall i, k :: 0 <= i < k < |st.edits| ==> st.edits[i].at <= st.edits[k].at)
    && (forall i :: 0 <= i < |st.edits| ==> st.edits[i].at <= st.now)
    && (st.cache.Some? ==> EntryOk(s, st, st.cache.value))
    && (forall id :: id in st.requests ==> StageOk(s, st, st.requests[id]))
  }

  lemma TrueAtStays(s: Settings, edits: seq<Edit>, c: Config, t: int, e: Edit)
    requires TrueAt(s, edits, c, t) && t <= e.at
    ensures TrueAt(s, edits + [e], c, t)
  {
    var i :| 0 <= i < |edits| && Current(edits, i, t) && c == Merge(s.env, edits[i].doc);
    assert Current(edits + [e], i, t);
  }

  lemma TrueWithinStays(s: Settings, edits: seq<Edit>, c: Config, from: int, to: int, e: Edit)
    requires TrueWithin(s, edits, c, from, to) && to <= e.at
    ensures TrueWithin(s, edits + [e], c, from, to)
  {
    var t :| from <= t <= to && TrueAt(s, edits, c, t);
    TrueAtStays(s, edits, c, t, e);
  }

  lemma EditKeepsInv(s: Settings, st: State, doc: Doc)
    requires Inv(s, st)
    ensures Inv(s, Step(s, st, EditDoc(doc)))
  {
    var e := Edit(doc, st.now);
    var st' := Step(s, st, EditDoc(doc));
    if st.cache.Some? {
      var c := ParseCached(s.codec, st.cache.value.text);
      if c.Some? {
        TrueWithinStays(s, st.edits, c.value, st.cache.value.expireAt - RUNTIME_CONFIG_REDIS_TTL_SECONDS - s.maxDelay,
                        st.now, e);
      }
    }
    forall id | id in st'.requests ensures StageOk(s, st', st'.requests[id]) {
      var stage := st.requests[id];
      assert StageOk(s, st, stage);
      if stage.Loaded? { TrueAtStays(s, st.edits, stage.config, stage.readAt, e); }
      if stage.Answered? {
        TrueWithinStays(s, st.edits, stage.config, stage.at - RUNTIME_CONFIG_REDIS_TTL_SECONDS - s.maxDelay, stage.at, e);
      }
    }
  }

  lemma HitIsRecent(s: Settings, st: State)
    requires Inv(s, st) && Cached(s, st).Some?
    ensures TrueWithin(s, st.edits, Cached(s, st).value, st.now - RUNTIME_CONFIG_REDIS_TTL_SECONDS - s.maxDelay, st.now)
  {
    var e := st.cache.value;
    var t :| e.expireAt - RUNTIME_CONFIG_REDIS_TTL_SECONDS - s.maxDelay <= t <= st.now
             && TrueAt(s, st.edits, Cached(s, st).value, t);
  }

  lemma StoreKeepsInv(s: Settings, st: State, id: nat, ok: bool)
    requires Faithful(s.codec) && Inv(s, st) && Enabled(s, st, Store(id, ok))
    ensures Inv(s, Step(s, st, Store(id, ok)))
  {
    var stage := st.requests[id];
    var st' := Step(s, st, Store(id, ok));
    assert StageOk(s, st, stage);
    CachedRoundTrip(s.codec, stage.config);
    assert TrueWithin(s, st.edits, stage.config, stage.readAt, st.now);
    assert StageOk(s, st', st'.requests[id]);
    forall o | o in st'.requests && o != id ensures StageOk(s, st', st'.requests[o]) {
      assert StageOk(s, st, st.requests[o]);
    }
  }

  lemma StepKeepsInv(s: Settings, st: State, e: Event)
    requires Faithful(s.codec) && Inv(s, st) && Enabled(s, st, e)
    ensures Inv(s, Step(s, st, e))
  {
    var st' := Step(s, st, e);
    if e.EditDoc? {
      EditKeepsInv(s, st, e.doc);
    } else if e.Store? {
      StoreKeepsInv(s, st, e.id, e.ok);
    } else {
      if e.Get? && e.ok && Cached(s, st).Some? { HitIsRecent(s, st); }
      if e.Load? { assert Current(st.edits, |st.edits| - 1, st.now); }
      if e.Tick? && st.cache.Some? {
        var c := ParseCached(s.codec, st.cache.value.text);
        var from := st.cache.value.expireAt - RUNTIME_CONFIG_REDIS_TTL_SECONDS - s.maxDelay;
        if c.Some? { var t :| from <= t <= st.now && TrueAt(s, st.edits, c.value, t); }
      }
      forall o | o in st'.requests ensures StageOk(s, st', st'.requests[o]) {
        if o in st.requests { assert StageOk(s, st, st.requests[o]); }
      }
    }
  }

  lemma {:induction false} RunKeepsInv(s: Settings, doc: Doc, es: seq<Event>)
    requires Faithful(s.codec)
    ensures Inv(s, Run(s, Init(doc), es))
  {
    if es != [] {
      RunKeepsInv(s, doc, es[..|es| - 1]);
      var before := Run(s, Init(doc), es[..|es| - 1]);
      if Enabled(s, before, es[|es| - 1]) { StepKeepsInv(s, before, es[|es| - 1]); }
    }
  }

  // ----- Results -----

  // Bounded staleness: whatever edits, fills, failures and evictions come in between, an answer is the merge of a
  // document that was current within the last 300 seconds plus the longest read-to-cache delay.
  lemma AnswersAreRecent(s: Settings, doc: Doc, es: seq<Event>, id: nat)
    requires Faithful(s.codec)
    ensures var st := Run(s, Init(doc), es);
            id in st.requests && st.requests[id].Answered? ==>
              var a := st.requests[id];
              TrueWithin(s, st.edits, a.config, a.at - 300 - s.maxDelay, a.at)
  {
    RunKeepsInv(s, doc, es);
    var st := Run(s, Init(doc), es);
    if id in st.requests { assert StageOk(s, st, st.requests[id]); }
  }

  // So an edit that stays is in force for every answer given later than that after it.
  lemma EditsTakeEffect(s: Settings, doc: Doc, es: seq<Event>, id: nat)
    requires Faithful(s.codec)
    ensures var st := Run(s, Init(doc), es);
            id in st.requests && st.requests[id].Answered? && st.edits != [] ==>
              var last := st.edits[|st.edits| - 1];
              st.requests[id].at > last.at + 300 + s.maxDelay ==>
                st.requests[id].config == Merge(s.env, last.doc)
  {
    RunKeepsInv(s, doc, es);
    AnswersAreRecent(s, doc, es, id);
    var st := Run(s, Init(doc), es);
    if id in st.requests && st.requests[id].Answered? && st.edits != [] {
      var a := st.requests[id];
      var from := a.at - RUNTIME_CONFIG_REDIS_TTL_SECONDS - s.maxDelay;
      if from > st.edits[|st.edits| - 1].at { AfterLastEdit(s, st.edits, a.config, from, a.at); }
    }
  }

  // What was true only after the last edit is what that edit says.
  lemma AfterLastEdit(s: Settings, edits: seq<Edit>, c: Config, from: int, to: int)
    requires edits != [] && TrueWithin(s, edits, c, from, to) && from > edits[|edits| - 1].at
    requires forall i, k :: 0 <= i < k < |edits| ==> edits[i].at <= edits[k].at
    ensures c == Merge(s.env, edits[|edits| - 1].doc)
  {
    var t :| from <= t <= to && TrueAt(s, edits, c, t);
    var i :| 0 <= i < |edits| && Current(edits, i, t) && c == Merge(s.env, edits[i].doc);
    assert i == |edits| - 1;
  }

  // ----- One request -----

  class ConfigService {
    const codec: Codec
    const env: Config
    var now: int
    var doc: Doc
    var cache: Option<Entry>

    constructor (codec: Codec, env: Config, doc: Doc)
      ensures this.codec == codec && this.env == env && this.doc == doc && cache == None && now == 0
    {
      this.codec, this.env, this.doc, this.cache, this.now := codec, env, doc, None, 0;
    }

    method BuildEffectiveRuntimeConfigFromDb() returns (c: Config)
      ensures c == Merge(env, doc)
      ensures doc.NoDoc? ==> c == env
      ensures doc.Doc? ==>
                && c.emailVerificationRequired == (if doc.email.Some? then doc.email.value else env.emailVerificationRequired)
                && c.guestSessionsEnabled == (if doc.guests.Some? then doc.guests.value else env.guestSessionsEnabled)
                && c.guestDataTtlEnabled == (if doc.ttl.Some? then doc.ttl.value else env.guestDataTtlEnabled)
    {
      var d := if doc.NoDoc? then Doc(None, None, None) else doc;
      var email := if d.email.Some? then d.email.value else env.emailVerificationRequired;
      var guests := if d.guests.Some? then d.guests.value else env.guestSessionsEnabled;
      var ttl := if d.ttl.Some? then d.ttl.value else env.guestDataTtlEnabled;
      c := Config(email, guests, ttl);
    }

    // available, getOk and setOk: the store is there, and answers the two requests.
    method GetEffectiveRuntimeConfig(available: bool, getOk: bool, setOk: bool) returns (c: Config)
      modifies this`cache
      ensures var s := Settings(codec, env, 0);
              var begin := State(now, [Edit(doc, now)], old(cache), map[0 := Started]);
              var end := Run(s, begin, [Get(0, available && getOk), Load(0), Store(0, available && setOk)]);
              && 0 in end.requests && end.requests[0] == Answered(c, now) && cache == end.cache
    {
      ghost var s := Settings(codec, env, 0);
      ghost var begin := State(now, [Edit(doc, now)], cache, map[0 := Started]);
      OneRequest(s, begin, available && getOk, available && setOk);
      if available {
        if getOk && cache.Some? && now < cache.value.expireAt {
          var hit := ParseCached(codec, cache.value.text);
          if hit.Some? { return hit.value; }
        }
      }
      c := BuildEffectiveRuntimeConfigFromDb();
      if available && setOk {
        cache := Some(Entry(codec.stringify(ToJson(c)), now + RUNTIME_CONFIG_REDIS_TTL_SECONDS));
      }
    }
  }

  // The three steps of a request in a row.
  lemma OneRequest(s: Settings, st: State, getOk: bool, setOk: bool)
    requires 0 in st.requests && st.requests[0] == Started && |st.edits| == 1
    ensures var end := Run(s, st, [Get(0, getOk), Load(0), Store(0, setOk)]);
            var hit := if getOk then Cached(s, st) else None;
            var c := if hit.Some? then hit.value else Merge(s.env, st.edits[0].doc);
            && 0 in end.requests && end.requests[0] == Answered(c, st.now)
            && end.cache == if hit.Some? || !setOk then st.cache
                            else Some(Entry(s.codec.stringify(ToJson(c)), st.now + RUNTIME_CONFIG_REDIS_TTL_SECONDS))
  {
    var es := [Get(0, getOk), Load(0), Store(0, setOk)];
    assert es[..2][..1] == es[..1] && es[..1][..0] == [];
    var s1 := Step(s, st, es[0]);
    assert Run(s, st, es[..1]) == s1;
    var s2 := if Enabled(s, s1, es[1]) then Step(s, s1, es[1]) else s1;
    assert Run(s, st, es[..2]) == s2;
  }
}
