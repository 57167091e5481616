// The fixed-window rate limiter over a key store with expiry. INCR and EXPIRE are two requests to the store, so any
// number of other requests, and any time, may come between them; EXPIRE may also never arrive.

module RateLimit {
  import opened Text

  type Bucket = string
  type Caller = nat

  // A counter over all its lifetimes: when each began, and of the current one its count, its expiry time once EXPIRE
  // has run, and whether an EXPIRE is still on its way.
  datatype Counter = Counter(starts: seq<int>, count: nat, expireAt: Option<int>, pending: bool)

  // One call of fixedWindowIncrement: the lifetime it fell into, and the count it returned.
  datatype Hit = Hit(key: Bucket, caller: Caller, at: int, life: nat, n: nat)

  // The window in seconds and the maximum are fixed for each key.
  datatype Limits = Limits(window: nat, max: Bucket -> nat)

  // A send that asks one key after the other: how many have let it through, and whether one has not.
  datatype Send = Send(keys: seq<Bucket>, passed: nat, limited: bool)

  datatype State = State(now: int, counters: map<Bucket, Counter>, log: seq<Hit>, sends: map<Caller, Send>)

  datatype Event =
    | Tick(to: int)
    | Start(id: Caller, keys: seq<Bucket>)
    | Increment(id: Caller)
    | Expire(key: Bucket)

  const EMPTY := State(0, map[], [], map[])

  predicate Live(c: Counter, now: int) {
    c.expireAt.None? || now < c.expireAt.value
  }

  // INCR: a missing or expired key starts again at one.
  function Bump(counters: map<Bucket, Counter>, now: int, key: Bucket): Counter {
    if key in counters && Live(counters[key], now) then counters[key].(count := counters[key].count + 1)
    else Counter((if key in counters then counters[key].starts else []) + [now], 1, None, true)
  }

  predicate Enabled(st: State, e: Event) {
    match e
    case Tick(to) => to >= st.now
    case Start(id, keys) => id !in st.sends
    case Increment(id) => id in st.sends && !st.sends[id].limited && st.sends[id].passed < |st.sends[id].keys|
    case Expire(key) => key in st.counters && st.counters[key].pending
  }

  function NextHit(st: State, id: Caller): Hit
    requires Enabled(st, Increment(id))
  {
    var key := st.sends[id].keys[st.sends[id].passed];
    var c := Bump(st.counters, st.now, key);
    Hit(key, id, st.now, if c.starts == [] then 0 else |c.starts| - 1, c.count)
  }

  predicate Admitted(lim: Limits, h: Hit) { h.n <= lim.max(h.key) }

  function Step(lim: Limits, st: State, e: Event): State
    requires Enabled(st, e)
  {
    match e
    case Tick(to) => st.(now := to)
    case Start(id, keys) => st.(sends := st.sends[id := Send(keys, 0, false)])
    case Increment(id) =>
      var h := NextHit(st, id);
      var send := st.sends[id];
      st.(counters := st.counters[h.key := Bump(st.counters, st.now, h.key)],
          log := st.log + [h],
          sends := st.sends[id := if Admitted(lim, h) then send.(passed := send.passed + 1) else send.(limited := true)])
    case Expire(key) =>
      st.(counters := st.counters[key := st.counters[key].(expireAt := Some(st.now + lim.window), pending := false)])
  }

  function Run(lim: Limits, st: State, es: seq<Event>): State
    decreases |es|
  {
    if es == [] then st
    else
      var before := Run(lim, st, es[..|es| - 1]);
      if Enabled(before, es[|es| - 1]) then Step(lim, before, es[|es| - 1]) else before
  }

  // ----- Invariant -----

  // Lifetimes are at least a window apart, and the current one lasts at least a window from its start.
  ghost predicate CounterOk(lim: Limits, now: int, c: Counter) {
    && c.starts != [] && c.starts[|c.starts| - 1] <= now
    && (forall i, k :: 0 <= i < k < |c.starts| ==> c.starts[i] + lim.window <= c.starts[k])
    && (c.pending <==> c.expireAt.None?)
    && (c.expireAt.Some? ==> c.starts[|c.starts| - 1] + lim.window <= c.expireAt.value)
  }

  // A call lies within its lifetime, and its number within the count.
  ghost predicate HitIn(c: Counter, now: int, h: Hit) {
    && h.life < |c.starts| && c.starts[h.life] <= h.at <= now && h.n >= 1
    && (h.life + 1 < |c.starts| ==> h.at < c.starts[h.life + 1])
    && (h.life + 1 == |c.starts| ==> h.n <= c.count && (c.expireAt.Some? ==> h.at < c.expireAt.value))
  }

  ghost predicate HitOk(st: State, h: Hit) {
    h.key in st.counters && HitIn(st.counters[h.key], st.now, h)
  }

  // No two calls of one lifetime get the same number.
  ghost predicate NumbersDiffer(log: seq<Hit>) {
    forall i, k :: 0 <= i < k < |log| && log[i].key == log[k].key && log[i].life == log[k].life ==> log[i].n != log[k].n
  }

  ghost predicate PassedOne(lim: Limits, log: seq<Hit>, id: Caller, key: Bucket) {
    exists k :: 0 <= k < |log| && log[k].caller == id && log[k].key == key && Admitted(lim, log[k])
  }

  // A send has an admitted call for each key that let it through.
  ghost predicate SendOk(lim: Limits, st: State, id: Caller, s: Send) {
    s.passed <= |s.keys| && forall p :: 0 <= p < s.passed ==> PassedOne(lim, st.log, id, s.keys[p])
  }

  ghost predicate Inv(lim: Limits, st: State) {
    && (forall key :: key in st.counters ==> CounterOk(lim, st.now, st.counters[key]))
    && (forall k :: 0 <= k < |st.log| ==> HitOk(st, st.log[k]))
    && NumbersDiffer(st.log)
    && (forall id :: id in st.sends ==> SendOk(lim, st, id, st.sends[id]))
  }

  lemma BumpKeepsHit(lim: Limits, st: State, key: Bucket, h: Hit)
    requires Inv(lim, st) && h.key == key && HitOk(st, h)
    ensures HitIn(Bump(st.counters, st.now, key), st.now, h)
  {
  }

  lemma BumpOk(lim: Limits, st: State, id: Caller)
    requires Inv(lim, st) && Enabled(st, Increment(id))
    ensures var h := NextHit(st, id);
            var c := Bump(st.counters, st.now, h.key);
            && CounterOk(lim, st.now, c) && HitIn(c, st.now, h)
            && forall k :: 0 <= k < |st.log| && st.log[k].key == h.key && st.log[k].life == h.life ==> st.log[k].n != h.n
  {
    var h := NextHit(st, id);
    var c := Bump(st.counters, st.now, h.key);
    if h.key in st.counters { assert CounterOk(lim, st.now, st.counters[h.key]); }
    forall k | 0 <= k < |st.log| && st.log[k].key == h.key && st.log[k].life == h.life ensures st.log[k].n != h.n {
      assert HitOk(st, st.log[k]);
    }
  }

  lemma IncrementKeepsInv(lim: Limits, st: State, id: Caller)
    requires Inv(lim, st) && Enabled(st, Increment(id))
    ensures Inv(lim, Step(lim, st, Increment(id)))
  {
    var st' := Step(lim, st, Increment(id));
    var h := NextHit(st, id);
    BumpOk(lim, st, id);
    forall k | 0 <= k < |st'.log| ensures HitOk(st', st'.log[k]) {
      if k < |st.log| {
        assert HitOk(st, st.log[k]);
        if st.log[k].key == h.key { BumpKeepsHit(lim, st, h.key, st.log[k]); }
      }
    }
    forall o | o in st'.sends ensures SendOk(lim, st', o, st'.sends[o]) {
      assert SendOk(lim, st, o, st.sends[o]);
      LogGrows(lim, st, h, o, st.sends[o]);
      if o == id && Admitted(lim, h) { assert st'.log[|st.log|] == h; }
    }
  }

  lemma LogGrows(lim: Limits, st: State, h: Hit, id: Caller, s: Send)
    requires SendOk(lim, st, id, s)
    ensures forall p :: 0 <= p < s.passed ==> PassedOne(lim, st.log + [h], id, s.keys[p])
  {
    forall p | 0 <= p < s.passed ensures PassedOne(lim, st.log + [h], id, s.keys[p]) {
      assert PassedOne(lim, st.log, id, s.keys[p]);
      var k :| 0 <= k < |st.log| && st.log[k].caller == id && st.log[k].key == s.keys[p] && Admitted(lim, st.log[k]);
      assert (st.log + [h])[k] == st.log[k];
    }
  }

  lemma StepKeepsInv(lim: Limits, st: State, e: Event)
    requires lim.window > 0 && Inv(lim, st) && Enabled(st, e)
    ensures Inv(lim, Step(lim, st, e))
  {
    var st' := Step(lim, st, e);
    if e.Increment? {
      IncrementKeepsInv(lim, st, e.id);
    } else {
      forall k | 0 <= k < |st'.log| ensures HitOk(st', st'.log[k]) { assert HitOk(st, st.log[k]); }
      forall o | o in st'.sends ensures SendOk(lim, st', o, st'.sends[o]) {
        if o in st.sends && !e.Start? { assert SendOk(lim, st, o, st.sends[o]); }
      }
    }
  }

  lemma {:induction false} RunKeepsInv(lim: Limits, es: seq<Event>)
    requires lim.window > 0
    ensures Inv(lim, Run(lim, EMPTY, es))
  {
    if es != [] {
      RunKeepsInv(lim, es[..|es| - 1]);
      var before := Run(lim, EMPTY, es[..|es| - 1]);
      if Enabled(before, es[|es| - 1]) { StepKeepsInv(lim, before, es[|es| - 1]); }
    }
  }

  // ----- Bounds -----

  // The admitted calls of one lifetime.
  function AdmittedIn(lim: Limits, log: seq<Hit>, key: Bucket, life: nat): set<nat> {
    set k: nat | k < |log| && log[k].key == key && log[k].life == life && Admitted(lim, log[k])
  }

  // The admitted calls from a to b, both included.
  function AdmittedBetween(lim: Limits, log: seq<Hit>, key: Bucket, a: int, b: int): set<nat> {
    set k: nat | k < |log| && log[k].key == key && a <= log[k].at <= b && Admitted(lim, log[k])
  }

  // A set of call indexes whose numbers differ and lie in 1..n has at most n elements.
  lemma {:induction false} AtMostSoMany(log: seq<Hit>, ks: set<nat>, n: nat)
    requires forall k :: k in ks ==> k < |log| && 1 <= log[k].n <= n
    requires forall i, k :: i in ks && k in ks && i != k ==> log[i].n != log[k].n
    ensures |ks| <= n
  {
    if n == 0 {
      if k :| k in ks { assert false; }
    } else if k :| k in ks && log[k].n == n {
      AtMostSoMany(log, ks - {k}, n - 1);
    } else {
      AtMostSoMany(log, ks, n - 1);
    }
  }

  lemma LifetimeBound(lim: Limits, st: State, key: Bucket, life: nat)
    requires Inv(lim, st)
    ensures |AdmittedIn(lim, st.log, key, life)| <= lim.max(key)
  {
    var ks := AdmittedIn(lim, st.log, key, life);
    forall k | k in ks ensures 1 <= st.log[k].n { assert HitOk(st, st.log[k]); }
    forall i, k | i in ks && k in ks && i != k ensures st.log[i].n != st.log[k].n {
      if k < i { assert st.log[k].n != st.log[i].n; }
    }
    AtMostSoMany(st.log, ks, lim.max(key));
  }

  // Calls within one window fall into two neighbouring lifetimes at most.
  lemma TwoLifetimes(lim: Limits, st: State, i: nat, k: nat)
    requires Inv(lim, st) && i < |st.log| && k < |st.log| && st.log[i].key == st.log[k].key
    requires st.log[k].at - st.log[i].at <= lim.window
    ensures st.log[k].life <= st.log[i].life + 1
  {
    assert HitOk(st, st.log[i]) && HitOk(st, st.log[k]);
    var c := st.counters[st.log[i].key];
    assert CounterOk(lim, st.now, c);
  }

  lemma {:induction false} LeastLife(log: seq<Hit>, ks: set<nat>) returns (m: nat)
    requires ks != {} && forall k :: k in ks ==> k < |log|
    ensures m in ks && forall k :: k in ks ==> log[m].life <= log[k].life
    decreases ks
  {
    m :| m in ks;
    if ks != {m} {
      var rest := LeastLife(log, ks - {m});
      if log[rest].life < log[m].life { m := rest; }
    }
  }

  lemma IntervalBound(lim: Limits, st: State, key: Bucket, a: int)
    requires Inv(lim, st)
    ensures |AdmittedBetween(lim, st.log, key, a, a + lim.window)| <= 2 * lim.max(key)
  {
    hide Inv, HitOk, CounterOk;
    var ks := AdmittedBetween(lim, st.log, key, a, a + lim.window);
    if ks != {} {
      var m := LeastLife(st.log, ks);
      var life := st.log[m].life;
      var one, two := AdmittedIn(lim, st.log, key, life), AdmittedIn(lim, st.log, key, life + 1);
      forall k | k in ks ensures k in one + two { TwoLifetimes(lim, st, m, k); }
      LifetimeBound(lim, st, key, life);
      LifetimeBound(lim, st, key, life + 1);
      UnionSize(ks, one, two);
    }
  }

  lemma UnionSize(s: set<nat>, a: set<nat>, b: set<nat>)
    requires s <= a + b
    ensures |s| <= |a| + |b|
  {
    assert a + b == a + (b - a);
    assert a + b == s + ((a + b) - s);
    assert b == (b - a) + (a * b);
  }

  // At most max calls of a key are admitted in each lifetime of its counter, and at most twice as many in any interval
  // as long as the window - whatever comes between INCR and EXPIRE, and also when EXPIRE never comes.
  lemma AdmissionBounds(lim: Limits, es: seq<Event>, key: Bucket, life: nat, a: int)
    requires lim.window > 0
    ensures var log := Run(lim, EMPTY, es).log;
            && |AdmittedIn(lim, log, key, life)| <= lim.max(key)
            && |AdmittedBetween(lim, log, key, a, a + lim.window)| <= 2 * lim.max(key)
  {
    RunKeepsInv(lim, es);
    LifetimeBound(lim, Run(lim, EMPTY, es), key, life);
    IntervalBound(lim, Run(lim, EMPTY, es), key, a);
  }

  // n sends in a row that ask one key.
  function Burst(key: Bucket, first: Caller, n: nat): seq<Event> {
    if n == 0 then [] else Burst(key, first, n - 1) + [Start(first + n - 1, [key]), Increment(first + n - 1)]
  }

  // The factor two is reached: max calls at 0 and, their lifetime over, max more at the end of the window.
  function Straddle(key: Bucket, window: nat, n: nat): seq<Event> {
    Burst(key, 0, n) + [Expire(key), Tick(window)] + Burst(key, n, n)
  }

  function StartsOf(st: State, key: Bucket): seq<int> {
    if key in st.counters then st.counters[key].starts else []
  }

  function BurstHits(key: Bucket, first: Caller, n: nat, at: int, life: nat): seq<Hit> {
    seq(n, i requires 0 <= i < n => Hit(key, first + i, at, life, i + 1))
  }

  // What a burst leaves: one new lifetime of the key with n calls.
  ghost predicate BurstDone(st: State, st': State, key: Bucket, first: Caller, n: nat) {
    && st'.now == st.now && key in st'.counters
    && st'.counters[key] == Counter(StartsOf(st, key) + [st.now], n, None, true)
    && st'.log == st.log + BurstHits(key, first, n, st.now, |StartsOf(st, key)|)
    && forall id :: id in st'.sends ==> id in st.sends || first <= id < first + n
  }

  lemma RunTwo(lim: Limits, st: State, a: Event, b: Event)
    requires Enabled(st, a) && Enabled(Step(lim, st, a), b)
    ensures Run(lim, st, [a, b]) == Step(lim, Step(lim, st, a), b)
  {
    assert [a, b][..1] == [a] && [a][..0] == [];
    assert Run(lim, st, [a]) == Step(lim, st, a);
  }

  lemma OneMoreSend(lim: Limits, st: State, key: Bucket, id: Caller)
    requires id !in st.sends
    ensures var st' := Run(lim, st, [Start(id, [key]), Increment(id)]);
            var c := Bump(st.counters, st.now, key);
            && st'.now == st.now && st'.counters == st.counters[key := c]
            && st'.log == st.log + [Hit(key, id, st.now, if c.starts == [] then 0 else |c.starts| - 1, c.count)]
            && st'.sends.Keys == st.sends.Keys + {id}
  {
    hide Run;
    RunTwo(lim, st, Start(id, [key]), Increment(id));
  }

  lemma BurstHitsOneMore(key: Bucket, first: Caller, n: nat, at: int, life: nat)
    requires n > 0
    ensures BurstHits(key, first, n, at, life)
            == BurstHits(key, first, n - 1, at, life) + [Hit(key, first + n - 1, at, life, n)]
  {
  }

  // A burst on a key without a live counter fills one new lifetime.
  lemma {:induction false} BurstFillsLifetime(lim: Limits, st: State, key: Bucket, first: Caller, n: nat)
    requires n >= 1 && (key in st.counters ==> !Live(st.counters[key], st.now))
    requires forall id :: id in st.sends ==> id < first
    ensures BurstDone(st, Run(lim, st, Burst(key, first, n)), key, first, n)
  {
    hide Run, BurstHits;
    var id := first + n - 1;
    RunConcat(lim, st, Burst(key, first, n - 1), [Start(id, [key]), Increment(id)]);
    var before := Run(lim, st, Burst(key, first, n - 1));
    if n > 1 { BurstFillsLifetime(lim, st, key, first, n - 1); } else { NoBurst(lim, st, key, first); }
    OneMoreSend(lim, before, key, id);
    BurstHitsOneMore(key, first, n, st.now, |StartsOf(st, key)|);
  }

  lemma NoBurst(lim: Limits, st: State, key: Bucket, first: Caller)
    ensures Run(lim, st, Burst(key, first, 0)) == st
    ensures forall at, life :: BurstHits(key, first, 0, at, life) == []
  {
  }

  function Below(n: nat): set<nat> {
    if n == 0 then {} else Below(n - 1) + {n - 1}
  }

  lemma {:induction false} BelowFacts(n: nat)
    ensures |Below(n)| == n && forall k: nat :: k in Below(n) <==> k < n
  {
    if n > 0 { BelowFacts(n - 1); }
  }

  // For every key, window and positive maximum.
  lemma BoundIsTight(lim: Limits, key: Bucket)
    requires lim.window > 0 && lim.max(key) > 0
    ensures var log := Run(lim, EMPTY, Straddle(key, lim.window, lim.max(key))).log;
            |AdmittedBetween(lim, log, key, 0, lim.window)| == 2 * lim.max(key)
  {
    hide Run, BurstHits;
    var n := lim.max(key);
    BurstFillsLifetime(lim, EMPTY, key, 0, n);
    var s1 := Run(lim, EMPTY, Burst(key, 0, n));
    var two := [Expire(key), Tick(lim.window)];
    RunConcat(lim, EMPTY, Burst(key, 0, n), two);
    RunTwo(lim, s1, Expire(key), Tick(lim.window));
    var s2 := Run(lim, s1, two);
    RunConcat(lim, EMPTY, Burst(key, 0, n) + two, Burst(key, n, n));
    BurstFillsLifetime(lim, s2, key, n, n);
    var log := Run(lim, EMPTY, Straddle(key, lim.window, n)).log;
    AllAdmitted(lim, key, n, log, BurstHits(key, 0, n, 0, 0), BurstHits(key, n, n, lim.window, 1));
  }

  lemma AllAdmitted(lim: Limits, key: Bucket, n: nat, log: seq<Hit>, one: seq<Hit>, two: seq<Hit>)
    requires n == lim.max(key) && log == one + two
    requires one == BurstHits(key, 0, n, 0, 0) && two == BurstHits(key, n, n, lim.window, 1)
    ensures |AdmittedBetween(lim, log, key, 0, lim.window)| == 2 * n
  {
    BelowFacts(2 * n);
    forall k: nat | k < |log| ensures log[k].key == key && 0 <= log[k].at <= lim.window && Admitted(lim, log[k]) {
      if k < n { assert log[k] == one[k]; } else { assert log[k] == two[k - n]; }
    }
    assert AdmittedBetween(lim, log, key, 0, lim.window) == Below(2 * n);
  }

  // ----- Sends -----

  predicate SendAdmitted(s: Send) { s.passed == |s.keys| && !s.limited }

  // The callers of the admitted calls of a key in an interval.
  function Callers(lim: Limits, log: seq<Hit>, key: Bucket, a: int, b: int): set<Caller> {
    set k | k in AdmittedBetween(lim, log, key, a, b) :: log[k].caller
  }

  lemma {:induction false} ImageSize(log: seq<Hit>, ks: set<nat>, ids: set<Caller>)
    requires forall k :: k in ks ==> k < |log|
    requires forall id :: id in ids ==> exists k :: k in ks && log[k].caller == id
    ensures |ids| <= |ks|
    decreases |ids|
  {
    if ids != {} {
      var id :| id in ids;
      var k :| k in ks && log[k].caller == id;
      ImageSize(log, ks - {k}, ids - {id});
    }
  }

  // The admitted sends that a key let through from a to b.
  function SendsThrough(lim: Limits, st: State, key: Bucket, a: int, b: int): set<Caller> {
    set id | id in st.sends && SendAdmitted(st.sends[id]) && key in st.sends[id].keys
             && id in Callers(lim, st.log, key, a, b)
  }

  // Every key of an admitted send - user, address and, for sockets, connection - let it through at some time, and lets
  // at most 2 * max admitted sends through per window: the bounds hold together.
  lemma AdmittedSendRespectsAllBounds(lim: Limits, es: seq<Event>, key: Bucket, a: int)
    requires lim.window > 0
    ensures var st := Run(lim, EMPTY, es);
            && |SendsThrough(lim, st, key, a, a + lim.window)| <= 2 * lim.max(key)
            && forall id :: id in st.sends && SendAdmitted(st.sends[id]) && key in st.sends[id].keys ==>
                 exists at :: id in SendsThrough(lim, st, key, at, at)
  {
    RunKeepsInv(lim, es);
    var st := Run(lim, EMPTY, es);
    ImageSize(st.log, AdmittedBetween(lim, st.log, key, a, a + lim.window), SendsThrough(lim, st, key, a, a + lim.window));
    IntervalBound(lim, st, key, a);
    forall id | id in st.sends && SendAdmitted(st.sends[id]) && key in st.sends[id].keys
      ensures exists at :: id in SendsThrough(lim, st, key, at, at)
    {
      assert SendOk(lim, st, id, st.sends[id]);
      var p :| 0 <= p < |st.sends[id].keys| && st.sends[id].keys[p] == key;
      assert PassedOne(lim, st.log, id, key);
      var k :| 0 <= k < |st.log| && st.log[k].caller == id && st.log[k].key == key && Admitted(lim, st.log[k]);
      var at := st.log[k].at;
      assert k in AdmittedBetween(lim, st.log, key, at, at);
      assert id in SendsThrough(lim, st, key, at, at);
    }
  }

  // ----- The keys of a send -----

  datatype Env = Env(window: nat, maxUser: nat, maxGuest: nat, maxIp: nat, maxSocket: nat)

  const GUEST_PREFIX := "ratelimit:message-send:guest-user:"
  const USER_PREFIX := "ratelimit:message-send:user:"
  const IP_PREFIX := "ratelimit:message-send:ip:"
  const SOCKET_PREFIX := "ratelimit:message-send:socket:"

  function SendKeys(userId: string, ip: string, socketId: Option<string>, isGuest: bool): seq<Bucket> {
    [(if isGuest then GUEST_PREFIX else USER_PREFIX) + userId, IP_PREFIX + ip]
    + match socketId case None => [] case Some(s) => [SOCKET_PREFIX + s]
  }

  // The maximum that goes with a key, read off its prefix.
  function MaxOf(env: Env, key: Bucket): nat {
    if GUEST_PREFIX <= key then env.maxGuest
    else if USER_PREFIX <= key then env.maxUser
    else if IP_PREFIX <= key then env.maxIp
    else env.maxSocket
  }

  // No key serves two dimensions, so each has one maximum, and different ids have different keys.
  lemma SendKeysApart(env: Env, id: string, other: string)
    ensures MaxOf(env, GUEST_PREFIX + id) == env.maxGuest && MaxOf(env, USER_PREFIX + id) == env.maxUser
    ensures MaxOf(env, IP_PREFIX + id) == env.maxIp && MaxOf(env, SOCKET_PREFIX + id) == env.maxSocket
    ensures forall prefix :: prefix in {GUEST_PREFIX, USER_PREFIX, IP_PREFIX, SOCKET_PREFIX} ==>
              (prefix + id == prefix + other <==> id == other)
  {
    assert GUEST_PREFIX[23] == 'g' && USER_PREFIX[23] == 'u' && IP_PREFIX[23] == 'i' && SOCKET_PREFIX[23] == 's';
    assert (GUEST_PREFIX + id)[23] == 'g' && (USER_PREFIX + id)[23] == 'u';
    assert (IP_PREFIX + id)[23] == 'i' && (SOCKET_PREFIX + id)[23] == 's';
    forall prefix | prefix in {GUEST_PREFIX, USER_PREFIX, IP_PREFIX, SOCKET_PREFIX}
      ensures prefix + id == prefix + other <==> id == other
    {
      assert (prefix + id)[|prefix|..] == id && (prefix + other)[|prefix|..] == other;
    }
  }

  // A send asks its user's counter, its address's and, through a socket, the socket's, each under its own id and
  // against its own maximum, and no other.
  lemma DimensionsOfSend(env: Env, userId: string, ip: string, socketId: Option<string>, isGuest: bool)
    ensures var keys := SendKeys(userId, ip, socketId, isGuest);
            && |keys| == (if socketId.Some? then 3 else 2)
            && keys[0] == "ratelimit:message-send:" + (if isGuest then "guest-user:" else "user:") + userId
            && MaxOf(env, keys[0]) == (if isGuest then env.maxGuest else env.maxUser)
            && keys[1] == "ratelimit:message-send:ip:" + ip && MaxOf(env, keys[1]) == env.maxIp
            && (socketId.Some? ==> keys[2] == "ratelimit:message-send:socket:" + socketId.value
                                   && MaxOf(env, keys[2]) == env.maxSocket)
  {
    SendKeysApart(env, userId, userId);
    SendKeysApart(env, ip, ip);
    if socketId.Some? { SendKeysApart(env, socketId.value, socketId.value); }
    assert "ratelimit:message-send:" + "guest-user:" == GUEST_PREFIX && "ratelimit:message-send:" + "user:" == USER_PREFIX;
  }

  // ----- The limiter -----

  // INCR and, after the first call of a lifetime, EXPIRE.
  function Counted(env: Env, counters: map<Bucket, Counter>, now: int, key: Bucket): Counter {
    var c := Bump(counters, now, key);
    if c.count == 1 then c.(expireAt := Some(now + env.window), pending := false) else c
  }

  // The calls of one send in a row: the counters it leaves, and whether it is limited.
  function Ask(env: Env, counters: map<Bucket, Counter>, now: int, keys: seq<Bucket>): (map<Bucket, Counter>, bool)
    decreases |keys|
  {
    if keys == [] then (counters, false)
    else
      var c := Counted(env, counters, now, keys[0]);
      var counters' := counters[keys[0] := c];
      if c.count > MaxOf(env, keys[0]) then (counters', true) else Ask(env, counters', now, keys[1..])
  }

  lemma AskOne(env: Env, counters: map<Bucket, Counter>, now: int, key: Bucket, rest: seq<Bucket>)
    ensures var c := Counted(env, counters, now, key);
            var counters' := counters[key := c];
            Ask(env, counters, now, [key] + rest) ==
            if c.count > MaxOf(env, key) then (counters', true) else Ask(env, counters', now, rest)
  {
    assert ([key] + rest)[1..] == rest;
  }

  // The requests that a send makes when nothing comes in between.
  function Calls(id: Caller, keys: seq<Bucket>): seq<Event> {
    if keys == [] then [] else [Increment(id), Expire(keys[0])] + Calls(id, keys[1..])
  }

  lemma {:induction false} RunConcat(lim: Limits, st: State, a: seq<Event>, b: seq<Event>)
    ensures Run(lim, st, a + b) == Run(lim, Run(lim, st, a), b)
    decreases |b|
  {
    if b == [] {
      assert a + b == a;
    } else {
      RunConcat(lim, st, a, b[..|b| - 1]);
      assert (a + b)[..|a + b| - 1] == a + b[..|b| - 1];
    }
  }

  // Every counter has been used and has its expiry.
  ghost predicate NonePending(st: State) {
    forall key :: key in st.counters ==> !st.counters[key].pending && st.counters[key].count >= 1
  }

  lemma {:induction false} NothingMore(lim: Limits, st: State, id: Caller, keys: seq<Bucket>)
    requires id in st.sends && st.sends[id].limited && NonePending(st)
    ensures Run(lim, st, Calls(id, keys)) == st
  {
    if keys != [] {
      var two := [Increment(id), Expire(keys[0])];
      assert two[..1] == [Increment(id)] && two[..1][..0] == [];
      assert Run(lim, st, two[..1]) == st;
      RunConcat(lim, st, two, Calls(id, keys[1..]));
      NothingMore(lim, st, id, keys[1..]);
    }
  }

  lemma OneCall(lim: Limits, env: Env, st: State, id: Caller, key: Bucket)
    requires lim.window == env.window && lim.max(key) == MaxOf(env, key) && NonePending(st)
    requires Enabled(st, Increment(id)) && st.sends[id].keys[st.sends[id].passed] == key
    ensures var st' := Run(lim, st, [Increment(id), Expire(key)]);
            var c := Counted(env, st.counters, st.now, key);
            var send := st.sends[id];
            && st'.now == st.now && st'.counters == st.counters[key := c] && NonePending(st')
            && st'.sends == st.sends[id := if c.count > MaxOf(env, key) then send.(limited := true)
                                           else send.(passed := send.passed + 1)]
  {
    var es := [Increment(id), Expire(key)];
    assert es[..1] == [Increment(id)] && es[..1][..0] == [];
    var s1 := Step(lim, st, Increment(id));
    assert Run(lim, st, es[..1]) == s1;
    var c := Bump(st.counters, st.now, key);
    assert s1.counters == st.counters[key := c] && Enabled(s1, Expire(key)) == c.pending;
    assert c.pending <==> Counted(env, st.counters, st.now, key) != c;
    assert Run(lim, st, es) == if c.pending then Step(lim, s1, Expire(key)) else s1;
  }

  // A send without interruption is the interleaved protocol with no other event in between.
  lemma {:induction false} AskIsTheProtocol(lim: Limits, env: Env, st: State, id: Caller, p: nat)
    requires lim.window == env.window && (forall key :: lim.max(key) == MaxOf(env, key)) && NonePending(st)
    requires id in st.sends && !st.sends[id].limited && st.sends[id].passed == p <= |st.sends[id].keys|
    ensures var keys := st.sends[id].keys;
            var st' := Run(lim, st, Calls(id, keys[p..]));
            var r := Ask(env, st.counters, st.now, keys[p..]);
            && id in st'.sends && st'.counters == r.0 && st'.sends[id].limited == r.1
            && (SendAdmitted(st'.sends[id]) <==> !r.1)
    decreases |st.sends[id].keys| - p
  {
    var keys := st.sends[id].keys;
    if p < |keys| {
      var key, rest := keys[p], keys[p + 1..];
      assert keys[p..] == [key] + rest && keys[p..][1..] == rest;
      var st1 := Run(lim, st, [Increment(id), Expire(key)]);
      RunConcat(lim, st, [Increment(id), Expire(key)], Calls(id, rest));
      OneCall(lim, env, st, id, key);
      AskOne(env, st.counters, st.now, key, rest);
      if st1.sends[id].limited {
        NothingMore(lim, st1, id, rest);
      } else {
        AskIsTheProtocol(lim, env, st1, id, p + 1);
      }
    }
  }

  class Limiter {
    const env: Env
    var now: int
    var counters: map<Bucket, Counter>

    constructor (env: Env, now: int)
      ensures this.env == env && this.now == now && counters == map[]
    {
      this.env, this.now, counters := env, now, map[];
    }

    method FixedWindowIncrement(key: Bucket) returns (n: nat)
      modifies this`counters
      ensures counters == old(counters)[key := Counted(env, old(counters), now, key)]
      ensures n == counters[key].count
    {
      var c := Bump(counters, now, key);
      counters := counters[key := c];
      n := c.count;
      if n == 1 {
        counters := counters[key := c.(expireAt := Some(now + env.window), pending := false)];
      }
    }

    method RateLimitExceeded(key: Bucket, max: nat) returns (exceeded: bool)
      modifies this`counters
      ensures counters == old(counters)[key := Counted(env, old(counters), now, key)]
      ensures exceeded <==> counters[key].count > max
    {
      var n := FixedWindowIncrement(key);
      exceeded := n > max;
    }

    // The first dimension over its maximum ends it; the counters after that one are not touched.
    method IsMessageSendRateLimited(userId: string, ip: string, socketId: Option<string>, isGuest: bool)
      returns (limited: bool)
      modifies this`counters
      ensures (counters, limited) == Ask(env, old(counters), now, SendKeys(userId, ip, socketId, isGuest))
    {
      var maxUser := if isGuest then env.maxGuest else env.maxUser;
      var userKey := (if isGuest then GUEST_PREFIX else USER_PREFIX) + userId;
      SendKeysApart(env, userId, userId);
      SendKeysApart(env, ip, ip);
      var ipKey := IP_PREFIX + ip;
      ghost var last := match socketId case None => [] case Some(s) => [SOCKET_PREFIX + s];
      assert SendKeys(userId, ip, socketId, isGuest) == [userKey] + ([ipKey] + last);
      AskOne(env, counters, now, userKey, [ipKey] + last);
      limited := RateLimitExceeded(userKey, maxUser);
      if limited { return; }
      AskOne(env, counters, now, ipKey, last);
      limited := RateLimitExceeded(ipKey, env.maxIp);
      if limited { return; }
      if socketId.Some? {
        SendKeysApart(env, socketId.value, socketId.value);
        assert last == last + [];
        AskOne(env, counters, now, SOCKET_PREFIX + socketId.value, []);
        limited := RateLimitExceeded(SOCKET_PREFIX + socketId.value, env.maxSocket);
      }
    }
  }
}
