/** The double-checked HTTP client cache of the SSO client. */
module ClientCache {
  import opened Text

  /** The part of the SSO configuration a client depends on; the timeout is in nanoseconds. */
  datatype Request = Request(skipVerify: bool, timeout: int)

  datatype HttpClient = HttpClient(timeout: int, skipVerify: bool)

  const DEFAULT_TIMEOUT := 10_000_000_000

  /** A fresh client for a configuration. */
  function ClientFor(r: Request): HttpClient {
    HttpClient(if r.timeout > 0 then r.timeout else DEFAULT_TIMEOUT, r.skipVerify)
  }

  // ---------------------------------------------------------------- the key

  /** %d */
  function Decimal(n: int): string { if n < 0 then "-" + Digits(-n) else Digits(n) }

  function CacheKey(r: Request): string { (if r.skipVerify then "true" else "false") + "_" + Decimal(r.timeout) }

  lemma DecimalInjective(m: int, n: int)
    requires Decimal(m) == Decimal(n)
    ensures m == n
  {
    hide Digits;
    assert Decimal(m)[0] == '-' <==> m < 0;
    assert Decimal(n)[0] == '-' <==> n < 0;
    if m < 0 && n < 0 {
      assert Decimal(m)[1..] == Digits(-m) && Decimal(n)[1..] == Digits(-n);
      DigitsInjective(-m, -n);
    } else if m >= 0 && n >= 0 {
      DigitsInjective(m, n);
    }
  }

  /** Two configurations share a key exactly when they are equal. */
  lemma KeyInjective(q: Request, r: Request)
    ensures CacheKey(q) == CacheKey(r) <==> q == r
  {
    hide Decimal;
    if CacheKey(q) == CacheKey(r) {
      assert CacheKey(q)[0] == CacheKey(r)[0];
      assert q.skipVerify == r.skipVerify;
      var n := if q.skipVerify then 5 else 6;
      assert CacheKey(q)[n..] == Decimal(q.timeout) && CacheKey(r)[n..] == Decimal(r.timeout);
      DecimalInjective(q.timeout, r.timeout);
    }
  }

  // ---------------------------------------------------------------- one caller at a time

  /** The map from keys to clients, and every client ever built; a client is named by its index. */
  datatype Cache = Cache(entries: map<string, nat>, clients: seq<HttpClient>)

  const EMPTY := Cache(map[], [])

  /** What one undisturbed call does to the cache and which client it returns. */
  function Fetch(c: Cache, r: Request): (Cache, nat) {
    if CacheKey(r) in c.entries then (c, c.entries[CacheKey(r)])
    else (Cache(c.entries[CacheKey(r) := |c.clients|], c.clients + [ClientFor(r)]), |c.clients|)
  }

  function Replay(calls: seq<Request>): Cache {
    if calls == [] then EMPTY else Fetch(Replay(calls[..|calls| - 1]), calls[|calls| - 1]).0
  }

  /** The cache holds exactly the configurations asked for so far, each with a client of its own that
      is what a fresh one would have been. */
  ghost predicate Holds(c: Cache, calls: seq<Request>) {
    && (forall r :: CacheKey(r) in c.entries <==> r in calls)
    && (forall r :: CacheKey(r) in c.entries ==>
          c.entries[CacheKey(r)] < |c.clients| && c.clients[c.entries[CacheKey(r)]] == ClientFor(r))
    && (forall q, r | CacheKey(q) in c.entries && CacheKey(r) in c.entries ::
          c.entries[CacheKey(q)] == c.entries[CacheKey(r)] ==> q == r)
    && |c.entries| == |c.clients|
  }

  lemma {:induction false} ReplayHolds(calls: seq<Request>)
    ensures Holds(Replay(calls), calls)
  {
    hide Holds, Fetch;
    if calls == [] {
      NothingHeld();
    } else {
      var n := |calls| - 1;
      ReplayHolds(calls[..n]);
      FetchHolds(Replay(calls[..n]), calls[..n], calls[n]);
      assert calls[..n] + [calls[n]] == calls;
    }
  }

  lemma NothingHeld()
    ensures Holds(EMPTY, [])
  {
    hide CacheKey;
  }

  lemma FetchHolds(c: Cache, calls: seq<Request>, r: Request)
    requires Holds(c, calls)
    ensures Holds(Fetch(c, r).0, calls + [r])
  {
    hide CacheKey, ClientFor;
    forall q ensures CacheKey(q) == CacheKey(r) <==> q == r {
      KeyInjective(q, r);
    }
  }

  /** The client of a configuration, once there, stays for all later calls. */
  lemma {:induction false} ReplayKeeps(calls: seq<Request>, more: seq<Request>)
    ensures forall k | k in Replay(calls).entries ::
              k in Replay(calls + more).entries && Replay(calls + more).entries[k] == Replay(calls).entries[k]
    ensures Replay(calls).clients <= Replay(calls + more).clients
  {
    hide CacheKey, ClientFor;
    if more == [] {
      assert calls + more == calls;
    } else {
      var n := |more| - 1;
      ReplayKeeps(calls, more[..n]);
      assert (calls + more)[..|calls + more| - 1] == calls + more[..n];
    }
  }

  /** httpClient without interference, on the fields it updates. */
  class Store {
    var entries: map<string, nat>
    var clients: seq<HttpClient>

    ghost function Contents(): Cache
      reads this
    {
      Cache(entries, clients)
    }

    constructor ()
      ensures Contents() == EMPTY
    {
      entries, clients := map[], [];
    }

    method HttpClientFor(r: Request) returns (client: nat)
      modifies this
      ensures (Contents(), client) == Fetch(old(Contents()), r)
    {
      var key := CacheKey(r);
      if key in entries {
        return entries[key];
      }
      var timeout := DEFAULT_TIMEOUT;
      if r.timeout > 0 {
        timeout := r.timeout;
      }
      client := |clients|;
      clients := clients + [HttpClient(timeout, r.skipVerify)];
      entries := entries[key := client];
    }
  }

  // ---------------------------------------------------------------- any number of callers at once

  type Place = p: int | 0 <= p <= 6

  const LOAD: Place := 0     // look without the lock
  const ACQUIRE: Place := 1  // wait for the lock
  const RELOAD: Place := 2   // look again
  const BUILD: Place := 3    // build a client
  const STORE: Place := 4    // store it
  const RELEASE: Place := 5  // unlock
  const DONE: Place := 6

  datatype Caller = Caller(request: Request, place: Place, client: nat)

  /** `log` lists the callers in the order in which their result was decided. */
  datatype World = World(cache: Cache, lock: Option<nat>, callers: seq<Caller>, log: seq<nat>)

  const INITIAL := World(EMPTY, None, [], [])

  datatype Event = Calls(request: Request) | Advances(caller: nat)

  predicate Enabled(w: World, e: Event) {
    match e
    case Calls(_) => true
    case Advances(i) =>
      && i < |w.callers| && w.callers[i].place != DONE
      && (w.callers[i].place == ACQUIRE ==> w.lock == None)
  }

  function Move(w: World, i: nat, c: Caller): World
    requires i < |w.callers|
  {
    w.(callers := w.callers[i := c])
  }

  /** One atomic step of caller i. */
  function Step(w: World, i: nat): World
    requires Enabled(w, Advances(i))
  {
    var c := w.callers[i];
    var key := CacheKey(c.request);
    var found := key in w.cache.entries;
    if c.place == LOAD then
      if found then Move(w, i, c.(client := w.cache.entries[key], place := DONE)).(log := w.log + [i])
      else Move(w, i, c.(place := ACQUIRE))
    else if c.place == ACQUIRE then Move(w, i, c.(place := RELOAD)).(lock := Some(i))
    else if c.place == RELOAD then
      if found then Move(w, i, c.(client := w.cache.entries[key], place := RELEASE)).(log := w.log + [i])
      else Move(w, i, c.(place := BUILD))
    else if c.place == BUILD then
      Move(w, i, c.(client := |w.cache.clients|, place := STORE))
        .(cache := w.cache.(clients := w.cache.clients + [ClientFor(c.request)]))
    else if c.place == STORE then
      Move(w, i, c.(place := RELEASE)).(cache := w.cache.(entries := w.cache.entries[key := c.client]), log := w.log + [i])
    else Move(w, i, c.(place := DONE)).(lock := None)
  }

  function Apply(w: World, e: Event): World
    requires Enabled(w, e)
  {
    match e
    case Calls(r) => w.(callers := w.callers + [Caller(r, LOAD, 0)])
    case Advances(i) => Step(w, i)
  }

  function Execute(events: seq<Event>): Option<World> {
    if events == [] then Some(INITIAL)
    else
      match Execute(events[..|events| - 1])
      case None => None
      case Some(before) =>
        var e := events[|events| - 1];
        if Enabled(before, e) then Some(Apply(before, e)) else None
  }

  // ---------------------------------------------------------------- the interleaving is a sequence of whole calls

  predicate HoldsLock(p: Place) { RELOAD <= p <= RELEASE }

  predicate Decided(p: Place) { p >= RELEASE }

  /** A client has been built that is not in the map yet. */
  predicate Unstored(w: World) {
    w.lock.Some? && w.lock.value < |w.callers| && w.callers[w.lock.value].place == STORE
  }

  /** The cache as the decided calls left it. */
  function Committed(w: World): Cache {
    if Unstored(w) && w.cache.clients != []
    then w.cache.(clients := w.cache.clients[..|w.cache.clients| - 1]) else w.cache
  }

  ghost predicate LockHolds(w: World) {
    && (w.lock.Some? ==> w.lock.value < |w.callers|)
    && (forall i | 0 <= i < |w.callers| :: HoldsLock(w.callers[i].place) <==> w.lock == Some(i))
  }

  ghost predicate LogHolds(w: World) {
    && (forall t | 0 <= t < |w.log| :: w.log[t] < |w.callers| && Decided(w.callers[w.log[t]].place))
    && (forall i | 0 <= i < |w.callers| && Decided(w.callers[i].place) :: i in w.log)
    && (forall s, t | 0 <= s < t < |w.log| :: w.log[s] != w.log[t])
  }

  /** The configurations of the first n decided calls. */
  ghost function Requests(w: World, n: nat): (calls: seq<Request>)
    requires n <= |w.log| && LogHolds(w)
    ensures |calls| == n
    ensures forall t | 0 <= t < n :: calls[t] == w.callers[w.log[t]].request
  {
    seq(n, t requires 0 <= t < n => w.callers[w.log[t]].request)
  }

  /** Between the second look and the store nobody else can store the key, and the client built is
      the last one built. */
  ghost predicate PlaceHolds(w: World, i: nat)
    requires i < |w.callers|
  {
    var c := w.callers[i];
    && (c.place == BUILD || c.place == STORE ==> CacheKey(c.request) !in w.cache.entries)
    && (c.place == STORE ==>
          && |w.cache.clients| > 0 && c.client == |w.cache.clients| - 1
          && w.cache.clients[c.client] == ClientFor(c.request))
  }

  /** The t-th decided call got what it would have got if the calls had been made one by one. */
  ghost predicate Serial(w: World, t: nat)
    requires LogHolds(w) && t < |w.log|
  {
    var c := w.callers[w.log[t]];
    c.client == Fetch(Replay(Requests(w, t)), c.request).1
  }

  ghost predicate Invariant(w: World) {
    && LockHolds(w)
    && LogHolds(w)
    && (forall i | 0 <= i < |w.callers| :: PlaceHolds(w, i))
    && Committed(w) == Replay(Requests(w, |w.log|))
    && (forall t | 0 <= t < |w.log| :: Serial(w, t))
  }

  lemma InvariantInitially()
    ensures Invariant(INITIAL)
  {
  }

  /** Without a new decision the log reads the same. */
  lemma SameRequests(w: World, v: World, n: nat)
    requires LogHolds(w) && LogHolds(v) && n <= |w.log| && w.log <= v.log
    requires |w.callers| <= |v.callers|
    requires forall i | 0 <= i < |w.callers| :: v.callers[i].request == w.callers[i].request
    ensures Requests(v, n) == Requests(w, n)
  {
    forall t | 0 <= t < n ensures v.log[t] == w.log[t] {
    }
  }

  lemma OneMoreRequest(w: World, n: nat)
    requires LogHolds(w) && n < |w.log|
    ensures Requests(w, n + 1) == Requests(w, n) + [w.callers[w.log[n]].request]
  {
  }

  /** Decisions made before a step stay as they were. */
  lemma KeepsSerial(w: World, v: World, t: nat)
    requires LogHolds(w) && LogHolds(v) && t < |w.log| && w.log <= v.log && Serial(w, t)
    requires |w.callers| <= |v.callers|
    requires forall i | 0 <= i < |w.callers| :: v.callers[i].request == w.callers[i].request
    requires forall i | 0 <= i < |w.callers| && Decided(w.callers[i].place) :: v.callers[i].client == w.callers[i].client
    ensures Serial(v, t)
  {
    hide Fetch, Replay, Requests, Decided;
    assert v.log[t] == w.log[t];
    SameRequests(w, v, t);
  }

  lemma LockStep(w: World, e: Event)
    requires Enabled(w, e) && LockHolds(w)
    ensures LockHolds(Apply(w, e))
  {
    hide CacheKey, ClientFor;
  }

  lemma LogStep(w: World, e: Event)
    requires Enabled(w, e) && LogHolds(w)
    ensures LogHolds(Apply(w, e))
  {
    hide CacheKey, ClientFor;
    var v := Apply(w, e);
    if e.Advances? {
      assert !Decided(w.callers[e.caller].place) ==> e.caller !in w.log;
      assert v.log == w.log + [e.caller] ==> v.log[|w.log|] == e.caller;
      forall i | 0 <= i < |v.callers| && Decided(v.callers[i].place) ensures i in v.log {
        if i != e.caller {
          assert i in w.log;
        }
      }
    }
  }

  lemma PlaceStep(w: World, e: Event)
    requires Enabled(w, e) && LockHolds(w) && forall i | 0 <= i < |w.callers| :: PlaceHolds(w, i)
    ensures forall i | 0 <= i < |Apply(w, e).callers| :: PlaceHolds(Apply(w, e), i)
  {
    hide CacheKey, ClientFor;
    var v := Apply(w, e);
    forall i | 0 <= i < |v.callers| ensures PlaceHolds(v, i) {
      if i < |w.callers| {
        assert PlaceHolds(w, i);
        assert HoldsLock(w.callers[i].place) <==> w.lock == Some(i);
        if e.Advances? {
          assert HoldsLock(w.callers[e.caller].place) <==> w.lock == Some(e.caller);
        }
      }
    }
  }

  /** A step that decides a call adds it to the history exactly as one undisturbed call would: a
      caller that finds the key, */
  lemma FindingStep(w: World, i: nat)
    requires Enabled(w, Advances(i)) && LockHolds(w) && PlaceHolds(w, i)
    requires w.callers[i].place == LOAD || w.callers[i].place == RELOAD
    requires CacheKey(w.callers[i].request) in w.cache.entries
    ensures (Committed(Step(w, i)), Step(w, i).callers[i].client) == Fetch(Committed(w), w.callers[i].request)
  {
    hide CacheKey, ClientFor;
    assert HoldsLock(w.callers[i].place) <==> w.lock == Some(i);
    assert Step(w, i).cache == w.cache;
    assert Unstored(Step(w, i)) <==> Unstored(w);
  }

  /** ... and one that stores the client it has built. */
  lemma StoringStep(w: World, i: nat)
    requires Enabled(w, Advances(i)) && LockHolds(w) && PlaceHolds(w, i) && w.callers[i].place == STORE
    ensures (Committed(Step(w, i)), Step(w, i).callers[i].client) == Fetch(Committed(w), w.callers[i].request)
  {
    hide CacheKey, ClientFor;
    assert HoldsLock(w.callers[i].place) <==> w.lock == Some(i);
    var before := w.cache.clients[..|w.cache.clients| - 1];
    assert w.cache.clients == before + [ClientFor(w.callers[i].request)];
  }

  lemma DecidingStep(w: World, i: nat)
    requires Enabled(w, Advances(i)) && Invariant(w) && Step(w, i).log == w.log + [i]
    ensures (Committed(Step(w, i)), Step(w, i).callers[i].client) == Fetch(Committed(w), w.callers[i].request)
  {
    hide CacheKey, ClientFor, Replay, Requests, Serial, LogHolds, Fetch, Committed;
    assert PlaceHolds(w, i);
    if w.callers[i].place == STORE {
      StoringStep(w, i);
    } else {
      FindingStep(w, i);
    }
  }

  lemma QuietStep(w: World, e: Event)
    requires Enabled(w, e) && Invariant(w) && Apply(w, e).log == w.log
    ensures Committed(Apply(w, e)) == Committed(w)
  {
    hide CacheKey, ClientFor, Replay, Requests, Serial;
    if e.Advances? {
      assert PlaceHolds(w, e.caller);
      assert |w.cache.clients + [ClientFor(w.callers[e.caller].request)]| - 1 == |w.cache.clients|;
    }
  }

  lemma StepKeepsDecided(w: World, e: Event)
    requires Enabled(w, e)
    ensures var v := Apply(w, e);
            && |w.callers| <= |v.callers|
            && (v.log == w.log || (e.Advances? && v.log == w.log + [e.caller]))
            && (forall i | 0 <= i < |w.callers| :: v.callers[i].request == w.callers[i].request)
            && (forall i | 0 <= i < |w.callers| && Decided(w.callers[i].place) :: v.callers[i].client == w.callers[i].client)
  {
    hide CacheKey, ClientFor;
  }

  lemma InvariantStep(w: World, e: Event)
    requires Enabled(w, e) && Invariant(w)
    ensures Invariant(Apply(w, e))
  {
    hide Apply, Enabled, LockHolds, LogHolds, PlaceHolds, Serial, Committed, Replay, Requests, Fetch, Decided, HoldsLock;
    var v := Apply(w, e);
    LockStep(w, e);
    LogStep(w, e);
    PlaceStep(w, e);
    StepKeepsDecided(w, e);
    var n := |w.log|;
    SameRequests(w, v, n);
    forall t | 0 <= t < n ensures Serial(v, t) {
      KeepsSerial(w, v, t);
    }
    if v.log == w.log {
      QuietStep(w, e);
    } else {
      AdvancesIsStep(w, e);
      DecidedNow(w, v, e.caller);
    }
  }

  lemma AdvancesIsStep(w: World, e: Event)
    requires Enabled(w, e) && e.Advances?
    ensures Enabled(w, Advances(e.caller)) && Apply(w, e) == Step(w, e.caller)
  {
    hide Step;
  }

  lemma DecidedNow(w: World, v: World, i: nat)
    requires Enabled(w, Advances(i)) && Invariant(w) && v == Step(w, i) && v.log == w.log + [i] && LogHolds(v)
    requires Requests(v, |w.log|) == Requests(w, |w.log|)
    ensures Committed(v) == Replay(Requests(v, |v.log|)) && Serial(v, |w.log|)
  {
    hide Step, LockHolds, LogHolds, PlaceHolds, Committed, Requests, Fetch;
    DecidingStep(w, i);
    OneMoreRequest(v, |w.log|);
    StepKeepsDecided(w, Advances(i));
    assert v.callers[i].request == w.callers[i].request;
    var calls := Requests(v, |v.log|);
    assert calls[..|calls| - 1] == Requests(w, |w.log|) && calls[|calls| - 1] == w.callers[i].request;
  }

  lemma {:induction false} InvariantAlways(events: seq<Event>, w: World)
    requires Execute(events) == Some(w)
    ensures Invariant(w)
  {
    hide Invariant, Enabled, Apply;
    if events == [] {
      InvariantInitially();
    } else {
      var before := Execute(events[..|events| - 1]).value;
      InvariantAlways(events[..|events| - 1], before);
      InvariantStep(before, events[|events| - 1]);
    }
  }

  // ---------------------------------------------------------------- the results

  /** Refinement: in every interleaving the decided calls, taken in the order of their decisions,
      return what the same calls would return one by one, and leave the same map behind. */
  lemma InterleavingIsSerial(events: seq<Event>, w: World)
    requires Execute(events) == Some(w)
    ensures LogHolds(w)
    ensures w.cache.entries == Replay(Requests(w, |w.log|)).entries
    ensures forall t | 0 <= t < |w.log| :: Serial(w, t)
  {
    hide Execute, Replay, Requests;
    InvariantAlways(events, w);
  }

  /** Calls that have returned share a client exactly when their configurations are equal, and that
      client has the TLS mode of the configuration and its timeout, or ten seconds when that is not
      positive. */
  lemma ReturnedClients(events: seq<Event>, w: World, i: nat, j: nat)
    requires Execute(events) == Some(w) && i < |w.callers| && j < |w.callers|
    requires w.callers[i].place == DONE && w.callers[j].place == DONE
    ensures w.callers[i].client == w.callers[j].client <==> w.callers[i].request == w.callers[j].request
    ensures w.callers[i].client < |w.cache.clients|
    ensures var client, request := w.cache.clients[w.callers[i].client], w.callers[i].request;
            && client.skipVerify == request.skipVerify
            && client.timeout == if request.timeout > 0 then request.timeout else 10_000_000_000
  {
    hide Execute, Replay, Requests, Fetch, LockHolds, Serial, PlaceHolds, CacheKey;
    InvariantAlways(events, w);
    DecidedClient(w, i);
    DecidedClient(w, j);
    ReplayHolds(Requests(w, |w.log|));
    CommittedIsPrefix(w);
  }

  lemma CommittedIsPrefix(w: World)
    ensures Committed(w).clients <= w.cache.clients && Committed(w).entries == w.cache.entries
  {
  }

  /** The first n decided calls begin all of them. */
  lemma RequestsSplit(w: World, n: nat)
    requires LogHolds(w) && n <= |w.log|
    ensures Requests(w, n) + Requests(w, |w.log|)[n..] == Requests(w, |w.log|)
  {
    hide LogHolds;
  }

  lemma SerialClient(w: World, t: nat)
    requires Invariant(w) && t < |w.log|
    ensures var c := w.callers[w.log[t]];
            CacheKey(c.request) in w.cache.entries && w.cache.entries[CacheKey(c.request)] == c.client
  {
    hide LockHolds, PlaceHolds, CacheKey, ClientFor, Replay, Requests, Committed, Decided;
    assert Serial(w, t);
    OneMoreRequest(w, t);
    ReplayOne(Requests(w, t), w.callers[w.log[t]].request);
    RequestsSplit(w, t + 1);
    ReplayKeeps(Requests(w, t + 1), Requests(w, |w.log|)[t + 1..]);
    CommittedIsPrefix(w);
  }

  lemma DecidedClient(w: World, i: nat)
    requires Invariant(w) && i < |w.callers| && Decided(w.callers[i].place)
    ensures var c := w.callers[i];
            CacheKey(c.request) in w.cache.entries && w.cache.entries[CacheKey(c.request)] == c.client
  {
    hide LockHolds, PlaceHolds, CacheKey, ClientFor, Replay, Requests, Committed, Serial;
    assert i in w.log;
    var t: nat :| t < |w.log| && w.log[t] == i;
    SerialClient(w, t);
  }

  lemma ReplayOne(calls: seq<Request>, r: Request)
    ensures Replay(calls + [r]) == Fetch(Replay(calls), r).0
  {
    hide Fetch;
    assert (calls + [r])[..|calls|] == calls;
  }

  /** At most one client is ever built per configuration: apart from one that is about to be stored,
      there are exactly as many clients as keys. */
  lemma OneClientPerKey(events: seq<Event>, w: World)
    requires Execute(events) == Some(w)
    ensures |w.cache.clients| == |w.cache.entries| + (if Unstored(w) then 1 else 0)
  {
    hide Execute, Replay, Requests, Serial, Fetch, ClientFor, CacheKey, LogHolds;
    InvariantAlways(events, w);
    ReplayHolds(Requests(w, |w.log|));
    if Unstored(w) {
      assert PlaceHolds(w, w.lock.value);
    }
  }

  /** The lock never jams: while a caller has not returned, some caller can take a step. */
  lemma SomeoneCanMove(events: seq<Event>, w: World, i: nat)
    requires Execute(events) == Some(w) && i < |w.callers| && w.callers[i].place != DONE
    ensures exists j: nat :: Enabled(w, Advances(j))
  {
    hide Execute, Replay, Requests, Serial, Fetch, ClientFor, CacheKey, LogHolds, PlaceHolds, Committed;
    InvariantAlways(events, w);
    if w.lock.Some? {
      assert HoldsLock(w.callers[w.lock.value].place);
      assert Enabled(w, Advances(w.lock.value));
    } else {
      assert Enabled(w, Advances(i));
    }
  }

  /** A call returns after at most six steps of its own: each brings it further. */
  lemma EveryStepAdvances(w: World, i: nat)
    requires Enabled(w, Advances(i))
    ensures i < |Step(w, i).callers| && Step(w, i).callers[i].place > w.callers[i].place
    ensures forall j | 0 <= j < |w.callers| && j != i :: Step(w, i).callers[j] == w.callers[j]
  {
    hide CacheKey, ClientFor;
  }
}
