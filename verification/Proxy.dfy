/** The whole proxy as an interleaved system: any number of connections, each with one shared session
    state, any number of channels on them, and at most one session goroutine per channel. */
module Proxy {
  import opened Text
  import opened Address
  import opened Routing
  import opened Identity
  import opened Counting
  import opened Steps
  import Session

  /** One channel and its request loop. */
  datatype Chan = Chan(
    conn: nat,
    serving: bool,            // the request loop is still reading requests
    finished: bool,           // the deferred close has run
    run: Option<nat>,         // the session goroutine it started
    out: seq<ChannelEvent>,   // what was sent on the channel
    replies: seq<bool>)       // the replies to its requests

  /** One connection; `pending` holds targets that env handlers have resolved but not yet stored. */
  datatype Conn = Conn(cfg: Settings, shared: Shared, live: bool, pending: seq<Target>)

  /** `tickets` lists the runs that took a round-robin ticket, in the order they took it. */
  datatype World = World(conns: seq<Conn>, chans: seq<Chan>, runs: seq<Run>, globals: Globals, tickets: seq<nat>)

  const NO_TARGET := Target("", "", "")
  const NEW_STATE := Shared(false, None, None, None, NO_TARGET, map[])
  const NO_METRICS := Metrics(0, 0, 0, 0, 0, 0, 0, 0, 0, 0)
  const INITIAL := World([], [], [], Globals(NO_METRICS, 0, false), [])

  datatype Event =
    | HandshakeFails
    | Connects(cfg: Settings)
    | Disconnects(conn: nat)
    | OpensChannel(conn: nat)
    | StartRequest(chan: nat, kind: Kind, command: string)
    | EnvRequest(chan: nat, name: string, value: string)
    | GlobalEnv(conn: nat, name: string, value: string)
    | StoresTarget(conn: nat, index: nat)
    | OtherRequest(chan: nat, reply: bool)
    | RequestsEnd(chan: nat)
    | ClosesChannel(chan: nat)
    | Steps(run: nat, choice: Choice)
    | Captures(run: nat, lane: Lane)

  // ---------------------------------------------------------------- the events

  predicate Enabled(w: World, e: Event) {
    && !w.globals.crashed
    && match e
       case HandshakeFails => true
       case Connects(_) => true
       case Disconnects(c) => c < |w.conns| && w.conns[c].live
       case OpensChannel(c) => c < |w.conns| && w.conns[c].live
       case StartRequest(k, _, _) => k < |w.chans| && w.chans[k].serving
       case EnvRequest(k, _, _) => k < |w.chans| && w.chans[k].serving && w.chans[k].conn < |w.conns|
       case GlobalEnv(c, _, _) => c < |w.conns|
       case StoresTarget(c, i) => c < |w.conns| && i < |w.conns[c].pending|
       case OtherRequest(k, _) => k < |w.chans| && w.chans[k].serving
       case RequestsEnd(k) => k < |w.chans| && w.chans[k].serving
       case ClosesChannel(k) =>
         && k < |w.chans| && !w.chans[k].serving && !w.chans[k].finished
         && (w.chans[k].run.Some? ==> w.chans[k].run.value < |w.runs| && w.runs[w.chans[k].run.value].pc == DONE)
       case Steps(i, c) =>
         && i < |w.runs| && Fits(w.runs[i].pc, c)
         && w.runs[i].conn < |w.conns| && w.runs[i].chan < |w.chans|
       case Captures(i, lane) =>
         && i < |w.runs| && w.runs[i].launched && lane !in w.runs[i].captured && w.runs[i].conn < |w.conns|
  }

  /** SetEnvVar takes effect at once; the SetTarget that follows it is a step of its own. */
  function StoreEnv(c: Conn, name: string, value: string): (Conn, bool) {
    var (after, reply) := Session.ApplyEnv(c.cfg.routes, c.cfg.user, Session.Routes(c.shared.env, c.shared.target), name, value);
    var stored := c.(shared := c.shared.(env := after.env));
    (if name == SERVER_VARIABLE && Session.Stores(c.cfg.routes, c.cfg.user, name, value)
     then stored.(pending := c.pending + [after.target]) else stored,
     reply)
  }

  function RunStep(w: World, i: nat, c: Choice): World
    requires Enabled(w, Steps(i, c))
  {
    var r := w.runs[i];
    var cn, ch := w.conns[r.conn], w.chans[r.chan];
    var s := Step(r, i, cn.cfg, cn.shared, w.globals, c);
    World(w.conns[r.conn := cn.(shared := s.shared)],
          w.chans[r.chan := ch.(out := ch.out + s.out)],
          w.runs[i := s.run],
          s.globals,
          if r.pc == RESOLVE && TakesTicket(cn.cfg) then w.tickets + [i] else w.tickets)
  }

  function Apply(w: World, e: Event): World
    requires Enabled(w, e)
  {
    var m := w.globals.metrics;
    match e
    case HandshakeFails => w.(globals := w.globals.(metrics := m.(handshakeFailures := m.handshakeFailures + 1)))
    case Connects(cfg) =>
      w.(conns := w.conns + [Conn(cfg, NEW_STATE, true, [])],
         globals := w.globals.(metrics := m.(connections := m.connections + 1, active := m.active + 1)))
    case Disconnects(c) =>
      w.(conns := w.conns[c := w.conns[c].(live := false)],
         globals := w.globals.(metrics := m.(active := m.active - 1)))
    case OpensChannel(c) => w.(chans := w.chans + [Chan(c, true, false, None, [], [])])
    case StartRequest(k, kind, command) =>
      var ch := w.chans[k];
      if ch.run.Some? then w.(chans := w.chans[k := ch.(replies := ch.replies + [false])])
      else
        w.(chans := w.chans[k := ch.(run := Some(|w.runs|), replies := ch.replies + [true])],
           runs := w.runs + [NewRun(ch.conn, k, kind, command)])
    case EnvRequest(k, name, value) =>
      var ch := w.chans[k];
      var (cn, reply) := StoreEnv(w.conns[ch.conn], name, value);
      w.(conns := w.conns[ch.conn := cn], chans := w.chans[k := ch.(replies := ch.replies + [reply, true])])
    case GlobalEnv(c, name, value) => w.(conns := w.conns[c := StoreEnv(w.conns[c], name, value).0])
    case StoresTarget(c, i) =>
      var cn := w.conns[c];
      w.(conns := w.conns[c := cn.(shared := cn.shared.(target := cn.pending[i]),
                                   pending := cn.pending[..i] + cn.pending[i + 1..])])
    case OtherRequest(k, reply) => w.(chans := w.chans[k := w.chans[k].(replies := w.chans[k].replies + [reply])])
    case RequestsEnd(k) => w.(chans := w.chans[k := w.chans[k].(serving := false)])
    case ClosesChannel(k) =>
      w.(chans := w.chans[k := w.chans[k].(finished := true, out := w.chans[k].out + [HandlerClose])])
    case Steps(i, c) => RunStep(w, i, c)
    case Captures(i, lane) =>
      var r := w.runs[i];
      w.(runs := w.runs[i := r.(captured := r.captured[lane := w.conns[r.conn].shared.recorder])])
  }

  /** The world after a sequence of events, if each was enabled in its turn. */
  function Execute(w: World, events: seq<Event>): Option<World> {
    if events == [] then Some(w)
    else
      match Execute(w, events[..|events| - 1])
      case None => None
      case Some(before) =>
        var e := events[|events| - 1];
        if Enabled(before, e) then Some(Apply(before, e)) else None
  }

  // ---------------------------------------------------------------- how the parts refer to each other

  ghost predicate RunWired(w: World, i: nat)
    requires i < |w.runs|
  {
    var r := w.runs[i];
    && r.conn < |w.conns|
    && r.chan < |w.chans|
    && w.chans[r.chan].run == Some(i)
    && w.chans[r.chan].conn == r.conn
  }

  ghost predicate ChanWired(w: World, k: nat)
    requires k < |w.chans|
  {
    var ch := w.chans[k];
    && ch.conn < |w.conns|
    && (ch.run.Some? ==> ch.run.value < |w.runs| && w.runs[ch.run.value].chan == k)
    && (ch.finished ==> !ch.serving)
  }

  /** Every run belongs to one channel, and no channel has two runs. */
  ghost predicate Wired(w: World) {
    && (forall i | 0 <= i < |w.runs| :: RunWired(w, i))
    && (forall k | 0 <= k < |w.chans| :: ChanWired(w, k))
  }

  lemma WiredStep(w: World, e: Event)
    requires Enabled(w, e) && Wired(w)
    requires e.Steps? ==> SameRun(w.runs[e.run], Apply(w, e).runs[e.run])
    ensures Wired(Apply(w, e))
  {
    hide Step, TakesTicket, StoreEnv;
    var v := Apply(w, e);
    assert |v.conns| >= |w.conns| && |v.runs| >= |w.runs| && |v.chans| >= |w.chans|;
    forall i | 0 <= i < |v.runs| ensures RunWired(v, i) {
      if i < |w.runs| {
        assert RunWired(w, i);
      } else {
        assert ChanWired(w, e.chan);
      }
    }
    forall k | 0 <= k < |v.chans| ensures ChanWired(v, k) {
      if k < |w.chans| {
        assert ChanWired(w, k);
      }
    }
  }

  // ---------------------------------------------------------------- what every run's place implies

  ghost predicate RunHolds(w: World, i: nat)
    requires i < |w.runs|
  {
    var r := w.runs[i];
    && r.conn < |w.conns|
    && PlaceFits(r, w.conns[r.conn].cfg)
    && GateHolds(r, w.conns[r.conn].cfg, w.conns[r.conn].shared)
  }

  ghost predicate RunsHold(w: World) { forall i | 0 <= i < |w.runs| :: RunHolds(w, i) }

  /** What an event that is no run step can do to a connection that existed before. */
  predicate ConnKept(c: Conn, d: Conn) {
    && d.cfg == c.cfg
    && d.shared == c.shared.(target := d.shared.target, env := d.shared.env)
  }

  lemma OtherEventsKeepConns(w: World, e: Event, c: nat)
    requires Enabled(w, e) && !e.Steps? && c < |w.conns|
    ensures c < |Apply(w, e).conns| && ConnKept(w.conns[c], Apply(w, e).conns[c])
  {
    hide Session.ApplyEnv, Session.Stores;
  }

  lemma OtherEventsKeepRuns(w: World, e: Event, i: nat)
    requires Enabled(w, e) && !e.Steps? && i < |w.runs|
    ensures i < |Apply(w, e).runs|
    ensures Apply(w, e).runs[i] == w.runs[i].(captured := Apply(w, e).runs[i].captured)
    ensures !e.Captures? || e.run != i ==> Apply(w, e).runs[i] == w.runs[i]
  {
    hide StoreEnv;
  }

  lemma CapturingKeepsPlace(r: Run, captured: map<Lane, Option<nat>>, cfg: Settings, sh: Shared)
    ensures PlaceFits(r.(captured := captured), cfg) <==> PlaceFits(r, cfg)
    ensures GateHolds(r.(captured := captured), cfg, sh) <==> GateHolds(r, cfg, sh)
  {
    hide IdentityAccepted, IsSafeTarget, Released;
  }

  lemma NewRunHolds(conn: nat, chan: nat, kind: Kind, command: string, cfg: Settings, sh: Shared)
    ensures PlaceFits(NewRun(conn, chan, kind, command), cfg)
    ensures GateHolds(NewRun(conn, chan, kind, command), cfg, sh)
  {
    NewRunFits(conn, chan, kind, command, cfg);
  }

  lemma GateMonotone(r: Run, cfg: Settings, sh: Shared, after: Shared)
    requires GateHolds(r, cfg, sh) && (sh.verified ==> after.verified)
    ensures GateHolds(r, cfg, after)
  {
  }

  lemma RunsHoldOther(w: World, e: Event)
    requires Enabled(w, e) && !e.Steps? && Wired(w) && RunsHold(w)
    ensures RunsHold(Apply(w, e))
  {
    hide PlaceFits, GateHolds, StoreEnv;
    var v := Apply(w, e);
    forall i | 0 <= i < |v.runs| ensures RunHolds(v, i) {
      if i < |w.runs| {
        assert RunHolds(w, i);
        var r := w.runs[i];
        OtherEventsKeepConns(w, e, r.conn);
        OtherEventsKeepRuns(w, e, i);
        CapturingKeepsPlace(r, v.runs[i].captured, w.conns[r.conn].cfg, w.conns[r.conn].shared);
        GateMonotone(v.runs[i], w.conns[r.conn].cfg, w.conns[r.conn].shared, v.conns[r.conn].shared);
      } else {
        assert ChanWired(w, e.chan);
        var conn := w.chans[e.chan].conn;
        NewRunHolds(conn, e.chan, e.kind, e.command, w.conns[conn].cfg, w.conns[conn].shared);
      }
    }
  }

  lemma RunsHoldStep(w: World, j: nat, c: Choice)
    requires Enabled(w, Event.Steps(j, c)) && RunsHold(w)
    ensures RunsHold(RunStep(w, j, c))
    ensures SameRun(w.runs[j], RunStep(w, j, c).runs[j])
    ensures var conn := w.runs[j].conn; w.conns[conn].shared.verified ==> RunStep(w, j, c).conns[conn].shared.verified
  {
    hide PlaceFits, GateHolds, Step, SameRun, Evidence;
    var v := RunStep(w, j, c);
    var r := w.runs[j];
    var cn := w.conns[r.conn];
    assert RunHolds(w, j);
    StepPlace(r, j, cn.cfg, cn.shared, w.globals, c);
    StepGateHolds(r, j, cn.cfg, cn.shared, w.globals, c);
    RunKeepsConn(r, v.runs[j]);
    forall i | 0 <= i < |v.runs| ensures RunHolds(v, i) {
      if i != j {
        assert RunHolds(w, i);
        var ci := w.conns[w.runs[i].conn];
        GateMonotone(w.runs[i], ci.cfg, ci.shared, v.conns[w.runs[i].conn].shared);
      }
    }
  }

  lemma RunKeepsConn(r: Run, s: Run)
    requires SameRun(r, s)
    ensures s.conn == r.conn && s.chan == r.chan && s.kind == r.kind && s.captured == r.captured
  {
  }

  // ---------------------------------------------------------------- evidence for the verified flag

  /** Run i of connection c went through a device flow with an acceptable identity. */
  ghost predicate Confirms(w: World, c: nat, i: nat)
    requires c < |w.conns|
  {
    i < |w.runs| && w.runs[i].conn == c && Evidence(w.runs[i], w.conns[c].cfg)
  }

  ghost predicate FlagHasEvidence(w: World, c: nat)
    requires c < |w.conns|
  {
    w.conns[c].shared.verified ==> exists i: nat :: Confirms(w, c, i)
  }

  ghost predicate FlagsHaveEvidence(w: World) { forall c | 0 <= c < |w.conns| :: FlagHasEvidence(w, c) }

  lemma FlagsOther(w: World, e: Event)
    requires Enabled(w, e) && !e.Steps? && FlagsHaveEvidence(w)
    ensures FlagsHaveEvidence(Apply(w, e))
  {
    hide StoreEnv, IdentityAccepted;
    var v := Apply(w, e);
    forall c | 0 <= c < |v.conns| ensures FlagHasEvidence(v, c) {
      if c < |w.conns| {
        OtherEventsKeepConns(w, e, c);
        assert FlagHasEvidence(w, c);
        if w.conns[c].shared.verified {
          var i: nat :| Confirms(w, c, i);
          OtherEventsKeepRuns(w, e, i);
          assert Confirms(v, c, i);
        }
      }
    }
  }

  lemma FlagsStep(w: World, j: nat, c: Choice)
    requires Enabled(w, Event.Steps(j, c)) && RunsHold(w) && FlagsHaveEvidence(w)
    ensures FlagsHaveEvidence(RunStep(w, j, c))
  {
    hide PlaceFits, GateHolds, Step, SameRun, Evidence;
    var v := RunStep(w, j, c);
    var r := w.runs[j];
    var cn := w.conns[r.conn];
    assert RunHolds(w, j);
    StepPlace(r, j, cn.cfg, cn.shared, w.globals, c);
    StepGateHolds(r, j, cn.cfg, cn.shared, w.globals, c);
    RunKeepsConn(r, v.runs[j]);
    forall d | 0 <= d < |v.conns| ensures FlagHasEvidence(v, d) {
      assert FlagHasEvidence(w, d);
      if w.conns[d].shared.verified {
        var i: nat :| Confirms(w, d, i);
        assert Confirms(v, d, i);
      } else if v.conns[d].shared.verified {
        assert Confirms(v, d, j);
      }
    }
  }

  // ---------------------------------------------------------------- the target handles

  /** A handle field holds nothing, or a run of this connection that occupies it. */
  ghost predicate Owned(w: World, c: nat, field: Option<nat>, occupies: PC -> bool) {
    field.Some? ==>
      field.value < |w.runs| && w.runs[field.value].conn == c && occupies(w.runs[field.value].pc)
  }

  /** A handle in the shared state belongs to a run of this connection that is between its set and
      its clear of that handle. */
  ghost predicate FieldsOwned(w: World, c: nat)
    requires c < |w.conns|
  {
    && Owned(w, c, w.conns[c].shared.client, HasPutClient)
    && Owned(w, c, w.conns[c].shared.session, HasPutSession)
    && Owned(w, c, w.conns[c].shared.recorder, HasPutRecorder)
  }

  ghost predicate HandlesHold(w: World) { forall c | 0 <= c < |w.conns| :: FieldsOwned(w, c) }

  lemma HandlesOther(w: World, e: Event)
    requires Enabled(w, e) && !e.Steps? && Wired(w) && HandlesHold(w)
    ensures HandlesHold(Apply(w, e))
  {
    hide StoreEnv;
    var v := Apply(w, e);
    forall j | 0 <= j < |w.runs| ensures j < |v.runs| && v.runs[j] == w.runs[j].(captured := v.runs[j].captured) {
      OtherEventsKeepRuns(w, e, j);
    }
    forall c | 0 <= c < |v.conns| ensures FieldsOwned(v, c) {
      if c < |w.conns| {
        OtherEventsKeepConns(w, e, c);
        assert FieldsOwned(w, c);
      }
    }
  }

  /** What a handle's place says about the number of handles opened. */
  lemma PlaceOpened(r: Run)
    requires HandleOrder(r)
    ensures HasPutClient(r.pc) ==> r.acquired >= 1
    ensures HasPutSession(r.pc) ==> r.acquired >= 2
    ensures HasPutRecorder(r.pc) ==> r.acquired >= 3
  {
  }

  lemma OwnedKept(w: World, v: World, c: nat, field: Option<nat>, occupies: PC -> bool, j: nat, after: Option<nat>)
    requires j < |w.runs| && |v.runs| == |w.runs| && v.runs[j].conn == w.runs[j].conn
    requires forall i | 0 <= i < |w.runs| && i != j :: v.runs[i] == w.runs[i]
    requires Owned(w, c, field, occupies)
    requires if c == w.runs[j].conn then after == Occupied(occupies(w.runs[j].pc), occupies(v.runs[j].pc), j, field)
             else after == field
    ensures Owned(v, c, after, occupies)
  {
  }

  lemma OwnedStep(w: World, j: nat, c: Choice, d: nat)
    requires Enabled(w, Event.Steps(j, c)) && RunsHold(w) && HandlesHold(w) && d < |w.conns|
    ensures FieldsOwned(RunStep(w, j, c), d)
  {
    hide PlaceFits, GateHolds, Step, SameRun, Occupied, HasPutClient, HasPutSession, HasPutRecorder, Owned,
         HandleOrder, RunHolds;
    var v := RunStep(w, j, c);
    RunStepHandles(w, j, c);
    assert FieldsOwned(w, d);
    var sh, after := w.conns[d].shared, v.conns[d].shared;
    OwnedKept(w, v, d, sh.client, HasPutClient, j, after.client);
    OwnedKept(w, v, d, sh.session, HasPutSession, j, after.session);
    OwnedKept(w, v, d, sh.recorder, HasPutRecorder, j, after.recorder);
  }

  /** The handle bookkeeping of one run step, in the world. */
  lemma RunStepHandles(w: World, j: nat, c: Choice)
    requires Enabled(w, Event.Steps(j, c)) && RunsHold(w)
    ensures var v := RunStep(w, j, c);
            var r, s := w.runs[j], v.runs[j];
            var sh, after := w.conns[r.conn].shared, v.conns[r.conn].shared;
            && s.conn == r.conn && s.captured == r.captured && r.acquired <= s.acquired
            && HandleOrder(r) && HandleOrder(s)
            && after.client == Occupied(HasPutClient(r.pc), HasPutClient(s.pc), j, sh.client)
            && after.session == Occupied(HasPutSession(r.pc), HasPutSession(s.pc), j, sh.session)
            && after.recorder == Occupied(HasPutRecorder(r.pc), HasPutRecorder(s.pc), j, sh.recorder)
  {
    var r := w.runs[j];
    var cn := w.conns[r.conn];
    assert RunHolds(w, j);
    StepHandles(r, j, cn.cfg, cn.shared, w.globals, c);
    StepPlace(r, j, cn.cfg, cn.shared, w.globals, c);
    RunKeepsConn(r, RunStep(w, j, c).runs[j]);
    hide GateHolds, Step, SameRun, Occupied, HasPutClient, HasPutSession, HasPutRecorder, HandleOrder,
         ConfirmationFits, OutcomeFits, CodeFits, DirectFits, DialFits;
  }

  lemma HandlesStep(w: World, j: nat, c: Choice)
    requires Enabled(w, Event.Steps(j, c)) && RunsHold(w) && HandlesHold(w)
    ensures HandlesHold(RunStep(w, j, c))
  {
    var v := RunStep(w, j, c);
    RunStepHandles(w, j, c);
    hide PlaceFits, GateHolds, Step, SameRun, Occupied, HasPutClient, HasPutSession, HasPutRecorder,
         FieldsOwned, HandleOrder;
    forall d | 0 <= d < |v.conns| ensures FieldsOwned(v, d) {
      OwnedStep(w, j, c, d);
    }
  }

  // ---------------------------------------------------------------- metrics

  predicate IsLive(c: Conn) { c.live }

  /** Every metric is the number of runs, or connections, it stands for. */
  ghost predicate MetricsHold(w: World) {
    var m := w.globals.metrics;
    && m.connections == |w.conns|
    && m.active == CountOf(IsLive, w.conns)
    && m.pending == CountOf(Waiting, w.runs)
    && m.ssoSuccesses == CountOf(IsConfirmed, w.runs)
    && m.ssoFailures == CountOf(IsRefused, w.runs)
    && m.ssoErrors == CountOf(ErrorCounted, w.runs)
    && m.successes == CountOf(Succeeded, w.runs)
    && m.failures == CountOf(FailedRun, w.runs)
    && m.rejections == CountOf(WasRejected, w.runs)
  }

  lemma CountsUpdate(runs: seq<Run>, i: nat, r: Run)
    requires i < |runs|
    ensures CountOf(Waiting, runs[i := r]) == CountOf(Waiting, runs) - One(Waiting(runs[i])) + One(Waiting(r))
    ensures CountOf(IsConfirmed, runs[i := r]) == CountOf(IsConfirmed, runs) - One(IsConfirmed(runs[i])) + One(IsConfirmed(r))
    ensures CountOf(IsRefused, runs[i := r]) == CountOf(IsRefused, runs) - One(IsRefused(runs[i])) + One(IsRefused(r))
    ensures CountOf(ErrorCounted, runs[i := r]) == CountOf(ErrorCounted, runs) - One(ErrorCounted(runs[i])) + One(ErrorCounted(r))
    ensures CountOf(Succeeded, runs[i := r]) == CountOf(Succeeded, runs) - One(Succeeded(runs[i])) + One(Succeeded(r))
    ensures CountOf(FailedRun, runs[i := r]) == CountOf(FailedRun, runs) - One(FailedRun(runs[i])) + One(FailedRun(r))
    ensures CountOf(WasRejected, runs[i := r]) == CountOf(WasRejected, runs) - One(WasRejected(runs[i])) + One(WasRejected(r))
  {
    hide Waiting, IsConfirmed, IsRefused, ErrorCounted, Succeeded, FailedRun, WasRejected, One, CountOf;
    CountUpdate(Waiting, runs, i, r);
    CountUpdate(IsConfirmed, runs, i, r);
    CountUpdate(IsRefused, runs, i, r);
    CountUpdate(ErrorCounted, runs, i, r);
    CountUpdate(Succeeded, runs, i, r);
    CountUpdate(FailedRun, runs, i, r);
    CountUpdate(WasRejected, runs, i, r);
  }

  /** A fresh run is in none of the counts. */
  lemma CountsAppend(runs: seq<Run>, conn: nat, chan: nat, kind: Kind, command: string)
    ensures var after := runs + [NewRun(conn, chan, kind, command)];
            && CountOf(Waiting, after) == CountOf(Waiting, runs)
            && CountOf(IsConfirmed, after) == CountOf(IsConfirmed, runs)
            && CountOf(IsRefused, after) == CountOf(IsRefused, runs)
            && CountOf(ErrorCounted, after) == CountOf(ErrorCounted, runs)
            && CountOf(Succeeded, after) == CountOf(Succeeded, runs)
            && CountOf(FailedRun, after) == CountOf(FailedRun, runs)
            && CountOf(WasRejected, after) == CountOf(WasRejected, runs)
  {
    hide CountOf;
    var r := NewRun(conn, chan, kind, command);
    CountAppend(Waiting, runs, r);
    CountAppend(IsConfirmed, runs, r);
    CountAppend(IsRefused, runs, r);
    CountAppend(ErrorCounted, runs, r);
    CountAppend(Succeeded, runs, r);
    CountAppend(FailedRun, runs, r);
    CountAppend(WasRejected, runs, r);
  }

  lemma StoreEnvKeepsLive(c: Conn, name: string, value: string)
    ensures StoreEnv(c, name, value).0.live == c.live
  {
    hide Session.ApplyEnv, Session.Stores;
  }

  lemma LiveUpdate(conns: seq<Conn>, c: nat, after: Conn)
    requires c < |conns|
    ensures CountOf(IsLive, conns[c := after]) == CountOf(IsLive, conns) - One(conns[c].live) + One(after.live)
  {
    CountUpdate(IsLive, conns, c, after);
  }

  lemma MetricsOther(w: World, e: Event)
    requires Enabled(w, e) && !e.Steps? && MetricsHold(w)
    ensures MetricsHold(Apply(w, e))
  {
    hide StoreEnv, CountOf, One, Waiting, IsConfirmed, IsRefused, ErrorCounted, Succeeded, FailedRun, WasRejected, IsLive;
    match e
    case HandshakeFails =>
    case Connects(cfg) => NewConnIsLive(w.conns, cfg);
    case Disconnects(c) =>
      LiveUpdate(w.conns, c, w.conns[c].(live := false));
      OneOf();
    case OpensChannel(_) =>
    case StartRequest(k, kind, command) =>
      if w.chans[k].run.None? {
        CountsAppend(w.runs, w.chans[k].conn, k, kind, command);
      }
    case EnvRequest(k, name, value) =>
      var c := w.chans[k].conn;
      StoreEnvKeepsLive(w.conns[c], name, value);
      LiveUpdate(w.conns, c, StoreEnv(w.conns[c], name, value).0);
    case GlobalEnv(c, name, value) =>
      StoreEnvKeepsLive(w.conns[c], name, value);
      LiveUpdate(w.conns, c, StoreEnv(w.conns[c], name, value).0);
    case StoresTarget(c, i) =>
      LiveUpdate(w.conns, c, Apply(w, e).conns[c]);
    case OtherRequest(_, _) =>
    case RequestsEnd(_) =>
    case ClosesChannel(_) =>
    case Captures(i, lane) =>
      CountsUpdate(w.runs, i, Apply(w, e).runs[i]);
      CapturingKeepsCounts(w.runs[i], Apply(w, e).runs[i].captured);
  }

  lemma OneOf()
    ensures One(true) == 1 && One(false) == 0
  {
  }

  lemma NewConnIsLive(conns: seq<Conn>, cfg: Settings)
    ensures CountOf(IsLive, conns + [Conn(cfg, NEW_STATE, true, [])]) == CountOf(IsLive, conns) + 1
  {
    CountAppend(IsLive, conns, Conn(cfg, NEW_STATE, true, []));
  }

  lemma CapturingKeepsCounts(r: Run, captured: map<Lane, Option<nat>>)
    ensures var s := r.(captured := captured);
            && Waiting(s) == Waiting(r) && IsConfirmed(s) == IsConfirmed(r) && IsRefused(s) == IsRefused(r)
            && ErrorCounted(s) == ErrorCounted(r) && Succeeded(s) == Succeeded(r) && FailedRun(s) == FailedRun(r)
            && WasRejected(s) == WasRejected(r)
  {
  }

  lemma MetricsStep(w: World, j: nat, c: Choice)
    requires Enabled(w, Event.Steps(j, c)) && RunsHold(w) && MetricsHold(w)
    ensures MetricsHold(RunStep(w, j, c))
    ensures RunStep(w, j, c).globals.metrics.handshakeFailures == w.globals.metrics.handshakeFailures
  {
    hide PlaceFits, GateHolds, Step, CountOf, One, Waiting, IsConfirmed, IsRefused, ErrorCounted, Succeeded, FailedRun,
         WasRejected, IsLive;
    var v := RunStep(w, j, c);
    var r := w.runs[j];
    var cn := w.conns[r.conn];
    assert RunHolds(w, j);
    StepMetrics(r, j, cn.cfg, cn.shared, w.globals, c);
    CountsUpdate(w.runs, j, v.runs[j]);
    LiveUpdate(w.conns, r.conn, v.conns[r.conn]);
  }

  // ---------------------------------------------------------------- channels

  /** A channel has been sent what its run accounts for and, once, the handler's own close, which
      comes only after the run has returned. */
  ghost predicate ChanHolds(w: World, k: nat)
    requires k < |w.chans|
  {
    var ch := w.chans[k];
    && (ch.run.Some? ==> ch.run.value < |w.runs|)
    && ch.out == (if ch.run.Some? then SentByRun(w.runs[ch.run.value]) else []) + (if ch.finished then [HandlerClose] else [])
    && (ch.finished && ch.run.Some? ==> w.runs[ch.run.value].pc == DONE)
  }

  ghost predicate ChansHold(w: World) { forall k | 0 <= k < |w.chans| :: ChanHolds(w, k) }

  lemma CapturingKeepsSent(r: Run, captured: map<Lane, Option<nat>>)
    ensures SentByRun(r.(captured := captured)) == SentByRun(r)
  {
  }

  lemma NothingSentYet(conn: nat, chan: nat, kind: Kind, command: string)
    ensures SentByRun(NewRun(conn, chan, kind, command)) == []
  {
  }

  /** An event that is no run step only starts a channel's first run or closes the channel. */
  lemma OtherEventsKeepChans(w: World, e: Event, k: nat)
    requires Enabled(w, e) && !e.Steps? && k < |w.chans|
    ensures k < |Apply(w, e).chans|
    ensures var ch, after := w.chans[k], Apply(w, e).chans[k];
            if e.ClosesChannel? && e.chan == k
            then after == ch.(finished := true, out := ch.out + [HandlerClose])
            else && after.out == ch.out && after.finished == ch.finished
                 && (after.run == ch.run || (e.StartRequest? && e.chan == k && ch.run == None && after.run == Some(|w.runs|)))
  {
    hide StoreEnv;
  }

  lemma ChanOther(w: World, e: Event, k: nat)
    requires Enabled(w, e) && !e.Steps? && Wired(w) && k < |w.chans| && ChanHolds(w, k)
    ensures k < |Apply(w, e).chans| && ChanHolds(Apply(w, e), k)
  {
    hide Apply, StoreEnv, SentByRun, RunWired;
    var v := Apply(w, e);
    assert ChanWired(w, k);
    OtherEventsKeepChans(w, e, k);
    if w.chans[k].run.Some? {
      var i := w.chans[k].run.value;
      OtherEventsKeepRuns(w, e, i);
      CapturingKeepsSent(w.runs[i], v.runs[i].captured);
    } else if e.StartRequest? && e.chan == k {
      StartedRun(w, e);
      NothingSentYet(w.chans[k].conn, k, e.kind, e.command);
    }
  }

  lemma StartedRun(w: World, e: Event)
    requires Enabled(w, e) && e.StartRequest? && w.chans[e.chan].run.None?
    ensures Apply(w, e).runs == w.runs + [NewRun(w.chans[e.chan].conn, e.chan, e.kind, e.command)]
  {
  }

  lemma NewChans(w: World, e: Event, k: nat)
    requires Enabled(w, e) && !e.Steps? && |w.chans| <= k < |Apply(w, e).chans|
    ensures Apply(w, e).chans[k] == Chan(Apply(w, e).chans[k].conn, true, false, None, [], [])
  {
    hide StoreEnv;
  }

  lemma ChansOther(w: World, e: Event)
    requires Enabled(w, e) && !e.Steps? && Wired(w) && ChansHold(w)
    ensures ChansHold(Apply(w, e))
  {
    hide Apply, Enabled, Wired;
    var v := Apply(w, e);
    forall k | 0 <= k < |v.chans| ensures ChanHolds(v, k) {
      if k < |w.chans| {
        assert ChanHolds(w, k);
        ChanOther(w, e, k);
      } else {
        NewChans(w, e, k);
      }
    }
  }

  lemma OwnChanStep(w: World, j: nat, c: Choice)
    requires Enabled(w, Event.Steps(j, c)) && RunHolds(w, j) && RunWired(w, j) && ChanHolds(w, w.runs[j].chan)
    ensures ChanHolds(RunStep(w, j, c), w.runs[j].chan)
  {
    hide PlaceFits, GateHolds, Step, SentByRun, TakesTicket;
    var r := w.runs[j];
    var cn := w.conns[r.conn];
    StepSends(r, j, cn.cfg, cn.shared, w.globals, c);
  }

  lemma OtherChanStep(w: World, j: nat, c: Choice, k: nat)
    requires Enabled(w, Event.Steps(j, c)) && RunWired(w, j) && k < |w.chans| && k != w.runs[j].chan
    requires ChanHolds(w, k) && ChanWired(w, k)
    ensures ChanHolds(RunStep(w, j, c), k)
  {
    hide Step, SentByRun, TakesTicket;
  }

  lemma ChansStep(w: World, j: nat, c: Choice)
    requires Enabled(w, Event.Steps(j, c)) && Wired(w) && RunsHold(w) && ChansHold(w)
    ensures ChansHold(RunStep(w, j, c))
  {
    hide RunHolds, RunWired, ChanWired, ChanHolds, Step, TakesTicket;
    assert RunHolds(w, j) && RunWired(w, j);
    var own := w.runs[j].chan;
    assert |RunStep(w, j, c).chans| == |w.chans|;
    forall k | 0 <= k < |w.chans| ensures ChanHolds(RunStep(w, j, c), k) {
      assert ChanHolds(w, k) && ChanWired(w, k);
      if k == own {
        OwnChanStep(w, j, c);
      } else {
        OtherChanStep(w, j, c, k);
      }
    }
  }

  // ---------------------------------------------------------------- routes

  /** The target is empty or safe; with static routing the server variable is never stored, and with
      dynamic routing a stored one resolves. */
  ghost predicate RouteHolds(c: Conn) {
    && KnownTarget(c.shared.target)
    && (forall i | 0 <= i < |c.pending| :: KnownTarget(c.pending[i]))
    && (SERVER_VARIABLE in c.shared.env ==>
          && !c.cfg.routes.staticEnabled
          && ResolveTargetAddress(c.shared.env[SERVER_VARIABLE], c.cfg.user).Ok?)
  }

  ghost predicate RoutesHold(w: World) { forall c | 0 <= c < |w.conns| :: RouteHolds(w.conns[c]) }

  lemma StoreEnvHolds(c: Conn, name: string, value: string)
    requires RouteHolds(c)
    ensures RouteHolds(StoreEnv(c, name, value).0)
  {
    hide ResolveTargetAddress, IsSafeTarget, Session.ApplyEnv, Session.Stores;
    Session.OneMoreEnv(c.cfg.routes, c.cfg.user, Session.Routes(c.shared.env, c.shared.target), name, value);
    ResolvedIsSafe(value, c.cfg.user);
  }

  lemma RoutesOther(w: World, e: Event)
    requires Enabled(w, e) && !e.Steps? && RoutesHold(w)
    ensures RoutesHold(Apply(w, e))
  {
    hide ResolveTargetAddress, IsSafeTarget, StoreEnv;
    if e.EnvRequest? {
      StoreEnvHolds(w.conns[w.chans[e.chan].conn], e.name, e.value);
    } else if e.GlobalEnv? {
      StoreEnvHolds(w.conns[e.conn], e.name, e.value);
    }
  }

  lemma RoutesStep(w: World, j: nat, c: Choice)
    requires Enabled(w, Event.Steps(j, c)) && RunsHold(w) && RoutesHold(w)
    ensures RoutesHold(RunStep(w, j, c))
  {
    hide PlaceFits, GateHolds, Step, KnownTarget, ResolveTargetAddress;
    var r := w.runs[j];
    var cn := w.conns[r.conn];
    assert RunHolds(w, j) && RouteHolds(cn);
    StepTargets(r, j, cn.cfg, cn.shared, w.globals, c);
  }

  // ---------------------------------------------------------------- tickets

  /** Run i holds the t-th ticket: its candidates are the rotation for ticket t. */
  ghost predicate TicketHolds(w: World, t: nat)
    requires t < |w.tickets|
  {
    var i := w.tickets[t];
    && i < |w.runs| && w.runs[i].conn < |w.conns|
    && w.runs[i].pc > RESOLVE
    && TakesTicket(w.conns[w.runs[i].conn].cfg)
    && (var routes := w.conns[w.runs[i].conn].cfg.routes;
        OrderedStaticTargets(routes.targets, routes.mode, t % WORD64) == Some(w.runs[i].targets))
  }

  /** Run i took the t-th ticket and the rotation for it panicked. */
  ghost predicate TicketPanics(w: World, t: nat)
    requires t < |w.tickets|
  {
    var i := w.tickets[t];
    && i < |w.runs| && w.runs[i].conn < |w.conns|
    && (var routes := w.conns[w.runs[i].conn].cfg.routes;
        OrderedStaticTargets(routes.targets, routes.mode, t % WORD64) == None)
  }

  /** Every ticket was turned into a rotation, except the one that crashed the process. */
  ghost predicate TicketsHold(w: World) {
    && (!w.globals.crashed ==> w.globals.counter == |w.tickets| % WORD64)
    && (w.globals.crashed ==> w.tickets != [] && TicketPanics(w, |w.tickets| - 1))
    && forall t | 0 <= t < |w.tickets| && (w.globals.crashed ==> t < |w.tickets| - 1) :: TicketHolds(w, t)
  }

  lemma TicketsOther(w: World, e: Event)
    requires Enabled(w, e) && !e.Steps? && Wired(w) && TicketsHold(w)
    ensures TicketsHold(Apply(w, e))
  {
    hide StoreEnv, TakesTicket, OrderedStaticTargets;
    var v := Apply(w, e);
    forall t | 0 <= t < |v.tickets| ensures TicketHolds(v, t) {
      assert TicketHolds(w, t);
      OtherEventsKeepRuns(w, e, w.tickets[t]);
      OtherEventsKeepConns(w, e, w.runs[w.tickets[t]].conn);
    }
  }

  lemma NextCounter(n: nat)
    ensures (n + 1) % WORD64 == (n % WORD64 + 1) % WORD64
  {
  }

  lemma TicketsStep(w: World, j: nat, c: Choice)
    requires Enabled(w, Event.Steps(j, c)) && RunsHold(w) && TicketsHold(w)
    ensures TicketsHold(RunStep(w, j, c))
  {
    hide PlaceFits, GateHolds, Step, TakesTicket, OrderedStaticTargets, SameRun;
    var v := RunStep(w, j, c);
    var r := w.runs[j];
    var cn := w.conns[r.conn];
    assert RunHolds(w, j);
    StepTicket(r, j, cn.cfg, cn.shared, w.globals, c);
    StepPlace(r, j, cn.cfg, cn.shared, w.globals, c);
    RunKeepsConn(r, v.runs[j]);
    NextCounter(|w.tickets|);
    forall t | 0 <= t < |v.tickets| && (v.globals.crashed ==> t < |v.tickets| - 1) ensures TicketHolds(v, t) {
      if t < |w.tickets| {
        assert TicketHolds(w, t);
      }
    }
  }

  // ---------------------------------------------------------------- the recorders the copy loops hold

  /** A copy loop of run i reads the recorder from the shared state once; a recorder it got was
      opened by a run of its own connection. */
  ghost predicate CaptureHolds(w: World, i: nat, lane: Lane)
    requires i < |w.runs| && lane in w.runs[i].captured
  {
    var got := w.runs[i].captured[lane];
    && w.runs[i].launched
    && (got.Some? ==> got.value < |w.runs| && w.runs[got.value].conn == w.runs[i].conn && w.runs[got.value].acquired >= 3)
  }

  ghost predicate CapturesHold(w: World) {
    forall i, lane | 0 <= i < |w.runs| && lane in w.runs[i].captured :: CaptureHolds(w, i, lane)
  }

  lemma CaptureKept(w: World, v: World, i: nat, lane: Lane)
    requires i < |w.runs| <= |v.runs| && lane in w.runs[i].captured && lane in v.runs[i].captured
    requires CaptureHolds(w, i, lane) && v.runs[i].captured[lane] == w.runs[i].captured[lane]
    requires v.runs[i].launched
    requires forall j | 0 <= j < |w.runs| :: v.runs[j].conn == w.runs[j].conn && v.runs[j].acquired >= w.runs[j].acquired
    ensures CaptureHolds(v, i, lane)
  {
  }

  lemma LaunchedPlace(r: Run, cfg: Settings)
    requires PlaceFits(r, cfg) && r.launched
    ensures r.pc >= LAUNCH && r.acquired == 3
    ensures HasPutRecorder(r.pc) || r.pc > CLEAR_RECORDER
  {
    hide ConfirmationFits, OutcomeFits, DirectFits, DialFits, HandleOrder;
  }

  lemma NewCapture(w: World, i: nat, lane: Lane)
    requires Enabled(w, Captures(i, lane)) && RunsHold(w) && HandlesHold(w)
    ensures CaptureHolds(Apply(w, Captures(i, lane)), i, lane)
  {
    hide PlaceFits, GateHolds, HasPutClient, HasPutSession, HasPutRecorder;
    var r := w.runs[i];
    assert FieldsOwned(w, r.conn);
    var got := w.conns[r.conn].shared.recorder;
    if got.Some? {
      assert RunHolds(w, got.value);
      RecorderOpened(w.runs[got.value], w.conns[r.conn].cfg);
    }
  }

  lemma RecorderOpened(r: Run, cfg: Settings)
    requires PlaceFits(r, cfg) && HasPutRecorder(r.pc)
    ensures r.acquired >= 3
  {
    hide ConfirmationFits, OutcomeFits, CodeFits, DirectFits, DialFits;
    PlaceOpened(r);
  }

  lemma CapturesOther(w: World, e: Event)
    requires Enabled(w, e) && !e.Steps? && RunsHold(w) && HandlesHold(w) && CapturesHold(w)
    ensures CapturesHold(Apply(w, e))
  {
    hide StoreEnv, CaptureHolds;
    var v := Apply(w, e);
    forall j | 0 <= j < |w.runs| ensures j < |v.runs| && v.runs[j] == w.runs[j].(captured := v.runs[j].captured) {
      OtherEventsKeepRuns(w, e, j);
    }
    forall i, lane | 0 <= i < |v.runs| && lane in v.runs[i].captured ensures CaptureHolds(v, i, lane) {
      if e.Captures? && e.run == i && e.lane == lane {
        NewCapture(w, i, lane);
      } else {
        assert CaptureHolds(w, i, lane) by {
          assert i < |w.runs| && lane in w.runs[i].captured;
        }
        LaunchedBefore(w, i, lane);
        CaptureKept(w, v, i, lane);
      }
    }
  }

  lemma LaunchedBefore(w: World, i: nat, lane: Lane)
    requires i < |w.runs| && lane in w.runs[i].captured && CaptureHolds(w, i, lane)
    ensures w.runs[i].launched
  {
  }

  lemma CapturesStep(w: World, j: nat, c: Choice)
    requires Enabled(w, Event.Steps(j, c)) && RunsHold(w) && CapturesHold(w)
    ensures CapturesHold(RunStep(w, j, c))
  {
    hide PlaceFits, GateHolds, Step, CaptureHolds, HandleOrder, Occupied;
    var v := RunStep(w, j, c);
    var r := w.runs[j];
    var cn := w.conns[r.conn];
    assert RunHolds(w, j);
    RunStepHandles(w, j, c);
    forall i, lane | 0 <= i < |v.runs| && lane in v.runs[i].captured ensures CaptureHolds(v, i, lane) {
      assert CaptureHolds(w, i, lane);
      LaunchedBefore(w, i, lane);
      if i == j {
        StaysLaunched(r, j, cn.cfg, cn.shared, w.globals, c);
      }
      CaptureKept(w, v, i, lane);
    }
  }

  lemma StaysLaunched(r: Run, id: nat, cfg: Settings, sh: Shared, g: Globals, c: Choice)
    requires Fits(r.pc, c) && PlaceFits(r, cfg) && r.launched
    ensures Step(r, id, cfg, sh, g, c).run.launched
  {
    hide ConfirmationFits, OutcomeFits, DirectFits, DialFits, HandleOrder, Step, GateEffect, DialEffect;
    LaunchedPlace(r, cfg);
    StepEffects(r, id, cfg, sh, g, c);
  }
}
