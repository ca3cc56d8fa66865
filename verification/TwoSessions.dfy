/** Two sessions on one connection share the handle fields: runs of the proxy in which the clean-up of
    one session takes the target client of the other out of the shared state, and in which a copy loop
    of one session records into the file of the other. */
module TwoSessions {
  import opened Text
  import opened Address
  import opened Routing
  import opened Steps
  import opened Proxy
  import opened ProxySafety

  /** No SSO, and static routing with one target that resolves. */
  predicate Plain(cfg: Settings) {
    && !cfg.ssoEnabled
    && cfg.routes.staticEnabled && |cfg.routes.targets| == 1
    && ResolveTargetAddress(cfg.routes.targets[0], cfg.user).Ok?
  }

  lemma Extend(events: seq<Event>, w: World, e: Event)
    requires Reaches(events, w) && Enabled(w, e)
    ensures Reaches(events + [e], Apply(w, e))
  {
    hide Enabled, Apply;
    assert (events + [e])[..|events|] == events;
  }

  lemma StepOnce(events: seq<Event>, w: World, i: nat, c: Choice) returns (more: seq<Event>, v: World)
    requires Reaches(events, w) && Enabled(w, Event.Steps(i, c))
    ensures Reaches(more, v) && v == RunStep(w, i, c)
  {
    hide Reaches, Enabled, RunStep;
    Extend(events, w, Event.Steps(i, c));
    more, v := events + [Event.Steps(i, c)], RunStep(w, i, c);
  }

  /** Run i is at a place of a plain connection that has not crashed. */
  ghost predicate Stands(w: World, i: nat, pc: PC) {
    && !w.globals.crashed
    && i < |w.runs| && w.runs[i].conn < |w.conns| && w.runs[i].chan < |w.chans|
    && w.runs[i].kind == Shell && w.runs[i].pc == pc
    && Plain(w.conns[w.runs[i].conn].cfg)
  }

  /** What a step of run i leaves alone: everything but that run and its connection's shared state. */
  ghost predicate OnlyMoves(w: World, v: World, i: nat)
    requires i < |w.runs| && w.runs[i].conn < |w.conns|
  {
    && |v.runs| == |w.runs| && |v.conns| == |w.conns| && |v.chans| == |w.chans|
    && (forall k | 0 <= k < |w.runs| && k != i :: v.runs[k] == w.runs[k])
    && v.runs[i].conn == w.runs[i].conn
    && v.conns[w.runs[i].conn].cfg == w.conns[w.runs[i].conn].cfg
  }

  lemma EntersGate(events: seq<Event>, w: World, i: nat) returns (more: seq<Event>, v: World)
    requires Reaches(events, w) && Stands(w, i, START)
    ensures Reaches(more, v) && Stands(v, i, RESOLVE) && OnlyMoves(w, v, i)
    ensures v.runs[i] == w.runs[i].(pc := RESOLVE)
  {
    hide Reaches, StepDial, StepSetUp, StepFinal, StepTearDown, StepReport, ResolveTargetAddress;
    var some, u := StepOnce(events, w, i, Go);
    assert u.runs[i] == w.runs[i].(pc := GATE);
    more, v := StepOnce(some, u, i, Go);
  }

  lemma ResolvesTarget(events: seq<Event>, w: World, i: nat) returns (more: seq<Event>, v: World)
    requires Reaches(events, w) && Stands(w, i, RESOLVE)
    ensures Reaches(more, v) && Stands(v, i, DIAL) && OnlyMoves(w, v, i)
    ensures v.runs[i] == w.runs[i].(pc := DIAL, targets := w.conns[w.runs[i].conn].cfg.routes.targets)
  {
    hide Reaches, StepGate, StepSetUp, StepFinal, StepTearDown, StepReport, ResolveTargetAddress, NormalizeRoutingMode;
    more, v := StepOnce(events, w, i, Heuristic(""));
  }

  lemma ReachesTarget(events: seq<Event>, w: World, i: nat) returns (more: seq<Event>, v: World)
    requires Reaches(events, w) && Stands(w, i, DIAL) && w.runs[i].attempt == 0
    requires w.runs[i].targets == w.conns[w.runs[i].conn].cfg.routes.targets
    ensures Reaches(more, v) && Stands(v, i, PUT_CLIENT) && OnlyMoves(w, v, i)
    ensures v.runs[i].acquired == 1 && v.runs[i].captured == w.runs[i].captured
  {
    hide Reaches, StepGate, StepSetUp, StepFinal, StepTearDown, StepReport, ResolveTargetAddress, ResolveTargetCandidates,
         NextTarget, Attempts;
    FirstOfOne(w.runs[i].targets[0], w.conns[w.runs[i].conn].cfg.routes.retries);
    assert w.runs[i].targets == [w.runs[i].targets[0]];
    var some, u := StepOnce(events, w, i, Go);
    assert u.runs[i].pc == DIALING;
    more, v := StepOnce(some, u, i, Try(true));
  }

  lemma PutsClient(events: seq<Event>, w: World, i: nat) returns (more: seq<Event>, v: World)
    requires Reaches(events, w) && Stands(w, i, PUT_CLIENT)
    ensures Reaches(more, v) && Stands(v, i, PUT_TARGET) && OnlyMoves(w, v, i)
    ensures v.runs[i].captured == w.runs[i].captured
    ensures v.runs[i].acquired == w.runs[i].acquired && v.conns[w.runs[i].conn].shared.client == Some(i)
  {
    hide Reaches, StepGate, StepDial, StepFinal, StepTearDown, StepReport, ResolveTargetAddress;
    more, v := StepOnce(events, w, i, Go);
  }

  /** A fresh shell run gets as far as holding its target client. */
  lemma GetsClient(events: seq<Event>, w: World, i: nat) returns (more: seq<Event>, v: World)
    requires Reaches(events, w) && Stands(w, i, START) && w.runs[i].attempt == 0
    ensures Reaches(more, v) && Stands(v, i, PUT_TARGET) && OnlyMoves(w, v, i)
    ensures v.runs[i].captured == w.runs[i].captured
    ensures v.runs[i].acquired == 1 && v.conns[w.runs[i].conn].shared.client == Some(i)
  {
    hide Reaches, RunStep, Plain;
    var e1, w1 := EntersGate(events, w, i);
    var e2, w2 := ResolvesTarget(e1, w1, i);
    var e3, w3 := ReachesTarget(e2, w2, i);
    more, v := PutsClient(e3, w3, i);
  }

  /** A run that holds its client, cannot open a session and unwinds. */
  lemma GivesUp(events: seq<Event>, w: World, i: nat) returns (more: seq<Event>, v: World)
    requires Reaches(events, w) && Stands(w, i, PUT_TARGET) && w.runs[i].acquired == 1
    ensures Reaches(more, v) && OnlyMoves(w, v, i) && v.conns[w.runs[i].conn].shared.client == None
  {
    hide Reaches, StepGate, StepDial, StepFinal, StepReport, Plain;
    var e1, w1 := StepOnce(events, w, i, Go);
    assert w1.runs[i] == w.runs[i].(pc := NEW_SESSION);
    var e2, w2 := StepOnce(e1, w1, i, Try(false));
    assert w2.runs[i] == w.runs[i].(pc := CLEAR_CLIENT, ok := false);
    more, v := StepOnce(e2, w2, i, Go);
  }

  /** One connection with two channels, each with a fresh shell run. */
  lemma TwoShells(cfg: Settings) returns (events: seq<Event>, w: World)
    requires Plain(cfg)
    ensures Reaches(events, w) && |w.runs| == 2 && Stands(w, 0, START) && Stands(w, 1, START)
    ensures forall i | 0 <= i < 2 :: w.runs[i].conn == 0 && w.runs[i].attempt == 0 && w.runs[i].captured == map[]
  {
    hide ResolveTargetAddress, Reaches;
    StartsEmpty();
    var e1, w1 := Extended([], INITIAL, Connects(cfg));
    var e2, w2 := Extended(e1, w1, OpensChannel(0));
    var e3, w3 := Extended(e2, w2, OpensChannel(0));
    assert w3.chans[0] == w3.chans[1] == Chan(0, true, false, None, [], []);
    var e4, w4 := Extended(e3, w3, StartRequest(0, Shell, ""));
    assert w4.chans[1] == Chan(0, true, false, None, [], []);
    events, w := Extended(e4, w4, StartRequest(1, Shell, ""));
  }

  lemma StartsEmpty()
    ensures Reaches([], INITIAL)
  {
  }

  lemma Extended(events: seq<Event>, w: World, e: Event) returns (more: seq<Event>, v: World)
    requires Reaches(events, w) && Enabled(w, e)
    ensures Reaches(more, v) && v == Apply(w, e)
  {
    hide Reaches, Enabled, Apply;
    Extend(events, w, e);
    more, v := events + [e], Apply(w, e);
  }

  /** For every plain configuration the proxy can get to where run 0 holds an open target client and
      the connection's state says there is none: the exclusion of other openers in
      OnlySessionFindsItsHandles cannot be dropped. */
  lemma CleanUpHitsTheOtherSession(cfg: Settings)
    requires Plain(cfg)
    ensures exists events: seq<Event>, w: World ::
              && Reaches(events, w) && |w.runs| == 2 && w.runs[0].conn == w.runs[1].conn == 0 && |w.conns| > 0
              && HasPutClient(w.runs[0].pc) && Client !in w.runs[0].released
              && w.conns[0].shared.client == None
  {
    hide Reaches, RunStep, Plain;
    var e1, w1 := TwoShells(cfg);
    var e2, w2 := GetsClient(e1, w1, 0);
    var e3, w3 := GetsClient(e2, w2, 1);
    var e4, w4 := GivesUp(e3, w3, 1);
    assert w4.runs[0] == w2.runs[0];
    HoldsIt(e4, w4, 0);
  }

  lemma HoldsIt(events: seq<Event>, w: World, i: nat)
    requires Reaches(events, w) && i < |w.runs| && HasPutClient(w.runs[i].pc)
    ensures Client !in w.runs[i].released
  {
    InvariantAlways(events, w);
    hide Reaches, Wired, FlagsHaveEvidence, HandlesHold, MetricsHold, ChansHold, RoutesHold, TicketsHold, CapturesHold,
         GateHolds, PlaceFits;
    assert RunHolds(w, i);
    HeldIsOpen(w.runs[i], w.conns[w.runs[i].conn].cfg);
  }

  /** A run that holds its client opens a session, then a recorder, and puts both in the state. */
  lemma OpensSession(events: seq<Event>, w: World, i: nat) returns (more: seq<Event>, v: World)
    requires Reaches(events, w) && Stands(w, i, PUT_TARGET)
    ensures Reaches(more, v) && Stands(v, i, NEW_RECORDER) && OnlyMoves(w, v, i)
    ensures v.runs[i].captured == w.runs[i].captured
  {
    hide Reaches, StepGate, StepDial, StepFinal, StepReport, StepTearDown, Plain;
    var e1, w1 := StepOnce(events, w, i, Go);
    assert w1.runs[i] == w.runs[i].(pc := NEW_SESSION);
    var e2, w2 := StepOnce(e1, w1, i, Try(true));
    assert w2.runs[i] == w.runs[i].(pc := PUT_SESSION, acquired := 2);
    more, v := StepOnce(e2, w2, i, Go);
  }

  lemma OpensRecorder(events: seq<Event>, w: World, i: nat) returns (more: seq<Event>, v: World)
    requires Reaches(events, w) && Stands(w, i, NEW_RECORDER)
    ensures Reaches(more, v) && Stands(v, i, SETUP) && OnlyMoves(w, v, i)
    ensures v.runs[i].captured == w.runs[i].captured && v.conns[w.runs[i].conn].shared.recorder == Some(i)
  {
    hide Reaches, StepGate, StepDial, StepFinal, StepReport, StepTearDown, Plain;
    var e1, w1 := StepOnce(events, w, i, Try(true));
    assert w1.runs[i] == w.runs[i].(pc := PUT_RECORDER, acquired := 3);
    more, v := StepOnce(e1, w1, i, Go);
  }

  /** A fresh shell run gets as far as having put its recorder in the state. */
  lemma GetsRecorder(events: seq<Event>, w: World, i: nat) returns (more: seq<Event>, v: World)
    requires Reaches(events, w) && Stands(w, i, PUT_TARGET)
    ensures Reaches(more, v) && Stands(v, i, SETUP) && OnlyMoves(w, v, i)
    ensures v.runs[i].captured == w.runs[i].captured && v.conns[w.runs[i].conn].shared.recorder == Some(i)
  {
    hide Reaches, RunStep, Plain;
    var e1, w1 := OpensSession(events, w, i);
    more, v := OpensRecorder(e1, w1, i);
  }

  /** It launches its copy loops, and the one for the input reads the recorder field. */
  lemma LaunchesAndCaptures(events: seq<Event>, w: World, i: nat) returns (more: seq<Event>, v: World)
    requires Reaches(events, w) && Stands(w, i, SETUP) && Stdin !in w.runs[i].captured
    ensures Reaches(more, v) && i < |v.runs| && Stdin in v.runs[i].captured && v.runs[i].conn == w.runs[i].conn
    ensures v.runs[i].captured[Stdin] == w.conns[w.runs[i].conn].shared.recorder
    ensures |v.runs| == |w.runs| && forall k | 0 <= k < |w.runs| && k != i :: v.runs[k] == w.runs[k]
  {
    hide Reaches, StepGate, StepDial, StepFinal, StepReport, StepTearDown, Plain;
    var e1, w1 := StepOnce(events, w, i, Try(true));
    assert w1.runs[i] == w.runs[i].(pc := LAUNCH, launched := true);
    more, v := Extended(e1, w1, Captures(i, Stdin));
  }

  /** For every plain configuration the proxy can get to where the input copy loop of run 0 holds the
      recorder of run 1, so that what the first user types goes into the second session's file. */
  lemma RecordsIntoTheOtherFile(cfg: Settings)
    requires Plain(cfg)
    ensures exists events: seq<Event>, w: World ::
              && Reaches(events, w) && |w.runs| == 2 && w.runs[0].conn == w.runs[1].conn == 0
              && Stdin in w.runs[0].captured && w.runs[0].captured[Stdin] == Some(1)
  {
    hide Reaches, RunStep, Plain;
    var e1, w1 := TwoShells(cfg);
    var e2, w2 := GetsClient(e1, w1, 0);
    var e3, w3 := GetsRecorder(e2, w2, 0);
    var e4, w4 := GetsClient(e3, w3, 1);
    var e5, w5 := GetsRecorder(e4, w4, 1);
    assert w5.runs[0] == w3.runs[0];
    var e6, w6 := LaunchesAndCaptures(e5, w5, 0);
    assert w6.runs[1] == w5.runs[1];
  }
}
