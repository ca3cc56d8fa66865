/** How a session ends: in every interleaving the outcome, the exit status and the choices of a session
    goroutine follow from what its environment answered it. */
module Outcomes {
  import opened Text
  import opened Address
  import opened Routing
  import opened Identity
  import opened Steps
  import opened Proxy
  import opened ProxySafety
  import opened Handles

  // ---------------------------------------------------------------- what makes a run fail

  /** The device flow gave an identity, and one that stands for the SSH user when that is enforced; a
      blank user goes by the name "unknown". */
  ghost predicate Accepts(cfg: Settings, identity: Option<Identity>) {
    && identity.Some?
    && (cfg.enforceMatch ==> StandsFor(identity.value, if Blank(cfg.user) then "unknown" else cfg.user))
  }

  predicate Banned(r: Run, cfg: Settings) { r.kind == Exec && !cfg.allowDirect }

  /** An answer that a run cannot go on from: a refused confirmation, no usable candidates, no attempt
      left, something that could not be opened or started, or a broken remote session. */
  ghost predicate Stumbles(r: Run, cfg: Settings, sh: Shared, g: Globals, c: Choice) {
    || (c.FlowResult? && !Accepts(cfg, c.identity))
    || (c.Heuristic? && CandidatesOf(r, cfg, sh, g, c).Err? && CandidatesOf(r, cfg, sh, g, c).error != RotationPanic)
    || (r.pc == DIAL && (r.targets == [] || r.attempt >= Attempts(1 + cfg.routes.retries, |r.targets|)))
    || (c == Try(false) && r.pc != DIALING)
    || c == Ended(Broken)
  }

  function CandidatesOf(r: Run, cfg: Settings, sh: Shared, g: Globals, c: Choice): Result<seq<string>, RouteError>
    requires c.Heuristic?
  {
    ResolveTargetCandidates(cfg.routes, sh.env, r.command, c.fromCommand, g.counter)
  }

  /** A run that is returning an error is at one of these places, and one whose remote session was
      started has its copy loops running. */
  predicate OkFits(r: Run) {
    && (!r.ok ==> REFUSED_RECORD <= r.pc <= REFUSED_ERROR || r.pc == WAIT_END || r.pc >= FINAL_EXIT)
    && (LAUNCH <= r.pc <= FINAL_CLOSE || r.code.Some? ==> r.launched)
  }

  /** A step turns a run into one that fails exactly when it stumbles, or is not allowed. */
  ghost predicate OkFollows(r: Run, cfg: Settings, sh: Shared, g: Globals, c: Choice, s: Run) {
    && OkFits(s)
    && (s.ok <==> r.ok && !Stumbles(r, cfg, sh, g, c) && !(r.pc == START && Banned(r, cfg)))
  }

  lemma AcceptsIff(cfg: Settings, identity: Option<Identity>)
    ensures Accepts(cfg, identity) <==> identity.Some? && IdentityAccepted(cfg, identity.value)
  {
    hide StandsFor, MatchesSSHUser, Blank;
    if identity.Some? {
      MatchesIff(identity.value, EffectiveUser(cfg.user));
    }
  }

  lemma GateOk(r: Run, cfg: Settings, sh: Shared, g: Globals, c: Choice)
    requires Fits(r.pc, c) && AtGate(r.pc) && OkFits(r)
    ensures OkFollows(r, cfg, sh, g, c, StepGate(r, cfg, sh, g, c).run)
  {
    hide Accepts, IdentityAccepted;
    if c.FlowResult? {
      AcceptsIff(cfg, c.identity);
    }
  }

  lemma DialOk(r: Run, cfg: Settings, sh: Shared, g: Globals, c: Choice)
    requires Fits(r.pc, c) && AtDial(r.pc) && OkFits(r) && r.acquired == 0
    ensures OkFollows(r, cfg, sh, g, c, StepDial(r, cfg, sh, g, c).run)
  {
    hide Accepts, ResolveTargetAddress, ResolveTargetCandidates, NextTarget, Attempts, TakesTicket;
  }

  lemma SetUpOk(r: Run, id: nat, cfg: Settings, sh: Shared, g: Globals, c: Choice)
    requires Fits(r.pc, c) && AtSetUp(r.pc) && OkFits(r) && r.code == None && HandleOrder(r)
    ensures OkFollows(r, cfg, sh, g, c, StepSetUp(r, id, sh, g, c).run)
  {
    hide Accepts, Released;
  }

  lemma LaterOk(r: Run, cfg: Settings, sh: Shared, g: Globals, c: Choice, s: Moved)
    requires Fits(r.pc, c) && r.pc > WAIT && OkFits(r) && Effect(r, cfg, sh, g, s)
    ensures OkFollows(r, cfg, sh, g, c, s.run)
  {
    hide Accepts, IsSafeTarget;
  }

  lemma StepOk(r: Run, id: nat, cfg: Settings, sh: Shared, g: Globals, c: Choice)
    requires Fits(r.pc, c) && PlaceFits(r, cfg) && OkFits(r)
    ensures OkFollows(r, cfg, sh, g, c, Step(r, id, cfg, sh, g, c).run)
  {
    hide OkFollows, Effect, StepGate, StepDial, StepSetUp, StepFinal, StepTearDown, StepReport, ConfirmationFits, OutcomeFits,
         DirectFits, DialFits, Released;
    if AtGate(r.pc) {
      GateOk(r, cfg, sh, g, c);
    } else if AtDial(r.pc) {
      DialOk(r, cfg, sh, g, c);
    } else if AtSetUp(r.pc) {
      SetUpOk(r, id, cfg, sh, g, c);
    } else {
      StepEffects(r, id, cfg, sh, g, c);
      LaterOk(r, cfg, sh, g, c, Step(r, id, cfg, sh, g, c));
    }
  }

  // ---------------------------------------------------------------- one event

  lemma StartedNow(w: World, e: Event, i: nat)
    requires Enabled(w, e) && |w.runs| <= i < |Apply(w, e).runs|
    ensures e.StartRequest? && e.chan < |w.chans|
    ensures Apply(w, e).runs[i] == NewRun(w.chans[e.chan].conn, e.chan, e.kind, e.command)
  {
    hide Step, StoreEnv, TakesTicket;
  }

  lemma SteppedNow(w: World, e: Event, i: nat)
    requires Enabled(w, e) && e.Steps? && e.run == i
    ensures i < |w.runs| && i < |Apply(w, e).runs| && w.runs[i].conn < |w.conns| && Fits(w.runs[i].pc, e.choice)
    ensures var cn := w.conns[w.runs[i].conn];
            && Apply(w, e).runs[i] == Step(w.runs[i], i, cn.cfg, cn.shared, w.globals, e.choice).run
            && Apply(w, e).globals == Step(w.runs[i], i, cn.cfg, cn.shared, w.globals, e.choice).globals
            && |Apply(w, e).conns| == |w.conns| && Apply(w, e).conns[w.runs[i].conn].cfg == cn.cfg
  {
    hide Step, TakesTicket;
  }

  lemma UntouchedNow(w: World, e: Event, i: nat)
    requires Enabled(w, e) && i < |w.runs| && !(e.Steps? && e.run == i)
    ensures i < |Apply(w, e).runs| && Apply(w, e).runs[i] == w.runs[i].(captured := Apply(w, e).runs[i].captured)
  {
    hide Step, StoreEnv, TakesTicket;
    if !e.Steps? {
      OtherEventsKeepRuns(w, e, i);
    }
  }

  lemma ConfigKept(w: World, e: Event, c: nat)
    requires Enabled(w, e) && c < |w.conns|
    ensures c < |Apply(w, e).conns| && Apply(w, e).conns[c].cfg == w.conns[c].cfg
  {
    hide Step, StoreEnv, TakesTicket;
    if !e.Steps? {
      OtherEventsKeepConns(w, e, c);
    }
  }

  lemma RunInvariant(events: seq<Event>, w: World, i: nat)
    requires Reaches(events, w) && i < |w.runs|
    ensures w.runs[i].conn < |w.conns| && PlaceFits(w.runs[i], w.conns[w.runs[i].conn].cfg)
  {
    InvariantAlways(events, w);
    hide Reaches, Wired, FlagsHaveEvidence, HandlesHold, MetricsHold, ChansHold, RoutesHold, TicketsHold, CapturesHold,
         PlaceFits, GateHolds;
    assert RunHolds(w, i);
  }

  // ---------------------------------------------------------------- success, failure, rejection

  ghost predicate StumblesNow(w: World, e: Event, i: nat) {
    && e.Steps? && e.run == i && i < |w.runs| && w.runs[i].conn < |w.conns|
    && Stumbles(w.runs[i], w.conns[w.runs[i].conn].cfg, w.conns[w.runs[i].conn].shared, w.globals, e.choice)
  }

  ghost predicate StumblesAt(events: seq<Event>, k: nat, i: nat)
    requires k < |events|
  {
    var before := Execute(INITIAL, events[..k]);
    before.Some? && StumblesNow(before.value, events[k], i)
  }

  /** Some event made run i stumble. */
  ghost predicate Stumbled(events: seq<Event>, i: nat) {
    exists k: nat :: k < |events| && StumblesAt(events, k, i)
  }

  lemma StumbledAppend(events: seq<Event>, before: World, i: nat)
    requires events != [] && Execute(INITIAL, events[..|events| - 1]) == Some(before)
    ensures Stumbled(events, i) <==> Stumbled(events[..|events| - 1], i) || StumblesNow(before, events[|events| - 1], i)
  {
    hide StumblesNow, Execute;
    var n := |events| - 1;
    forall k: nat | k < n ensures StumblesAt(events[..n], k, i) <==> StumblesAt(events, k, i) {
      assert events[..n][..k] == events[..k];
    }
    assert StumblesAt(events, n, i) <==> StumblesNow(before, events[n], i);
    if Stumbled(events[..n], i) {
      var k: nat :| k < n && StumblesAt(events[..n], k, i);
      assert StumblesAt(events, k, i);
    }
    if Stumbled(events, i) && !StumblesNow(before, events[n], i) {
      var k: nat :| k < |events| && StumblesAt(events, k, i);
      assert StumblesAt(events[..n], k, i);
    }
  }

  /** A run is failing exactly when it has stumbled or is not allowed. */
  lemma {:induction false} OkIff(events: seq<Event>, w: World, i: nat)
    requires Reaches(events, w) && i < |w.runs| && w.runs[i].conn < |w.conns|
    ensures OkFits(w.runs[i])
    ensures w.runs[i].ok <==>
              !Stumbled(events, i) && !(w.runs[i].pc != START && Banned(w.runs[i], w.conns[w.runs[i].conn].cfg))
  {
    hide Reaches, Enabled, Apply, RunsHold, Wired, Stumbles, Stumbled, PlaceFits, Step;
    if events == [] {
      NothingYet(w);
      assert false;
    } else {
      var n := |events| - 1;
      var before, e := LastStep(events, w);
      StumbledAppend(events, before, i);
      if i >= |before.runs| {
        StartedNow(before, e, i);
        NeverStumbled(events[..n], before, i);
      } else {
        RunInvariant(events[..n], before, i);
        OkIff(events[..n], before, i);
        ConfigKept(before, e, before.runs[i].conn);
        if e.Steps? && e.run == i {
          var cn := before.conns[before.runs[i].conn];
          SteppedNow(before, e, i);
          StepOk(before.runs[i], i, cn.cfg, cn.shared, before.globals, e.choice);
          StepKind(before.runs[i], i, cn.cfg, cn.shared, before.globals, e.choice);
        } else {
          UntouchedNow(before, e, i);
        }
      }
    }
  }

  /** A step keeps whose run it is and leaves the start for good. */
  lemma StepKind(r: Run, id: nat, cfg: Settings, sh: Shared, g: Globals, c: Choice)
    requires Fits(r.pc, c) && PlaceFits(r, cfg)
    ensures SameRun(r, Step(r, id, cfg, sh, g, c).run)
    ensures Step(r, id, cfg, sh, g, c).run.pc != START
    ensures r.pc != START ==> !Banned(r, cfg) || !r.ok
  {
    hide ConfirmationFits, OutcomeFits, CodeFits, DialFits, HandleOrder, Step, SameRun;
    StepPlace(r, id, cfg, sh, g, c);
    hide Effect;
    StepProgress(r, id, cfg, sh, g, c);
  }

  lemma {:induction false} NeverStumbled(events: seq<Event>, w: World, i: nat)
    requires Reaches(events, w) && i >= |w.runs|
    ensures !Stumbled(events, i)
  {
    hide Reaches, Enabled, Apply, RunsHold, Wired, Stumbles, Stumbled;
    if events == [] {
      NoEvents(i);
    } else {
      var before, e := LastStep(events, w);
      ConnsGrow(before, e);
      NeverStumbled(events[..|events| - 1], before, i);
      StumbledAppend(events, before, i);
    }
  }

  lemma NoEvents(i: nat)
    ensures !Stumbled([], i)
  {
  }

  // ---------------------------------------------------------------- how many steps a run takes

  /** How far a run is; every step of it gets further. */
  function Progress(r: Run): nat { r.pc + 2 * r.attempt }

  /** No attempt is made beyond the last round. */
  predicate AttemptFits(r: Run, cfg: Settings) {
    var most := Attempts(1 + cfg.routes.retries, |r.targets|);
    && r.attempt <= most
    && (r.pc == DIALING ==> r.attempt < most)
  }

  lemma StepProgress(r: Run, id: nat, cfg: Settings, sh: Shared, g: Globals, c: Choice)
    requires Fits(r.pc, c) && PlaceFits(r, cfg)
    ensures var s := Step(r, id, cfg, sh, g, c);
            Progress(s.run) >= Progress(r) && (Progress(s.run) > Progress(r) || s.globals.crashed)
    ensures Step(r, id, cfg, sh, g, c).run.pc > START
  {
    hide StepGate, StepDial, StepSetUp, StepFinal, StepTearDown, StepReport, ConfirmationFits, OutcomeFits, CodeFits, DirectFits,
         DialFits, HandleOrder, GateEffect, DialEffect;
    StepEffects(r, id, cfg, sh, g, c);
    if AtGate(r.pc) {
      GateProgress(r, cfg, sh, g, c);
    } else if AtDial(r.pc) {
      DialProgress(r, cfg, sh, g, c);
    }
  }

  lemma GateProgress(r: Run, cfg: Settings, sh: Shared, g: Globals, c: Choice)
    requires Fits(r.pc, c) && AtGate(r.pc)
    ensures StepGate(r, cfg, sh, g, c).run.pc > r.pc && StepGate(r, cfg, sh, g, c).run.attempt == r.attempt
  {
    hide IdentityAccepted;
  }

  lemma DialProgress(r: Run, cfg: Settings, sh: Shared, g: Globals, c: Choice)
    requires Fits(r.pc, c) && AtDial(r.pc)
    ensures var s := StepDial(r, cfg, sh, g, c);
            && s.run.pc > START
            && Progress(s.run) >= Progress(r) && (Progress(s.run) > Progress(r) || s.globals.crashed)
  {
    hide ResolveTargetAddress, ResolveTargetCandidates, NextTarget, Attempts, TakesTicket;
  }

  lemma StepAttempts(r: Run, id: nat, cfg: Settings, sh: Shared, g: Globals, c: Choice)
    requires Fits(r.pc, c) && PlaceFits(r, cfg) && AttemptFits(r, cfg)
    ensures AttemptFits(Step(r, id, cfg, sh, g, c).run, cfg)
  {
    hide StepGate, StepDial, StepSetUp, StepFinal, StepTearDown, StepReport, ConfirmationFits, OutcomeFits, CodeFits, DirectFits,
         HandleOrder, GateEffect, DialEffect, Attempts, AttemptFits, IsSafeTarget;
    StepEffects(r, id, cfg, sh, g, c);
    if AtGate(r.pc) {
      GateAttempts(r, cfg, sh, g, c);
    } else if AtDial(r.pc) {
      DialAttempts(r, cfg, sh, g, c);
    } else {
      OtherAttempts(r, Step(r, id, cfg, sh, g, c).run, cfg);
    }
  }

  lemma OtherAttempts(r: Run, s: Run, cfg: Settings)
    requires AttemptFits(r, cfg) && s.attempt == r.attempt && s.targets == r.targets && s.pc != DIALING
    ensures AttemptFits(s, cfg)
  {
    hide Attempts;
  }

  lemma GateAttempts(r: Run, cfg: Settings, sh: Shared, g: Globals, c: Choice)
    requires Fits(r.pc, c) && AtGate(r.pc) && AttemptFits(r, cfg)
    ensures AttemptFits(StepGate(r, cfg, sh, g, c).run, cfg)
  {
    hide IdentityAccepted, Attempts;
  }

  lemma DialAttempts(r: Run, cfg: Settings, sh: Shared, g: Globals, c: Choice)
    requires Fits(r.pc, c) && AtDial(r.pc) && AttemptFits(r, cfg) && (r.pc == RESOLVE ==> r.attempt == 0)
    ensures AttemptFits(StepDial(r, cfg, sh, g, c).run, cfg)
  {
    hide ResolveTargetAddress, ResolveTargetCandidates, NextTarget, Attempts, TakesTicket;
  }

  /** How many steps run i has taken. */
  function StepsOf(events: seq<Event>, i: nat): nat {
    if events == [] then 0
    else
      var e := events[|events| - 1];
      StepsOf(events[..|events| - 1], i) + if e.Steps? && e.run == i then 1 else 0
  }

  lemma {:induction false} NoStepsYet(events: seq<Event>, w: World, i: nat)
    requires Reaches(events, w) && i >= |w.runs|
    ensures StepsOf(events, i) == 0
  {
    hide Reaches, Enabled, Apply, RunsHold, Wired;
    if events != [] {
      var before, e := LastStep(events, w);
      ConnsGrow(before, e);
      NoStepsYet(events[..|events| - 1], before, i);
      StepExists(before, e);
    }
  }

  lemma StepExists(w: World, e: Event)
    requires Enabled(w, e)
    ensures e.Steps? ==> e.run < |w.runs|
  {
  }

  lemma {:induction false} StepsAreProgress(events: seq<Event>, w: World, i: nat)
    requires Reaches(events, w) && i < |w.runs| && w.runs[i].conn < |w.conns|
    ensures AttemptFits(w.runs[i], w.conns[w.runs[i].conn].cfg)
    ensures StepsOf(events, i) <= Progress(w.runs[i]) + if w.globals.crashed then 1 else 0
  {
    hide Reaches, Enabled, Apply, RunsHold, Wired, PlaceFits, Step, AttemptFits, Attempts;
    if events == [] {
      NothingYet(w);
      assert false;
    } else {
      var n := |events| - 1;
      var before, e := LastStep(events, w);
      NotCrashedYet(before, e);
      if i >= |before.runs| {
        StartedNow(before, e, i);
        NoStepsYet(events[..n], before, i);
        FreshAttempts(w.runs[i], w.conns[w.runs[i].conn].cfg);
      } else {
        RunInvariant(events[..n], before, i);
        StepsAreProgress(events[..n], before, i);
        ConfigKept(before, e, before.runs[i].conn);
        if e.Steps? && e.run == i {
          var cn := before.conns[before.runs[i].conn];
          SteppedNow(before, e, i);
          StepAttempts(before.runs[i], i, cn.cfg, cn.shared, before.globals, e.choice);
          StepKind(before.runs[i], i, cn.cfg, cn.shared, before.globals, e.choice);
          StepProgress(before.runs[i], i, cn.cfg, cn.shared, before.globals, e.choice);
          KeepsConn(before.runs[i], w.runs[i]);
        } else {
          UntouchedNow(before, e, i);
          SameAttempts(before.runs[i], w.runs[i], before.conns[before.runs[i].conn].cfg);
        }
      }
    }
  }

  lemma KeepsConn(r: Run, s: Run)
    requires SameRun(r, s)
    ensures s.conn == r.conn && s.kind == r.kind && s.command == r.command && s.chan == r.chan
  {
  }

  lemma NotCrashedYet(w: World, e: Event)
    requires Enabled(w, e)
    ensures !w.globals.crashed
  {
  }

  lemma FreshAttempts(r: Run, cfg: Settings)
    requires r.attempt == 0 && r.pc == START
    ensures AttemptFits(r, cfg)
  {
    hide Attempts;
    RoundsAreNatural(1 + cfg.routes.retries, |r.targets|);
  }

  lemma RoundsAreNatural(rounds: nat, n: nat)
    ensures Attempts(rounds, n) >= 0
  {
  }

  lemma SameAttempts(r: Run, s: Run, cfg: Settings)
    requires AttemptFits(r, cfg) && s.attempt == r.attempt && s.targets == r.targets && s.pc == r.pc
    ensures AttemptFits(s, cfg)
  {
    hide Attempts;
  }

  /** Every session ends: a run takes at most 35 steps and two more for every attempt there can be, and
      until it has returned it can take one, whatever the other sessions do. */
  lemma EveryRunEnds(events: seq<Event>, w: World, i: nat)
    requires Reaches(events, w) && i < |w.runs|
    ensures w.runs[i].conn < |w.conns|
    ensures StepsOf(events, i) <= 35 + 2 * Attempts(1 + w.conns[w.runs[i].conn].cfg.routes.retries, |w.runs[i].targets|)
    ensures w.runs[i].pc != DONE && !w.globals.crashed ==> exists c :: Enabled(w, Event.Steps(i, c))
  {
    hide Reaches, StepsOf, PlaceFits, Attempts;
    RunInvariant(events, w, i);
    StepsAreProgress(events, w, i);
    if w.runs[i].pc != DONE && !w.globals.crashed {
      RunInChan(events, w, i);
      var c := AnswerFor(w.runs[i].pc);
      assert Enabled(w, Event.Steps(i, c));
    }
  }

  lemma RunInChan(events: seq<Event>, w: World, i: nat)
    requires Reaches(events, w) && i < |w.runs|
    ensures w.runs[i].conn < |w.conns| && w.runs[i].chan < |w.chans|
  {
    InvariantAlways(events, w);
    hide Reaches, RunsHold, FlagsHaveEvidence, HandlesHold, MetricsHold, ChansHold, RoutesHold, TicketsHold, CapturesHold;
    assert RunWired(w, i);
  }

  /** Some answer the environment can give at a place. */
  function AnswerFor(pc: PC): (c: Choice)
    requires pc != DONE
    ensures Fits(pc, c)
  {
    if pc == FLOW then FlowResult(None)
    else if pc == RESOLVE then Heuristic("")
    else if pc == DIALING || pc == NEW_SESSION || pc == NEW_RECORDER || pc == SETUP || pc == LAUNCH then Try(false)
    else if pc == WAIT then Ended(Broken)
    else Go
  }

  // ---------------------------------------------------------------- the end of the remote session

  function EndOf(i: nat, ending: Ending): Event { Event.Steps(i, Ended(ending)) }

  /** What a run's account says about how its remote session ended. */
  ghost predicate EndFits(events: seq<Event>, i: nat, r: Run) {
    && (forall s :: EndOf(i, Exited(s)) in events <==> r.code == Some(s) && r.ok)
    && (EndOf(i, Broken) in events ==> !r.ok && r.code == Some(1))
  }

  lemma StepEnds(r: Run, id: nat, cfg: Settings, sh: Shared, g: Globals, c: Choice)
    requires Fits(r.pc, c) && PlaceFits(r, cfg) && OkFits(r)
    ensures var s := Step(r, id, cfg, sh, g, c).run;
            match c
            case Ended(Exited(status)) => r.code == None && s.code == Some(status) && s.ok
            case Ended(Broken) => r.code == None && s.code == Some(1) && !s.ok
            case _ => s.code == r.code && (r.code.Some? ==> s.ok == r.ok)
  {
    hide Effect, Stumbles, ConfirmationFits, OutcomeFits, DirectFits, DialFits, HandleOrder, Step, OkFits;
    StepOk(r, id, cfg, sh, g, c);
    if AtSetUp(r.pc) {
      AtSetUpStep(r, id, cfg, sh, g, c);
      SetUpCode(r, id, sh, g, c);
    } else {
      StepEffects(r, id, cfg, sh, g, c);
      CodeKept(r, cfg, sh, g, c, Step(r, id, cfg, sh, g, c));
    }
  }

  lemma AtSetUpStep(r: Run, id: nat, cfg: Settings, sh: Shared, g: Globals, c: Choice)
    requires AtSetUp(r.pc) && Fits(r.pc, c)
    ensures Step(r, id, cfg, sh, g, c) == StepSetUp(r, id, sh, g, c)
  {
    hide StepSetUp;
  }

  lemma SetUpCode(r: Run, id: nat, sh: Shared, g: Globals, c: Choice)
    requires AtSetUp(r.pc) && Fits(r.pc, c) && CodeFits(r)
    ensures var s := StepSetUp(r, id, sh, g, c).run;
            && r.code == None
            && (c.Ended? <==> r.pc == WAIT)
            && s.code == (if r.pc != WAIT then None else match c.ending case Exited(status) => Some(status) case Broken => Some(1))
            && (r.pc == WAIT ==> (s.ok <==> c.ending.Exited?))
  {
  }

  lemma CodeKept(r: Run, cfg: Settings, sh: Shared, g: Globals, c: Choice, s: Moved)
    requires Fits(r.pc, c) && !AtSetUp(r.pc) && CodeFits(r) && Effect(r, cfg, sh, g, s)
    ensures !c.Ended? && s.run.code == r.code && (r.code.Some? ==> s.run.ok == r.ok)
  {
    hide IsSafeTarget;
  }

  lemma {:induction false} EndHolds(events: seq<Event>, w: World, i: nat)
    requires Reaches(events, w) && i < |w.runs| && w.runs[i].conn < |w.conns|
    ensures EndFits(events, i, w.runs[i])
  {
    hide Reaches, Enabled, Apply, RunsHold, Wired, PlaceFits, Step, Stumbled;
    if events == [] {
      NothingYet(w);
      assert false;
    } else {
      var n := |events| - 1;
      var before, e := LastStep(events, w);
      assert events == events[..n] + [e];
      if i >= |before.runs| {
        StartedNow(before, e, i);
        NoEndYet(events[..n], before, i);
      } else {
        RunInvariant(events[..n], before, i);
        OkIff(events[..n], before, i);
        EndHolds(events[..n], before, i);
        if e.Steps? && e.run == i {
          var cn := before.conns[before.runs[i].conn];
          SteppedNow(before, e, i);
          StepEnds(before.runs[i], i, cn.cfg, cn.shared, before.globals, e.choice);
        } else {
          UntouchedNow(before, e, i);
        }
      }
    }
  }

  lemma {:induction false} NoEndYet(events: seq<Event>, w: World, i: nat)
    requires Reaches(events, w) && i >= |w.runs|
    ensures forall ending :: EndOf(i, ending) !in events
  {
    hide Reaches, Enabled, Apply, RunsHold, Wired;
    if events != [] {
      var n := |events| - 1;
      var before, e := LastStep(events, w);
      assert events == events[..n] + [e];
      ConnsGrow(before, e);
      NoEndYet(events[..n], before, i);
      StepExists(before, e);
    }
  }

  /** Exactly: of the sessions that have returned, one was rejected when it was a direct command that is
      not allowed, one succeeded when its remote session exited, with whatever status, and one failed
      when it stumbled. The channel got the remote status, or 1. */
  lemma FinishedOutcome(events: seq<Event>, w: World, i: nat)
    requires Reaches(events, w) && i < |w.runs| && w.runs[i].pc == DONE
    ensures w.runs[i].conn < |w.conns| && w.runs[i].chan < |w.chans| && |w.chans[w.runs[i].chan].out| >= 1
    ensures var r := w.runs[i];
            var status := w.chans[r.chan].out[0];
            && (r.outcome == Some(Rejected) <==> Banned(r, w.conns[r.conn].cfg))
            && (r.outcome == Some(Failure) <==> !Banned(r, w.conns[r.conn].cfg) && Stumbled(events, i))
            && (r.outcome == Some(Success) <==> exists s :: EndOf(i, Exited(s)) in events)
            && (r.outcome == Some(Success) ==> r.launched && r.acquired == 3)
            && (forall s :: EndOf(i, Exited(s)) in events ==> status == ExitStatus(s))
            && (r.outcome != Some(Success) ==> status == ExitStatus(1))
  {
    hide Reaches, PlaceFits, Stumbled;
    RunInvariant(events, w, i);
    RunInChan(events, w, i);
    OkIff(events, w, i);
    EndHolds(events, w, i);
    FinishedRunsReportOnce(events, w, i);
    DoneOutcome(w.runs[i], w.conns[w.runs[i].conn].cfg);
    var r := w.runs[i];
    if r.ok {
      assert EndOf(i, Exited(r.code.value)) in events;
    }
  }

  lemma DoneOutcome(r: Run, cfg: Settings)
    requires PlaceFits(r, cfg) && r.pc == DONE
    ensures r.outcome == Some(Rejected) <==> Banned(r, cfg)
    ensures r.outcome == Some(Success) <==> r.ok
    ensures r.outcome == Some(Failure) <==> !Banned(r, cfg) && !r.ok
    ensures r.ok ==> r.code.Some?
    ensures r.launched ==> r.acquired == 3
    ensures Banned(r, cfg) ==> !r.ok
  {
    hide ConfirmationFits, DialFits, HandleOrder;
    match r.outcome.value
    case Success =>
    case Failure =>
    case Rejected =>
  }

  // ---------------------------------------------------------------- no needless confirmation

  predicate InGateWait(pc: PC) { WAIT_BEGIN <= pc <= WAIT_END }

  /** A run that was never asked for a confirmation. */
  predicate Unasked(r: Run) { r.confirmation == NotTried && !InGateWait(r.pc) }

  /** A step asks for a confirmation only when SSO is on and the connection is not verified yet. */
  lemma StepUnasked(r: Run, id: nat, cfg: Settings, sh: Shared, g: Globals, c: Choice)
    requires Fits(r.pc, c) && PlaceFits(r, cfg) && Unasked(r) && (!cfg.ssoEnabled || sh.verified)
    ensures Unasked(Step(r, id, cfg, sh, g, c).run)
  {
    hide StepGate, StepDial, StepSetUp, StepFinal, StepTearDown, StepReport, OutcomeFits, CodeFits, DirectFits, DialFits,
         ConfirmationFits, HandleOrder, GateEffect;
    if AtGate(r.pc) {
      GateUnasked(r, cfg, sh, g, c);
    } else {
      StepEffects(r, id, cfg, sh, g, c);
    }
  }

  lemma GateUnasked(r: Run, cfg: Settings, sh: Shared, g: Globals, c: Choice)
    requires Fits(r.pc, c) && AtGate(r.pc) && Unasked(r) && (!cfg.ssoEnabled || sh.verified)
    ensures Unasked(StepGate(r, cfg, sh, g, c).run)
  {
    hide IdentityAccepted;
  }

  /** With SSO off no session is ever asked for a confirmation. */
  lemma {:induction false} OffMeansUnasked(events: seq<Event>, w: World, i: nat)
    requires Reaches(events, w) && i < |w.runs| && w.runs[i].conn < |w.conns| && !w.conns[w.runs[i].conn].cfg.ssoEnabled
    ensures Unasked(w.runs[i])
  {
    hide Reaches, Enabled, Apply, RunsHold, Wired, PlaceFits, Step;
    if events == [] {
      NothingYet(w);
      assert false;
    } else {
      var n := |events| - 1;
      var before, e := LastStep(events, w);
      if i >= |before.runs| {
        StartedNow(before, e, i);
      } else {
        RunInvariant(events[..n], before, i);
        ConfigKept(before, e, before.runs[i].conn);
        RunKept(before, e, i);
        OffMeansUnasked(events[..n], before, i);
        if e.Steps? && e.run == i {
          var cn := before.conns[before.runs[i].conn];
          SteppedNow(before, e, i);
          StepUnasked(before.runs[i], i, cn.cfg, cn.shared, before.globals, e.choice);
        } else {
          UntouchedNow(before, e, i);
        }
      }
    }
  }

  /** One confirmation is enough for a connection: a session that passes the gate after the connection
      was verified is not asked again. */
  lemma {:induction false} OneConfirmationIsEnough(first: seq<Event>, rest: seq<Event>, v: World, w: World, c: nat, i: nat)
    requires Reaches(first, v) && Reaches(first + rest, w) && c < |v.conns| && v.conns[c].shared.verified
    requires i < |w.runs| && w.runs[i].conn == c && (i < |v.runs| ==> v.runs[i].pc <= GATE)
    ensures Unasked(w.runs[i])
  {
    hide Enabled, Apply, RunsHold, Wired, PlaceFits, Step;
    if rest == [] {
      assert first + rest == first;
      RunInvariant(first, v, i);
      AtGateUnasked(v.runs[i], v.conns[c].cfg);
    } else {
      hide Execute;
      var n := |rest| - 1;
      var events := first + rest;
      assert events[..|events| - 1] == first + rest[..n];
      var before, e := LastStep(events, w);
      if i >= |before.runs| {
        StartedNow(before, e, i);
      } else {
        RunInvariant(first + rest[..n], before, i);
        RunKept(before, e, i);
        VerifiedNeverLowered(first, rest[..n], v, before, c);
        OneConfirmationIsEnough(first, rest[..n], v, before, c, i);
        if e.Steps? && e.run == i {
          var cn := before.conns[c];
          SteppedNow(before, e, i);
          StepUnasked(before.runs[i], i, cn.cfg, cn.shared, before.globals, e.choice);
        } else {
          UntouchedNow(before, e, i);
        }
      }
    }
  }

  lemma AtGateUnasked(r: Run, cfg: Settings)
    requires PlaceFits(r, cfg) && r.pc <= GATE
    ensures Unasked(r)
  {
    hide OutcomeFits, CodeFits, DirectFits, DialFits, HandleOrder;
  }

  // ---------------------------------------------------------------- what a run works on

  /** Run i resolved its candidates at event k, from the state as it was then. */
  ghost predicate ResolvedAt(events: seq<Event>, k: nat, w: World, i: nat)
    requires k < |events| && i < |w.runs| && w.runs[i].conn < |w.conns|
  {
    var before := Execute(INITIAL, events[..k]);
    before.Some? && ResolvedNow(before.value, events[k], w, i)
  }

  ghost predicate ResolvedNow(u: World, e: Event, w: World, i: nat)
    requires i < |w.runs| && w.runs[i].conn < |w.conns|
  {
    var r := w.runs[i];
    && e.Steps? && e.run == i && e.choice.Heuristic? && r.conn < |u.conns|
    && ResolveTargetCandidates(w.conns[r.conn].cfg.routes, u.conns[r.conn].shared.env, r.command, e.choice.fromCommand, u.globals.counter)
       == Ok(r.targets)
  }

  /** The candidates of a run are what candidate resolution gave at one moment of it. */
  ghost predicate HasResolved(events: seq<Event>, w: World, i: nat)
    requires i < |w.runs| && w.runs[i].conn < |w.conns|
  {
    exists k: nat :: k < |events| && ResolvedAt(events, k, w, i)
  }

  lemma StepResolves(r: Run, id: nat, cfg: Settings, sh: Shared, g: Globals, c: Choice)
    requires Fits(r.pc, c) && PlaceFits(r, cfg)
    ensures var s := Step(r, id, cfg, sh, g, c).run;
            || s.targets == r.targets
            || (c.Heuristic? && ResolveTargetCandidates(cfg.routes, sh.env, r.command, c.fromCommand, g.counter) == Ok(s.targets))
  {
    hide StepGate, StepDial, StepSetUp, StepFinal, StepTearDown, StepReport, OutcomeFits, CodeFits, DirectFits, DialFits,
         ConfirmationFits, HandleOrder, DialEffect;
    if AtDial(r.pc) {
      DialResolves(r, cfg, sh, g, c);
    } else {
      StepEffects(r, id, cfg, sh, g, c);
    }
  }

  lemma DialResolves(r: Run, cfg: Settings, sh: Shared, g: Globals, c: Choice)
    requires Fits(r.pc, c) && AtDial(r.pc)
    ensures var s := StepDial(r, cfg, sh, g, c).run;
            || s.targets == r.targets
            || (c.Heuristic? && ResolveTargetCandidates(cfg.routes, sh.env, r.command, c.fromCommand, g.counter) == Ok(s.targets))
  {
    hide ResolveTargetAddress, ResolveTargetCandidates, NextTarget, Attempts, TakesTicket;
  }

  lemma SameResolved(events: seq<Event>, before: World, w: World, i: nat)
    requires events != [] && i < |before.runs| && before.runs[i].conn < |before.conns| && i < |w.runs| && w.runs[i].conn < |w.conns|
    requires HasResolved(events[..|events| - 1], before, i)
    requires w.runs[i].targets == before.runs[i].targets && w.runs[i].conn == before.runs[i].conn
    requires w.runs[i].command == before.runs[i].command && w.conns[w.runs[i].conn].cfg == before.conns[before.runs[i].conn].cfg
    ensures HasResolved(events, w, i)
  {
    hide Execute, ResolveTargetCandidates;
    var n := |events| - 1;
    var k: nat :| k < n && ResolvedAt(events[..n], k, before, i);
    assert events[..n][..k] == events[..k];
    assert ResolvedAt(events, k, w, i);
  }

  lemma {:induction false} CandidatesAreResolved(events: seq<Event>, w: World, i: nat)
    requires Reaches(events, w) && i < |w.runs| && w.runs[i].conn < |w.conns| && w.runs[i].targets != []
    ensures HasResolved(events, w, i)
  {
    hide Reaches, Enabled, Apply, RunsHold, Wired, PlaceFits, Step, HasResolved, ResolveTargetCandidates;
    if events == [] {
      NothingYet(w);
      assert false;
    } else {
      var n := |events| - 1;
      var before, e := LastStep(events, w);
      if i >= |before.runs| {
        StartedNow(before, e, i);
      } else {
        RunInvariant(events[..n], before, i);
        ConfigKept(before, e, before.runs[i].conn);
        RunKept(before, e, i);
        if e.Steps? && e.run == i {
          var cn := before.conns[before.runs[i].conn];
          SteppedNow(before, e, i);
          StepKind(before.runs[i], i, cn.cfg, cn.shared, before.globals, e.choice);
          KeepsConn(before.runs[i], w.runs[i]);
          StepResolves(before.runs[i], i, cn.cfg, cn.shared, before.globals, e.choice);
        } else {
          UntouchedNow(before, e, i);
        }
        if w.runs[i].targets == before.runs[i].targets {
          CandidatesAreResolved(events[..n], before, i);
          SameResolved(events, before, w, i);
        } else {
          ResolvesNow(events, before, w, i);
        }
      }
    }
  }

  lemma ResolvesNow(events: seq<Event>, before: World, w: World, i: nat)
    requires events != [] && i < |w.runs| && w.runs[i].conn < |w.conns|
    requires Execute(INITIAL, events[..|events| - 1]) == Some(before) && ResolvedNow(before, events[|events| - 1], w, i)
    ensures HasResolved(events, w, i)
  {
    hide ResolvedNow, Execute;
    assert ResolvedAt(events, |events| - 1, w, i);
  }

  /** With static routing in failover mode a session tries the configured servers in their order. */
  lemma FailoverKeepsOrder(events: seq<Event>, w: World, i: nat)
    requires Reaches(events, w) && i < |w.runs| && w.runs[i].conn < |w.conns| && w.runs[i].targets != []
    requires var routes := w.conns[w.runs[i].conn].cfg.routes; routes.staticEnabled && Folded(routes.mode) in {"", FAILOVER}
    ensures w.runs[i].targets == w.conns[w.runs[i].conn].cfg.routes.targets
  {
    hide Reaches, Folded, ResolveTargetCandidates, Execute;
    CandidatesAreResolved(events, w, i);
    var k: nat :| k < |events| && ResolvedAt(events, k, w, i);
    var u := Execute(INITIAL, events[..k]).value;
    var r := w.runs[i];
    var routes := w.conns[r.conn].cfg.routes;
    NoServersNoCandidates(routes, u.conns[r.conn].shared.env, r.command, events[k].choice.fromCommand, u.globals.counter);
    FailoverCandidates(routes, u.conns[r.conn].shared.env, r.command, events[k].choice.fromCommand, u.globals.counter);
  }

  lemma NoServersNoCandidates(cfg: RouteConfig, env: map<string, string>, command: string, fromCommand: string, ticket: nat)
    requires cfg.staticEnabled && ticket < WORD64
    ensures cfg.targets == [] ==> ResolveTargetCandidates(cfg, env, command, fromCommand, ticket) == Err(NoServers)
  {
  }

  /** With dynamic routing a session has one candidate: the server variable of its connection as it was
      at one moment, or what its command names when that was blank. */
  lemma DynamicRunsFollowTheVariable(events: seq<Event>, w: World, i: nat)
    requires Reaches(events, w) && i < |w.runs| && w.runs[i].conn < |w.conns| && w.runs[i].targets != []
    requires !w.conns[w.runs[i].conn].cfg.routes.staticEnabled
    ensures |w.runs[i].targets| == 1 && exists t :: Spells(w.runs[i].targets[0], t)
    ensures exists k: nat, u: World ::
              && k < |events| && Execute(INITIAL, events[..k]) == Some(u)
              && events[k].Steps? && events[k].choice.Heuristic? && w.runs[i].conn < |u.conns|
              && var value := TrimSpace(Lookup(u.conns[w.runs[i].conn].shared.env, SERVER_VARIABLE));
                 w.runs[i].targets[0] == if value != "" then value else events[k].choice.fromCommand
  {
    hide Reaches, ResolveTargetCandidates, Execute, Spells, TrimSpace, Lookup;
    CandidatesAreResolved(events, w, i);
    var k: nat :| k < |events| && ResolvedAt(events, k, w, i);
    var u := Execute(INITIAL, events[..k]).value;
    var r := w.runs[i];
    DynamicCandidates(w.conns[r.conn].cfg.routes, u.conns[r.conn].shared.env, r.command, events[k].choice.fromCommand,
                      u.globals.counter, r.targets);
    assert Execute(INITIAL, events[..k]) == Some(u);
  }
}
