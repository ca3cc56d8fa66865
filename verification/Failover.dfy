/** Failover in the interleaved system: whatever the other sessions do, the attempts of each session
    goroutine are those of the failover loop that the session state object runs on its own. */
module Failover {
  import opened Text
  import opened Address
  import opened Routing
  import opened Steps
  import opened Proxy
  import opened ProxySafety
  import opened Handles
  import opened Outcomes
  import Session

  // ---------------------------------------------------------------- the attempts of a run

  /** The attempt that a step of a run settles, if any. */
  function TriedBy(r: Run, cfg: Settings, c: Choice): seq<Session.Attempt> {
    if r.pc == DIAL && r.targets != [] && r.attempt < Attempts(1 + cfg.routes.retries, |r.targets|) then
      if ResolveTargetAddress(NextTarget(r.targets, r.attempt), cfg.user).Err?
      then [Session.BadAddress(NextTarget(r.targets, r.attempt))] else []
    else if r.pc == DIALING && r.dialled.Some? && c.Try? then
      [if c.ok then Session.Connected(r.dialled.value) else Session.Failed(r.dialled.value)]
    else []
  }

  /** The attempts of run i, in order. */
  function Tried(events: seq<Event>, i: nat): seq<Session.Attempt> {
    if events == [] then []
    else
      var n := |events| - 1;
      Tried(events[..n], i)
      + match Execute(INITIAL, events[..n])
        case None => []
        case Some(before) => TriedNow(before, events[n], i)
  }

  function TriedNow(w: World, e: Event, i: nat): seq<Session.Attempt> {
    if e.Steps? && e.run == i && i < |w.runs| && w.runs[i].conn < |w.conns|
    then TriedBy(w.runs[i], w.conns[w.runs[i].conn].cfg, e.choice) else []
  }

  /** The outcomes of the dials, as the failover loop's oracle. */
  function DialerOf(tried: seq<Session.Attempt>): Session.Dialer {
    (k: nat, t: Target) => k < |tried| && tried[k].Connected?
  }

  // ---------------------------------------------------------------- what every run keeps

  /** Attempt k was one on the k-th target in (round, index) order. */
  predicate InTurn(a: Session.Attempt, targets: seq<string>, user: string, k: nat)
    requires targets != []
  {
    match ResolveTargetAddress(NextTarget(targets, k), user)
    case Err(_) => a == Session.BadAddress(NextTarget(targets, k))
    case Ok(t) => a == Session.Connected(t) || a == Session.Failed(t)
  }

  predicate NoneConnected(tried: seq<Session.Attempt>) { forall k | 0 <= k < |tried| :: !tried[k].Connected? }

  /** All attempts were in turn, and only the last one can have connected. */
  predicate AllInTurn(tried: seq<Session.Attempt>, targets: seq<string>, user: string)
    requires targets != []
  {
    && (forall k | 0 <= k < |tried| :: InTurn(tried[k], targets, user, k))
    && (forall k | 0 <= k < |tried| - 1 :: !tried[k].Connected?)
  }

  predicate DialHolds(r: Run, cfg: Settings, tried: seq<Session.Attempt>) {
    var most := Attempts(1 + cfg.routes.retries, |r.targets|);
    if r.targets == [] then tried == [] && r.pc != DIALING
    else
      && AllInTurn(tried, r.targets, cfg.user)
      && r.pc > RESOLVE
      && (r.pc == DIAL || r.pc == DIALING ==> |tried| == r.attempt <= most && NoneConnected(tried))
      && (r.pc == DIALING ==>
            && r.attempt < most && r.dialled.Some?
            && ResolveTargetAddress(NextTarget(r.targets, r.attempt), cfg.user) == Ok(r.dialled.value))
      && (r.pc > DIALING && r.acquired > 0 ==>
            && 0 < |tried| <= most && r.dialled.Some?
            && tried[|tried| - 1] == Session.Connected(r.dialled.value))
      && (r.pc > DIALING && r.acquired == 0 ==> |tried| == most && NoneConnected(tried))
  }

  lemma OneMoreTry(tried: seq<Session.Attempt>, targets: seq<string>, user: string, a: Session.Attempt)
    requires targets != [] && AllInTurn(tried, targets, user) && NoneConnected(tried)
    requires InTurn(a, targets, user, |tried|)
    ensures AllInTurn(tried + [a], targets, user)
    ensures !a.Connected? ==> NoneConnected(tried + [a])
  {
    hide InTurn;
  }

  lemma DialStepHolds(r: Run, cfg: Settings, sh: Shared, g: Globals, c: Choice, tried: seq<Session.Attempt>)
    requires Fits(r.pc, c) && r.pc == DIAL && r.acquired == 0 && DialHolds(r, cfg, tried)
    ensures DialHolds(StepDial(r, cfg, sh, g, c).run, cfg, tried + TriedBy(r, cfg, c))
  {
    hide ResolveTargetAddress, NextTarget, Attempts, AllInTurn, NoneConnected;
    assert tried + [] == tried;
    if r.targets != [] && r.attempt < Attempts(1 + cfg.routes.retries, |r.targets|) {
      if ResolveTargetAddress(NextTarget(r.targets, r.attempt), cfg.user).Err? {
        OneMoreTry(tried, r.targets, cfg.user, Session.BadAddress(NextTarget(r.targets, r.attempt)));
      }
    }
  }

  lemma DialingStepHolds(r: Run, cfg: Settings, sh: Shared, g: Globals, c: Choice, tried: seq<Session.Attempt>)
    requires Fits(r.pc, c) && r.pc == DIALING && r.acquired == 0 && r.dialled.Some? && DialHolds(r, cfg, tried)
    ensures DialHolds(StepDial(r, cfg, sh, g, c).run, cfg, tried + TriedBy(r, cfg, c))
  {
    hide ResolveTargetAddress, NextTarget, Attempts, AllInTurn, NoneConnected;
    OneMoreTry(tried, r.targets, cfg.user, TriedBy(r, cfg, c)[0]);
  }

  lemma ResolveStepHolds(r: Run, cfg: Settings, sh: Shared, g: Globals, c: Choice, tried: seq<Session.Attempt>)
    requires Fits(r.pc, c) && r.pc == RESOLVE && r.attempt == 0 && r.targets == [] && DialHolds(r, cfg, tried)
    ensures DialHolds(StepDial(r, cfg, sh, g, c).run, cfg, tried + TriedBy(r, cfg, c))
  {
    hide ResolveTargetAddress, ResolveTargetCandidates, NextTarget, Attempts, InTurn, TakesTicket;
  }

  /** Outside the dial phase nothing is tried and what was tried stays. */
  lemma OtherStepHolds(r: Run, id: nat, cfg: Settings, sh: Shared, g: Globals, c: Choice, tried: seq<Session.Attempt>)
    requires Fits(r.pc, c) && PlaceFits(r, cfg) && !AtDial(r.pc) && DialHolds(r, cfg, tried)
    ensures DialHolds(Step(r, id, cfg, sh, g, c).run, cfg, tried + TriedBy(r, cfg, c))
  {
    hide ConfirmationFits, OutcomeFits, CodeFits, DirectFits, Step, AllInTurn, NoneConnected, Attempts, Effect, Released;
    assert tried + [] == tried;
    StepEffects(r, id, cfg, sh, g, c);
    StepHandles(r, id, cfg, sh, g, c);
    OtherPhasesKeepDial(r, cfg, sh, g, Step(r, id, cfg, sh, g, c));
  }

  lemma OtherPhasesKeepDial(r: Run, cfg: Settings, sh: Shared, g: Globals, s: Moved)
    requires !AtDial(r.pc) && r.pc != DONE && HandleOrder(r) && HandleOrder(s.run) && Effect(r, cfg, sh, g, s) && DialFits(r)
    ensures s.run.targets == r.targets && s.run.attempt == r.attempt && s.run.dialled == r.dialled
    ensures r.pc <= RESOLVE ==> r.targets == []
    ensures s.run.pc != DIALING
    ensures r.pc > DIALING ==> s.run.pc > DIALING && (s.run.acquired > 0 <==> r.acquired > 0)
  {
    hide IsSafeTarget, Released;
  }

  lemma StepHolds(r: Run, id: nat, cfg: Settings, sh: Shared, g: Globals, c: Choice, tried: seq<Session.Attempt>)
    requires Fits(r.pc, c) && PlaceFits(r, cfg) && DialHolds(r, cfg, tried)
    ensures DialHolds(Step(r, id, cfg, sh, g, c).run, cfg, tried + TriedBy(r, cfg, c))
  {
    hide StepDial, DialHolds, TriedBy, Step, PlaceFits;
    if AtDial(r.pc) {
      AtDialStep(r, id, cfg, sh, g, c);
      BeforeDial(r, cfg, tried);
      if r.pc == RESOLVE {
        ResolveStepHolds(r, cfg, sh, g, c, tried);
      } else if r.pc == DIAL {
        DialStepHolds(r, cfg, sh, g, c, tried);
      } else {
        DialingStepHolds(r, cfg, sh, g, c, tried);
      }
    } else {
      OtherStepHolds(r, id, cfg, sh, g, c, tried);
    }
  }

  lemma BeforeDial(r: Run, cfg: Settings, tried: seq<Session.Attempt>)
    requires PlaceFits(r, cfg) && AtDial(r.pc)
    ensures r.acquired == 0
    ensures r.pc == RESOLVE ==> r.attempt == 0 && r.targets == []
    ensures r.pc == DIALING ==> r.dialled.Some?
  {
    hide ConfirmationFits, OutcomeFits, CodeFits, DirectFits, IsSafeTarget, Released;
  }

  // ---------------------------------------------------------------- every reachable world

  lemma {:induction false} NothingTriedYet(events: seq<Event>, w: World, i: nat)
    requires Reaches(events, w) && i >= |w.runs|
    ensures Tried(events, i) == []
  {
    hide Reaches, Enabled, Apply, RunsHold, Wired, TriedBy;
    if events != [] {
      var before, e := LastStep(events, w);
      ConnsGrow(before, e);
      NothingTriedYet(events[..|events| - 1], before, i);
    }
  }

  /** The attempts grow by what the last event settles. */
  lemma TriedGrows(events: seq<Event>, before: World, i: nat)
    requires events != [] && Execute(INITIAL, events[..|events| - 1]) == Some(before)
    ensures Tried(events, i) == Tried(events[..|events| - 1], i) + TriedNow(before, events[|events| - 1], i)
  {
    hide TriedNow, Execute;
  }

  lemma NewRunHolds(w: World, e: Event, i: nat)
    requires Enabled(w, e) && |w.runs| <= i < |Apply(w, e).runs|
    ensures Apply(w, e).runs[i].targets == [] && Apply(w, e).runs[i].pc == START
  {
    hide Step, StoreEnv, TakesTicket;
  }

  /** An event that is no step of run i leaves its dialling alone. */
  lemma OtherRunsDial(w: World, e: Event, i: nat)
    requires Enabled(w, e) && RunsHold(w) && i < |w.runs| && !(e.Steps? && e.run == i)
    ensures i < |Apply(w, e).runs|
    ensures var r, s := w.runs[i], Apply(w, e).runs[i];
            s.conn == r.conn && s.targets == r.targets && s.pc == r.pc && s.attempt == r.attempt && s.dialled == r.dialled
            && s.acquired == r.acquired
  {
    hide Step, StoreEnv, TakesTicket, RunsHold;
    if !e.Steps? {
      OtherEventsKeepRuns(w, e, i);
    }
  }

  lemma SameDial(r: Run, s: Run, cfg: Settings, tried: seq<Session.Attempt>)
    requires DialHolds(r, cfg, tried) && s.targets == r.targets && s.pc == r.pc && s.attempt == r.attempt
    requires s.dialled == r.dialled && s.acquired == r.acquired
    ensures DialHolds(s, cfg, tried)
  {
    hide Attempts, AllInTurn, NoneConnected, ResolveTargetAddress, NextTarget;
  }

  lemma OwnStepHolds(w: World, i: nat, c: Choice, tried: seq<Session.Attempt>)
    requires Enabled(w, Event.Steps(i, c)) && RunsHold(w) && DialHolds(w.runs[i], w.conns[w.runs[i].conn].cfg, tried)
    ensures DialHolds(RunStep(w, i, c).runs[i], w.conns[w.runs[i].conn].cfg, tried + TriedNow(w, Event.Steps(i, c), i))
  {
    hide DialHolds, Step, PlaceFits, GateHolds, TriedBy, TakesTicket;
    assert RunHolds(w, i);
    var cn := w.conns[w.runs[i].conn];
    StepHolds(w.runs[i], i, cn.cfg, cn.shared, w.globals, c, tried);
  }

  lemma {:induction false} TriedHolds(events: seq<Event>, w: World, i: nat)
    requires Reaches(events, w) && i < |w.runs|
    ensures w.runs[i].conn < |w.conns| && DialHolds(w.runs[i], w.conns[w.runs[i].conn].cfg, Tried(events, i))
  {
    hide Reaches, Enabled, Apply, RunStep, RunsHold, Wired, DialHolds, TriedNow, Tried;
    if events == [] {
      NothingYet(w);
      assert false;
    } else {
      var n := |events| - 1;
      var before, e := LastStep(events, w);
      TriedGrows(events, before, i);
      IsWired(events, w, i);
      if i >= |before.runs| {
        NewRunHolds(before, e, i);
        NothingTriedYet(events[..n], before, i);
        NoOneSteps(before, e, i);
        FreshHolds(w.runs[i], w.conns[w.runs[i].conn].cfg);
      } else {
        TriedHolds(events[..n], before, i);
        ConfigKept(before, e, before.runs[i].conn);
        RunKept(before, e, i);
        if e.Steps? && e.run == i {
          AppliesStep(before, e);
          OwnStepHolds(before, i, e.choice, Tried(events[..n], i));
        } else {
          NoOneSteps(before, e, i);
          OtherRunsDial(before, e, i);
          SameDial(before.runs[i], w.runs[i], before.conns[before.runs[i].conn].cfg, Tried(events[..n], i));
          assert Tried(events[..n], i) + [] == Tried(events[..n], i);
        }
      }
    }
  }

  lemma AppliesStep(w: World, e: Event)
    requires Enabled(w, e) && e.Steps?
    ensures e == Event.Steps(e.run, e.choice) && Apply(w, e) == RunStep(w, e.run, e.choice)
  {
    hide RunStep, Enabled;
  }

  lemma IsWired(events: seq<Event>, w: World, i: nat)
    requires Reaches(events, w) && i < |w.runs|
    ensures w.runs[i].conn < |w.conns|
  {
    InvariantAlways(events, w);
    hide Reaches, RunsHold, FlagsHaveEvidence, HandlesHold, MetricsHold, ChansHold, RoutesHold, TicketsHold, CapturesHold;
    assert RunWired(w, i);
  }

  lemma NoOneSteps(w: World, e: Event, i: nat)
    requires i >= |w.runs| || !(e.Steps? && e.run == i)
    ensures TriedNow(w, e, i) == []
  {
    hide TriedBy;
  }

  lemma FreshHolds(r: Run, cfg: Settings)
    requires r.targets == [] && r.pc == START
    ensures DialHolds(r, cfg, [] + [])
  {
  }

  /** The oracle read off the attempts explains them. */
  lemma TriedInOrder(tried: seq<Session.Attempt>, targets: seq<string>, user: string)
    requires targets != [] && AllInTurn(tried, targets, user)
    ensures Session.InOrder(targets, user, DialerOf(tried), tried)
  {
    hide ResolveTargetAddress;
    forall k | 0 <= k < |tried| ensures tried[k] == Session.AttemptAt(targets, user, DialerOf(tried), k) {
      assert InTurn(tried[k], targets, user, k);
    }
  }

  /** Under every interleaving the dialling of a run that has candidates is a run of the failover loop:
      its attempts are in (round, index) order, with no success before the last; a run that went on
      with a target connected to it at its last attempt, after every earlier one had failed; and a
      run that gave up made all (retries + 1) * n attempts. */
  lemma RunsFailOver(events: seq<Event>, w: World, i: nat)
    requires Reaches(events, w) && i < |w.runs| && w.runs[i].targets != []
    ensures w.runs[i].conn < |w.conns|
    ensures var r, cfg, tried := w.runs[i], w.conns[w.runs[i].conn].cfg, Tried(events, i);
            && Session.InOrder(r.targets, cfg.user, DialerOf(tried), tried)
            && (r.acquired > 0 ==>
                  && r.dialled.Some?
                  && Session.FirstSuccess(r.targets, cfg.user, DialerOf(tried), 1 + cfg.routes.retries, tried, Ok(r.dialled.value)))
            && (r.acquired == 0 && r.pc > DIALING ==>
                  Session.FirstSuccess(r.targets, cfg.user, DialerOf(tried), 1 + cfg.routes.retries, tried,
                                       Err(Session.AllFailed(|tried|))))
  {
    hide Reaches, Tried, AllInTurn, Attempts, Session.InOrder, PlaceFits, GateHolds, Wired, FlagsHaveEvidence, HandlesHold,
         MetricsHold, ChansHold, RoutesHold, TicketsHold, CapturesHold, DialerOf, ResolveTargetAddress, NextTarget;
    TriedHolds(events, w, i);
    InvariantAlways(events, w);
    assert RunHolds(w, i);
    var cfg := w.conns[w.runs[i].conn].cfg;
    OpenersHaveDialled(w.runs[i], cfg);
    TriedInOrder(Tried(events, i), w.runs[i].targets, cfg.user);
  }

  lemma OpenersHaveDialled(r: Run, cfg: Settings)
    requires PlaceFits(r, cfg)
    ensures r.acquired > 0 ==> r.pc > DIALING
  {
    hide ConfirmationFits, OutcomeFits, CodeFits, DirectFits, DialFits, Released;
  }

  // ---------------------------------------------------------------- which target a run dials

  /** The target last dialled is what one of the candidates resolves to. */
  ghost predicate DialledFits(r: Run, cfg: Settings) {
    r.dialled.Some? ==>
      exists k: nat :: k < |r.targets| && ResolveTargetAddress(r.targets[k], cfg.user) == Ok(r.dialled.value)
  }

  lemma StepDialled(r: Run, id: nat, cfg: Settings, sh: Shared, g: Globals, c: Choice)
    requires Fits(r.pc, c) && PlaceFits(r, cfg) && DialledFits(r, cfg)
    ensures DialledFits(Step(r, id, cfg, sh, g, c).run, cfg)
  {
    hide StepGate, StepDial, StepSetUp, StepFinal, StepTearDown, StepReport, OutcomeFits, CodeFits, DirectFits,
         ConfirmationFits, HandleOrder, DialEffect, IsSafeTarget, ResolveTargetAddress;
    if AtDial(r.pc) {
      DialDialled(r, cfg, sh, g, c);
    } else {
      StepEffects(r, id, cfg, sh, g, c);
    }
  }

  lemma DialDialled(r: Run, cfg: Settings, sh: Shared, g: Globals, c: Choice)
    requires Fits(r.pc, c) && AtDial(r.pc) && DialledFits(r, cfg) && (r.pc == RESOLVE ==> r.dialled == None)
    ensures DialledFits(StepDial(r, cfg, sh, g, c).run, cfg)
  {
    hide ResolveTargetAddress, ResolveTargetCandidates, Attempts, TakesTicket;
  }

  lemma {:induction false} DialledHolds(events: seq<Event>, w: World, i: nat)
    requires Reaches(events, w) && i < |w.runs| && w.runs[i].conn < |w.conns|
    ensures DialledFits(w.runs[i], w.conns[w.runs[i].conn].cfg)
  {
    hide Reaches, Enabled, Apply, RunsHold, Wired, PlaceFits, Step, ResolveTargetAddress;
    if events == [] {
      NothingYet(w);
      assert false;
    } else {
      var n := |events| - 1;
      var before, e := LastStep(events, w);
      if i >= |before.runs| {
        StartedNow(before, e, i);
      } else {
        RunInvariant(events[..n], before, i);
        ConfigKept(before, e, before.runs[i].conn);
        RunKept(before, e, i);
        DialledHolds(events[..n], before, i);
        if e.Steps? && e.run == i {
          var cn := before.conns[before.runs[i].conn];
          SteppedNow(before, e, i);
          StepDialled(before.runs[i], i, cn.cfg, cn.shared, before.globals, e.choice);
        } else {
          UntouchedNow(before, e, i);
        }
      }
    }
  }

  /** Every target a session dials is what one of its candidates spells for the SSH user. */
  lemma DialledTargetsAreSpelt(events: seq<Event>, w: World, i: nat)
    requires Reaches(events, w) && i < |w.runs| && w.runs[i].conn < |w.conns| && w.runs[i].dialled.Some?
    ensures exists k: nat :: k < |w.runs[i].targets|
              && SpellsFor(w.runs[i].targets[k], w.conns[w.runs[i].conn].cfg.user, w.runs[i].dialled.value)
  {
    hide Reaches, ResolveTargetAddress, SpellsFor;
    DialledHolds(events, w, i);
    var r, cfg := w.runs[i], w.conns[w.runs[i].conn].cfg;
    var k: nat :| k < |r.targets| && ResolveTargetAddress(r.targets[k], cfg.user) == Ok(r.dialled.value);
    ResolvesTo(r.targets[k], cfg.user, r.dialled.value);
  }

  /** An attempt on an address: it stands for no target, or its target was dialled. */
  ghost predicate AttemptOn(a: Session.Attempt, address: string, user: string) {
    match a
    case BadAddress(bad) => bad == address && forall t :: !SpellsFor(address, user, t)
    case Failed(t) => SpellsFor(address, user, t)
    case Connected(t) => SpellsFor(address, user, t)
  }

  lemma InTurnIsOn(a: Session.Attempt, targets: seq<string>, user: string, k: nat)
    requires targets != [] && InTurn(a, targets, user, k)
    ensures AttemptOn(a, targets[k % |targets|], user)
  {
    hide ResolveTargetAddress, SpellsFor;
    var address := targets[k % |targets|];
    forall t ensures ResolveTargetAddress(address, user) == Ok(t) <==> SpellsFor(address, user, t) {
      ResolvesTo(address, user, t);
    }
  }

  /** With static routing in failover mode attempt k of a session is on the configured server k mod n;
      so a first server that is never found down is the one connected. */
  lemma FailoverAttempts(events: seq<Event>, w: World, i: nat)
    requires Reaches(events, w) && i < |w.runs| && w.runs[i].conn < |w.conns| && w.runs[i].targets != []
    requires var routes := w.conns[w.runs[i].conn].cfg.routes; routes.staticEnabled && Folded(routes.mode) in {"", FAILOVER}
    ensures var r, cfg, tried := w.runs[i], w.conns[w.runs[i].conn].cfg, Tried(events, i);
            && cfg.routes.targets != []
            && (forall k | 0 <= k < |tried| :: AttemptOn(tried[k], cfg.routes.targets[k % |cfg.routes.targets|], cfg.user))
            && (forall t | SpellsFor(cfg.routes.targets[0], cfg.user, t) && Session.Failed(t) !in tried && r.acquired > 0 ::
                  r.dialled == Some(t))
  {
    hide Reaches, Tried, Folded, PlaceFits, SpellsFor, ResolveTargetAddress, Attempts, InTurn;
    FailoverKeepsOrder(events, w, i);
    TriedHolds(events, w, i);
    RunInvariant(events, w, i);
    var r, cfg, tried := w.runs[i], w.conns[w.runs[i].conn].cfg, Tried(events, i);
    OpenersHaveDialled(r, cfg);
    forall k | 0 <= k < |tried| ensures AttemptOn(tried[k], r.targets[k % |r.targets|], cfg.user) {
      InTurnIsOn(tried[k], r.targets, cfg.user, k);
    }
    forall t | SpellsFor(r.targets[0], cfg.user, t) && Session.Failed(t) !in tried && r.acquired > 0 ensures r.dialled == Some(t) {
      assert AttemptOn(tried[0], r.targets[0 % |r.targets|], cfg.user);
      FirstIs(tried[0], r.targets[0], cfg.user, t);
      assert tried[0] in tried;
    }
  }

  lemma FirstIs(a: Session.Attempt, address: string, user: string, t: Target)
    requires AttemptOn(a, address, user) && SpellsFor(address, user, t)
    ensures a == Session.Connected(t) || a == Session.Failed(t)
  {
    hide SpellsFor, ResolveTargetAddress;
    ResolvesTo(address, user, t);
    if !a.BadAddress? {
      ResolvesTo(address, user, a.target);
    }
  }

  /** The state's target is the one being dialled, and again the one connected to. */
  lemma TargetIsStored(w: World, e: Event, i: nat)
    requires Enabled(w, e) && e.Steps? && e.run == i
    ensures var r, s := w.runs[i], Apply(w, e).runs[i];
            var target := Apply(w, e).conns[r.conn].shared.target;
            && (r.pc == DIAL && s.pc == DIALING ==> Some(target) == s.dialled)
            && (r.pc == PUT_TARGET && r.dialled.Some? ==> Some(target) == r.dialled)
  {
    hide ResolveTargetAddress, ResolveTargetCandidates, Attempts, TakesTicket, StepGate, StepFinal, StepTearDown, StepReport;
  }
}
