/** What holds after every sequence of events of the proxy, whatever the interleaving. */
module ProxySafety {
  import opened Text
  import opened Address
  import opened Routing
  import opened Identity
  import opened Counting
  import opened Steps
  import opened Proxy

  // ---------------------------------------------------------------- the invariant

  ghost predicate Invariant(w: World) {
    && Wired(w)
    && RunsHold(w)
    && FlagsHaveEvidence(w)
    && HandlesHold(w)
    && MetricsHold(w)
    && ChansHold(w)
    && RoutesHold(w)
    && TicketsHold(w)
    && CapturesHold(w)
  }

  lemma InvariantInitially()
    ensures Invariant(INITIAL)
  {
  }

  lemma InvariantStep(w: World, e: Event)
    requires Enabled(w, e) && Invariant(w)
    ensures Invariant(Apply(w, e))
  {
    hide Wired, RunsHold, FlagsHaveEvidence, HandlesHold, MetricsHold, ChansHold, RoutesHold, TicketsHold, CapturesHold,
         Enabled, RunStep, SameRun, StoreEnv;
    if e.Steps? {
      RunsHoldStep(w, e.run, e.choice);
      WiredStep(w, e);
      FlagsStep(w, e.run, e.choice);
      HandlesStep(w, e.run, e.choice);
      MetricsStep(w, e.run, e.choice);
      ChansStep(w, e.run, e.choice);
      RoutesStep(w, e.run, e.choice);
      TicketsStep(w, e.run, e.choice);
      CapturesStep(w, e.run, e.choice);
    } else {
      WiredStep(w, e);
      RunsHoldOther(w, e);
      FlagsOther(w, e);
      HandlesOther(w, e);
      MetricsOther(w, e);
      ChansOther(w, e);
      RoutesOther(w, e);
      TicketsOther(w, e);
      CapturesOther(w, e);
    }
  }

  ghost predicate Reaches(events: seq<Event>, w: World) { Execute(INITIAL, events) == Some(w) }

  lemma {:induction false} InvariantAlways(events: seq<Event>, w: World)
    requires Reaches(events, w)
    ensures Invariant(w)
  {
    hide Invariant, Enabled, Apply;
    if events == [] {
      InvariantInitially();
    } else {
      var before := Execute(INITIAL, events[..|events| - 1]).value;
      InvariantAlways(events[..|events| - 1], before);
      InvariantStep(before, events[|events| - 1]);
    }
  }

  // ---------------------------------------------------------------- the SSO gate

  /** With SSO on no run dials a target, opens anything on it, or gets past the gate at all, unless
      the connection is verified and some device flow on that connection succeeded; when matching is
      enforced the confirmed identity matched the SSH user and has an identifier. */
  lemma NoDialWithoutConfirmation(events: seq<Event>, w: World, i: nat)
    requires Reaches(events, w) && i < |w.runs| && w.runs[i].conn < |w.conns|
    requires w.conns[w.runs[i].conn].cfg.ssoEnabled
    requires PastGate(w.runs[i]) || w.runs[i].acquired > 0 || w.runs[i].launched
    ensures w.conns[w.runs[i].conn].shared.verified
    ensures exists j: nat :: ConfirmedBy(w, w.runs[i].conn, j)
  {
    hide Execute, PlaceFits, GateHolds, Confirms, ConfirmedBy, PastGate;
    InvariantAlways(events, w);
    var c := w.runs[i].conn;
    assert RunHolds(w, i) && FlagHasEvidence(w, c);
    OpenersArePastGate(w.runs[i], w.conns[c].cfg);
    PastGateIsVerified(w.runs[i], w.conns[c].cfg, w.conns[c].shared);
    var j: nat :| Confirms(w, c, j);
    ConfirmsMeans(w, c, j);
  }

  ghost predicate ConfirmedBy(w: World, c: nat, j: nat)
    requires c < |w.conns|
  {
    && j < |w.runs| && w.runs[j].conn == c && w.runs[j].identity.Some?
    && (w.conns[c].cfg.enforceMatch ==>
          && StandsFor(w.runs[j].identity.value, if Blank(w.conns[c].cfg.user) then "unknown" else w.conns[c].cfg.user)
          && BestIdentifier(w.runs[j].identity.value) != "")
  }

  lemma ConfirmsMeans(w: World, c: nat, j: nat)
    requires c < |w.conns| && Confirms(w, c, j)
    ensures ConfirmedBy(w, c, j)
  {
    hide MatchesSSHUser, BestIdentifier, StandsFor, Blank;
    if w.conns[c].cfg.enforceMatch {
      MatchesIff(w.runs[j].identity.value, EffectiveUser(w.conns[c].cfg.user));
      MatchHasIdentifier(w.runs[j].identity.value, EffectiveUser(w.conns[c].cfg.user));
    }
  }

  lemma OpenersArePastGate(r: Run, cfg: Settings)
    requires PlaceFits(r, cfg)
    ensures r.acquired > 0 || r.launched ==> PastGate(r)
  {
    hide ConfirmationFits, OutcomeFits, DirectFits, HandleOrder, IsSafeTarget;
  }

  lemma PastGateIsVerified(r: Run, cfg: Settings, sh: Shared)
    requires GateHolds(r, cfg, sh) && cfg.ssoEnabled && PastGate(r)
    ensures sh.verified
  {
  }

  lemma {:induction false} ExecuteConcat(w: World, first: seq<Event>, rest: seq<Event>)
    requires Execute(w, first + rest).Some?
    ensures Execute(w, first).Some?
    ensures Execute(Execute(w, first).value, rest) == Execute(w, first + rest)
  {
    hide Enabled, Apply;
    if rest == [] {
      assert first + rest == first;
    } else {
      assert (first + rest)[..|first + rest| - 1] == first + rest[..|rest| - 1];
      ExecuteConcat(w, first, rest[..|rest| - 1]);
    }
  }

  lemma VerifiedRunStep(w: World, i: nat, choice: Choice, c: nat)
    requires Enabled(w, Event.Steps(i, choice)) && RunsHold(w) && c < |w.conns| && w.conns[c].shared.verified
    ensures c < |RunStep(w, i, choice).conns| && RunStep(w, i, choice).conns[c].shared.verified
  {
    hide Step, PlaceFits, GateHolds, SameRun, TakesTicket, RunsHold;
    RunsHoldStep(w, i, choice);
  }

  lemma VerifiedStep(w: World, e: Event, c: nat)
    requires Enabled(w, e) && Invariant(w) && c < |w.conns| && w.conns[c].shared.verified
    ensures c < |Apply(w, e).conns| && Apply(w, e).conns[c].shared.verified
  {
    hide Enabled, RunStep, StoreEnv, Wired, RunsHold, FlagsHaveEvidence, HandlesHold, MetricsHold, ChansHold, RoutesHold,
         TicketsHold, CapturesHold;
    if e.Steps? {
      VerifiedRunStep(w, e.run, e.choice, c);
    } else {
      OtherEventsKeepConns(w, e, c);
    }
  }

  /** Once raised, the verified flag of a connection stays raised. */
  lemma {:induction false} VerifiedNeverLowered(first: seq<Event>, rest: seq<Event>, v: World, w: World, c: nat)
    requires Reaches(first, v) && Reaches(first + rest, w) && c < |v.conns| && v.conns[c].shared.verified
    ensures c < |w.conns| && w.conns[c].shared.verified
  {
    hide Invariant, Enabled, Apply;
    if rest == [] {
      assert first + rest == first;
    } else {
      var n := |rest| - 1;
      assert (first + rest)[..|first + rest| - 1] == first + rest[..n];
      ExecuteConcat(INITIAL, first + rest[..n], [rest[n]]);
      assert first + rest[..n] + [rest[n]] == first + rest;
      var before := Execute(INITIAL, first + rest[..n]).value;
      VerifiedNeverLowered(first, rest[..n], v, before, c);
      InvariantAlways(first + rest[..n], before);
      VerifiedStep(before, rest[n], c);
    }
  }

  /** While direct commands are disabled an exec run never reaches SSO, dials or opens anything; its
      only outcome is a rejection. */
  lemma DirectCommandsNeverDial(events: seq<Event>, w: World, i: nat)
    requires Reaches(events, w) && i < |w.runs| && w.runs[i].conn < |w.conns|
    requires w.runs[i].kind == Exec && !w.conns[w.runs[i].conn].cfg.allowDirect
    ensures w.runs[i].confirmation == NotTried && w.runs[i].dialled == None && w.runs[i].acquired == 0
    ensures w.runs[i].outcome.Some? ==> w.runs[i].outcome == Some(Rejected)
    ensures w.runs[i].pc == DONE ==> SentByRun(w.runs[i]) == [ExitStatus(1), CloseWrite, Close]
  {
    InvariantAlways(events, w);
    hide Execute, FlagsHaveEvidence, HandlesHold, MetricsHold, ChansHold, RoutesHold, TicketsHold, CapturesHold, GateHolds,
         ConfirmationFits, HandleOrder, SentByRun, Wired;
    assert RunHolds(w, i);
    RejectedOutcome(w.runs[i], w.conns[w.runs[i].conn].cfg);
  }

  lemma RejectedOutcome(r: Run, cfg: Settings)
    requires PlaceFits(r, cfg) && r.kind == Exec && !cfg.allowDirect
    ensures r.outcome.Some? ==> r.outcome == Some(Rejected)
    ensures r.pc == DONE ==> SentByRun(r) == [ExitStatus(1), CloseWrite, Close]
  {
    hide ConfirmationFits, HandleOrder;
  }

  /** The gate matches a blank SSH user as "unknown". So "every accepted identity matches the SSH
      user" is true of a user exactly when the user is not blank. */
  lemma AcceptedMatchesUserIff(user: string)
    ensures (forall i :: MatchesSSHUser(i, EffectiveUser(user)) ==> MatchesSSHUser(i, user)) <==> !Blank(user)
  {
    hide MatchesSSHUser, Blank;
    if Blank(user) {
      var i := Identity("", "unknown", "");
      UnknownMatches();
      BlankMatchesNobody(i, user);
    }
  }

  lemma UnknownMatches()
    ensures MatchesSSHUser(Identity("", "unknown", ""), "unknown")
  {
    hide Folded;
    LowerWordFolds("unknown");
  }

  lemma BlankMatchesNobody(i: Identity, user: string)
    requires Blank(user)
    ensures !MatchesSSHUser(i, user)
  {
    hide ClaimMatches;
  }

  // ---------------------------------------------------------------- the target handles

  /** A target handle in a connection's state belongs to a run of that connection that is between
      its set and its clear and has not closed it; with no such run the fields are empty. */
  lemma SharedHandlesAreLive(events: seq<Event>, w: World, c: nat)
    requires Reaches(events, w) && c < |w.conns|
    ensures FieldsOwned(w, c)
    ensures w.conns[c].shared.client.Some? ==> Client !in w.runs[w.conns[c].shared.client.value].released
    ensures w.conns[c].shared.session.Some? ==> TargetSession !in w.runs[w.conns[c].shared.session.value].released
    ensures w.conns[c].shared.recorder.Some? ==> Recorder !in w.runs[w.conns[c].shared.recorder.value].released
    ensures (forall i | 0 <= i < |w.runs| && w.runs[i].conn == c :: !HasPutClient(w.runs[i].pc)) ==>
              w.conns[c].shared.client == None && w.conns[c].shared.session == None && w.conns[c].shared.recorder == None
  {
    InvariantAlways(events, w);
    hide Execute, Wired, FlagsHaveEvidence, MetricsHold, ChansHold, RoutesHold, TicketsHold, CapturesHold, GateHolds,
         PlaceFits;
    assert FieldsOwned(w, c);
    forall i | 0 <= i < |w.runs| ensures NotReleasedYet(w.runs[i]) {
      assert RunHolds(w, i);
      HeldIsOpen(w.runs[i], w.conns[w.runs[i].conn].cfg);
    }
  }

  predicate NotReleasedYet(r: Run) {
    && (HasPutClient(r.pc) ==> Client !in r.released)
    && (HasPutSession(r.pc) ==> TargetSession !in r.released)
    && (HasPutRecorder(r.pc) ==> Recorder !in r.released)
  }

  lemma HeldIsOpen(r: Run, cfg: Settings)
    requires PlaceFits(r, cfg)
    ensures NotReleasedYet(r)
  {
    hide ConfirmationFits, OutcomeFits, CodeFits, DirectFits, DialFits;
  }

  /** On every path a finished run has closed each handle it opened exactly once, in the order
      recorder, session, client. */
  lemma FinishedRunsCloseEverything(events: seq<Event>, w: World, i: nat)
    requires Reaches(events, w) && i < |w.runs| && w.runs[i].pc == DONE
    ensures w.runs[i].acquired <= 3
    ensures w.runs[i].released == [Recorder, TargetSession, Client][3 - w.runs[i].acquired..]
  {
    InvariantAlways(events, w);
    hide Execute, Wired, FlagsHaveEvidence, MetricsHold, ChansHold, RoutesHold, TicketsHold, CapturesHold, GateHolds,
         HandlesHold, ConfirmationFits, OutcomeFits, CodeFits, DirectFits, DialFits;
    assert RunHolds(w, i);
  }

  // ---------------------------------------------------------------- metrics

  predicate WasTried(r: Run) { r.confirmation != NotTried }
  predicate IsTrying(r: Run) { r.confirmation == Trying }
  predicate WasAnswered(r: Run) { r.confirmation == Confirmed || r.confirmation == Refused }
  predicate ErrorPending(r: Run) { r.pc == REFUSED_ERROR && r.confirmation == Refused }
  predicate HasOutcome(r: Run) { r.outcome.Some? }
  predicate NotRejected(r: Run) { r.outcome == Some(Success) || r.outcome == Some(Failure) }

  /** Conservation: the pending gauge counts the runs inside the SSO wait; attempts started are
      successes plus failures plus attempts not yet recorded; errors lag behind failures only by the
      runs between the two increments; each run that has reported is in exactly one outcome; and the
      handshake failures are those that happened. */
  lemma MetricsConserved(events: seq<Event>, w: World)
    requires Reaches(events, w)
    ensures MetricsHold(w)
    ensures var m := w.globals.metrics;
            && CountOf(WasTried, w.runs) == m.ssoSuccesses + m.ssoFailures + CountOf(IsTrying, w.runs)
            && m.ssoFailures == m.ssoErrors + CountOf(ErrorPending, w.runs)
            && CountOf(HasOutcome, w.runs) == m.successes + m.failures + m.rejections
            && m.handshakeFailures == CountOf(FailsHandshake, events)
  {
    InvariantAlways(events, w);
    HandshakesCounted(events, w);
    hide Execute, CountOf, Wired, FlagsHaveEvidence, HandlesHold, ChansHold, RoutesHold, TicketsHold, CapturesHold, RunsHold,
         IsLive, Waiting;
    ConfirmationsSplit(w.runs);
    OutcomesSplit(w.runs);
  }

  predicate FailsHandshake(e: Event) { e.HandshakeFails? }

  lemma {:induction false} HandshakesCounted(events: seq<Event>, w: World)
    requires Reaches(events, w)
    ensures w.globals.metrics.handshakeFailures == CountOf(FailsHandshake, events)
  {
    hide Invariant, Enabled, Apply;
    if events == [] {
      assert w == INITIAL;
    } else {
      var n := |events| - 1;
      var before := Execute(INITIAL, events[..n]).value;
      HandshakesCounted(events[..n], before);
      InvariantAlways(events[..n], before);
      HandshakeStep(before, events[n]);
    }
  }

  lemma HandshakeStep(w: World, e: Event)
    requires Enabled(w, e) && Invariant(w)
    ensures Apply(w, e).globals.metrics.handshakeFailures == w.globals.metrics.handshakeFailures + One(FailsHandshake(e))
  {
    hide RunStep, StoreEnv, Wired, RunsHold, FlagsHaveEvidence, HandlesHold, MetricsHold, ChansHold, RoutesHold, TicketsHold,
         CapturesHold;
    if e.Steps? {
      MetricsStep(w, e.run, e.choice);
    }
  }

  lemma ConfirmationsSplit(runs: seq<Run>)
    ensures CountOf(WasTried, runs) == CountOf(IsConfirmed, runs) + CountOf(IsRefused, runs) + CountOf(IsTrying, runs)
    ensures CountOf(IsRefused, runs) == CountOf(ErrorCounted, runs) + CountOf(ErrorPending, runs)
  {
    hide CountOf;
    CountSplit(WasTried, WasAnswered, IsTrying, runs);
    CountSplit(WasAnswered, IsConfirmed, IsRefused, runs);
    CountSplit(IsRefused, ErrorCounted, ErrorPending, runs);
  }

  lemma OutcomesSplit(runs: seq<Run>)
    ensures CountOf(HasOutcome, runs) == CountOf(Succeeded, runs) + CountOf(FailedRun, runs) + CountOf(WasRejected, runs)
  {
    hide CountOf;
    OutcomeCases();
    CountSplit(HasOutcome, NotRejected, WasRejected, runs);
    CountSplit(NotRejected, Succeeded, FailedRun, runs);
  }

  lemma OutcomeCases()
    ensures forall r :: HasOutcome(r) <==> NotRejected(r) || WasRejected(r)
  {
    forall r ensures HasOutcome(r) <==> NotRejected(r) || WasRejected(r) {
      match r.outcome
      case None =>
      case Some(Success) =>
      case Some(Failure) =>
      case Some(Rejected) =>
    }
  }

  /** Once every run has returned nothing is pending, no error is outstanding, and the outcomes add
      up to the number of sessions started. */
  lemma QuiescentMetrics(events: seq<Event>, w: World)
    requires Reaches(events, w)
    requires forall i | 0 <= i < |w.runs| :: w.runs[i].pc == DONE
    ensures var m := w.globals.metrics;
            && m.pending == 0
            && m.ssoErrors == m.ssoFailures
            && m.successes + m.failures + m.rejections == |w.runs|
  {
    MetricsConserved(events, w);
    InvariantAlways(events, w);
    hide Execute, CountOf, Wired, FlagsHaveEvidence, HandlesHold, ChansHold, RoutesHold, TicketsHold, CapturesHold, PlaceFits;
    CountIsZeroIff(Waiting, w.runs);
    CountIsZeroIff(ErrorPending, w.runs);
    forall i | 0 <= i < |w.runs| ensures HasOutcome(w.runs[i]) {
      assert RunHolds(w, i);
      DoneHasOutcome(w.runs[i], w.conns[w.runs[i].conn].cfg);
    }
    CountAll(HasOutcome, w.runs);
  }

  lemma DoneHasOutcome(r: Run, cfg: Settings)
    requires PlaceFits(r, cfg) && r.pc == DONE
    ensures HasOutcome(r)
  {
    hide ConfirmationFits, CodeFits, DirectFits, DialFits, HandleOrder;
  }

  lemma {:induction false} CountAll<T>(p: T -> bool, s: seq<T>)
    requires forall i | 0 <= i < |s| :: p(s[i])
    ensures CountOf(p, s) == |s|
  {
    if s != [] {
      assert forall i | 0 <= i < |s| - 1 :: s[..|s| - 1][i] == s[i];
      CountAll(p, s[..|s| - 1]);
    }
  }

  // ---------------------------------------------------------------- channels

  /** No channel ever gets a second session goroutine. */
  lemma OneRunPerChannel(events: seq<Event>, w: World, i: nat, j: nat)
    requires Reaches(events, w) && i < |w.runs| && j < |w.runs| && w.runs[i].chan == w.runs[j].chan
    ensures i == j
  {
    InvariantAlways(events, w);
    hide Execute, FlagsHaveEvidence, HandlesHold, MetricsHold, ChansHold, RoutesHold, TicketsHold, CapturesHold, RunsHold;
    assert RunWired(w, i) && RunWired(w, j);
  }

  /** What was sent on a channel apart from the handler's own close. */
  function SentBeforeHandler(ch: Chan): seq<ChannelEvent> {
    if ch.finished && ch.out != [] then ch.out[..|ch.out| - 1] else ch.out
  }

  /** The client sees at most one exit status before the channel is closed, on every path, and the
      handler's own close comes last and only after the session goroutine has returned. */
  lemma ChannelRunsAreSafe(events: seq<Event>, w: World, k: nat)
    requires Reaches(events, w) && k < |w.chans|
    ensures var ch := w.chans[k];
            && (ch.finished <==> HandlerClose in ch.out)
            && (ch.finished ==> ch.out == SentBeforeHandler(ch) + [HandlerClose])
            && OneExitFirst(SentBeforeHandler(ch))
            && (ch.run.None? ==> SentBeforeHandler(ch) == [])
            && (ch.finished && ch.run.Some? ==> ch.run.value < |w.runs| && w.runs[ch.run.value].pc == DONE)
  {
    InvariantAlways(events, w);
    hide Execute, FlagsHaveEvidence, HandlesHold, MetricsHold, RoutesHold, TicketsHold, CapturesHold, PlaceFits, GateHolds,
         SentByRun, Wired, OneExitFirst;
    assert ChanHolds(w, k);
    var ch := w.chans[k];
    NothingIsClean();
    if ch.run.Some? {
      var r := w.runs[ch.run.value];
      assert RunHolds(w, ch.run.value);
      SentIsClean(r, w.conns[r.conn].cfg);
      NoHandlerCloseByRun(r);
    }
    assert SentBeforeHandler(ch) == if ch.run.Some? then SentByRun(w.runs[ch.run.value]) else [];
  }

  lemma NothingIsClean()
    ensures OneExitFirst([])
  {
  }

  /** The channel of a run that has returned got exactly one exit status before its close: the remote
      one when the run succeeded, and 1 otherwise. */
  lemma FinishedRunsReportOnce(events: seq<Event>, w: World, i: nat)
    requires Reaches(events, w) && i < |w.runs| && w.runs[i].pc == DONE && w.runs[i].chan < |w.chans|
    ensures var r := w.runs[i];
            var out := w.chans[r.chan].out;
            && |out| >= 3
            && out[0] == ExitStatus(if r.ok && r.code.Some? then r.code.value else 1)
            && out[1] == CloseWrite && out[2] == Close
            && (r.outcome == Some(Success) <==> r.ok)
  {
    InvariantAlways(events, w);
    hide Execute, FlagsHaveEvidence, HandlesHold, MetricsHold, RoutesHold, TicketsHold, CapturesHold, PlaceFits, GateHolds,
         SentByRun;
    var r := w.runs[i];
    assert RunHolds(w, i) && RunWired(w, i) && ChanHolds(w, r.chan);
    SentIsClean(r, w.conns[r.conn].cfg);
    DoneHasCode(r, w.conns[r.conn].cfg);
  }

  lemma DoneHasCode(r: Run, cfg: Settings)
    requires PlaceFits(r, cfg) && r.pc == DONE
    ensures r.ok ==> r.code.Some?
    ensures r.outcome == Some(Success) <==> r.ok
  {
    hide ConfirmationFits, DirectFits, DialFits, HandleOrder;
  }

  lemma NoHandlerCloseByRun(r: Run)
    ensures HandlerClose !in SentByRun(r)
  {
  }

  // ---------------------------------------------------------------- routes

  /** Every target that is stored, dialled or printed is a safe one, so its printed form splits back
      into it; and a server variable is stored only with dynamic routing and when it resolves. */
  lemma TargetsAreSafe(events: seq<Event>, w: World, c: nat)
    requires Reaches(events, w) && c < |w.conns|
    ensures var t := w.conns[c].shared.target;
            t != NO_TARGET ==> IsSafeTarget(t) && SplitTargetAddress(FormatTargetAddress(t)) == Ok(t)
    ensures forall i | 0 <= i < |w.runs| && w.runs[i].dialled.Some? :: IsSafeTarget(w.runs[i].dialled.value)
    ensures RouteHolds(w.conns[c])
  {
    InvariantAlways(events, w);
    hide Execute, FlagsHaveEvidence, HandlesHold, MetricsHold, ChansHold, TicketsHold, CapturesHold, GateHolds, Wired,
         IsSafeTarget, ConfirmationFits, OutcomeFits, CodeFits, DirectFits, HandleOrder, SplitTargetAddress,
         FormatTargetAddress, ResolveTargetAddress;
    if w.conns[c].shared.target != NO_TARGET {
      SplitOfFormat(w.conns[c].shared.target);
    }
    forall i | 0 <= i < |w.runs| && w.runs[i].dialled.Some? ensures IsSafeTarget(w.runs[i].dialled.value) {
      assert RunHolds(w, i);
    }
  }

  /** With dynamic routing a run that resolves its candidates while a server variable is stored gets
      that value as its one candidate; and whatever happens to the shared state before its next step,
      that step dials what the value resolved to when it was stored. */
  lemma StoredServerIsDialled(events: seq<Event>, w: World, i: nat, fromCommand: string, later: Shared, g: Globals)
    requires Reaches(events, w) && i < |w.runs| && w.runs[i].conn < |w.conns| && w.runs[i].pc == RESOLVE
    requires var c := w.conns[w.runs[i].conn]; !c.cfg.routes.staticEnabled && SERVER_VARIABLE in c.shared.env
    ensures var c := w.conns[w.runs[i].conn];
            var value := c.shared.env[SERVER_VARIABLE];
            var next := w.runs[i].(targets := [value], pc := DIAL);
            && Step(w.runs[i], i, c.cfg, c.shared, w.globals, Heuristic(fromCommand)).run == next
            && ResolveTargetAddress(value, c.cfg.user).Ok?
            && DialsTo(next, i, c.cfg, later, g, ResolveTargetAddress(value, c.cfg.user).value)
  {
    hide Reaches, ResolveTargetAddress, Step, DialsTo;
    var r := w.runs[i];
    var c := w.conns[r.conn];
    ReadyToResolve(events, w, i);
    StoredIsCandidate(r, i, c.cfg, c.shared, w.globals, fromCommand);
    var value := c.shared.env[SERVER_VARIABLE];
    OnlyCandidateIsDialled(r.(targets := [value], pc := DIAL), i, c.cfg, later, g, value);
  }

  lemma ReadyToResolve(events: seq<Event>, w: World, i: nat)
    requires Reaches(events, w) && i < |w.runs| && w.runs[i].conn < |w.conns| && w.runs[i].pc == RESOLVE
    ensures w.runs[i].attempt == 0
    ensures var c := w.conns[w.runs[i].conn];
            SERVER_VARIABLE in c.shared.env ==> ResolveTargetAddress(c.shared.env[SERVER_VARIABLE], c.cfg.user).Ok?
  {
    InvariantAlways(events, w);
    hide Execute, Wired, FlagsHaveEvidence, HandlesHold, MetricsHold, ChansHold, TicketsHold, CapturesHold, GateHolds,
         PlaceFits, ResolveTargetAddress, KnownTarget;
    assert RunHolds(w, i) && RouteHolds(w.conns[w.runs[i].conn]);
    NotDialledYet(w.runs[i], w.conns[w.runs[i].conn].cfg);
  }

  lemma NotDialledYet(r: Run, cfg: Settings)
    requires PlaceFits(r, cfg) && r.pc == RESOLVE
    ensures r.attempt == 0
  {
    hide ConfirmationFits, OutcomeFits, CodeFits, DirectFits, HandleOrder, IsSafeTarget;
  }

  /** The next step of a run that is about to resolve a candidate starts the dial to t. */
  predicate DialsTo(r: Run, i: nat, cfg: Settings, sh: Shared, g: Globals, t: Target)
    requires r.pc == DIAL
  {
    var s := Step(r, i, cfg, sh, g, Go);
    s.run.dialled == Some(t) && s.run.pc == DIALING && s.shared.target == t
  }

  lemma AtDialStep(r: Run, i: nat, cfg: Settings, sh: Shared, g: Globals, c: Choice)
    requires Fits(r.pc, c) && AtDial(r.pc)
    ensures Step(r, i, cfg, sh, g, c) == StepDial(r, cfg, sh, g, c)
  {
    hide StepDial;
  }

  lemma StoredIsCandidate(r: Run, i: nat, cfg: Settings, sh: Shared, g: Globals, fromCommand: string)
    requires r.pc == RESOLVE && !cfg.routes.staticEnabled
    requires SERVER_VARIABLE in sh.env && ResolveTargetAddress(sh.env[SERVER_VARIABLE], cfg.user).Ok?
    ensures Step(r, i, cfg, sh, g, Heuristic(fromCommand)).run == r.(targets := [sh.env[SERVER_VARIABLE]], pc := DIAL)
  {
    hide Step, ResolveTargetAddress, ResolveTargetCandidates, SplitTargetAddress, TakesTicket, NextTarget, Attempts;
    AtDialStep(r, i, cfg, sh, g, Heuristic(fromCommand));
    ResolvesIff(sh.env[SERVER_VARIABLE], cfg.user);
    StoredVariableIsCandidate(cfg.routes, sh.env, r.command, fromCommand, g.counter);
  }

  lemma OnlyCandidateIsDialled(r: Run, i: nat, cfg: Settings, sh: Shared, g: Globals, value: string)
    requires r.pc == DIAL && r.targets == [value] && r.attempt == 0 && ResolveTargetAddress(value, cfg.user).Ok?
    ensures DialsTo(r, i, cfg, sh, g, ResolveTargetAddress(value, cfg.user).value)
  {
    hide Step, ResolveTargetAddress, ResolveTargetCandidates, TakesTicket, NextTarget, Attempts;
    AtDialStep(r, i, cfg, sh, g, Go);
    FirstOfOne(value, cfg.routes.retries);
  }

  lemma FirstOfOne(value: string, retries: nat)
    ensures NextTarget([value], 0) == value && Attempts(1 + retries, 1) > 0
  {
  }

  // ---------------------------------------------------------------- round robin

  /** The t-th ticket makes the rotation panic: its holder's list rotates, and the ticket is past 2^63
      and not a whole number of rounds short of 2^64. */
  predicate BadTicket(w: World, t: nat) {
    && t < |w.tickets| && w.tickets[t] < |w.runs| && w.runs[w.tickets[t]].conn < |w.conns|
    && (var routes := w.conns[w.runs[w.tickets[t]].conn].cfg.routes;
        && Rotates(routes.targets, routes.mode)
        && t % WORD64 >= HALF64 && (WORD64 - t % WORD64) % |routes.targets| != 0)
  }

  lemma PanicIsBad(w: World, t: nat)
    requires t < |w.tickets|
    ensures TicketPanics(w, t) <==> BadTicket(w, t)
    ensures TicketHolds(w, t) ==> !BadTicket(w, t)
  {
    hide OrderedStaticTargets, NormalizeRoutingMode;
    var i := w.tickets[t];
    if i < |w.runs| && w.runs[i].conn < |w.conns| {
      var routes := w.conns[w.runs[i].conn].cfg.routes;
      OrderDefinedIff(routes.targets, routes.mode, t % WORD64);
    }
  }

  /** Exactly: the process has crashed when a bad ticket was taken; so it has not crashed while at
      most 2^63 tickets were. */
  lemma CrashedIff(events: seq<Event>, w: World)
    requires Reaches(events, w)
    ensures w.globals.crashed <==> exists t: nat :: BadTicket(w, t)
    ensures w.globals.crashed ==> |w.tickets| > HALF64
  {
    InvariantAlways(events, w);
    hide Execute, Wired, FlagsHaveEvidence, HandlesHold, MetricsHold, ChansHold, RoutesHold, CapturesHold, RunsHold,
         TicketPanics, TicketHolds, BadTicket;
    forall t: nat | t < |w.tickets| ensures TicketPanics(w, t) <==> BadTicket(w, t)
      ensures TicketHolds(w, t) ==> !BadTicket(w, t)
    {
      PanicIsBad(w, t);
    }
    if w.globals.crashed {
      BadIsLate(w, |w.tickets| - 1);
    } else {
      forall t: nat ensures !BadTicket(w, t) {
        BadIsLate(w, t);
      }
    }
  }

  lemma BadIsLate(w: World, t: nat)
    ensures BadTicket(w, t) ==> HALF64 <= t < |w.tickets|
  {
    hide Rotates;
    if t < HALF64 {
      SmallTicket(t);
    }
  }

  /** Under every interleaving the t-th run to take a ticket tries the targets in the rotation that
      starts at t, so of n consecutive ones each puts every target in another position. */
  lemma TicketsRotate(events: seq<Event>, w: World, t: nat)
    requires Reaches(events, w) && t < |w.tickets| && t < HALF64
    ensures var i := w.tickets[t];
            && i < |w.runs| && w.runs[i].conn < |w.conns|
            && (var targets := w.conns[w.runs[i].conn].cfg.routes.targets;
                && |targets| > 1
                && |w.runs[i].targets| == |targets|
                && multiset(w.runs[i].targets) == multiset(targets)
                && forall p, j | 0 <= p < |targets| && 0 <= j < |targets| && GivesPlace(t, |targets|, p, j) ::
                     w.runs[i].targets[p] == targets[j])
  {
    InvariantAlways(events, w);
    CrashedIff(events, w);
    hide Execute, Wired, FlagsHaveEvidence, HandlesHold, MetricsHold, ChansHold, RoutesHold, CapturesHold, RunsHold,
         OrderedStaticTargets, GivesPlace, TakesTicket, BadTicket;
    assert TicketHolds(w, t);
    SmallTicket(t);
    RotationOrder(w.conns[w.runs[w.tickets[t]].conn].cfg, t);
  }

  lemma SmallTicket(t: nat)
    requires t < HALF64
    ensures t % WORD64 == t
  {
  }

  lemma RotationOrder(cfg: Settings, t: nat)
    requires TakesTicket(cfg) && t < HALF64
    ensures var targets := cfg.routes.targets;
            var order := OrderedStaticTargets(targets, cfg.routes.mode, t);
            && |targets| > 1 && order.Some? && |order.value| == |targets| && multiset(order.value) == multiset(targets)
            && forall p, j | 0 <= p < |targets| && 0 <= j < |targets| && GivesPlace(t, |targets|, p, j) ::
                 order.value[p] == targets[j]
  {
    hide OrderedStaticTargets, GivesPlace, NormalizeRoutingMode;
    RoundRobinOrder(cfg.routes.targets, cfg.routes.mode, t);
  }

  /** How many of the first k ticket holders try a given address first. */
  function FirstTries(w: World, k: nat, address: string): nat
    requires k <= |w.tickets|
  {
    if k == 0 then 0
    else FirstTries(w, k - 1, address) + (if TriesFirst(w, k - 1, address) then 1 else 0)
  }

  predicate TriesFirst(w: World, t: nat, address: string)
    requires t < |w.tickets|
  {
    w.tickets[t] < |w.runs| && w.runs[w.tickets[t]].targets != [] && w.runs[w.tickets[t]].targets[0] == address
  }

  predicate Distinct(targets: seq<string>) { forall i, j | 0 <= i < j < |targets| :: targets[i] != targets[j] }

  predicate AllRoute(w: World, targets: seq<string>) {
    forall c | 0 <= c < |w.conns| :: w.conns[c].cfg.routes.targets == targets
  }

  lemma HolderTriesFirst(events: seq<Event>, w: World, targets: seq<string>, t: nat, j: nat)
    requires Reaches(events, w) && t < |w.tickets| && t < HALF64
    requires AllRoute(w, targets) && Distinct(targets) && j < |targets|
    ensures TriesFirst(w, t, targets[j]) <==> t % |targets| == j
  {
    hide Reaches;
    TicketsRotate(events, w, t);
    var n := |targets|;
    assert GivesPlace(t, n, 0, t % n);
    assert w.runs[w.tickets[t]].targets[0] == targets[t % n];
  }

  lemma {:induction false} FirstTriesCount(events: seq<Event>, w: World, targets: seq<string>, k: nat, j: nat)
    requires Reaches(events, w) && k <= |w.tickets| && k <= HALF64
    requires AllRoute(w, targets) && Distinct(targets) && j < |targets|
    ensures FirstTries(w, k, targets[j]) == FirstPlaces(k, |targets|, j)
  {
    hide Reaches, TriesFirst, AllRoute, Distinct;
    if k > 0 {
      FirstTriesCount(events, w, targets, k - 1, j);
      HolderTriesFirst(events, w, targets, k - 1, j);
    }
  }

  /** Fairness under every interleaving: while at most 2^63 tickets were taken for one list of
      different addresses, no address was tried first more than once more often than another. */
  lemma FirstTriesBalanced(events: seq<Event>, w: World, targets: seq<string>, i: nat, j: nat)
    requires Reaches(events, w) && |w.tickets| <= HALF64
    requires AllRoute(w, targets) && Distinct(targets) && i < |targets| && j < |targets|
    ensures -1 <= FirstTries(w, |w.tickets|, targets[i]) - FirstTries(w, |w.tickets|, targets[j]) <= 1
  {
    hide Reaches, AllRoute, Distinct, FirstTries, FirstPlaces;
    FirstTriesCount(events, w, targets, |w.tickets|, i);
    FirstTriesCount(events, w, targets, |w.tickets|, j);
    FirstPlacesBalanced(|w.tickets|, |targets|, i, j);
  }
}
