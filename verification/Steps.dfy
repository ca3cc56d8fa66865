/** One session goroutine (a shell or exec proxy) as a program counter and its atomic steps. Every
    access to the shared session state takes its lock once, so each accessor call is one step. */
module Steps {
  import opened Text
  import opened Address
  import opened Routing
  import opened Identity
  import opened Counting

  // ---------------------------------------------------------------- what a run works on

  datatype Settings = Settings(user: string, allowDirect: bool, ssoEnabled: bool, enforceMatch: bool, routes: RouteConfig)

  /** The locked fields of one connection's session state. Handles are named by the run that acquired them. */
  datatype Shared = Shared(
    verified: bool,
    client: Option<nat>,
    session: Option<nat>,
    recorder: Option<nat>,
    target: Target,
    env: map<string, string>)

  datatype Metrics = Metrics(
    connections: int, active: int, handshakeFailures: int,
    pending: int, ssoSuccesses: int, ssoFailures: int, ssoErrors: int,
    successes: int, failures: int, rejections: int)

  /** Process-wide state: the metrics, and the round-robin counter with its uint64 value. */
  datatype Globals = Globals(metrics: Metrics, counter: uint64, crashed: bool)

  datatype ChannelEvent = ExitStatus(code: int) | CloseWrite | Close | HandlerClose

  datatype Kind = Shell | Exec
  datatype Handle = Client | TargetSession | Recorder
  datatype Outcome = Success | Failure | Rejected
  datatype Confirmation = NotTried | Trying | Refused | Confirmed
  datatype Lane = Stdin | Stdout | Stderr

  /** The places of the session goroutine, in program order. */
  type PC = p: int | 0 <= p <= 34

  const START: PC := 0              // the handler is entered
  const GATE: PC := 1               // read the SSO settings and the verified flag
  const WAIT_BEGIN: PC := 2         // count the wait
  const FLOW: PC := 3               // the device flow runs
  const REFUSED_RECORD: PC := 4     // count the refusal
  const REFUSED_ERROR: PC := 5      // count the error
  const VERIFY: PC := 6             // set the verified flag
  const CONFIRMED_RECORD: PC := 7   // count the confirmation
  const WAIT_END: PC := 8           // count the end of the wait
  const RESOLVE: PC := 9            // choose the candidates
  const DIAL: PC := 10              // resolve the next candidate and set the target
  const DIALING: PC := 11           // the dial runs
  const PUT_CLIENT: PC := 12        // set the target client
  const PUT_TARGET: PC := 13        // set the target again
  const NEW_SESSION: PC := 14       // open the target session
  const PUT_SESSION: PC := 15       // set the target session
  const NEW_RECORDER: PC := 16      // open the recorder
  const PUT_RECORDER: PC := 17      // set the recorder
  const SETUP: PC := 18             // pipes, environment, terminal
  const LAUNCH: PC := 19            // start the remote shell or command
  const WAIT: PC := 20              // wait for it
  const FINAL_EXIT: PC := 21        // send the exit status
  const FINAL_CLOSE_WRITE: PC := 22 // close the channel for writing
  const FINAL_CLOSE: PC := 23       // close the channel
  const CLEAR_RECORDER: PC := 24    // deferred: clear the recorder
  const CLOSE_RECORDER: PC := 25    // deferred: close it
  const CLEAR_SESSION: PC := 26     // deferred: clear the target session
  const CLOSE_SESSION: PC := 27     // deferred: close it
  const CLEAR_CLIENT: PC := 28      // deferred: clear the target client
  const CLOSE_CLIENT: PC := 29      // deferred: close it
  const REPORT: PC := 30            // count the outcome
  const ERROR_EXIT: PC := 31        // send exit status 1
  const ERROR_CLOSE_WRITE: PC := 32 // close the channel for writing
  const ERROR_CLOSE: PC := 33       // close the channel
  const DONE: PC := 34              // the goroutine has returned

  datatype Run = Run(
    conn: nat, chan: nat, kind: Kind, command: string,
    pc: PC,
    ok: bool,                      // no error is being returned
    confirmation: Confirmation,    // as recorded in the metrics
    identity: Option<Identity>,    // what a device flow of this run confirmed
    targets: seq<string>, attempt: nat, dialled: Option<Target>,
    acquired: nat,                 // how many of client, session and recorder it has opened, in that order
    released: seq<Handle>,         // what it has closed, in order
    code: Option<int>,             // the exit status finalizeRemoteSession sends
    outcome: Option<Outcome>,      // as recorded in the metrics
    launched: bool,                // the copy goroutines are running
    captured: map<Lane, Option<nat>>)

  function NewRun(conn: nat, chan: nat, kind: Kind, command: string): Run {
    Run(conn, chan, kind, command, START, true, NotTried, None, [], 0, None, 0, [], None, None, false, map[])
  }

  // ---------------------------------------------------------------- the environment's choices

  datatype Ending = Exited(status: int) | Broken

  datatype Choice =
    | Go
    | FlowResult(identity: Option<Identity>)
    | Heuristic(fromCommand: string)
    | Try(ok: bool)
    | Ended(ending: Ending)

  predicate Fits(pc: PC, c: Choice) {
    if pc == FLOW then c.FlowResult?
    else if pc == RESOLVE then c.Heuristic?
    else if pc == DIALING || pc == NEW_SESSION || pc == NEW_RECORDER || pc == SETUP || pc == LAUNCH then c.Try?
    else if pc == WAIT then c.Ended?
    else pc != DONE && c.Go?
  }

  // ---------------------------------------------------------------- the phases

  predicate AtGate(pc: PC) { START <= pc <= WAIT_END }

  predicate AtDial(pc: PC) { RESOLVE <= pc <= DIALING }

  predicate AtSetUp(pc: PC) { PUT_CLIENT <= pc <= WAIT }

  predicate AtTearDown(pc: PC) { CLEAR_RECORDER <= pc <= CLOSE_CLIENT }

  predicate AtFinal(pc: PC) { FINAL_EXIT <= pc <= FINAL_CLOSE }

  predicate AtReport(pc: PC) { REPORT <= pc <= ERROR_CLOSE }

  // ---------------------------------------------------------------- the steps

  datatype Moved = Moved(run: Run, shared: Shared, globals: Globals, out: seq<ChannelEvent>)

  predicate IdentityAccepted(cfg: Settings, i: Identity) {
    cfg.enforceMatch ==> MatchesSSHUser(i, EffectiveUser(cfg.user))
  }

  /** Where an error or a normal return unwinds to: the deferred calls of what was acquired. */
  function Unwind(r: Run, ok: bool): Run {
    var pc := if r.acquired >= 3 then CLEAR_RECORDER else if r.acquired == 2 then CLEAR_SESSION
              else if r.acquired == 1 then CLEAR_CLIENT else REPORT;
    r.(ok := ok, pc := pc)
  }

  /** handleShellProxy and handleExecProxy up to the end of ensureSSOAuthentication. */
  function StepGate(r: Run, cfg: Settings, sh: Shared, g: Globals, c: Choice): Moved
    requires Fits(r.pc, c) && AtGate(r.pc)
  {
    var m := g.metrics;
    if r.pc == START then
      if r.kind == Exec && !cfg.allowDirect then Moved(r.(ok := false, pc := REPORT), sh, g, [])
      else Moved(r.(pc := GATE), sh, g, [])
    else if r.pc == GATE then
      Moved(r.(pc := if !cfg.ssoEnabled || sh.verified then RESOLVE else WAIT_BEGIN), sh, g, [])
    else if r.pc == WAIT_BEGIN then
      Moved(r.(confirmation := Trying, pc := FLOW), sh, g.(metrics := m.(pending := m.pending + 1)), [])
    else if r.pc == FLOW then
      var accepted := c.identity.Some? && IdentityAccepted(cfg, c.identity.value);
      Moved(r.(identity := c.identity, ok := accepted, pc := if accepted then VERIFY else REFUSED_RECORD), sh, g, [])
    else if r.pc == REFUSED_RECORD then
      Moved(r.(confirmation := Refused, pc := REFUSED_ERROR), sh, g.(metrics := m.(ssoFailures := m.ssoFailures + 1)), [])
    else if r.pc == REFUSED_ERROR then
      Moved(r.(pc := WAIT_END), sh, g.(metrics := m.(ssoErrors := m.ssoErrors + 1)), [])
    else if r.pc == VERIFY then
      Moved(r.(pc := CONFIRMED_RECORD), sh.(verified := true), g, [])
    else if r.pc == CONFIRMED_RECORD then
      Moved(r.(confirmation := Confirmed, pc := WAIT_END), sh, g.(metrics := m.(ssoSuccesses := m.ssoSuccesses + 1)), [])
    else
      Moved(r.(pc := if r.ok then RESOLVE else REPORT), sh, g.(metrics := m.(pending := m.pending - 1)), [])
  }

  function NextTarget(targets: seq<string>, attempt: nat): string
    requires targets != []
  {
    targets[attempt % |targets|]
  }

  /** Only a round-robin choice among several targets takes a ticket. */
  predicate TakesTicket(cfg: Settings) {
    cfg.routes.staticEnabled && Rotates(cfg.routes.targets, cfg.routes.mode)
  }

  /** Candidate resolution and the failover loop. */
  function StepDial(r: Run, cfg: Settings, sh: Shared, g: Globals, c: Choice): Moved
    requires Fits(r.pc, c) && AtDial(r.pc)
  {
    if r.pc == RESOLVE then
      var after := if TakesTicket(cfg) then g.(counter := (g.counter + 1) % WORD64) else g;
      match ResolveTargetCandidates(cfg.routes, sh.env, r.command, c.fromCommand, g.counter)
      case Ok(targets) => Moved(r.(targets := targets, pc := DIAL), sh, after, [])
      case Err(RotationPanic) => Moved(r, sh, after.(crashed := true), [])
      case Err(_) => Moved(Unwind(r, false), sh, after, [])
    else if r.pc == DIAL then
      if r.targets == [] || r.attempt >= Attempts(1 + cfg.routes.retries, |r.targets|)
      then Moved(Unwind(r, false), sh, g, [])
      else
        match ResolveTargetAddress(NextTarget(r.targets, r.attempt), cfg.user)
        case Err(_) => Moved(r.(attempt := r.attempt + 1), sh, g, [])
        case Ok(t) => Moved(r.(dialled := Some(t), pc := DIALING), sh.(target := t), g, [])
    else if c.ok then Moved(r.(acquired := 1, pc := PUT_CLIENT), sh, g, [])
    else Moved(r.(attempt := r.attempt + 1, pc := DIAL), sh, g, [])
  }

  /** proxySession from the connected client to the end of the remote session. */
  function StepSetUp(r: Run, id: nat, sh: Shared, g: Globals, c: Choice): Moved
    requires Fits(r.pc, c) && AtSetUp(r.pc)
  {
    if r.pc == PUT_CLIENT then Moved(r.(pc := PUT_TARGET), sh.(client := Some(id)), g, [])
    else if r.pc == PUT_TARGET then
      Moved(r.(pc := NEW_SESSION), if r.dialled.Some? then sh.(target := r.dialled.value) else sh, g, [])
    else if r.pc == NEW_SESSION then
      Moved(if c.ok then r.(acquired := 2, pc := PUT_SESSION) else Unwind(r, false), sh, g, [])
    else if r.pc == PUT_SESSION then Moved(r.(pc := NEW_RECORDER), sh.(session := Some(id)), g, [])
    else if r.pc == NEW_RECORDER then
      Moved(if c.ok then r.(acquired := 3, pc := PUT_RECORDER) else Unwind(r, false), sh, g, [])
    else if r.pc == PUT_RECORDER then Moved(r.(pc := SETUP), sh.(recorder := Some(id)), g, [])
    else if r.pc == SETUP then
      Moved(if c.ok then r.(launched := true, pc := LAUNCH) else Unwind(r, false), sh, g, [])
    else if r.pc == LAUNCH then Moved(if c.ok then r.(pc := WAIT) else Unwind(r, false), sh, g, [])
    else
      match c.ending
      case Exited(status) => Moved(r.(code := Some(status), ok := true, pc := FINAL_EXIT), sh, g, [])
      case Broken => Moved(r.(code := Some(1), ok := false, pc := FINAL_EXIT), sh, g, [])
  }

  /** The deferred calls of proxySession. */
  function StepTearDown(r: Run, sh: Shared, g: Globals): Moved
    requires AtTearDown(r.pc)
  {
    if r.pc == CLEAR_RECORDER then Moved(r.(pc := CLOSE_RECORDER), sh.(recorder := None), g, [])
    else if r.pc == CLOSE_RECORDER then Moved(r.(released := r.released + [Recorder], pc := CLEAR_SESSION), sh, g, [])
    else if r.pc == CLEAR_SESSION then Moved(r.(pc := CLOSE_SESSION), sh.(session := None), g, [])
    else if r.pc == CLOSE_SESSION then Moved(r.(released := r.released + [TargetSession], pc := CLEAR_CLIENT), sh, g, [])
    else if r.pc == CLEAR_CLIENT then Moved(r.(pc := CLOSE_CLIENT), sh.(client := None), g, [])
    else Moved(r.(released := r.released + [Client], pc := REPORT), sh, g, [])
  }

  /** finalizeRemoteSession. */
  function StepFinal(r: Run, sh: Shared, g: Globals): Moved
    requires AtFinal(r.pc)
  {
    if r.pc == FINAL_EXIT then
      Moved(r.(pc := FINAL_CLOSE_WRITE), sh, g, [ExitStatus(if r.code.Some? then r.code.value else 0)])
    else if r.pc == FINAL_CLOSE_WRITE then Moved(r.(pc := FINAL_CLOSE), sh, g, [CloseWrite])
    else Moved(Unwind(r, r.ok), sh, g, [Close])
  }

  /** The ends of handleShellProxy and handleExecProxy. */
  function StepReport(r: Run, cfg: Settings, sh: Shared, g: Globals): Moved
    requires AtReport(r.pc)
  {
    var m := g.metrics;
    if r.pc == REPORT then
      if r.ok then
        Moved(r.(outcome := Some(Success), pc := DONE), sh, g.(metrics := m.(successes := m.successes + 1)), [])
      else if r.kind == Exec && !cfg.allowDirect then
        Moved(r.(outcome := Some(Rejected), pc := ERROR_EXIT), sh, g.(metrics := m.(rejections := m.rejections + 1)), [])
      else
        Moved(r.(outcome := Some(Failure), pc := ERROR_EXIT), sh, g.(metrics := m.(failures := m.failures + 1)), [])
    else if r.pc == ERROR_EXIT then Moved(r.(pc := ERROR_CLOSE_WRITE), sh, g, [ExitStatus(1)])
    else if r.pc == ERROR_CLOSE_WRITE then Moved(r.(pc := ERROR_CLOSE), sh, g, [CloseWrite])
    else Moved(r.(pc := DONE), sh, g, [Close])
  }

  /** One step of run `id`. */
  function Step(r: Run, id: nat, cfg: Settings, sh: Shared, g: Globals, c: Choice): Moved
    requires Fits(r.pc, c)
  {
    if AtGate(r.pc) then StepGate(r, cfg, sh, g, c)
    else if AtDial(r.pc) then StepDial(r, cfg, sh, g, c)
    else if AtSetUp(r.pc) then StepSetUp(r, id, sh, g, c)
    else if AtFinal(r.pc) then StepFinal(r, sh, g)
    else if AtTearDown(r.pc) then StepTearDown(r, sh, g)
    else StepReport(r, cfg, sh, g)
  }

  // ---------------------------------------------------------------- facts about a run's place

  /** The handle fields a run occupies: from its set to its clear. */
  predicate HasPutClient(pc: PC) { PUT_TARGET <= pc <= CLEAR_CLIENT }

  predicate HasPutSession(pc: PC) { NEW_RECORDER <= pc <= CLEAR_SESSION }

  predicate HasPutRecorder(pc: PC) { SETUP <= pc <= CLEAR_RECORDER }

  /** Past the SSO gate, on the way to dialling or beyond. */
  predicate PastGate(r: Run) {
    r.dialled.Some? || RESOLVE <= r.pc <= CLOSE_CLIENT
  }

  predicate InWait(pc: PC) { FLOW <= pc <= WAIT_END }

  /** What a run that opened n handles has closed when `open` of them are left: recorder, then
      session, then client. */
  function Released(n: nat, open: nat): seq<Handle> {
    if n == 0 || open >= n then []
    else if n == 1 then [Client]
    else if n == 2 then if open == 1 then [TargetSession] else [TargetSession, Client]
    else if open == 2 then [Recorder] else if open == 1 then [Recorder, TargetSession] else [Recorder, TargetSession, Client]
  }

  /** The fewest and the most handles a run may have opened when it is at a place. */
  function FewestAcquired(pc: PC): nat {
    if pc < PUT_CLIENT then 0
    else if pc < PUT_SESSION then 1
    else if pc < PUT_RECORDER then 2
    else if pc < CLEAR_SESSION then 3
    else if pc < CLEAR_CLIENT then 2
    else if pc < REPORT then 1
    else 0
  }

  function MostAcquired(pc: PC): nat {
    if pc < PUT_RECORDER then FewestAcquired(pc) else 3
  }

  /** How many of them are still to be closed. */
  function StillOpen(pc: PC, n: nat): nat {
    if pc < CLEAR_SESSION then n
    else if pc < CLEAR_CLIENT then 2
    else if pc < REPORT then 1
    else 0
  }

  /** The handles are opened in order and closed once each in the opposite order. */
  predicate HandleOrder(r: Run) {
    && FewestAcquired(r.pc) <= r.acquired <= MostAcquired(r.pc)
    && r.released == Released(r.acquired, StillOpen(r.pc, r.acquired))
  }

  function Occupied(before: bool, after: bool, id: nat, field: Option<nat>): Option<nat> {
    if after && !before then Some(id) else if before && !after then None else field
  }

  /** A handle field changes exactly when the stepping run takes or leaves it, and only a run that
      has opened the handle takes it. */
  predicate FieldsFollow(r: Run, id: nat, sh: Shared, s: Moved) {
    && s.shared.client == Occupied(HasPutClient(r.pc), HasPutClient(s.run.pc), id, sh.client)
    && s.shared.session == Occupied(HasPutSession(r.pc), HasPutSession(s.run.pc), id, sh.session)
    && s.shared.recorder == Occupied(HasPutRecorder(r.pc), HasPutRecorder(s.run.pc), id, sh.recorder)
    && r.acquired <= s.run.acquired
  }

  lemma GateHandles(r: Run, id: nat, cfg: Settings, sh: Shared, g: Globals, c: Choice)
    requires Fits(r.pc, c) && AtGate(r.pc) && HandleOrder(r)
    ensures HandleOrder(StepGate(r, cfg, sh, g, c).run)
    ensures FieldsFollow(r, id, sh, StepGate(r, cfg, sh, g, c))
  {
    hide IdentityAccepted;
  }

  lemma DialHandles(r: Run, id: nat, cfg: Settings, sh: Shared, g: Globals, c: Choice)
    requires Fits(r.pc, c) && AtDial(r.pc) && HandleOrder(r)
    ensures HandleOrder(StepDial(r, cfg, sh, g, c).run)
    ensures FieldsFollow(r, id, sh, StepDial(r, cfg, sh, g, c))
  {
    hide ResolveTargetAddress, ResolveTargetCandidates, Rotates, NextTarget, Attempts;
  }

  lemma SetUpOrder(r: Run, id: nat, sh: Shared, g: Globals, c: Choice)
    requires Fits(r.pc, c) && AtSetUp(r.pc) && HandleOrder(r)
    ensures HandleOrder(StepSetUp(r, id, sh, g, c).run)
  {
  }

  lemma SetUpFields(r: Run, id: nat, sh: Shared, g: Globals, c: Choice)
    requires Fits(r.pc, c) && AtSetUp(r.pc) && HandleOrder(r)
    ensures FieldsFollow(r, id, sh, StepSetUp(r, id, sh, g, c))
  {
    hide Released;
  }

  lemma TearDownHandles(r: Run, id: nat, sh: Shared, g: Globals)
    requires AtTearDown(r.pc) && HandleOrder(r)
    ensures HandleOrder(StepTearDown(r, sh, g).run)
    ensures FieldsFollow(r, id, sh, StepTearDown(r, sh, g))
  {
  }

  lemma FinalHandles(r: Run, id: nat, sh: Shared, g: Globals)
    requires AtFinal(r.pc) && HandleOrder(r)
    ensures HandleOrder(StepFinal(r, sh, g).run)
    ensures FieldsFollow(r, id, sh, StepFinal(r, sh, g))
  {
  }

  lemma ReportHandles(r: Run, id: nat, cfg: Settings, sh: Shared, g: Globals)
    requires AtReport(r.pc) && HandleOrder(r)
    ensures HandleOrder(StepReport(r, cfg, sh, g).run)
    ensures FieldsFollow(r, id, sh, StepReport(r, cfg, sh, g))
  {
  }

  lemma StepHandles(r: Run, id: nat, cfg: Settings, sh: Shared, g: Globals, c: Choice)
    requires Fits(r.pc, c) && HandleOrder(r)
    ensures HandleOrder(Step(r, id, cfg, sh, g, c).run)
    ensures FieldsFollow(r, id, sh, Step(r, id, cfg, sh, g, c))
  {
    hide FieldsFollow, HandleOrder, StepGate, StepDial, StepSetUp, StepFinal, StepTearDown, StepReport;
    if AtGate(r.pc) {
      GateHandles(r, id, cfg, sh, g, c);
    } else if AtDial(r.pc) {
      DialHandles(r, id, cfg, sh, g, c);
    } else if AtSetUp(r.pc) {
      SetUpOrder(r, id, sh, g, c);
      SetUpFields(r, id, sh, g, c);
    } else if AtFinal(r.pc) {
      FinalHandles(r, id, sh, g);
    } else if AtTearDown(r.pc) {
      TearDownHandles(r, id, sh, g);
    } else {
      ReportHandles(r, id, cfg, sh, g);
    }
  }

  // ---------------------------------------------------------------- what each phase can change

  predicate GateEffect(r: Run, sh: Shared, g: Globals, s: Moved) {
    && s.run == r.(confirmation := s.run.confirmation, identity := s.run.identity, ok := s.run.ok, pc := s.run.pc)
    && s.shared == sh.(verified := s.shared.verified)
    && (var m := s.globals.metrics;
        s.globals == g.(metrics := g.metrics.(pending := m.pending, ssoSuccesses := m.ssoSuccesses,
                                              ssoFailures := m.ssoFailures, ssoErrors := m.ssoErrors)))
    && s.out == []
    && (s.run.pc <= RESOLVE || s.run.pc == REPORT)
  }

  lemma GateEffects(r: Run, cfg: Settings, sh: Shared, g: Globals, c: Choice)
    requires Fits(r.pc, c) && AtGate(r.pc)
    ensures GateEffect(r, sh, g, StepGate(r, cfg, sh, g, c))
  {
    hide IdentityAccepted;
  }

  predicate DialEffect(r: Run, sh: Shared, g: Globals, s: Moved) {
    && s.run == r.(targets := s.run.targets, attempt := s.run.attempt, dialled := s.run.dialled,
                   acquired := s.run.acquired, ok := s.run.ok, pc := s.run.pc)
    && s.shared == sh.(target := s.shared.target)
    && s.globals.metrics == g.metrics
    && s.out == []
    && (if s.run.pc == REPORT then !s.run.ok else RESOLVE <= s.run.pc <= PUT_CLIENT && s.run.ok == r.ok)
    && (if s.run.pc == DIALING then s.run.dialled == Some(s.shared.target) && IsSafeTarget(s.shared.target)
        else s.run.dialled == r.dialled && s.shared.target == sh.target)
    && (s.run.pc == RESOLVE ==> s.run == r)
    && (s.run.acquired > 0 || s.run.pc == PUT_CLIENT ==> r.pc == DIALING)
  }

  lemma ResolveEffects(r: Run, cfg: Settings, sh: Shared, g: Globals, c: Choice)
    requires Fits(r.pc, c) && r.pc == RESOLVE && HandleOrder(r)
    ensures DialEffect(r, sh, g, StepDial(r, cfg, sh, g, c))
  {
    hide ResolveTargetAddress, ResolveTargetCandidates, TakesTicket, NextTarget, Attempts, IsSafeTarget, Released;
  }

  lemma NextTargetEffects(r: Run, cfg: Settings, sh: Shared, g: Globals, c: Choice)
    requires Fits(r.pc, c) && r.pc == DIAL && HandleOrder(r)
    ensures DialEffect(r, sh, g, StepDial(r, cfg, sh, g, c))
  {
    hide ResolveTargetAddress, ResolveTargetCandidates, TakesTicket, NextTarget, Attempts, IsSafeTarget, Released;
    if r.targets != [] {
      ResolvedIsSafe(NextTarget(r.targets, r.attempt), cfg.user);
    }
  }

  lemma DialingEffects(r: Run, cfg: Settings, sh: Shared, g: Globals, c: Choice)
    requires Fits(r.pc, c) && r.pc == DIALING && HandleOrder(r)
    ensures DialEffect(r, sh, g, StepDial(r, cfg, sh, g, c))
  {
    hide ResolveTargetAddress, ResolveTargetCandidates, TakesTicket, NextTarget, Attempts, IsSafeTarget, Released;
  }

  lemma DialEffects(r: Run, cfg: Settings, sh: Shared, g: Globals, c: Choice)
    requires Fits(r.pc, c) && AtDial(r.pc) && HandleOrder(r)
    ensures DialEffect(r, sh, g, StepDial(r, cfg, sh, g, c))
  {
    hide StepDial, DialEffect, HandleOrder;
    if r.pc == RESOLVE {
      ResolveEffects(r, cfg, sh, g, c);
    } else if r.pc == DIAL {
      NextTargetEffects(r, cfg, sh, g, c);
    } else {
      DialingEffects(r, cfg, sh, g, c);
    }
  }

  predicate SetUpEffect(r: Run, sh: Shared, g: Globals, s: Moved) {
    && s.run == r.(acquired := s.run.acquired, launched := s.run.launched, code := s.run.code, ok := s.run.ok, pc := s.run.pc)
    && s.shared.verified == sh.verified && s.shared.env == sh.env
    && (s.shared.target == sh.target || r.dialled == Some(s.shared.target))
    && s.globals == g
    && s.out == []
    && PUT_TARGET <= s.run.pc <= CLEAR_CLIENT
    && (s.run.pc == PUT_SESSION || s.run.pc == PUT_RECORDER || s.run.acquired == r.acquired)
    && (s.run.launched == r.launched || (s.run.pc == LAUNCH && s.run.acquired == 3))
    && s.run.pc > r.pc
    && (if s.run.pc == FINAL_EXIT then s.run.code.Some? && (s.run.ok || s.run.code.value == 1)
        else s.run.code == r.code && (s.run.pc <= WAIT || (s.run.pc >= CLEAR_RECORDER && !s.run.ok)))
  }

  lemma OpeningEffects(r: Run, id: nat, sh: Shared, g: Globals, c: Choice)
    requires Fits(r.pc, c) && PUT_CLIENT <= r.pc <= PUT_RECORDER && HandleOrder(r)
    ensures SetUpEffect(r, sh, g, StepSetUp(r, id, sh, g, c))
  {
    hide Released;
  }

  lemma RunningEffects(r: Run, id: nat, sh: Shared, g: Globals, c: Choice)
    requires Fits(r.pc, c) && SETUP <= r.pc <= WAIT && HandleOrder(r)
    ensures SetUpEffect(r, sh, g, StepSetUp(r, id, sh, g, c))
  {
    hide Released;
  }

  lemma SetUpEffects(r: Run, id: nat, sh: Shared, g: Globals, c: Choice)
    requires Fits(r.pc, c) && AtSetUp(r.pc) && HandleOrder(r)
    ensures SetUpEffect(r, sh, g, StepSetUp(r, id, sh, g, c))
  {
    hide SetUpEffect, StepSetUp, Fits, HandleOrder;
    if r.pc < SETUP {
      OpeningEffects(r, id, sh, g, c);
    } else {
      RunningEffects(r, id, sh, g, c);
    }
  }

  predicate FinalEffect(r: Run, sh: Shared, g: Globals, s: Moved) {
    && s.run == r.(pc := s.run.pc)
    && s.run.pc == r.pc + 1
    && s.shared == sh && s.globals == g
    && s.out == [if r.pc == FINAL_EXIT then ExitStatus(if r.code.Some? then r.code.value else 0)
                 else if r.pc == FINAL_CLOSE_WRITE then CloseWrite else Close]
  }

  lemma FinalEffects(r: Run, sh: Shared, g: Globals)
    requires AtFinal(r.pc) && HandleOrder(r)
    ensures FinalEffect(r, sh, g, StepFinal(r, sh, g))
  {
    hide Released;
  }

  predicate TearDownEffect(r: Run, sh: Shared, g: Globals, s: Moved) {
    && s.run == r.(released := s.run.released, pc := s.run.pc)
    && s.run.pc == r.pc + 1
    && s.shared.verified == sh.verified && s.shared.env == sh.env && s.shared.target == sh.target
    && s.globals == g
    && s.out == []
  }

  lemma TearDownEffects(r: Run, sh: Shared, g: Globals)
    requires AtTearDown(r.pc)
    ensures TearDownEffect(r, sh, g, StepTearDown(r, sh, g))
  {
  }

  predicate ReportEffect(r: Run, cfg: Settings, sh: Shared, g: Globals, s: Moved) {
    && s.run == r.(outcome := s.run.outcome, pc := s.run.pc)
    && s.shared == sh
    && (var m := s.globals.metrics;
        s.globals == g.(metrics := g.metrics.(successes := m.successes, failures := m.failures, rejections := m.rejections)))
    && (if r.pc == REPORT then
          && s.out == []
          && s.run.pc == (if r.ok then DONE else ERROR_EXIT)
          && s.run.outcome == Some(if r.ok then Success else if r.kind == Exec && !cfg.allowDirect then Rejected else Failure)
        else
          && s.out == [if r.pc == ERROR_EXIT then ExitStatus(1) else if r.pc == ERROR_CLOSE_WRITE then CloseWrite else Close]
          && s.run.pc == r.pc + 1
          && s.run.outcome == r.outcome)
  }

  lemma ReportEffects(r: Run, cfg: Settings, sh: Shared, g: Globals)
    requires AtReport(r.pc)
    ensures ReportEffect(r, cfg, sh, g, StepReport(r, cfg, sh, g))
  {
  }

  /** What the phase the run is in can change. */
  predicate Effect(r: Run, cfg: Settings, sh: Shared, g: Globals, s: Moved) {
    if AtGate(r.pc) then GateEffect(r, sh, g, s)
    else if AtDial(r.pc) then DialEffect(r, sh, g, s)
    else if AtSetUp(r.pc) then SetUpEffect(r, sh, g, s)
    else if AtFinal(r.pc) then FinalEffect(r, sh, g, s)
    else if AtTearDown(r.pc) then TearDownEffect(r, sh, g, s)
    else ReportEffect(r, cfg, sh, g, s)
  }

  lemma StepEffects(r: Run, id: nat, cfg: Settings, sh: Shared, g: Globals, c: Choice)
    requires Fits(r.pc, c) && HandleOrder(r)
    ensures Effect(r, cfg, sh, g, Step(r, id, cfg, sh, g, c))
  {
    hide HandleOrder, StepGate, StepDial, StepSetUp, StepFinal, StepTearDown, StepReport,
         GateEffect, DialEffect, SetUpEffect, FinalEffect, TearDownEffect, ReportEffect;
    if AtGate(r.pc) {
      GateEffects(r, cfg, sh, g, c);
    } else if AtDial(r.pc) {
      DialEffects(r, cfg, sh, g, c);
    } else if AtSetUp(r.pc) {
      SetUpEffects(r, id, sh, g, c);
    } else if AtFinal(r.pc) {
      FinalEffects(r, sh, g);
    } else if AtTearDown(r.pc) {
      TearDownEffects(r, sh, g);
    } else {
      ReportEffects(r, cfg, sh, g);
    }
  }

  // ---------------------------------------------------------------- what a place implies

  /** A device flow of this run succeeded with an identity the gate accepts. */
  predicate Evidence(r: Run, cfg: Settings) {
    r.identity.Some? && IdentityAccepted(cfg, r.identity.value)
  }

  predicate ConfirmationFits(r: Run, cfg: Settings) {
    && (r.pc <= WAIT_BEGIN ==> r.confirmation == NotTried)
    && (r.pc <= FLOW ==> r.identity == None)
    && (FLOW <= r.pc <= REFUSED_RECORD || VERIFY <= r.pc <= CONFIRMED_RECORD ==> r.confirmation == Trying)
    && (r.pc == REFUSED_ERROR ==> r.confirmation == Refused)
    && (r.pc == WAIT_END ==> r.confirmation == if r.ok then Confirmed else Refused)
    && (r.pc > WAIT_END ==> r.confirmation != Trying)
    && (REFUSED_RECORD <= r.pc <= REFUSED_ERROR ==> !r.ok)
    && (VERIFY <= r.pc <= CONFIRMED_RECORD ==> r.ok && Evidence(r, cfg))
  }

  predicate OutcomeFits(r: Run) {
    && (r.outcome.Some? <==> r.pc >= ERROR_EXIT)
    && (ERROR_EXIT <= r.pc <= ERROR_CLOSE ==> !r.ok && r.outcome != Some(Success))
    && (r.pc == DONE ==> (r.ok <==> r.outcome == Some(Success)))
  }

  predicate CodeFits(r: Run) {
    && (r.pc <= WAIT ==> r.code == None)
    && (FINAL_EXIT <= r.pc <= FINAL_CLOSE ==> r.code.Some?)
    && (r.pc >= CLEAR_RECORDER && r.ok ==> r.code.Some?)
    && (r.code.Some? && !r.ok ==> r.code.value == 1)
    && (r.launched ==> r.pc >= LAUNCH && r.acquired == 3)
  }

  /** A direct command that is not allowed goes from the first check to the report. */
  predicate DirectFits(r: Run, cfg: Settings) {
    && (r.kind == Exec && !cfg.allowDirect ==>
          && (r.pc == START || (r.pc >= REPORT && !r.ok))
          && r.acquired == 0 && r.dialled == None && r.targets == [] && r.confirmation == NotTried && !r.launched
          && r.code == None && (r.outcome == None || r.outcome == Some(Rejected)))
    && (r.outcome == Some(Rejected) ==> r.kind == Exec && !cfg.allowDirect)
  }

  predicate DialFits(r: Run) {
    && (DIALING <= r.pc <= CLOSE_CLIENT ==> r.dialled.Some?)
    && (r.dialled.Some? ==> IsSafeTarget(r.dialled.value))
    && (r.pc <= RESOLVE ==> r.dialled == None && r.targets == [] && r.attempt == 0)
    && (r.acquired > 0 ==> r.dialled.Some?)
  }

  predicate PlaceFits(r: Run, cfg: Settings) {
    ConfirmationFits(r, cfg) && OutcomeFits(r) && CodeFits(r) && DirectFits(r, cfg) && DialFits(r) && HandleOrder(r)
  }

  lemma NewRunFits(conn: nat, chan: nat, kind: Kind, command: string, cfg: Settings)
    ensures PlaceFits(NewRun(conn, chan, kind, command), cfg)
  {
  }

  /** What a run can move past, and what stays. */
  predicate SameRun(r: Run, s: Run) {
    s.conn == r.conn && s.chan == r.chan && s.kind == r.kind && s.command == r.command && s.captured == r.captured
  }

  lemma GateConfirmation(r: Run, cfg: Settings, sh: Shared, g: Globals, c: Choice)
    requires Fits(r.pc, c) && AtGate(r.pc) && ConfirmationFits(r, cfg)
    ensures ConfirmationFits(StepGate(r, cfg, sh, g, c).run, cfg)
  {
    hide IdentityAccepted;
  }

  lemma GateDirect(r: Run, cfg: Settings, sh: Shared, g: Globals, c: Choice)
    requires Fits(r.pc, c) && AtGate(r.pc) && DirectFits(r, cfg)
    ensures DirectFits(StepGate(r, cfg, sh, g, c).run, cfg)
  {
    hide IdentityAccepted;
  }

  lemma GatePlace(r: Run, cfg: Settings, sh: Shared, g: Globals, c: Choice)
    requires Fits(r.pc, c) && AtGate(r.pc) && PlaceFits(r, cfg)
    ensures var s := StepGate(r, cfg, sh, g, c);
            ConfirmationFits(s.run, cfg) && OutcomeFits(s.run) && CodeFits(s.run) && DirectFits(s.run, cfg) && DialFits(s.run)
            && SameRun(r, s.run)
  {
    GateEffects(r, cfg, sh, g, c);
    GateConfirmation(r, cfg, sh, g, c);
    GateDirect(r, cfg, sh, g, c);
    hide IdentityAccepted, IsSafeTarget, HandleOrder, StepGate, ConfirmationFits, DirectFits;
  }

  lemma DialPlace(r: Run, cfg: Settings, sh: Shared, g: Globals, s: Moved)
    requires AtDial(r.pc) && PlaceFits(r, cfg) && DialEffect(r, sh, g, s)
    ensures ConfirmationFits(s.run, cfg) && OutcomeFits(s.run) && CodeFits(s.run) && DirectFits(s.run, cfg) && DialFits(s.run)
    ensures SameRun(r, s.run)
  {
    hide IdentityAccepted, IsSafeTarget, HandleOrder;
  }

  lemma SetUpPlace(r: Run, cfg: Settings, sh: Shared, g: Globals, s: Moved)
    requires AtSetUp(r.pc) && PlaceFits(r, cfg) && SetUpEffect(r, sh, g, s)
    ensures ConfirmationFits(s.run, cfg) && OutcomeFits(s.run) && CodeFits(s.run) && DirectFits(s.run, cfg) && DialFits(s.run)
    ensures SameRun(r, s.run)
  {
    hide IdentityAccepted, IsSafeTarget, HandleOrder;
  }

  lemma FinalPlace(r: Run, cfg: Settings, sh: Shared, g: Globals, s: Moved)
    requires AtFinal(r.pc) && PlaceFits(r, cfg) && FinalEffect(r, sh, g, s)
    ensures ConfirmationFits(s.run, cfg) && OutcomeFits(s.run) && CodeFits(s.run) && DirectFits(s.run, cfg) && DialFits(s.run)
    ensures SameRun(r, s.run)
  {
    hide IdentityAccepted, IsSafeTarget, HandleOrder;
  }

  lemma TearDownPlace(r: Run, cfg: Settings, sh: Shared, g: Globals, s: Moved)
    requires AtTearDown(r.pc) && PlaceFits(r, cfg) && TearDownEffect(r, sh, g, s)
    ensures ConfirmationFits(s.run, cfg) && OutcomeFits(s.run) && CodeFits(s.run) && DirectFits(s.run, cfg) && DialFits(s.run)
    ensures SameRun(r, s.run)
  {
    hide IdentityAccepted, IsSafeTarget, HandleOrder;
  }

  lemma ReportPlace(r: Run, cfg: Settings, sh: Shared, g: Globals, s: Moved)
    requires AtReport(r.pc) && PlaceFits(r, cfg) && ReportEffect(r, cfg, sh, g, s)
    ensures ConfirmationFits(s.run, cfg) && OutcomeFits(s.run) && CodeFits(s.run) && DirectFits(s.run, cfg) && DialFits(s.run)
    ensures SameRun(r, s.run)
  {
    hide IdentityAccepted, IsSafeTarget, HandleOrder;
  }

  /** Every step keeps what its run's place implies. */
  lemma StepPlace(r: Run, id: nat, cfg: Settings, sh: Shared, g: Globals, c: Choice)
    requires Fits(r.pc, c) && PlaceFits(r, cfg)
    ensures PlaceFits(Step(r, id, cfg, sh, g, c).run, cfg) && SameRun(r, Step(r, id, cfg, sh, g, c).run)
  {
    hide FieldsFollow, HandleOrder, ConfirmationFits, OutcomeFits, CodeFits, DirectFits, DialFits, SameRun,
         StepGate, StepDial, StepSetUp, StepFinal, StepTearDown, StepReport,
         GateEffect, DialEffect, SetUpEffect, FinalEffect, TearDownEffect, ReportEffect;
    StepHandles(r, id, cfg, sh, g, c);
    StepEffects(r, id, cfg, sh, g, c);
    var s := Step(r, id, cfg, sh, g, c);
    if AtGate(r.pc) {
      GatePlace(r, cfg, sh, g, c);
    } else if AtDial(r.pc) {
      DialPlace(r, cfg, sh, g, s);
    } else if AtSetUp(r.pc) {
      SetUpPlace(r, cfg, sh, g, s);
    } else if AtFinal(r.pc) {
      FinalPlace(r, cfg, sh, g, s);
    } else if AtTearDown(r.pc) {
      TearDownPlace(r, cfg, sh, g, s);
    } else {
      ReportPlace(r, cfg, sh, g, s);
    }
  }

  /** Outside the gate no step touches the flag, the confirmation or the SSO metrics. */
  predicate SSOUntouched(r: Run, sh: Shared, g: Globals, s: Moved) {
    && s.run.confirmation == r.confirmation && s.run.identity == r.identity
    && s.shared.verified == sh.verified
    && r.pc >= RESOLVE && s.run.pc >= RESOLVE
    && s.globals.metrics.pending == g.metrics.pending
    && s.globals.metrics.ssoSuccesses == g.metrics.ssoSuccesses
    && s.globals.metrics.ssoFailures == g.metrics.ssoFailures
    && s.globals.metrics.ssoErrors == g.metrics.ssoErrors
    && (PastGate(s.run) ==> PastGate(r))
  }

  lemma LaterPhasesLeaveSSO(r: Run, cfg: Settings, sh: Shared, g: Globals, s: Moved)
    requires !AtGate(r.pc) && r.pc != DONE && Effect(r, cfg, sh, g, s)
    ensures SSOUntouched(r, sh, g, s)
  {
    hide IsSafeTarget;
  }

  // ---------------------------------------------------------------- the SSO gate

  /** With SSO on, a run past the gate implies the verified flag; so does one that just set it. */
  predicate GateHolds(r: Run, cfg: Settings, sh: Shared) {
    && (cfg.ssoEnabled && PastGate(r) ==> sh.verified)
    && (r.pc == CONFIRMED_RECORD || (r.pc == WAIT_END && r.ok) ==> sh.verified)
  }

  lemma AtGateStep(r: Run, id: nat, cfg: Settings, sh: Shared, g: Globals, c: Choice)
    requires Fits(r.pc, c) && AtGate(r.pc)
    ensures Step(r, id, cfg, sh, g, c) == StepGate(r, cfg, sh, g, c)
  {
    hide StepGate;
  }

  lemma GateStepHolds(r: Run, cfg: Settings, sh: Shared, g: Globals, c: Choice)
    requires Fits(r.pc, c) && AtGate(r.pc) && ConfirmationFits(r, cfg) && DialFits(r) && GateHolds(r, cfg, sh)
    ensures var s := StepGate(r, cfg, sh, g, c); GateHolds(s.run, cfg, s.shared)
  {
    hide IdentityAccepted, IsSafeTarget, Evidence;
  }

  lemma GateEvidence(r: Run, cfg: Settings, sh: Shared, g: Globals, c: Choice)
    requires Fits(r.pc, c) && AtGate(r.pc) && ConfirmationFits(r, cfg)
    ensures var s := StepGate(r, cfg, sh, g, c);
            && (sh.verified ==> s.shared.verified)
            && (s.shared.verified && !sh.verified ==> Evidence(s.run, cfg))
            && (Evidence(r, cfg) ==> Evidence(s.run, cfg))
  {
    hide IdentityAccepted;
  }

  /** The verified flag is never lowered, is raised only with evidence, and lets the gate hold. */
  lemma StepGateHolds(r: Run, id: nat, cfg: Settings, sh: Shared, g: Globals, c: Choice)
    requires Fits(r.pc, c) && PlaceFits(r, cfg) && GateHolds(r, cfg, sh)
    ensures var s := Step(r, id, cfg, sh, g, c);
            && GateHolds(s.run, cfg, s.shared)
            && (sh.verified ==> s.shared.verified)
            && (s.shared.verified && !sh.verified ==> Evidence(s.run, cfg))
            && (Evidence(r, cfg) ==> Evidence(s.run, cfg))
  {
    hide HandleOrder, ConfirmationFits, OutcomeFits, CodeFits, DirectFits, DialFits, IdentityAccepted, Effect, Step;
    if AtGate(r.pc) {
      GateStepHolds(r, cfg, sh, g, c);
      GateEvidence(r, cfg, sh, g, c);
      AtGateStep(r, id, cfg, sh, g, c);
    } else {
      StepEffects(r, id, cfg, sh, g, c);
      LaterPhasesLeaveSSO(r, cfg, sh, g, Step(r, id, cfg, sh, g, c));
    }
  }

  // ---------------------------------------------------------------- metrics

  predicate Waiting(r: Run) { InWait(r.pc) }
  predicate IsConfirmed(r: Run) { r.confirmation == Confirmed }
  predicate IsRefused(r: Run) { r.confirmation == Refused }
  predicate ErrorCounted(r: Run) { r.confirmation == Refused && r.pc != REFUSED_ERROR }
  predicate Succeeded(r: Run) { r.outcome == Some(Success) }
  predicate FailedRun(r: Run) { r.outcome == Some(Failure) }
  predicate WasRejected(r: Run) { r.outcome == Some(Rejected) }

  /** A step moves each metric by what it changes about its own run. */
  predicate MetricsFollow(r: Run, m: Metrics, s: Run, n: Metrics) {
    && n.connections == m.connections && n.active == m.active && n.handshakeFailures == m.handshakeFailures
    && n.pending == m.pending + One(Waiting(s)) - One(Waiting(r))
    && n.ssoSuccesses == m.ssoSuccesses + One(IsConfirmed(s)) - One(IsConfirmed(r))
    && n.ssoFailures == m.ssoFailures + One(IsRefused(s)) - One(IsRefused(r))
    && n.ssoErrors == m.ssoErrors + One(ErrorCounted(s)) - One(ErrorCounted(r))
    && n.successes == m.successes + One(Succeeded(s)) - One(Succeeded(r))
    && n.failures == m.failures + One(FailedRun(s)) - One(FailedRun(r))
    && n.rejections == m.rejections + One(WasRejected(s)) - One(WasRejected(r))
  }

  lemma GateMetrics(r: Run, cfg: Settings, sh: Shared, g: Globals, c: Choice)
    requires Fits(r.pc, c) && AtGate(r.pc) && ConfirmationFits(r, cfg)
    ensures var s := StepGate(r, cfg, sh, g, c);
            var n := s.globals.metrics;
            && n.pending == g.metrics.pending + One(Waiting(s.run)) - One(Waiting(r))
            && n.ssoSuccesses == g.metrics.ssoSuccesses + One(IsConfirmed(s.run)) - One(IsConfirmed(r))
            && n.ssoFailures == g.metrics.ssoFailures + One(IsRefused(s.run)) - One(IsRefused(r))
            && n.ssoErrors == g.metrics.ssoErrors + One(ErrorCounted(s.run)) - One(ErrorCounted(r))
  {
    hide IdentityAccepted;
  }

  lemma ReportMetrics(r: Run, cfg: Settings, sh: Shared, g: Globals)
    requires AtReport(r.pc) && OutcomeFits(r)
    ensures var s := StepReport(r, cfg, sh, g);
            var n := s.globals.metrics;
            && n.successes == g.metrics.successes + One(Succeeded(s.run)) - One(Succeeded(r))
            && n.failures == g.metrics.failures + One(FailedRun(s.run)) - One(FailedRun(r))
            && n.rejections == g.metrics.rejections + One(WasRejected(s.run)) - One(WasRejected(r))
  {
  }

  lemma QuietMetrics(r: Run, cfg: Settings, sh: Shared, g: Globals, s: Moved)
    requires r.pc != DONE && PlaceFits(r, cfg) && Effect(r, cfg, sh, g, s)
    ensures var m, n := g.metrics, s.globals.metrics;
            && n.connections == m.connections && n.active == m.active && n.handshakeFailures == m.handshakeFailures
            && (!AtReport(r.pc) ==>
                  && s.run.outcome == r.outcome
                  && n.successes == m.successes && n.failures == m.failures && n.rejections == m.rejections)
            && (!AtGate(r.pc) ==>
                  && Waiting(s.run) == Waiting(r) && IsConfirmed(s.run) == IsConfirmed(r)
                  && IsRefused(s.run) == IsRefused(r) && ErrorCounted(s.run) == ErrorCounted(r))
  {
    hide IsSafeTarget, HandleOrder, ConfirmationFits, OutcomeFits, CodeFits, DirectFits, DialFits;
  }

  lemma StepMetrics(r: Run, id: nat, cfg: Settings, sh: Shared, g: Globals, c: Choice)
    requires Fits(r.pc, c) && PlaceFits(r, cfg)
    ensures var s := Step(r, id, cfg, sh, g, c); MetricsFollow(r, g.metrics, s.run, s.globals.metrics)
  {
    hide HandleOrder, ConfirmationFits, OutcomeFits, CodeFits, DirectFits, DialFits, Effect, One,
         StepGate, StepDial, StepSetUp, StepFinal, StepTearDown, StepReport,
         Waiting, IsConfirmed, IsRefused, ErrorCounted;
    var s := Step(r, id, cfg, sh, g, c);
    StepEffects(r, id, cfg, sh, g, c);
    QuietMetrics(r, cfg, sh, g, s);
    if AtGate(r.pc) {
      GateMetrics(r, cfg, sh, g, c);
    } else {
      LaterPhasesLeaveSSO(r, cfg, sh, g, s);
      if AtReport(r.pc) {
        ReportMetrics(r, cfg, sh, g);
      }
    }
  }

  // ---------------------------------------------------------------- the channel

  /** What finalizeRemoteSession and the error report have sent on the channel so far. */
  function SentByRun(r: Run): seq<ChannelEvent> {
    var final := match r.code
                 case None => []
                 case Some(code) =>
                   if r.pc == FINAL_EXIT then []
                   else if r.pc == FINAL_CLOSE_WRITE then [ExitStatus(code)]
                   else if r.pc == FINAL_CLOSE then [ExitStatus(code), CloseWrite]
                   else [ExitStatus(code), CloseWrite, Close];
    var error := if r.pc == ERROR_CLOSE_WRITE then [ExitStatus(1)]
                 else if r.pc == ERROR_CLOSE then [ExitStatus(1), CloseWrite]
                 else if r.pc == DONE && !r.ok then [ExitStatus(1), CloseWrite, Close]
                 else [];
    final + error
  }

  /** In every phase the channel gets exactly what the run's account of it grows by. */
  lemma StepSends(r: Run, id: nat, cfg: Settings, sh: Shared, g: Globals, c: Choice)
    requires Fits(r.pc, c) && PlaceFits(r, cfg)
    ensures var s := Step(r, id, cfg, sh, g, c); SentByRun(s.run) == SentByRun(r) + s.out
  {
    hide HandleOrder, ConfirmationFits, DirectFits, DialFits, IsSafeTarget, Step;
    StepEffects(r, id, cfg, sh, g, c);
  }

  /** The first three events are an exit status, the write close and the close, in this order. */
  predicate OneExitFirst(out: seq<ChannelEvent>) {
    && (|out| >= 1 ==> out[0].ExitStatus?)
    && (|out| >= 2 ==> out[1] == CloseWrite)
    && (|out| >= 3 ==> out[2] == Close)
  }

  /** A finished run has sent exactly one exit status before its first close: the status of the
      remote session when the run succeeded, and 1 otherwise. */
  lemma SentIsClean(r: Run, cfg: Settings)
    requires PlaceFits(r, cfg)
    ensures OneExitFirst(SentByRun(r))
    ensures r.pc == DONE ==> |SentByRun(r)| >= 3
    ensures r.pc == DONE ==> SentByRun(r)[0] == ExitStatus(if r.ok then r.code.value else 1)
  {
    hide IdentityAccepted, IsSafeTarget, Released, ConfirmationFits, DirectFits, HandleOrder, DialFits;
  }

  // ---------------------------------------------------------------- targets and tickets

  predicate KnownTarget(t: Target) { t == Target("", "", "") || IsSafeTarget(t) }

  lemma StepTargets(r: Run, id: nat, cfg: Settings, sh: Shared, g: Globals, c: Choice)
    requires Fits(r.pc, c) && PlaceFits(r, cfg) && KnownTarget(sh.target)
    ensures var s := Step(r, id, cfg, sh, g, c); KnownTarget(s.shared.target) && s.shared.env == sh.env
  {
    hide HandleOrder, ConfirmationFits, DirectFits, OutcomeFits, CodeFits, IsSafeTarget, Step;
    StepEffects(r, id, cfg, sh, g, c);
  }

  lemma ResolveTicket(r: Run, cfg: Settings, sh: Shared, g: Globals, c: Choice)
    requires Fits(r.pc, c) && r.pc == RESOLVE && !g.crashed
    ensures var s := StepDial(r, cfg, sh, g, c);
            var order := OrderedStaticTargets(cfg.routes.targets, cfg.routes.mode, g.counter);
            && s.globals.counter == (if TakesTicket(cfg) then (g.counter + 1) % WORD64 else g.counter)
            && (s.globals.crashed <==> (TakesTicket(cfg) && order.None?))
            && (TakesTicket(cfg) && order.Some? ==> s.run.targets == order.value)
            && (!s.globals.crashed ==> s.run.pc > RESOLVE)
  {
    hide SplitTargetAddress, TrimSpace, NormalizeRoutingMode, GoRemainder, Lookup;
  }

  lemma QuietTicket(r: Run, cfg: Settings, sh: Shared, g: Globals, c: Choice)
    requires Fits(r.pc, c) && AtDial(r.pc) && r.pc != RESOLVE
    ensures var s := StepDial(r, cfg, sh, g, c); s.globals == g && s.run.targets == r.targets && s.run.pc > RESOLVE
  {
    hide ResolveTargetAddress, ResolveTargetCandidates, TakesTicket, NextTarget, Attempts;
  }

  /** A ticket is taken at candidate resolution only, the list it gives stays with the run, and the
      process panics exactly when the rotation has a negative bound. */
  lemma StepTicket(r: Run, id: nat, cfg: Settings, sh: Shared, g: Globals, c: Choice)
    requires Fits(r.pc, c) && PlaceFits(r, cfg) && !g.crashed
    ensures var s := Step(r, id, cfg, sh, g, c);
            var takes := r.pc == RESOLVE && TakesTicket(cfg);
            var order := OrderedStaticTargets(cfg.routes.targets, cfg.routes.mode, g.counter);
            && s.globals.counter == (if takes then (g.counter + 1) % WORD64 else g.counter)
            && (s.globals.crashed <==> (takes && order.None?))
            && (takes && order.Some? ==> s.run.targets == order.value)
            && (r.pc != RESOLVE ==> s.run.targets == r.targets)
            && (r.pc >= RESOLVE && !s.globals.crashed ==> s.run.pc > RESOLVE)
  {
    hide HandleOrder, ConfirmationFits, DirectFits, OutcomeFits, CodeFits, DialFits, IsSafeTarget,
         StepGate, StepDial, StepSetUp, StepFinal, StepTearDown, StepReport, TakesTicket, OrderedStaticTargets;
    if r.pc == RESOLVE {
      ResolveTicket(r, cfg, sh, g, c);
    } else if AtDial(r.pc) {
      QuietTicket(r, cfg, sh, g, c);
    } else {
      StepEffects(r, id, cfg, sh, g, c);
    }
  }
}
