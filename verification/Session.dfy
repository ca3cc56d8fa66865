/** The routing part of a connection's session state: env requests, and the failover dial loop. */
module Session {
  import opened Text
  import opened Address
  import opened Modular
  import opened Routing
  import opened Wire

  // ---------------------------------------------------------------- bytes as text

  predicate IsAscii(b: bytes) { forall i | 0 <= i < |b| :: b[i] < 0x80 }

  function AsciiText(b: bytes): string { seq(|b|, i requires 0 <= i < |b| => b[i] as char) }

  /** How Go ranges over a byte string; any decoding that reads ASCII as ASCII will do. */
  type RuneDecoder = f: bytes -> string | forall b: bytes :: IsAscii(b) ==> f(b) == AsciiText(b)
    witness b => AsciiText(b)

  const RUNES: RuneDecoder

  // ---------------------------------------------------------------- env requests

  /** The routing fields that requests change. */
  datatype Routes = Routes(env: map<string, string>, target: Target)

  const NO_ROUTES := Routes(map[], Target("", "", ""))

  /** A variable is stored unless it is the server variable and routing is static or its value does
      not resolve. */
  predicate Stores(cfg: RouteConfig, user: string, name: string, value: string) {
    name == SERVER_VARIABLE ==> !cfg.staticEnabled && ResolveTargetAddress(value, user).Ok?
  }

  /** The effect of one decoded env request, and the reply to it. */
  function ApplyEnv(cfg: RouteConfig, user: string, s: Routes, name: string, value: string): (Routes, bool) {
    if name == SERVER_VARIABLE then
      if cfg.staticEnabled then (s, true)
      else
        match ResolveTargetAddress(value, user)
        case Err(_) => (s, false)
        case Ok(t) => (Routes(s.env[name := value], t), true)
    else (s.(env := s.env[name := value]), true)
  }

  datatype EnvRequestText = EnvRequestText(name: string, value: string)

  function ApplyEnvs(cfg: RouteConfig, user: string, requests: seq<EnvRequestText>): Routes {
    if requests == [] then NO_ROUTES
    else
      var last := requests[|requests| - 1];
      ApplyEnv(cfg, user, ApplyEnvs(cfg, user, requests[..|requests| - 1]), last.name, last.value).0
  }

  /** The value of the last request for a variable that was stored. */
  function LastStored(cfg: RouteConfig, user: string, requests: seq<EnvRequestText>, name: string): Option<string> {
    if requests == [] then None
    else
      var last := requests[|requests| - 1];
      if last.name == name && Stores(cfg, user, name, last.value) then Some(last.value)
      else LastStored(cfg, user, requests[..|requests| - 1], name)
  }

  /** Ordinary variables are always acceptable; the server variable is with dynamic routing when its
      value spells a target for the user. */
  lemma StoresIff(cfg: RouteConfig, user: string, name: string, value: string)
    ensures Stores(cfg, user, name, value) <==>
              name != SERVER_VARIABLE || (!cfg.staticEnabled && exists t :: SpellsFor(value, user, t))
  {
    hide ResolveTargetAddress, SpellsFor;
    forall t ensures ResolveTargetAddress(value, user) == Ok(t) <==> SpellsFor(value, user, t) {
      ResolvesTo(value, user, t);
    }
    if ResolveTargetAddress(value, user).Ok? {
      assert SpellsFor(value, user, ResolveTargetAddress(value, user).value);
    }
  }

  /** A request is answered with true unless it is for the server variable, routing is dynamic, and the
      value spells no target. */
  ghost predicate Accepted(cfg: RouteConfig, user: string, name: string, value: string) {
    name == SERVER_VARIABLE && !cfg.staticEnabled ==> exists t :: SpellsFor(value, user, t)
  }

  lemma ReplyIsAccepted(cfg: RouteConfig, user: string, s: Routes, name: string, value: string)
    ensures ApplyEnv(cfg, user, s, name, value).1 <==> Accepted(cfg, user, name, value)
  {
    hide ResolveTargetAddress, SpellsFor;
    StoresIff(cfg, user, name, value);
  }

  /** The last value requested for a variable. */
  function LastRequested(requests: seq<EnvRequestText>, name: string): Option<string> {
    if requests == [] then None
    else
      var last := requests[|requests| - 1];
      if last.name == name then Some(last.value) else LastRequested(requests[..|requests| - 1], name)
  }

  lemma {:induction false} OrdinaryIsRequested(cfg: RouteConfig, user: string, requests: seq<EnvRequestText>, name: string)
    requires name != SERVER_VARIABLE
    ensures LastStored(cfg, user, requests, name) == LastRequested(requests, name)
  {
    hide ResolveTargetAddress;
    if requests != [] {
      OrdinaryIsRequested(cfg, user, requests[..|requests| - 1], name);
    }
  }

  /** An ordinary variable holds the last value requested for it, and is unset when none was. */
  lemma OrdinaryVariables(cfg: RouteConfig, user: string, requests: seq<EnvRequestText>, name: string)
    requires name != SERVER_VARIABLE
    ensures var env := ApplyEnvs(cfg, user, requests).env;
            LastRequested(requests, name) == if name in env then Some(env[name]) else None
  {
    hide ApplyEnvs, LastStored, LastRequested;
    EnvHistory(cfg, user, requests);
    OrdinaryIsRequested(cfg, user, requests, name);
  }

  /** After any sequence of env requests every variable holds the last value that was acceptable for
      it; a stored server variable resolves to the stored target; and with static routing it is
      never stored. */
  lemma {:induction false} EnvHistory(cfg: RouteConfig, user: string, requests: seq<EnvRequestText>)
    ensures var s := ApplyEnvs(cfg, user, requests);
            && (forall name :: if name in s.env then LastStored(cfg, user, requests, name) == Some(s.env[name])
                               else LastStored(cfg, user, requests, name) == None)
            && (cfg.staticEnabled ==> SERVER_VARIABLE !in s.env)
            && (SERVER_VARIABLE !in s.env ==> s.target == NO_ROUTES.target)
            && (SERVER_VARIABLE in s.env ==> ResolveTargetAddress(s.env[SERVER_VARIABLE], user) == Ok(s.target))
  {
    hide ResolveTargetAddress;
    if requests != [] {
      var before := requests[..|requests| - 1];
      var last := requests[|requests| - 1];
      EnvHistory(cfg, user, before);
      OneMoreEnv(cfg, user, ApplyEnvs(cfg, user, before), last.name, last.value);
      hide ApplyEnv, Stores;
    }
  }

  /** One request stores its own variable when it is acceptable, and nothing else. */
  lemma OneMoreEnv(cfg: RouteConfig, user: string, s: Routes, name: string, value: string)
    ensures var after := ApplyEnv(cfg, user, s, name, value).0;
            && after.env == (if Stores(cfg, user, name, value) then s.env[name := value] else s.env)
            && (name == SERVER_VARIABLE && Stores(cfg, user, name, value) ==>
                  !cfg.staticEnabled && ResolveTargetAddress(value, user) == Ok(after.target))
            && (!(name == SERVER_VARIABLE && Stores(cfg, user, name, value)) ==> after.target == s.target)
  {
    hide ResolveTargetAddress;
  }

  /** Dial time agrees with env time: with dynamic routing the candidate is the stored value itself
      and it resolves, for the same user, to the target stored when it was received. */
  lemma EnvTargetIsDialled(cfg: RouteConfig, user: string, requests: seq<EnvRequestText>, command: string,
                           fromCommand: string, ticket: nat)
    requires !cfg.staticEnabled && ticket < WORD64
    requires LastStored(cfg, user, requests, SERVER_VARIABLE).Some?
    ensures var s := ApplyEnvs(cfg, user, requests);
            var value := LastStored(cfg, user, requests, SERVER_VARIABLE).value;
            && ResolveTargetCandidates(cfg, s.env, command, fromCommand, ticket) == Ok([value])
            && ResolveTargetAddress(value, user) == Ok(s.target)
            && IsSafeTarget(s.target)
  {
    EnvHistory(cfg, user, requests);
    var s := ApplyEnvs(cfg, user, requests);
    var value := s.env[SERVER_VARIABLE];
    ResolvesIff(value, user);
    ResolveIsStable(value, user, user);
    StoredVariableIsCandidate(cfg, s.env, command, fromCommand, ticket);
  }

  /** A request that is answered with false leaves the variables and the target as they were. */
  lemma RefusedEnvChangesNothing(cfg: RouteConfig, user: string, s: Routes, name: string, value: string)
    ensures !ApplyEnv(cfg, user, s, name, value).1 <==> !cfg.staticEnabled && !Stores(cfg, user, name, value)
    ensures !Stores(cfg, user, name, value) ==> ApplyEnv(cfg, user, s, name, value).0 == s
  {
    hide ResolveTargetAddress;
  }

  // ---------------------------------------------------------------- failover

  /** Whether the dial of an attempt (counted from 0) to a target succeeds. */
  type Dialer = (nat, Target) -> bool

  datatype Attempt =
    | BadAddress(address: string)
    | Failed(target: Target)
    | Connected(target: Target)

  datatype ConnectError = NoTargets | AllFailed(failures: nat)

  /** Attempt i, in (round, index) order, tries target i mod n. */
  function AttemptAt(targets: seq<string>, user: string, dial: Dialer, i: nat): Attempt
    requires targets != []
  {
    var address := targets[i % |targets|];
    match ResolveTargetAddress(address, user)
    case Err(_) => BadAddress(address)
    case Ok(t) => if dial(i, t) then Connected(t) else Failed(t)
  }

  /** The attempts made are the first ones in order, and none but the last connected. */
  ghost predicate InOrder(targets: seq<string>, user: string, dial: Dialer, attempts: seq<Attempt>) {
    && targets != []
    && (forall i | 0 <= i < |attempts| :: attempts[i] == AttemptAt(targets, user, dial, i))
    && (forall i | 0 <= i < |attempts| - 1 :: !attempts[i].Connected?)
  }

  /** The outcome of the loop: the first success in order, or an error after every attempt. */
  ghost predicate FirstSuccess(targets: seq<string>, user: string, dial: Dialer, rounds: nat,
                               attempts: seq<Attempt>, r: Result<Target, ConnectError>)
  {
    && InOrder(targets, user, dial, attempts)
    && |attempts| <= Attempts(rounds, |targets|)
    && match r
       case Ok(t) => attempts != [] && attempts[|attempts| - 1] == Connected(t)
       case Err(e) =>
         && e == AllFailed(|attempts|)
         && |attempts| == Attempts(rounds, |targets|)
         && (forall i | 0 <= i < |attempts| :: !attempts[i].Connected?)
  }

  /** The target the loop leaves in the session state: the last one that resolved. */
  function LastTarget(attempts: seq<Attempt>, before: Target): Target {
    if attempts == [] then before
    else
      match attempts[|attempts| - 1]
      case BadAddress(_) => LastTarget(attempts[..|attempts| - 1], before)
      case Failed(t) => t
      case Connected(t) => t
  }

  datatype EnvOutcome = Panicked | Replied(ok: bool)

  class SessionState {
    const clientUser: string
    const routes: RouteConfig
    var env: map<string, string>
    var target: Target

    ghost function View(): Routes
      reads this
    {
      Routes(env, target)
    }

    /** A new connection: the configured targets, a normalised mode, no negative retries. */
    constructor (clientUser: string, staticEnabled: bool, targets: seq<string>, mode: string, retries: int)
      ensures View() == NO_ROUTES
      ensures this.clientUser == clientUser
      ensures routes == RouteConfig(staticEnabled, targets, NormalizeRoutingMode(mode), if retries < 0 then 0 else retries)
    {
      this.clientUser := clientUser;
      this.routes := RouteConfig(staticEnabled, targets, NormalizeRoutingMode(mode), if retries < 0 then 0 else retries);
      this.env := NO_ROUTES.env;
      this.target := NO_ROUTES.target;
    }

    method SetEnvVar(name: string, value: string)
      modifies this`env
      ensures env == old(env)[name := value]
    {
      env := env[name := value];
    }

    method SetTarget(t: Target)
      modifies this`target
      ensures target == t
    {
      target := t;
    }

    /** An env request from its payload: the decoded pair takes effect, anything else changes nothing. */
    method HandleEnvRequest(payload: bytes) returns (outcome: EnvOutcome)
      modifies this`env, this`target
      ensures match DecodeEnv(payload)
              case EnvPanic => outcome == Panicked && View() == old(View())
              case EnvRefused => outcome == Replied(false) && View() == old(View())
              case Env(name, value) =>
                var after := ApplyEnv(routes, clientUser, old(View()), RUNES(name), RUNES(value));
                View() == after.0 && outcome == Replied(after.1)
      ensures |payload| < WORD ==> outcome != Panicked
    {
      DecodeEnvSafe(payload);
      hide DecodeEnv, ResolveTargetAddress;
      match DecodeEnv(payload)
      case EnvPanic => return Panicked;
      case EnvRefused => return Replied(false);
      case Env(nameBytes, valueBytes) =>
        var name, value := RUNES(nameBytes), RUNES(valueBytes);
        if name == SERVER_VARIABLE {
          if routes.staticEnabled {
            return Replied(true);
          }
          var resolved := ResolveTargetAddress(value, clientUser);
          if resolved.Err? {
            return Replied(false);
          }
          SetEnvVar(name, value);
          SetTarget(resolved.value);
          return Replied(true);
        }
        SetEnvVar(name, value);
        return Replied(true);
    }

    /** One attempt: resolve, remember the target, dial. */
    method TryTarget(address: string, attempt: nat, dial: Dialer) returns (a: Attempt)
      modifies this`target
      ensures match ResolveTargetAddress(address, clientUser)
              case Err(_) => a == BadAddress(address) && target == old(target)
              case Ok(t) => a == (if dial(attempt, t) then Connected(t) else Failed(t)) && target == t
    {
      match ResolveTargetAddress(address, clientUser)
      case Err(_) => a := BadAddress(address);
      case Ok(t) =>
        SetTarget(t);
        a := if dial(attempt, t) then Connected(t) else Failed(t);
    }

    /** Dials the targets round by round until one answers. */
    method ConnectToFirstAvailableTarget(targets: seq<string>, dial: Dialer)
      returns (r: Result<Target, ConnectError>, attempts: seq<Attempt>)
      modifies this`target
      ensures targets == [] ==> r == Err(NoTargets) && attempts == [] && target == old(target)
      ensures targets != [] ==> FirstSuccess(targets, clientUser, dial, 1 + routes.retries, attempts, r)
      ensures target == LastTarget(attempts, old(target))
      ensures r.Ok? ==> target == r.value
    {
      hide *;
      attempts := [];
      NothingTried(targets, clientUser, dial, target);
      if targets == [] {
        return Err(NoTargets), attempts;
      }
      NextRound(0, |targets|);
      var n := |targets|;
      var rounds := 1 + routes.retries;
      var failures := 0;
      var round := 0;
      while round < rounds
        invariant 0 <= round <= rounds
        invariant |attempts| == Attempts(round, n) == failures
        invariant AllFailedInOrder(targets, clientUser, dial, attempts)
        invariant target == LastTarget(attempts, old(target))
      {
        var index := 0;
        while index < n
          invariant 0 <= index <= n
          invariant |attempts| == Attempts(round, n) + index == failures
          invariant AllFailedInOrder(targets, clientUser, dial, attempts)
          invariant target == LastTarget(attempts, old(target))
        {
          AttemptsFit(round, rounds, n, index);
          var a := TryTarget(targets[index], |attempts|, dial);
          AttemptIsNext(targets, clientUser, dial, round, index);
          AttemptAppended(targets, clientUser, dial, attempts, a, old(target));
          attempts := attempts + [a];
          if a.Connected? {
            LoopOutcome(targets, clientUser, dial, rounds, attempts);
            return Ok(a.target), attempts;
          }
          failures := failures + 1;
          index := index + 1;
        }
        NextRound(round, n);
        round := round + 1;
      }
      LoopOutcome(targets, clientUser, dial, rounds, attempts);
      r := Err(AllFailed(failures));
    }
  }

  ghost predicate AllFailedInOrder(targets: seq<string>, user: string, dial: Dialer, attempts: seq<Attempt>) {
    InOrder(targets, user, dial, attempts) && forall i | 0 <= i < |attempts| :: !attempts[i].Connected?
  }

  lemma NothingTried(targets: seq<string>, user: string, dial: Dialer, before: Target)
    ensures LastTarget([], before) == before
    ensures targets != [] ==> AllFailedInOrder(targets, user, dial, [])
  {
  }

  lemma LoopOutcome(targets: seq<string>, user: string, dial: Dialer, rounds: nat, attempts: seq<Attempt>)
    requires InOrder(targets, user, dial, attempts) || AllFailedInOrder(targets, user, dial, attempts)
    requires |attempts| <= Attempts(rounds, |targets|)
    ensures attempts != [] && attempts[|attempts| - 1].Connected? ==>
              FirstSuccess(targets, user, dial, rounds, attempts, Ok(attempts[|attempts| - 1].target))
    ensures AllFailedInOrder(targets, user, dial, attempts) && |attempts| == Attempts(rounds, |targets|) ==>
              FirstSuccess(targets, user, dial, rounds, attempts, Err(AllFailed(|attempts|)))
  {
    hide AttemptAt;
  }

  lemma AttemptIsNext(targets: seq<string>, user: string, dial: Dialer, round: nat, index: nat)
    requires index < |targets|
    ensures AttemptAt(targets, user, dial, Attempts(round, |targets|) + index) ==
              match ResolveTargetAddress(targets[index], user)
              case Err(_) => BadAddress(targets[index])
              case Ok(t) => if dial(Attempts(round, |targets|) + index, t) then Connected(t) else Failed(t)
  {
    hide ResolveTargetAddress;
    DivModUnique(Attempts(round, |targets|) + index, |targets|, round, index);
  }

  lemma AttemptAppended(targets: seq<string>, user: string, dial: Dialer, attempts: seq<Attempt>, a: Attempt, before: Target)
    requires AllFailedInOrder(targets, user, dial, attempts)
    requires a == AttemptAt(targets, user, dial, |attempts|)
    ensures InOrder(targets, user, dial, attempts + [a])
    ensures !a.Connected? ==> AllFailedInOrder(targets, user, dial, attempts + [a])
    ensures LastTarget(attempts + [a], before) == if a.BadAddress? then LastTarget(attempts, before) else a.target
  {
    hide AttemptAt;
    assert (attempts + [a])[..|attempts|] == attempts;
  }

  lemma DecodeEnvSafe(payload: bytes)
    ensures |payload| < WORD ==> DecodeEnv(payload) != EnvPanic
  {
    if |payload| < WORD {
      DecodeEnvInverts(payload, [], []);
    }
  }

  lemma AttemptsFit(round: nat, rounds: nat, n: nat, index: nat)
    requires round < rounds && index < n
    ensures Attempts(round, n) + index + 1 <= Attempts(rounds, n)
  {
    assert (rounds - round) * n == rounds * n - round * n;
    AtLeastOneTimes(rounds - round, n);
  }

  lemma NextRound(round: nat, n: nat)
    ensures Attempts(0, n) == 0 && Attempts(round + 1, n) == Attempts(round, n) + n
  {
  }

  // ---------------------------------------------------------------- reachable targets

  /** With valid addresses and a safe session user no attempt fails before it dials. */
  lemma ValidAddressesAreDialled(targets: seq<string>, user: string, dial: Dialer, i: nat)
    requires targets != [] && AllValid(targets) && IsSafeUser(TrimSpace(user))
    ensures !AttemptAt(targets, user, dial, i).BadAddress?
  {
    ResolvesIff(targets[i % |targets|], user);
  }

  /** A target in position j that always answers is reached in the first round, after at most j
      other targets. */
  lemma ReachableTargetConnects(targets: seq<string>, user: string, dial: Dialer, rounds: nat,
                                attempts: seq<Attempt>, r: Result<Target, ConnectError>, j: nat)
    requires FirstSuccess(targets, user, dial, rounds, attempts, r) && rounds >= 1
    requires j < |targets| && ResolveTargetAddress(targets[j], user).Ok?
    requires forall i :: dial(i, ResolveTargetAddress(targets[j], user).value)
    ensures r.Ok? && |attempts| <= j + 1
  {
    DivModUnique(j, |targets|, 0, j);
    AtLeastOneTimes(rounds, |targets|);
    var t := ResolveTargetAddress(targets[j], user).value;
    assert AttemptAt(targets, user, dial, j) == Connected(t) by {
      assert dial(j, t);
    }
    hide ResolveTargetAddress, AttemptAt;
    assert j < |attempts| ==> attempts[j] == AttemptAt(targets, user, dial, j);
  }

  lemma FirstAttempt(value: string, user: string, dial: Dialer, rounds: nat, attempts: seq<Attempt>, r: Result<Target, ConnectError>)
    requires FirstSuccess([value], user, dial, rounds, attempts, r) && r.Ok? && |attempts| <= 1
    ensures |attempts| == 1 && Ok(r.value) == ResolveTargetAddress(value, user)
  {
    hide ResolveTargetAddress;
    assert attempts[0] == AttemptAt([value], user, dial, 0);
  }

  /** From a validated configuration to a connection: for a safe session user, static routing with
      one configured target that always answers connects within n attempts, whatever the ticket. */
  lemma StaticRoutingConnects(cfg: RouteConfig, env: map<string, string>, command: string, fromCommand: string,
                              ticket: nat, user: string, dial: Dialer, up: string,
                              attempts: seq<Attempt>, r: Result<Target, ConnectError>)
    requires cfg.staticEnabled && UsableRoutes(cfg) && ticket < HALF64 && IsSafeUser(TrimSpace(user))
    requires up in cfg.targets && ResolveTargetAddress(up, user).Ok?
    requires forall i :: dial(i, ResolveTargetAddress(up, user).value)
    requires ResolveTargetCandidates(cfg, env, command, fromCommand, ticket).Ok? ==>
               FirstSuccess(ResolveTargetCandidates(cfg, env, command, fromCommand, ticket).value, user, dial,
                            1 + cfg.retries, attempts, r)
    ensures r.Ok? && |attempts| <= |cfg.targets|
  {
    hide ResolveTargetCandidates, ResolveTargetAddress, UsableRoutes, AllValid, FirstSuccess, IsSafeUser, TrimSpace;
    StaticCandidates(cfg, env, command, fromCommand, ticket);
    var order := ResolveTargetCandidates(cfg, env, command, fromCommand, ticket).value;
    assert up in multiset(cfg.targets);
    assert up in order;
    var j :| 0 <= j < |order| && order[j] == up;
    ReachableTargetConnects(order, user, dial, 1 + cfg.retries, attempts, r, j);
  }

  /** The same for dynamic routing: a stored server variable is the only candidate, and when its
      target always answers the first attempt connects to the target stored with it. */
  lemma DynamicRoutingConnects(cfg: RouteConfig, user: string, requests: seq<EnvRequestText>, command: string,
                               fromCommand: string, ticket: nat, dial: Dialer,
                               attempts: seq<Attempt>, r: Result<Target, ConnectError>)
    requires !cfg.staticEnabled && ticket < WORD64
    requires LastStored(cfg, user, requests, SERVER_VARIABLE).Some?
    requires forall i :: dial(i, ApplyEnvs(cfg, user, requests).target)
    requires var candidates := ResolveTargetCandidates(cfg, ApplyEnvs(cfg, user, requests).env, command, fromCommand, ticket);
             candidates.Ok? ==> FirstSuccess(candidates.value, user, dial, 1 + cfg.retries, attempts, r)
    ensures r == Ok(ApplyEnvs(cfg, user, requests).target) && |attempts| == 1
  {
    hide *;
    EnvTargetIsDialled(cfg, user, requests, command, fromCommand, ticket);
    var value := LastStored(cfg, user, requests, SERVER_VARIABLE).value;
    ReachableTargetConnects([value], user, dial, 1 + cfg.retries, attempts, r, 0);
    FirstAttempt(value, user, dial, 1 + cfg.retries, attempts, r);
  }
}
