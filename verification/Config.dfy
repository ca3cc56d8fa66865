/** The startup configuration: the order of steps in loading it, and its validation in place. */
module Config {
  import opened Text
  import opened Address
  import opened Routing

  datatype StaticRouting = StaticRouting(
    enabled: bool, servers: seq<string>, mode: string, retries: int, connectTimeoutSeconds: int)

  datatype Metrics = Metrics(listen: string, path: string)

  datatype SSO = SSO(provider: string, baseURL: string, realm: string, clientID: string, scope: string,
                     authTimeoutSeconds: int, pollIntervalSeconds: int, connectTimeoutSeconds: int)

  /** The validated part of the configuration, as a value. */
  datatype Settings = Settings(
    listen: string, key: string, logLevel: string, recordingsDir: string,
    authorizedKeys: string, autoAcceptClientKeys: bool, recordingFormat: string,
    retries: int, connectTimeoutSeconds: int,
    staticRouting: StaticRouting, metrics: Metrics, sso: SSO)

  datatype ConfigError =
    | ListenMissing | KeyMissing | BadLogLevel | AuthorizedKeysMissing | BadFormat | BadRetries
    | BadProvider | BadMode | EmptyServer(index: nat) | BadServer(index: nat, error: AddressError) | ServersMissing

  const DEFAULT_CONNECT_TIMEOUT := 10
  const ASCIINEMA := "asciinema"
  const SCRIPT := "script"
  const KEYCLOAK := "keycloak"

  // ---------------------------------------------------------------- settings with a fixed vocabulary

  function NormalizeFormat(format: string): string {
    if Folded(format) == "" then ASCIINEMA else Folded(format)
  }

  predicate IsSupportedFormat(format: string) {
    NormalizeFormat(format) == ASCIINEMA || NormalizeFormat(format) == SCRIPT
  }

  function NormalizeProvider(provider: string): string {
    if Folded(provider) == "" then KEYCLOAK else Folded(provider)
  }

  function NormalizeLogLevel(level: string): string {
    if TrimSpace(level) == "" then "info" else TrimSpace(level)
  }

  predicate IsLogLevel(level: string) { level == "error" || level == "info" || level == "debug" }

  function NormalizePath(path: string): string {
    if Blank(path) then "/metrics"
    else if !StartsWith(path, '/') then "/" + TrimLeft(path, c => c == '/')
    else path
  }

  function OrDefault(value: string, default: string): string { if Blank(value) then default else value }

  function PositiveOr(value: int, default: int): int { if value <= 0 then default else value }

  /** Each vocabulary normalises into itself. */
  lemma VocabulariesAreFixed()
    ensures NormalizeFormat(ASCIINEMA) == ASCIINEMA && NormalizeFormat(SCRIPT) == SCRIPT
    ensures NormalizeProvider(KEYCLOAK) == KEYCLOAK
  {
    hide Folded;
    LowerWordFolds(ASCIINEMA);
    LowerWordFolds(SCRIPT);
    LowerWordFolds(KEYCLOAK);
  }

  lemma LogLevelIsFixed(level: string)
    requires IsLogLevel(NormalizeLogLevel(level))
    ensures NormalizeLogLevel(NormalizeLogLevel(level)) == NormalizeLogLevel(level)
  {
    hide TrimSpace;
    TrimSpaceFixpoint(level);
    TrimSpaceFixpoint("info");
    assert !IsSpace('i') && !IsSpace('o');
  }

  lemma PathHasSlash(path: string)
    ensures StartsWith(NormalizePath(path), '/')
  {
    hide Blank, TrimLeft;
  }

  lemma SlashIsNotBlank(path: string)
    requires StartsWith(path, '/')
    ensures !Blank(path)
  {
    hide Blank;
    BlankIff(path);
    assert !IsSpace(path[0]);
  }

  lemma PathIsFixed(path: string)
    ensures StartsWith(NormalizePath(path), '/')
    ensures NormalizePath(NormalizePath(path)) == NormalizePath(path)
  {
    hide Blank, TrimLeft;
    PathHasSlash(path);
    SlashIsNotBlank(NormalizePath(path));
  }

  // ---------------------------------------------------------------- validation as a function

  /** Everything before the routing section, in the order of the checks. */
  function ValidatedBasics(c: Settings): (Settings, Option<ConfigError>) {
    if Blank(c.listen) then (c, Some(ListenMissing))
    else if Blank(c.key) then (c, Some(KeyMissing))
    else
      var c := c.(logLevel := NormalizeLogLevel(c.logLevel));
      if !IsLogLevel(c.logLevel) then (c, Some(BadLogLevel))
      else
        var c := c.(recordingsDir := OrDefault(c.recordingsDir, "./recordings"));
        if !c.autoAcceptClientKeys && Blank(c.authorizedKeys) then (c, Some(AuthorizedKeysMissing))
        else if !IsSupportedFormat(c.recordingFormat) then (c, Some(BadFormat))
        else if c.retries < 0 then (c, Some(BadRetries))
        else
          (c.(connectTimeoutSeconds := PositiveOr(c.connectTimeoutSeconds, DEFAULT_CONNECT_TIMEOUT),
              metrics := Metrics(OrDefault(c.metrics.listen, "127.0.0.1:9090"), NormalizePath(c.metrics.path))),
           None)
  }

  function ValidatedSSO(s: SSO): (SSO, Option<ConfigError>) {
    var s := s.(provider := NormalizeProvider(s.provider));
    if s.provider != KEYCLOAK then (s, Some(BadProvider))
    else
      (SSO(s.provider,
           OrDefault(s.baseURL, "http://localhost:8080"),
           OrDefault(s.realm, "ssh-proxy-server"),
           OrDefault(s.clientID, "ssh-proxy-server"),
           OrDefault(s.scope, "openid"),
           PositiveOr(s.authTimeoutSeconds, 120),
           PositiveOr(s.pollIntervalSeconds, 5),
           PositiveOr(s.connectTimeoutSeconds, 10)),
       None)
  }

  /** The first bad server, if any. */
  function ServerError(server: string, index: nat): Option<ConfigError> {
    if Blank(server) then Some(EmptyServer(index))
    else
      match SplitTargetAddress(TrimSpace(server))
      case Err(e) => Some(BadServer(index, e))
      case Ok(_) => None
  }

  /** Trims the servers from index i on, up to the first bad one. */
  function ValidatedServers(servers: seq<string>, i: nat): (seq<string>, Option<ConfigError>)
    requires i <= |servers|
    decreases |servers| - i
  {
    if i == |servers| then (servers, None)
    else if ServerError(servers[i], i).Some? then (servers, ServerError(servers[i], i))
    else ValidatedServers(servers[i := TrimSpace(servers[i])], i + 1)
  }

  function ValidatedRouting(r: StaticRouting): (StaticRouting, Option<ConfigError>) {
    var r := r.(mode := NormalizeRoutingMode(r.mode));
    if !IsSupportedRoutingMode(r.mode) then (r, Some(BadMode))
    else
      var (servers, err) := ValidatedServers(r.servers, 0);
      var r := r.(servers := servers);
      if err.Some? then (r, err)
      else if r.enabled && servers == [] then (r, Some(ServersMissing))
      else (r, None)
  }

  /** The configuration that validation leaves behind, and its verdict. */
  function Validated(c: Settings): (Settings, Option<ConfigError>) {
    var (c, err) := ValidatedBasics(c);
    if err.Some? then (c, err)
    else
      var (sso, err) := ValidatedSSO(c.sso);
      var c := c.(sso := sso);
      if err.Some? then (c, err)
      else
        var (routing, err) := ValidatedRouting(c.staticRouting);
        (c.(staticRouting := routing), err)
  }

  // ---------------------------------------------------------------- what validation guarantees

  /** The routes a validated configuration hands to a connection. */
  function RoutesOf(c: Settings): RouteConfig {
    RouteConfig(c.staticRouting.enabled, c.staticRouting.servers, c.staticRouting.mode, if c.retries < 0 then 0 else c.retries)
  }

  predicate IsServer(server: string) { SplitTargetAddress(TrimSpace(server)).Ok? }

  ghost predicate SpellsTarget(server: string) { exists t :: Spells(TrimSpace(server), t) }

  /** The configurations that are accepted, told from the configuration as it was written. */
  ghost predicate Acceptable(c: Settings) {
    && !Blank(c.listen) && !Blank(c.key)
    && TrimSpace(c.logLevel) in {"", "error", "info", "debug"}
    && (c.autoAcceptClientKeys || !Blank(c.authorizedKeys))
    && Folded(c.recordingFormat) in {"", "asciinema", "script"}
    && c.retries >= 0
    && Folded(c.sso.provider) in {"", "keycloak"}
    && Folded(c.staticRouting.mode) in {"", "failover", "round_robin", "roundrobin", "round-robin"}
    && (forall i | 0 <= i < |c.staticRouting.servers| :: SpellsTarget(c.staticRouting.servers[i]))
    && (c.staticRouting.enabled ==> c.staticRouting.servers != [])
  }

  /** Each vocabulary is as it is written in a configuration file. */
  lemma Vocabularies(level: string, format: string, provider: string)
    ensures IsLogLevel(NormalizeLogLevel(level)) <==> TrimSpace(level) in {"", "error", "info", "debug"}
    ensures IsSupportedFormat(format) <==> Folded(format) in {"", "asciinema", "script"}
    ensures NormalizeProvider(provider) == KEYCLOAK <==> Folded(provider) in {"", "keycloak"}
  {
    hide TrimSpace, Folded;
  }

  lemma IsServerIff(server: string)
    ensures IsServer(server) <==> SpellsTarget(server)
  {
    hide SplitTargetAddress, Spells, TrimSpace;
    var s := TrimSpace(server);
    forall t ensures SplitTargetAddress(s) == Ok(t) <==> Spells(s, t) {
      AcceptedLanguage(s, t);
    }
    if IsServer(server) {
      assert Spells(s, SplitTargetAddress(s).value);
    }
  }

  lemma ServerErrorIff(server: string, index: nat)
    ensures ServerError(server, index).None? <==> IsServer(server)
  {
    TrimSpaceFixpoint(server);
    ResolvesIff(TrimSpace(server), "");
  }

  /** What is wrong with the address of a server that is none. */
  function ServerProblem(server: string): AddressError
    requires !IsServer(server)
  {
    SplitTargetAddress(TrimSpace(server)).error
  }

  lemma ServerErrorIs(server: string, index: nat)
    ensures ServerError(server, index) ==
              if IsServer(server) then None
              else if Blank(server) then Some(EmptyServer(index)) else Some(BadServer(index, ServerProblem(server)))
  {
    hide SplitTargetAddress, TrimSpace;
    ServerErrorIff(server, index);
  }

  /** The servers from i up to k, trimmed, and all others as they were. */
  predicate TrimmedUpTo(after: seq<string>, servers: seq<string>, i: nat, k: nat)
    requires k <= |servers|
  {
    && |after| == |servers|
    && forall m | 0 <= m < |servers| :: after[m] == if i <= m < k then TrimSpace(servers[m]) else servers[m]
  }

  /** The first server from i on that is none, or the length. */
  function FirstBad(servers: seq<string>, i: nat): (k: nat)
    requires i <= |servers|
    ensures i <= k <= |servers|
    decreases |servers| - i
  {
    if i == |servers| || !IsServer(servers[i]) then i else FirstBad(servers, i + 1)
  }

  lemma {:induction false} FirstBadIsFirst(servers: seq<string>, i: nat)
    requires i <= |servers|
    ensures var k := FirstBad(servers, i);
            && (forall m | i <= m < k :: IsServer(servers[m]))
            && (k < |servers| ==> !IsServer(servers[k]))
    decreases |servers| - i
  {
    hide IsServer;
    if i < |servers| && IsServer(servers[i]) {
      FirstBadIsFirst(servers, i + 1);
    }
  }

  lemma {:induction false} SameFirstBad(servers: seq<string>, next: seq<string>, i: nat)
    requires i <= |servers| == |next| && forall m | i <= m < |servers| :: next[m] == servers[m]
    ensures FirstBad(next, i) == FirstBad(servers, i)
    decreases |servers| - i
  {
    hide IsServer;
    if i < |servers| {
      SameFirstBad(servers, next, i + 1);
    }
  }

  /** The server loop stops at the first bad server and reports it, with its index and what is wrong
      with it; without one it succeeds. It has trimmed the servers it passed and no other. */
  lemma {:induction false} ValidatedServersSpec(servers: seq<string>, i: nat)
    requires i <= |servers|
    ensures var (after, err) := ValidatedServers(servers, i);
            var k := FirstBad(servers, i);
            && (forall m | i <= m < k :: IsServer(servers[m])) && (k < |servers| ==> !IsServer(servers[k]))
            && TrimmedUpTo(after, servers, i, k)
            && err == (if k == |servers| then None
                       else if Blank(servers[k]) then Some(EmptyServer(k))
                       else Some(BadServer(k, ServerProblem(servers[k]))))
            && (err.None? <==> forall m | i <= m < |servers| :: IsServer(servers[m]))
    decreases |servers| - i
  {
    hide IsServer, ServerError, TrimSpace, Blank, ServerProblem;
    FirstBadIsFirst(servers, i);
    if i < |servers| {
      ServerErrorIs(servers[i], i);
      if ServerError(servers[i], i).None? {
        var next := servers[i := TrimSpace(servers[i])];
        ValidatedServersSpec(next, i + 1);
        SameFirstBad(servers, next, i + 1);
        assert forall m | i < m < |servers| :: next[m] == servers[m];
      }
    }
  }

  lemma BasicsIff(c: Settings)
    ensures ValidatedBasics(c).1.None? <==>
              && !Blank(c.listen) && !Blank(c.key)
              && IsLogLevel(NormalizeLogLevel(c.logLevel))
              && (c.autoAcceptClientKeys || !Blank(c.authorizedKeys))
              && IsSupportedFormat(c.recordingFormat)
              && c.retries >= 0
    ensures ValidatedBasics(c).0.sso == c.sso && ValidatedBasics(c).0.staticRouting == c.staticRouting
  {
    hide Blank, NormalizeLogLevel, IsSupportedFormat, NormalizePath, IsLogLevel;
  }

  lemma RoutingIff(r: StaticRouting)
    ensures ValidatedRouting(r).1.None? <==>
              && IsSupportedRoutingMode(r.mode)
              && (forall i | 0 <= i < |r.servers| :: IsServer(r.servers[i]))
              && (r.enabled ==> r.servers != [])
  {
    hide NormalizeRoutingMode, IsServer, ValidatedServers;
    ModeIsFixed(r.mode);
    ValidatedServersSpec(r.servers, 0);
    assert ValidatedServers(r.servers, 0).0 == [] <==> r.servers == [];
  }

  /** Validation accepts exactly the acceptable configurations. */
  lemma ValidatedIff(c: Settings)
    ensures Validated(c).1.None? <==> Acceptable(c)
  {
    hide ValidatedBasics, ValidatedRouting, Blank, IsLogLevel, NormalizeLogLevel, NormalizeProvider,
         IsSupportedRoutingMode, IsServer, IsSupportedFormat, Folded, TrimSpace, SpellsTarget;
    BasicsIff(c);
    RoutingIff(c.staticRouting);
    Vocabularies(c.logLevel, c.recordingFormat, c.sso.provider);
    ModeIsFixed(c.staticRouting.mode);
    forall i | 0 <= i < |c.staticRouting.servers|
      ensures IsServer(c.staticRouting.servers[i]) <==> SpellsTarget(c.staticRouting.servers[i])
    {
      IsServerIff(c.staticRouting.servers[i]);
    }
  }

  /** What is reported of a configuration that is not accepted: the first of these problems. */
  ghost function FirstProblem(c: Settings): Option<ConfigError> {
    var servers := c.staticRouting.servers;
    if Blank(c.listen) then Some(ListenMissing)
    else if Blank(c.key) then Some(KeyMissing)
    else if TrimSpace(c.logLevel) !in {"", "error", "info", "debug"} then Some(BadLogLevel)
    else if !c.autoAcceptClientKeys && Blank(c.authorizedKeys) then Some(AuthorizedKeysMissing)
    else if Folded(c.recordingFormat) !in {"", "asciinema", "script"} then Some(BadFormat)
    else if c.retries < 0 then Some(BadRetries)
    else if Folded(c.sso.provider) !in {"", "keycloak"} then Some(BadProvider)
    else if Folded(c.staticRouting.mode) !in {"", "failover", "round_robin", "roundrobin", "round-robin"} then Some(BadMode)
    else if FirstBad(servers, 0) < |servers| then
      var k := FirstBad(servers, 0);
      FirstBadIsFirst(servers, 0);
      Some(if Blank(servers[k]) then EmptyServer(k) else BadServer(k, ServerProblem(servers[k])))
    else if c.staticRouting.enabled && servers == [] then Some(ServersMissing)
    else None
  }

  lemma FirstProblemIsReported(c: Settings)
    ensures Validated(c).1 == FirstProblem(c)
  {
    hide ValidatedBasics, ValidatedRouting, Blank, IsLogLevel, NormalizeLogLevel, NormalizeProvider, IsServer,
         IsSupportedRoutingMode, IsSupportedFormat, Folded, TrimSpace, ServerProblem, FirstBad;
    BasicsIff(c);
    BasicsProblem(c);
    RoutingProblem(c.staticRouting);
    Vocabularies(c.logLevel, c.recordingFormat, c.sso.provider);
    ModeIsFixed(c.staticRouting.mode);
  }

  lemma BasicsProblem(c: Settings)
    ensures ValidatedBasics(c).1 ==
              if Blank(c.listen) then Some(ListenMissing)
              else if Blank(c.key) then Some(KeyMissing)
              else if !IsLogLevel(NormalizeLogLevel(c.logLevel)) then Some(BadLogLevel)
              else if !c.autoAcceptClientKeys && Blank(c.authorizedKeys) then Some(AuthorizedKeysMissing)
              else if !IsSupportedFormat(c.recordingFormat) then Some(BadFormat)
              else if c.retries < 0 then Some(BadRetries)
              else None
  {
    hide Blank, NormalizeLogLevel, IsSupportedFormat, NormalizePath, IsLogLevel;
  }

  lemma RoutingProblem(r: StaticRouting)
    ensures ValidatedRouting(r).1 ==
              if !IsSupportedRoutingMode(r.mode) then Some(BadMode)
              else if FirstBad(r.servers, 0) < |r.servers| then
                var k := FirstBad(r.servers, 0);
                FirstBadIsFirst(r.servers, 0);
                Some(if Blank(r.servers[k]) then EmptyServer(k) else BadServer(k, ServerProblem(r.servers[k])))
              else if r.enabled && r.servers == [] then Some(ServersMissing)
              else None
  {
    hide NormalizeRoutingMode, IsServer, TrimSpace, Blank, ServerProblem, ValidatedServers, FirstBad, IsSupportedRoutingMode;
    ModeIsFixed(r.mode);
    ValidatedServersSpec(r.servers, 0);
  }

  // ---------------------------------------------------------------- what validation leaves behind

  /** A setting that is kept unless it is blank, or not positive. */
  predicate KeptOr(after: string, before: string, default: string) { after == if Blank(before) then default else before }

  predicate PositiveKeptOr(after: int, before: int, default: int) { after == if before > 0 then before else default }

  /** The basic settings of a validated configuration: each is kept, and only what is blank or not
      positive gets its default. */
  predicate BasicsFilledIn(v: Settings, c: Settings) {
    && v.listen == c.listen && v.key == c.key
    && v.authorizedKeys == c.authorizedKeys && v.autoAcceptClientKeys == c.autoAcceptClientKeys
    && v.recordingFormat == c.recordingFormat && v.retries == c.retries
    && v.logLevel == (if Blank(c.logLevel) then "info" else TrimSpace(c.logLevel))
    && KeptOr(v.recordingsDir, c.recordingsDir, "./recordings")
    && PositiveKeptOr(v.connectTimeoutSeconds, c.connectTimeoutSeconds, 10)
    && KeptOr(v.metrics.listen, c.metrics.listen, "127.0.0.1:9090")
    && v.metrics.path == (if Blank(c.metrics.path) then "/metrics"
                          else if StartsWith(c.metrics.path, '/') then c.metrics.path else "/" + c.metrics.path)
  }

  predicate SSOFilledIn(v: SSO, s: SSO) {
    && v.provider == "keycloak"
    && KeptOr(v.baseURL, s.baseURL, "http://localhost:8080")
    && KeptOr(v.realm, s.realm, "ssh-proxy-server")
    && KeptOr(v.clientID, s.clientID, "ssh-proxy-server")
    && KeptOr(v.scope, s.scope, "openid")
    && PositiveKeptOr(v.authTimeoutSeconds, s.authTimeoutSeconds, 120)
    && PositiveKeptOr(v.pollIntervalSeconds, s.pollIntervalSeconds, 5)
    && PositiveKeptOr(v.connectTimeoutSeconds, s.connectTimeoutSeconds, 10)
  }

  /** The routing: servers are trimmed and keep their order, and the mode is one of two names. */
  predicate RoutingFilledIn(v: StaticRouting, r: StaticRouting) {
    && v.enabled == r.enabled && v.retries == r.retries && v.connectTimeoutSeconds == r.connectTimeoutSeconds
    && v.mode == (if Folded(r.mode) in {"", "failover"} then "failover" else "round_robin")
    && |v.servers| == |r.servers| && forall k | 0 <= k < |r.servers| :: v.servers[k] == TrimSpace(r.servers[k])
  }

  lemma PathIs(path: string)
    ensures NormalizePath(path) == if Blank(path) then "/metrics" else if StartsWith(path, '/') then path else "/" + path
  {
    hide Blank;
    NothingTrimmed(path);
  }

  lemma NothingTrimmed(path: string)
    ensures !StartsWith(path, '/') ==> TrimLeft(path, c => c == '/') == path
  {
  }

  lemma ModeIs(mode: string)
    requires IsSupportedRoutingMode(mode)
    ensures NormalizeRoutingMode(mode) == if Folded(mode) in {"", "failover"} then "failover" else "round_robin"
  {
    hide Folded;
  }

  /** What a validated configuration is, setting by setting. */
  lemma ValidatedIs(c: Settings)
    requires Validated(c).1.None?
    ensures var v := Validated(c).0;
            BasicsFilledIn(v, c) && SSOFilledIn(v.sso, c.sso) && RoutingFilledIn(v.staticRouting, c.staticRouting)
  {
    hide ValidatedBasics, ValidatedSSO, ValidatedRouting, BasicsFilledIn, SSOFilledIn, RoutingFilledIn;
    BasicsAre(c);
    BasicsIff(c);
    SSOIs(c.sso);
    RoutingIs(c.staticRouting);
    RestIsKept(ValidatedBasics(c).0, c, ValidatedSSO(c.sso).0, ValidatedRouting(c.staticRouting).0);
  }

  lemma RestIsKept(b: Settings, c: Settings, sso: SSO, routing: StaticRouting)
    ensures BasicsFilledIn(b.(sso := sso, staticRouting := routing), c) <==> BasicsFilledIn(b, c)
  {
    hide Blank, TrimSpace;
  }

  lemma BasicsAre(c: Settings)
    requires ValidatedBasics(c).1.None?
    ensures BasicsFilledIn(ValidatedBasics(c).0, c)
  {
    hide TrimSpace, IsSupportedFormat, NormalizePath, IsLogLevel;
    PathIs(c.metrics.path);
  }

  lemma SSOIs(s: SSO)
    requires ValidatedSSO(s).1.None?
    ensures SSOFilledIn(ValidatedSSO(s).0, s)
  {
    hide Blank, NormalizeProvider;
  }

  lemma RoutingIs(r: StaticRouting)
    requires ValidatedRouting(r).1.None?
    ensures RoutingFilledIn(ValidatedRouting(r).0, r)
  {
    hide NormalizeRoutingMode, IsServer, TrimSpace, Folded, ValidatedServers, IsSupportedRoutingMode;
    RoutingIff(r);
    ModeIs(r.mode);
    ValidatedServersSpec(r.servers, 0);
  }

  lemma ServersAreValid(servers: seq<string>)
    requires forall k | 0 <= k < |servers| :: IsServer(servers[k])
    ensures ValidatedServers(servers, 0).1.None?
    ensures AllValid(ValidatedServers(servers, 0).0) && |ValidatedServers(servers, 0).0| == |servers|
  {
    hide ValidatedServers, SplitTargetAddress, TrimSpace;
    ValidatedServersSpec(servers, 0);
    var after := ValidatedServers(servers, 0).0;
    forall k | 0 <= k < |after| ensures SplitTargetAddress(after[k]).Ok? {
      assert IsServer(servers[k]);
    }
  }

  lemma RoutingGuarantees(r: StaticRouting)
    requires ValidatedRouting(r).1.None?
    ensures var v := ValidatedRouting(r).0;
            && AllValid(v.servers)
            && (v.enabled ==> v.servers != [])
            && v.enabled == r.enabled
            && IsSupportedRoutingMode(v.mode)
            && NormalizeRoutingMode(v.mode) == v.mode
  {
    hide NormalizeRoutingMode, ValidatedServers, IsServer, AllValid;
    ModeIsFixed(r.mode);
    RoutingIff(r);
    ServersAreValid(r.servers);
  }

  lemma BasicsGuarantees(c: Settings)
    requires ValidatedBasics(c).1.None?
    ensures var v := ValidatedBasics(c).0;
            && v.retries == c.retries >= 0
            && IsLogLevel(v.logLevel)
            && IsSupportedFormat(v.recordingFormat)
            && v.connectTimeoutSeconds > 0
            && StartsWith(v.metrics.path, '/')
  {
    hide Blank, NormalizeLogLevel, IsSupportedFormat, NormalizePath, IsLogLevel, StartsWith;
    PathIsFixed(c.metrics.path);
  }

  /** What the router relies on: validated servers are trimmed and parse, static routing has one,
      the mode is a fixed point, and the counts and times are in range. */
  lemma ValidatedGuarantees(c: Settings)
    requires Validated(c).1.None?
    ensures var v := Validated(c).0;
            && UsableRoutes(RoutesOf(v))
            && RoutesOf(v).retries == v.retries == c.retries
            && IsSupportedRoutingMode(v.staticRouting.mode)
            && NormalizeRoutingMode(v.staticRouting.mode) == v.staticRouting.mode
            && v.sso.provider == KEYCLOAK
            && IsLogLevel(v.logLevel)
            && IsSupportedFormat(v.recordingFormat)
            && v.connectTimeoutSeconds > 0
            && v.sso.authTimeoutSeconds > 0 && v.sso.pollIntervalSeconds > 0 && v.sso.connectTimeoutSeconds > 0
            && StartsWith(v.metrics.path, '/')
  {
    hide ValidatedBasics, ValidatedRouting, Blank, IsLogLevel, NormalizeProvider, IsSupportedRoutingMode,
         NormalizeRoutingMode, AllValid, IsSupportedFormat, StartsWith;
    BasicsIff(c);
    BasicsGuarantees(c);
    RoutingGuarantees(c.staticRouting);
  }

  lemma TrimmedServersStay(servers: seq<string>)
    requires forall k | 0 <= k < |servers| :: IsServer(servers[k]) && TrimSpace(servers[k]) == servers[k]
    ensures ValidatedServers(servers, 0) == (servers, None)
  {
    hide IsServer, TrimSpace, ValidatedServers;
    ValidatedServersSpec(servers, 0);
    assert ValidatedServers(servers, 0).0 == servers;
  }

  lemma ServersAreFixed(servers: seq<string>)
    requires ValidatedServers(servers, 0).1.None?
    ensures ValidatedServers(ValidatedServers(servers, 0).0, 0) == ValidatedServers(servers, 0)
  {
    hide ValidatedServers, TrimSpace, SplitTargetAddress;
    ValidatedServersSpec(servers, 0);
    var after := ValidatedServers(servers, 0).0;
    forall k | 0 <= k < |after| ensures IsServer(after[k]) && TrimSpace(after[k]) == after[k] {
      TrimSpaceFixpoint(servers[k]);
      assert IsServer(servers[k]);
    }
    TrimmedServersStay(after);
  }

  lemma RoutingIsFixed(r: StaticRouting)
    requires ValidatedRouting(r).1.None?
    ensures ValidatedRouting(ValidatedRouting(r).0) == ValidatedRouting(r)
  {
    hide NormalizeRoutingMode, ValidatedServers;
    ModeIsFixed(r.mode);
    ServersAreFixed(r.servers);
  }

  lemma BasicsAreFixed(c: Settings)
    requires ValidatedBasics(c).1.None?
    ensures ValidatedBasics(ValidatedBasics(c).0) == ValidatedBasics(c)
  {
    hide Blank, NormalizeLogLevel, IsSupportedFormat, NormalizePath, IsLogLevel;
    LogLevelIsFixed(c.logLevel);
    PathIsFixed(c.metrics.path);
  }

  lemma DefaultIsFixed(value: string, default: string)
    ensures OrDefault(OrDefault(value, default), default) == OrDefault(value, default)
  {
    hide Blank;
  }

  lemma PositiveIsFixed(value: int, default: int)
    ensures PositiveOr(PositiveOr(value, default), default) == PositiveOr(value, default)
  {
  }

  lemma SSOIsFixed(s: SSO)
    requires ValidatedSSO(s).1.None?
    ensures ValidatedSSO(ValidatedSSO(s).0) == ValidatedSSO(s)
  {
    hide OrDefault, PositiveOr, NormalizeProvider;
    VocabulariesAreFixed();
    DefaultIsFixed(s.baseURL, "http://localhost:8080");
    DefaultIsFixed(s.realm, "ssh-proxy-server");
    DefaultIsFixed(s.clientID, "ssh-proxy-server");
    DefaultIsFixed(s.scope, "openid");
    PositiveIsFixed(s.authTimeoutSeconds, 120);
    PositiveIsFixed(s.pollIntervalSeconds, 5);
    PositiveIsFixed(s.connectTimeoutSeconds, 10);
  }

  lemma BasicsIgnoreTheRest(c: Settings, sso: SSO, routing: StaticRouting)
    ensures ValidatedBasics(c.(sso := sso, staticRouting := routing)) ==
              (ValidatedBasics(c).0.(sso := sso, staticRouting := routing), ValidatedBasics(c).1)
  {
    hide Blank, NormalizeLogLevel, IsSupportedFormat, NormalizePath, IsLogLevel;
  }

  /** Validation is idempotent: validating a validated configuration accepts it unchanged. */
  lemma ValidateIdempotent(c: Settings)
    requires Validated(c).1.None?
    ensures Validated(Validated(c).0) == Validated(c)
  {
    hide ValidatedBasics, ValidatedSSO, ValidatedRouting;
    var b := ValidatedBasics(c).0;
    BasicsAreFixed(c);
    SSOIsFixed(b.sso);
    RoutingIsFixed(b.staticRouting);
    BasicsIgnoreTheRest(b, ValidatedSSO(b.sso).0, ValidatedRouting(b.staticRouting).0);
  }

  // ---------------------------------------------------------------- loading

  /** Which of the two top-level routing keys the configuration file has. */
  datatype KeysPresent = KeysPresent(retries: bool, connectTimeoutSeconds: bool)

  function WithLegacyFallbacks(c: Settings, keys: KeysPresent): Settings {
    c.(retries := if !keys.retries && c.staticRouting.retries > 0 then c.staticRouting.retries else c.retries,
       connectTimeoutSeconds :=
         if !keys.connectTimeoutSeconds && c.staticRouting.connectTimeoutSeconds > 0
         then c.staticRouting.connectTimeoutSeconds else c.connectTimeoutSeconds)
  }

  function Loaded(c: Settings, keys: KeysPresent): (Settings, Option<ConfigError>) {
    Validated(WithLegacyFallbacks(
      c.(recordingFormat := NormalizeFormat(c.recordingFormat),
         staticRouting := c.staticRouting.(mode := NormalizeRoutingMode(c.staticRouting.mode))),
      keys))
  }

  /** The fields the legacy fallbacks and the routing read survive validation. */
  lemma ValidatedKeeps(c: Settings)
    requires Validated(c).1.None?
    ensures var v := Validated(c).0;
            && v.retries == c.retries
            && v.recordingFormat == c.recordingFormat
            && v.staticRouting.retries == c.staticRouting.retries
            && v.staticRouting.connectTimeoutSeconds == c.staticRouting.connectTimeoutSeconds
            && v.staticRouting.enabled == c.staticRouting.enabled
            && v.connectTimeoutSeconds == PositiveOr(c.connectTimeoutSeconds, DEFAULT_CONNECT_TIMEOUT)
            && v.staticRouting.mode == NormalizeRoutingMode(c.staticRouting.mode)
  {
    hide Blank, NormalizeLogLevel, NormalizeProvider, IsSupportedFormat, NormalizePath, IsLogLevel,
         IsSupportedRoutingMode, NormalizeRoutingMode, ValidatedServers;
  }

  /** A configuration that loads, loads again from its own values to exactly itself: the legacy
      fallbacks cannot override what they already set, nor can normalisation move a setting twice. */
  lemma LoadIsStable(c: Settings, keys: KeysPresent)
    requires Loaded(c, keys).1.None?
    ensures Loaded(Loaded(c, keys).0, keys) == Loaded(c, keys)
  {
    hide Validated, NormalizeFormat, NormalizeRoutingMode, IsSupportedFormat, UsableRoutes, IsSupportedRoutingMode;
    var d := WithLegacyFallbacks(
      c.(recordingFormat := NormalizeFormat(c.recordingFormat),
         staticRouting := c.staticRouting.(mode := NormalizeRoutingMode(c.staticRouting.mode))),
      keys);
    ValidateIdempotent(d);
    ValidatedKeeps(d);
    ValidatedGuarantees(d);
    FormatIsFixed(c.recordingFormat);
  }

  /** What a configuration that loads has for the settings with a legacy place: the top-level value when
      the file has that key, otherwise the old one when it is positive. */
  lemma LoadedIs(c: Settings, keys: KeysPresent)
    requires Loaded(c, keys).1.None?
    ensures var v := Loaded(c, keys).0;
            && v.retries == (if keys.retries || c.staticRouting.retries <= 0 then c.retries else c.staticRouting.retries)
            && PositiveKeptOr(v.connectTimeoutSeconds,
                              if keys.connectTimeoutSeconds || c.staticRouting.connectTimeoutSeconds <= 0
                              then c.connectTimeoutSeconds else c.staticRouting.connectTimeoutSeconds,
                              10)
            && v.recordingFormat == (if Folded(c.recordingFormat) == "" then "asciinema" else Folded(c.recordingFormat))
            && v.listen == c.listen && v.key == c.key
            && v.authorizedKeys == c.authorizedKeys && v.autoAcceptClientKeys == c.autoAcceptClientKeys
            && SSOFilledIn(v.sso, c.sso)
            && v.staticRouting.enabled == c.staticRouting.enabled
            && |v.staticRouting.servers| == |c.staticRouting.servers|
            && forall k | 0 <= k < |c.staticRouting.servers| :: v.staticRouting.servers[k] == TrimSpace(c.staticRouting.servers[k])
  {
    hide Validated, Folded, SSOFilledIn, NormalizeRoutingMode, TrimSpace, Blank;
    ValidatedIs(WithLegacyFallbacks(
      c.(recordingFormat := NormalizeFormat(c.recordingFormat),
         staticRouting := c.staticRouting.(mode := NormalizeRoutingMode(c.staticRouting.mode))),
      keys));
  }

  lemma FormatIsFixed(format: string)
    ensures NormalizeFormat(NormalizeFormat(format)) == NormalizeFormat(format)
  {
    hide Folded;
    VocabulariesAreFixed();
    FoldedIdempotent(format);
  }

  // ---------------------------------------------------------------- the configuration object

  class Config {
    var listen: string
    var key: string
    var logLevel: string
    var recordingsDir: string
    var authorizedKeys: string
    var autoAcceptClientKeys: bool
    var recordingFormat: string
    var retries: int
    var connectTimeoutSeconds: int
    var staticRouting: StaticRouting
    var metrics: Metrics
    var sso: SSO

    ghost function View(): Settings
      reads this
    {
      Settings(listen, key, logLevel, recordingsDir, authorizedKeys, autoAcceptClientKeys, recordingFormat,
               retries, connectTimeoutSeconds, staticRouting, metrics, sso)
    }

    constructor (c: Settings)
      ensures View() == c
    {
      listen, key, logLevel, recordingsDir := c.listen, c.key, c.logLevel, c.recordingsDir;
      authorizedKeys, autoAcceptClientKeys, recordingFormat := c.authorizedKeys, c.autoAcceptClientKeys, c.recordingFormat;
      retries, connectTimeoutSeconds := c.retries, c.connectTimeoutSeconds;
      staticRouting, metrics, sso := c.staticRouting, c.metrics, c.sso;
    }

    method ValidateBasics() returns (err: Option<ConfigError>)
      modifies this
      ensures (View(), err) == ValidatedBasics(old(View()))
    {
      hide Blank, NormalizeLogLevel, IsSupportedFormat, NormalizePath, IsLogLevel;
      if Blank(listen) {
        return Some(ListenMissing);
      }
      if Blank(key) {
        return Some(KeyMissing);
      }
      logLevel := NormalizeLogLevel(logLevel);
      if !IsLogLevel(logLevel) {
        return Some(BadLogLevel);
      }
      if Blank(recordingsDir) {
        recordingsDir := "./recordings";
      }
      if !autoAcceptClientKeys && Blank(authorizedKeys) {
        return Some(AuthorizedKeysMissing);
      }
      if !IsSupportedFormat(recordingFormat) {
        return Some(BadFormat);
      }
      if retries < 0 {
        return Some(BadRetries);
      }
      if connectTimeoutSeconds <= 0 {
        connectTimeoutSeconds := DEFAULT_CONNECT_TIMEOUT;
      }
      if Blank(metrics.listen) {
        metrics := metrics.(listen := "127.0.0.1:9090");
      }
      metrics := metrics.(path := NormalizePath(metrics.path));
      return None;
    }

    method ValidateSSO() returns (err: Option<ConfigError>)
      modifies this`sso
      ensures (sso, err) == ValidatedSSO(old(sso))
    {
      hide Blank, NormalizeProvider;
      sso := sso.(provider := NormalizeProvider(sso.provider));
      if sso.provider != KEYCLOAK {
        return Some(BadProvider);
      }
      if Blank(sso.baseURL) {
        sso := sso.(baseURL := "http://localhost:8080");
      }
      if Blank(sso.realm) {
        sso := sso.(realm := "ssh-proxy-server");
      }
      if Blank(sso.clientID) {
        sso := sso.(clientID := "ssh-proxy-server");
      }
      if Blank(sso.scope) {
        sso := sso.(scope := "openid");
      }
      if sso.authTimeoutSeconds <= 0 {
        sso := sso.(authTimeoutSeconds := 120);
      }
      if sso.pollIntervalSeconds <= 0 {
        sso := sso.(pollIntervalSeconds := 5);
      }
      if sso.connectTimeoutSeconds <= 0 {
        sso := sso.(connectTimeoutSeconds := 10);
      }
      return None;
    }

    method ValidateRouting() returns (err: Option<ConfigError>)
      modifies this`staticRouting
      ensures (staticRouting, err) == ValidatedRouting(old(staticRouting))
    {
      hide NormalizeRoutingMode, IsSupportedRoutingMode, ServerError, TrimSpace;
      staticRouting := staticRouting.(mode := NormalizeRoutingMode(staticRouting.mode));
      if !IsSupportedRoutingMode(staticRouting.mode) {
        return Some(BadMode);
      }
      ghost var start := staticRouting;
      var i := 0;
      while i < |staticRouting.servers|
        invariant 0 <= i <= |staticRouting.servers| == |start.servers|
        invariant staticRouting == start.(servers := staticRouting.servers)
        invariant ValidatedServers(start.servers, 0) == ValidatedServers(staticRouting.servers, i)
      {
        err := ServerError(staticRouting.servers[i], i);
        if err.Some? {
          return;
        }
        var target := TrimSpace(staticRouting.servers[i]);
        staticRouting := staticRouting.(servers := staticRouting.servers[i := target]);
        i := i + 1;
      }
      if staticRouting.enabled && |staticRouting.servers| == 0 {
        return Some(ServersMissing);
      }
      return None;
    }

    method Validate() returns (err: Option<ConfigError>)
      modifies this
      ensures (View(), err) == Validated(old(View()))
    {
      hide ValidatedBasics, ValidatedSSO, ValidatedRouting;
      err := ValidateBasics();
      if err.None? {
        err := ValidateSSO();
        if err.None? {
          err := ValidateRouting();
        }
      }
    }

    method ApplyLegacyRoutingFallbacks(keys: KeysPresent)
      modifies this`retries, this`connectTimeoutSeconds
      ensures View() == WithLegacyFallbacks(old(View()), keys)
    {
      if !keys.retries && staticRouting.retries > 0 {
        retries := staticRouting.retries;
      }
      if !keys.connectTimeoutSeconds && staticRouting.connectTimeoutSeconds > 0 {
        connectTimeoutSeconds := staticRouting.connectTimeoutSeconds;
      }
    }

    /** The steps of Load on an already decoded configuration. */
    method Load(keys: KeysPresent) returns (err: Option<ConfigError>)
      modifies this
      ensures (View(), err) == Loaded(old(View()), keys)
    {
      hide Validated, NormalizeFormat, NormalizeRoutingMode;
      recordingFormat := NormalizeFormat(recordingFormat);
      staticRouting := staticRouting.(mode := NormalizeRoutingMode(staticRouting.mode));
      ApplyLegacyRoutingFallbacks(keys);
      err := Validate();
    }
  }
}
