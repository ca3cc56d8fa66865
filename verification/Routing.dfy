/** Choosing targets: routing modes, the round-robin rotation, candidate resolution, failover order. */
module Routing {
  import opened Text
  import opened Address
  import opened Modular

  const FAILOVER := "failover"
  const ROUND_ROBIN := "round_robin"
  const SERVER_VARIABLE := "LC_SSH_SERVER"

  function NormalizeRoutingMode(mode: string): string {
    var m := Folded(mode);
    if m == "" || m == FAILOVER then FAILOVER
    else if m == ROUND_ROBIN || m == "roundrobin" || m == "round-robin" then ROUND_ROBIN
    else m
  }

  predicate IsSupportedRoutingMode(mode: string) {
    NormalizeRoutingMode(mode) == FAILOVER || NormalizeRoutingMode(mode) == ROUND_ROBIN
  }

  lemma ModesAreFolded()
    ensures Folded(FAILOVER) == FAILOVER && Folded(ROUND_ROBIN) == ROUND_ROBIN
  {
    hide Folded;
    LowerWordFolds(FAILOVER);
    LowerWordFolds(ROUND_ROBIN);
  }

  /** Normalising is idempotent, so a mode may be normalised when loaded, validated and used; whether
      it is supported does not depend on how it is spelt. */
  lemma ModeIsFixed(mode: string)
    ensures NormalizeRoutingMode(NormalizeRoutingMode(mode)) == NormalizeRoutingMode(mode)
    ensures IsSupportedRoutingMode(NormalizeRoutingMode(mode)) <==> IsSupportedRoutingMode(mode)
    ensures IsSupportedRoutingMode(mode) <==>
              Folded(mode) in {"", FAILOVER, ROUND_ROBIN, "roundrobin", "round-robin"}
  {
    hide Folded;
    ModesAreFolded();
    FoldedIdempotent(mode);
  }

  // ---------------------------------------------------------------- round robin

  const WORD64: int := 0x1_0000_0000_0000_0000
  const HALF64: int := 0x8000_0000_0000_0000
  type uint64 = x: int | 0 <= x < 0x1_0000_0000_0000_0000

  /** Go's conversion of a uint64 to a 64-bit int. */
  function ToInt64(ticket: nat): int
    requires ticket < WORD64
  {
    if ticket < HALF64 then ticket else ticket - WORD64
  }

  /** Go's %, which truncates towards zero. */
  function GoRemainder(a: int, n: nat): int
    requires n > 0
  {
    if a >= 0 then a % n else -((-a) % n)
  }

  function Rotate<T>(s: seq<T>, k: nat): (r: seq<T>)
    requires k <= |s|
    ensures |r| == |s|
  {
    s[k..] + s[..k]
  }

  predicate Rotates(targets: seq<string>, mode: string) {
    |targets| > 1 && NormalizeRoutingMode(mode) == ROUND_ROBIN
  }

  /** The order in which targets are tried; None is the run-time panic of a negative slice bound.
      The ticket only matters when the list rotates. */
  function OrderedStaticTargets(targets: seq<string>, mode: string, ticket: nat): Option<seq<string>>
    requires ticket < WORD64
  {
    if !Rotates(targets, mode) then Some(targets)
    else
      var start := GoRemainder(ToInt64(ticket), |targets|);
      if start < 0 then None else Some(Rotate(targets, start))
  }

  const ROUND_ROBIN_SPELLINGS := {ROUND_ROBIN, "roundrobin", "round-robin"}

  lemma RotatesIff(targets: seq<string>, mode: string)
    ensures Rotates(targets, mode) <==> |targets| > 1 && Folded(mode) in ROUND_ROBIN_SPELLINGS
  {
    hide Folded;
  }

  /** A list that does not rotate is tried in the order in which it was configured. */
  lemma ConfiguredOrder(targets: seq<string>, mode: string, ticket: nat)
    requires ticket < WORD64 && !(|targets| > 1 && Folded(mode) in ROUND_ROBIN_SPELLINGS)
    ensures OrderedStaticTargets(targets, mode, ticket) == Some(targets)
  {
    RotatesIff(targets, mode);
    hide Rotates, Folded;
  }

  /** The rotation is free of panics exactly for tickets below 2^63 and those above it that happen
      to be a whole number of rounds short of 2^64. */
  lemma OrderDefinedIff(targets: seq<string>, mode: string, ticket: nat)
    requires ticket < WORD64
    ensures OrderedStaticTargets(targets, mode, ticket).Some? <==>
              !Rotates(targets, mode) || ticket < HALF64 || (WORD64 - ticket) % |targets| == 0
  {
  }

  lemma RotateAt<T>(s: seq<T>, k: nat, p: nat)
    requires k < |s| && p < |s|
    ensures Rotate(s, k)[p] == s[(k + p) % |s|]
  {
    if k + p < |s| {
      DivModUnique(k + p, |s|, 0, k + p);
    } else {
      DivModUnique(k + p, |s|, 1, k + p - |s|);
    }
  }

  lemma RotateKeepsTargets<T>(s: seq<T>, k: nat)
    requires k <= |s|
    ensures multiset(Rotate(s, k)) == multiset(s)
  {
    assert s == s[..k] + s[k..];
  }

  lemma OrderIsRotation(targets: seq<string>, mode: string, ticket: nat)
    requires Rotates(targets, mode) && ticket < HALF64
    ensures OrderedStaticTargets(targets, mode, ticket) == Some(Rotate(targets, ticket % |targets|))
  {
    assert |targets| > 1;
    hide NormalizeRoutingMode;
    assert ToInt64(ticket) == ticket;
    assert GoRemainder(ticket, |targets|) == ticket % |targets|;
  }

  /** Ticket t puts target j of n in position p. */
  predicate GivesPlace(ticket: nat, n: nat, p: nat, j: nat)
    requires n > 0
  {
    (ticket + p) % n == j
  }

  lemma RotatePlace<T>(s: seq<T>, ticket: nat, p: nat, j: nat)
    requires p < |s| && j < |s| && GivesPlace(ticket, |s|, p, j)
    ensures Rotate(s, ticket % |s|)[p] == s[j]
  {
    RotateAt(s, ticket % |s|, p);
    ModShift(ticket, p, |s|);
  }

  /** The list a ticket gives is a permutation of the targets that starts at the ticket's turn. */
  lemma RoundRobinOrder(targets: seq<string>, mode: string, ticket: nat)
    requires Rotates(targets, mode) && ticket < HALF64
    ensures var order := OrderedStaticTargets(targets, mode, ticket);
            && order.Some?
            && |order.value| == |targets|
            && multiset(order.value) == multiset(targets)
            && forall p, j | 0 <= p < |targets| && 0 <= j < |targets| && GivesPlace(ticket, |targets|, p, j) ::
                 order.value[p] == targets[j]
  {
    OrderIsRotation(targets, mode, ticket);
    assert |targets| > 1;
    hide OrderedStaticTargets, Rotates;
    var n := |targets|;
    var k := ticket % n;
    RotateKeepsTargets(targets, k);
    hide Rotate;
    forall p, j | 0 <= p < n && 0 <= j < n && GivesPlace(ticket, n, p, j) ensures Rotate(targets, k)[p] == targets[j] {
      RotatePlace(targets, ticket, p, j);
    }
  }

  /** The one ticket among n consecutive ones, from `first` on, that puts target j in position p. */
  function HolderOf(first: nat, n: nat, p: nat, j: nat): nat
    requires p < n && j < n
  {
    first + (j + 2 * n - p - first % n) % n
  }

  lemma HolderGivesPlace(first: nat, n: nat, p: nat, j: nat)
    requires p < n && j < n
    ensures first <= HolderOf(first, n, p, j) < first + n
    ensures GivesPlace(HolderOf(first, n, p, j), n, p, j)
  {
    var q, r := first / n, first % n;
    var x := j + 2 * n - p - r;
    assert first == q * n + r;
    ModShift(x, first + p, n);
    assert (q + 2) * n == q * n + 2 * n;
    assert x + (first + p) == j + (q + 2) * n;
    ModAddMultiple(j, q + 2, n);
    DivModUnique(j, n, 0, j);
  }

  lemma PlaceIsUnique(t: nat, u: nat, n: nat, p: nat, j: nat)
    requires n > 0 && GivesPlace(t, n, p, j) && GivesPlace(u, n, p, j) && u <= t < u + n
    ensures t == u
  {
    SameResidue(u + p, t + p, n);
  }

  /** Fairness: of any n consecutive tickets exactly one puts a given target in a given position. */
  lemma EachPositionOnce(first: nat, n: nat, p: nat, j: nat)
    requires p < n && j < n
    ensures var t := HolderOf(first, n, p, j);
            && first <= t < first + n
            && GivesPlace(t, n, p, j)
            && forall u: nat | first <= u < first + n && GivesPlace(u, n, p, j) :: u == t
  {
    HolderGivesPlace(first, n, p, j);
    hide HolderOf, GivesPlace;
    var t := HolderOf(first, n, p, j);
    forall u: nat | first <= u < first + n && GivesPlace(u, n, p, j) ensures u == t {
      if u <= t {
        PlaceIsUnique(t, u, n, p, j);
      } else {
        PlaceIsUnique(u, t, n, p, j);
      }
    }
  }

  /** How many of the first k tickets put target j in first place. */
  function FirstPlaces(k: nat, n: nat, j: nat): nat
    requires j < n
  {
    if k == 0 then 0 else FirstPlaces(k - 1, n, j) + (if (k - 1) % n == j then 1 else 0)
  }

  lemma ClosedFormStep(q: int, r: nat, q': int, r': nat, n: nat, j: nat)
    requires r < n && j < n
    requires if r == n - 1 then q' == q + 1 && r' == 0 else q' == q && r' == r + 1
    ensures q' + (if j < r' then 1 else 0) == q + (if j < r then 1 else 0) + (if r == j then 1 else 0)
  {
  }

  lemma {:induction false} FirstPlacesClosedForm(k: nat, n: nat, j: nat)
    requires j < n
    ensures FirstPlaces(k, n, j) == k / n + (if j < k % n then 1 else 0)
  {
    if k > 0 {
      FirstPlacesClosedForm(k - 1, n, j);
      DivModStep(k - 1, n);
      ClosedFormStep((k - 1) / n, (k - 1) % n, k / n, k % n, n, j);
    } else {
      DivModUnique(0, n, 0, 0);
    }
  }

  /** Fairness over a whole run: after any number of tickets the first-place counts of two targets
      differ by at most one. */
  lemma FirstPlacesBalanced(k: nat, n: nat, i: nat, j: nat)
    requires i < n && j < n
    ensures -1 <= FirstPlaces(k, n, i) - FirstPlaces(k, n, j) <= 1
  {
    FirstPlacesClosedForm(k, n, i);
    FirstPlacesClosedForm(k, n, j);
  }

  // ---------------------------------------------------------------- candidates

  datatype RouteConfig = RouteConfig(staticEnabled: bool, targets: seq<string>, mode: string, retries: nat)

  datatype RouteError =
    | NoServers
    | NoTargetHost
    | VariableMissing
    | BadTarget(error: AddressError)
    | RotationPanic

  /** The attempts that a number of full rounds takes. */
  function Attempts(rounds: nat, n: nat): nat { rounds * n }

  function Lookup(env: map<string, string>, name: string): string {
    if name in env then env[name] else ""
  }

  /** The targets a session may try. `fromCommand` is what the command-line heuristic found. */
  function ResolveTargetCandidates(cfg: RouteConfig, env: map<string, string>, command: string,
                                   fromCommand: string, ticket: nat): Result<seq<string>, RouteError>
    requires ticket < WORD64
  {
    if cfg.staticEnabled then
      if cfg.targets == [] then Err(NoServers)
      else
        match OrderedStaticTargets(cfg.targets, cfg.mode, ticket)
        case Some(order) => Ok(order)
        case None => Err(RotationPanic)
    else
      var fromEnv := TrimSpace(Lookup(env, SERVER_VARIABLE));
      var candidate := if fromEnv == "" && !Blank(command) then fromCommand else fromEnv;
      if candidate == "" then Err(if Blank(command) then VariableMissing else NoTargetHost)
      else
        match SplitTargetAddress(candidate)
        case Err(e) => Err(BadTarget(e))
        case Ok(_) => Ok([candidate])
  }

  predicate AllValid(targets: seq<string>) {
    forall i | 0 <= i < |targets| :: SplitTargetAddress(targets[i]).Ok?
  }

  /** What configuration validation guarantees about routing. */
  predicate UsableRoutes(cfg: RouteConfig) {
    AllValid(cfg.targets) && (cfg.staticEnabled ==> cfg.targets != [])
  }

  /** With static routing in failover mode the candidates are the configured servers in their order. */
  lemma FailoverCandidates(cfg: RouteConfig, env: map<string, string>, command: string, fromCommand: string, ticket: nat)
    requires cfg.staticEnabled && cfg.targets != [] && ticket < WORD64 && Folded(cfg.mode) in {"", FAILOVER}
    ensures ResolveTargetCandidates(cfg, env, command, fromCommand, ticket) == Ok(cfg.targets)
  {
    hide OrderedStaticTargets, Folded;
    ConfiguredOrder(cfg.targets, cfg.mode, ticket);
  }

  /** With dynamic routing there is one candidate: the server variable, or what the command names when
      the variable is blank and the command is not; it must spell a target. */
  lemma DynamicCandidates(cfg: RouteConfig, env: map<string, string>, command: string, fromCommand: string, ticket: nat,
                          list: seq<string>)
    requires !cfg.staticEnabled && ticket < WORD64
    ensures ResolveTargetCandidates(cfg, env, command, fromCommand, ticket) == Ok(list) <==>
              && |list| == 1
              && (exists t :: Spells(list[0], t))
              && var value := TrimSpace(Lookup(env, SERVER_VARIABLE));
                 if value != "" then list[0] == value else !Blank(command) && list[0] == fromCommand
  {
    hide SplitTargetAddress, Spells, TrimSpace, Lookup;
    if |list| == 1 {
      if SplitTargetAddress(list[0]).Ok? {
        AcceptedLanguage(list[0], SplitTargetAddress(list[0]).value);
      }
      forall t | Spells(list[0], t) ensures SplitTargetAddress(list[0]).Ok? {
        AcceptedLanguage(list[0], t);
      }
      if SplitTargetAddress(list[0]).Ok? {
        ResolvesIff(list[0], "");
      }
      assert list == [list[0]];
    }
  }

  /** With validated static routing candidate resolution never errors, every candidate parses, and
      every configured target is among them. */
  lemma StaticCandidates(cfg: RouteConfig, env: map<string, string>, command: string, fromCommand: string, ticket: nat)
    requires cfg.staticEnabled && UsableRoutes(cfg) && ticket < HALF64
    ensures var r := ResolveTargetCandidates(cfg, env, command, fromCommand, ticket);
            && r.Ok?
            && multiset(r.value) == multiset(cfg.targets)
            && |r.value| == |cfg.targets|
            && AllValid(r.value)
  {
    if Rotates(cfg.targets, cfg.mode) {
      var k := ticket % |cfg.targets|;
      RotateKeepsTargets(cfg.targets, k);
      forall p | 0 <= p < |cfg.targets| ensures SplitTargetAddress(Rotate(cfg.targets, k)[p]).Ok? {
        RotateAt(cfg.targets, k, p);
      }
    }
  }

  /** Whatever candidate resolution returns has been validated and is not empty. */
  lemma CandidatesAreValid(cfg: RouteConfig, env: map<string, string>, command: string, fromCommand: string, ticket: nat)
    requires UsableRoutes(cfg) && ticket < WORD64
    requires ResolveTargetCandidates(cfg, env, command, fromCommand, ticket).Ok?
    ensures var r := ResolveTargetCandidates(cfg, env, command, fromCommand, ticket).value;
            r != [] && AllValid(r)
  {
    if cfg.staticEnabled && Rotates(cfg.targets, cfg.mode) {
      var k := GoRemainder(ToInt64(ticket), |cfg.targets|);
      forall p | 0 <= p < |cfg.targets| ensures SplitTargetAddress(Rotate(cfg.targets, k)[p]).Ok? {
        RotateAt(cfg.targets, k, p);
      }
    }
  }

  /** A stored server variable that validates is the one candidate, exactly as stored. */
  lemma StoredVariableIsCandidate(cfg: RouteConfig, env: map<string, string>, command: string, fromCommand: string, ticket: nat)
    requires !cfg.staticEnabled && ticket < WORD64
    requires SERVER_VARIABLE in env && SplitTargetAddress(env[SERVER_VARIABLE]).Ok?
    ensures ResolveTargetCandidates(cfg, env, command, fromCommand, ticket) == Ok([env[SERVER_VARIABLE]])
  {
    ResolvesIff(env[SERVER_VARIABLE], "");
  }
}
