/** The request loop of one session channel, against the connection's session state. */
module Channel {
  import opened Text
  import opened Routing
  import opened Wire
  import opened Session

  datatype Request =
    | EnvVar(payload: bytes)
    | AgentForwarding
    | ShellStart
    | ExecStart(payload: bytes)
    | PtyReq(payload: bytes)
    | WindowChange(payload: bytes)
    | Subsystem
    | Other(wantReply: bool)

  datatype Start = Shell | Exec(command: bytes)

  /** What the loop has done so far. The process panics on payloads that make Go's slicing panic. */
  datatype Served = Served(
    routes: Routes,
    started: Option<Start>,
    term: bytes, cols: int, rows: int,
    replies: seq<bool>,
    crashed: bool)

  const FRESH := Served(NO_ROUTES, None, [], 0, 0, [], false)

  function Reply(s: Served, replies: seq<bool>): Served { s.(replies := s.replies + replies) }

  /** One request. An env request is answered twice: by its handler and again by the loop. */
  function ServeOne(cfg: RouteConfig, user: string, s: Served, r: Request): Served {
    if s.crashed then s
    else
      match r
      case EnvVar(p) => (
        match DecodeEnv(p)
        case EnvPanic => s.(crashed := true)
        case EnvRefused => Reply(s, [false, true])
        case Env(name, value) =>
          var (after, ok) := ApplyEnv(cfg, user, s.routes, RUNES(name), RUNES(value));
          Reply(s.(routes := after), [ok, true]))
      case AgentForwarding => Reply(s, [true])
      case ShellStart => if s.started.Some? then Reply(s, [false]) else Reply(s.(started := Some(Shell)), [true])
      case ExecStart(p) =>
        if s.started.Some? then Reply(s, [false])
        else (
          match DecodeCommand(p)
          case None => s.(crashed := true)
          case Some(command) => Reply(s.(started := Some(Exec(command))), [true]))
      case PtyReq(p) => (
        match DecodePty(p)
        case PtyRefused => Reply(s, [false])
        case Pty(term, cols, rows) => Reply(s.(term := term, cols := cols, rows := rows), [true]))
      case WindowChange(p) =>
        var (cols, rows) := DecodeWindow(p, s.cols, s.rows);
        Reply(s.(cols := cols, rows := rows), [true])
      case Subsystem => Reply(s, [false])
      case Other(wantReply) => if wantReply then Reply(s, [false]) else s
  }

  function Serve(cfg: RouteConfig, user: string, requests: seq<Request>): Served {
    if requests == [] then FRESH
    else ServeOne(cfg, user, Serve(cfg, user, requests[..|requests| - 1]), requests[|requests| - 1])
  }

  /** The terminal fields of the session state. */
  class Terminal {
    var term: bytes
    var cols: int
    var rows: int

    constructor ()
      ensures term == [] && cols == 0 && rows == 0
    {
      term, cols, rows := [], 0, 0;
    }

    method SetPTY(term: bytes, cols: int, rows: int)
      modifies this
      ensures this.term == term && this.cols == cols && this.rows == rows
    {
      this.term, this.cols, this.rows := term, cols, rows;
    }

    method SetWindowSize(cols: int, rows: int)
      modifies this`cols, this`rows
      ensures this.cols == cols && this.rows == rows
    {
      this.cols, this.rows := cols, rows;
    }
  }

  /** handleChannel's loop while no other channel of the connection changes the state: all of it is
      the fold of single requests, and the stored terminal size is the loop's own. */
  method HandleChannel(state: SessionState, terminal: Terminal, requests: seq<Request>)
    returns (started: Option<Start>, replies: seq<bool>, crashed: bool)
    requires state.View() == NO_ROUTES && terminal.term == [] && terminal.cols == terminal.rows == 0
    modifies state`env, state`target, terminal
    ensures Served(state.View(), started, terminal.term, terminal.cols, terminal.rows, replies, crashed)
              == Serve(state.routes, state.clientUser, requests)
  {
    hide Serve, ApplyEnv, DecodeEnv, DecodeCommand, DecodePty, DecodeWindow;
    var cols, rows := 0, 0;
    started, replies, crashed := None, [], false;
    NothingServed(state.routes, state.clientUser);
    var i := 0;
    while i < |requests|
      invariant i <= |requests| && !crashed
      invariant terminal.cols == cols && terminal.rows == rows
      invariant Served(state.View(), started, terminal.term, cols, rows, replies, false)
                  == Serve(state.routes, state.clientUser, requests[..i])
    {
      ServeNext(state.routes, state.clientUser, requests, i);
      var r := requests[i];
      i := i + 1;
      match r
      case EnvVar(payload) =>
        var outcome := state.HandleEnvRequest(payload);
        if outcome.Panicked? {
          crashed := true;
          CrashIsFinal(state.routes, state.clientUser, requests, i);
          return;
        }
        replies := replies + [outcome.ok];
        replies := replies + [true];
      case AgentForwarding => replies := replies + [true];
      case ShellStart =>
        if started.Some? {
          replies := replies + [false];
          continue;
        }
        started := Some(Shell);
        replies := replies + [true];
      case ExecStart(payload) =>
        if started.Some? {
          replies := replies + [false];
          continue;
        }
        var command := DecodeCommand(payload);
        if command.None? {
          crashed := true;
          CrashIsFinal(state.routes, state.clientUser, requests, i);
          return;
        }
        started := Some(Exec(command.value));
        replies := replies + [true];
      case PtyReq(payload) =>
        match DecodePty(payload) {
          case PtyRefused => replies := replies + [false];
          case Pty(term, parsedCols, parsedRows) =>
            terminal.SetPTY(term, parsedCols, parsedRows);
            cols, rows := parsedCols, parsedRows;
            replies := replies + [true];
        }
      case WindowChange(payload) =>
        replies := replies + [true];
        var size := DecodeWindow(payload, cols, rows);
        cols, rows := size.0, size.1;
        terminal.SetWindowSize(cols, rows);
      case Subsystem => replies := replies + [false];
      case Other(wantReply) =>
        if wantReply {
          replies := replies + [false];
        }
    }
    assert requests[..i] == requests;
  }

  lemma ServeNext(cfg: RouteConfig, user: string, requests: seq<Request>, i: nat)
    requires i < |requests|
    ensures Serve(cfg, user, requests[..i + 1]) == ServeOne(cfg, user, Serve(cfg, user, requests[..i]), requests[i])
  {
    hide ServeOne;
    assert requests[..i + 1][..i] == requests[..i];
  }

  lemma NothingServed(cfg: RouteConfig, user: string)
    ensures Serve(cfg, user, []) == FRESH
  {
  }

  lemma CrashedServes(cfg: RouteConfig, user: string, s: Served, r: Request)
    requires s.crashed
    ensures ServeOne(cfg, user, s, r) == s
  {
  }

  lemma {:induction false} CrashIsFinal(cfg: RouteConfig, user: string, requests: seq<Request>, i: nat)
    requires i <= |requests| && Serve(cfg, user, requests[..i]).crashed
    ensures Serve(cfg, user, requests) == Serve(cfg, user, requests[..i])
  {
    hide ServeOne;
    if i == |requests| {
      assert requests[..i] == requests;
    } else {
      var n := |requests| - 1;
      assert requests[..n][..i] == requests[..i];
      CrashIsFinal(cfg, user, requests[..n], i);
      CrashedServes(cfg, user, Serve(cfg, user, requests[..n]), requests[n]);
    }
  }

  // ---------------------------------------------------------------- what a channel's history amounts to

  predicate IsStart(r: Request) { r.ShellStart? || r.ExecStart? }

  predicate FitsPacket(r: Request) {
    (r.EnvVar? || r.ExecStart? || r.PtyReq? || r.WindowChange?) ==> |r.payload| < WORD
  }

  lemma OneRequest(cfg: RouteConfig, user: string, s: Served, r: Request)
    requires !s.crashed && FitsPacket(r)
    ensures var t := ServeOne(cfg, user, s, r);
            && !t.crashed
            && s.replies <= t.replies && |t.replies| == |s.replies| + RepliesTo(r)
            && (IsStart(r) ==> t.replies == s.replies + [s.started.None?])
            && (s.started.Some? || !IsStart(r) ==> t.started == s.started)
            && (s.started.None? && r.ShellStart? ==> t.started == Some(Shell))
            && (s.started.None? && r.ExecStart? ==> t.started == Some(Exec(DecodeCommand(r.payload).value)))
  {
    hide ApplyEnv, DecodeEnv, DecodeCommand, DecodePty, DecodeWindow;
    if r.EnvVar? {
      DecodeEnvInverts(r.payload, [], []);
    } else if r.ExecStart? {
      DecodeCommandInverts(r.payload, []);
    }
  }

  /** How often a request is answered: env twice, an unknown one only when it wants a reply. */
  function RepliesTo(r: Request): nat {
    if r.EnvVar? then 2 else if r.Other? && !r.wantReply then 0 else 1
  }

  function TotalReplies(requests: seq<Request>): nat {
    if requests == [] then 0 else TotalReplies(requests[..|requests| - 1]) + RepliesTo(requests[|requests| - 1])
  }

  /** No packet below 4 GiB crashes the loop, and the number of answers is the sum of those due. */
  lemma {:induction false} RepliesAreCounted(cfg: RouteConfig, user: string, requests: seq<Request>)
    requires forall r | r in requests :: FitsPacket(r)
    ensures !Serve(cfg, user, requests).crashed && |Serve(cfg, user, requests).replies| == TotalReplies(requests)
  {
    hide ServeOne, RepliesTo, FitsPacket;
    if requests != [] {
      var n := |requests| - 1;
      RepliesAreCounted(cfg, user, requests[..n]);
      OneRequest(cfg, user, Serve(cfg, user, requests[..n]), requests[n]);
    }
  }

  /** What the channel runs for a start request. */
  function StartOf(r: Request): Start
    requires IsStart(r) && FitsPacket(r)
  {
    if r.ShellStart? then Shell
    else DecodeCommandInverts(r.payload, []); Exec(DecodeCommand(r.payload).value)
  }

  /** A start request is accepted exactly when no start request came before it; the channel runs the
      first one, whatever follows, and refuses all later ones. */
  lemma {:induction false} FirstStartWins(cfg: RouteConfig, user: string, requests: seq<Request>, k: nat)
    requires k < |requests| && IsStart(requests[k]) && forall r | r in requests :: FitsPacket(r)
    ensures var before, after := Serve(cfg, user, requests[..k]), Serve(cfg, user, requests[..k + 1]);
            var first := forall j | 0 <= j < k :: !IsStart(requests[j]);
            && after.replies == before.replies + [first]
            && (first ==> Serve(cfg, user, requests).started == Some(StartOf(requests[k])))
  {
    hide ServeOne, StartOf, FitsPacket;
    StartedIff(cfg, user, requests, k);
    ServeNext(cfg, user, requests, k);
    PrefixFits(requests, k);
    RepliesAreCounted(cfg, user, requests[..k]);
    assert requests[k] in requests;
    OneRequest(cfg, user, Serve(cfg, user, requests[..k]), requests[k]);
    if forall j | 0 <= j < k :: !IsStart(requests[j]) {
      StartIs(cfg, user, Serve(cfg, user, requests[..k]), requests[k]);
      StartedStays(cfg, user, requests, k + 1);
    }
  }

  lemma StartIs(cfg: RouteConfig, user: string, s: Served, r: Request)
    requires !s.crashed && FitsPacket(r) && IsStart(r) && s.started.None?
    ensures ServeOne(cfg, user, s, r).started == Some(StartOf(r))
  {
    hide ServeOne, DecodeCommand;
    OneRequest(cfg, user, s, r);
  }

  lemma PrefixFits(requests: seq<Request>, k: nat)
    requires k <= |requests| && forall r | r in requests :: FitsPacket(r)
    ensures forall r | r in requests[..k] :: FitsPacket(r)
  {
  }

  /** Something was started by the first k requests exactly when one of them is a start request. */
  lemma {:induction false} StartedIff(cfg: RouteConfig, user: string, requests: seq<Request>, k: nat)
    requires k <= |requests| && forall r | r in requests :: FitsPacket(r)
    ensures Serve(cfg, user, requests[..k]).started.None? <==> forall j | 0 <= j < k :: !IsStart(requests[j])
  {
    hide ServeOne, FitsPacket;
    if k > 0 {
      StartedIff(cfg, user, requests, k - 1);
      ServeNext(cfg, user, requests, k - 1);
      PrefixFits(requests, k - 1);
      RepliesAreCounted(cfg, user, requests[..k - 1]);
      assert requests[k - 1] in requests;
      OneRequest(cfg, user, Serve(cfg, user, requests[..k - 1]), requests[k - 1]);
    }
  }

  lemma StartedOnce(cfg: RouteConfig, user: string, s: Served, r: Request)
    requires s.started.Some?
    ensures ServeOne(cfg, user, s, r).started == s.started
  {
    hide ApplyEnv, DecodeEnv, DecodeCommand, DecodePty, DecodeWindow;
  }

  lemma {:induction false} StartedStays(cfg: RouteConfig, user: string, requests: seq<Request>, k: nat)
    requires k <= |requests| && Serve(cfg, user, requests[..k]).started.Some?
    ensures Serve(cfg, user, requests).started == Serve(cfg, user, requests[..k]).started
  {
    hide ServeOne;
    if k == |requests| {
      assert requests[..k] == requests;
    } else {
      var n := |requests| - 1;
      assert requests[..n][..k] == requests[..k];
      StartedStays(cfg, user, requests[..n], k);
      StartedOnce(cfg, user, Serve(cfg, user, requests[..n]), requests[n]);
    }
  }

  lemma PtyServes(cfg: RouteConfig, user: string, s: Served, r: Request, term: bytes, cols: uint32, rows: uint32)
    requires !s.crashed && r.PtyReq? && EncodesPty(r.payload, term, cols, rows)
    ensures var t := ServeOne(cfg, user, s, r); t.term == term && t.cols == cols && t.rows == rows
  {
    hide ApplyEnv, DecodeEnv, DecodeCommand, DecodePty, DecodeWindow, EncodesPty;
    DecodePtyInverts(r.payload, term, cols, rows);
  }

  lemma OthersKeepPty(cfg: RouteConfig, user: string, s: Served, r: Request)
    requires !r.PtyReq? && !r.WindowChange?
    ensures var t := ServeOne(cfg, user, s, r); t.term == s.term && t.cols == s.cols && t.rows == s.rows
  {
    hide ApplyEnv, DecodeEnv, DecodeCommand, DecodePty, DecodeWindow;
  }

  /** A pty-req that encodes a terminal decides TERM and the size until the next pty-req or
      window-change, whatever bytes follow the encoding. */
  lemma {:induction false} PtySticks(cfg: RouteConfig, user: string, requests: seq<Request>, k: nat, term: bytes, cols: uint32, rows: uint32)
    requires k < |requests| && requests[k].PtyReq? && EncodesPty(requests[k].payload, term, cols, rows)
    requires forall j | k < j < |requests| :: !requests[j].PtyReq? && !requests[j].WindowChange?
    requires !Serve(cfg, user, requests).crashed
    ensures var s := Serve(cfg, user, requests); s.term == term && s.cols == cols && s.rows == rows
  {
    hide ServeOne, EncodesPty;
    var n := |requests| - 1;
    var before := Serve(cfg, user, requests[..n]);
    if before.crashed {
      CrashedServes(cfg, user, before, requests[n]);
    }
    if k == n {
      PtyServes(cfg, user, before, requests[k], term, cols, rows);
    } else {
      assert requests[..n][k] == requests[k];
      PtySticks(cfg, user, requests[..n], k, term, cols, rows);
      OthersKeepPty(cfg, user, before, requests[n]);
    }
  }

  /** A window-change that encodes a size decides it until the next one or the next pty-req. */
  lemma {:induction false} WindowSticks(cfg: RouteConfig, user: string, requests: seq<Request>, k: nat, cols: uint32, rows: uint32)
    requires k < |requests| && requests[k].WindowChange? && EncodesWindow(requests[k].payload, cols, rows)
    requires forall j | k < j < |requests| :: !requests[j].PtyReq? && !requests[j].WindowChange?
    requires !Serve(cfg, user, requests).crashed
    ensures var s := Serve(cfg, user, requests); s.cols == cols && s.rows == rows
  {
    hide ServeOne, EncodesWindow;
    var n := |requests| - 1;
    var before := Serve(cfg, user, requests[..n]);
    if before.crashed {
      CrashedServes(cfg, user, before, requests[n]);
    }
    if k == n {
      WindowServes(cfg, user, before, requests[k], cols, rows);
    } else {
      assert requests[..n][k] == requests[k];
      WindowSticks(cfg, user, requests[..n], k, cols, rows);
      OthersKeepPty(cfg, user, before, requests[n]);
    }
  }

  lemma WindowServes(cfg: RouteConfig, user: string, s: Served, r: Request, cols: uint32, rows: uint32)
    requires !s.crashed && r.WindowChange? && EncodesWindow(r.payload, cols, rows)
    ensures var t := ServeOne(cfg, user, s, r); t.cols == cols && t.rows == rows && t.term == s.term
  {
    hide ApplyEnv, DecodeEnv, DecodeCommand, DecodePty, DecodeWindow, EncodesWindow;
    DecodeWindowInverts(r.payload, cols, rows, s.cols, s.rows);
  }

  // ---------------------------------------------------------------- the answers

  /** The payload starts with the encoding of a pair that is accepted. */
  ghost predicate EnvAnswered(cfg: RouteConfig, user: string, p: bytes) {
    exists name, value :: EncodesEnv(p, name, value) && Accepted(cfg, user, RUNES(name), RUNES(value))
  }

  ghost predicate IsPty(p: bytes) { exists term, cols, rows :: EncodesPty(p, term, cols, rows) }

  /** How each request is answered, told from the bytes on the wire. */
  ghost function AnswerTo(cfg: RouteConfig, user: string, r: Request, started: bool): seq<bool> {
    match r
    case EnvVar(p) => [EnvAnswered(cfg, user, p), true]
    case AgentForwarding => [true]
    case ShellStart => [!started]
    case ExecStart(_) => [!started]
    case PtyReq(p) => [IsPty(p)]
    case WindowChange(_) => [true]
    case Subsystem => [false]
    case Other(wantReply) => if wantReply then [false] else []
  }

  lemma EnvAnswer(cfg: RouteConfig, user: string, s: Served, p: bytes)
    requires !s.crashed && |p| < WORD
    ensures ServeOne(cfg, user, s, EnvVar(p)).replies == s.replies + [EnvAnswered(cfg, user, p), true]
  {
    hide ApplyEnv, DecodeEnv, EncodesEnv, Accepted;
    DecodeEnvInverts(p, [], []);
    if DecodeEnv(p).Env? {
      var name, value := DecodeEnv(p).name, DecodeEnv(p).value;
      DecodeEnvInverts(p, name, value);
      ReplyIsAccepted(cfg, user, s.routes, RUNES(name), RUNES(value));
    }
    forall name, value | EncodesEnv(p, name, value) ensures DecodeEnv(p) == Env(name, value) {
      DecodeEnvInverts(p, name, value);
    }
  }

  lemma PtyAnswer(cfg: RouteConfig, user: string, s: Served, p: bytes)
    requires !s.crashed
    ensures ServeOne(cfg, user, s, PtyReq(p)).replies == s.replies + [IsPty(p)]
  {
    hide DecodePty, EncodesPty;
    if DecodePty(p).Pty? {
      DecodePtyInverts(p, DecodePty(p).term, DecodePty(p).cols, DecodePty(p).rows);
    }
    forall term, cols, rows | EncodesPty(p, term, cols, rows) ensures DecodePty(p) == Pty(term, cols, rows) {
      DecodePtyInverts(p, term, cols, rows);
    }
  }

  lemma OneAnswer(cfg: RouteConfig, user: string, s: Served, r: Request)
    requires !s.crashed && FitsPacket(r)
    ensures ServeOne(cfg, user, s, r).replies == s.replies + AnswerTo(cfg, user, r, s.started.Some?)
  {
    hide EnvAnswered, IsPty, DecodeCommand, DecodeWindow;
    match r
    case EnvVar(p) => EnvAnswer(cfg, user, s, p);
    case ExecStart(p) => DecodeCommandInverts(p, []);
    case PtyReq(p) => PtyAnswer(cfg, user, s, p);
    case AgentForwarding =>
    case ShellStart =>
    case WindowChange(_) =>
    case Subsystem =>
    case Other(_) => assert s.replies + [] == s.replies;
  }

  /** Every request is answered as it should be, whatever came before: a start by whether it is the first
      one, an env request by whether it encodes an acceptable pair, a pty-req by whether it encodes a
      terminal. */
  lemma RequestsAreAnswered(cfg: RouteConfig, user: string, requests: seq<Request>, k: nat)
    requires k < |requests| && forall r | r in requests :: FitsPacket(r)
    ensures Serve(cfg, user, requests[..k + 1]).replies ==
              Serve(cfg, user, requests[..k]).replies
              + AnswerTo(cfg, user, requests[k], exists j :: 0 <= j < k && IsStart(requests[j]))
  {
    hide ServeOne, FitsPacket, AnswerTo;
    PrefixFits(requests, k);
    RepliesAreCounted(cfg, user, requests[..k]);
    StartedIff(cfg, user, requests, k);
    ServeNext(cfg, user, requests, k);
    assert requests[k] in requests;
    OneAnswer(cfg, user, Serve(cfg, user, requests[..k]), requests[k]);
  }

  // ---------------------------------------------------------------- the environment

  /** The pairs that the env requests of a channel encode. */
  function PairsOf(requests: seq<Request>): seq<EnvRequestText> {
    if requests == [] then []
    else
      var r := requests[|requests| - 1];
      PairsOf(requests[..|requests| - 1])
      + if r.EnvVar? && DecodeEnv(r.payload).Env?
        then [EnvRequestText(RUNES(DecodeEnv(r.payload).name), RUNES(DecodeEnv(r.payload).value))] else []
  }

  lemma OnePair(cfg: RouteConfig, user: string, s: Served, r: Request)
    requires !s.crashed && FitsPacket(r)
    ensures ServeOne(cfg, user, s, r).routes ==
              if r.EnvVar? && DecodeEnv(r.payload).Env?
              then ApplyEnv(cfg, user, s.routes, RUNES(DecodeEnv(r.payload).name), RUNES(DecodeEnv(r.payload).value)).0
              else s.routes
  {
    hide ApplyEnv, DecodeEnv, DecodeCommand, DecodePty, DecodeWindow;
  }

  lemma ApplyOneMore(cfg: RouteConfig, user: string, pairs: seq<EnvRequestText>, p: EnvRequestText)
    ensures ApplyEnvs(cfg, user, pairs + [p]) == ApplyEnv(cfg, user, ApplyEnvs(cfg, user, pairs), p.name, p.value).0
  {
    hide ApplyEnv;
    assert (pairs + [p])[..|pairs|] == pairs;
  }

  /** The loop leaves the routes that the env requests it decoded leave, in their order. */
  lemma {:induction false} RoutesAreHistory(cfg: RouteConfig, user: string, requests: seq<Request>)
    requires forall r | r in requests :: FitsPacket(r)
    ensures Serve(cfg, user, requests).routes == ApplyEnvs(cfg, user, PairsOf(requests))
  {
    hide ServeOne, FitsPacket, ApplyEnv, DecodeEnv;
    if requests == [] {
      NoPairs(cfg, user);
    } else {
      hide ApplyEnvs;
      var n := |requests| - 1;
      PrefixFits(requests, n);
      RoutesAreHistory(cfg, user, requests[..n]);
      RepliesAreCounted(cfg, user, requests[..n]);
      OnePair(cfg, user, Serve(cfg, user, requests[..n]), requests[n]);
      var pairs, r := PairsOf(requests[..n]), requests[n];
      if r.EnvVar? && DecodeEnv(r.payload).Env? {
        ApplyOneMore(cfg, user, pairs, EnvRequestText(RUNES(DecodeEnv(r.payload).name), RUNES(DecodeEnv(r.payload).value)));
      } else {
        assert pairs + [] == pairs;
      }
    }
  }

  lemma NoPairs(cfg: RouteConfig, user: string)
    ensures ApplyEnvs(cfg, user, []) == NO_ROUTES
  {
  }
}
