/** What the requests on a channel come to in the interleaved system: its replies, the session it runs,
    and the environment of its connection. */
module Requests {
  import opened Text
  import opened Address
  import opened Routing
  import opened Steps
  import opened Proxy
  import opened ProxySafety
  import opened Handles
  import opened Outcomes
  import Session

  // ---------------------------------------------------------------- starts and replies

  /** The first start request on channel k. */
  function FirstStart(events: seq<Event>, k: nat): Option<(Kind, string)> {
    if events == [] then None
    else
      var before, e := FirstStart(events[..|events| - 1], k), events[|events| - 1];
      if before.None? && e.StartRequest? && e.chan == k then Some((e.kind, e.command)) else before
  }

  /** The replies due on channel k: the first start is accepted and later ones are refused, and an env
      request is answered by its handler and again, positively, by the loop. */
  ghost function RepliesDue(events: seq<Event>, k: nat, cfg: Settings): seq<bool> {
    if events == [] then []
    else
      var before, e := events[..|events| - 1], events[|events| - 1];
      RepliesDue(before, k, cfg)
      + if e.StartRequest? && e.chan == k then [FirstStart(before, k).None?]
        else if e.EnvRequest? && e.chan == k then [Session.Accepted(cfg.routes, cfg.user, e.name, e.value), true]
        else if e.OtherRequest? && e.chan == k then [e.reply]
        else []
  }

  lemma EnvReply(c: Conn, name: string, value: string)
    ensures StoreEnv(c, name, value).1 <==> Session.Accepted(c.cfg.routes, c.cfg.user, name, value)
    ensures StoreEnv(c, name, value).0.cfg == c.cfg
  {
    hide ResolveTargetAddress, SpellsFor, Session.Accepted;
    var s := Session.Routes(c.shared.env, c.shared.target);
    Session.ReplyIsAccepted(c.cfg.routes, c.cfg.user, s, name, value);
  }

  /** What the channel and its run are after the events so far. */
  ghost predicate ChanFollows(events: seq<Event>, w: World, k: nat)
    requires k < |w.chans|
  {
    var ch := w.chans[k];
    && ch.conn < |w.conns|
    && ch.replies == RepliesDue(events, k, w.conns[ch.conn].cfg)
    && (ch.run.Some? <==> FirstStart(events, k).Some?)
    && (ch.run.Some? ==>
          && ch.run.value < |w.runs|
          && w.runs[ch.run.value].conn == ch.conn && w.runs[ch.run.value].chan == k
          && FirstStart(events, k) == Some((w.runs[ch.run.value].kind, w.runs[ch.run.value].command)))
  }

  /** What one event does to a channel that exists. */
  lemma ChanNow(w: World, e: Event, k: nat)
    requires Enabled(w, e) && k < |w.chans| && w.chans[k].conn < |w.conns|
    ensures k < |Apply(w, e).chans| && Apply(w, e).chans[k].conn == w.chans[k].conn
    ensures var ch, after := w.chans[k], Apply(w, e).chans[k];
            && after.replies == ch.replies
                 + (if e.StartRequest? && e.chan == k then [ch.run.None?]
                    else if e.EnvRequest? && e.chan == k then [StoreEnv(w.conns[ch.conn], e.name, e.value).1, true]
                    else if e.OtherRequest? && e.chan == k then [e.reply]
                    else [])
            && after.run == if e.StartRequest? && e.chan == k && ch.run.None? then Some(|w.runs|) else ch.run
  {
    hide Step, StoreEnv, TakesTicket;
    assert w.chans[k].replies + [] == w.chans[k].replies;
  }

  lemma RunIdentity(w: World, e: Event, i: nat)
    requires Enabled(w, e) && RunsHold(w) && i < |w.runs|
    ensures i < |Apply(w, e).runs|
    ensures var r, s := w.runs[i], Apply(w, e).runs[i];
            s.conn == r.conn && s.chan == r.chan && s.kind == r.kind && s.command == r.command
  {
    hide Step, PlaceFits, GateHolds, TakesTicket, StoreEnv;
    if e.Steps? && e.run == i {
      assert RunHolds(w, i);
      SteppedNow(w, e, i);
      var cn := w.conns[w.runs[i].conn];
      StepPlace(w.runs[i], i, cn.cfg, cn.shared, w.globals, e.choice);
      KeepsConn(w.runs[i], Apply(w, e).runs[i]);
    } else {
      UntouchedNow(w, e, i);
    }
  }

  lemma NewChanNow(w: World, e: Event, k: nat)
    requires Enabled(w, e) && |w.chans| <= k < |Apply(w, e).chans|
    ensures e.OpensChannel? && Apply(w, e).chans[k] == Chan(e.conn, true, false, None, [], []) && e.conn < |Apply(w, e).conns|
  {
    hide Step, StoreEnv, TakesTicket;
  }

  lemma {:induction false} NothingOnChannel(events: seq<Event>, w: World, k: nat, cfg: Settings)
    requires Reaches(events, w) && k >= |w.chans|
    ensures FirstStart(events, k) == None && RepliesDue(events, k, cfg) == []
  {
    hide Reaches, Enabled, Apply, RunsHold, Wired, Session.Accepted;
    if events != [] {
      var before, e := LastStep(events, w);
      ChansGrow(before, e);
      NothingOnChannel(events[..|events| - 1], before, k, cfg);
      RequestOnChannel(before, e);
    }
  }

  lemma ChansGrow(w: World, e: Event)
    requires Enabled(w, e)
    ensures |w.chans| <= |Apply(w, e).chans|
  {
    hide Step, StoreEnv, TakesTicket;
  }

  lemma RequestOnChannel(w: World, e: Event)
    requires Enabled(w, e)
    ensures e.StartRequest? || e.EnvRequest? || e.OtherRequest? ==> e.chan < |w.chans|
  {
  }

  lemma FirstStartGrows(events: seq<Event>, k: nat)
    requires events != []
    ensures var before, e := FirstStart(events[..|events| - 1], k), events[|events| - 1];
            FirstStart(events, k) == if before.None? && e.StartRequest? && e.chan == k then Some((e.kind, e.command)) else before
  {
  }

  /** In every interleaving a channel got the replies that are due, and it runs a session exactly when
      a start was requested: the first one requested. */
  lemma {:induction false} ChannelFollowsRequests(events: seq<Event>, w: World, k: nat)
    requires Reaches(events, w) && k < |w.chans|
    ensures ChanFollows(events, w, k)
  {
    hide Reaches, Enabled, Apply, RunsHold, Wired, Session.Accepted, FirstStart, StoreEnv;
    if events == [] {
      NothingYet(w);
      assert false;
    } else {
      var n := |events| - 1;
      var before, e := LastStep(events, w);
      FirstStartGrows(events, k);
      if k >= |before.chans| {
        NewChanNow(before, e, k);
        NothingOnChannel(events[..n], before, k, w.conns[w.chans[k].conn].cfg);
      } else {
        ChannelFollowsRequests(events[..n], before, k);
        var c := before.chans[k].conn;
        ChanNow(before, e, k);
        ConfigKept(before, e, c);
        if e.EnvRequest? && e.chan == k {
          EnvReply(before.conns[c], e.name, e.value);
        }
        if before.chans[k].run.Some? {
          RunIdentity(before, e, before.chans[k].run.value);
        } else if e.StartRequest? && e.chan == k {
          StartsRun(before, e);
        }
      }
    }
  }

  lemma StartsRun(w: World, e: Event)
    requires Enabled(w, e) && e.StartRequest? && w.chans[e.chan].run.None?
    ensures |Apply(w, e).runs| == |w.runs| + 1
    ensures Apply(w, e).runs[|w.runs|] == NewRun(w.chans[e.chan].conn, e.chan, e.kind, e.command)
  {
  }

  /** Every channel can end: while it is served its requests can end, and once they have and its session
      has returned, the handler closes it. */
  lemma ChannelsCanEnd(events: seq<Event>, w: World, k: nat)
    requires Reaches(events, w) && k < |w.chans| && !w.globals.crashed
    ensures w.chans[k].run.Some? ==> w.chans[k].run.value < |w.runs|
    ensures w.chans[k].serving ==>
              Enabled(w, RequestsEnd(k)) && Apply(w, RequestsEnd(k)).chans[k] == w.chans[k].(serving := false)
    ensures !w.chans[k].serving && !w.chans[k].finished && (w.chans[k].run.Some? ==> w.runs[w.chans[k].run.value].pc == DONE) ==>
              && Enabled(w, ClosesChannel(k))
              && Apply(w, ClosesChannel(k)).chans[k] == w.chans[k].(finished := true, out := w.chans[k].out + [HandlerClose])
  {
    hide Reaches, RunsHold, FlagsHaveEvidence, HandlesHold, MetricsHold, ChansHold, RoutesHold, TicketsHold, CapturesHold;
    InvariantAlways(events, w);
    assert ChanWired(w, k);
  }

  // ---------------------------------------------------------------- the environment of a connection

  /** The env requests that reached connection c, on its channels or globally. */
  function EnvsOf(events: seq<Event>, chans: seq<Chan>, c: nat): seq<Session.EnvRequestText> {
    if events == [] then []
    else EnvsOf(events[..|events| - 1], chans, c) + EnvNow(events[|events| - 1], chans, c)
  }

  function EnvNow(e: Event, chans: seq<Chan>, c: nat): seq<Session.EnvRequestText> {
    if e.EnvRequest? && e.chan < |chans| && chans[e.chan].conn == c then [Session.EnvRequestText(e.name, e.value)]
    else if e.GlobalEnv? && e.conn == c then [Session.EnvRequestText(e.name, e.value)]
    else []
  }

  lemma {:induction false} SameEnvs(events: seq<Event>, w: World, chans: seq<Chan>, c: nat)
    requires Reaches(events, w) && |w.chans| <= |chans| && forall k | 0 <= k < |w.chans| :: chans[k].conn == w.chans[k].conn
    ensures EnvsOf(events, chans, c) == EnvsOf(events, w.chans, c)
  {
    hide Reaches, Enabled, Apply, RunsHold, Wired;
    if events != [] {
      var n := |events| - 1;
      var before, e := LastStep(events, w);
      ChansKeepConn(before, e);
      SameEnvs(events[..n], before, chans, c);
      SameEnvs(events[..n], before, w.chans, c);
      RequestOnChannel(before, e);
    }
  }

  lemma ChansKeepConn(w: World, e: Event)
    requires Enabled(w, e)
    ensures |w.chans| <= |Apply(w, e).chans| && forall k | 0 <= k < |w.chans| :: Apply(w, e).chans[k].conn == w.chans[k].conn
  {
    hide Step, StoreEnv, TakesTicket;
  }

  lemma EnvChange(w: World, e: Event, c: nat)
    requires Enabled(w, e) && RunsHold(w) && c < |w.conns|
    ensures c < |Apply(w, e).conns|
    ensures var cn := w.conns[c];
            var now := EnvNow(e, w.chans, c);
            Apply(w, e).conns[c].shared.env ==
              if now == [] then cn.shared.env
              else Session.ApplyEnv(cn.cfg.routes, cn.cfg.user, Session.Routes(cn.shared.env, cn.shared.target), now[0].name, now[0].value).0.env
  {
    hide Step, TakesTicket, Session.ApplyEnv, Session.Stores, PlaceFits, GateHolds;
    if e.Steps? {
      assert RunHolds(w, e.run);
      SteppedNow(w, e, e.run);
      var cn := w.conns[w.runs[e.run].conn];
      StepEnv(w.runs[e.run], e.run, cn.cfg, cn.shared, w.globals, e.choice);
    }
  }

  lemma StepEnv(r: Run, id: nat, cfg: Settings, sh: Shared, g: Globals, c: Choice)
    requires Fits(r.pc, c) && PlaceFits(r, cfg)
    ensures Step(r, id, cfg, sh, g, c).shared.env == sh.env
  {
    hide ConfirmationFits, OutcomeFits, CodeFits, DirectFits, DialFits, HandleOrder, Step, IsSafeTarget;
    StepEffects(r, id, cfg, sh, g, c);
  }

  /** The variables after a request do not depend on the target before it. */
  lemma EnvIgnoresTarget(cfg: RouteConfig, user: string, s: Session.Routes, t: Session.Routes, name: string, value: string)
    requires s.env == t.env
    ensures Session.ApplyEnv(cfg, user, s, name, value).0.env == Session.ApplyEnv(cfg, user, t, name, value).0.env
  {
    hide ResolveTargetAddress;
  }

  lemma OneMoreRequested(cfg: RouteConfig, user: string, requests: seq<Session.EnvRequestText>, r: Session.EnvRequestText)
    ensures Session.ApplyEnvs(cfg, user, requests + [r])
              == Session.ApplyEnv(cfg, user, Session.ApplyEnvs(cfg, user, requests), r.name, r.value).0
  {
    hide Session.ApplyEnv;
    assert (requests + [r])[..|requests|] == requests;
  }

  /** In every interleaving the variables of a connection are what its env requests, in the order in
      which they took effect, leave behind. */
  lemma {:induction false} EnvIsHistory(events: seq<Event>, w: World, c: nat)
    requires Reaches(events, w) && c < |w.conns|
    ensures var cfg := w.conns[c].cfg;
            w.conns[c].shared.env == Session.ApplyEnvs(cfg.routes, cfg.user, EnvsOf(events, w.chans, c)).env
  {
    hide Reaches, Enabled, Apply, RunsHold, Wired, Session.ApplyEnv, EnvNow, Session.ApplyEnvs;
    if events == [] {
      NothingYet(w);
      assert false;
    } else {
      var n := |events| - 1;
      var before, e := LastStep(events, w);
      ChansKeepConn(before, e);
      SameEnvs(events[..n], before, w.chans, c);
      EnvNowSame(before, e, w.chans, c);
      var requests, now := EnvsOf(events[..n], before.chans, c), EnvNow(e, before.chans, c);
      if c >= |before.conns| {
        NoEnvsYet(events[..n], before, c);
        NewConnNow(before, e, c);
      } else {
        EnvIsHistory(events[..n], before, c);
        ConfigKept(before, e, c);
        EnvChange(before, e, c);
        var cn := before.conns[c];
        assert requests + [] == requests;
        OneNow(e, before.chans, c);
        if now != [] {
          OneMoreRequested(cn.cfg.routes, cn.cfg.user, requests, now[0]);
          EnvIgnoresTarget(cn.cfg.routes, cn.cfg.user, Session.Routes(cn.shared.env, cn.shared.target),
                           Session.ApplyEnvs(cn.cfg.routes, cn.cfg.user, requests), now[0].name, now[0].value);
        }
      }
    }
  }

  lemma OneNow(e: Event, chans: seq<Chan>, c: nat)
    ensures var now := EnvNow(e, chans, c); now == [] || now == [now[0]]
  {
  }

  lemma EnvNowSame(w: World, e: Event, chans: seq<Chan>, c: nat)
    requires Enabled(w, e) && |w.chans| <= |chans| && forall k | 0 <= k < |w.chans| :: chans[k].conn == w.chans[k].conn
    ensures EnvNow(e, chans, c) == EnvNow(e, w.chans, c)
  {
    RequestOnChannel(w, e);
  }

  lemma NewConnNow(w: World, e: Event, c: nat)
    requires Enabled(w, e) && Wired(w) && |w.conns| <= c < |Apply(w, e).conns|
    ensures Apply(w, e).conns[c].shared.env == map[] && EnvNow(e, w.chans, c) == []
  {
    hide Step, StoreEnv, TakesTicket;
  }

  lemma {:induction false} NoEnvsYet(events: seq<Event>, w: World, c: nat)
    requires Reaches(events, w) && c >= |w.conns|
    ensures EnvsOf(events, w.chans, c) == []
    ensures forall cfg: RouteConfig, user :: Session.ApplyEnvs(cfg, user, []).env == map[]
  {
    hide Reaches, Enabled, Apply, RunsHold, Session.ApplyEnv, EnvNow;
    if events != [] {
      var n := |events| - 1;
      var before, e := LastStep(events, w);
      ConnsGrow(before, e);
      ChansKeepConn(before, e);
      NoEnvsYet(events[..n], before, c);
      SameEnvs(events[..n], before, w.chans, c);
      EnvNowSame(before, e, w.chans, c);
      NoEnvForLater(before, e, c);
    }
  }

  lemma NoEnvForLater(w: World, e: Event, c: nat)
    requires Enabled(w, e) && Wired(w) && c >= |w.conns|
    ensures EnvNow(e, w.chans, c) == []
  {
    assert e.EnvRequest? ==> ChanWired(w, e.chan);
  }

  // ---------------------------------------------------------------- the targets that env requests store

  /** A request for the server variable that is acceptable. */
  ghost predicate NamesTarget(cfg: Settings, r: Session.EnvRequestText) {
    r.name == SERVER_VARIABLE && !cfg.routes.staticEnabled && exists t :: SpellsFor(r.value, cfg.user, t)
  }

  ghost function TargetRequests(cfg: Settings, requests: seq<Session.EnvRequestText>): nat {
    if requests == [] then 0
    else TargetRequests(cfg, requests[..|requests| - 1]) + if NamesTarget(cfg, requests[|requests| - 1]) then 1 else 0
  }

  function StoresOf(events: seq<Event>, c: nat): nat {
    if events == [] then 0
    else
      var e := events[|events| - 1];
      StoresOf(events[..|events| - 1], c) + if e.StoresTarget? && e.conn == c then 1 else 0
  }

  /** A target still to be stored is what some request for the server variable spells. */
  ghost predicate Asked(cfg: Settings, requests: seq<Session.EnvRequestText>, t: Target) {
    exists k: nat :: k < |requests| && requests[k].name == SERVER_VARIABLE && SpellsFor(requests[k].value, cfg.user, t)
  }

  lemma PendingChange(w: World, e: Event, c: nat)
    requires Enabled(w, e) && c < |w.conns|
    ensures c < |Apply(w, e).conns|
    ensures var cn := w.conns[c];
            var now, after := EnvNow(e, w.chans, c), Apply(w, e).conns[c].pending;
            if now != [] && NamesTarget(cn.cfg, now[0]) then
              |after| == |cn.pending| + 1 && after[..|cn.pending|] == cn.pending
              && SpellsFor(now[0].value, cn.cfg.user, after[|cn.pending|])
            else if e.StoresTarget? && e.conn == c then
              |after| == |cn.pending| - 1 && after == cn.pending[..e.index] + cn.pending[e.index + 1..]
            else after == cn.pending
  {
    hide Step, TakesTicket, ResolveTargetAddress, SpellsFor, Session.Stores, Session.ApplyEnv, StoreEnv, NamesTarget;
    var now := EnvNow(e, w.chans, c);
    if now != [] {
      PendingAfterEnv(w.conns[c], now[0].name, now[0].value);
    }
  }

  lemma PendingAfterEnv(c: Conn, name: string, value: string)
    ensures var after := StoreEnv(c, name, value).0.pending;
            if NamesTarget(c.cfg, Session.EnvRequestText(name, value)) then
              |after| == |c.pending| + 1 && after[..|c.pending|] == c.pending && SpellsFor(value, c.cfg.user, after[|c.pending|])
            else after == c.pending
  {
    hide ResolveTargetAddress, SpellsFor;
    Session.StoresIff(c.cfg.routes, c.cfg.user, name, value);
    var routes := Session.Routes(c.shared.env, c.shared.target);
    Session.OneMoreEnv(c.cfg.routes, c.cfg.user, routes, name, value);
    if name == SERVER_VARIABLE && Session.Stores(c.cfg.routes, c.cfg.user, name, value) {
      ResolvesTo(value, c.cfg.user, Session.ApplyEnv(c.cfg.routes, c.cfg.user, routes, name, value).0.target);
    }
  }

  lemma AskedGrows(cfg: Settings, requests: seq<Session.EnvRequestText>, more: seq<Session.EnvRequestText>, t: Target)
    requires Asked(cfg, requests, t)
    ensures Asked(cfg, requests + more, t)
  {
    hide SpellsFor;
    var k: nat :| k < |requests| && requests[k].name == SERVER_VARIABLE && SpellsFor(requests[k].value, cfg.user, t);
    assert (requests + more)[k] == requests[k];
  }

  lemma AskedNow(cfg: Settings, requests: seq<Session.EnvRequestText>, r: Session.EnvRequestText, t: Target)
    requires r.name == SERVER_VARIABLE && SpellsFor(r.value, cfg.user, t)
    ensures Asked(cfg, requests + [r], t)
  {
    hide SpellsFor;
    assert (requests + [r])[|requests|] == r;
  }

  lemma OneMoreTargetRequest(cfg: Settings, requests: seq<Session.EnvRequestText>, r: Session.EnvRequestText)
    ensures TargetRequests(cfg, requests + [r]) == TargetRequests(cfg, requests) + if NamesTarget(cfg, r) then 1 else 0
  {
    hide NamesTarget;
    assert (requests + [r])[..|requests|] == requests;
  }

  /** In every interleaving each accepted request for the server variable leads to one store of a target:
      those not stored yet are still pending, and each is what one of the requests spells. */
  lemma {:induction false} TargetsArePending(events: seq<Event>, w: World, c: nat)
    requires Reaches(events, w) && c < |w.conns|
    ensures var cn, requests := w.conns[c], EnvsOf(events, w.chans, c);
            && |cn.pending| + StoresOf(events, c) == TargetRequests(cn.cfg, requests)
            && forall t | t in cn.pending :: Asked(cn.cfg, requests, t)
  {
    hide Reaches, Enabled, Apply, RunsHold, Wired, EnvNow, NamesTarget, TargetRequests, SpellsFor, Asked;
    if events == [] {
      NothingYet(w);
      assert false;
    } else {
      var n := |events| - 1;
      var before, e := LastStep(events, w);
      ChansKeepConn(before, e);
      SameEnvs(events[..n], before, w.chans, c);
      EnvNowSame(before, e, w.chans, c);
      var requests, now := EnvsOf(events[..n], before.chans, c), EnvNow(e, before.chans, c);
      assert requests + [] == requests;
      if c >= |before.conns| {
        NoEnvsYet(events[..n], before, c);
        NoStoresYet(events[..n], before, c);
        NewConnNow(before, e, c);
        NewConnPending(before, e, c);
        NoTargetRequests(w.conns[c].cfg);
      } else {
        TargetsArePending(events[..n], before, c);
        ConfigKept(before, e, c);
        PendingChange(before, e, c);
        var cfg := before.conns[c].cfg;
        OneNow(e, before.chans, c);
        EnvOrStore(e, before.chans, c);
        if now != [] {
          OneMoreTargetRequest(cfg, requests, now[0]);
        }
        forall t | t in w.conns[c].pending ensures Asked(cfg, requests + now, t) {
          if t in before.conns[c].pending {
            AskedGrows(cfg, requests, now, t);
          } else {
            PendingIsNew(before.conns[c].pending, w.conns[c].pending, t);
            TargetNamed(cfg, now[0]);
            AskedNow(cfg, requests, now[0], t);
          }
        }
      }
    }
  }

  lemma TargetNamed(cfg: Settings, r: Session.EnvRequestText)
    requires NamesTarget(cfg, r)
    ensures r.name == SERVER_VARIABLE
  {
  }

  lemma PendingIsNew(before: seq<Target>, after: seq<Target>, t: Target)
    requires |after| == |before| + 1 && after[..|before|] == before && t in after && t !in before
    ensures t == after[|before|]
  {
    assert after == before + [after[|before|]];
  }

  lemma EnvOrStore(e: Event, chans: seq<Chan>, c: nat)
    ensures EnvNow(e, chans, c) != [] ==> !e.StoresTarget?
  {
  }

  lemma NoTargetRequests(cfg: Settings)
    ensures TargetRequests(cfg, []) == 0
  {
  }

  lemma NewConnPending(w: World, e: Event, c: nat)
    requires Enabled(w, e) && |w.conns| <= c < |Apply(w, e).conns|
    ensures Apply(w, e).conns[c].pending == [] && !e.StoresTarget?
  {
    hide Step, StoreEnv, TakesTicket;
  }

  lemma {:induction false} NoStoresYet(events: seq<Event>, w: World, c: nat)
    requires Reaches(events, w) && c >= |w.conns|
    ensures StoresOf(events, c) == 0
  {
    hide Reaches, Enabled, Apply, RunsHold, Wired;
    if events != [] {
      var before, e := LastStep(events, w);
      ConnsGrow(before, e);
      NoStoresYet(events[..|events| - 1], before, c);
      StoreExists(before, e);
    }
  }

  lemma StoreExists(w: World, e: Event)
    requires Enabled(w, e)
    ensures e.StoresTarget? ==> e.conn < |w.conns|
  {
  }
}
