/** Whose handle a field of the shared state is: in every run of the proxy the last session to take or
    leave the field decides it, so a session finds its own handle exactly while no other one of its
    connection has touched the field since. */
module Handles {
  import opened Text
  import opened Steps
  import opened Proxy
  import opened ProxySafety

  predicate Occupies(h: Handle, pc: PC) {
    match h
    case Client => HasPutClient(pc)
    case TargetSession => HasPutSession(pc)
    case Recorder => HasPutRecorder(pc)
  }

  function Field(sh: Shared, h: Handle): Option<nat> {
    match h
    case Client => sh.client
    case TargetSession => sh.session
    case Recorder => sh.recorder
  }

  /** The last place of a run at which it occupies a field. */
  function LastPlace(h: Handle): PC {
    match h
    case Client => CLEAR_CLIENT
    case TargetSession => CLEAR_SESSION
    case Recorder => CLEAR_RECORDER
  }

  /** How many handles a run has opened when it has opened this one. */
  function Rank(h: Handle): nat {
    match h
    case Client => 1
    case TargetSession => 2
    case Recorder => 3
  }

  // ---------------------------------------------------------------- taking and leaving a field

  /** Event e makes run j take the field, or leave it. */
  predicate Moves(w: World, e: Event, h: Handle, j: nat) {
    && e.Steps? && e.run == j && Enabled(w, e)
    && Occupies(h, w.runs[j].pc) != Occupies(h, Apply(w, e).runs[j].pc)
  }

  predicate Takes(w: World, e: Event, h: Handle, j: nat) {
    Moves(w, e, h, j) && !Occupies(h, w.runs[j].pc)
  }

  /** At the k-th event of a run of the proxy, run j of connection c takes or leaves the field. */
  predicate MovesAt(events: seq<Event>, k: nat, c: nat, h: Handle, j: nat)
    requires k < |events|
  {
    var before := Execute(INITIAL, events[..k]);
    before.Some? && Moves(before.value, events[k], h, j) && before.value.runs[j].conn == c
  }

  predicate TakesAt(events: seq<Event>, k: nat, h: Handle, j: nat)
    requires k < |events|
  {
    var before := Execute(INITIAL, events[..k]);
    before.Some? && Takes(before.value, events[k], h, j)
  }

  ghost predicate TakesAfter(events: seq<Event>, k: int, h: Handle, i: nat) {
    exists m: nat :: k < m < |events| && TakesAt(events, m, h, i)
  }

  /** Run i took the field after every time another run of connection c took or left it. */
  ghost predicate Undisturbed(events: seq<Event>, c: nat, h: Handle, i: nat) {
    forall k: nat, j: nat | k < |events| && j != i && MovesAt(events, k, c, h, j) :: TakesAfter(events, k, h, i)
  }

  /** The run of connection c that was the last to take or leave the field, if it took it. */
  function LastTaker(events: seq<Event>, c: nat, h: Handle): Option<nat> {
    if events == [] then None
    else
      var n := |events| - 1;
      if events[n].Steps? && MovesAt(events, n, c, h, events[n].run)
      then if TakesAt(events, n, h, events[n].run) then Some(events[n].run) else None
      else LastTaker(events[..n], c, h)
  }

  // ---------------------------------------------------------------- one event

  /** A field changes exactly when a run of its connection takes or leaves it. */
  lemma FieldStep(w: World, e: Event, h: Handle, c: nat)
    requires Enabled(w, e) && RunsHold(w) && c < |w.conns|
    ensures c < |Apply(w, e).conns|
    ensures Field(Apply(w, e).conns[c].shared, h) ==
              if e.Steps? && Moves(w, e, h, e.run) && w.runs[e.run].conn == c
              then if Takes(w, e, h, e.run) then Some(e.run) else None
              else Field(w.conns[c].shared, h)
  {
    hide Step, PlaceFits, GateHolds, HasPutClient, HasPutSession, HasPutRecorder, HandleOrder, StoreEnv, RunsHold, TakesTicket;
    if e.Steps? {
      RunStepHandles(w, e.run, e.choice);
    } else {
      OtherEventsKeepConns(w, e, c);
    }
  }

  /** Where a run sets a field, and where it clears it. */
  function SetPlace(h: Handle): PC {
    match h
    case Client => PUT_CLIENT
    case TargetSession => PUT_SESSION
    case Recorder => PUT_RECORDER
  }

  /** The step that sets a field puts the run's own handle into the state and makes the run occupy it;
      the one that clears it empties the field, and the run occupied it until then. */
  lemma SetsAndClears(w: World, e: Event, h: Handle, i: nat)
    requires Enabled(w, e) && e.Steps? && e.run == i
    ensures var r, s := w.runs[i], Apply(w, e).runs[i];
            var field := Field(Apply(w, e).conns[r.conn].shared, h);
            && (r.pc == SetPlace(h) ==> field == Some(i) && !Occupies(h, r.pc) && Occupies(h, s.pc))
            && (r.pc == LastPlace(h) ==> field == None && Occupies(h, r.pc) && !Occupies(h, s.pc))
  {
    hide StepGate, StepDial, StepFinal, StepReport, TakesTicket;
  }

  predicate KeepsCaptures(r: Run, s: Run) {
    forall lane | lane in r.captured :: lane in s.captured && s.captured[lane] == r.captured[lane]
  }

  lemma RunKept(w: World, e: Event, j: nat)
    requires Enabled(w, e) && RunsHold(w) && j < |w.runs|
    ensures j < |Apply(w, e).runs| && Apply(w, e).runs[j].conn == w.runs[j].conn
    ensures w.runs[j].acquired <= Apply(w, e).runs[j].acquired
    ensures Apply(w, e).runs[j].pc != w.runs[j].pc ==> e.Steps? && e.run == j
    ensures KeepsCaptures(w.runs[j], Apply(w, e).runs[j])
  {
    hide Step, PlaceFits, GateHolds, HasPutClient, HasPutSession, HasPutRecorder, HandleOrder, StoreEnv, RunsHold, TakesTicket;
    if e.Steps? {
      RunStepHandles(w, e.run, e.choice);
    } else {
      OtherEventsKeepRuns(w, e, j);
    }
  }

  /** Once it has dialled, a run only moves forward. */
  lemma DialledAdvances(r: Run, id: nat, cfg: Settings, sh: Shared, g: Globals, c: Choice)
    requires Fits(r.pc, c) && HandleOrder(r) && r.pc >= PUT_CLIENT
    ensures Step(r, id, cfg, sh, g, c).run.pc > r.pc
  {
    hide HandleOrder, Step, GateEffect, DialEffect;
    StepEffects(r, id, cfg, sh, g, c);
  }

  /** A run that moves the field has opened the handle and has not left the field before. */
  lemma MoverHasOpened(w: World, e: Event, h: Handle, j: nat)
    requires Enabled(w, e) && RunsHold(w) && Moves(w, e, h, j)
    ensures Apply(w, e).runs[j].acquired >= Rank(h) && w.runs[j].pc <= LastPlace(h)
  {
    hide Step, PlaceFits, GateHolds, HandleOrder, RunsHold, TakesTicket;
    RunStepHandles(w, e.run, e.choice);
    PlaceOpened(w.runs[j]);
    PlaceOpened(Apply(w, e).runs[j]);
    if w.runs[j].pc > LastPlace(h) {
      StaysPast(w, e, h, j);
    }
  }

  lemma StaysPast(w: World, e: Event, h: Handle, j: nat)
    requires Enabled(w, e) && RunsHold(w) && j < |w.runs| && w.runs[j].pc > LastPlace(h)
    ensures j < |Apply(w, e).runs| && Apply(w, e).runs[j].pc > LastPlace(h)
  {
    hide Step, PlaceFits, GateHolds, HandleOrder, RunsHold, TakesTicket, StoreEnv;
    RunKept(w, e, j);
    if e.Steps? && e.run == j {
      RunStepHandles(w, j, e.choice);
      var cn := w.conns[w.runs[j].conn];
      DialledAdvances(w.runs[j], j, cn.cfg, cn.shared, w.globals, e.choice);
    }
  }

  // ---------------------------------------------------------------- whole runs

  /** The world before the last event. */
  lemma LastStep(events: seq<Event>, w: World) returns (before: World, e: Event)
    requires Reaches(events, w) && events != []
    ensures var n := |events| - 1;
            && e == events[n] && Reaches(events[..n], before) && Enabled(before, e) && w == Apply(before, e)
            && Execute(INITIAL, events[..n]) == Some(before)
    ensures RunsHold(before) && Wired(before)
  {
    hide Enabled, Apply, RunsHold, Wired, FlagsHaveEvidence, HandlesHold, MetricsHold, ChansHold, RoutesHold, TicketsHold;
    var n := |events| - 1;
    before, e := Execute(INITIAL, events[..n]).value, events[n];
    InvariantAlways(events[..n], before);
  }

  lemma PrefixAt(events: seq<Event>, n: nat, k: nat, c: nat, h: Handle, j: nat)
    requires k < n <= |events|
    ensures MovesAt(events[..n], k, c, h, j) <==> MovesAt(events, k, c, h, j)
    ensures TakesAt(events[..n], k, h, j) <==> TakesAt(events, k, h, j)
  {
    hide Moves, Takes, Execute;
    assert events[..n][..k] == events[..k];
  }

  /** No run of a connection that is still to come has moved anything. */
  lemma {:induction false} NoTakerYet(events: seq<Event>, w: World, c: nat, h: Handle)
    requires Reaches(events, w) && c >= |w.conns|
    ensures LastTaker(events, c, h) == None
  {
    hide Reaches, Moves, Takes, Enabled, Apply, RunsHold;
    if events != [] {
      var before, e := LastStep(events, w);
      ConnsGrow(before, e);
      NoTakerYet(events[..|events| - 1], before, c, h);
      NotByNewConn(before, e, h, c);
    }
  }

  lemma ConnsGrow(w: World, e: Event)
    requires Enabled(w, e)
    ensures |w.conns| <= |Apply(w, e).conns| && |w.runs| <= |Apply(w, e).runs|
    ensures |w.conns| < |Apply(w, e).conns| ==> |Apply(w, e).conns| == |w.conns| + 1 && Apply(w, e).conns[|w.conns|].shared == NEW_STATE
  {
    hide Step, StoreEnv, TakesTicket;
  }

  /** Exactly: in every reachable world a field names the last run of its connection to take or leave
      it, when that run took it, and nothing otherwise. */
  lemma {:induction false} FieldIsLastTaker(events: seq<Event>, w: World, c: nat, h: Handle)
    requires Reaches(events, w) && c < |w.conns|
    ensures Field(w.conns[c].shared, h) == LastTaker(events, c, h)
  {
    hide Reaches, Moves, Takes, Enabled, Apply, RunsHold, Wired;
    if events == [] {
      NothingYet(w);
    } else {
      var n := |events| - 1;
      var before, e := LastStep(events, w);
      if c < |before.conns| {
        FieldIsLastTaker(events[..n], before, c, h);
        FieldStep(before, e, h, c);
      } else {
        ConnsGrow(before, e);
        NoTakerYet(events[..n], before, c, h);
        NotByNewConn(before, e, h, c);
      }
    }
  }

  lemma NotByNewConn(w: World, e: Event, h: Handle, c: nat)
    requires Enabled(w, e) && Wired(w) && c >= |w.conns|
    ensures e.Steps? ==> w.runs[e.run].conn != c
  {
    hide Moves;
    assert e.Steps? ==> RunWired(w, e.run);
  }

  lemma NothingYet(w: World)
    requires Reaches([], w)
    ensures w == INITIAL
  {
  }

  /** The last taker is a given run that is between its set and its clear exactly when it took the
      field after every other run's moves. */
  lemma {:induction false} LastTakerIff(events: seq<Event>, w: World, h: Handle, i: nat)
    requires Reaches(events, w) && i < |w.runs| && Occupies(h, w.runs[i].pc)
    ensures LastTaker(events, w.runs[i].conn, h) == Some(i) <==> Undisturbed(events, w.runs[i].conn, h, i)
  {
    hide Reaches, Moves, Takes, Enabled, Apply, RunsHold, Occupies, Execute, Wired;
    var c := w.runs[i].conn;
    if events == [] {
      NothingYet(w);
    } else {
      var n := |events| - 1;
      var before, e := LastStep(events, w);
      NewRunsStart(before, e, h, i);
      RunKept(before, e, i);
      forall k: nat, j: nat | k < n
        ensures MovesAt(events[..n], k, c, h, j) <==> MovesAt(events, k, c, h, j)
        ensures TakesAt(events[..n], k, h, j) <==> TakesAt(events, k, h, j)
      {
        PrefixAt(events, n, k, c, h, j);
      }
      MovesMeans(before, e, h, i);
      if e.Steps? && MovesAt(events, n, c, h, e.run) {
        if e.run == i {
          OwnMoveTakes(before, e, h, i);
          assert TakesAt(events, n, h, i);
          forall k: nat, j: nat | k < |events| && j != i && MovesAt(events, k, c, h, j) ensures TakesAfter(events, k, h, i) {
            MovesMeans(before, e, h, j);
          }
        } else {
          assert !TakesAfter(events, n, h, i);
        }
      } else {
        OccupiedBefore(before, e, h, i);
        LastTakerIff(events[..n], before, h, i);
        UndisturbedPrefix(events, before, e, h, i);
      }
    }
  }

  lemma NewRunsStart(w: World, e: Event, h: Handle, i: nat)
    requires Enabled(w, e) && i < |Apply(w, e).runs| && Occupies(h, Apply(w, e).runs[i].pc)
    ensures i < |w.runs|
  {
    hide Step, StoreEnv, TakesTicket;
  }

  lemma OwnMoveTakes(w: World, e: Event, h: Handle, i: nat)
    requires Moves(w, e, h, i) && Occupies(h, Apply(w, e).runs[i].pc)
    ensures Takes(w, e, h, i)
  {
    hide Apply, Enabled, Occupies;
  }

  lemma MovesMeans(w: World, e: Event, h: Handle, j: nat)
    ensures Moves(w, e, h, j) ==> e.Steps? && e.run == j
    ensures Takes(w, e, h, j) ==> Moves(w, e, h, j)
  {
    hide Apply, Enabled, Occupies;
  }

  lemma OccupiedBefore(w: World, e: Event, h: Handle, i: nat)
    requires Enabled(w, e) && RunsHold(w) && i < |w.runs| && i < |Apply(w, e).runs| && Occupies(h, Apply(w, e).runs[i].pc)
    requires !Moves(w, e, h, i)
    ensures Occupies(h, w.runs[i].pc)
  {
    hide Apply, Enabled, Occupies, RunsHold;
    RunKept(w, e, i);
  }

  /** An event that does not move the field leaves the question as it was. */
  lemma UndisturbedPrefix(events: seq<Event>, before: World, e: Event, h: Handle, i: nat)
    requires events != [] && e == events[|events| - 1] && Execute(INITIAL, events[..|events| - 1]) == Some(before)
    requires i < |before.runs|
    requires !(e.Steps? && MovesAt(events, |events| - 1, before.runs[i].conn, h, e.run))
    ensures Undisturbed(events, before.runs[i].conn, h, i) <==>
              Undisturbed(events[..|events| - 1], before.runs[i].conn, h, i)
  {
    hide Moves, Takes, Execute, MovesAt, TakesAt;
    var n, c := |events| - 1, before.runs[i].conn;
    forall j: nat ensures !MovesAt(events, n, c, h, j) {
      MovesAtMeans(events, before, c, h, j);
    }
    MovesAtMeans(events, before, c, h, i);
    forall k: nat | k < n ensures TakesAfter(events[..n], k, h, i) <==> TakesAfter(events, k, h, i) {
      TakesAfterPrefix(events, k, h, i);
    }
    forall k: nat, j: nat | k < n ensures MovesAt(events[..n], k, c, h, j) <==> MovesAt(events, k, c, h, j) {
      PrefixAt(events, n, k, c, h, j);
    }
  }

  lemma MovesAtMeans(events: seq<Event>, before: World, c: nat, h: Handle, j: nat)
    requires events != [] && Execute(INITIAL, events[..|events| - 1]) == Some(before)
    ensures MovesAt(events, |events| - 1, c, h, j) ==> events[|events| - 1].Steps? && events[|events| - 1].run == j
    ensures j < |before.runs| && before.runs[j].conn == c && TakesAt(events, |events| - 1, h, j) ==>
              MovesAt(events, |events| - 1, c, h, j)
  {
    hide Moves, Takes, Execute;
    MovesMeans(before, events[|events| - 1], h, j);
  }

  lemma TakesAfterPrefix(events: seq<Event>, k: nat, h: Handle, i: nat)
    requires events != [] && k < |events| - 1 && !TakesAt(events, |events| - 1, h, i)
    ensures TakesAfter(events[..|events| - 1], k, h, i) <==> TakesAfter(events, k, h, i)
  {
    hide TakesAt;
    var n := |events| - 1;
    if TakesAfter(events[..n], k, h, i) {
      var m: nat :| k < m < n && TakesAt(events[..n], m, h, i);
      PrefixAt(events, n, m, 0, h, i);
      assert TakesAt(events, m, h, i);
    }
    if TakesAfter(events, k, h, i) {
      var m: nat :| k < m < |events| && TakesAt(events, m, h, i);
      PrefixAt(events, n, m, 0, h, i);
      assert TakesAt(events[..n], m, h, i);
    }
  }

  // ---------------------------------------------------------------- when a session finds its handle

  /** Exactly: a run finds its own handle in the shared state when it is between its set and its
      clear and no other run of its connection has taken or left the field since its set. */
  lemma HandleFoundIff(events: seq<Event>, w: World, h: Handle, i: nat)
    requires Reaches(events, w) && i < |w.runs| && w.runs[i].conn < |w.conns|
    ensures Field(w.conns[w.runs[i].conn].shared, h) == Some(i) <==>
              Occupies(h, w.runs[i].pc) && Undisturbed(events, w.runs[i].conn, h, i)
  {
    hide Reaches, Undisturbed, LastTaker;
    FieldIsLastTaker(events, w, w.runs[i].conn, h);
    if Occupies(h, w.runs[i].pc) {
      LastTakerIff(events, w, h, i);
    }
    FieldIsOccupied(events, w, w.runs[i].conn, h);
  }

  lemma FieldIsOccupied(events: seq<Event>, w: World, c: nat, h: Handle)
    requires Reaches(events, w) && c < |w.conns|
    ensures var f := Field(w.conns[c].shared, h);
            f.Some? ==> f.value < |w.runs| && w.runs[f.value].conn == c && Occupies(h, w.runs[f.value].pc)
  {
    hide Reaches;
    SharedHandlesAreLive(events, w, c);
  }

  /** A run that ever moved the field still counts among the openers of the handle. */
  lemma {:induction false} MoverLater(events: seq<Event>, w: World, k: nat, c: nat, h: Handle, j: nat)
    requires Reaches(events, w) && k < |events| && MovesAt(events, k, c, h, j)
    ensures j < |w.runs| && w.runs[j].conn == c && w.runs[j].acquired >= Rank(h)
  {
    hide Reaches, Moves, Takes, Enabled, Apply, RunsHold, Wired, Execute;
    var n := |events| - 1;
    var before, e := LastStep(events, w);
    if k == n {
      MoverExists(before, e, h, j);
      MoverHasOpened(before, e, h, j);
    } else {
      PrefixAt(events, n, k, c, h, j);
      MoverLater(events[..n], before, k, c, h, j);
    }
    RunKept(before, e, j);
  }

  lemma MoverExists(w: World, e: Event, h: Handle, j: nat)
    requires Moves(w, e, h, j)
    ensures Enabled(w, e) && j < |w.runs|
  {
  }

  /** A run that has left the field never moves it again. */
  lemma {:induction false} LeftForGood(first: seq<Event>, rest: seq<Event>, v: World, w: World, h: Handle, j: nat)
    requires Reaches(first, v) && Reaches(first + rest, w)
    requires j < |v.runs| && v.runs[j].pc > LastPlace(h)
    ensures j < |w.runs| && w.runs[j].pc > LastPlace(h)
    ensures forall k: nat, c: nat | |first| <= k < |first + rest| :: !MovesAt(first + rest, k, c, h, j)
  {
    hide Moves, Takes, Enabled, Apply, RunsHold, Wired, MovesAt;
    if rest == [] {
      assert first + rest == first;
    } else {
      hide Execute;
      var n := |rest| - 1;
      var events := first + rest;
      assert events[..|events| - 1] == first + rest[..n];
      var before, e := LastStep(events, w);
      LeftForGood(first, rest[..n], v, before, h, j);
      StaysPast(before, e, h, j);
      NoMovePast(before, e, h, j);
      forall k: nat, c: nat | |first| <= k < |events| ensures !MovesAt(events, k, c, h, j) {
        if k == |events| - 1 {
          MovesAtIs(events, before, c, h, j);
        } else {
          PrefixAt(events, |events| - 1, k, c, h, j);
        }
      }
    }
  }

  lemma NoMovePast(w: World, e: Event, h: Handle, j: nat)
    requires Enabled(w, e) && RunsHold(w) && j < |w.runs| && w.runs[j].pc > LastPlace(h)
    ensures !Moves(w, e, h, j)
  {
    hide RunsHold, Enabled, Apply;
    StaysPast(w, e, h, j);
    PastIsFree(h, w.runs[j].pc);
    PastIsFree(h, Apply(w, e).runs[j].pc);
  }

  lemma PastIsFree(h: Handle, pc: PC)
    ensures pc > LastPlace(h) ==> !Occupies(h, pc)
  {
  }

  lemma MovesAtIs(events: seq<Event>, before: World, c: nat, h: Handle, j: nat)
    requires events != [] && Execute(INITIAL, events[..|events| - 1]) == Some(before)
    ensures MovesAt(events, |events| - 1, c, h, j) ==> Moves(before, events[|events| - 1], h, j)
  {
    hide Moves, Execute;
  }

  /** A run that occupies the field now and did not before has taken it in between. */
  lemma {:induction false} TookInBetween(first: seq<Event>, rest: seq<Event>, v: World, w: World, h: Handle, i: nat)
    requires Reaches(first, v) && Reaches(first + rest, w)
    requires i < |w.runs| && Occupies(h, w.runs[i].pc) && (i < |v.runs| ==> !Occupies(h, v.runs[i].pc))
    ensures TakesAfter(first + rest, |first| - 1, h, i)
  {
    hide Moves, Takes, Enabled, Apply, RunsHold, Wired, TakesAt, Occupies;
    assert rest == [] ==> first + rest == first;
    if rest != [] {
      hide Execute;
      var n := |rest| - 1;
      var events := first + rest;
      assert events[..|events| - 1] == first + rest[..n];
      var before, e := LastStep(events, w);
      NewRunsStart(before, e, h, i);
      if Moves(before, e, h, i) {
        OwnMoveTakes(before, e, h, i);
        TakesAtIs(events, before, h, i);
      } else {
        OccupiedBefore(before, e, h, i);
        TookInBetween(first, rest[..n], v, before, h, i);
        var m: nat :| |first| - 1 < m < |events| - 1 && TakesAt(first + rest[..n], m, h, i);
        PrefixAt(events, |events| - 1, m, 0, h, i);
        assert TakesAt(events, m, h, i);
      }
    }
  }

  lemma TakesAtIs(events: seq<Event>, before: World, h: Handle, i: nat)
    requires events != [] && Execute(INITIAL, events[..|events| - 1]) == Some(before)
    ensures Takes(before, events[|events| - 1], h, i) ==> TakesAt(events, |events| - 1, h, i)
  {
    hide Takes, Execute;
  }

  /** Every other run of connection c had left the field at v, or has not opened the handle by w. */
  ghost predicate Apart(v: World, w: World, c: nat, h: Handle, i: nat) {
    && (i < |v.runs| ==> !Occupies(h, v.runs[i].pc))
    && forall j | 0 <= j < |w.runs| && j != i && w.runs[j].conn == c ::
         w.runs[j].acquired < Rank(h) || (j < |v.runs| && v.runs[j].pc > LastPlace(h))
  }

  /** Sessions that do not overlap always find their own handles: the other sessions of the connection
      had left the field at some moment before this one took it, or have not opened the handle. */
  lemma SequentialSessionsFindTheirHandles(first: seq<Event>, rest: seq<Event>, v: World, w: World, h: Handle, i: nat)
    requires Reaches(first, v) && Reaches(first + rest, w) && i < |w.runs| && w.runs[i].conn < |w.conns|
    requires Apart(v, w, w.runs[i].conn, h, i)
    ensures Field(w.conns[w.runs[i].conn].shared, h) == Some(i) <==> Occupies(h, w.runs[i].pc)
  {
    hide Reaches, Occupies, Moves, MovesAt, TakesAt, Rank, LastPlace;
    var events, c := first + rest, w.runs[i].conn;
    HandleFoundIff(events, w, h, i);
    if Occupies(h, w.runs[i].pc) {
      TookInBetween(first, rest, v, w, h, i);
      forall k: nat, j: nat | k < |events| && j != i && MovesAt(events, k, c, h, j) ensures TakesAfter(events, k, h, i) {
        MoverLater(events, w, k, c, h, j);
        LeftForGood(first, rest, v, w, h, j);
      }
    }
  }

  /** In particular the only session of a connection always finds its handles. */
  lemma OnlySessionFindsItsHandles(events: seq<Event>, w: World, h: Handle, i: nat)
    requires Reaches(events, w) && i < |w.runs| && w.runs[i].conn < |w.conns|
    requires forall j | 0 <= j < |w.runs| && j != i && w.runs[j].conn == w.runs[i].conn :: w.runs[j].acquired < Rank(h)
    ensures Field(w.conns[w.runs[i].conn].shared, h) == Some(i) <==> Occupies(h, w.runs[i].pc)
  {
    hide Occupies, Rank, Enabled, Apply;
    assert [] + events == events;
    SequentialSessionsFindTheirHandles([], events, INITIAL, w, h, i);
  }

  // ---------------------------------------------------------------- whose recorder a copy loop holds

  /** A run keeps its connection, what its copy loops captured, and the handles it opened. */
  lemma {:induction false} RunStays(first: seq<Event>, rest: seq<Event>, v: World, w: World, j: nat)
    requires Reaches(first, v) && Reaches(first + rest, w) && j < |v.runs|
    ensures j < |w.runs| && w.runs[j].conn == v.runs[j].conn && KeepsCaptures(v.runs[j], w.runs[j])
    ensures v.runs[j].acquired <= w.runs[j].acquired
  {
    hide Enabled, Apply, RunsHold, Wired;
    if rest == [] {
      assert first + rest == first;
    } else {
      hide Execute;
      var n := |rest| - 1;
      var events := first + rest;
      assert events[..|events| - 1] == first + rest[..n];
      var before, e := LastStep(events, w);
      RunStays(first, rest[..n], v, before, j);
      RunKept(before, e, j);
    }
  }

  lemma CapturesNow(w: World, i: nat, lane: Lane)
    requires Enabled(w, Captures(i, lane))
    ensures var v := Apply(w, Captures(i, lane));
            && i < |w.runs| && w.runs[i].launched && w.runs[i].conn < |w.conns|
            && i < |v.runs| && lane in v.runs[i].captured && v.runs[i].conn == w.runs[i].conn
            && v.runs[i].captured[lane] == Field(w.conns[w.runs[i].conn].shared, Recorder)
  {
  }

  /** A copy loop has what the recorder field was at the capture. */
  lemma CapturedIsField(before: seq<Event>, after: seq<Event>, u: World, w: World, i: nat, lane: Lane)
    requires Reaches(before, u) && Reaches(before + [Captures(i, lane)] + after, w)
    ensures i < |u.runs| && i < |w.runs| && lane in w.runs[i].captured && u.runs[i].conn < |u.conns|
    ensures w.runs[i].conn == u.runs[i].conn
    ensures w.runs[i].captured[lane] == Field(u.conns[u.runs[i].conn].shared, Recorder)
    ensures Occupies(Recorder, u.runs[i].pc) <==> u.runs[i].pc <= CLEAR_RECORDER
    ensures u.runs[i].acquired == 3
  {
    hide Reaches, Enabled, Apply, PlaceFits, GateHolds, Wired, FlagsHaveEvidence, HandlesHold, MetricsHold,
         ChansHold, RoutesHold, TicketsHold, CapturesHold, HasPutRecorder;
    var now := CaptureEnabled(before, after, u, w, i, lane);
    CapturesNow(u, i, lane);
    RunStays(before + [Captures(i, lane)], after, now, w, i);
    InvariantAlways(before, u);
    assert RunHolds(u, i);
    LaunchedPlace(u.runs[i], u.conns[u.runs[i].conn].cfg);
    RecorderPlace(u.runs[i].pc);
  }

  /** Exactly: the recorder that a copy loop captured is the run's own when, at the capture, the run
      had not cleared it and no other run of its connection had set or cleared the field since the
      run set it. */
  lemma CaptureIsOwnIff(before: seq<Event>, after: seq<Event>, u: World, w: World, i: nat, lane: Lane)
    requires Reaches(before, u) && Reaches(before + [Captures(i, lane)] + after, w)
    ensures i < |u.runs| && i < |w.runs| && lane in w.runs[i].captured
    ensures w.runs[i].captured[lane] == Some(i) <==>
              u.runs[i].pc <= CLEAR_RECORDER && Undisturbed(before, u.runs[i].conn, Recorder, i)
  {
    hide Reaches, Undisturbed, Occupies;
    CapturedIsField(before, after, u, w, i, lane);
    HandleFoundIff(before, u, Recorder, i);
  }

  lemma RecorderPlace(pc: PC)
    ensures pc > CLEAR_RECORDER ==> !HasPutRecorder(pc)
  {
  }

  lemma CaptureEnabled(before: seq<Event>, after: seq<Event>, u: World, w: World, i: nat, lane: Lane) returns (now: World)
    requires Reaches(before, u) && Reaches(before + [Captures(i, lane)] + after, w)
    ensures Enabled(u, Captures(i, lane)) && now == Apply(u, Captures(i, lane))
    ensures Reaches(before + [Captures(i, lane)], now)
  {
    hide Enabled, Apply;
    ExecuteConcat(INITIAL, before + [Captures(i, lane)], after);
    assert (before + [Captures(i, lane)])[..|before|] == before;
    now := Execute(INITIAL, before + [Captures(i, lane)]).value;
  }

  /** What is captured was captured by some event. */
  lemma {:induction false} CapturedAt(events: seq<Event>, w: World, i: nat, lane: Lane) returns (before: seq<Event>, after: seq<Event>)
    requires Reaches(events, w) && i < |w.runs| && lane in w.runs[i].captured
    ensures events == before + [Captures(i, lane)] + after
  {
    hide Reaches, Enabled, Apply, RunsHold, Wired;
    if events == [] {
      NothingYet(w);
      assert false;
    } else {
      var n := |events| - 1;
      var u, e := LastStep(events, w);
      if e == Captures(i, lane) {
        before, after := events[..n], [];
        assert before + [Captures(i, lane)] + after == events;
      } else {
        CapturedBefore(u, e, i, lane);
        before, after := CapturedAt(events[..n], u, i, lane);
        assert events == events[..n] + [events[n]];
        after := after + [events[n]];
      }
    }
  }

  lemma CapturedBefore(w: World, e: Event, i: nat, lane: Lane)
    requires Enabled(w, e) && RunsHold(w) && e != Captures(i, lane)
    requires i < |Apply(w, e).runs| && lane in Apply(w, e).runs[i].captured
    ensures i < |w.runs| && lane in w.runs[i].captured
  {
    hide Step, PlaceFits, GateHolds, HandleOrder, StoreEnv, RunsHold, TakesTicket, HasPutClient, HasPutSession, HasPutRecorder;
    if e.Steps? {
      RunStepHandles(w, e.run, e.choice);
    }
  }

  lemma CapturerHasOpened(before: seq<Event>, after: seq<Event>, v: World, i: nat, lane: Lane)
    requires Reaches(before + [Captures(i, lane)] + after, v)
    ensures i < |v.runs| && v.runs[i].acquired > 0
  {
    hide Enabled, Apply, Occupies;
    ExecuteConcat(INITIAL, before, [Captures(i, lane)] + after);
    assert before + ([Captures(i, lane)] + after) == before + [Captures(i, lane)] + after;
    var u := Execute(INITIAL, before).value;
    CapturedIsField(before, after, u, v, i, lane);
    RunStays(before, [Captures(i, lane)] + after, u, v, i);
  }

  lemma CaptureBetween(first: seq<Event>, mid: seq<Event>, after: seq<Event>, v: World, w: World, i: nat, lane: Lane)
    requires Reaches(first, v) && Reaches(first + mid + [Captures(i, lane)] + after, w)
    requires i < |w.runs| && lane in w.runs[i].captured && Apart(v, w, w.runs[i].conn, Recorder, i)
    ensures w.runs[i].captured[lane] == Some(i) || (w.runs[i].captured[lane] == None && w.runs[i].pc > CLEAR_RECORDER)
  {
    hide Enabled, Apply, Occupies, Apart, RunsHold, Wired, FlagsHaveEvidence, HandlesHold, MetricsHold, ChansHold,
         RoutesHold, TicketsHold, CapturesHold;
    var tail := [Captures(i, lane)] + after;
    assert first + mid + tail == first + mid + [Captures(i, lane)] + after;
    ExecuteConcat(INITIAL, first + mid, tail);
    var u := Execute(INITIAL, first + mid).value;
    hide Execute;
    CapturedIsField(first + mid, after, u, w, i, lane);
    var c := w.runs[i].conn;
    ApartBefore(first, mid, tail, v, u, w, c, Recorder, i);
    SequentialSessionsFindTheirHandles(first, mid, v, u, Recorder, i);
    if u.runs[i].pc > CLEAR_RECORDER {
      LeftForGood(first + mid, tail, u, w, Recorder, i);
      FieldIsOccupied(first + mid, u, c, Recorder);
      var got := Field(u.conns[c].shared, Recorder);
      if got.Some? && got != Some(i) {
        OthersAreOut(first, mid, v, u, c, Recorder, i, got.value);
        assert false;
      }
    }
  }

  lemma ApartBefore(first: seq<Event>, mid: seq<Event>, tail: seq<Event>, v: World, u: World, w: World, c: nat, h: Handle, i: nat)
    requires Reaches(first, v) && Reaches(first + mid, u) && Reaches(first + mid + tail, w) && Apart(v, w, c, h, i)
    ensures Apart(v, u, c, h, i)
  {
    hide Reaches, Occupies, Rank, LastPlace;
    forall j | 0 <= j < |u.runs| && j != i && u.runs[j].conn == c
      ensures u.runs[j].acquired < Rank(h) || (j < |v.runs| && v.runs[j].pc > LastPlace(h))
    {
      RunStays(first + mid, tail, u, w, j);
    }
  }

  lemma OthersAreOut(first: seq<Event>, mid: seq<Event>, v: World, u: World, c: nat, h: Handle, i: nat, j: nat)
    requires Reaches(first, v) && Reaches(first + mid, u) && Apart(v, u, c, h, i)
    requires j < |u.runs| && j != i && u.runs[j].conn == c
    ensures !Occupies(h, u.runs[j].pc)
  {
    hide Reaches, PlaceFits, GateHolds, Wired, FlagsHaveEvidence, HandlesHold, MetricsHold, ChansHold, RoutesHold, TicketsHold,
         CapturesHold, HandleOrder, Rank, LastPlace, Occupies;
    InvariantAlways(first + mid, u);
    assert RunHolds(u, j);
    if j < |v.runs| && v.runs[j].pc > LastPlace(h) {
      LeftForGood(first, mid, v, u, h, j);
      PastIsFree(h, u.runs[j].pc);
    } else {
      OccupantHasOpened(u.runs[j], u.conns[c].cfg, h);
    }
  }

  lemma OccupantHasOpened(r: Run, cfg: Settings, h: Handle)
    requires PlaceFits(r, cfg)
    ensures Occupies(h, r.pc) ==> r.acquired >= Rank(h)
  {
    hide ConfirmationFits, OutcomeFits, CodeFits, DirectFits, DialFits;
    PlaceOpened(r);
  }

  /** The copy loops of sessions that do not overlap record into their own session's file, or into
      none when they started only after the session had cleared its recorder. */
  lemma SequentialSessionsRecordThemselves(first: seq<Event>, rest: seq<Event>, v: World, w: World, i: nat, lane: Lane)
    requires Reaches(first, v) && Reaches(first + rest, w) && i < |w.runs| && lane in w.runs[i].captured
    requires i < |v.runs| ==> v.runs[i].acquired == 0
    requires Apart(v, w, w.runs[i].conn, Recorder, i)
    ensures w.runs[i].captured[lane] == Some(i) || (w.runs[i].captured[lane] == None && w.runs[i].pc > CLEAR_RECORDER)
  {
    hide Reaches, Apart, Undisturbed, Enabled, Apply;
    var before, after := CapturedAt(first + rest, w, i, lane);
    Overlap(first, rest, before, Captures(i, lane), after);
    if |before| < |first| {
      CapturerHasOpened(before, first[|before| + 1..], v, i, lane);
      assert false;
    } else {
      CaptureBetween(first, before[|first|..], after, v, w, i, lane);
    }
  }

  lemma Overlap<T>(a: seq<T>, b: seq<T>, before: seq<T>, x: T, after: seq<T>)
    requires a + b == before + [x] + after
    ensures |before| < |a| ==> a == before + [x] + a[|before| + 1..]
    ensures |before| >= |a| ==> before == a + before[|a|..]
  {
    assert forall k | 0 <= k < |a| :: a[k] == (a + b)[k];
    assert forall k | 0 <= k < |before| :: before[k] == (before + [x] + after)[k];
    assert (before + [x] + after)[|before|] == x;
  }

  /** In particular the only session of a connection that opened a recorder records into it. */
  lemma OnlySessionRecordsItself(events: seq<Event>, w: World, i: nat, lane: Lane)
    requires Reaches(events, w) && i < |w.runs| && lane in w.runs[i].captured
    requires forall j | 0 <= j < |w.runs| && j != i && w.runs[j].conn == w.runs[i].conn :: w.runs[j].acquired < 3
    ensures w.runs[i].captured[lane] == Some(i) || (w.runs[i].captured[lane] == None && w.runs[i].pc > CLEAR_RECORDER)
  {
    hide Occupies, Enabled, Apply;
    assert [] + events == events;
    SequentialSessionsRecordThemselves([], events, INITIAL, w, i, lane);
  }
}
