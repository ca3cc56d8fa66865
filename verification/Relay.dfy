/** The relay loops of BidiProxy and of the server's copy helpers, running side by side and sharing one
    recorder that its owner may close at any time. */
module Relay {
  import opened Text
  import opened Wire
  import opened Recorder

  const BUFFER_SIZE := 32768

  // ---------------------------------------------------------------- one loop

  /** BidiProxy records a chunk before it forwards it and ignores the recorder's errors; the server's
      io.Copy into a MultiWriter forwards first and stops on a recorder error. */
  datatype Policy = Policy(direction: Direction, recordsFirst: bool, stopsOnError: bool)

  /** How a read ended, besides the bytes it gave. */
  datatype ReadEnd = More | Eof | ReadError

  datatype Place = Reading | First | Second | Ended(failed: bool)

  /** One loop: the bytes read so far, those forwarded, and the chunk in the buffer. */
  datatype Lane = Lane(policy: Policy, place: Place, taken: bytes, forwarded: bytes, chunk: bytes, last: ReadEnd)

  function NewLane(p: Policy): Lane { Lane(p, Reading, [], [], [], More) }

  predicate IsRecording(l: Lane) { l.place == if l.policy.recordsFirst then First else Second }

  predicate IsForwarding(l: Lane) { l.place == if l.policy.recordsFirst then Second else First }

  /** After a chunk, or a read without one, the loop goes on unless the read had ended. */
  function Next(l: Lane): Lane {
    l.(place := match l.last case More => Reading case Eof => Ended(false) case ReadError => Ended(true))
  }

  function Advance(l: Lane): Lane { if l.place == First then l.(place := Second) else Next(l) }

  function AfterRead(l: Lane, chunk: bytes, end: ReadEnd): Lane {
    var r := l.(taken := l.taken + chunk, chunk := chunk, last := end);
    if chunk == [] then Next(r) else r.(place := First)
  }

  function AfterForward(l: Lane, n: nat, ok: bool): Lane
    requires n <= |l.chunk|
  {
    var f := l.(forwarded := l.forwarded + l.chunk[..n]);
    if ok then Advance(f) else f.(place := Ended(true))
  }

  function AfterRecord(l: Lane, ok: bool): Lane {
    if !ok && l.policy.stopsOnError then l.(place := Ended(true)) else Advance(l)
  }

  // ---------------------------------------------------------------- all loops and the recorder

  /** A call on the recorder and the loop that made it. */
  datatype Tagged = Tagged(lane: Option<nat>, call: Call)

  datatype World = World(lanes: seq<Lane>, history: seq<Tagged>)

  datatype Event =
    | Reads(lane: nat, chunk: bytes, end: ReadEnd)
    | Forwards(lane: nat, n: nat, ok: bool)
    | Records(lane: nat, clock: int, first: bool, second: bool)
    | ClosesRecorder(first: bool)

  function Calls(history: seq<Tagged>): (calls: seq<Call>)
    ensures |calls| == |history| && forall k | 0 <= k < |history| :: calls[k] == history[k].call
  {
    seq(|history|, k requires 0 <= k < |history| => history[k].call)
  }

  predicate RecorderOpen(history: seq<Tagged>) { !IsClosed(Calls(history)) }

  /** An io.Writer reports an error unless it took the whole chunk. */
  predicate Enabled(w: World, e: Event) {
    match e
    case Reads(i, chunk, _) => i < |w.lanes| && w.lanes[i].place == Reading && |chunk| <= BUFFER_SIZE
    case Forwards(i, n, ok) =>
      i < |w.lanes| && IsForwarding(w.lanes[i]) && n <= |w.lanes[i].chunk| && (ok ==> n == |w.lanes[i].chunk|)
    case Records(i, _, _, _) => i < |w.lanes| && IsRecording(w.lanes[i])
    case ClosesRecorder(_) => true
  }

  /** The recorder call a Records event makes. */
  function CallOf(l: Lane, e: Event): Call
    requires e.Records?
  {
    Call.Write(l.policy.direction, l.chunk, e.clock, e.first, e.second)
  }

  /** A recorder error reaches the loop only from an open recorder. */
  predicate RecordOk(format: Format, history: seq<Tagged>, c: Call) { RecorderOpen(history) ==> Succeeds(format, c) }

  function Apply(format: Format, w: World, e: Event): World
    requires Enabled(w, e)
  {
    match e
    case Reads(i, chunk, end) => w.(lanes := w.lanes[i := AfterRead(w.lanes[i], chunk, end)])
    case Forwards(i, n, ok) => w.(lanes := w.lanes[i := AfterForward(w.lanes[i], n, ok)])
    case Records(i, _, _, _) =>
      var c := CallOf(w.lanes[i], e);
      World(w.lanes[i := AfterRecord(w.lanes[i], RecordOk(format, w.history, c))], w.history + [Tagged(Some(i), c)])
    case ClosesRecorder(first) => w.(history := w.history + [Tagged(None, Call.Close(first))])
  }

  function Execute(format: Format, policies: seq<Policy>, events: seq<Event>): Option<World> {
    if events == [] then Some(World(seq(|policies|, i requires 0 <= i < |policies| => NewLane(policies[i])), []))
    else
      match Execute(format, policies, events[..|events| - 1])
      case None => None
      case Some(before) =>
        var e := events[|events| - 1];
        if Enabled(before, e) then Some(Apply(format, before, e)) else None
  }

  // ---------------------------------------------------------------- what a loop has forwarded

  /** A loop forwards what it reads, in order, and is at most the current chunk behind; it ends
      without error only at the end of the stream with everything forwarded. */
  predicate Flows(l: Lane) {
    && |l.chunk| <= BUFFER_SIZE
    && match l.place
       case Reading => l.forwarded == l.taken
       case First => l.taken == l.forwarded + l.chunk
       case Second => if l.policy.recordsFirst then l.taken == l.forwarded + l.chunk else l.forwarded == l.taken
       case Ended(failed) =>
         && l.forwarded <= l.taken && |l.taken| <= |l.forwarded| + |l.chunk|
         && (!failed ==> l.forwarded == l.taken && l.last == Eof)
  }

  lemma ReadFlows(l: Lane, chunk: bytes, end: ReadEnd)
    requires Flows(l) && l.place == Reading && |chunk| <= BUFFER_SIZE
    ensures Flows(AfterRead(l, chunk, end))
  {
  }

  lemma ForwardFlows(l: Lane, n: nat, ok: bool)
    requires Flows(l) && IsForwarding(l) && n <= |l.chunk| && (ok ==> n == |l.chunk|)
    ensures Flows(AfterForward(l, n, ok))
  {
    assert l.chunk == l.chunk[..n] + l.chunk[n..];
    assert l.forwarded + l.chunk == l.forwarded + l.chunk[..n] + l.chunk[n..];
  }

  lemma RecordFlows(l: Lane, ok: bool)
    requires Flows(l) && IsRecording(l)
    ensures Flows(AfterRecord(l, ok))
  {
  }

  lemma FlowsStep(format: Format, w: World, e: Event)
    requires Enabled(w, e) && forall i | 0 <= i < |w.lanes| :: Flows(w.lanes[i])
    ensures forall i | 0 <= i < |Apply(format, w, e).lanes| :: Flows(Apply(format, w, e).lanes[i])
  {
    hide Flows, IsForwarding, IsRecording, AfterRead, AfterForward, AfterRecord, RecordOk;
    match e
    case Reads(i, chunk, end) => ReadFlows(w.lanes[i], chunk, end);
    case Forwards(i, n, ok) => ForwardFlows(w.lanes[i], n, ok);
    case Records(i, _, _, _) => RecordFlows(w.lanes[i], RecordOk(format, w.history, CallOf(w.lanes[i], e)));
    case ClosesRecorder(_) =>
  }

  // ---------------------------------------------------------------- what the recorder has of a loop

  function Flat(chunks: seq<bytes>): bytes {
    if chunks == [] then [] else Flat(chunks[..|chunks| - 1]) + chunks[|chunks| - 1]
  }

  lemma FlatAppend(chunks: seq<bytes>, c: bytes)
    ensures Flat(chunks + [c]) == Flat(chunks) + c
  {
    assert (chunks + [c])[..|chunks|] == chunks;
  }

  /** The chunks of loop i that were recorded in full, in the order of the file. */
  function Recorded(format: Format, history: seq<Tagged>, i: nat): seq<bytes> {
    if history == [] then []
    else
      var before, t := history[..|history| - 1], history[|history| - 1];
      Recorded(format, before, i)
      + if t.lane == Some(i) && t.call.Write? && RecorderOpen(before) && Succeeds(format, t.call) then [t.call.data] else []
  }

  lemma RecordedAppend(format: Format, history: seq<Tagged>, t: Tagged, i: nat)
    ensures Recorded(format, history + [t], i) ==
              Recorded(format, history, i)
              + if t.lane == Some(i) && t.call.Write? && RecorderOpen(history) && Succeeds(format, t.call) then [t.call.data] else []
  {
    hide IsClosed;
    assert (history + [t])[..|history|] == history;
  }

  /** All the chunks loop i handed to the recorder, and which of them were recorded in full. */
  function Offered(history: seq<Tagged>, i: nat): seq<bytes> {
    if history == [] then []
    else
      var t := history[|history| - 1];
      Offered(history[..|history| - 1], i) + if t.lane == Some(i) && t.call.Write? then [t.call.data] else []
  }

  function Outcomes(format: Format, history: seq<Tagged>, i: nat): seq<bool> {
    if history == [] then []
    else
      var before, t := history[..|history| - 1], history[|history| - 1];
      Outcomes(format, before, i)
      + if t.lane == Some(i) && t.call.Write? then [RecorderOpen(before) && Succeeds(format, t.call)] else []
  }

  lemma OfferedAppend(history: seq<Tagged>, t: Tagged, i: nat)
    ensures Offered(history + [t], i) == Offered(history, i) + if t.lane == Some(i) && t.call.Write? then [t.call.data] else []
  {
    assert (history + [t])[..|history|] == history;
  }

  lemma OutcomesAppend(format: Format, history: seq<Tagged>, t: Tagged, i: nat)
    ensures Outcomes(format, history + [t], i) ==
              Outcomes(format, history, i)
              + if t.lane == Some(i) && t.call.Write? then [RecorderOpen(history) && Succeeds(format, t.call)] else []
  {
    hide IsClosed;
    assert (history + [t])[..|history|] == history;
  }

  lemma OpenAppend(history: seq<Tagged>, t: Tagged)
    ensures RecorderOpen(history + [t]) <==> RecorderOpen(history) && t.call.Write?
  {
    hide IsClosed;
    assert Calls(history + [t]) == Calls(history) + [t.call];
    BeforeCloseGrows(Calls(history), t.call);
  }

  /** The recorder is open and has taken everything it was given. */
  predicate Healthy(format: Format, history: seq<Tagged>) {
    forall k | 0 <= k < |history| :: history[k].call.Write? && Succeeds(format, history[k].call)
  }

  lemma HealthyAppend(format: Format, history: seq<Tagged>, t: Tagged)
    ensures Healthy(format, history + [t]) <==> Healthy(format, history) && t.call.Write? && Succeeds(format, t.call)
  {
    assert forall k | 0 <= k < |history| :: (history + [t])[k] == history[k];
    assert (history + [t])[|history|] == t;
  }

  lemma {:induction false} HealthyIsOpen(format: Format, history: seq<Tagged>)
    requires Healthy(format, history)
    ensures RecorderOpen(history)
  {
    hide IsClosed, Succeeds;
    if history == [] {
      NothingIsClosed();
      assert Calls(history) == [];
    } else {
      var n := |history| - 1;
      assert history[..n] + [history[n]] == history;
      HealthyAppend(format, history[..n], history[n]);
      HealthyIsOpen(format, history[..n]);
      OpenAppend(history[..n], history[n]);
    }
  }

  lemma NothingIsClosed()
    ensures !IsClosed([])
  {
  }

  /** Recording first: the recorder was handed everything read, but for the chunk about to be. */
  predicate OffersAhead(l: Lane, offered: bytes) {
    if l.place == First then l.taken == offered + l.chunk else offered == l.taken
  }

  /** Forwarding first and stopping on errors: the recording is a prefix of what was forwarded, and
      while the recorder is open it is at most the current chunk behind. */
  predicate RecordsBehind(l: Lane, recorded: bytes, open: bool) {
    && recorded <= l.forwarded
    && (open ==>
          match l.place
          case Reading => recorded == l.forwarded
          case First => recorded == l.forwarded
          case Second => l.forwarded == recorded + l.chunk
          case Ended(_) => l.forwarded <= recorded + l.chunk)
  }

  /** A history changes for one loop only. */
  predicate Tracks(format: Format, w: World, i: nat)
    requires i < |w.lanes|
  {
    var l := w.lanes[i];
    var recorded := Flat(Recorded(format, w.history, i));
    && (l.policy.recordsFirst ==> OffersAhead(l, Flat(Offered(w.history, i))))
    && (!l.policy.recordsFirst && l.policy.stopsOnError ==> RecordsBehind(l, recorded, RecorderOpen(w.history)))
  }

  lemma ReadTracks(l: Lane, chunk: bytes, end: ReadEnd, recorded: bytes, open: bool)
    requires Flows(l) && l.place == Reading
    ensures OffersAhead(l, recorded) ==> OffersAhead(AfterRead(l, chunk, end), recorded)
    ensures RecordsBehind(l, recorded, open) ==> RecordsBehind(AfterRead(l, chunk, end), recorded, open)
  {
  }

  lemma ForwardTracks(l: Lane, n: nat, ok: bool, recorded: bytes, open: bool)
    requires Flows(l) && IsForwarding(l) && n <= |l.chunk| && (ok ==> n == |l.chunk|)
    ensures l.policy.recordsFirst && OffersAhead(l, recorded) ==> OffersAhead(AfterForward(l, n, ok), recorded)
    ensures !l.policy.recordsFirst && RecordsBehind(l, recorded, open) ==> RecordsBehind(AfterForward(l, n, ok), recorded, open)
  {
    assert l.chunk == l.chunk[..n] + l.chunk[n..];
  }

  lemma RecordTracks(l: Lane, offered: bytes, recorded: bytes, open: bool, succeeds: bool)
    requires Flows(l) && IsRecording(l)
    ensures var m := AfterRecord(l, open ==> succeeds);
            && (l.policy.recordsFirst && OffersAhead(l, offered) ==> OffersAhead(m, offered + l.chunk))
            && (!l.policy.recordsFirst && l.policy.stopsOnError && RecordsBehind(l, recorded, open) ==>
                  RecordsBehind(m, recorded + if open && succeeds then l.chunk else [], open))
  {
    assert recorded + [] == recorded;
  }

  lemma ClosingTracks(l: Lane, recorded: bytes, open: bool)
    requires RecordsBehind(l, recorded, open)
    ensures RecordsBehind(l, recorded, false)
  {
  }

  /** One event leaves every loop's record in step. */
  lemma TracksOwnRecord(format: Format, w: World, e: Event)
    requires Enabled(w, e) && e.Records? && Flows(w.lanes[e.lane]) && Tracks(format, w, e.lane)
    ensures Tracks(format, Apply(format, w, e), e.lane)
  {
    hide IsClosed, Flows, IsRecording, AfterRecord, OffersAhead, RecordsBehind, Recorded, Offered, Flat, RecorderOpen, Succeeds;
    var l := w.lanes[e.lane];
    var c := CallOf(l, e);
    var t := Tagged(Some(e.lane), c);
    RecordedAppend(format, w.history, t, e.lane);
    OfferedAppend(w.history, t, e.lane);
    OpenAppend(w.history, t);
    var offered, chunks := Offered(w.history, e.lane), Recorded(format, w.history, e.lane);
    FlatAppend(offered, l.chunk);
    FlatAppend(chunks, l.chunk);
    assert chunks + [] == chunks && Flat(chunks) + [] == Flat(chunks);
    RecordTracks(l, Flat(offered), Flat(chunks), RecorderOpen(w.history), Succeeds(format, c));
    KeepsPolicy(l, RecordOk(format, w.history, c));
  }

  lemma KeepsPolicy(l: Lane, ok: bool)
    ensures AfterRecord(l, ok).policy == l.policy
  {
  }

  lemma TracksOther(format: Format, w: World, v: World, t: Tagged, i: nat)
    requires i < |w.lanes| && i < |v.lanes| && Tracks(format, w, i)
    requires v.lanes[i] == w.lanes[i] && v.history == w.history + [t] && t.lane != Some(i)
    ensures Tracks(format, v, i)
  {
    hide IsClosed, OffersAhead, RecordsBehind, Recorded, Offered, Flat, RecorderOpen, Succeeds;
    RecordedAppend(format, w.history, t, i);
    OfferedAppend(w.history, t, i);
    OpenAppend(w.history, t);
    var offered, chunks := Offered(w.history, i), Recorded(format, w.history, i);
    assert offered + [] == offered && chunks + [] == chunks;
    var l := w.lanes[i];
    if RecordsBehind(l, Flat(chunks), RecorderOpen(w.history)) {
      ClosingTracks(l, Flat(chunks), RecorderOpen(w.history));
    }
  }

  lemma TracksRead(format: Format, w: World, e: Event)
    requires Enabled(w, e) && e.Reads? && Flows(w.lanes[e.lane]) && Tracks(format, w, e.lane)
    ensures Tracks(format, Apply(format, w, e), e.lane)
  {
    hide IsClosed, Flows, OffersAhead, RecordsBehind, Recorded, Offered, Flat, RecorderOpen;
    ReadTracks(w.lanes[e.lane], e.chunk, e.end, Flat(Offered(w.history, e.lane)), true);
    ReadTracks(w.lanes[e.lane], e.chunk, e.end, Flat(Recorded(format, w.history, e.lane)), RecorderOpen(w.history));
  }

  lemma TracksForward(format: Format, w: World, e: Event)
    requires Enabled(w, e) && e.Forwards? && Flows(w.lanes[e.lane]) && Tracks(format, w, e.lane)
    ensures Tracks(format, Apply(format, w, e), e.lane)
  {
    hide IsClosed, Flows, IsForwarding, OffersAhead, RecordsBehind, Recorded, Offered, Flat, RecorderOpen;
    ForwardTracks(w.lanes[e.lane], e.n, e.ok, Flat(Offered(w.history, e.lane)), true);
    ForwardTracks(w.lanes[e.lane], e.n, e.ok, Flat(Recorded(format, w.history, e.lane)), RecorderOpen(w.history));
  }

  lemma TracksStep(format: Format, w: World, e: Event, i: nat)
    requires Enabled(w, e) && i < |w.lanes| && Flows(w.lanes[i]) && Tracks(format, w, i)
    ensures i < |Apply(format, w, e).lanes| && Tracks(format, Apply(format, w, e), i)
  {
    hide Tracks, Flows, IsForwarding, IsRecording, AfterRead, AfterForward, AfterRecord, RecordOk;
    var v := Apply(format, w, e);
    match e
    case Reads(j, _, _) => if i == j { TracksRead(format, w, e); } else { SameTracks(format, w, v, i); }
    case Forwards(j, _, _) => if i == j { TracksForward(format, w, e); } else { SameTracks(format, w, v, i); }
    case Records(j, _, _, _) =>
      if i == j {
        TracksOwnRecord(format, w, e);
      } else {
        TracksOther(format, w, v, Tagged(Some(j), CallOf(w.lanes[j], e)), i);
      }
    case ClosesRecorder(first) => TracksOther(format, w, v, Tagged(None, Call.Close(first)), i);
  }

  lemma SameTracks(format: Format, w: World, v: World, i: nat)
    requires i < |w.lanes| && i < |v.lanes| && Tracks(format, w, i)
    requires v.lanes[i] == w.lanes[i] && v.history == w.history
    ensures Tracks(format, v, i)
  {
  }

  // ---------------------------------------------------------------- every run

  /** What every reachable world keeps. */
  predicate Invariant(format: Format, policies: seq<Policy>, w: World) {
    && |w.lanes| == |policies|
    && (forall i | 0 <= i < |w.lanes| :: w.lanes[i].policy == policies[i])
    && (forall i | 0 <= i < |w.lanes| :: Flows(w.lanes[i]))
    && (forall i | 0 <= i < |w.lanes| :: Tracks(format, w, i))
    && (forall k | 0 <= k < |w.history| :: TaggedWell(policies, w.history[k]))
  }

  /** A recorder call carries the direction of the loop that made it. */
  predicate TaggedWell(policies: seq<Policy>, t: Tagged) {
    t.call.Write? ==> t.lane.Some? && t.lane.value < |policies| && t.call.direction == policies[t.lane.value].direction
  }

  lemma PoliciesStay(format: Format, policies: seq<Policy>, w: World, e: Event)
    requires Enabled(w, e) && |w.lanes| == |policies| && forall i | 0 <= i < |w.lanes| :: w.lanes[i].policy == policies[i]
    requires forall k | 0 <= k < |w.history| :: TaggedWell(policies, w.history[k])
    ensures var v := Apply(format, w, e);
            && |v.lanes| == |policies|
            && (forall i | 0 <= i < |v.lanes| :: v.lanes[i].policy == policies[i])
            && (forall k | 0 <= k < |v.history| :: TaggedWell(policies, v.history[k]))
  {
    hide RecordOk, IsForwarding, IsRecording;
  }

  lemma {:induction false} InvariantAlways(format: Format, policies: seq<Policy>, events: seq<Event>, w: World)
    requires Execute(format, policies, events) == Some(w)
    ensures Invariant(format, policies, w)
  {
    hide Enabled, Apply, Flows, Tracks, TaggedWell;
    if events == [] {
      forall i | 0 <= i < |w.lanes| ensures Flows(w.lanes[i]) && Tracks(format, w, i) {
        StartsTracked(format, w, i);
      }
    } else {
      var n := |events| - 1;
      var before := Execute(format, policies, events[..n]).value;
      InvariantAlways(format, policies, events[..n], before);
      PoliciesStay(format, policies, before, events[n]);
      FlowsStep(format, before, events[n]);
      forall i | 0 <= i < |w.lanes| ensures Tracks(format, w, i) {
        TracksStep(format, before, events[n], i);
      }
    }
  }

  lemma StartsTracked(format: Format, w: World, i: nat)
    requires i < |w.lanes| && w.lanes[i] == NewLane(w.lanes[i].policy) && w.history == []
    ensures Flows(w.lanes[i]) && Tracks(format, w, i)
  {
  }

  // ---------------------------------------------------------------- why a loop ends

  /** Event e makes loop i fail: a read error, a write the other side did not take, or, for a loop that
      stops on them, an error of the open recorder. */
  predicate FailsNow(format: Format, w: World, e: Event, i: nat) {
    match e
    case Reads(j, _, end) => j == i && end == ReadError
    case Forwards(j, _, ok) => j == i && !ok
    case Records(j, _, _, _) =>
      j == i && i < |w.lanes| && w.lanes[i].policy.stopsOnError && !RecordOk(format, w.history, CallOf(w.lanes[i], e))
    case ClosesRecorder(_) => false
  }

  function FailsSoFar(format: Format, policies: seq<Policy>, events: seq<Event>, i: nat): bool {
    if events == [] then false
    else
      var n := |events| - 1;
      FailsSoFar(format, policies, events[..n], i)
      || match Execute(format, policies, events[..n])
         case None => false
         case Some(before) => FailsNow(format, before, events[n], i)
  }

  /** A loop has failed exactly when something made it fail; only the chunk of a read that ended in an
      error is still delivered first. */
  predicate EndsRight(l: Lane, failed: bool) {
    && (l.place == Ended(true) ==> failed)
    && (failed ==> l.place == Ended(true) || (l.last == ReadError && (l.place == First || l.place == Second)))
    && (l.last == ReadError ==> failed)
    && (l.place == Reading ==> l.last == More)
    && (l.place == Ended(false) ==> l.last == Eof)
  }

  lemma OwnEventEnds(format: Format, w: World, e: Event, i: nat, failed: bool)
    requires Enabled(w, e) && i < |w.lanes| && EndsRight(w.lanes[i], failed) && !e.ClosesRecorder? && e.lane == i
    ensures i < |Apply(format, w, e).lanes| && EndsRight(Apply(format, w, e).lanes[i], failed || FailsNow(format, w, e, i))
  {
    hide RecordOk;
  }

  lemma {:induction false} LanesEndRight(format: Format, policies: seq<Policy>, events: seq<Event>, w: World, i: nat)
    requires Execute(format, policies, events) == Some(w) && i < |w.lanes|
    ensures EndsRight(w.lanes[i], FailsSoFar(format, policies, events, i))
  {
    hide Enabled, FailsNow, RecordOk;
    if events == [] {
    } else {
      hide Apply, EndsRight;
      var n := |events| - 1;
      var before, e := Execute(format, policies, events[..n]).value, events[n];
      LanesStay(format, before, e);
      LanesEndRight(format, policies, events[..n], before, i);
      if !e.ClosesRecorder? && e.lane == i {
        OwnEventEnds(format, before, e, i, FailsSoFar(format, policies, events[..n], i));
      } else {
        OthersStay(format, before, e, i);
      }
    }
  }

  lemma LanesStay(format: Format, w: World, e: Event)
    requires Enabled(w, e)
    ensures |Apply(format, w, e).lanes| == |w.lanes|
  {
    hide RecordOk;
  }

  lemma OthersStay(format: Format, w: World, e: Event, i: nat)
    requires Enabled(w, e) && i < |w.lanes| && (e.ClosesRecorder? || e.lane != i)
    ensures i < |Apply(format, w, e).lanes| && Apply(format, w, e).lanes[i] == w.lanes[i] && !FailsNow(format, w, e, i)
  {
    hide RecordOk;
  }

  /** A loop that has ended failed exactly when a read, a write or, for the server's loops, the recorder
      did; otherwise it ended at the end of its stream. Until it has ended it can go on. */
  lemma LoopsEndForAReason(format: Format, policies: seq<Policy>, events: seq<Event>, w: World, i: nat)
    requires Execute(format, policies, events) == Some(w) && i < |w.lanes|
    ensures w.lanes[i].place.Ended? ==>
              (w.lanes[i].place == Ended(true) <==> FailsSoFar(format, policies, events, i))
              && (w.lanes[i].place == Ended(false) ==> w.lanes[i].last == Eof)
    ensures !w.lanes[i].place.Ended? ==> exists e: Event :: !e.ClosesRecorder? && e.lane == i && Enabled(w, e)
  {
    hide Execute, FailsSoFar;
    LanesEndRight(format, policies, events, w, i);
    var l := w.lanes[i];
    if l.place == Reading {
      assert Enabled(w, Reads(i, [], Eof));
    } else if IsForwarding(l) {
      assert Enabled(w, Forwards(i, |l.chunk|, true));
    } else if IsRecording(l) {
      assert Enabled(w, Records(i, 0, true, true));
    }
  }

  // ---------------------------------------------------------------- the recording as a file

  function Bytes(frames: seq<Piece>, d: Direction): seq<bytes> {
    if frames == [] then []
    else
      var f := frames[|frames| - 1];
      Bytes(frames[..|frames| - 1], d) + if f.Frame? && f.direction == d then [f.data] else []
  }

  /** The asciinema file that the calls of a history left behind. */
  function FileOf(started: int, header: bool, history: seq<Tagged>): seq<Piece> {
    Recorder.Run(Asciinema, started, Some(header), Calls(history)).pieces
  }

  /** A healthy recorder has recorded every chunk it was handed. */
  lemma {:induction false} HealthyRecordsAll(format: Format, history: seq<Tagged>, i: nat)
    requires Healthy(format, history)
    ensures Recorded(format, history, i) == Offered(history, i)
  {
    hide RecorderOpen, Succeeds, Healthy;
    if history != [] {
      var n := |history| - 1;
      assert history[..n] + [history[n]] == history;
      HealthyAppend(format, history[..n], history[n]);
      HealthyIsOpen(format, history[..n]);
      HealthyRecordsAll(format, history[..n], i);
    }
  }

  /** A frame sequence merged from two others, each kept in order. */
  predicate Merges(all: seq<bytes>, a: seq<bytes>, b: seq<bytes>) {
    if all == [] then a == [] && b == []
    else
      var n := |all| - 1;
      || (a != [] && a[|a| - 1] == all[n] && Merges(all[..n], a[..|a| - 1], b))
      || (b != [] && b[|b| - 1] == all[n] && Merges(all[..n], a, b[..|b| - 1]))
  }

  lemma BytesAppend(frames: seq<Piece>, f: Piece, d: Direction)
    ensures Bytes(frames + [f], d) == Bytes(frames, d) + if f.Frame? && f.direction == d then [f.data] else []
  {
    assert (frames + [f])[..|frames|] == frames;
  }

  /** One more call adds its frame to the complete ones, if it came before the first Close and its
      writes succeeded. */
  lemma CompleteAppend(started: int, history: seq<Tagged>, t: Tagged)
    ensures var before, after := Complete(started, BeforeClose(Calls(history))), Complete(started, BeforeClose(Calls(history + [t])));
            after == before + if t.call.Write? && RecorderOpen(history) && Succeeds(Asciinema, t.call)
                              then [Frame(t.call.clock - started, t.call.direction, t.call.data)] else []
  {
    hide BeforeClose;
    assert Calls(history + [t]) == Calls(history) + [t.call];
    BeforeCloseGrows(Calls(history), t.call);
    var before, after := BeforeClose(Calls(history)), BeforeClose(Calls(history + [t]));
    if t.call.Write? && RecorderOpen(history) {
      assert after[..|after| - 1] == before;
    } else {
      assert after == before;
    }
  }

  /** When one loop alone has a direction, the frames of that direction are its recorded chunks. */
  lemma {:induction false} SoleLaneFrames(started: int, policies: seq<Policy>, history: seq<Tagged>, d: Direction, i: nat)
    requires forall k | 0 <= k < |history| :: TaggedWell(policies, history[k])
    requires forall j | 0 <= j < |policies| :: policies[j].direction == d <==> j == i
    ensures Bytes(Complete(started, BeforeClose(Calls(history))), d) == Recorded(Asciinema, history, i)
  {
    hide Bytes, Complete, BeforeClose, RecorderOpen, Recorded, Succeeds;
    if history == [] {
      EmptyFile(started, d, i);
      assert Calls(history) == [];
    } else {
      var n := |history| - 1;
      SoleLaneFrames(started, policies, history[..n], d, i);
      assert history[..n] + [history[n]] == history;
      assert TaggedWell(policies, history[n]);
      CompleteAppend(started, history[..n], history[n]);
      RecordedAppend(Asciinema, history[..n], history[n], i);
      var t := history[n];
      var frames, chunks := Complete(started, BeforeClose(Calls(history[..n]))), Recorded(Asciinema, history[..n], i);
      assert frames + [] == frames && chunks + [] == chunks && Bytes(frames, d) + [] == Bytes(frames, d);
      if t.call.Write? {
        BytesAppend(frames, Frame(t.call.clock - started, t.call.direction, t.call.data), d);
      }
    }
  }

  lemma EmptyFile(started: int, d: Direction, i: nat)
    ensures Bytes(Complete(started, BeforeClose([])), d) == Recorded(Asciinema, [], i) == []
    ensures Merges(Bytes(Complete(started, BeforeClose([])), d), [], [])
  {
  }

  lemma MergesAppend(all: seq<bytes>, a: seq<bytes>, b: seq<bytes>, c: bytes)
    requires Merges(all, a, b)
    ensures Merges(all + [c], a + [c], b) && Merges(all + [c], a, b + [c])
  {
    assert (all + [c])[..|all|] == all && (a + [c])[..|a|] == a && (b + [c])[..|b|] == b;
  }

  /** When two loops share a direction, its frames merge their recorded chunks. */
  lemma {:induction false} TwoLaneFrames(started: int, policies: seq<Policy>, history: seq<Tagged>, d: Direction, i: nat, j: nat)
    requires forall k | 0 <= k < |history| :: TaggedWell(policies, history[k])
    requires i != j && forall k | 0 <= k < |policies| :: policies[k].direction == d <==> k == i || k == j
    ensures Merges(Bytes(Complete(started, BeforeClose(Calls(history))), d), Recorded(Asciinema, history, i), Recorded(Asciinema, history, j))
  {
    hide Bytes, Complete, BeforeClose, RecorderOpen, Recorded, Succeeds, Merges;
    if history == [] {
      EmptyFile(started, d, i);
      EmptyFile(started, d, j);
      assert Calls(history) == [];
    } else {
      var n := |history| - 1;
      TwoLaneFrames(started, policies, history[..n], d, i, j);
      assert history[..n] + [history[n]] == history;
      assert TaggedWell(policies, history[n]);
      CompleteAppend(started, history[..n], history[n]);
      RecordedAppend(Asciinema, history[..n], history[n], i);
      RecordedAppend(Asciinema, history[..n], history[n], j);
      var t := history[n];
      var frames := Complete(started, BeforeClose(Calls(history[..n])));
      var a, b := Recorded(Asciinema, history[..n], i), Recorded(Asciinema, history[..n], j);
      assert frames + [] == frames && a + [] == a && b + [] == b && Bytes(frames, d) + [] == Bytes(frames, d);
      if t.call.Write? {
        BytesAppend(frames, Frame(t.call.clock - started, t.call.direction, t.call.data), d);
        MergesAppend(Bytes(frames, d), a, b, t.call.data);
      }
    }
  }

  // ---------------------------------------------------------------- BidiProxy

  /** Target to client, recorded as output, and client to target, recorded as input. */
  const BIDI := [Policy(Output, true, false), Policy(Input, true, false)]

  /** BidiProxy's result once both loops have ended: the first loop's error, then the second's. */
  predicate ReturnsNil(w: World)
    requires |w.lanes| == 2
  {
    w.lanes[0].place == Ended(false) && w.lanes[1].place == Ended(false)
  }

  /** When BidiProxy returns nil each side has received the other's full byte stream in order; and if
      the recorder took every write and stayed open, reading its file back gives those two streams. */
  lemma NilMeansDelivered(events: seq<Event>, w: World, started: int, header: bool)
    requires Execute(Asciinema, BIDI, events) == Some(w) && |w.lanes| == 2 && ReturnsNil(w)
    ensures forall i | 0 <= i < 2 :: w.lanes[i].last == Eof && w.lanes[i].forwarded == w.lanes[i].taken
    ensures var frames := Frames(FileOf(started, header, w.history));
            Healthy(Asciinema, w.history) ==>
              && Flat(Bytes(frames, Output)) == w.lanes[0].taken
              && Flat(Bytes(frames, Input)) == w.lanes[1].taken
  {
    hide Execute, Frames, FileOf, Flat, Bytes, Recorded, Offered, Healthy, RecorderOpen, RecordsBehind, TaggedWell, Complete,
         BeforeClose;
    InvariantAlways(Asciinema, BIDI, events, w);
    if Healthy(Asciinema, w.history) {
      HealthyRecordsAll(Asciinema, w.history, 0);
      HealthyRecordsAll(Asciinema, w.history, 1);
    }
    assert Flows(w.lanes[0]) && Flows(w.lanes[1]) && Tracks(Asciinema, w, 0) && Tracks(Asciinema, w, 1);
    BidiFile(started, header, w.history);
  }

  lemma BidiFile(started: int, header: bool, history: seq<Tagged>)
    requires forall k | 0 <= k < |history| :: TaggedWell(BIDI, history[k])
    ensures var frames := Frames(FileOf(started, header, history));
            && Bytes(frames, Output) == Recorded(Asciinema, history, 0)
            && Bytes(frames, Input) == Recorded(Asciinema, history, 1)
  {
    hide Frames, Bytes, Recorded, TaggedWell, Complete, BeforeClose, Recorder.Run;
    FileReadsBack(started, header, Calls(history));
    SoleLaneFrames(started, BIDI, history, Output, 0);
    SoleLaneFrames(started, BIDI, history, Input, 1);
  }

  /** At every moment of every run, errors included, each side has received a prefix of what was read
      for it; and while the recorder is healthy the recording is never behind what was forwarded,
      never ahead of what was read, and at most one buffer ahead of what was forwarded. */
  lemma BidiStaysClose(events: seq<Event>, w: World, i: nat)
    requires Execute(Asciinema, BIDI, events) == Some(w) && i < |w.lanes|
    ensures var l := w.lanes[i];
            && l.forwarded <= l.taken && |l.taken| <= |l.forwarded| + BUFFER_SIZE
            && (Healthy(Asciinema, w.history) ==>
                  var recorded := Flat(Recorded(Asciinema, w.history, i));
                  l.forwarded <= recorded <= l.taken && |recorded| <= |l.forwarded| + BUFFER_SIZE)
  {
    hide Execute, Flat, Recorded, Offered, Healthy, RecorderOpen, RecordsBehind, TaggedWell;
    InvariantAlways(Asciinema, BIDI, events, w);
    if Healthy(Asciinema, w.history) {
      HealthyRecordsAll(Asciinema, w.history, i);
    }
    assert Flows(w.lanes[i]) && Tracks(Asciinema, w, i) && w.lanes[i].policy.recordsFirst;
  }

  lemma ExecuteOne(format: Format, policies: seq<Policy>, events: seq<Event>, w: World, e: Event)
    requires Execute(format, policies, events) == Some(w) && Enabled(w, e)
    ensures Execute(format, policies, events + [e]) == Some(Apply(format, w, e))
  {
    hide Enabled, Apply;
    assert (events + [e])[..|events|] == events;
  }

  /** One turn of a loop as the environment decides it: what the read gives, what the clock says, how
      the recorder's writes go, and how much of the chunk the other side takes. */
  datatype Turn = Turn(chunk: bytes, end: ReadEnd, clock: int, first: bool, second: bool, written: nat, ok: bool)

  predicate Possible(t: Turn) {
    |t.chunk| <= BUFFER_SIZE && t.written <= |t.chunk| && (t.ok ==> t.written == |t.chunk|)
  }

  /** The step system's account of a turn of loop i that read something. */
  lemma TurnIsRun(format: Format, policies: seq<Policy>, i: nat, events: seq<Event>, w: World, t: Turn) returns (more: seq<Event>, v: World)
    requires Execute(format, policies, events) == Some(w) && Possible(t) && t.chunk != []
    requires i < |w.lanes| && w.lanes[i].policy.recordsFirst && !w.lanes[i].policy.stopsOnError && w.lanes[i].place == Reading
    ensures Execute(format, policies, more) == Some(v) && |v.lanes| == |w.lanes| && v.lanes[i].policy == w.lanes[i].policy
    ensures v.history == w.history + [Tagged(Some(i), Call.Write(w.lanes[i].policy.direction, t.chunk, t.clock, t.first, t.second))]
    ensures v.lanes[i].taken == w.lanes[i].taken + t.chunk
    ensures v.lanes[i].forwarded == w.lanes[i].forwarded + t.chunk[..t.written]
    ensures v.lanes[i].place == if !t.ok then Ended(true) else if t.end == More then Reading else Ended(t.end == ReadError)
  {
    hide Execute, RecordOk;
    var read, record, forward := Reads(i, t.chunk, t.end), Records(i, t.clock, t.first, t.second), Forwards(i, t.written, t.ok);
    var w1 := Apply(format, w, read);
    ExecuteOne(format, policies, events, w, read);
    var w2 := Apply(format, w1, record);
    ExecuteOne(format, policies, events + [read], w1, record);
    v := Apply(format, w2, forward);
    ExecuteOne(format, policies, events + [read] + [record], w2, forward);
    more := events + [read] + [record] + [forward];
  }

  lemma EmptyTurnIsRun(policy: Policy, events: seq<Event>, w: World, end: ReadEnd) returns (more: seq<Event>, v: World)
    requires Execute(Asciinema, [policy], events) == Some(w)
    requires |w.lanes| == 1 && w.lanes[0].policy == policy && w.lanes[0].place == Reading
    ensures Execute(Asciinema, [policy], more) == Some(v) && |v.lanes| == 1 && v.lanes[0].policy == policy
    ensures v.history == w.history && v.lanes[0].forwarded == w.lanes[0].forwarded
    ensures v.lanes[0].place == if end == More then Reading else Ended(end == ReadError)
  {
    hide Execute;
    more, v := events + [Reads(0, [], end)], Apply(Asciinema, w, Reads(0, [], end));
    ExecuteOne(Asciinema, [policy], events, w, Reads(0, [], end));
  }

  // ---------------------------------------------------------------- recorder errors

  /** No write that succeeded comes after one that did not. */
  predicate NoGap(outcomes: seq<bool>) { forall a, b | 0 <= a < b < |outcomes| && outcomes[b] :: outcomes[a] }

  function Successes(outcomes: seq<bool>): nat {
    if outcomes == [] then 0 else Successes(outcomes[..|outcomes| - 1]) + if outcomes[|outcomes| - 1] then 1 else 0
  }

  /** Without a gap the successes are the first outcomes; with one a failure stands among as many
      first outcomes as there are successes. */
  lemma {:induction false} GapIff(outcomes: seq<bool>)
    ensures Successes(outcomes) <= |outcomes|
    ensures NoGap(outcomes) <==> forall k | 0 <= k < Successes(outcomes) :: outcomes[k]
    ensures NoGap(outcomes) ==> forall k | Successes(outcomes) <= k < |outcomes| :: !outcomes[k]
  {
    if outcomes != [] {
      var n := |outcomes| - 1;
      var before := outcomes[..n];
      GapIff(before);
      assert forall k | 0 <= k < n :: before[k] == outcomes[k];
      if NoGap(outcomes) {
        assert NoGap(before);
      } else if outcomes[n] && NoGap(before) {
        assert exists k :: 0 <= k < n && !outcomes[k];
        assert !outcomes[Successes(before)];
      }
    }
  }

  lemma SuccessesAppend(outcomes: seq<bool>, last: bool)
    ensures Successes(outcomes + [last]) == Successes(outcomes) + if last then 1 else 0
  {
    assert (outcomes + [last])[..|outcomes|] == outcomes;
  }

  /** The recorded chunks are as many as the successes, and without a gap they are the first offered. */
  lemma {:induction false} RecordedPrefix(format: Format, history: seq<Tagged>, i: nat)
    ensures |Offered(history, i)| == |Outcomes(format, history, i)|
    ensures |Recorded(format, history, i)| == Successes(Outcomes(format, history, i))
    ensures NoGap(Outcomes(format, history, i)) ==> Recorded(format, history, i) <= Offered(history, i)
  {
    if history == [] {
      NothingMissing();
    } else {
      hide RecorderOpen, Succeeds, NoGap, Offered, Recorded, Outcomes, Successes;
      var before, t := history[..|history| - 1], history[|history| - 1];
      assert before + [t] == history;
      RecordedPrefix(format, before, i);
      OfferedAppend(before, t, i);
      OutcomesAppend(format, before, t, i);
      RecordedAppend(format, before, t, i);
      var offered, outcomes, recorded := Offered(before, i), Outcomes(format, before, i), Recorded(format, before, i);
      assert offered + [] == offered && outcomes + [] == outcomes && recorded + [] == recorded;
      if t.lane == Some(i) && t.call.Write? {
        OneMoreOutcome(offered, outcomes, recorded, t.call.data, RecorderOpen(before) && Succeeds(format, t.call));
      }
    }
  }

  lemma OneMoreOutcome(offered: seq<bytes>, outcomes: seq<bool>, recorded: seq<bytes>, chunk: bytes, success: bool)
    requires |offered| == |outcomes| && |recorded| == Successes(outcomes)
    requires NoGap(outcomes) ==> recorded <= offered
    ensures var more := recorded + if success then [chunk] else [];
            && |more| == Successes(outcomes + [success])
            && (NoGap(outcomes + [success]) ==> more <= offered + [chunk])
  {
    hide NoGap, Successes;
    SuccessesAppend(outcomes, success);
    GapIff(outcomes);
    GapIff(outcomes + [success]);
    GapShrinks(outcomes, outcomes + [success]);
    if success && NoGap(outcomes + [success]) {
      assert (outcomes + [success])[|outcomes|];
      assert Successes(outcomes) == |outcomes|;
      assert recorded == offered;
    }
  }

  lemma NothingMissing()
    ensures NoGap([]) && Successes([]) == 0
  {
  }

  lemma GapShrinks(before: seq<bool>, after: seq<bool>)
    requires before <= after
    ensures NoGap(after) ==> NoGap(before)
  {
    assert forall k | 0 <= k < |before| :: before[k] == after[k];
  }
  lemma {:induction false} FlatPrefix(a: seq<bytes>, b: seq<bytes>)
    requires a <= b
    ensures Flat(a) <= Flat(b)
  {
    if a != b {
      var n := |b| - 1;
      assert a <= b[..n];
      FlatPrefix(a, b[..n]);
    }
  }

  /** Closed early or failing for good, the recorder of BidiProxy has a prefix of each stream, as long
      as no write of that stream succeeds after one that did not. */
  lemma NoGapIsPrefix(format: Format, events: seq<Event>, w: World, i: nat)
    requires Execute(format, BIDI, events) == Some(w) && i < |w.lanes|
    requires NoGap(Outcomes(format, w.history, i))
    ensures Flat(Recorded(format, w.history, i)) <= w.lanes[i].taken
  {
    hide Execute, Flat, Recorded, Offered, Outcomes, NoGap, RecorderOpen, RecordsBehind, TaggedWell, Flows;
    InvariantAlways(format, BIDI, events, w);
    RecordedPrefix(format, w.history, i);
    FlatPrefix(Recorded(format, w.history, i), Offered(w.history, i));
    assert Tracks(format, w, i) && w.lanes[i].policy.recordsFirst;
  }

  function Mark(success: bool): byte { if success then 1 else 0 }

  function Marks(outcomes: seq<bool>): bytes { seq(|outcomes|, k requires 0 <= k < |outcomes| => Mark(outcomes[k])) }

  /** Any pattern of outcomes can happen: a run of BidiProxy in which loop i reads one byte per write,
      1 when the write succeeds and 0 when it fails. */
  lemma {:induction false} AnyOutcomes(format: Format, i: nat, outcomes: seq<bool>) returns (events: seq<Event>, w: World)
    requires i < 2
    ensures Execute(format, BIDI, events) == Some(w) && |w.lanes| == 2
    ensures w.lanes[i].place == Reading && w.lanes[i].policy == BIDI[i] && RecorderOpen(w.history)
    ensures Outcomes(format, w.history, i) == outcomes && w.lanes[i].taken == Marks(outcomes)
    ensures forall b | b in Flat(Recorded(format, w.history, i)) :: b == 1
    ensures |Flat(Recorded(format, w.history, i))| == Successes(outcomes)
  {
    hide Execute, RecorderOpen, Flat, Recorded, Outcomes, Successes;
    if outcomes == [] {
      events, w := StartsBoth(format);
      NothingRecorded(format, i);
    } else {
      var n := |outcomes| - 1;
      var before, u := AnyOutcomes(format, i, outcomes[..n]);
      var turn := Turn([Mark(outcomes[n])], More, 0, outcomes[n], outcomes[n], 1, true);
      events, w := TurnIsRun(format, BIDI, i, before, u, turn);
      var t := Tagged(Some(i), Call.Write(BIDI[i].direction, turn.chunk, 0, outcomes[n], outcomes[n]));
      OpenAppend(u.history, t);
      OutcomesAppend(format, u.history, t, i);
      RecordedAppend(format, u.history, t, i);
      assert outcomes == outcomes[..n] + [outcomes[n]];
      SuccessesAppend(outcomes[..n], outcomes[n]);
      var chunks := Recorded(format, u.history, i);
      FlatAppend(chunks, turn.chunk);
      assert chunks + [] == chunks;
    }
  }

  lemma NothingRecorded(format: Format, i: nat)
    ensures Outcomes(format, [], i) == [] && Recorded(format, [], i) == [] && Flat([]) == [] && Successes([]) == 0
  {
  }

  lemma StartsBoth(format: Format) returns (events: seq<Event>, w: World)
    ensures Execute(format, BIDI, events) == Some(w) && |w.lanes| == 2 && w.history == []
    ensures forall i | 0 <= i < 2 :: w.lanes[i] == NewLane(BIDI[i])
    ensures RecorderOpen([])
  {
    events, w := [], Execute(format, BIDI, []).value;
    assert Calls([]) == [];
  }

  /** BidiProxy goes on after a recorder error: whenever the outcomes of a stream's writes have a gap,
      there is a run with just these outcomes whose recording is no prefix of the stream. */
  lemma IgnoredErrorsLeaveGaps(format: Format, i: nat, outcomes: seq<bool>) returns (events: seq<Event>, w: World)
    requires i < 2 && !NoGap(outcomes)
    ensures Execute(format, BIDI, events) == Some(w) && i < |w.lanes| && RecorderOpen(w.history)
    ensures Outcomes(format, w.history, i) == outcomes
    ensures !(Flat(Recorded(format, w.history, i)) <= w.lanes[i].taken)
  {
    hide Execute, RecorderOpen, Flat, Recorded, Outcomes, NoGap;
    events, w := AnyOutcomes(format, i, outcomes);
    GapIff(outcomes);
    var recorded := Flat(Recorded(format, w.history, i));
    var k :| 0 <= k < Successes(outcomes) && !outcomes[k];
    assert recorded[k] in recorded && w.lanes[i].taken[k] == 0;
  }

  /** Exactly: the recording of a stream is a prefix of it in every run with given outcomes of the
      stream's recorder writes when the outcomes have no gap. */
  lemma PrefixIff(format: Format, i: nat, outcomes: seq<bool>)
    requires i < 2
    ensures (forall events: seq<Event>, w: World |
               Execute(format, BIDI, events) == Some(w) && i < |w.lanes| && Outcomes(format, w.history, i) == outcomes ::
               Flat(Recorded(format, w.history, i)) <= w.lanes[i].taken)
            <==> NoGap(outcomes)
  {
    hide Execute, Flat, Recorded, Outcomes, NoGap;
    if NoGap(outcomes) {
      forall events: seq<Event>, w: World |
        Execute(format, BIDI, events) == Some(w) && i < |w.lanes| && Outcomes(format, w.history, i) == outcomes
        ensures Flat(Recorded(format, w.history, i)) <= w.lanes[i].taken
      {
        NoGapIsPrefix(format, events, w, i);
      }
    } else {
      var events, w := IgnoredErrorsLeaveGaps(format, i, outcomes);
    }
  }

  lemma RunOne(started: int, header: Option<bool>, history: seq<Tagged>, t: Tagged)
    ensures Recorder.Run(Asciinema, started, header, Calls(history + [t]))
              == Effect(Asciinema, started, Recorder.Run(Asciinema, started, header, Calls(history)), t.call).0
  {
    hide Effect;
    assert Calls(history + [t])[..|history|] == Calls(history);
  }

  /** One of BidiProxy's two loops, alone with its buffer and a new recorder: what it does is a run of
      the step system, so everything proved of all runs holds of it. */
  method RelayLoop(direction: Direction, recorder: AsciinemaRecorder, ghost header: Option<bool>, turns: seq<Turn>)
    returns (forwarded: bytes, ended: bool, failed: bool, ghost events: seq<Event>, ghost w: World)
    requires recorder.Valid() && recorder.Contents() == Opened(header)
    requires forall t | t in turns :: Possible(t)
    modifies recorder.created
    ensures recorder.Valid()
    ensures Execute(Asciinema, [Policy(direction, true, false)], events) == Some(w) && |w.lanes| == 1
    ensures forwarded == w.lanes[0].forwarded
    ensures ended <==> w.lanes[0].place.Ended?
    ensures ended ==> w.lanes[0].place == Ended(failed)
    ensures recorder.Contents() == Recorder.Run(Asciinema, recorder.startTime, header, Calls(w.history))
  {
    hide Execute, Effect, Possible;
    ghost var policy := Policy(direction, true, false);
    forwarded, ended, failed := [], false, false;
    events, w := [], World([NewLane(policy)], []);
    StartsAlone(policy, recorder.startTime, header);
    var buf := new byte[BUFFER_SIZE](_ => 0);
    var i := 0;
    while i < |turns| && !ended
      invariant i <= |turns|
      invariant recorder.Valid() && fresh(buf) && buf.Length == BUFFER_SIZE
      invariant Execute(Asciinema, [policy], events) == Some(w) && |w.lanes| == 1 && w.lanes[0].policy == policy
      invariant forwarded == w.lanes[0].forwarded
      invariant w.lanes[0].place == if ended then Ended(failed) else Reading
      invariant recorder.Contents() == Recorder.Run(Asciinema, recorder.startTime, header, Calls(w.history))
    {
      var t := turns[i];
      i := i + 1;
      var n := |t.chunk|;
      FitsBuffer(t);
      if n > 0 {
        forall k | 0 <= k < n {
          buf[k] := t.chunk[k];
        }
        assert buf[..n] == t.chunk;
        RunOne(recorder.startTime, header, w.history, Tagged(Some(0), Call.Write(direction, t.chunk, t.clock, t.first, t.second)));
        var _ := recorder.Record(direction, buf[..n], t.clock, t.first, t.second);
        assert buf[..t.written] == t.chunk[..t.written];
        forwarded := forwarded + buf[..t.written];
        events, w := TurnIsRun(Asciinema, [policy], 0, events, w, t);
        if !t.ok {
          ended, failed := true, true;
        } else if t.end != More {
          ended, failed := true, t.end == ReadError;
        }
      } else {
        events, w := EmptyTurnIsRun(policy, events, w, t.end);
        if t.end != More {
          ended, failed := true, t.end == ReadError;
        }
      }
    }
  }

  lemma FitsBuffer(t: Turn)
    requires Possible(t)
    ensures |t.chunk| <= BUFFER_SIZE && t.written <= |t.chunk|
  {
  }

  lemma StartsAlone(policy: Policy, started: int, header: Option<bool>)
    ensures Execute(Asciinema, [policy], []) == Some(World([NewLane(policy)], []))
    ensures Recorder.Run(Asciinema, started, header, Calls([])) == Opened(header)
  {
    assert seq(1, i requires 0 <= i < 1 => NewLane([policy][i])) == [NewLane(policy)];
    assert Calls([]) == [];
  }

  // ---------------------------------------------------------------- the server's copy helpers

  /** copySessionInput, and copySessionOutput for stdout and for stderr. */
  const SERVER := [Policy(Input, false, true), Policy(Output, false, true), Policy(Output, false, true)]

  /** At every moment of every run, whatever the recorder does and whenever it is closed: what was
      recorded of a stream is a prefix of what was forwarded of it, which is a prefix of what was
      read; and while the recorder is open it is at most one buffer behind. */
  lemma ServerRecordsPrefix(format: Format, events: seq<Event>, w: World, i: nat)
    requires Execute(format, SERVER, events) == Some(w) && i < |w.lanes|
    ensures var l := w.lanes[i];
            var recorded := Flat(Recorded(format, w.history, i));
            && recorded <= l.forwarded <= l.taken
            && (RecorderOpen(w.history) ==> |l.forwarded| <= |recorded| + BUFFER_SIZE)
  {
    hide Execute, Flat, Recorded, Healthy, RecorderOpen, OffersAhead, TaggedWell;
    InvariantAlways(format, SERVER, events, w);
    var l := w.lanes[i];
    assert Flows(l) && Tracks(format, w, i) && !l.policy.recordsFirst && l.policy.stopsOnError;
  }

  /** Read back, the recording's input frames are the recorded input, and its output frames merge the
      recorded chunks of stdout and of stderr, each in order. */
  lemma ServerFile(events: seq<Event>, w: World, started: int, header: bool)
    requires Execute(Asciinema, SERVER, events) == Some(w)
    ensures var frames := Frames(FileOf(started, header, w.history));
            && Bytes(frames, Input) == Recorded(Asciinema, w.history, 0)
            && Merges(Bytes(frames, Output), Recorded(Asciinema, w.history, 1), Recorded(Asciinema, w.history, 2))
  {
    hide Execute, Frames, Bytes, Recorded, TaggedWell, Complete, BeforeClose, Recorder.Run, Tracks, Flows, Merges;
    InvariantAlways(Asciinema, SERVER, events, w);
    FileReadsBack(started, header, Calls(w.history));
    SoleLaneFrames(started, SERVER, w.history, Input, 0);
    TwoLaneFrames(started, SERVER, w.history, Output, 1, 2);
  }
}
