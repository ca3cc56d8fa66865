/** The session recorders: append logs behind a mutex. Every call holds the mutex from start to end, so
    concurrent callers amount to one sequence of calls, and each result below is about any sequence. */
module Recorder {
  import opened Text
  import opened Wire

  datatype Format = Asciinema | Script

  datatype Direction = Output | Input

  /** One write to the file. `Torn` stands for a write that failed part-way. */
  datatype Piece =
    | Header
    | Frame(time: int, direction: Direction, data: seq<byte>)
    | Newline
    | Data(data: seq<byte>)
    | Trailer
    | Torn(piece: Piece)

  /** A call as it was serialised: the clock it read, and whether its one or two file writes succeed. */
  datatype Call =
    | Write(direction: Direction, data: seq<byte>, clock: int, first: bool, second: bool)
    | Close(first: bool)

  // ---------------------------------------------------------------- the effect of one call

  function Put(p: Piece, ok: bool): Piece { if ok then p else Torn(p) }

  /** What a call on an open recorder appends: a frame and a line end, or the data as it is. */
  function Entry(format: Format, started: int, c: Call): seq<Piece>
    requires c.Write?
  {
    match format
    case Asciinema =>
      var frame := Frame(c.clock - started, c.direction, c.data);
      if c.first then [frame, Put(Newline, c.second)] else [Torn(frame)]
    case Script => [Put(Data(c.data), c.first)]
  }

  predicate Succeeds(format: Format, c: Call) { c.first && (c.Write? && format == Asciinema ==> c.second) }

  /** The state of a recorder and its file. A recorder whose file could not be created never opens. */
  datatype State = State(open: bool, pieces: seq<Piece>, closes: nat)

  /** NewAsciinemaRecorder and NewScriptRecorder: `header` is None when the file could not be created,
      and otherwise says whether the header was written in full. */
  function Opened(header: Option<bool>): State {
    State(header.Some?, if header.Some? then [Put(Header, header.value)] else [], 0)
  }

  /** One call: the new state, and whether the caller gets no error. */
  function Effect(format: Format, started: int, s: State, c: Call): (State, bool) {
    if !s.open then (s, true)
    else
      match c
      case Write(_, _, _, _, _) => (s.(pieces := s.pieces + Entry(format, started, c)), Succeeds(format, c))
      case Close(ok) =>
        (State(false, if format == Script then s.pieces + [Put(Trailer, ok)] else s.pieces, s.closes + 1), true)
  }

  function Run(format: Format, started: int, header: Option<bool>, calls: seq<Call>): State {
    if calls == [] then Opened(header)
    else Effect(format, started, Run(format, started, header, calls[..|calls| - 1]), calls[|calls| - 1]).0
  }

  // ---------------------------------------------------------------- the recorders

  /** An operating system file: what was written to it and how often it was closed. */
  class File {
    var pieces: seq<Piece>
    var closes: nat

    constructor ()
      ensures pieces == [] && closes == 0
    {
      pieces, closes := [], 0;
    }

    method WriteTo(p: Piece, ok: bool)
      requires closes == 0
      modifies this`pieces
      ensures pieces == old(pieces) + [Put(p, ok)]
    {
      pieces := pieces + [if ok then p else Torn(p)];
    }

    method CloseIt()
      requires closes == 0
      modifies this`closes
      ensures closes == 1
    {
      closes := closes + 1;
    }
  }

  class AsciinemaRecorder {
    var file: File?
    var enabled: bool
    const startTime: int
    ghost const created: File?

    ghost predicate Valid()
      reads this, created
    {
      && (file == null || file == created)
      && (enabled <==> created != null)
      && (created != null ==> (created.closes == 0 <==> file != null))
    }

    ghost function Contents(): State
      reads this, created
    {
      State(file != null, if created == null then [] else created.pieces, if created == null then 0 else created.closes)
    }

    constructor (header: Option<bool>, now: int)
      ensures Valid() && startTime == now && Contents() == Opened(header) && (created != null <==> header.Some?)
      ensures created != null ==> fresh(created)
    {
      var f: File? := null;
      if header.Some? {
        f := new File();
        f.WriteTo(Header, header.value);
      }
      file, created, enabled, startTime := f, f, header.Some?, now;
    }

    /** Write and WriteInput, which differ in the direction they note. */
    method Record(direction: Direction, data: seq<byte>, clock: int, first: bool, second: bool) returns (ok: bool)
      requires Valid()
      modifies created
      ensures Valid()
      ensures (Contents(), ok) == Effect(Asciinema, startTime, old(Contents()), Call.Write(direction, data, clock, first, second))
    {
      if !enabled || file == null {
        return true;
      }
      var elapsed := clock - startTime;
      file.WriteTo(Frame(elapsed, direction, data), first);
      if !first {
        return false;
      }
      file.WriteTo(Newline, second);
      assert old(Contents()).pieces + [Frame(elapsed, direction, data)] + [Put(Newline, second)]
          == old(Contents()).pieces + [Frame(elapsed, direction, data), Put(Newline, second)];
      return second;
    }

    method Close(first: bool)
      requires Valid()
      modifies this`file, created
      ensures Valid()
      ensures Contents() == Effect(Asciinema, startTime, old(Contents()), Call.Close(first)).0
    {
      if file == null {
        return;
      }
      var f := file;
      file := null;
      f.CloseIt();
    }
  }

  class ScriptRecorder {
    var file: File?
    var enabled: bool
    const startTime: int
    ghost const created: File?

    ghost predicate Valid()
      reads this, created
    {
      && (file == null || file == created)
      && (enabled <==> created != null)
      && (created != null ==> (created.closes == 0 <==> file != null))
    }

    ghost function Contents(): State
      reads this, created
    {
      State(file != null, if created == null then [] else created.pieces, if created == null then 0 else created.closes)
    }

    constructor (header: Option<bool>, now: int)
      ensures Valid() && startTime == now && Contents() == Opened(header) && (created != null <==> header.Some?)
      ensures created != null ==> fresh(created)
    {
      var f: File? := null;
      if header.Some? {
        f := new File();
        f.WriteTo(Header, header.value);
      }
      file, created, enabled, startTime := f, f, header.Some?, now;
    }

    /** Write and WriteInput, which do the same. */
    method Record(direction: Direction, data: seq<byte>, clock: int, first: bool) returns (ok: bool)
      requires Valid()
      modifies created
      ensures Valid()
      ensures forall second ::
                (Contents(), ok) == Effect(Script, startTime, old(Contents()), Call.Write(direction, data, clock, first, second))
    {
      if !enabled || file == null {
        return true;
      }
      file.WriteTo(Data(data), first);
      return first;
    }

    method Close(first: bool)
      requires Valid()
      modifies this`file, created
      ensures Valid()
      ensures Contents() == Effect(Script, startTime, old(Contents()), Call.Close(first)).0
    {
      if file == null {
        return;
      }
      var f := file;
      file := null;
      if enabled {
        f.WriteTo(Trailer, first);
      }
      f.CloseIt();
    }
  }

  // ---------------------------------------------------------------- the file as a log

  /** The calls serialised before the first Close. */
  function BeforeClose(calls: seq<Call>): (open: seq<Call>)
    ensures open <= calls
    ensures forall c | c in open :: c.Write?
    ensures |open| < |calls| ==> calls[|open|].Close?
  {
    if calls == [] || calls[0].Close? then [] else [calls[0]] + BeforeClose(calls[1..])
  }

  predicate IsClosed(calls: seq<Call>) { |BeforeClose(calls)| < |calls| }

  function Entries(format: Format, started: int, calls: seq<Call>): seq<Piece>
    requires forall c | c in calls :: c.Write?
  {
    if calls == [] then [] else Entries(format, started, calls[..|calls| - 1]) + Entry(format, started, calls[|calls| - 1])
  }

  /** The last thing written: the script trailer when a script was closed. */
  function Ending(format: Format, calls: seq<Call>): seq<Piece> {
    if format == Script && IsClosed(calls) then [Put(Trailer, calls[|BeforeClose(calls)|].first)] else []
  }

  lemma {:induction false} BeforeCloseGrows(calls: seq<Call>, c: Call)
    ensures BeforeClose(calls + [c]) == BeforeClose(calls) + (if IsClosed(calls) || c.Close? then [] else [c])
    ensures IsClosed(calls + [c]) <==> IsClosed(calls) || c.Close?
  {
    if calls == [] {
    } else if calls[0].Write? {
      assert (calls + [c])[1..] == calls[1..] + [c];
      BeforeCloseGrows(calls[1..], c);
    }
  }

  /** The file as a log: the header, one entry for every call before the first Close, and the script
      trailer exactly when a script was closed; a closed file was closed once. */
  function Log(format: Format, started: int, header: bool, calls: seq<Call>): State {
    State(!IsClosed(calls),
          [Put(Header, header)] + Entries(format, started, BeforeClose(calls)) + Ending(format, calls),
          if IsClosed(calls) then 1 else 0)
  }

  lemma EntryGoesLast(format: Format, started: int, header: bool, calls: seq<Call>, c: Call)
    requires !IsClosed(calls) && c.Write?
    ensures Log(format, started, header, calls + [c]) == Effect(format, started, Log(format, started, header, calls), c).0
  {
    hide Entry, BeforeClose, IsClosed;
    BeforeCloseGrows(calls, c);
    var before, after := BeforeClose(calls), BeforeClose(calls + [c]);
    assert after[..|after| - 1] == before;
    var pieces := [Put(Header, header)] + Entries(format, started, before);
    assert pieces + [] == pieces;
    assert [Put(Header, header)] + (Entries(format, started, before) + Entry(format, started, c)) + []
        == pieces + Entry(format, started, c);
  }

  lemma ClosingGoesLast(format: Format, started: int, header: bool, calls: seq<Call>, c: Call)
    requires !IsClosed(calls) && c.Close?
    ensures Log(format, started, header, calls + [c]) == Effect(format, started, Log(format, started, header, calls), c).0
  {
    hide Entries, BeforeClose;
    BeforeCloseGrows(calls, c);
    assert BeforeClose(calls + [c]) == BeforeClose(calls) == calls && (calls + [c])[|calls|] == c;
    var pieces := [Put(Header, header)] + Entries(format, started, calls);
    assert pieces + [] == pieces;
  }

  lemma NothingAfterClose(format: Format, started: int, header: bool, calls: seq<Call>, c: Call)
    requires IsClosed(calls)
    ensures Log(format, started, header, calls + [c]) == Log(format, started, header, calls)
  {
    hide Entries, BeforeClose;
    BeforeCloseGrows(calls, c);
    var open := BeforeClose(calls);
    assert BeforeClose(calls + [c]) == open && (calls + [c])[|open|] == calls[|open|];
  }

  /** A recorder without a file stays silent. */
  lemma {:induction false} WithoutFile(format: Format, started: int, calls: seq<Call>)
    ensures Run(format, started, None, calls) == Opened(None)
  {
    if calls != [] {
      WithoutFile(format, started, calls[..|calls| - 1]);
    }
  }

  /** Whatever calls are made, in whatever order, the recorder's file is that log: nothing is written
      after the first Close, and only the first Close closes the file. A recorder without a file
      writes nothing at all. */
  lemma FileIsLog(format: Format, started: int, header: Option<bool>, calls: seq<Call>)
    ensures Run(format, started, header, calls) ==
              if header.Some? then Log(format, started, header.value, calls) else Opened(None)
  {
    hide Run, Log;
    if header.Some? {
      CreatedFileIsLog(format, started, header.value, calls);
    } else {
      WithoutFile(format, started, calls);
    }
  }

  lemma {:induction false} CreatedFileIsLog(format: Format, started: int, header: bool, calls: seq<Call>)
    ensures Run(format, started, Some(header), calls) == Log(format, started, header, calls)
  {
    if calls == [] {
      assert [Put(Header, header)] + [] + [] == [Put(Header, header)];
    } else {
      hide Effect, Log, IsClosed;
      var n := |calls| - 1;
      CreatedFileIsLog(format, started, header, calls[..n]);
      assert calls[..n] + [calls[n]] == calls;
      if IsClosed(calls[..n]) {
        NothingAfterClose(format, started, header, calls[..n], calls[n]);
        ClosedIgnores(format, started, Log(format, started, header, calls[..n]), calls[n]);
        LogIsClosed(format, started, header, calls[..n]);
      } else if calls[n].Write? {
        EntryGoesLast(format, started, header, calls[..n], calls[n]);
      } else {
        ClosingGoesLast(format, started, header, calls[..n], calls[n]);
      }
    }
  }

  lemma ClosedIgnores(format: Format, started: int, s: State, c: Call)
    ensures !s.open ==> Effect(format, started, s, c) == (s, true)
  {
  }

  lemma LogIsClosed(format: Format, started: int, header: bool, calls: seq<Call>)
    ensures Log(format, started, header, calls).open <==> !IsClosed(calls)
  {
    hide IsClosed, Entries, BeforeClose, Ending;
  }

  predicate IsTrailer(p: Piece) { p == Trailer || p == Torn(Trailer) }

  lemma {:induction false} EntriesHaveNoTrailer(format: Format, started: int, calls: seq<Call>)
    requires forall c | c in calls :: c.Write?
    ensures forall p | p in Entries(format, started, calls) :: !IsTrailer(p)
  {
    if calls != [] {
      EntriesHaveNoTrailer(format, started, calls[..|calls| - 1]);
    }
  }

  /** The trailer is in the file exactly when a script was closed, and then it is its last piece only. */
  lemma TrailerOnceAndLast(format: Format, started: int, header: bool, calls: seq<Call>, k: nat)
    requires k < |Run(format, started, Some(header), calls).pieces|
    ensures var pieces := Run(format, started, Some(header), calls).pieces;
            IsTrailer(pieces[k]) <==> k == |pieces| - 1 && format == Script && IsClosed(calls)
  {
    hide Run, Entries, BeforeClose;
    FileIsLog(format, started, Some(header), calls);
    EntriesHaveNoTrailer(format, started, BeforeClose(calls));
    var entries := Entries(format, started, BeforeClose(calls));
    if 1 <= k <= |entries| {
      assert entries[k - 1] in entries;
    }
  }

  // ---------------------------------------------------------------- reading an asciinema file back

  /** The frames of a file that were written in full, with the line end after them. */
  function Frames(pieces: seq<Piece>): seq<Piece> {
    if |pieces| < 2 then []
    else if pieces[|pieces| - 1] == Newline && pieces[|pieces| - 2].Frame? then Frames(pieces[..|pieces| - 2]) + [pieces[|pieces| - 2]]
    else Frames(pieces[..|pieces| - 1])
  }

  /** The calls whose entry is complete, as frames. */
  function Complete(started: int, calls: seq<Call>): seq<Piece>
    requires forall c | c in calls :: c.Write?
  {
    if calls == [] then []
    else
      var c := calls[|calls| - 1];
      Complete(started, calls[..|calls| - 1])
      + if c.first && c.second then [Frame(c.clock - started, c.direction, c.data)] else []
  }

  lemma FramesOfEntry(before: seq<Piece>, started: int, c: Call)
    requires c.Write? && before != []
    requires !before[|before| - 1].Frame?
    ensures var after := before + Entry(Asciinema, started, c);
            && Frames(after) == Frames(before) + (if c.first && c.second then [Frame(c.clock - started, c.direction, c.data)] else [])
            && !after[|after| - 1].Frame?
  {
    var frame := Frame(c.clock - started, c.direction, c.data);
    var after := before + Entry(Asciinema, started, c);
    if c.first {
      var last := Put(Newline, c.second);
      assert after == before + [frame] + [last];
      assert after[..|after| - 1] == before + [frame];
      assert after[..|after| - 2] == before;
      assert (before + [frame])[..|before + [frame]| - 1] == before;
    } else {
      assert after[..|after| - 1] == before;
    }
  }

  /** Reading the complete frames of the file back gives exactly the complete calls before the first
      Close, in order, with their times, directions and bytes. */
  lemma FileReadsBack(started: int, header: bool, calls: seq<Call>)
    ensures Frames(Run(Asciinema, started, Some(header), calls).pieces) == Complete(started, BeforeClose(calls))
  {
    hide Frames, Complete, Entries, Run;
    FileIsLog(Asciinema, started, Some(header), calls);
    EntriesReadBack(started, header, BeforeClose(calls));
    var pieces := [Put(Header, header)] + Entries(Asciinema, started, BeforeClose(calls));
    assert pieces + [] == pieces;
  }

  lemma NoFrames(p: Piece)
    ensures Frames([p]) == []
  {
  }

  lemma {:induction false} EntriesReadBack(started: int, header: bool, calls: seq<Call>)
    requires forall c | c in calls :: c.Write?
    ensures var pieces := [Put(Header, header)] + Entries(Asciinema, started, calls);
            Frames(pieces) == Complete(started, calls) && !pieces[|pieces| - 1].Frame?
  {
    if calls == [] {
      hide Frames;
      NoFrames(Put(Header, header));
      assert [Put(Header, header)] + [] == [Put(Header, header)];
    } else {
      hide Entry, Frames, Entries, Complete;
      var n := |calls| - 1;
      EntriesReadBack(started, header, calls[..n]);
      var before := [Put(Header, header)] + Entries(Asciinema, started, calls[..n]);
      FramesOfEntry(before, started, calls[n]);
      OneMoreEntry(started, calls);
      assert [Put(Header, header)] + Entries(Asciinema, started, calls) == before + Entry(Asciinema, started, calls[n]);
    }
  }

  lemma OneMoreEntry(started: int, calls: seq<Call>)
    requires calls != [] && forall c | c in calls :: c.Write?
    ensures var n := |calls| - 1;
            var c := calls[n];
            && Entries(Asciinema, started, calls) == Entries(Asciinema, started, calls[..n]) + Entry(Asciinema, started, c)
            && Complete(started, calls) == Complete(started, calls[..n])
                 + if c.first && c.second then [Frame(c.clock - started, c.direction, c.data)] else []
  {
    hide Entry;
  }

  // ---------------------------------------------------------------- the bytes of a script

  /** The transcript bytes in a file. */
  function Transcript(pieces: seq<Piece>): seq<byte> {
    if pieces == [] then []
    else
      var p := pieces[|pieces| - 1];
      Transcript(pieces[..|pieces| - 1]) + if p.Data? then p.data else []
  }

  /** The bytes of the calls whose write succeeded, input and output alike, in order. */
  function Sent(calls: seq<Call>): seq<byte> {
    if calls == [] then []
    else
      var c := calls[|calls| - 1];
      Sent(calls[..|calls| - 1]) + if c.Write? && c.first then c.data else []
  }

  lemma TranscriptAppend(pieces: seq<Piece>, p: Piece)
    ensures Transcript(pieces + [p]) == Transcript(pieces) + if p.Data? then p.data else []
  {
    assert (pieces + [p])[..|pieces|] == pieces;
  }

  lemma {:induction false} EntriesAreSent(started: int, header: Piece, calls: seq<Call>)
    requires !header.Data? && forall c | c in calls :: c.Write?
    ensures Transcript([header] + Entries(Script, started, calls)) == Sent(calls)
  {
    if calls == [] {
      assert [header] + [] == [] + [header];
      TranscriptAppend([], header);
    } else {
      hide Transcript;
      var n := |calls| - 1;
      EntriesAreSent(started, header, calls[..n]);
      var before, last := [header] + Entries(Script, started, calls[..n]), Put(Data(calls[n].data), calls[n].first);
      assert [header] + Entries(Script, started, calls) == before + [last];
      TranscriptAppend(before, last);
    }
  }

  /** A script file holds the bytes of the calls before the first Close whose write succeeded, in order. */
  lemma ScriptHoldsBytes(started: int, header: bool, calls: seq<Call>)
    ensures Transcript(Run(Script, started, Some(header), calls).pieces) == Sent(BeforeClose(calls))
  {
    hide Run, Entries, Transcript, Sent, BeforeClose;
    FileIsLog(Script, started, Some(header), calls);
    var open := BeforeClose(calls);
    EntriesAreSent(started, Put(Header, header), open);
    var pieces := [Put(Header, header)] + Entries(Script, started, open);
    assert pieces + [] == pieces && Sent(open) + [] == Sent(open);
    if IsClosed(calls) {
      TranscriptAppend(pieces, Put(Trailer, calls[|open|].first));
    }
  }

  /** A call on an open recorder reports an error exactly when a write of its own was torn, and what was
      in the file before stays. */
  lemma ErrorsAreReported(format: Format, started: int, s: State, c: Call)
    requires c.Write?
    ensures var (after, ok) := Effect(format, started, s, c);
            && s.pieces <= after.pieces && after.open == s.open && after.closes == s.closes
            && (ok <==> forall p | p in after.pieces[|s.pieces|..] :: !p.Torn?)
            && (s.open <==> after.pieces != s.pieces)
  {
    var entry := Entry(format, started, c);
    assert (s.pieces + entry)[|s.pieces|..] == entry;
    if !Succeeds(format, c) {
      assert entry[|entry| - 1].Torn? && entry[|entry| - 1] in entry;
    }
  }

  // ---------------------------------------------------------------- times

  /** The clock read under the mutex never goes back. */
  predicate ClockRuns(calls: seq<Call>) {
    forall i, j | 0 <= i < j < |calls| && calls[i].Write? && calls[j].Write? :: calls[i].clock <= calls[j].clock
  }

  predicate TimesRise(frames: seq<Piece>) {
    forall i, j | 0 <= i < j < |frames| && frames[i].Frame? && frames[j].Frame? :: frames[i].time <= frames[j].time
  }

  lemma {:induction false} CompleteTimes(started: int, calls: seq<Call>)
    requires (forall c | c in calls :: c.Write?) && ClockRuns(calls)
    ensures TimesRise(Complete(started, calls))
    ensures forall f | f in Complete(started, calls) :: f.Frame? && exists k :: 0 <= k < |calls| && f.time == calls[k].clock - started
  {
    if calls != [] {
      var n := |calls| - 1;
      CompleteTimes(started, calls[..n]);
      forall f | f in Complete(started, calls[..n])
        ensures f.Frame? && exists k :: 0 <= k < n && f.time == calls[k].clock - started
      {
        var k :| 0 <= k < n && f.time == calls[..n][k].clock - started;
        assert calls[k] == calls[..n][k];
      }
      assert calls[n].Write?;
    }
  }

  /** The times of the frames in the file never go down. */
  lemma FrameTimesRise(started: int, header: bool, calls: seq<Call>)
    requires ClockRuns(calls)
    ensures TimesRise(Frames(Run(Asciinema, started, Some(header), calls).pieces))
  {
    hide Frames, Complete, Run;
    FileReadsBack(started, header, calls);
    assert forall i | 0 <= i < |BeforeClose(calls)| :: BeforeClose(calls)[i] == calls[i];
    CompleteTimes(started, BeforeClose(calls));
  }
}
