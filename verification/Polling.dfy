/** The timed polling loop of the device flow (RFC 8628, sections 3.4 and 3.5). Times are nanoseconds. */
module Polling {
  import opened Text
  import opened Identity

  const SECOND := 1_000_000_000
  const MAX_DURATION := 0x7FFF_FFFF_FFFF_FFFF

  type Duration = d: int | -0x8000_0000_0000_0000 <= d <= 0x7FFF_FFFF_FFFF_FFFF

  /** Go's wrap-around of a 64-bit signed result. */
  function Wrapped(x: int): Duration {
    var r := x % 0x1_0000_0000_0000_0000;
    if r <= MAX_DURATION then r else r - 0x1_0000_0000_0000_0000
  }

  lemma WrappedFixes(d: int)
    ensures Wrapped(d) == d <==> -0x8000_0000_0000_0000 <= d <= MAX_DURATION
  {
  }

  // ---------------------------------------------------------------- what a poll can meet

  /** A classified answer of the token endpoint; a success carries the identities of its two tokens. */
  datatype Answer =
    | Success(idToken: Identity, accessToken: Identity)
    | Undecodable
    | Pending
    | SlowDown
    | Expired
    | Refused
    | Unreachable

  /** One turn of the loop as the environment decides it: how late the goroutine wakes, which of two
      ready cases the select takes, how long the request takes and how it ends. */
  datatype Tick = Tick(late: nat, prefersDone: bool, latency: nat, answer: Answer)

  /** identityFromTokenResponse */
  function TokenIdentity(idToken: Identity, accessToken: Identity): Identity {
    if BestIdentifier(idToken) != "" then idToken else accessToken
  }

  /** The identity has an identifier exactly when one of the two tokens has. */
  lemma TokenIdentifier(idToken: Identity, accessToken: Identity)
    ensures BestIdentifier(TokenIdentity(idToken, accessToken)) != "" <==>
              BestIdentifier(idToken) != "" || BestIdentifier(accessToken) != ""
  {
    hide BestIdentifier;
  }

  datatype Outcome = Waiting | TimedOut | Failed | Confirmed(identity: Identity)

  /** One request: how long the loop had decided to wait, when it was sent, and its answer. */
  datatype Poll = Poll(wait: Duration, start: int, answer: Answer)

  datatype State = State(now: int, wait: Duration, polls: seq<Poll>, outcome: Outcome)

  function SlowDownWait(interval: Duration): Duration { Wrapped(interval + 5 * SECOND) }

  function Max(a: int, b: int): int { if a >= b then a else b }

  function Min(a: int, b: int): int { if a <= b then a else b }

  /** When the timer of the current wait fires. */
  function Due(s: State): int { s.now + Max(s.wait, 0) }

  /** When the select returns: once the timer or the deadline is due, or later. */
  function Wakes(s: State, deadline: int, tick: Tick): int {
    Min(Due(s), Max(s.now, deadline)) + tick.late
  }

  function Answered(s: State, interval: Duration, answer: Answer): State {
    match answer
    case Success(idToken, accessToken) => s.(outcome := Confirmed(TokenIdentity(idToken, accessToken)))
    case Pending => s.(wait := interval)
    case SlowDown => s.(wait := SlowDownWait(interval))
    case _ => s.(outcome := Failed)
  }

  /** One turn of the loop; a request started at the deadline or later is never answered. */
  function Turn(s: State, interval: Duration, deadline: int, tick: Tick): State {
    if s.outcome != Waiting then s
    else
      var wake := Wakes(s, deadline, tick);
      if wake < Due(s) || (wake >= deadline && tick.prefersDone) then s.(now := wake, outcome := TimedOut)
      else if wake >= deadline then s.(now := wake, outcome := Failed)
      else
        Answered(s.(now := wake + tick.latency, polls := s.polls + [Poll(s.wait, wake, tick.answer)]), interval, tick.answer)
  }

  /** pollForToken started at a time and given some turns. */
  function Run(interval: Duration, start: int, deadline: int, ticks: seq<Tick>): State {
    if ticks == [] then State(start, interval, [], Waiting)
    else Turn(Run(interval, start, deadline, ticks[..|ticks| - 1]), interval, deadline, ticks[|ticks| - 1])
  }

  lemma {:induction false} Settled(interval: Duration, start: int, deadline: int, ticks: seq<Tick>, n: nat)
    requires n <= |ticks| && Run(interval, start, deadline, ticks[..n]).outcome != Waiting
    ensures Run(interval, start, deadline, ticks) == Run(interval, start, deadline, ticks[..n])
  {
    if n == |ticks| {
      assert ticks[..n] == ticks;
    } else {
      var m := |ticks| - 1;
      assert ticks[..m][..n] == ticks[..n];
      Settled(interval, start, deadline, ticks[..m], n);
    }
  }

  lemma OneMoreTurn(interval: Duration, start: int, deadline: int, ticks: seq<Tick>, i: nat)
    requires i < |ticks|
    ensures Run(interval, start, deadline, ticks[..i + 1])
              == Turn(Run(interval, start, deadline, ticks[..i]), interval, deadline, ticks[i])
  {
    hide Turn;
    assert ticks[..i + 1][..i] == ticks[..i];
  }

  /** pollForToken, against an environment that decides the turns. */
  method PollForToken(interval: Duration, start: int, deadline: int, ticks: seq<Tick>) returns (polls: seq<Poll>, outcome: Outcome)
    ensures polls == Run(interval, start, deadline, ticks).polls && outcome == Run(interval, start, deadline, ticks).outcome
  {
    hide TokenIdentity;
    var wait, now := interval, start;
    polls, outcome := [], Waiting;
    var i := 0;
    while i < |ticks|
      invariant i <= |ticks|
      invariant outcome == Waiting
      invariant State(now, wait, polls, outcome) == Run(interval, start, deadline, ticks[..i])
    {
      var tick := ticks[i];
      OneMoreTurn(interval, start, deadline, ticks, i);
      i := i + 1;
      var due := now + Max(wait, 0);
      now := Min(due, Max(now, deadline)) + tick.late;
      if now < due || (now >= deadline && tick.prefersDone) {
        Settled(interval, start, deadline, ticks, i);
        return polls, TimedOut;
      }
      if now >= deadline {
        Settled(interval, start, deadline, ticks, i);
        return polls, Failed;
      }
      polls := polls + [Poll(wait, now, tick.answer)];
      now := now + tick.latency;
      if tick.answer.Success? {
        Settled(interval, start, deadline, ticks, i);
        return polls, Confirmed(TokenIdentity(tick.answer.idToken, tick.answer.accessToken));
      } else if tick.answer.Pending? {
        wait := interval;
      } else if tick.answer.SlowDown? {
        wait := SlowDownWait(interval);
      } else {
        Settled(interval, start, deadline, ticks, i);
        return polls, Failed;
      }
    }
    assert ticks[..i] == ticks;
  }

  // ---------------------------------------------------------------- what a run looks like

  predicate GoesOn(a: Answer) { a == Pending || a == SlowDown }

  /** The wait chosen after an answer. */
  function WaitAfter(interval: Duration, a: Answer): Duration {
    if a == SlowDown then SlowDownWait(interval) else interval
  }

  /** The k-th request was sent before the deadline, not sooner after the one before it than the wait,
      and the wait depends on the answer just before it alone. */
  predicate PollHolds(interval: Duration, start: int, deadline: int, polls: seq<Poll>, k: nat)
    requires k < |polls|
  {
    var before := if k == 0 then start else polls[k - 1].start;
    && polls[k].wait == (if k == 0 then interval else WaitAfter(interval, polls[k - 1].answer))
    && before + Max(polls[k].wait, 0) <= polls[k].start < deadline
    && (k + 1 < |polls| ==> GoesOn(polls[k].answer))
  }

  /** How a run ended fits the answer of its last request. */
  ghost predicate EndFits(interval: Duration, start: int, ticks: nat, s: State) {
    var n := |s.polls|;
    && n <= ticks
    && (s.outcome == Waiting ==>
          && n == ticks
          && s.wait == (if n == 0 then interval else WaitAfter(interval, s.polls[n - 1].answer))
          && s.now >= (if n == 0 then start else s.polls[n - 1].start))
    && (s.outcome == Waiting || s.outcome == TimedOut ==> n > 0 ==> GoesOn(s.polls[n - 1].answer))
    && (forall i :: s.outcome == Confirmed(i) <==>
          n > 0 && s.polls[n - 1].answer.Success?
          && i == TokenIdentity(s.polls[n - 1].answer.idToken, s.polls[n - 1].answer.accessToken))
  }

  ghost predicate Shaped(interval: Duration, start: int, deadline: int, ticks: nat, s: State) {
    && (forall k | 0 <= k < |s.polls| :: PollHolds(interval, start, deadline, s.polls, k))
    && EndFits(interval, start, ticks, s)
  }

  lemma TurnKeepsShape(interval: Duration, start: int, deadline: int, ticks: nat, s: State, tick: Tick)
    requires Shaped(interval, start, deadline, ticks, s)
    ensures Shaped(interval, start, deadline, ticks + 1, Turn(s, interval, deadline, tick))
  {
    hide TokenIdentity, SlowDownWait;
    var t := Turn(s, interval, deadline, tick);
    forall k | 0 <= k < |t.polls| ensures PollHolds(interval, start, deadline, t.polls, k) {
      if k < |s.polls| {
        assert PollHolds(interval, start, deadline, s.polls, k);
      }
    }
  }

  lemma {:induction false} RunIsShaped(interval: Duration, start: int, deadline: int, ticks: seq<Tick>)
    ensures Shaped(interval, start, deadline, |ticks|, Run(interval, start, deadline, ticks))
  {
    hide Shaped, Turn;
    if ticks == [] {
      NothingIsShaped(interval, start, deadline);
    } else {
      var n := |ticks| - 1;
      RunIsShaped(interval, start, deadline, ticks[..n]);
      TurnKeepsShape(interval, start, deadline, n, Run(interval, start, deadline, ticks[..n]), ticks[n]);
    }
  }

  lemma NothingIsShaped(interval: Duration, start: int, deadline: int)
    ensures Shaped(interval, start, deadline, 0, State(start, interval, [], Waiting))
  {
  }

  /** An identity comes only from a successful answer, and only pending or slow_down answers came
      before it; whatever the outcome, no request follows any other answer. */
  lemma ConfirmedOnlyBySuccess(interval: Duration, start: int, deadline: int, ticks: seq<Tick>)
    ensures var s := Run(interval, start, deadline, ticks);
            && (forall i :: s.outcome == Confirmed(i) <==>
                  && s.polls != [] && s.polls[|s.polls| - 1].answer.Success?
                  && i == TokenIdentity(s.polls[|s.polls| - 1].answer.idToken, s.polls[|s.polls| - 1].answer.accessToken))
            && forall k | 0 <= k < |s.polls| - 1 :: GoesOn(s.polls[k].answer)
  {
    hide Run, TokenIdentity;
    RunIsShaped(interval, start, deadline, ticks);
    var s := Run(interval, start, deadline, ticks);
    forall k | 0 <= k < |s.polls| - 1 ensures GoesOn(s.polls[k].answer) {
      assert PollHolds(interval, start, deadline, s.polls, k);
    }
  }

  // ---------------------------------------------------------------- the run as a timetable

  /** The k-th wait: the interval, or five seconds more after a slow_down answer. */
  function WaitBefore(interval: Duration, ticks: seq<Tick>, k: nat): Duration
    requires k <= |ticks|
  {
    if k > 0 && ticks[k - 1].answer == SlowDown then Wrapped(interval + 5 * SECOND) else interval
  }

  /** When the k-th wait begins: polling starts, or the answer before it arrives. */
  function WaitBegins(interval: Duration, start: int, ticks: seq<Tick>, k: nat): int
    requires k <= |ticks|
    decreases k, 0
  {
    if k == 0 then start else WakeTime(interval, start, ticks, k - 1) + ticks[k - 1].latency
  }

  /** When the k-th request is due, on a timetable without a deadline. */
  function WakeTime(interval: Duration, start: int, ticks: seq<Tick>, k: nat): int
    requires k < |ticks|
    decreases k, 1
  {
    WaitBegins(interval, start, ticks, k) + Max(WaitBefore(interval, ticks, k), 0) + ticks[k].late
  }

  /** The first n requests are due before the deadline and answered with pending or slow_down. */
  predicate GoesOnFor(interval: Duration, start: int, deadline: int, ticks: seq<Tick>, n: nat)
    requires n <= |ticks|
  {
    forall k | 0 <= k < n ::
      WakeTime(interval, start, ticks, k) < deadline && (ticks[k].answer == Pending || ticks[k].answer == SlowDown)
  }

  lemma {:induction false} TimetablePrefix(interval: Duration, start: int, ticks: seq<Tick>, n: nat, k: nat)
    requires k < n <= |ticks|
    ensures WakeTime(interval, start, ticks[..n], k) == WakeTime(interval, start, ticks, k)
  {
    if k > 0 {
      TimetablePrefix(interval, start, ticks, n, k - 1);
    }
  }

  /** A turn sends its request exactly when the timer, fired as late as it may be, beats the deadline. */
  lemma TurnOnTime(s: State, interval: Duration, deadline: int, tick: Tick)
    requires s.outcome == Waiting
    ensures var t, wake := Turn(s, interval, deadline, tick), Due(s) + tick.late;
            if wake < deadline then
              t == Answered(s.(now := wake + tick.latency, polls := s.polls + [Poll(s.wait, wake, tick.answer)]), interval, tick.answer)
            else
              && t.polls == s.polls
              && (t.outcome == TimedOut || t.outcome == Failed)
              && (tick.prefersDone ==> t.outcome == TimedOut)
  {
    hide Answered;
  }

  lemma AnsweredGoesOn(s: State, interval: Duration, a: Answer)
    requires s.outcome == Waiting && (a == Pending || a == SlowDown)
    ensures Answered(s, interval, a) == s.(wait := if a == SlowDown then Wrapped(interval + 5 * SECOND) else interval)
  {
    hide Wrapped;
  }

  lemma PrefixTimes(interval: Duration, start: int, ticks: seq<Tick>, n: nat)
    requires n <= |ticks|
    ensures forall k | 0 <= k < n :: WakeTime(interval, start, ticks[..n], k) == WakeTime(interval, start, ticks, k)
    ensures forall k | 0 <= k <= n :: WaitBefore(interval, ticks[..n], k) == WaitBefore(interval, ticks, k)
    ensures WaitBegins(interval, start, ticks[..n], n) == WaitBegins(interval, start, ticks, n)
  {
    hide WakeTime, Wrapped;
    forall k | 0 <= k < n ensures WakeTime(interval, start, ticks[..n], k) == WakeTime(interval, start, ticks, k) {
      TimetablePrefix(interval, start, ticks, n, k);
    }
  }

  lemma GoesOnPrefix(interval: Duration, start: int, deadline: int, ticks: seq<Tick>, n: nat)
    requires n <= |ticks| && GoesOnFor(interval, start, deadline, ticks, n)
    ensures GoesOnFor(interval, start, deadline, ticks[..n], n)
  {
    hide WakeTime;
    PrefixTimes(interval, start, ticks, n);
  }

  /** Progress: while requests are due before the deadline and answered with pending or slow_down, the
      loop sends each of them on the timetable and goes on waiting. */
  lemma {:induction false} KeepsPolling(interval: Duration, start: int, deadline: int, ticks: seq<Tick>)
    requires GoesOnFor(interval, start, deadline, ticks, |ticks|)
    ensures var s := Run(interval, start, deadline, ticks);
            && s.outcome == Waiting
            && s.wait == WaitBefore(interval, ticks, |ticks|) && s.now == WaitBegins(interval, start, ticks, |ticks|)
            && |s.polls| == |ticks|
            && forall k | 0 <= k < |ticks| ::
                 s.polls[k] == Poll(WaitBefore(interval, ticks, k), WakeTime(interval, start, ticks, k), ticks[k].answer)
  {
    hide Turn, Answered, Wrapped, WakeTime, WaitBegins, GoesOnFor;
    if ticks == [] {
      TimetableStarts(interval, start);
    } else {
      var n := |ticks| - 1;
      OneMoreOnTime(interval, start, deadline, ticks);
      KeepsPolling(interval, start, deadline, ticks[..n]);
      PrefixTimes(interval, start, ticks, n);
      var s := Run(interval, start, deadline, ticks[..n]);
      TurnOnTime(s, interval, deadline, ticks[n]);
      var wake := Due(s) + ticks[n].late;
      AnsweredGoesOn(s.(now := wake + ticks[n].latency, polls := s.polls + [Poll(s.wait, wake, ticks[n].answer)]), interval, ticks[n].answer);
    }
  }

  lemma TimetableStarts(interval: Duration, start: int)
    ensures WaitBegins(interval, start, [], 0) == start
  {
  }

  lemma OneMoreOnTime(interval: Duration, start: int, deadline: int, ticks: seq<Tick>)
    requires ticks != [] && GoesOnFor(interval, start, deadline, ticks, |ticks|)
    ensures var n := |ticks| - 1;
            && GoesOnFor(interval, start, deadline, ticks[..n], n)
            && WakeTime(interval, start, ticks, n) < deadline && (ticks[n].answer == Pending || ticks[n].answer == SlowDown)
            && WakeTime(interval, start, ticks, n)
                 == WaitBegins(interval, start, ticks, n) + Max(WaitBefore(interval, ticks, n), 0) + ticks[n].late
            && WaitBegins(interval, start, ticks, n + 1) == WakeTime(interval, start, ticks, n) + ticks[n].latency
  {
    hide Wrapped;
    var n := |ticks| - 1;
    GoesOnPrefix(interval, start, deadline, ticks, n);
  }

  /** The end: the first request that is not due before the deadline, or is answered otherwise, decides
      the outcome. A success gives the identity of the id token, or of the access token when the id
      token has no identifier; every other answer is a failure; past the deadline nothing is sent. */
  lemma StopsAt(interval: Duration, start: int, deadline: int, ticks: seq<Tick>, k: nat)
    requires k < |ticks| && GoesOnFor(interval, start, deadline, ticks, k) && !GoesOnFor(interval, start, deadline, ticks, k + 1)
    ensures var s := Run(interval, start, deadline, ticks);
            if WakeTime(interval, start, ticks, k) >= deadline then
              && |s.polls| == k
              && (s.outcome == TimedOut || s.outcome == Failed)
              && (ticks[k].prefersDone ==> s.outcome == TimedOut)
            else
              && |s.polls| == k + 1 && s.polls[k].answer == ticks[k].answer
              && s.outcome ==
                   match ticks[k].answer
                   case Success(idToken, accessToken) =>
                     Confirmed(if BestIdentifier(idToken) != "" then idToken else accessToken)
                   case _ => Failed
  {
    hide Run, Turn, Wrapped, BestIdentifier, WakeTime, WaitBegins;
    GoesOnPrefix(interval, start, deadline, ticks, k);
    KeepsPolling(interval, start, deadline, ticks[..k]);
    PrefixTimes(interval, start, ticks, k);
    WakeTimeIs(interval, start, ticks, k);
    OneMoreTurn(interval, start, deadline, ticks, k);
    TurnOnTime(Run(interval, start, deadline, ticks[..k]), interval, deadline, ticks[k]);
    Settled(interval, start, deadline, ticks, k + 1);
  }

  lemma WakeTimeIs(interval: Duration, start: int, ticks: seq<Tick>, k: nat)
    requires k < |ticks|
    ensures WakeTime(interval, start, ticks, k)
              == WaitBegins(interval, start, ticks, k) + Max(WaitBefore(interval, ticks, k), 0) + ticks[k].late
  {
    hide Wrapped;
  }

  /** A run fails for a reason only: an answer that is neither a success nor pending nor slow_down, or
      the deadline. */
  lemma WhyItFails(interval: Duration, start: int, deadline: int, ticks: seq<Tick>)
    requires Run(interval, start, deadline, ticks).outcome == Failed
    ensures exists k: nat :: k < |ticks| && GoesOnFor(interval, start, deadline, ticks, k)
              && (WakeTime(interval, start, ticks, k) >= deadline
                  || !(ticks[k].answer.Success? || ticks[k].answer == Pending || ticks[k].answer == SlowDown))
  {
    hide Run, WakeTime, GoesOnFor;
    if GoesOnFor(interval, start, deadline, ticks, |ticks|) {
      KeepsPolling(interval, start, deadline, ticks);
    } else {
      var k := FirstStop(interval, start, deadline, ticks, |ticks|);
      StopsAt(interval, start, deadline, ticks, k);
      StopMeans(interval, start, deadline, ticks, k);
    }
  }

  lemma StopMeans(interval: Duration, start: int, deadline: int, ticks: seq<Tick>, k: nat)
    requires k < |ticks| && GoesOnFor(interval, start, deadline, ticks, k) && !GoesOnFor(interval, start, deadline, ticks, k + 1)
    ensures WakeTime(interval, start, ticks, k) >= deadline || !(ticks[k].answer == Pending || ticks[k].answer == SlowDown)
  {
    hide WakeTime;
  }

  lemma {:induction false} FirstStop(interval: Duration, start: int, deadline: int, ticks: seq<Tick>, n: nat) returns (k: nat)
    requires n <= |ticks| && !GoesOnFor(interval, start, deadline, ticks, n)
    ensures k < n && GoesOnFor(interval, start, deadline, ticks, k) && !GoesOnFor(interval, start, deadline, ticks, k + 1)
  {
    hide WakeTime;
    if n > 0 && GoesOnFor(interval, start, deadline, ticks, n - 1) {
      k := n - 1;
    } else {
      assert n > 0;
      k := FirstStop(interval, start, deadline, ticks, n - 1);
    }
  }

  // ---------------------------------------------------------------- how fast it polls

  function SlowDowns(polls: seq<Poll>): nat {
    if polls == [] then 0
    else SlowDowns(polls[..|polls| - 1]) + if polls[|polls| - 1].answer == SlowDown then 1 else 0
  }

  /** The earliest time of the k-th request. */
  function Earliest(interval: Duration, start: int, polls: seq<Poll>, k: nat): int
    requires k < |polls|
  {
    start + (k + 1) * interval + 5 * SECOND * SlowDowns(polls[..k])
  }

  predicate OnTime(interval: Duration, start: int, polls: seq<Poll>) {
    forall k | 0 <= k < |polls| :: polls[k].start >= Earliest(interval, start, polls, k)
  }

  lemma NextSlowDown(polls: seq<Poll>, k: nat)
    requires 0 < k < |polls|
    ensures SlowDowns(polls[..k]) == SlowDowns(polls[..k - 1]) + if polls[k - 1].answer == SlowDown then 1 else 0
  {
    assert polls[..k][..k - 1] == polls[..k - 1];
  }

  /** The wait after slow_down exceeds the interval exactly when the sum does not wrap. */
  lemma SlowDownWaits(interval: Duration)
    ensures SlowDownWait(interval) == interval + 5 * SECOND <==> interval + 5 * SECOND <= MAX_DURATION
    ensures interval > 0 && interval + 5 * SECOND > MAX_DURATION ==> SlowDownWait(interval) < 0
  {
    WrappedFixes(interval + 5 * SECOND);
  }

  lemma {:induction false} PollIsOnTime(interval: Duration, start: int, deadline: int, polls: seq<Poll>, k: nat)
    requires k < |polls| && 0 < interval && interval + 5 * SECOND <= MAX_DURATION
    requires forall j | 0 <= j < |polls| :: PollHolds(interval, start, deadline, polls, j)
    ensures polls[k].start >= Earliest(interval, start, polls, k)
  {
    hide SlowDownWait, SlowDowns, GoesOn;
    assert PollHolds(interval, start, deadline, polls, k);
    if k == 0 {
      NoSlowDowns();
      assert polls[..0] == [];
    } else {
      PollIsOnTime(interval, start, deadline, polls, k - 1);
      NextSlowDown(polls, k);
      SlowDownWaits(interval);
      assert (k + 1) * interval == k * interval + interval;
    }
  }

  lemma NoSlowDowns()
    ensures SlowDowns([]) == 0
  {
  }

  /** The k-th request starts no earlier than k intervals, plus five seconds for every slow_down
      answer before it, after polling began. For a positive interval this holds of every run
      exactly when interval + 5s does not wrap around. */
  lemma TimelineIff(interval: Duration)
    requires interval > 0
    ensures (forall start: int, deadline: int, ticks: seq<Tick> ::
               OnTime(interval, start, Run(interval, start, deadline, ticks).polls))
            <==> interval + 5 * SECOND <= MAX_DURATION
  {
    hide OnTime, Run;
    if interval + 5 * SECOND <= MAX_DURATION {
      forall start: int, deadline: int, ticks: seq<Tick>
        ensures OnTime(interval, start, Run(interval, start, deadline, ticks).polls)
      {
        RunIsOnTime(interval, start, deadline, ticks);
      }
    } else {
      WrapPollsAtOnce(interval);
    }
  }

  lemma RunIsOnTime(interval: Duration, start: int, deadline: int, ticks: seq<Tick>)
    requires 0 < interval && interval + 5 * SECOND <= MAX_DURATION
    ensures OnTime(interval, start, Run(interval, start, deadline, ticks).polls)
  {
    hide Run, Earliest, PollHolds, EndFits;
    RunIsShaped(interval, start, deadline, ticks);
    var polls := Run(interval, start, deadline, ticks).polls;
    forall k | 0 <= k < |polls| ensures polls[k].start >= Earliest(interval, start, polls, k) {
      PollIsOnTime(interval, start, deadline, polls, k);
    }
  }

  /** With a wrapped wait the request after a slow_down answer follows at once. */
  lemma WrapPollsAtOnce(interval: Duration)
    requires interval > 0 && interval + 5 * SECOND > MAX_DURATION
    ensures exists deadline: int, ticks: seq<Tick> ::
              !OnTime(interval, 0, Run(interval, 0, deadline, ticks).polls) && !KeepsToBudget(interval, 0, deadline, ticks)
  {
    hide SlowDowns, SlowDownWait;
    var deadline := interval + 1;
    var slow := Tick(0, false, 0, SlowDown);
    SlowDownWaits(interval);
    assert [slow][..0] == [] && [slow, slow][..1] == [slow];
    var none, one := Run(interval, 0, deadline, []), Run(interval, 0, deadline, [slow]);
    assert none == State(0, interval, [], Waiting);
    assert one == Turn(none, interval, deadline, slow);
    assert one == State(interval, SlowDownWait(interval), [Poll(interval, interval, SlowDown)], Waiting);
    var two := Run(interval, 0, deadline, [slow, slow]);
    assert |two.polls| == 2 && two.polls[1].start == interval;
    assert two.polls[1].start < Earliest(interval, 0, two.polls, 1);
    assert !OnTime(interval, 0, Run(interval, 0, deadline, [slow, slow]).polls);
    assert !KeepsToBudget(interval, 0, deadline, [slow, slow]);
  }

  /** An environment that wakes the loop on time and answers at once. */
  predicate Prompt(ticks: seq<Tick>) { forall i | 0 <= i < |ticks| :: ticks[i].late == 0 && ticks[i].latency == 0 }

  lemma PromptTurn(interval: Duration, deadline: int, s: State, tick: Tick)
    requires tick.late == 0 && tick.latency == 0
    ensures var t := Turn(s, interval, deadline, tick);
            && (t.polls == s.polls || (s.outcome == Waiting && t.polls == s.polls + [Poll(s.wait, Due(s), tick.answer)]))
            && (t.outcome == Waiting ==> |t.polls| > 0 && t.now == t.polls[|t.polls| - 1].start)
  {
    hide TokenIdentity;
  }

  predicate ExactAt(start: int, polls: seq<Poll>, k: nat)
    requires k < |polls|
  {
    polls[k].start == (if k == 0 then start else polls[k - 1].start) + Max(polls[k].wait, 0)
  }

  /** Every request follows the one before it after exactly the wait. */
  predicate Exact(start: int, polls: seq<Poll>) { forall k | 0 <= k < |polls| :: ExactAt(start, polls, k) }

  lemma {:induction false} PromptIsExact(interval: Duration, start: int, deadline: int, ticks: seq<Tick>)
    requires Prompt(ticks)
    ensures var s := Run(interval, start, deadline, ticks);
            && Exact(start, s.polls)
            && (s.outcome == Waiting ==> s.now == if s.polls == [] then start else s.polls[|s.polls| - 1].start)
  {
    hide Turn;
    if ticks != [] {
      var n := |ticks| - 1;
      PromptIsExact(interval, start, deadline, ticks[..n]);
      var s, t := Run(interval, start, deadline, ticks[..n]), Run(interval, start, deadline, ticks);
      PromptTurn(interval, deadline, s, ticks[n]);
      if t.polls != s.polls {
        forall k | 0 <= k < |t.polls| ensures ExactAt(start, t.polls, k) {
          if k < |s.polls| {
            assert ExactAt(start, s.polls, k);
          }
        }
      }
    }
  }

  lemma {:induction false} ExactIsEarliest(interval: Duration, start: int, deadline: int, polls: seq<Poll>, k: nat)
    requires k < |polls| && 0 < interval && interval + 5 * SECOND <= MAX_DURATION
    requires Exact(start, polls) && forall j | 0 <= j < |polls| :: PollHolds(interval, start, deadline, polls, j)
    ensures polls[k].start == Earliest(interval, start, polls, k)
  {
    hide SlowDownWait, SlowDowns, GoesOn;
    assert PollHolds(interval, start, deadline, polls, k);
    assert ExactAt(start, polls, k);
    if k == 0 {
      NoSlowDowns();
      assert polls[..0] == [];
    } else {
      ExactIsEarliest(interval, start, deadline, polls, k - 1);
      NextSlowDown(polls, k);
      SlowDownWaits(interval);
      assert (k + 1) * interval == k * interval + interval;
    }
  }

  /** The bound is sharp: with a prompt environment every request starts exactly then, so a slow_down
      answer delays the next request by five seconds and leaves the later gaps as they were. */
  lemma BoundIsSharp(interval: Duration, start: int, deadline: int, ticks: seq<Tick>, k: nat)
    requires 0 < interval && interval + 5 * SECOND <= MAX_DURATION && Prompt(ticks)
    requires k < |Run(interval, start, deadline, ticks).polls|
    ensures var polls := Run(interval, start, deadline, ticks).polls; polls[k].start == Earliest(interval, start, polls, k)
  {
    hide Run, PollHolds, Earliest, Exact, EndFits;
    RunIsShaped(interval, start, deadline, ticks);
    PromptIsExact(interval, start, deadline, ticks);
    ExactIsEarliest(interval, start, deadline, Run(interval, start, deadline, ticks).polls, k);
  }

  /** RFC 8628, section 3.5: every slow_down answer lengthens all later waits by five seconds. */
  predicate KeepsSlowing(interval: Duration, polls: seq<Poll>) {
    forall k | 0 <= k < |polls| :: polls[k].wait >= interval + 5 * SECOND * SlowDowns(polls[..k])
  }

  /** The loop meets the RFC in exactly those runs where no slow_down answer is followed by two
      requests; when the wait wraps around, by none. */
  lemma KeepsSlowingIff(interval: Duration, start: int, deadline: int, ticks: seq<Tick>)
    requires 0 < interval
    ensures var polls := Run(interval, start, deadline, ticks).polls;
            var allowed := if interval + 5 * SECOND <= MAX_DURATION then 2 else 1;
            KeepsSlowing(interval, polls) <==> forall j | 0 <= j < |polls| - allowed :: polls[j].answer != SlowDown
  {
    hide Run, SlowDowns, SlowDownWait, EndFits;
    RunIsShaped(interval, start, deadline, ticks);
    var polls := Run(interval, start, deadline, ticks).polls;
    var allowed := if interval + 5 * SECOND <= MAX_DURATION then 2 else 1;
    SlowDownWaits(interval);
    if forall j | 0 <= j < |polls| - allowed :: polls[j].answer != SlowDown {
      forall k | 0 <= k < |polls| ensures polls[k].wait >= interval + 5 * SECOND * SlowDowns(polls[..k]) {
        assert PollHolds(interval, start, deadline, polls, k);
        if k == 0 {
          NoSlowDowns();
          assert polls[..0] == [];
        } else {
          NoneBefore(polls, k - 1);
          NextSlowDown(polls, k);
        }
      }
    } else {
      var j :| 0 <= j < |polls| - allowed && polls[j].answer == SlowDown;
      assert PollHolds(interval, start, deadline, polls, j + allowed);
      NextSlowDown(polls, j + 1);
      if allowed == 2 {
        NextSlowDown(polls, j + 2);
      }
      assert polls[j + allowed].wait < interval + 5 * SECOND * SlowDowns(polls[..j + allowed]);
    }
  }

  lemma {:induction false} NoneBefore(polls: seq<Poll>, k: nat)
    requires k <= |polls| && forall j | 0 <= j < k :: polls[j].answer != SlowDown
    ensures SlowDowns(polls[..k]) == 0
  {
    if k > 0 {
      NoneBefore(polls, k - 1);
      assert polls[..k][..k - 1] == polls[..k - 1];
    }
  }

  // ---------------------------------------------------------------- how long it polls

  /** Requests times the interval fit the remaining time, and once the turns taken would fill it the
      loop has returned. */
  predicate KeepsToBudget(interval: Duration, start: int, deadline: int, ticks: seq<Tick>) {
    var s := Run(interval, start, deadline, ticks);
    && (s.polls != [] ==> |s.polls| * interval < deadline - start)
    && (ticks != [] && |ticks| * interval >= deadline - start ==> s.outcome != Waiting)
  }

  lemma PollsAreBounded(interval: Duration, start: int, deadline: int, ticks: seq<Tick>)
    requires interval > 0 && interval + 5 * SECOND <= MAX_DURATION
    ensures KeepsToBudget(interval, start, deadline, ticks)
  {
    hide Run, SlowDowns, WaitAfter;
    RunIsShaped(interval, start, deadline, ticks);
    var polls := Run(interval, start, deadline, ticks).polls;
    if polls != [] {
      var k := |polls| - 1;
      PollIsOnTime(interval, start, deadline, polls, k);
      assert PollHolds(interval, start, deadline, polls, k);
    }
  }

  /** The loop keeps to its budget in every run exactly when interval + 5s does not wrap around. */
  lemma BudgetIff(interval: Duration)
    requires interval > 0
    ensures (forall start: int, deadline: int, ticks: seq<Tick> :: KeepsToBudget(interval, start, deadline, ticks))
            <==> interval + 5 * SECOND <= MAX_DURATION
  {
    hide KeepsToBudget, Run;
    if interval + 5 * SECOND <= MAX_DURATION {
      forall start: int, deadline: int, ticks: seq<Tick> ensures KeepsToBudget(interval, start, deadline, ticks) {
        PollsAreBounded(interval, start, deadline, ticks);
      }
    } else {
      WrapPollsAtOnce(interval);
    }
  }

  // ---------------------------------------------------------------- the device flow around it

  /** The durations of the SSO configuration that the loop depends on. */
  datatype Times = Times(authTimeout: Duration, pollInterval: Duration)

  const DEFAULT_AUTH_TIMEOUT := 120 * SECOND
  const DEFAULT_POLL_INTERVAL := 5 * SECOND

  /** The poll interval AuthenticateDeviceFlow hands to the loop, given the configured one and the
      seconds the server suggested. */
  function ChosenInterval(times: Times, suggested: Duration): Duration {
    var configured := if times.pollInterval <= 0 then DEFAULT_POLL_INTERVAL else times.pollInterval;
    if suggested > 0 && Wrapped(suggested * SECOND) > configured then Wrapped(suggested * SECOND) else configured
  }

  function Budget(times: Times): Duration {
    if times.authTimeout <= 0 then DEFAULT_AUTH_TIMEOUT else times.authTimeout
  }

  /** The choice is positive and no shorter than the configured interval, and it is no shorter than
      the server's suggestion exactly when that many seconds fit a duration. */
  lemma ChosenIntervalIsLongest(times: Times, suggested: Duration)
    ensures ChosenInterval(times, suggested) > 0
    ensures ChosenInterval(times, suggested) >= times.pollInterval
    ensures ChosenInterval(times, suggested) >= suggested * SECOND <==> suggested * SECOND <= MAX_DURATION
    ensures ChosenInterval(times, suggested) == times.pollInterval
              || ChosenInterval(times, suggested) == suggested * SECOND
              || (times.pollInterval <= 0 && ChosenInterval(times, suggested) == 5 * SECOND)
              || suggested * SECOND > MAX_DURATION
  {
    hide Wrapped;
    WrappedFixes(suggested * SECOND);
  }

  /** AuthenticateDeviceFlow begun at `begin`, whose two set-up requests took `setUp`. */
  function Flow(times: Times, begin: int, setUp: nat, suggested: Duration, ticks: seq<Tick>): State {
    Run(ChosenInterval(times, suggested), begin + setUp, begin + Budget(times), ticks)
  }

  /** For a flow whose intervals fit a duration: requests keep both intervals, fewer of them than
      budget / interval are sent, all before the budget is spent, and the flow ends. The budget is the
      configured timeout, or two minutes when that is not positive. */
  lemma FlowKeepsToBudget(times: Times, begin: int, setUp: nat, suggested: Duration, ticks: seq<Tick>)
    requires suggested * SECOND <= MAX_DURATION && ChosenInterval(times, suggested) + 5 * SECOND <= MAX_DURATION
    ensures var s := Flow(times, begin, setUp, suggested, ticks);
            var interval := ChosenInterval(times, suggested);
            var budget := if times.authTimeout > 0 then times.authTimeout else 120 * SECOND;
            && interval >= times.pollInterval && interval >= suggested * SECOND
            && OnTime(interval, begin + setUp, s.polls)
            && (s.polls != [] ==> |s.polls| * interval < budget)
            && (forall k | 0 <= k < |s.polls| :: s.polls[k].start < begin + budget)
            && (ticks != [] && |ticks| * interval >= budget ==> s.outcome != Waiting)
  {
    hide Run, OnTime, ChosenInterval, EndFits;
    var interval := ChosenInterval(times, suggested);
    ChosenIntervalIsLongest(times, suggested);
    RunIsOnTime(interval, begin + setUp, begin + Budget(times), ticks);
    PollsAreBounded(interval, begin + setUp, begin + Budget(times), ticks);
    RunIsShaped(interval, begin + setUp, begin + Budget(times), ticks);
    var polls := Flow(times, begin, setUp, suggested, ticks).polls;
    forall k | 0 <= k < |polls| ensures polls[k].start < begin + Budget(times) {
      assert PollHolds(interval, begin + setUp, begin + Budget(times), polls, k);
    }
  }
}
