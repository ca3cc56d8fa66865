# An SSH bastion proxy, modelled and verified

The proxy accepts SSH connections, optionally asks each user for an SSO confirmation through the OAuth
device flow, chooses a target host, dials it, and relays one shell or command per channel while recording
it. This project models that behaviour in Dafny and proves what every run of it keeps.
`dafny verify dfyconfig.toml` checks the whole project.

## How it is laid out

| file | what it models |
|---|---|
| `Text.dfy` | Go's string helpers on strings seen as runes |
| `Address.dfy` | the `[user@]host[:port]` language: parser, printer, safety predicates, IP literals |
| `Modular.dfy`, `Routing.dfy` | routing modes, the ticket rotation, candidate resolution |
| `Wire.dfy` | the byte layouts of channel requests and their decoders |
| `Session.dfy` | env requests and the failover dial loop, on the session state object |
| `Channel.dfy` | the request loop of one channel |
| `Config.dfy` | configuration validation and loading, on the configuration object |
| `Identity.dfy` | SSO identities and how they are matched to the SSH user |
| `Steps.dfy` | one session goroutine as a program counter and atomic steps |
| `Proxy.dfy`, `ProxySafety.dfy` | all connections, channels and session goroutines interleaved; what every run keeps |
| `Handles.dfy` | whose handle a field of the shared state is, and whose recorder a copy loop holds |
| `Outcomes.dfy` | how a session ends, and that it does; its candidates; no needless confirmation |
| `Requests.dfy` | replies, starts and env requests in the interleaved system |
| `Failover.dfy` | the dialling of every session goroutine as a run of the failover loop |
| `TwoSessions.dfy` | runs in which two sessions of one connection get in each other's way |
| `Counting.dfy` | how many elements of a sequence have a property |
| `ClientCache.dfy` | the double-checked HTTP client cache under any number of callers |
| `Polling.dfy` | the timed token polling loop and the device flow around it |
| `Recorder.dfy` | the two recorders and their files as append logs |
| `Relay.dfy` | the relay loops of `BidiProxy` and of the server's copy helpers, sharing one recorder |
| `RecordingName.dfy` | recording file names |

Sequential code that updates an object is a class whose methods are proved against a specification function;
concurrent code is a step system whose events are the atomic accesses to shared state (each locked accessor,
each metric update, each library call), and the theorems quantify over every sequence of enabled events.

## What the code does differently from what one may expect

- The device flow forgets `slow_down`: only the next wait is longer. Section 3.5 of RFC 8628 makes the increase
  permanent. `Polling.KeepsSlowingIff` says exactly which runs meet the RFC.
- `interval + 5s` and the server-suggested interval wrap around as 64-bit durations. `Polling.TimelineIff`,
  `Polling.BudgetIff` and `Polling.ChosenIntervalIsLongest` say exactly when that does no harm.
- An env request is replied to by its handler and again by the request loop (`Channel.RepliesAreCounted`).
- A blank SSH user is matched as the name "unknown", so an SSO identity named "unknown" is accepted for it
  (`ProxySafety.AcceptedMatchesUserIff`).
- The round-robin ticket becomes negative from 2^63 on and the slice expression then panics, unless the ticket is
  a whole number of rounds short of 2^64 (`Routing.OrderDefinedIff`, `ProxySafety.CrashedIff`).
- An env payload of 4 GiB or more can make the decoder panic, and a shorter one cannot (`Wire.DecodeEnvTotalIff`);
  the same holds of exec payloads.
- After a remote session that ends in an error the exit status is sent a second time, on a channel that is already
  closed; the SSH library drops sends after a close, so `ProxySafety.ChannelRunsAreSafe` speaks of what comes
  before the first close.
- The address parser also accepts a bracket that is never closed (`[host`), as `Address.AcceptedLanguage` states.
- With several sessions on one connection the handle fields of the shared state follow the last session to take or
  leave them, so a session's clean-up can clear another one's handle (`TwoSessions.CleanUpHitsTheOtherSession`), and a
  copy loop can record into another session's file (`TwoSessions.RecordsIntoTheOtherFile`).
  `ProxySafety.SharedHandlesAreLive` holds regardless; `Handles.HandleFoundIff` and `Handles.CaptureIsOwnIff` say exactly
  when a session finds its own handle and when its copy loops hold its own recorder. Sessions that do not overlap always do.
- `BidiProxy` ignores recorder errors. `Relay.PrefixIff` says for which outcomes of the recorder's writes the recording is
  still a prefix of the stream in every run: those in which no write succeeds after one that did not.

## Model

| member | source | states |
|---|---|---|
| ProxySafety.InvariantAlways | internal/server/server.go:109-583 | every world reachable by any interleaving of connections, channels, requests and session goroutines satisfies all invariants together |
| ProxySafety.NoDialWithoutConfirmation | internal/server/server.go:320-421 | with SSO on, a run that dials, holds a handle or runs copy loops has a verified connection on which some device flow succeeded; under enforced matching one of its claims is the SSH user name or an address at it, up to case and outer space, and it has an identifier |
| ProxySafety.VerifiedNeverLowered | internal/types/types.go:121-137 | once raised the verified flag stays raised over any further events |
| Outcomes.OffMeansUnasked | internal/server/server.go:370-373 | with SSO off no session is asked for a confirmation |
| Outcomes.OneConfirmationIsEnough | internal/server/server.go:370-373 | a session that passes the gate after its connection was verified is not asked again |
| ProxySafety.DirectCommandsNeverDial | internal/server/server.go:340-349 | with direct commands disabled an exec run never tries SSO, dials or opens anything; it is rejected with exit status 1 |
| ProxySafety.AcceptedMatchesUserIff | internal/server/server.go:375-411 | every identity the gate accepts matches the SSH user itself exactly when that user is not blank |
| ProxySafety.SharedHandlesAreLive | internal/server/server.go:488-532 | a handle in the shared state belongs to a run of that connection between its set and its clear that has not closed it; with no such run the fields are empty |
| ProxySafety.FinishedRunsCloseEverything | internal/server/server.go:488-532 | on every return path each handle opened was closed exactly once, in the order recorder, session, client |
| Handles.FieldIsLastTaker | internal/types/types.go:211-263 | in every reachable world a handle field names the last run of its connection to set or clear it, when that run set it, and nothing otherwise |
| Handles.HandleFoundIff | internal/server/server.go:488-532 | a field names a run exactly when the run is between its set and its clear and no other run of the connection has set or cleared the field since its set |
| Handles.SetsAndClears | internal/server/server.go:497-532 | the step that sets a field puts the run's own handle there, and the one that clears it empties it |
| Handles.SequentialSessionsFindTheirHandles | internal/server/server.go:488-532 | while the other sessions of the connection had left the field before a run took it, or have not opened the handle, the field names the run exactly between its set and its clear |
| Handles.OnlySessionFindsItsHandles | internal/server/server.go:488-532 | the same while no other run of the connection has opened the handle at all |
| Handles.CaptureIsOwnIff | internal/server/server.go:860-878 | the recorder a copy loop captured is its run's own exactly when, at the capture, the run had not cleared it and no other run of the connection had set or cleared the field since the run's set |
| Handles.SequentialSessionsRecordThemselves | internal/server/server.go:860-878 | copy loops of sessions that do not overlap hold their own recorder, or none if they started after it was cleared |
| Handles.OnlySessionRecordsItself | internal/server/server.go:860-878 | the same while no other run of the connection has opened a recorder |
| TwoSessions.CleanUpHitsTheOtherSession | internal/server/server.go:488-507 | two sessions on one connection can get to where one holds an open target client and the shared state has none, because the other one's clean-up cleared the field |
| ProxySafety.MetricsConserved | internal/metrics/metrics.go:97-159 | every gauge and counter equals the number of connections, runs or failed handshakes it stands for; attempts are successes plus failures plus those not yet recorded; errors trail failures only by runs between the two increments |
| ProxySafety.QuiescentMetrics | internal/server/server.go:320-421 | once all runs have returned nothing is pending, errors equal failures and the outcomes add up to the sessions started |
| ProxySafety.OneRunPerChannel | internal/server/server.go:248-278 | no channel ever has two session goroutines |
| ProxySafety.ChannelRunsAreSafe | internal/server/server.go:229-368 | the first events on a channel are one exit status, the write close and the close; the handler's own close comes last and only after its session goroutine returned |
| ProxySafety.FinishedRunsReportOnce | internal/server/server.go:825-858 | a returned run has sent one exit status, the write close and the close, first and in this order; success is counted exactly for those without an error |
| Outcomes.FinishedOutcome | internal/server/server.go:320-368 | of the returned sessions, one was rejected when it was a banned direct command, one succeeded when its remote session exited, with whatever status, and one failed when something named went wrong; the channel got the remote status, or 1 |
| Outcomes.OkIff | internal/server/server.go:320-583 | in every reachable world a session is failing exactly when it is banned or a confirmation, the candidates, all attempts, an opening or the remote session went wrong |
| Outcomes.EveryRunEnds | internal/server/server.go:320-583 | a session takes at most 35 steps and two per possible attempt, and can take one until it has returned, whatever the others do |
| Requests.ChannelFollowsRequests | internal/server/server.go:229-318 | under every interleaving a channel got exactly the replies due, and runs the first session requested |
| Requests.ChannelsCanEnd | internal/server/server.go:229-318 | while a channel is served its requests can end, and once they have and its session has returned the handler closes it |
| Requests.EnvIsHistory | internal/server/server.go:423-480 | under every interleaving a connection's variables are what its env requests, in the order of their effect, leave behind |
| Requests.TargetsArePending | internal/server/server.go:465-472 | each accepted request for the server variable leads to one store of a target that it spells |
| ProxySafety.TargetsAreSafe | internal/server/server.go:643-658 | every stored or dialled target is safe and its printed form splits back into it; a server variable is stored only with dynamic routing and when it resolves |
| ProxySafety.StoredServerIsDialled | internal/server/server.go:593-655 | a run that resolves while a server variable is stored gets that value as its one candidate and next dials what it resolves to, whatever happens to the shared state in between |
| TwoSessions.RecordsIntoTheOtherFile | internal/server/server.go:863-877 | two sessions on one connection can get to where the input copy loop of one holds the recorder of the other |
| ProxySafety.CrashedIff | internal/server/server.go:612-622 | the round robin has panicked exactly when a ticket past 2^63 that is not a whole number of rounds short of 2^64 was taken for a rotating list; so never within the first 2^63 tickets |
| Failover.RunsFailOver | internal/server/server.go:624-670 | under every interleaving the attempts of a session goroutine are a run of the failover loop: one that connected did so at its last attempt after all earlier ones failed, and one that gave up made all (retries+1)·n |
| Failover.FailoverAttempts | internal/server/server.go:612-670 | with static routing in failover mode attempt k is on configured server k mod n, and a first server never found down is the one connected |
| Failover.DialledTargetsAreSpelt | internal/server/server.go:643-659 | every dialled target is what one of the session's candidates spells for the SSH user |
| Failover.TargetIsStored | internal/server/server.go:491-655 | the state's target is the one being dialled, and again the one connected to |
| Outcomes.FailoverKeepsOrder | internal/server/server.go:612-619 | in failover mode a session's candidates are the configured servers in their order |
| Outcomes.DynamicRunsFollowTheVariable | internal/server/server.go:593-609 | with dynamic routing a session's one candidate is its connection's server variable at one moment, or what its command names when that was blank |
| ProxySafety.TicketsRotate | internal/server/server.go:612-622 | under every interleaving the t-th ticket holder, for t below 2^63, tries the rotation that starts at t |
| ProxySafety.FirstTriesBalanced | internal/server/server.go:612-622 | under every interleaving, while at most 2^63 tickets were taken for one list of different addresses, no address was tried first more than once more often than another |
| Steps.StepEffects | internal/server/server.go:320-583 | what one atomic step of a session goroutine can change, phase by phase |
| Steps.StepGateHolds | internal/server/server.go:370-421 | a step never lowers the verified flag, raises it only with an accepted identity, and never passes the gate unverified |
| Steps.StepMetrics | internal/server/server.go:320-421 | a step moves every metric by exactly the change in its own run's standing |
| Steps.StepSends | internal/server/server.go:825-858 | what a step sends is what the run's account of the channel grows by |
| Steps.StepTicket | internal/server/server.go:612-622 | a ticket is taken only at candidate resolution, and a step panics exactly when the rotation is undefined |
| Steps.StepHandles | internal/server/server.go:488-532 | a step keeps the acquire and release order and changes a handle field only by setting or clearing its own |
| Proxy.RunsHoldStep | internal/server/server.go:320-583 | a step of one run keeps what every run's place implies, and the verified flag |
| Proxy.HandlesStep | internal/server/server.go:488-532 | a step keeps every handle field owned by a live run of its connection |
| Proxy.MetricsStep | internal/server/server.go:320-421 | a step of a run keeps every connection and session metric equal to its count and leaves the handshake failures alone |
| Proxy.ChansStep | internal/server/server.go:229-318 | a step keeps every channel's output equal to its run's account, followed by the handler's close |
| Proxy.CapturesStep | internal/server/server.go:860-887 | a step keeps that copy loops belong to launched runs and captured recorders of their own connection |
| Proxy.RoutesOther | internal/server/server.go:447-480 | env requests and the delayed target store keep stored variables resolvable and targets safe |
| Address.AcceptedLanguage | internal/server/server.go:672-726 | the parser accepts exactly the spellings of safe targets (bare, with port, bracketed, half-bracketed, bare IPv6), each as the target it spells |
| Address.SplitOfFormat | internal/server/server.go:788-796 | splitting the printed form of any safe target, IPv6 included, gives the target back |
| Address.FormatIs | internal/server/server.go:788-796 | the printed form has brackets exactly around a host with colons |
| Address.ResolveIsStable | internal/server/server.go:728-741 | any accepted spelling resolves to a safe target whose printed form resolves to it again, for any session user |
| Address.ResolvesTo | internal/server/server.go:728-741 | resolving gives a target exactly when the address spells its host and port, and its user or none, in which case it is the trimmed session user and safe |
| Address.SafePortIff | internal/server/server.go:772-786 | a safe port is the decimal text of a number from 1 to 65535, leading zeros allowed |
| Address.AsciiNames | internal/server/server.go:743-770 | the characters of safe ASCII users and hosts |
| Address.IPShape | internal/server/server.go:756-770 | an accepted IP literal with a colon is an IPv6 one and has at least two, which is what keeps it apart from host:port |
| Address.SafeHostShape | internal/server/server.go:756-770 | a safe host has only characters that an address may contain, no bracket and no '@'; one with a colon is an IPv6 literal with at least two |
| Routing.ModeIsFixed | internal/server/server.go:62-80 | normalising a routing mode twice changes nothing; it is supported exactly for the five folded spellings, and so is its normal form |
| Routing.OrderDefinedIff | internal/server/server.go:612-622 | the rotation is defined exactly for tickets below 2^63 and for those a whole number of rounds short of 2^64 |
| Routing.RoundRobinOrder | internal/server/server.go:612-622 | each order is a permutation of the targets that starts at the ticket's turn |
| Routing.ConfiguredOrder | internal/server/server.go:612-619 | a list that does not rotate (one server, or no spelling of round robin) keeps the configured order |
| Routing.EachPositionOnce | internal/server/server.go:612-622 | of any n consecutive tickets exactly one puts a given target in a given position |
| Routing.FirstPlacesClosedForm | internal/server/server.go:612-622 | how often each target came first after any number of tickets |
| Routing.FirstPlacesBalanced | internal/server/server.go:612-622 | first-place counts of two targets never differ by more than one |
| Routing.StaticCandidates | internal/server/server.go:585-592 | with validated static routing candidate resolution never errors and returns all configured targets, all parsing |
| Routing.FailoverCandidates | internal/server/server.go:585-592 | in failover mode the candidates are the configured servers in their order |
| Routing.DynamicCandidates | internal/server/server.go:593-609 | with dynamic routing the one candidate is the trimmed server variable, or what a non-blank command names when that is blank, and it must spell a target; nothing else resolves |
| Routing.CandidatesAreValid | internal/server/server.go:585-610 | whatever candidate resolution returns is non-empty and parses |
| Routing.StoredVariableIsCandidate | internal/server/server.go:593-609 | a stored server variable that parses is the one candidate, as stored |
| Wire.DecodeEnvInverts | internal/server/server.go:423-445 | the decoder answers a pair exactly when the payload starts with its encoding, without panicking |
| Wire.DecodeEnvTotalIff | internal/server/server.go:428-445 | no payload of a length panics exactly when the length is below 4 GiB |
| Wire.DecodeCommandInverts | internal/server/server.go:266-271 | a non-empty command comes out exactly when the payload starts with its encoding |
| Wire.DecodeCommandTotalIff | internal/server/server.go:266-271 | the same panic bound for exec payloads |
| Wire.DecodePtyInverts | internal/server/server.go:809-823 | TERM, columns and rows come out exactly as encoded, whatever bytes follow |
| Wire.DecodeWindowInverts | internal/server/server.go:932-937 | a window-change gives its encoded size, and a short payload keeps the old one |
| Session.EnvHistory | internal/server/server.go:423-480 | after any env requests each variable holds its last acceptable value; a stored server variable resolves to the stored target; with static routing it is never stored |
| Session.StoresIff | internal/server/server.go:447-480 | an ordinary variable is always acceptable, the server variable with dynamic routing when its value spells a target |
| Session.OrdinaryVariables | internal/server/server.go:477-480 | an ordinary variable holds the last value requested |
| Session.EnvTargetIsDialled | internal/server/server.go:593-609 | what was stored at env time is the candidate and the target resolved at dial time |
| Session.SessionState.HandleEnvRequest | internal/server/server.go:423-480 | from payload bytes to the new variables, target and reply |
| Session.SessionState.TryTarget | internal/server/server.go:643-665 | one attempt: bad addresses are skipped without dialling, a resolved target is stored before the dial |
| Session.SessionState.ConnectToFirstAvailableTarget | internal/server/server.go:624-670 | the loop returns the first success in (round, index) order, or an error counting one failure for each of the (retries+1)·n attempts; the stored target is the last one resolved |
| Session.ValidAddressesAreDialled | internal/server/server.go:643-652 | with valid addresses and a safe session user no attempt fails before dialling |
| Session.ReachableTargetConnects | internal/server/server.go:624-670 | a target that always answers is reached in the first round |
| Session.StaticRoutingConnects | internal/server/server.go:585-670 | from validated static routing and one reachable target to a connection within n attempts, whatever the ticket |
| Session.DynamicRoutingConnects | internal/server/server.go:585-670 | from a stored reachable server variable to a connection to that target at the first attempt |
| Channel.HandleChannel | internal/server/server.go:229-318 | the request loop is the fold of single requests; the stored terminal size is the loop's own |
| Channel.FirstStartWins | internal/server/server.go:248-278 | a start request is accepted exactly when it is the first one; the channel runs it, and all later ones are refused |
| Channel.RepliesAreCounted | internal/server/server.go:237-313 | no packet below 4 GiB crashes the loop, and answers add up: two for env, none for an unknown request without want-reply, one otherwise |
| Channel.RequestsAreAnswered | internal/server/server.go:229-313 | each request is answered as its bytes on the wire deserve: a start by being the first, env by encoding an acceptable pair, pty-req by encoding a terminal |
| Channel.RoutesAreHistory | internal/server/server.go:239-241 | the loop leaves the routes that its decoded env requests leave, in order |
| Channel.PtySticks | internal/server/server.go:280-295 | an encoded terminal decides TERM and size until the next pty-req or window-change |
| Channel.WindowSticks | internal/server/server.go:291-295 | an encoded window size decides the size until the next one |
| Config.ValidatedIff | internal/appconfig/config.go:138-225 | validation accepts exactly the configurations that meet the listed conditions as written |
| Config.FirstProblemIsReported | internal/appconfig/config.go:138-225 | a rejected configuration is reported with the first of its problems, in the order listed |
| Config.ValidatedGuarantees | internal/appconfig/config.go:138-225 | what the router and the SSO client rely on: trimmed parsing servers, at least one for static routing, a fixed-point mode, counts and times in range |
| Config.ValidatedIs | internal/appconfig/config.go:138-225 | setting by setting: everything is kept, and only what is blank or not positive gets its default |
| Config.ValidateIdempotent | internal/appconfig/config.go:138-225 | validating a validated configuration accepts it unchanged |
| Config.ValidatedServersSpec | internal/appconfig/config.go:210-219 | the server loop trims the servers before the first bad one and no other, and reports that one with its index and error; without one it succeeds |
| Config.LoadIsStable | internal/appconfig/config.go:107-135 | a loaded configuration loads again to itself: fallbacks and normalisation are done once |
| Config.LoadedIs | internal/appconfig/config.go:107-135 | the legacy values apply exactly to absent keys when positive; all else is kept or filled in |
| Config.Config.Validate | internal/appconfig/config.go:138-225 | the field-by-field method is validation as specified, error and partial updates included |
| Config.Config.ValidateRouting | internal/appconfig/config.go:206-222 | the in-place loop over the servers is the specified one |
| Config.Config.ApplyLegacyRoutingFallbacks | internal/appconfig/config.go:227-234 | fallbacks apply exactly to absent keys with positive legacy values |
| Config.Config.Load | internal/appconfig/config.go:107-135 | normalise, fall back, validate, in this order |
| Identity.MatchHasIdentifier | internal/sso/sso.go:50-79 | an identity that matches anyone has an identifier, and matches no blank user |
| Identity.MatchesIff | internal/sso/sso.go:59-79 | an identity matches exactly when the user is not blank and one of its claims, folded, is the folded user or an address at it |
| Identity.BestIdentifierIs | internal/sso/sso.go:50-57 | the identifier is the first claim that is not blank |
| ClientCache.KeyInjective | internal/sso/sso.go:206-207 | two configurations share a cache key exactly when they are equal |
| ClientCache.InterleavingIsSerial | internal/sso/sso.go:206-233 | in every interleaving the calls return what the same calls would return one by one, in the order of their decisions, and leave the same map |
| ClientCache.ReturnedClients | internal/sso/sso.go:206-233 | returned clients are equal exactly for equal configurations, and have the configured TLS mode and the effective timeout |
| ClientCache.OneClientPerKey | internal/sso/sso.go:213-232 | apart from one about to be stored there are as many clients as keys |
| ClientCache.SomeoneCanMove | internal/sso/sso.go:213-214 | while a call has not returned, some call can take a step |
| ClientCache.EveryStepAdvances | internal/sso/sso.go:206-233 | every step of a call brings it nearer to its return and leaves the others alone |
| ClientCache.ReplayHolds | internal/sso/sso.go:206-233 | one by one: the cache holds exactly the configurations asked for, each with its own fresh-equivalent client |
| ClientCache.ReplayKeeps | internal/sso/sso.go:206-233 | a stored client is never replaced |
| ClientCache.Store.HttpClientFor | internal/sso/sso.go:206-233 | the undisturbed method does what the specification says to map and clients |
| Polling.PollForToken | internal/sso/sso.go:304-363 | the loop sends the requests and ends as specified, for every environment |
| Polling.KeepsPolling | internal/sso/sso.go:304-352 | while requests are due before the deadline and answered with pending or slow_down, each is sent on the timetable and the loop waits on |
| Polling.StopsAt | internal/sso/sso.go:304-362 | the first request past the deadline or answered otherwise decides the outcome: the id token's identity, or the access token's, for a success, and an error for anything else |
| Polling.WhyItFails | internal/sso/sso.go:304-362 | a run fails only for such an answer or the deadline |
| Polling.TimelineIff | internal/sso/sso.go:304-355 | request k starts no earlier than k intervals plus 5s per earlier slow_down in every run, exactly when interval + 5s does not wrap |
| Polling.BoundIsSharp | internal/sso/sso.go:304-355 | in a prompt environment every request starts exactly then |
| Polling.KeepsSlowingIff | internal/sso/sso.go:349-355 | a run meets section 3.5 of RFC 8628 exactly when no slow_down answer has two later requests, or one when interval + 5s wraps |
| Polling.BudgetIff | internal/sso/sso.go:304-355 | requests times interval stay below the remaining time and the loop ends, in every run exactly when interval + 5s does not wrap |
| Polling.ConfirmedOnlyBySuccess | internal/sso/sso.go:332-362 | an identity comes exactly from a last successful answer, and only pending and slow_down answers precede any request |
| Polling.ChosenIntervalIsLongest | internal/sso/sso.go:141-184 | the interval is positive and at least the configured one, and at least the suggested one exactly when that fits a duration |
| Polling.FlowKeepsToBudget | internal/sso/sso.go:141-187 | the whole flow keeps both intervals, sends fewer than budget / interval requests and ends |
| Recorder.FileIsLog | internal/recording/recording.go:149-245 | for any serialised calls the file is the header, one entry per call before the first Close, and the trailer; nothing later; closed once; a recorder without a file writes nothing |
| Recorder.TrailerOnceAndLast | internal/recording/recording.go:230-245 | the trailer is in the file exactly when a script was closed, and is then its last piece only |
| Recorder.FileReadsBack | internal/recording/recording.go:149-190 | reading the complete frames back gives the complete calls before the first Close, with times, directions and bytes |
| Recorder.ScriptHoldsBytes | internal/recording/recording.go:193-214 | a script file holds the bytes of the calls before the first Close whose write succeeded, in order |
| Recorder.ErrorsAreReported | internal/recording/recording.go:149-214 | a call reports an error exactly when one of its own writes was torn, and leaves what was in the file |
| Recorder.FrameTimesRise | internal/recording/recording.go:149-190 | frame times never go down |
| Recorder.AsciinemaRecorder.constructor | internal/recording/recording.go:99-128 | a new recorder has written its header and nothing else, or has no file |
| Recorder.AsciinemaRecorder.Record | internal/recording/recording.go:149-190 | one call appends one frame and its line end, with the error of the write that failed, or nothing when closed |
| Recorder.AsciinemaRecorder.Close | internal/recording/recording.go:217-227 | the first Close closes the file, later ones do nothing |
| Recorder.ScriptRecorder.constructor | internal/recording/recording.go:131-146 | the same of a new script recorder |
| Recorder.ScriptRecorder.Record | internal/recording/recording.go:193-214 | one call appends its data, or nothing when closed |
| Recorder.ScriptRecorder.Close | internal/recording/recording.go:230-245 | the first Close writes the trailer and closes the file |
| Relay.NilMeansDelivered | internal/client/client.go:110-167 | when BidiProxy returns nil each side got the other's full stream; with a healthy recorder the file reads back as those two streams |
| Relay.BidiStaysClose | internal/client/client.go:115-160 | at every moment forwarded is a prefix of read, and a healthy recording lies between the two, at most one buffer ahead |
| Relay.LoopsEndForAReason | internal/client/client.go:115-160 | an ended loop failed exactly when a read, a write or, for the server's loops, the recorder did; until it has ended it can go on |
| Relay.NoGapIsPrefix | internal/client/client.go:115-160 | in every run of BidiProxy, whatever fails and whenever the recorder is closed, the recording of a stream is a prefix of it if no write of the stream succeeds after one that did not |
| Relay.IgnoredErrorsLeaveGaps | internal/client/client.go:121-127 | every pattern of write outcomes with a success after a failure happens in a run whose recording is no prefix of the stream |
| Relay.PrefixIff | internal/client/client.go:115-160 | so the recording is a prefix in every run with given outcomes exactly when they have no success after a failure |
| Relay.RelayLoop | internal/client/client.go:115-136 | one loop with its buffer and recorder object does what the step system allows |
| Relay.ServerRecordsPrefix | internal/server/server.go:860-909 | whenever the recorder is closed and whatever fails: recorded is a prefix of forwarded, which is a prefix of read; at most one buffer behind while open |
| Relay.ServerFile | internal/server/server.go:860-909 | input frames are the recorded input; output frames merge the recorded chunks of stdout and stderr, each in order |
| RecordingName.SanitizeFileComponent | internal/server/server.go:956-974 | the builder loop computes the specified component |
| RecordingName.SanitizedIff | internal/server/server.go:956-974 | sanitising leaves alone exactly the strings of kept characters without a dot or underscore at either end, so it is idempotent |
| RecordingName.SanitizedIsComponent | internal/server/server.go:956-974 | only such strings come out |
| RecordingName.SanitizedIs | internal/server/server.go:956-974 | sanitising keeps a stretch of the trimmed value with '_' for other characters, and drops only dots, underscores and other characters around it |
| RecordingName.BuildRecordingFileName | internal/server/server.go:939-954 | collecting and joining the parts gives the name |
| RecordingName.NamesTellTargetsApart | internal/server/server.go:939-954 | equal names come from equal sanitised users, hosts, ports and ids when these are present and have no underscore |
| RecordingName.NamesTellIdsApart | internal/server/server.go:939-954 | equal names have equal extensions and, for equally long ids, equal ids, whatever the targets are called |
| RecordingName.ExtensionIs | internal/recording/recording.go:44-51 | the extension is .log for the script format, however spelt, and .cast otherwise |
| RecordingName.NameIsPlain | internal/server/server.go:939-954 | a name has no separator in it and is not made of dots alone |

## Left out

- Strings are sequences of runes: invalid UTF-8 is not modelled. The Unicode letter, digit and lower-case tables and
  the decoding of bytes to runes are arbitrary ones that agree with ASCII and keep white space apart.
- Concurrent objects are values of a step system rather than classes: `SessionState` in `Proxy` with one event for each
  locked access, the metrics collector as a record of integers (its label normalisation and Prometheus registry are
  left out), and `handleChannel` under interleaving. `Session.SessionState`, `Channel.HandleChannel` and
  `Config.Config` model the same code as objects, undisturbed by other goroutines.
- Channel.HandleChannel: terminal size, agent requests and window changes are not part of the interleaved system.
- ProxySafety.StoredServerIsDialled: `SetEnvVar` and the `SetTarget` after it are separate events in any order, which
  allows more interleavings than the code has.
- ProxySafety.CrashedIff: a panic ends the whole run; what the operating system does then is not modelled.
- Config.Config.Validate: `Servers` is a sequence value; another slice sharing its backing array is not modelled.
- Session.SessionState.ConnectToFirstAvailableTarget: dialling is an oracle by attempt number and target; timeouts,
  host key checks, credentials and the agent are not modelled.
- Address.AcceptedLanguage: `net.ParseIP`, `net.SplitHostPort` and `strconv.Atoi` are small definitions of their own;
  IPv6 zones are rejected as the library's parser does.
- Polling.FlowKeepsToBudget: the two set-up requests are one duration, and the caller's context has no deadline of its own,
  as in the server.
- Polling.PollForToken: HTTP, JSON and JWT decoding are replaced by a classified answer and two identities.
- Recorder.FileReadsBack: frames are (time, direction, bytes) with integer times; their JSON text, which is lossy on
  invalid UTF-8, is not modelled, nor is the `Torn` part of a failed write.
- Relay.NilMeansDelivered: what the recording holds is stated for the asciinema format; a script file does not tell
  directions apart. A recorder that is absent behaves like one whose file could not be created.
- Relay.ServerRecordsPrefix: takes the recorder that the copy loops captured as given;
  `Handles.CaptureIsOwnIff` says exactly when that is the session's own.
- Complete delivery of target output before the channel closes: the session does not wait for its output loops, so only
  prefixes are claimed.
- `parseTargetFromCommand` is a rough heuristic; what it finds is a parameter.
- Authorised keys and CA decisions in `internal/server/security.go`, host keys, known_hosts, the SSH handshake, agent
  forwarding, logging, console messages, directory permissions, UUIDs and `main.go`.
- Reading and decoding the configuration file: loading starts from a decoded value and the set of keys present.
