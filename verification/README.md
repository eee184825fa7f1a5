# The concurrent runtime of the Go orchestration-cluster client, modelled in Dafny

`dafny verify dfyconfig.toml` verifies the project.

The model covers the hand-written runtime of the client: the clock bound to the engine's
clock, the job workers, the seeded random source, the FALCON probe and create path, the
default tenant and the polling helper. Code that runs alone is a class or a method with the
source's fields and loops. Code that runs on several goroutines is a state machine whose
moves are its atomic steps (one lock operation, one shared read or write, one call that
leaves the process), so that a run is a sequence of moves and a claim about all runs is a
claim about every interleaving of any number of callers.

| file | what it models |
|---|---|
| `EngineClock.dfy`, `EngineClockProtocol.dfy` | `engineclock.go`: one caller as a class; any number of callers under the two locks |
| `StreamWorker.dfy` | `StreamJobWorker.Run`: the stream loop, the REST sidecar, their handlers, the shared semaphore and WaitGroup, and the drain |
| `RestPoll.dfy` | `JobWorker.runRESTPoll` with its atomic in-flight counter |
| `FalconWorker.dfy`, `FalconAnswers.dfy` | `runFalcon` over a credit-metered link with failover, and the frames `handleFalcon` sends |
| `JobWorker.dfy` | `JobWorker.Run` as a whole: the stream and the REST loop it falls back to |
| `Jobs.dfy`, `LeaseFencing.dfy` | keys, the lease gate and the acknowledgements; many workers against an engine that times jobs out, with REST commands sent again by the HTTP layer |
| `Retry.dfy` | the HTTP layer of `internal/retry` that sends a request again |
| `SeededRandom.dfy`, `Words.dfy`, `ReferenceVector.dfy`, `StartupDelays.dfy` | SplitMix64 on 64-bit words, concurrent draws, the published outputs, and the workers' startup delays |
| `FalconProbe.dfy` | the write-once capability cache, its two critical sections and its unlocked reader |
| `Instructions.dfy`, `CreateRouting.dfy`, `DefaultTenant.dfy` | create instructions, their routing to the stream or to REST, and tenant injection on shared objects |
| `Poll.dfy`, `Cadence.dfy` | the retry loop; the clamped pause all loops share |
| `Runs.dfy`, `Counting.dfy` | runs of partial machines; counting lemmas |

## What is assumed of the environment

- A refused controller call leaves the engine as it was, and the engine is at live time when
  an `EngineClock` is built.
- The engine hands a job out to one activation at a time, gives each leased activation a
  token of its own, and rejects a command whose token is not that of the latest activation.
- The REST gateway returns at most the number of jobs asked for (`RestPoll.Config.bounded`;
  `RestPoll.OverdeliveryBreaksTheBound` shows what happens otherwise). A worker may well be
  given a job again that it failed or that timed out.
- The FALCON gateway pushes only against credits.
- Handlers and acknowledgements return (only the two lemmas about the drain need it).
- For `Poll`: a wait that succeeds has advanced the clock by its duration at least, and the
  clock does not move back while a call runs (`Polling.Paced`;
  `Polling.UnpacedNeverEnds` shows that it is needed). An `EngineClock` meets it while
  pinned, with no reset in between (`EngineClockProtocol.NextCheckIsLater`).
- For the worker loops: a wait that succeeds lasts its duration on the clock that measures
  the run, which does not move back (`BacksOff` and `Sleeps` in `StreamWorker`, `Sleeps` in
  `RestPoll`). The bounds on spinning rest on it; an unpinned `EngineClock` need not meet it
  (`EngineClockProtocol.ContractIff`). The clock read by the FALCON probe does not move back.
- A gRPC command reaches the engine at most once. A REST command may, at any time later,
  reach it as often as the HTTP layer attempts it.
- The engine takes `awaitCompletion` false, `requestTimeout` 0, empty `variables` and
  `fetchVariables` and process definition version -1 as if the field were absent, as the API
  documents them (`CreateRouting.IsDefault`).

## Where the code and its comments differ

The model follows the code. Each point names the lemma that shows it.

- `engineclock.go:94` says waits never move the clock back. A wait that starts unpinned can:
  live time may pass its target before it wins the gate. Exactly the waits called on an
  unpinned clock can (`EngineClockProtocol.WaitMayMoveBackIff`);
  `EngineClockProtocol.ReadingMovesBackIff` says which step does. From the first pin to the
  next reset it is true (`EngineClockProtocol.PinnedNeverMovesBack`).
- `clock.go:23` has `Sleep` wait for its duration, which a loop measures from its own last
  reading. On an `EngineClock` another caller's pin may come between the two and take that
  reading back: the wait then ends before its duration has passed. Exactly the reading of a
  pinned clock can be relied on (`EngineClockProtocol.ContractIff`,
  `EngineClockProtocol.ContractIffAnywhere`).
- `engineclock.go:111-113` says the SDK and the engine agree on the time. `PinAt` sends whole
  milliseconds, so against a real engine they agree exactly on whole milliseconds and
  otherwise differ by less than one (`EngineClocks.WireGap`).
- `worker.go:138` says `Run` polls until ctx is canceled. It also stops, with a nil error,
  exactly when the clock's `Sleep` fails for another reason, as an `EngineClock`'s can
  (`RestPoll.StopsOnlyOnCancellation`, `RestPoll.FailingClockEndsRun`). The stream worker
  then waits for a sidecar that is never told to stop
  (`StreamWorker.StopsOnlyOnCancellation`, `StreamWorker.FailingClockStrandsTheSidecar`).
- `internal/falcon/streamworker.go:60` calls the full-buffer branch unreachable. A failover
  subscribes again with the whole window while jobs of the old connection may still be held.
  As long as every failover finds all jobs answered, no push is lost and the limit is kept,
  over any run (`FalconWorker.CleanFailoversAreSafe`). After one that does not, a push can be
  lost (`FalconWorker.FailoverLosesNothingIff`) and the unanswered jobs can run on top of the
  whole window (`FalconWorker.UncleanFailoverExceeds`).
- `falcon.go:30-32` says a probe ended by a short deadline never forces REST for good. It
  does exactly when the deadline cuts off the body of a 2xx reply, which is then taken for a
  stock gateway's (`FalconProbeProtocol.RestForGoodIff`, `FalconProbeProtocol.CutBodyIsFinal`).
- `falcon.go:21-24` bounds how often the probe is retried. It does not on a clock that reads
  the zero time (`FalconProbeProtocol.ZeroReadingDefeatsTheThrottle`;
  `FalconProbeProtocol.TooSoonIff` says exactly when).
- `falcon.go:386-390` calls `resolveTenant` a display of the tenant the create carried. For
  an explicitly empty tenant on a client with a default it displays a default that was not
  sent (`CreateRouting.ShownTenantIsSentIff`).

## Model

| member | source | states |
|---|---|---|
| EngineClocks.EngineClock.PinTo | engineclock.go:96-119 | a request at or before the pinned instant changes nothing; any other is published exactly as accepted, or nothing changes on either side |
| EngineClocks.EngineClock.Reset | engineclock.go:123-134 | back to live time on both sides, or unchanged on both when refused |
| EngineClocks.EngineClock.Sleep | engineclock.go:137-147 | run alone, a wait lands exactly d after the instant it read; a canceled or refused one moves nothing |
| EngineClocks.EngineClock.Now | engineclock.go:70-77 | the pinned instant while pinned, live time otherwise |
| EngineClocks.WireGap | engineclock.go:24-26 | how far the engine's instant is from the published one, and exactly when they are equal |
| EngineClockProtocol.Agreement | engineclock.go:96-134 | in every interleaving the local pair equals the engine's, except exactly while the gate holder has an answer it has not published |
| EngineClockProtocol.ReadersSeeWholePairs | engineclock.go:70-77 | no reader ever sees the pair half written, though it is written in two stores |
| EngineClockProtocol.RefusalChangesNothing | engineclock.go:107-109 | a refused pin or reset leaves both sides as it found them |
| EngineClockProtocol.SettlesAtMaximum | engineclock.go:96-119 | with the gate free the pinned instant is the greatest target of all waits and pins that returned nil since the last reset, in any order |
| EngineClockProtocol.OverlappingWaitsDoNotSum | engineclock.go:144-146 | waits that read the same instant n, however the clock came to n, settle at n plus the longest, never at a sum |
| EngineClockProtocol.PinnedNeverMovesBack | engineclock.go:103-118 | once pinned the clock never moves back before a reset |
| EngineClockProtocol.ReadingMovesBackIff | engineclock.go:96-134 | in any reachable state, exactly which step moves the reading back: a pin published on an unpinned clock after live time passed its target, or a reset while live time is behind |
| EngineClockProtocol.WaitPassesItsDuration | engineclock.go:137-147 | after a wait returned nil every reading up to the next reset is at least the reading the wait itself took plus its duration |
| EngineClockProtocol.PinnedWaitOutlasts | clock.go:23-25 | in any reachable state, a caller that read a pinned clock at n finds it pinned at n + d or later when its wait of d returns nil with no reset in between |
| EngineClockProtocol.NextCheckIsLater | poll.go:107-110 | so on a pinned clock the reading grows by the wait at least from one deadline check to the next: what Poll asks of its clock |
| EngineClockProtocol.ContractIff | engineclock.go:137-147 | with no request under way, a caller may count on its wait lasting, measured from its own earlier reading, exactly when the clock is pinned |
| EngineClockProtocol.ContractIffAnywhere | engineclock.go:137-147 | the same in every reachable state, for whatever live time reads: exactly when the clock is pinned or a reset is about to be published |
| EngineClockProtocol.UnpinnedWaitFallsShort | engineclock.go:144-146 | the failing run from any unpinned state with the gate free: another caller's earlier pin comes between the reading and the wait |
| EngineClockProtocol.RequestsCollapse | engineclock.go:97-118 | accepted pins strictly increase and number at most the distinct targets; equal targets cost one request |
| EngineClockProtocol.SoloPinTo | engineclock.go:96-119 | the fine-grained steps of one undisturbed caller refine the class's PinTo |
| EngineClockProtocol.SoloSleep | engineclock.go:137-147 | the same for Sleep: the wait lands d after the reading, or a refusal changes nothing |
| EngineClockProtocol.SoloReset | engineclock.go:123-134 | the same for Reset |
| EngineClockProtocol.NeverStuck | engineclock.go:96-134 | in every reachable state, as long as any caller is in a call some caller can go on: the two locks do not deadlock |
| EngineClockProtocol.WaitMayMoveBackIff | engineclock.go:144-146 | in any reachable state with no request under way, a wait may move the reading back, live time only growing and no reset in between, exactly when the clock is unpinned |
| StreamWorker.SharedBound | streamworker.go:216-303 | handlers plus slots taken and not yet handed over equal the semaphore's occupancy, within the limit, over stream, sidecar and reconnects; at most one stream RPC is open |
| StreamWorker.SlotsAreGiven | streamworker.go:289-293 | in every reachable state a job offered on the stream or by the sidecar gets a slot exactly when fewer than maxConcurrent are taken |
| StreamWorker.StreamReachesTheLimit | streamworker.go:232-303 | from every reachable live state in which Run has not left its loop, the stream can go on to exactly maxConcurrent handlers, on any jobs, with nothing failing |
| StreamWorker.SidecarReachesTheLimit | streamworker.go:307-343 | the same for the sidecar alone, whether or not Run is still in its loop |
| StreamWorker.WaitMeansDrained | streamworker.go:214-248 | Run passes wg.Wait only with the sidecar gone, no handler left and the semaphore empty |
| StreamWorker.CounterNeverRisesFromZero | streamworker.go:225-246 | once zero while Run waits, the WaitGroup counter stays zero, although the sidecar adds to it |
| StreamWorker.ConnectionOutlivesStreamedJobs | streamworker.go:214-219 | the connection is open while any streamed job runs or acknowledges |
| StreamWorker.EachJobIsAccountedFor | streamworker.go:278-300 | each delivery past the lease check is pending, running, acknowledging, acknowledged on its own channel, or dropped after a cancellation, and exactly one of these, also for a job delivered again |
| StreamWorker.ReturnLeavesNothing | streamworker.go:322-341 | when Run returns every job was acknowledged or dropped |
| StreamWorker.LoopsDoNotSpin | streamworker.go:232-243 | for every configured backoff and interval, zero and negative included, stream opens and sidecar polls are bounded by the clamped waits that fit into the elapsed time, plus one |
| Cadence.Clamped | worker.go:411-416 | the pause asked of the clock is positive: the configured one when that is, one second otherwise |
| StreamWorker.StopsOnlyOnCancellation | streamworker.go:232-248 | without a cancellation each loop has been left exactly when a wait of its own failed; Run returns nil only after both failed, and is stranded until then |
| StreamWorker.FailingClockStrandsTheSidecar | streamworker.go:240-246 | for every configuration with a sidecar, a run in which such a failure leaves Run waiting while the sidecar takes a job |
| StreamWorker.DrainIsBounded | streamworker.go:229-248 | after a cancellation the steps left are bounded by the work at hand and the jobs that still arrive |
| StreamWorker.DrainNeverStalls | streamworker.go:229-248 | until Run returns some step other than an arrival is enabled, so the drain ends |
| RestPoll.ConcurrencyBound | worker.go:230-275 | the in-flight counter counts the live handlers and the job being dispatched and stays within the limit in every interleaving, given a bounded gateway |
| RestPoll.AsksForWhatIsFree | worker.go:235-243 | each activation asks for exactly maxConcurrent less the live handlers; when none is free there is a wait and no request |
| RestPoll.LimitIsReached | worker.go:234-272 | from every reachable live state in the loop, a gateway that returns what it is asked for can have exactly maxConcurrent handlers running, on any jobs |
| RestPoll.CanReturn | worker.go:273-274 | from every reachable state Run can still return |
| RestPoll.NothingIsDropped | worker.go:255-274 | every delivery is queued, running, acknowledging or acknowledged, exactly one, also for a job delivered again; all acknowledged and the counter zero when Run returns |
| RestPoll.LoopDoesNotSpin | worker.go:234-272 | for every configured interval, calls of activate number at most the jobs received, plus the clamped waits that fit into the time passed, plus one |
| RestPoll.RequestsDoNotSpin | internal/retry/retry.go:109-161 | the requests the HTTP layer sends for those calls number at most that times the attempts configured |
| Retrying.RoundTrip | internal/retry/retry.go:109-161 | a request is sent again only after a network error or a 429, 502, 503 or 504, with its body rewound and the wait over, at most as often as configured; the last outcome is returned as it is |
| Retrying.PromiseIsUnique | internal/retry/retry.go:119-160 | that determines the number of attempts and the reply |
| Retrying.SentAgainIff | internal/retry/retry.go:119-160 | exactly when a request is sent more than once |
| RestPoll.StopsOnlyOnCancellation | worker.go:234-274 | without a cancellation the loop has been left exactly when a wait failed; a nil return means one did |
| RestPoll.FailingClockEndsRun | worker.go:266-274 | for every configuration, a run that returns nil with ctx live |
| RestPoll.OverdeliveryBreaksTheBound | worker.go:235-264 | the bound depends on the gateway |
| FalconWorker.Window | internal/falcon/streamworker.go:40-47 | the window asked for is positive, within 4096 and never above the limit |
| FalconWorker.CreditsAreConserved | worker.go:184-227 | on the first connection credits, frames in transit, pushed jobs and running handlers add up to the window at every step, and no push is lost |
| FalconWorker.CreditsNeverRunOut | internal/falcon/streamworker.go:110-150 | while connected the same sum is the window at least, over any failovers: no credit leaks away |
| FalconWorker.WindowIsReached | worker.go:184-204 | from every reachable live state in the loop, connected or not, a run goes on to a full window of handlers |
| FalconWorker.LiveRunGoesOn | worker.go:153-164 | with ctx live Run never waits, closes or returns |
| FalconWorker.CanReturn | worker.go:184-206 | from every reachable state that has not fallen back Run can still return |
| FalconAnswers.HandleFalcon | worker.go:211-227 | complete, fail and throw each send exactly the frames AnswerFrames lists for the outcome, an empty one for a command that cannot be marshaled |
| FalconAnswers.OneCreditEach | internal/falcon/streamworker.go:115-150 | on every outcome path those frames give back exactly one credit; they hold one command, which reads as the verb the outcome calls for under the job's key, exactly when the variables can be marshaled, there are none, or the job failed |
| FalconWorker.OutstandingPerConnection | internal/falcon/streamworker.go:81-85 | in general the handlers running are bounded by the window times the connections made |
| FalconWorker.WindowKeptIff | internal/falcon/streamworker.go:81-85 | in every reachable state within the window, every step keeps it except a failover, which keeps it exactly when no job is outstanding |
| FalconWorker.CleanFailoversAreSafe | internal/falcon/streamworker.go:57-85 | over any run whose failovers all find every job answered, the window and the limit hold and no push is lost |
| FalconWorker.FailoverLosesNothingIff | internal/falcon/streamworker.go:57-62 | in any reachable state, a failover leaves no run of otherwise clean failovers in which a push is lost exactly when the client holds no unanswered job |
| FalconWorker.UncleanFailoverLoses | internal/falcon/streamworker.go:57-62 | from every failover that finds jobs unanswered, a continuation in which a push is lost |
| FalconWorker.UncleanFailoverExceeds | internal/falcon/streamworker.go:81-85 | from every such failover while Run loops, a continuation with the window and all unanswered jobs running at once |
| FalconWorker.FailoverExceedsTheLimit | internal/falcon/streamworker.go:81-85 | under every limit, a run with one handler more than the window |
| FalconWorker.FailoverLosesAJob | internal/falcon/streamworker.go:57-62 | under every limit, a run in which the branch called unreachable drops a job |
| FalconWorker.FallbackStartsClean | worker.go:149-165 | REST polling starts only before any job was dispatched over the stream; the stream is closed only without handlers |
| JobWorkers.BoundOverRun | worker.go:149-165 | over the whole of Run, stream and fallback together, at most maxConcurrent handlers run, given a bounded gateway and failovers that find all jobs answered |
| JobWorkers.BoundAfterFallback | worker.go:154-165 | after a fallback the bound needs nothing of the stream |
| JobWorkers.DetectionDecides | worker.go:153-164 | with no stream detected Run goes on to REST polling, with one it subscribes |
| JobWorkers.SubscriptionDecides | worker.go:154-161 | a failed subscription leaves Run to poll exactly when ctx is live, and returned otherwise; one that succeeds has it looping with the whole window |
| JobWorkers.FallbackReachesTheLimit | worker.go:164 | from every reachable live state in the fallback a run goes on to exactly maxConcurrent handlers |
| JobWorkers.NoStreamStillWorks | worker.go:153-164 | under every configuration a worker whose gateway has no stream comes to handle jobs |
| Decimals.RoundTrip | job.go:88-90 | a 64-bit key survives printing and parsing |
| Decimals.FormatIsCanonical | job.go:90 | the printed key has a minus sign exactly when negative, then digits without a leading zero |
| Jobs.CheckBatch | worker.go:308-314 | a batch is handed over whole, or rejected whole exactly when a lease was asked for and some token is missing |
| Jobs.RestCompleteJob | worker.go:345-358 | the request, as the engine reads it, completes the job's key with the variables and the job's own token; it is made exactly when the variables, if any, can be marshaled |
| Jobs.RestFailJob | worker.go:360-378 | the request fails it with one retry fewer, never below zero, under its own token |
| Jobs.RestThrowError | worker.go:380-396 | the request throws the BPMN error under its own token; it is made exactly when the variables, if any, can be marshaled |
| Jobs.RestAck | worker.go:332-343 | one command answers a job, with the verb its outcome calls for, exactly when the variables can be marshaled, there are none, or the job failed; otherwise none does |
| Jobs.GrpcAck | streamworker.go:373-453 | the same over gRPC; nothing is sent exactly when the key does not parse, and variables that cannot be marshaled are left out of a command otherwise the same |
| Jobs.AnswersItsOwnActivation | job.go:72-100 | on either channel the handler is given the activation's own type, retries, variables and token, and it is answered under its own key, verb and token, so the invalid-key exits are unreachable |
| LeaseFencing.LeasedJobsCarryTheirToken | presentwhen.go:31-42 | with leases on, every job handed to a handler has a token and every command carries exactly that token and key |
| LeaseFencing.SupersededLeasesAreFenced | README.md:285-293 | over any run with expiries, reactivations and commands sent again, no command of a superseded leased activation takes effect |
| LeaseFencing.JobsFinishOnce | internal/retry/retry.go:119-155 | of all commands that take effect on one job every one but the last is a failure, so at most one completes it or throws; what one activation effects more than once is one and the same failure |
| LeaseFencing.EffectsAreBounded | internal/retry/retry.go:109-155 | an activation's command takes effect at most once over gRPC and at most as often as the HTTP layer attempts it over REST |
| LeaseFencing.TakesEffectIff | README.md:285-293 | in any reachable state, exactly which commands take effect: those of an unfinished job that carry no token, or are its latest activation's |
| LeaseFencing.ReplayTakesEffectIff | internal/retry/retry.go:137-144 | in any reachable state, a command just carried out would be carried out again if sent again exactly when it is a failure, leased or not |
| LeaseFencing.FailureTakesEffectTwice | worker.go:360-378 | for every limit above one, a run in which one leased activation's failure takes effect twice |
| LeaseFencing.UnleasedWorkersRace | worker.go:78-89 | without leases a stale command finishes another worker's activation |
| SeededRandoms.SeededRandom.Float64 | random.go:80-86 | the draw is the sequence's next element, in [0, 1), and the state moves on by one |
| ReferenceVector.MatchesReference | random_test.go:18-37 | the published outputs: seed 0's first word and the first five draws of seed 42 |
| Words.MulIsProduct | random.go:82-83 | the wrapping product is the product less whole multiples of 2^64 |
| SeededRandoms.MixIsBijective | random.go:82-84 | the mixing rounds have a two-sided inverse on 64-bit words |
| SeededRandoms.FullPeriod | random.go:81 | the state visits every word exactly once in 2^64 draws |
| SeededRandoms.StatePeriod | random.go:81 | the sequence of states repeats after exactly 2^64 draws and no sooner |
| SeededRandoms.Equidistribution | random.go:80-86 | over one period each of the 2^53 values occurs exactly 2^11 times |
| SeededRandoms.InterleavingIndependence | random.go:36-37 | under any interleaving of concurrent draws their results are, as a multiset, the first results of the sequential run |
| Words.XorShiftInverse | random.go:82-84 | an xor-shift by 22 places or more is invertible on both sides |
| StartupDelays.StartupJitter | worker.go:123-128 | one draw, scaled and truncated, when a maximum is set; no draw and no delay otherwise |
| StartupDelays.DelaysAreDraws | worker.go:115-128 | whatever the schedule, a worker's delay is fixed when it is built, by the number of draws before, and Run waits exactly that |
| StartupDelays.BuiltFirstDelays | worker.go:119-122 | workers built before anything else draws get the first draws in order |
| StartupDelays.SchedulingIndependence | worker.go:119-122 | so the same seed gives them the same delays however their Run goroutines are scheduled |
| FalconProbe.Client.AdmitCall | falcon.go:33-63 | the first critical section of falconCaps does what Admit says to the client's fields, and nothing when FALCON is disabled |
| FalconProbe.Client.SettleCall | falcon.go:73-86 | the second one does what Settle says |
| FalconProbe.Client.Producer | falcon.go:171-176 | the producer is built at most once, from the capabilities of the first call |
| FalconProbeProtocol.SingleFlight | falcon.go:43-63 | at most one probe is in flight, and none once the answer is known |
| FalconProbeProtocol.ProbesAreThrottled | falcon.go:45-61 | probes start at least the retry interval apart, over any stretch of starts not recorded at the zero time |
| FalconProbeProtocol.ZeroReadingDefeatsTheThrottle | falcon.go:46 | at the zero time any number of probes fit in one instant |
| FalconProbeProtocol.ResolvedIsFinal | falcon.go:38-42 | once resolved the cached answer never changes, every later call returns it and none probes |
| FalconProbeProtocol.OneValueEver | falcon.go:73-86 | every non-nil answer of a run is the one cached value, with endpoints to dial and the dialer set |
| FalconProbeProtocol.UnlockedReadIsSafe | falcon.go:310-315 | the create path's unlocked read sees the non-nil value its own call returned, and the producer is built from it and a dialer |
| FalconProbeProtocol.EveryCreateReads | falcon.go:193-200 | every call told of a stream goes on to the create path and reads the cache there once; the first to do so has the producer built |
| FalconProbeProtocol.TooSoonIff | falcon.go:43-63 | in any reachable state and whatever passes between a call's two readings, exactly when the next probe comes less than the interval after the last |
| FalconProbeProtocol.RestForGoodIff | falcon.go:70-86 | whatever the run before, a reply leaves every later call on REST exactly when it is a 2xx whose body cannot be decoded, has no nano section or no endpoints |
| FalconProbeProtocol.TransientIsRetried | falcon.go:75-79 | after any other failed probe the interval and one call are enough to find the stream |
| FalconProbeProtocol.CutBodyIsFinal | internal/falcon/falcon.go:77-82 | a reply whose body is cut off does so exactly when its status is 2xx, and a probe without a reply never does |
| Instructions.InjectedBody | defaulttenant.go:107-128 | a body is sent exactly when a variant is set, and is the one by id, else by key, else by version tag, with the effective tenant and every other field as the caller set it |
| Instructions.FirstTenantWins | defaulttenant.go:25-32 | injection is idempotent and a tenant once present is never replaced |
| Instructions.UntouchedIff | defaulttenant.go:107-128 | exactly when injection leaves an instruction as it is |
| CreateRouting.RoutesIff | falcon.go:234-308 | a create is streamed exactly when the first variant set is by id or by key and each set field is carried or is version -1 |
| CreateRouting.BuildArgs | falcon.go:254-308 | the arguments are built exactly for those creates, field by field |
| CreateRouting.BuildFrame | internal/falcon/producer.go:217-239 | the frame has an entry for exactly the non-empty arguments |
| CreateRouting.StreamAsksTheSameIff | falcon.go:219-308 | for every field the streamed create asks for what the REST body with the default tenant asks for, exactly unless the caller set a definition or tenant to the empty string |
| CreateRouting.CreateProcessInstance | falcon.go:193-217 | which channel is used; a streamed frame asks, field by field, for what the REST body would have asked for (except an empty text); a REST body is the final one after any options, with the default tenant |
| CreateRouting.ShownTenantIsSentIff | falcon.go:391-399 | exactly when the tenant shown on a result is the one sent |
| DefaultTenants.WithTenant | defaulttenant.go:112-116 | a variant is copied before it is changed, exactly when it is changed |
| DefaultTenants.WithDefaultTenantProcessInstanceCreation | defaulttenant.go:107-128 | the result's value is the injected one, through the caller's objects or new ones, and no existing object is written |
| DefaultTenants.WithDefaultTenantDecisionEvaluation | defaulttenant.go:84-100 | the same for the decision union |
| DefaultTenants.SendOverRest | falcon.go:204-214 | after any sequence of body-replacing options the final body gets the tenant, and no object is written |
| DefaultTenants.SendThroughClients | defaulttenant.go:102-106 | one instruction reused through many clients is sent with each client's own default |
| Polling.Configure | poll.go:39-64 | no sequence of options leaves a timeout or interval that is not positive |
| Polling.LastOptionCounts | poll.go:12-95 | the last positive timeout, the last positive interval and the last predicate count, each for its own setting; otherwise five seconds, 250 milliseconds and exactly a 404 |
| Polling.Poll | poll.go:86-114 | the loop ends, keeps the promise of Promised and makes at most ceil(timeout / interval) + 1 calls, on any clock that gains each wait's duration from one deadline check to the next |
| Polling.CallsAreBounded | poll.go:99-113 | the bound follows from the promise alone |
| Polling.PromiseIsUnique | poll.go:72-79 | the promise determines the number of calls and the result |
| Polling.BoundIsTight | poll.go:99-113 | the bound is met |
| Polling.UnpacedNeverEnds | poll.go:107-112 | on a clock that calls move back by each wait the loop goes on after every call |

## Left out

- The generated REST client and facade (`client/api_*.go`, `facade_generated.go`): request building and status decoding.
- `internal/backpressure`, `internal/auth`, TLS and URL handling, configuration and option parsing, the consistency and error tables: no protocol of their own that the claims above need. Of `internal/retry` the backoff delays are left out.
- gRPC, HTTP and WebSocket transport and JSON: calls that succeed, fail or deliver; variables and headers are opaque.
- The goroutine loops of the workers are machines over values rather than methods: Dafny methods have no interleaving. What runs alone (the lease check, the acknowledgements, the jitter, the clock, the cache's critical sections) is in imperative form.
- Request fields other than key, verb, retries, variables and token, and the job's process-instance key, element and headers.
- IEEE rounding in `Float64` and the startup delay: draws are exact fractions of 2^53 and delays are truncated exact products.
- Int32 wrap-around of the retry decrement: retries are integers, which differ only below the least int32.
- `EngineClock.After`, whose failure crashes the process, and `IsPinned`.
- `SeededRandomFromEnv`, `LiveRandom`, `LiveClock` and Go's monotonic readings: live time and random draws are arbitrary.
- The producer's submission credits and the loss of FALCON acknowledgement frames; FALCON commands carry no lease token, so lease fencing does not cover them.
- A FALCON job frame without a job, which is skipped without giving its credit back, and the jobs still in the buffer when the FALCON worker stops.
- The overlay of the gateway's reply on a create's result, except its tenant.
- Options that write to the caller's objects themselves: only options that replace the body are modelled. Options apply to the REST path alone, as `falcon.go:186` says.
- The order of struct fields in falconUnsupportedField, which decides only which field is named in a debug line.
- `withDefaultTenantCreateDeployment` and the operations whose bodies are plain values: a copy and one assignment.
