# Verified models of the OJS JavaScript SDK

Dafny 4.11 models of the parts of the SDK that hold protocol, interpreter and parser logic, with proofs about
all inputs, all runs or all reachable states. `dafny verify dfyconfig.toml` checks everything.

| file | models |
|---|---|
| `Durable.dfy` | record and replay for durable handlers, over any number of crashed attempts |
| `Worker.dfy` | the worker: poll chain and its delays, job settlement, heartbeat directives, shutdown |
| `Middleware.dfy` | the middleware chain, guarded composition, the bundled retry layer |
| `Sse.dfy`, `SseStandard.dfy` | the incremental event-stream parser, and a reference reading of the standard |
| `ProtoValue.dfy` | JSON values and google.protobuf.Value |
| `Workflow.dfy` | workflow definitions and their wire format |
| `Duration.dfy`, `Backoff.dfy` | ISO 8601 durations, retry backoff |
| `Regex.dfy`, `Names.dfy` | regular expressions with captures; job type and queue name patterns |
| `HttpRetry.dfy` | transport retries and the cost of settling a job |
| `FakeQueue.dfy` | the in-memory queue of the testing module |

Classes carry the source's fields and methods; each method is proved against a function of the old state, and
the theorems are lemmas about those functions. Numbers are exact (integers and rationals).

## How the environment is modelled

- Durable handlers are functions from the results seen so far to the next operation: a deterministic handler
  that awaits its operations one after another. The clock, the random source, the side effects and the
  checkpoint server may answer differently at every step of every attempt, the world by the results recorded so
  far. A JavaScript value either survives JSON or comes back as another JSON value.
- A durable handler is "blind" when the operation it records next depends on the recorded results only, however
  requests went: it may let a failed request end the attempt, go on, retry it, or branch on it
  (`TolerantIsBlind`, `RetryingRequestsQualifies`, `BestEffortQualifies`). Replay is right for exactly these handlers
  (`ReplayIsRightIffBlind`). Its "checkpoints are replayable" when no side effect threw before the last recorded
  result of a checkpoint, as when a throw ends the attempt (`StoppingIsReplayable`). For handlers that catch a
  throwing side effect and checkpoint, `ReplayIsFaithfulIff` says exactly when the replay is right, and
  `CaughtThrowIsNotReplayed` shows one for which it is not.
- The worker is a step system: each step is the code between two awaits, and the environment chooses the order
  freely. One run from start to stop; a stop is not called while another waits; a fetch reply has at most the
  requested number of jobs, with ids not being processed; handlers are async; event listeners do not throw.
- After a nack that failed three times the modelled worker goes on. In the source it rejects a promise nobody
  handles (src/worker.ts:404-410, 471-491); what the process does then is the platform's choice.
- Middleware layers are functions from their argument and the outcomes of their `next` calls to their next
  action. A layer may call `next` any number of times; a layer that makes more than a given number of calls
  counts as pending, and the theorems hold for every such number.
- Stream chunks are text, after the decoder. `JSON.parse` and the subscriber's handler are arbitrary
  predicates: which texts are JSON, and on which events the handler throws.

## Where the code and its documentation differ

- `retry` is documented to retry failed executions. Inside a composed chain it runs the inner layers once, and
  with at least one retry a failure surfaces as the error of the double-call guard
  (`RetryInChainRetriesNothing`); without the guard it would retry (`RetryAloneRetries`).
- A checkpointed operation is said to be replayed after a crash. When the saved log cannot be fetched, the
  attempt starts over (`LoadFailureStartsOver`).
- A durable handler whose recorded operations depend on how requests went can carry out a logged operation again
  (`FickleChargesTwice`).
- `subscribe` calls its handler inside the `try` that parses the data. A handler that throws on parsed data is
  called a second time for the same event, with the raw text (`ThrowingHandlerIsCalledTwice`). Printed events
  reach the handler once each exactly when it throws on none of them (`PrintedEventsRoundTrip`).
- Section 9.2.6 of the WHATWG HTML Standard ends lines at CR LF, LF or CR. Here only LF does: printed canonical
  events are read as the standard reads them exactly when LF ends the lines, and no field has a CR and no id a
  NUL (`AgreesWithStandardIff`); with CR LF nothing is delivered (`CrLfStreamsDeliverNothing`). On text
  without CR there are five more differences: white space behind the first space is trimmed; an id may contain
  NUL; empty data lines before the first non-empty one are lost; `event`, `id` and `data` without a colon are
  ignored (a text for each in `Differences`); and an id holds for its own event only (`LaterIdDiffers`). Line by
  line these are all: a line keeps the two in agreement if and only if it shows none of them (`FitsIff`), and
  they agree on every text made of such lines (`TextsAgree`).
- `fromProtoValue` turns "", 0 and false into null, and both conversions lose the key `__proto__`
  (`UnchangedIffClean`).
- A stop that waits only for jobs without a handler is not woken when they end, and waits for the grace timer
  (`FinishWakesIff`; `LostWakeUpHappens` is a run that does).
- A stop while `start` still waits for its first event leaves the heartbeat timer and the signal handlers behind:
  the start sets them afterwards (`LateStartHappens`), and nothing removes them (`LateStartStays`). Otherwise
  they are in place exactly from the start to the stop (`Hooked` in `EveryReachableState`).
- `msToIsoDuration` prints negative numbers, and neither the parser nor the validator accepts the result
  (`PrintParse`).

## Model

| member | source | states |
|---|---|---|
| Durable.DurableContext.Create | src/durable.ts:74-99 | a context replays exactly when the server returned a non-empty array as log, and records from scratch in every other case, failed requests and unparsable logs included |
| Durable.DurableContext.Now | src/durable.ts:105-119 | returns the value of a time entry at the cursor while replaying, and moves on; in every other case it reads the clock, appends the numbered entry, and is out of replay mode |
| Durable.DurableContext.Random | src/durable.ts:125-141 | the same for random strings, with the world asked for as many bytes as the caller wants |
| Durable.DurableContext.SideEffect | src/durable.ts:160-174 | the same for calls, matched by key unless the key is empty; a throwing call appends nothing and still ends replay mode |
| Durable.DurableContext.Checkpoint | src/durable.ts:183-198 | posts the whole log, replayed tail included, and leaves the context alone |
| Durable.RunAttempt | src/durable.ts:60-221 | an attempt carried out on the context object is a run of the step function the theorems are about |
| Durable.LogIsNumbered | src/durable.ts:39-44 | every log entry carries its position and matches the operation that recorded it |
| Durable.HitsComeFirst | src/durable.ts:105-174 | for any handler, world, server and loaded log: operations first get the log's entries in order, and once one was answered by the world the context is out of replay mode and every later recordable operation is answered by the world, with its current answer |
| Durable.ReplayHit | src/durable.ts:106-112 | while a blind handler replays, every recordable operation hits its own entry: it returns the logged result and asks nobody, whatever requests in between did |
| Durable.LoggedNeverReexecuted | src/durable.ts:74-198 | an attempt of a blind handler resumed from a log does the logged operations with the logged results, is replaying until the last of them, asks the world only for operations beyond the log, and saves only logs that extend it, for every world and server |
| Durable.ReplayIsRightIffBlind | src/durable.ts:4-8 | in all worlds, for all servers and logs, a resumed attempt does the logged operations with the logged results if and only if the handler is blind |
| Durable.FickleChargesTwice | src/durable.ts:106-112 | a handler that records an operation only after a failed checkpoint: resumed with a checkpoint that succeeds, it carries out a logged operation again |
| Durable.FickleIsNotBlind | src/durable.ts:106-112 | that handler is not blind |
| Durable.TolerantIsBlind | src/durable.ts:183-198 | handlers that end at a failed request, or go on as if it had succeeded, are blind |
| Durable.ResumedEqualsUninterrupted | src/durable.ts:4-8 | the resumed attempt of a blind handler sees what an uninterrupted one sees in a world that answered the logged operations and agrees with the present world afterwards, and ends with the same log |
| Durable.RetryingRequestsQualifies | src/durable.ts:183-210 | a handler that retries a failed checkpoint, and completes only after one that succeeded, meets the conditions of these theorems |
| Durable.BestEffortQualifies | src/durable.ts:183-198 | so does a handler that catches a failed checkpoint and goes on |
| Durable.StoreStaysCoherent | src/durable.ts:183-198 | for blind handlers whose checkpoints are replayable: after any attempts, crashing anywhere, with failing requests caught, retried or not, what is saved is the log of a history drawn from their worlds |
| Durable.CrashesAreInvisible | src/durable.ts:54-59 | for such handlers under one world, the last of any number of crashed attempts sees exactly what a single uninterrupted attempt sees |
| Durable.CheckpointedNeverReexecuted | src/durable.ts:143-159 | for such handlers in any worlds, an attempt that loads what earlier attempts saved never asks for an operation in that log |
| Durable.LoadFailureStartsOver | src/durable.ts:94-96 | an attempt that cannot load the log behaves like a first attempt, whatever is saved |
| Durable.ReplayIsFaithfulIff | src/durable.ts:160-174 | for any handler and any server, the log of a history replays that history without asking the world if and only if no recordable operation in it threw, every recorded value survives JSON, and every request goes as it went |
| Durable.CaughtThrowIsNotReplayed | src/durable.ts:170-172 | a handler that retries a throwing side effect is not replayed faithfully, whatever the server does |
| Worker.OjsWorker.Start | src/worker.ts:221-229 | refuses a running or quiet worker, else resets the counters |
| Worker.OjsWorker.StartContinues | src/worker.ts:243-263 | after its first event the start sets the heartbeat timer and, if configured, the signal handlers, whatever happened meanwhile, and polls |
| Worker.OjsWorker.PollForJobs | src/worker.ts:338-382 | nothing outside running, a timer at capacity, else one fetch for the free slots, at most 10 |
| Worker.OjsWorker.ProcessFetched | src/worker.ts:386-412 | every job of a reply becomes active and not aborted: with a handler it is being executed, without one it is about to be nacked, and nothing was sent for either |
| Worker.DeliveredJobs | src/worker.ts:386-412 | the same for the step system, with all other jobs as they were |
| Worker.OjsWorker.FetchResolved | src/worker.ts:347-354 | polls again at once after jobs, after the interval otherwise, and not at all outside running |
| Worker.OjsWorker.FetchRejected | src/worker.ts:355-366 | backs off exponentially up to 30 seconds |
| Worker.OjsWorker.StopWorker | src/worker.ts:271-319 | stops polling and heartbeats, removes the signal handlers, and either waits with a grace timer or terminates at once |
| Worker.OjsWorker.StopContinues | src/worker.ts:308-319 | clears the grace timer, aborts what is active, terminates |
| Worker.OjsWorker.HeartbeatReplied | src/worker.ts:565-580 | quiet only from running, terminate by a stop |
| Worker.OjsWorker.ResolveIfIdle | src/worker.ts:600-614 | resolves the waiting stop once nothing is active |
| Worker.OjsWorker.RequestSettled | src/worker.ts:440-442 | counts a completed job exactly when its ack succeeded |
| Worker.OjsWorker.FinishJob | src/worker.ts:487-491 | removes the job, and looks for a waiting stop only if it had a handler |
| Worker.InvStep | src/worker.ts:216-614 | every step of the code and the environment keeps the poll chain, capacity, shutdown and settlement invariants |
| Worker.EveryReachableState | src/worker.ts:216-492 | in every reachable state there is one poll chain, alive while running; active jobs plus requested slots stay within the concurrency; every delivery is unsettled or ended in a successful ack, a successful nack or a last failed nack; jobsCompleted is the number that ended in a successful ack; after k consecutive failures the poll timer is armed with the interval times 2^k, at most 30 seconds, and otherwise with 0 or the interval; and heartbeats and signal handlers are in place exactly from the start's continuation to the stop, or for a start that went on after it |
| Worker.PollDelayBounded | src/worker.ts:338-366 | no poll waits longer than the poll interval or 30 seconds, whichever is longer |
| Worker.ArmedAfterFetch | src/worker.ts:338-366 | a running worker arms its timer after every fetch: with 0 after jobs, with the interval after none, with the interval doubled once more, at most 30 seconds, after a failure |
| Worker.NextPoll | src/worker.ts:369-391 | a poll of a running worker fetches for the free slots, at most 10, or at capacity arms the timer with the interval |
| Worker.HeartbeatDirectives | src/worker.ts:565-580 | in every reachable state a quiet directive makes a running worker quiet and disarms its timer, a terminate directive stops a running or quiet one, and any other directive changes nothing |
| Worker.LateStartStays | src/worker.ts:243-263 | the heartbeat timer and signal handlers of a start that went on after a stop are never removed |
| Worker.LateStartHappens | src/worker.ts:231-263 | a stop while the start waits for its first event leads there |
| Worker.TalliedStep | src/worker.ts:438-492 | every step keeps each settlement counter equal to the number of deliveries whose last request is its kind |
| Worker.NothingAfterSuccess | src/worker.ts:494-539 | a job's requests stop at the first success, nacks follow acks only after three failed acks, and there are at most six |
| Worker.RequestsFollowHandler | src/worker.ts:386-492 | in every run a job with a handler sends nothing before its handler has ended, is acked only if it returned, and has sent exactly the acks and nacks that its end and the replies so far call for |
| Worker.RankStep | src/worker.ts:271-319 | within a run the lifecycle never goes back |
| Worker.LateArrivalsBounded | src/worker.ts:369-391 | once the worker left the running state it issues no fetch, and what is in flight delivers at most what it asked for |
| Worker.TerminationAborts | src/worker.ts:314-319 | the step that terminates the worker has aborted every job still active |
| Worker.FinishWakesIff | src/worker.ts:404-411 | a finishing job wakes the waiting stop if and only if it was the last and had a handler |
| Worker.LostWakeUpHappens | src/worker.ts:404-411 | from a fresh worker: one job without a handler, a stop, the job's nack and its end leave the stop waiting with nothing active |
| Worker.WaitingStopCompletes | src/worker.ts:300-312 | no lost wake-up: in every run fair to timers and resolved promises, a waiting stop terminates the worker |
| Middleware.IndexOf | src/middleware.ts:120-122 | the first middleware with a name, or -1 when there is none |
| Middleware.MiddlewareChain.InsertBefore | src/middleware.ts:72-79 | puts the new entry directly before the first match and keeps the order of all others, or fails without a change |
| Middleware.MiddlewareChain.InsertAfter | src/middleware.ts:82-89 | puts the new entry directly behind the first match and keeps the order of all others, or fails without a change |
| Middleware.MiddlewareChain.Remove | src/middleware.ts:92-98 | removes the first match only and keeps the order of the others |
| Middleware.RemoveUndoesInsert | src/middleware.ts:72-98 | removing a fresh name undoes its insertion at any position |
| Middleware.Composition.Dispatch | src/middleware.ts:136-148 | the recursive dispatch over the captured index computes the specification function |
| Middleware.Composition.CallInAnyOrder | src/middleware.ts:134-140 | what gets past the guard, for callers of the handed-out closures in any order |
| Middleware.EnteredOnceInOrder | src/middleware.ts:129-152 | however `next` is called, layers are entered at most once and in order, the handler last, and every other call is rejected |
| Middleware.DispatchIsFold | src/middleware.ts:125-152 | for all layers, dispatch by index is the right fold in which each layer reaches the next one by its first call only |
| Middleware.FoldIsOnion | src/middleware.ts:125-128 | for layers that call `next` at most once, that fold is the plain onion |
| Middleware.OnionNeedsOneCall | src/middleware.ts:137-139 | a layer behaves as in the plain onion around every handler if and only if it calls `next` at most once |
| Middleware.TraceIsNested | src/middleware.ts:125-152 | a settled call leaves one nested bracket word of entries and exits, around the handler only if all layers were entered |
| Middleware.Retry | src/middleware/retry.ts:49-73 | the loop makes at most maxRetries + 1 calls, stops at the first that does not throw, and throws the last error otherwise; it is the layer the theorems compose |
| Middleware.RetryInChainRetriesNothing | src/middleware/retry.ts:49-73 | inside a chain the retry layer runs its inside once, and with a retry a failure becomes the guard's error |
| Middleware.RetryAloneRetries | src/middleware/retry.ts:36-42 | without the guard the layer would run a failing inside maxRetries + 1 times |
| Middleware.EnqueueThreads | src/middleware.ts:154-181 | composed enqueue middleware hands on the fully threaded job, or drops it and never calls the end of the chain |
| Sse.ReadStream | src/subscribe.ts:131-169 | the loop over chunks and lines makes the calls of the handler, and ends in the state, that the whole text gives character by character |
| Sse.ChunkIsFed | src/subscribe.ts:142-146 | buffering, splitting and keeping the last piece is the same as feeding characters, from any state |
| Sse.ChunkBoundariesAreInvisible | src/subscribe.ts:138-169 | from any state whose buffer has no LF, taking buffer, split and pop over any cutting of a text into chunks makes the calls and ends in the state of the whole text |
| Sse.OnlyCanonicalEvents | src/subscribe.ts:146-168 | whatever the server sends, events have trimmed single lines as id and type and non-empty text of trimmed lines as data; and whatever the handler does, each of its calls is an event or the raw text of one it threw on |
| Sse.CallsFollowEvents | src/subscribe.ts:148-159 | for every text and every handler: the calls are the events in order, once each, and once more with the raw text after a throw, until it throws on raw text |
| Sse.BreaksIff | src/subscribe.ts:148-159 | the stream ends exactly at an event on which the handler throws, and throws again on the raw text; the call that ends it is the first on raw text that throws, and the last of all |
| Sse.PrintedEventsRoundTrip | src/subscribe.ts:146-168 | for every handler, printing canonical events and parsing the text gives exactly those events and leaves nothing behind; the handler is called with exactly those, once each, if and only if it throws on none |
| Sse.ThrowingHandlerIsCalledTwice | src/subscribe.ts:150-155 | a handler that throws on parsed data is called twice for one event |
| Sse.DeliverableIffCanonical | src/subscribe.ts:146-168 | a list is the events of some text if and only if all of them are canonical; and a list of calls is made by some text if and only if the handler makes it of canonical events |
| Sse.BlankLineSeparates | src/subscribe.ts:147-159 | texts joined at a blank line are parsed independently: no field leaks |
| Sse.CrLfStreamsDeliverNothing | src/subscribe.ts:143-147 | a stream whose lines end in CR LF delivers nothing |
| SseStandard.FitsIff | src/subscribe.ts:146-168 | a line keeps the parser and the standard in agreement, whatever came before, if and only if it fits: blank after a block without data or with an id, a comment or another field, or an event, id or data line with a colon, at most one space and a trimmed value, no NUL in an id, the first data value of a block not empty |
| SseStandard.Differences | src/subscribe.ts:160-168 | a text and both readings for untrimmed white space, NUL in an id, an empty first data line, and a missing colon |
| SseStandard.LaterIdDiffers | src/subscribe.ts:157-159 | a text and both readings for an event without an id behind one with an id |
| SseStandard.TextsAgree | src/subscribe.ts:146-168 | on every text without CR made of lines that fit, the parser and section 9.2.6 of the WHATWG HTML Standard deliver the same events |
| SseStandard.AgreesWithStandardIff | src/subscribe.ts:143-168 | on canonical events printed with LF, CR LF or CR, the parser and the standard deliver the same events if and only if there are none, or LF ends the lines and no field has a CR and no id a NUL |
| SseStandard.StandardReadsAll | src/subscribe.ts:143-146 | the standard reads the events without CR and NUL back with any of the three line ends |
| ProtoValue.Encode | src/transport/grpc.ts:701-725 | the record filled entry by entry is the encoding, without the unassignable key |
| ProtoValue.EncodingIsExact | src/transport/grpc.ts:701-725 | a message encodes a value if and only if, at every nesting, it sets the one field of the value's kind, lists keep their order and objects all keys but `__proto__` |
| ProtoValue.RoundTripNormalizes | src/transport/grpc.ts:697-749 | decoding an encoded value of any nesting gives its normal form: falsy leaves null, `__proto__` entries gone |
| ProtoValue.UnchangedIffClean | src/transport/grpc.ts:727-749 | the round trip is the identity if and only if the value has no such leaf and no such key |
| ProtoValue.NormalIsIdempotent | src/transport/grpc.ts:727-749 | a second round trip changes nothing |
| ProtoValue.DecodableIffClean | src/transport/grpc.ts:727-749 | messages with any fields decode exactly to the clean values |
| ProtoValue.FieldPrecedence | src/transport/grpc.ts:727-742 | of several fields the first in order text, number, flag, null, list, struct decides, and a field set to its default is as good as unset |
| ProtoValue.BareValues | src/transport/grpc.ts:744-748 | a bare value is read as itself exactly if it is a text, number or flag that is not a default, and as null otherwise |
| Workflow.ToWireStep | src/workflow.ts:172-198 | workflows are told from jobs by the keys of the object, not by its type; the result is the wire form, for every nesting |
| Workflow.ToWireWorkflow | src/workflow.ts:149-170 | the record filled field by field is the wire form: "chain" with steps, "group" with jobs, "batch" with jobs and callbacks |
| Workflow.WireIsExact | src/workflow.ts:149-214 | a record is the wire form of a definition if and only if, at every nesting, it has exactly the fields listed, with the job's kind, arguments, options and callbacks where they belong |
| Workflow.WireIsTyped | src/workflow.ts:149-178 | told by the wire alone, at every nesting: a record with steps is typed "chain", with callbacks "batch", with jobs only "group", and any other record is a job typed with its own kind |
| Workflow.WireRoundTrip | src/workflow.ts:149-214 | decoding by structure inverts the wire form up to normalization, jobs typed 'chain' or 'group' included |
| Workflow.WireKeepsJobs | src/workflow.ts:157-167 | the wire form carries every job once and in order |
| Workflow.SameWireIffSameNormal | src/workflow.ts:181-204 | the wire form loses exactly the argument shape and the falsy or unsupported options |
| Duration.ScanIsExact | src/retry.ts:102-108 | the scanner accepts exactly the texts of well-formed days, hours, minutes and seconds, and returns them |
| Duration.ScannerIsPattern | src/retry.ts:102-105 | the scanner accepts exactly the strings the regular expression matches and returns what its groups capture, so no string matches in two ways |
| Duration.ParseComponents | src/retry.ts:110-120 | days, hours, minutes and seconds add up in milliseconds |
| Duration.ParseParts | src/retry.ts:110-120 | every well-formed text, with any parts missing, parses to the sum of its days, hours, minutes, seconds and decimals in milliseconds |
| Duration.ValidatorAcceptsAllButTwo | src/validation/schemas.ts:129-146 | the validator's own regular expression matches what the parser's matches, and the validator accepts what parses without "P" and "PT" |
| Duration.MsToIsoDuration | src/retry.ts:126-140 | for every number of milliseconds, negative and fractional ones included, appending the units to the result gives the printed form |
| Duration.PrintedUnits | src/retry.ts:129-139 | from a second on, the whole seconds are printed as hours, minutes below 60 and seconds below 60, without the parts that are 0 |
| Duration.PrintedDecimals | src/retry.ts:127 | below a second, the nearest number of thousandths is printed without zeros at the end |
| Duration.PrintParse | src/retry.ts:126-140 | a printed duration parses and passes the validator if and only if it was not negative, and then gives the milliseconds rounded below a second and whole seconds above |
| Duration.PrintIsIdempotent | src/retry.ts:126-140 | printing what a printed duration parses to prints it again |
| Backoff.ComputeBackoff | src/retry.ts:40-77 | for any coefficient: without jitter the capped delay, with jitter that delay times a factor from a half up to one and a half, never above the cap, and 0 for a negative delay with jitter |
| Backoff.SuccessiveDelays | src/retry.ts:50-66 | before the cap, delays stay the same for none, grow by the first delay for linear, by the factor of the coefficient for exponential, and are powers of the retry number for polynomial; the cap changes exactly those above it |
| Backoff.BackoffIsMonotone | src/retry.ts:50-66 | the delay without jitter never shrinks with the retry number and stays at the cap once there, for every strategy whose factor does not shrink: always for none and linear, with a coefficient of at least 1 for exponential, and with natural exponents among others for polynomial |
| Backoff.NaturalPowersGrow | src/retry.ts:60-62 | powers with a natural exponent do not shrink |
| Backoff.ExponentialMonotoneIff | src/retry.ts:57-59 | when the first delay is not capped, the exponential delay never shrinks if and only if the coefficient is at least 1 |
| Backoff.IsNonRetryable | src/retry.ts:83-96 | true exactly when some entry equals the type or covers it as a prefix pattern |
| Backoff.CoversExactly | src/retry.ts:87-93 | an entry "a.*" covers exactly the strings "a." and more, so not "ab"; any other entry covers itself only |
| Names.QueuePatternLanguage | src/validation/schemas.ts:9 | the queue pattern accepts exactly the non-empty strings over [a-z0-9.-] that neither start nor end with a separator and have no two adjacent ones |
| Names.JobTypePatternLanguage | src/validation/schemas.ts:8 | the job type pattern accepts exactly the strings whose dot-split segments all match [a-z][a-z0-9_]* |
| Names.ValidNames | src/validation/schemas.ts:23-63 | which names the validators pass, the 128-character limit included, and when they say a name is missing or too long |
| HttpRetry.Request | src/transport/http.ts:46-81 | at most maxRetries + 1 attempts; it goes on past a reply if and only if retries are enabled and left, and the server limits the rate, answers 502, 503 or 504 while those are retried, or 429; the result is the first reply it does not go on past, or an abort in the sleep it hits; one attempt when retries are disabled, and never one after a 500; all sleeps together within both budgets |
| HttpRetry.DelayBound | src/rate-limiter.ts:68-83 | a delay is Retry-After clamped, or the capped doubling backoff times a factor from a half up to 1 |
| HttpRetry.EndsWith | src/transport/http.ts:60-76 | a request that nobody aborts ends with the first reply it does not go on past |
| HttpRetry.SleepBudget | src/transport/http.ts:71-75 | a request sleeps at most maxRetries times the longest backoff |
| HttpRetry.SleepBudgetWithoutRetryAfter | src/rate-limiter.ts:78-82 | and without Retry-After at most 2^maxRetries - 1 times the shortest |
| HttpRetry.RequestWithRetry | src/worker.ts:517-539 | ends with the first of three tries that succeeds, and fails after three when none does; a try succeeds when the reply it ends with does; 500 ms more are waited each time |
| HttpRetry.SettleJob | src/worker.ts:438-492 | acked exactly when the handler returned and one of three acks succeeds, else nacked exactly when one of three nacks does; at most 6 * (maxRetries + 1) HTTP attempts |
| FakeQueue.FakeStore.RecordEnqueue | src/testing.ts:97-134 | in fake mode a new available job is appended |
| FakeQueue.FakeStore.DrainOne | src/testing.ts:235-255 | the oldest available job is performed once; other jobs keep their state; its handler's jobs queue up behind |
| FakeQueue.FakeStore.Drain | src/testing.ts:229-257 | performed jobs are always a prefix of the enqueue order, growing by maxJobs unless the queue runs empty; each job performed ends completed or discarded as its handler says, its attempt one more than before; all other jobs keep state and attempt; and the new jobs are, in order, those the handlers enqueued |
| FakeQueue.FakeStore.DrainAll | src/testing.ts:235-237 | without a bound and with handlers that enqueue nothing, draining ends with every job performed as its handler says |

## Left out

- Worker restarts while a fetch or a stop is pending, and a second `stop()` while one waits (src/worker.ts:222, 588-597): the step system covers one start and one waiting stop.
- Handlers that throw before returning a promise, and event listeners that throw (src/worker.ts:439-486).
- Heartbeat requests: only what a heartbeat reply changes is modelled, and whether their timer is set; a process signal is a call of `stop`.
- Job timeouts: only that a job with a handler may be aborted at any time.
- Durable operations awaited concurrently, and handlers that branch on `isReplaying()`: neither is deterministic in the results seen.
- The `state`, `step_index` and `attempt` fields of a checkpoint: they are sent and never read back.
- The chain given to a composition is fixed during a call; changing it from inside a layer is not modelled.
- `MiddlewareChain.has`, `entries`, `length` and `clear`: one-line accessors.
- The delays of the retry layer (src/middleware/retry.ts:62-68): they do not affect what runs.
- Middleware.TraceIsNested: a pending call is only known to leave a prefix of a bracket word, because its layers have not returned.
- Side-effect results that `JSON.stringify` rejects (big integers, cycles): they make a checkpoint fail, which the model has as a request that is not stored.
- Text decoding, HTTP, headers, gRPC channels and `JSON.parse` itself: abstract inputs.
- ProtoValue.RoundTripNormalizes: covers JSON values; undefined, functions and big integers become null or strings in the source.
- Object key order in protobuf structs and wire records.
- The workflow builders' emptiness checks (src/workflow.ts:82-144).
- Backoff.ComputeBackoff: exact arithmetic; the rounding of floating point is not modelled, and `Math.pow` with an exponent that is not natural is an arbitrary function.
- Backoff.BackoffIsMonotone: the same, so that the polynomial strategy needs a power that grows with its base, which is proved for natural exponents.
- Duration.MsToIsoDuration: exact arithmetic; infinities, NaN and the exponent notation of numbers of 10^21 and more are not modelled.
- The matching helpers and inline mode of the testing module, and handlers that edit jobs, reset the store or drain it themselves.
- Sleeps after a negative Retry-After are bounded from above only.
