# Navigator harness: a model of its state machines

The Navigator harness is asynchronous code on one event loop: everything between two
awaits is atomic. Each module here models one of its machines, with the code's own
branches, and proves what holds in every run, for every interleaving, or for every input.

- **Scheduling.** `FifoSemaphore` is the reference: one FIFO semaphore of fixed capacity,
  with cancellation and pausing; `LaneLaws` says what its callers can rely on, from the
  operations and settlements alone. `TaskLimiter` (two classes, one shared list) and
  `ModelGate` are proved, method by method, against two independent copies of it;
  `LimiterRuns` and `GateRuns` lift that to whole runs. `SessionTails` composes the limiter
  with the promise tails of sessions (laws in `TailLaws`; `SessionsOnLimiter` performs its
  moves on the limiter itself), `DrainControl` with the drain tokens.
- **Session persistence.** `SessionStore` is the backend (laws in `StoreLaws`),
  `SessionHandle` the bounded queue that drains into it (laws in `HandleLaws`), `DurableLog`
  any number of handles and the backend with lost, late and repeated messages; by
  `WorldLaws` the laws of both hold in every such history. `LostReply` is about one lost
  reply. `PagedRead` is the paged read, `HandleRegistry` (laws in `RegistryLaws`) the
  registry of handles and takeovers.
- **Session logs.** `CodexImport` builds a log from messages and reads it back, `CodexTurns`
  says which turn each message is in; `InputReceipts` recovers completed requests from a
  log. All use `SessionLog`.
- **Streams.** `LineFraming` is the chunk and line loop that `SseWire` (printer and parser;
  `SseBlocks` gives the meaning of any block of fields), `ExchangeStream` with
  `ExchangeBlocks` and `ExchangeFrames`, and `AntigravityRun` share.
- **Authority and delivery.** `CanonicalJson` (serializer, reader and their round trip) and
  `JsonOrder`, `NotificationDelivery` and `FailedRecords`, `PublishChain`, `ModelFailover`,
  `AuthorizationWaits`.

`Options`, `Decimals` and `NulKeys` are shared vocabulary. `dafny verify dfyconfig.toml` checks everything.

## Where the code does less than it says

Each of these has a lemma at a failing input, and a theorem that says exactly when the code
does meet the property.

- A comment in `queue` (harness/src/persistence.ts:485) says later flushes can retry
  retained events. After a lost append reply that holds only if nothing was enqueued since,
  or if the lost batch was full (`LostReply.RetryRecoversIff`); otherwise the handle is stuck
  until its writer is replaced (`LostReply.WedgedForever`, `LostReply.OneLostReplyWedges`).
- `resumeWithTakeover` also reports success when the reserved handle was released before
  anybody opened it (`HandleRegistry.ResumeSucceedsIff`, `HandleRegistry.ResumeWithoutWriter`).
- Output of the Exchange adapter depends on chunk boundaries iff the text behind the first
  terminal line continues with another data line (`ExchangeStream.IndependentIff`,
  `ExchangeStream.DependentStream`); two tool calls share a block index iff their provider
  indices are the two largest safe integers (`ExchangeBlocks.BlocksAreSoundIff`,
  `ExchangeBlocks.ClashHappens`).
- `writeSseEvent` does not escape the event type (`SseWire.SurvivesIff`, `SseWire.LineBreakLost`).
- A notification the provider has taken can be recorded as failed, though it is never sent
  again: iff the recorded answer was a definite failure, or Work turned the first recording
  away with a status below 500 (`FailedRecords.FailedThoughTakenIff`, with the runs
  `FailedRecords.ClientErrorAfterAcceptance` and `FailedRecords.RefusedRecordAfterAcceptance`).
- Recorded authorization waits of different targets can share a key, for which some
  identifier must contain a NUL character; a resume is then safe iff every recorded wait is
  represented among the kept ones (`AuthorizationWaits.SafeIff`,
  `AuthorizationWaits.CollisionIsUnsafe`, `AuthorizationWaits.TargetsCanCollide`).
- The model gate keeps exclusion under an extra call of a release function iff nobody holds
  the lane (`GateRuns.GateNeedsSingleRelease`; `GateRuns.ExtraReleaseGrantsIff` gives the
  second holder).

## Model

| member | source | states |
|---|---|---|
| FifoSemaphore.RunKeepsInvariant | harness/src/executor.ts:401-514 | over every run of a lane: holders within capacity, nobody waits while a unit is free, grants in arrival order with all waiters behind them, each arrival settled exactly once or still waiting |
| FifoSemaphore.AtMostOneWakeup | harness/src/executor.ts:492-513 | a release grants at most one waiter, and an arrival, a resume or the removal of a waiter grants none of those already waiting |
| FifoSemaphore.StepKeepsInvariant | harness/src/executor.ts:452-513 | each operation keeps admission order, occupancy and saturation |
| FifoSemaphore.StepConserves | harness/src/executor.ts:452-513 | each operation settles a ticket exactly when it leaves the line |
| LaneLaws.ArrivalOutcome | harness/src/executor.ts:452-477 | after every run: an arrival is rejected iff its signal is aborted, else sent back iff the lane is closed, else granted iff a unit is free, else it is the last of the line |
| LaneLaws.ReleaseOutcome | harness/src/executor.ts:492-513 | after every run: a release grants the first waiter whose signal is not aborted, rejects those before it, and keeps those behind it in order |
| LaneLaws.EverySettlement | harness/src/executor.ts:452-513 | over every run: a grant only while the lane is open and the signal is not aborted, a rejection only after the signal, a pause only at a closed lane or while it is being closed |
| LaneLaws.GrantedOrWaiting | harness/src/executor.ts:452-513 | in a run that is never paused, every arrival whose signal was not aborted is granted or waits in the line |
| TaskLimiter.NewLimiter | harness/src/executor.ts:410-415 | a limiter exists exactly for a maximum of 2 to 32, as two empty semaphores of capacity max-1 and 1 |
| TaskLimiter.TaskConcurrencyLimiter.Acquire | harness/src/executor.ts:452-477 | the shared counters and list do to the caller's lane what its own semaphore would, and nothing to the other lane |
| TaskLimiter.TaskConcurrencyLimiter.Release | harness/src/executor.ts:492-513 | a release behaves as on the lane's own semaphore; the other lane sees nothing |
| TaskLimiter.TaskConcurrencyLimiter.OnAbort | harness/src/executor.ts:465-470 | an aborted waiter leaves the line once, rejected once, and overtakes nobody |
| TaskLimiter.TaskConcurrencyLimiter.BeginDrain | harness/src/executor.ts:427-434 | both lanes reject all their waiters in order and stay closed |
| TaskLimiter.TaskConcurrencyLimiter.Resume | harness/src/executor.ts:437-441 | both lanes reopen as two independent semaphores would |
| TaskLimiter.Insertion | harness/src/executor.ts:473-475 | inserting before the first background waiter appends to the foreground line and keeps the two-line shape |
| TaskLimiter.RunnableInOrder | harness/src/executor.ts:502-504 | the first runnable entry of the shared list is the head of the first lane that can run |
| LimiterRuns.Replay | harness/src/executor.ts:401-514 | over every legal run the limiter refines two independent FIFO semaphores: same occupancy, lines and settlements in the same order |
| GateRuns.ReplayGate | harness/src/model-gate.ts:20-86 | over every run of the gate both lanes do what semaphores of capacity one would do alone, and neither ever has two holders |
| GateRuns.GateNeedsSingleRelease | harness/src/model-gate.ts:70-85 | after any run, an extra release keeps exclusion, now and at the next arrival, iff nobody holds the lane; it admits a second holder at once iff somebody does and some waiter is not aborted |
| GateRuns.ExtraReleaseGrantsIff | harness/src/model-gate.ts:70-85 | what an extra release does in every state of a lane of capacity one: nothing, a second holder, or a lane that is free though held |
| ModelGate.PrioritizedModelGate.Acquire | harness/src/model-gate.ts:31-59 | boolean slots and the shared list act on the caller's lane as a semaphore of capacity one, and leave the other lane alone |
| ModelGate.PrioritizedModelGate.Release | harness/src/model-gate.ts:70-85 | a release acts as on the lane's own semaphore of capacity one |
| ModelGate.PrioritizedModelGate.OnAbort | harness/src/model-gate.ts:43-47 | removing an aborted waiter needs no pumping: nobody becomes runnable |
| SessionTails.MoveKeeps | harness/src/executor.ts:1676-1705 | every move of the composed system keeps its invariant; apart from submissions work never grows, and progress moves take some away |
| SessionTails.SessionsAreSerial | harness/src/executor.ts:1676-1690 | in every reachable state tasks of a session run one at a time in submission order, and exactly running tasks hold slots, within capacity |
| SessionTails.DeleteKeeps | harness/src/executor.ts:1686-1688 | a tail is deleted only when its whole session has settled, so a new task never overlaps an old one |
| SessionTails.NeverStuck | harness/src/executor.ts:1390-1396 | deadlock freedom: an unfinished task means some task can start, finish or settle, with less work left |
| SessionTails.TasksAreSubmissions | harness/src/executor.ts:1676-1692 | in every run the n-th task is the n-th submission, with its session and class |
| TailLaws.PhaseLaw | harness/src/executor.ts:1676-1706 | the exact phase every move leaves every task in: run, queue, end or settle |
| TailLaws.AbortedIff | harness/src/executor.ts:1695-1706 | in every run a task counts as aborted iff its signal was aborted after its submission |
| TailLaws.OnlyUnabortedStart | harness/src/executor.ts:1695-1706 | in every run no move starts a task whose signal was aborted |
| SessionTails.TailIsForgotten | harness/src/executor.ts:1685-1689 | a tail may be deleted iff its task has settled and is the newest of its session |
| SessionsOnLimiter.ReplaySessions | harness/src/executor.ts:1676-1705 | driven by any run of the composed system, in whatever order tasks arrive, the limiter's two lanes are those of the model |
| DrainControl.EveryRun | harness/src/executor.ts:578-633 | pausing follows the token, generations and claims never decrease, shutdown is absorbing, no claim while a drain lasts |
| DrainControl.TokenWorksOnce | harness/src/executor.ts:615-624 | a generation and token that resumed are refused for ever after |
| DrainControl.OldTokenRefused | harness/src/executor.ts:619-621 | a token of an earlier drain never ends a later one, even if the same token is drawn again |
| DrainControl.ResumeIff | harness/src/executor.ts:614-633 | over every run with its replies: a resume succeeds iff the executor is not stopping and generation and token are the pair answered by a request of the drain that is open now |
| DrainControl.DrainAnswers | harness/src/executor.ts:578-612 | a drain request is answered with the pair of the drain open from then on, and the limiter is paused; it is refused iff the executor is stopping |
| DrainControl.ShutdownIff | harness/src/executor.ts:587-603 | a shutdown drain is refused iff the executor was disposed, and otherwise answered with the token of the open drain |
| DrainControl.ClaimIff | harness/src/executor.ts:1720-1722 | a durable claim is issued iff no drain is open and the executor is not stopping |
| DrainControl.ExecutorDrain.ResumeFromDrain | harness/src/executor.ts:615-624 | only the current generation and token resume; the limiter drains exactly while a token is set |
| DrainControl.ExecutorDrain.Claim | harness/src/executor.ts:1720-1722 | no durable claim while draining, also for a slot reserved before |
| SessionStore.AppendKeeps | src/cyrene_navigator/persistence/store.py:462-566 | an append extends the gap-free log or leaves it alone, and keeps every receipt describing its own slice |
| SessionStore.AppendIsIdempotent | src/cyrene_navigator/persistence/store.py:462-566 | a repeated batch gets the same answer and changes nothing |
| SessionStore.OldEpochIsFenced | src/cyrene_navigator/persistence/store.py:667-693 | once a writer was opened or released, whatever requests follow, nobody using the epoch before that can append, confirm or release again |
| StoreLaws.RunAmountsTo | src/cyrene_navigator/persistence/store.py:342-626 | after every sequence of requests the owner is the last one opened unless released since, the epoch counts the openings and releases, and the log grew by the accepted new batches in order |
| StoreLaws.OpenIff | src/cyrene_navigator/persistence/store.py:342-403 | when a write open is granted, and which condition a refusal names |
| StoreLaws.OwnerOnly | src/cyrene_navigator/persistence/store.py:667-693 | only the owner, by actor, token, epoch and lease, appends, confirms and releases |
| StoreLaws.AppendIff | src/cyrene_navigator/persistence/store.py:487-566 | a batch of the owner is stored iff its id is new and its numbers continue the log, and answered again iff its id is known with the same content |
| SessionHandle.EveryInterleaving | harness/src/persistence.ts:408-510 | under every interleaving of calls, awaits, replies and failures: drained then pending is exactly what was enqueued, numbers are contiguous, the queue is bounded |
| SessionHandle.AcknowledgeKeeps | harness/src/persistence.ts:492-510 | an acknowledgement removes exactly the acknowledged batch, whatever was enqueued meanwhile |
| SessionHandle.FlushCovers | harness/src/persistence.ts:99-112 | a flush that reaches its confirmation has everything enqueued before it acknowledged, in order |
| HandleLaws.EnqueueIff | harness/src/persistence.ts:460-470 | after every run an event is taken iff the handle was not closed, has learned of no loss and is below its limit; it is then the last of the queue; a refusal names the first failing condition and changes nothing |
| HandleLaws.CallsIff | harness/src/persistence.ts:408-448 | flush and append are taken on the same terms and queue up in order; closing is taken once |
| HandleLaws.TakesNothingMore | harness/src/persistence.ts:474-481 | once a handle is closing or lost, whatever follows, its queue and its open calls only shrink from the front |
| HandleLaws.LostSendsNothing | harness/src/persistence.ts:501-503 | a handle that knows of the loss issues no further request |
| HandleLaws.BegunInOrder | harness/src/persistence.ts:483-489 | operations begin once each, in the order of the calls |
| HandleLaws.SendsInOrder | harness/src/persistence.ts:491-503 | every new request is for the first events of the queue, as many as a batch holds, or for the append's own once the queue is empty, and continues what was acknowledged |
| HandleLaws.FlushEnds | harness/src/persistence.ts:419-427 | a flush only ends well by its own confirmation |
| HandleLaws.AppendEnds | harness/src/persistence.ts:408-417 | after every run an append only ends well when its own events are acknowledged next, or it has none |
| HandleLaws.CloseEnds | harness/src/persistence.ts:429-449 | a release is requested only after the flush before it was confirmed; every other end releases the handle too |
| HandleLaws.ReleasedIff | harness/src/persistence.ts:429-449 | a handle is released iff it was closed and its close operation has ended, well or badly |
| HandleLaws.DrainsCompletely | harness/src/persistence.ts:491-499 | while the backend answers, a flush or close sends the whole queue and reaches its confirmation, whatever the batch size |
| SessionHandle.CyreneSessionHandle.Enqueue | harness/src/persistence.ts:460-470 | the queue grows by the event, or the call fails as closed, lost or full |
| SessionHandle.CyreneSessionHandle.Advance | harness/src/persistence.ts:492-506 | from the head of the drain loop to the next request, with the same rejections |
| SessionHandle.CyreneSessionHandle.OnAcknowledged | harness/src/persistence.ts:496-509 | the reply handler follows the specification and keeps the invariant |
| DurableLog.Reachable | harness/src/persistence.ts:501-510 | handles and backend stay consistent over every history of opens, lost, late and repeated messages and takeovers |
| DurableLog.AcknowledgedStays | src/cyrene_navigator/persistence/store.py:462-566 | an event counted as acknowledged stays in the log for ever at its own number, stored once |
| DurableLog.FlushedIsDurable | harness/src/persistence.ts:419-427 | a confirmed flush makes every event enqueued before it durable |
| DurableLog.ReplyMatches | harness/src/persistence.ts:506-508 | the reply a handle waits for is always the expected prefix: the acknowledgement check cannot fail |
| WorldLaws.StoreIsBackend | src/cyrene_navigator/persistence/store.py:462-566 | in every history the store is the backend after exactly the requests that reached it |
| WorldLaws.HandleIsHandle | harness/src/persistence.ts:408-510 | in every history each handle is a session handle after pieces of its own code |
| LostReply.RetryAcceptedIff | src/cyrene_navigator/persistence/store.py:488-526 | a handle the backend is ahead of is accepted iff it sends the very batch that was committed |
| LostReply.RetryRecoversIff | harness/src/persistence.ts:483-510 | a retry after a lost reply catches up iff nothing was enqueued since or the lost batch was full |
| LostReply.WedgedForever | harness/src/persistence.ts:491-510 | otherwise nothing more is stored and no flush, close or gated tool start is confirmed while the epoch lasts |
| LostReply.OneLostReplyWedges | harness/src/persistence.ts:491-510 | for every batch size above one, one lost reply and one more event lead there |
| HandleRegistry.RegistrySafety | harness/src/persistence.ts:265-286 | in every run writers and reservations are live handles of their own session, the writer is the newest, and no reserved handle is handed out twice |
| HandleRegistry.SuccessorStays | harness/src/persistence.ts:265-269 | releasing an older handle leaves its successor in place |
| HandleRegistry.ResumeLeavesNoReservation | harness/src/persistence.ts:164-183 | the end of a takeover resume, good or bad, leaves no reservation |
| HandleRegistry.ResumeSucceedsIff | harness/src/persistence.ts:173-175 | a returned resume succeeds iff its handle was handed out or already released |
| HandleRegistry.ResumeWithoutWriter | harness/src/persistence.ts:172-175 | a run in which a resume succeeds with no writer and nothing handed out |
| RegistryLaws.ResumeAcceptedIff | harness/src/persistence.ts:164-168 | after every run a takeover resume is accepted iff the newest writer is released and no other resume of the session is running; a refusal changes nothing |
| RegistryLaws.OpenGetsIff | harness/src/persistence.ts:135-144 | a write open gets a handle without a request iff a running resume of the session holds that one ready; no later open gets it |
| RegistryLaws.ReleaseTakesOne | harness/src/persistence.ts:265-269 | a release takes away this handle and nothing else |
| RegistryLaws.AdoptedIsNew | harness/src/persistence.ts:281-286 | an adopted handle was never seen before, and becomes the writer iff it is for writing |
| HandleRegistry.CyreneSessionPersistence.OpenWrite | harness/src/persistence.ts:140-144 | a write open takes the reservation, which is then gone |
| HandleRegistry.CyreneSessionPersistence.ReleaseHandle | harness/src/persistence.ts:265-269 | only this exact handle leaves the three collections |
| PagedRead.Read | harness/src/persistence.ts:374-406 | terminates with one contiguous slice from the offset, at most the length asked for, at least what was there at the start; fails only if an overlapping read had seen a longer log |
| PagedRead.ReadAlone | harness/src/persistence.ts:374-406 | reads that do not overlap never report a shrunken log |
| CodexImport.BuildEvents | harness/src/import-codex.ts:990-1114 | the loop yields numbers 0..n-1 and exactly the turn grouping of the message list, then history, marker and end of seed |
| CodexImport.ImportIsNested | harness/src/import-codex.ts:1036-1079 | an independent reader finds turns 1, 2, 3, ..., one nested step each, none left open, messages only inside |
| CodexImport.PreviewRecovers | harness/src/import-codex.ts:814-875 | preview returns exactly the imported messages and history, whatever was appended later, and the marker is found again |
| CodexImport.SeedIsTurns | harness/src/import-codex.ts:658-668 | the continuation seed is exactly the turns; without messages there is none |
| CodexImport.SeedKeepsMessages | harness/src/import-codex.ts:658-668 | the seed is balanced and shows every message, no history and no marker |
| CodexTurns.ImportGroups | harness/src/import-codex.ts:1036-1079 | read off the log: a reply right behind a user message is in its turn, every other message in the next one, the first in turn 1 |
| CodexTurns.ImportEnds | harness/src/import-codex.ts:1081-1113 | the log ends with the history in order, one marker and the end of the seed, and has no such record elsewhere |
| InputReceipts.CompletedRequestIds | harness/src/session-control.ts:184-219 | reports exactly the requested ids with a start, a matching message and a completed end of one turn with no boundary between |
| InputReceipts.WindowIsSound | harness/src/session-control.ts:93-105 | a suffix window never adds a receipt, and gives one iff its turn starts inside |
| InputReceipts.ContextKeepsReceipts | harness/src/session-control.ts:184-219 | events before or after never take a receipt away |
| InputReceipts.ImportGivesNoReceipt | harness/src/import-codex.ts:1050-1053 | imported history proves no live request |
| LineFraming.Feed | harness/src/executor-client.ts:98-115 | the chunk loop equals its recursive specification for every machine |
| LineFraming.RunIs | harness/src/executor-client.ts:98-115 | chunks decide only how much text behind a stop has arrived; without a stop nothing |
| LineFraming.LinesPrinted | harness/src/executor.ts:4801-4805 | splitting printed lines gives them back |
| SseWire.StreamTaskEvents | harness/src/executor-client.ts:74-124 | for every text and every division into chunks, the frames and the failure are those of the whole text |
| SseWire.RoundTrip | harness/src/executor.ts:4801-4805 | printed frames with keep-alives, cut anywhere, come back as frames, and unchanged iff no type ends in a carriage return and numbers are safe integers |
| SseWire.SurvivesIff | harness/src/executor.ts:4801-4805 | for every sequence of numbered and unnumbered frames: they come back exactly iff every type is one line not ending in a carriage return and every number is a safe integer |
| SseWire.LineBreakLost | harness/src/executor.ts:4535-4537 | a numbered frame whose type contains a line break does not come back |
| SseBlocks.BlockYields | harness/src/executor-client.ts:79-114 | for every block of field lines, in any order and spelling: one frame of the last NUL-free id, the last type and all data, none without data, a failure iff the data is not JSON |
| SseBlocks.BlockMeans | harness/src/executor-client.ts:99-114 | comments, unknown fields, one optional space and carriage returns before a line break do not matter |
| SseBlocks.UnterminatedIs | harness/src/executor-client.ts:116-124 | an event the stream ends in is delivered as if ended, unless its last line is a bare name, ends in a carriage return or is an id with a NUL |
| SseBlocks.BareDataDropped | harness/src/executor-client.ts:116-122 | a last line that is only the word data is ignored, though it counts before a line break |
| ExchangeStream.IndependentIff | harness/src/exchange-adapter.ts:230-250 | with a terminal line, output is independent of chunking iff what follows it does not start with a data line |
| ExchangeStream.DependentStream | harness/src/exchange-adapter.ts:240-250 | any stream with a data line behind its terminal line depends on its chunks |
| ExchangeStream.UnterminatedIsIndependent | harness/src/exchange-adapter.ts:230-250 | without a terminated terminal line the result is that of the whole text |
| ExchangeBlocks.BlocksAreSoundIff | harness/src/exchange-adapter.ts:155-268 | per index one start, deltas, one end equal to their concatenation under one id, iff no two calls carry the two largest safe integers |
| ExchangeBlocks.ClashHappens | harness/src/exchange-adapter.ts:203-206 | a stream that completes normally with two named calls under the two largest indices has an unsound block |
| ExchangeBlocks.BlocksAreFaithful | harness/src/exchange-adapter.ts:176-228 | text and reasoning are the concatenated fields; a call has its first id or a default, and its own names and arguments |
| ExchangeFrames.FramesAreDataLines | harness/src/exchange-adapter.ts:155-166 | for every text the frames are the contents of its data lines up to the first that is no frame; it is done or failed by what that one is |
| ExchangeFrames.StreamIsDataLines | harness/src/exchange-adapter.ts:230-252 | for every division into chunks: without a terminated terminal line, what stands behind the last line break is one more line |
| ExchangeFrames.ReasonIff | harness/src/exchange-adapter.ts:165-268 | the final reason is max-tokens iff the last finish reason was length, else tool-calls iff a call or one of its two reasons occurred, else stop; usage is passed on in order |
| ExchangeFrames.CompletesIff | harness/src/exchange-adapter.ts:247-260 | a stream completes iff the terminal line was read, no line failed and every call has a name |
| ExchangeFrames.DefaultIdsDiffer | harness/src/exchange-adapter.ts:223-226 | default call ids spell the provider index and so differ |
| AntigravityRun.AcceptsIff | harness/src/antigravity-adapter.ts:381-457 | the automaton reaches a result iff the trace is in the declared language |
| AntigravityRun.RunCli | harness/src/antigravity-adapter.ts:484-557 | the run resolves iff output is within its limit, the exit is clean and the trace of the whole output is accepted, whatever the chunks |
| CanonicalJson.CanonicalIff | harness/src/connector-authorization.ts:694-696 | two finite JSON values have one canonical text iff they are the same value up to key order |
| CanonicalJson.CanonicalRoundTrip | harness/src/connector-authorization.ts:694-696 | reading the canonical text of a value with an independent JSON reader gives a value of the same meaning |
| CanonicalJson.ReadsBack | harness/src/connector-authorization.ts:694-696 | every serialised value is read back, whatever delimiter follows |
| JsonOrder.CanonIsTidy | harness/src/connector-authorization.ts:859-862 | every object at any depth lists its array indices ascending and then its other keys by code units |
| JsonOrder.HasTextIff | harness/src/connector-authorization.ts:852-863 | there is a canonical text iff nothing that is not JSON occurs anywhere in the value |
| JsonOrder.EscapedIsWellFormed | harness/src/connector-authorization.ts:694-696 | surrogates occur in pairs only in every serialised string |
| CanonicalJson.SerInjective | harness/src/connector-authorization.ts:694-696 | serialisation, escapes included, is injective and self-delimiting |
| CanonicalJson.SameCanon | harness/src/connector-authorization.ts:852-864 | values of one meaning have one canonical value |
| CanonicalJson.CanonDenotes | harness/src/connector-authorization.ts:852-864 | canonicalising keeps the meaning |
| CanonicalJson.CanonIdempotent | harness/src/connector-authorization.ts:852-864 | canonicalising twice changes nothing |
| CanonicalJson.BindsIff | harness/src/connector-authorization.ts:829-843 | for every grant: it passes iff the references agree, the arguments mean the granted ones, and the digest is that of the granted arguments |
| NotificationDelivery.RetryIff | harness/src/connector-authorization.ts:260-331 | after a send, a retry is recorded iff a confirmed 429 came back, in all three flows |
| NotificationDelivery.DeliveredIff | harness/src/executor.ts:3573-3589 | delivery is recorded iff a successful response says accepted, with a vendor id for personal messages |
| NotificationDelivery.BeforeCallIff | harness/src/executor.ts:4080-4109 | before the provider call: retry iff a credential notice met a bounded 429, no status or a server error, otherwise failed |
| NotificationDelivery.DuringCallIff | harness/src/executor.ts:3590-3605 | during the call: retry iff a bounded 429, uncertain iff the outcome is unknown |
| NotificationDelivery.RetryIsClaimedAgain | src/cyrene_navigator/work/store.py:7570-7598 | a retry recorded in time by the started lease queues the row again, and the next claim leases it under a new token |
| NotificationDelivery.LapsedLease | src/cyrene_navigator/work/store.py:4385-4415 | a lapsed lease returns to the queue if it was never started, and is closed as uncertain if it was |
| NotificationDelivery.SentAfterStart | src/cyrene_navigator/work/store.py:7559-7569 | over every run nothing is prepared, sent or recorded by an attempt that did not start its current lease in time and hear so |
| NotificationDelivery.StatusLaw | src/cyrene_navigator/work/store.py:7553-7612 | exactly which claim, start, record and expiry moves the row, and where to |
| NotificationDelivery.AtMostOnce | src/cyrene_navigator/work/store.py:4317-4473 | over all attempts, crashes and lost replies: accepted at most once, queued again only while no acceptance is possible, delivered only after one |
| FailedRecords.FailedThoughTakenIff | harness/src/executor.ts:3577-3611 | over every run, a taken message is recorded as failed iff the first recording took effect after an answer that says failed, or the second one did after Work answered the first with a status below 500 |
| FailedRecords.FailedIff | harness/src/connector-authorization.ts:602-667 | which answers every flow classifies as a definite failure |
| FailedRecords.RecordIsTruthful | harness/src/executor.ts:3573-3611 | over every run a closed row says what the answer of its attempt says, or the error of its first recording, or that a lease lapsed |
| FailedRecords.ClientErrorAfterAcceptance | harness/src/connector-authorization.ts:641-664 | a run in which the provider takes the message and answers with a client error |
| FailedRecords.RefusedRecordAfterAcceptance | harness/src/executor.ts:3583-3611 | a run in which the answer says accepted and Work turns the first recording away |
| NotificationDelivery.FinishKeeps | src/cyrene_navigator/work/store.py:7555-7612 | only the started lease records: a repeated or late record changes nothing, so it never reopens a closed row |
| PublishChain.StoredIsPrefix | harness/src/executor.ts:4911-4923 | stored events are an in-order prefix of the published ones, each once; a subscriber has seen that prefix with its stored numbers, but for a last event whose reply is outstanding |
| PublishChain.NothingAfterFailure | harness/src/executor.ts:4914-4922 | after the first failure nothing is passed on and at most the failed event can still be stored |
| PublishChain.FailsIff | harness/src/executor.ts:4911-4923 | the chain fails iff an outstanding request gets a client error, or no answer for the second time |
| PublishChain.GetsThrough | harness/src/executor.ts:4911-4923 | from every reachable state that has not failed, the next event gets through once its request and reply do |
| ModelFailover.RunStep | harness/src/executor.ts:818-858 | a step asks the selected route and then the fresh configured ones in order, and fails when they are used up |
| ModelFailover.TriedOnce | harness/src/model-policy.ts:70-88 | no route key is asked twice in a step |
| ModelFailover.FreshInOrder | harness/src/model-policy.ts:79-87 | routes are tried in configured order |
| ModelFailover.FreshComplete | harness/src/model-policy.ts:79-87 | every configured key is tried before giving up |
| ModelFailover.KeySeparates | harness/src/model-policy.ts:70-88 | route keys tell provider and model apart for NUL-free names |
| ModelFailover.AskedExactlyOnce | harness/src/model-policy.ts:70-88 | every configured route is asked exactly once before the step gives up |
| ModelFailover.ModelRouting.OnRequestError | harness/src/executor.ts:842-858 | an availability failure moves to the next fresh route, if any |
| AuthorizationWaits.CollapseCovers | harness/src/executor.ts:5071-5096 | for each key a recorded wait of the highest generation is kept, and nothing else |
| AuthorizationWaits.AuthorizationWaitReceipts | harness/src/executor.ts:5071-5096 | the loop computes exactly the collapsed log |
| AuthorizationWaits.Resumable | harness/src/executor.ts:2666-2694 | a resume goes ahead iff there is a wait, every kept one is complete, and its check is ready, for that connection and authorization, under a higher generation |
| AuthorizationWaits.ResumesIff | harness/src/executor.ts:2666-2694 | on the fields: a wait exists, and every kept one names connection, authorization and generation and its check is ready, for that target, and newer |
| AuthorizationWaits.OneCheckRefuses | harness/src/executor.ts:2688-2692 | one check that is not ready, names another target or is no newer refuses the resume |
| AuthorizationWaits.SafeIff | harness/src/executor.ts:2666-2694 | for every log: resuming implies that every recorded generation was exceeded for its own target, whatever the checks return, iff no resume is possible or every recorded wait with a generation is represented among the kept ones |
| AuthorizationWaits.ResumeIsSafe | harness/src/executor.ts:2666-2694 | unless recorded targets collide, a resume means every recorded generation was exceeded for its own connection and authorization |
| AuthorizationWaits.PlainIsSafe | harness/src/executor.ts:5088-5089 | identifiers without NUL characters never collide |
| AuthorizationWaits.CollisionIsUnsafe | harness/src/executor.ts:5088-5093 | any two complete colliding targets admit a resume that checked only one |

## Left out

- HTTP, fetch, child processes, timers and signals: steps of the environment (a reply, a failure, an abort, a crash).
- UTF-8 decoding and byte counts: chunks are text, and one character stands for one byte of Antigravity output.
- The JSON grammar inside streams: which lines are JSON, and what their fields are, is a parameter.
- SHA-256, UUIDs, lease tokens: a batch is its own digest, tokens and message ids are new values.
- Event times in imports: not ordered by design.
- The import wrapper around `BuildEvents` (uploads, header checks, re-publication) and the subset of history records it drops before the loop.
- `adopt` and the reservation behind it in a takeover are one step: only promise resolution lies between them.
- Handles, waiters and tasks that hold each other by reference are values with an identity; aliasing is not modelled.
- Stream parsers keep their local variables in one value; the chunk and line loops are loops.
- PagedRead.Read: overlapping reads appear only through the observed length they leave behind.
- ModelFailover.RunStep: assumes nobody selects another route, and no other hook asks for a retry, within the step.
- HandleRegistry.RegistrySafety: a handle may already be closing when it is handed out, while a failing resume closes it.
- NotificationDelivery.AtMostOnce: assumes that the provider reports an acceptance only for a message it took, and a confirmed rate limit only for one it will never take.
- The personal credential notices, Teams activity checks, plugin loading, responsibilities: field checks, or no uniform invariant.
- JSON schemas of structured Antigravity output, and its own variant of canonical JSON.
- A JavaScript number is its printed form, so 0 and -0 are one value in `CanonicalJson`.
