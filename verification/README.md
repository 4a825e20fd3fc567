# Verified model of the execution engine, the catalog and the limiter

Vulcan Model Core routes model requests to upstream providers. This project models the parts of it in
which several writers, restarts and retries meet, and proves what they keep:

- **The durable execution engine** (`internal/execution`). `ExecutionStore` is the compare-and-swap
  record store with its idempotency index and append-only logs. `Lifecycle` interleaves all writers of one
  execution: the lease holder, cancellations, streaming sinks, task observers and stale recoveries.
  `AttemptRuns` follows the attempt budget through those interleavings.
  `RouterHistory` and `RouterRounds` treat router tool rounds: the live counters of the loop, what a round
  writes into the parent conversation, and how a restarted process rebuilds the counters from the record
  alone; `RouterRuns` runs them over sessions, crashes and foreign writes. `RouterChildren` is the identity
  of child executions, `WorkerPool` the parallel batch of a round.
  `Executor` is one session of the dispatch loop (failover, rounds, schedule, success, provider tasks),
  `EventSink` the streaming sink, `RetrySchedule` the schedule arithmetic, and `ExecutionRuns` says what
  sessions log together and where they stop. `EventReplay` is a client that follows the log over reconnects.
- **The catalog** (`internal/catalog`, `internal/provider`). `Json` and `Projection` are JSON trees, the
  path-conflict validator and the mutations it admits. `CatalogStore` is the change log and its replicas,
  `DynamicCatalog` the tombstones under concurrent refreshes, `PolicyValidation` the publication rules.
- **The limiter** (`internal/access`): `AccessLimiter`.

Code that changes state step by step is a class or a method with loops, proved against a specification
function or a declarative predicate; the laws are lemmas about those. Concurrency is a step relation over
every interleaving. What the code asks others for (providers, target resolver, clock, request validator,
digest) is a parameter; its contract, where one is needed, is a precondition with a name.

Where a promise fails, there is a lemma with the failing case and one that gives the exact condition:

- A streaming execution can announce its outcome twice: recovery may start from a listed record that says
  running although the stream has succeeded since, the transition to running is then a no-op, and the
  success write checks no status (`Lifecycle.UnguardedRunHasTwoOutcomes`). In every run the outcome is
  announced once exactly as long as no success is accepted from a record that had succeeded
  (`Lifecycle.OneOutcomeIffNoRepeat`). Starts of running records while the stored one has not succeeded
  keep it so, however stale they are (`Lifecycle.GuardedRunsHaveOneOutcome`); every other start can break
  it (`Lifecycle.GuardIsNeeded`). The failing run needs a driver that completes without the sink, as those
  of `internal/provider/openai/image.go` and `internal/provider/google/speech.go` do if their model declares
  streaming delivery. A driver that streams events is refused with its first one on a terminal record
  (`internal/execution/event_sink.go:136`), and its session ends without a second success.
- The same start can pass the attempt cap: the session computes its room from the record in hand
  (`internal/execution/service.go:738`) and appends its attempts to the stored one (`service.go:763-767`,
  `service.go:2734`), whose validator counts attempts only while it waits. Every admitted streaming request
  has such a run, so one that allows a single attempt can end with two
  (`AttemptRuns.StreamingRequestsMayPassCap`); for a driver that uses the sink the refusal itself is the
  second attempt. Attempts stay within the cap in every run in which a streaming session that is handed a
  running record is handed the attempts of the stored one (`AttemptRuns.AttemptsStayWithinCap`), and every
  other start can pass it (`AttemptRuns.RefusedStartPassesCap`). Failover suffers, too: the exclusions name
  the target that was read back (`ExecutionRuns.StaleStartRepeatsPair`); a session that was handed the
  stored work keeps its discipline on what it dispatched (`Executor.CurrentStartKeepsAll`).
- In every run a session resumes with exactly the counters and identifiers of the committed calls if and
  only if call identifiers carry no surrounding white space and no caller result answers one of them once
  trimmed (`RouterRuns.ResumesExactlyIff`, `RouterHistory.RecoveryRestoresLiveIff`); history trims
  identifiers, the live loop does not (`RouterRounds.WhitespaceBreaksRecovery`). The ceilings and the bound
  on rounds hold whatever the identifiers look like (`RouterRuns.RoundsAreBounded`).
- A create that is refused for a taken identifier still binds its idempotency key
  (`ExecutionStore.RefusedCreateBindsKey`, `ExecutionStore.CreateKeepsIndexIff`).
- The comment on `MaxAttempts` (`internal/vcp/operations.go:215-217`) promises retries until expiry when it
  is omitted. A session then dispatches if and only if fewer attempts are recorded than eight plus the
  router ceilings and its router history can be read (`ExecutionRuns.OmittedLimitDispatchesIff`). At that
  number the schedule still grants a retry before expiry, and its session fails without a dispatch
  (`ExecutionRuns.ExhaustedRetryFailsUndispatched`, for instance `ExecutionRuns.ExhaustedRecordIsDue`). So
  does every session that cannot read its history (`ExecutionRuns.UnreadableRetryFailsUndispatched`), for
  instance after one round beside a caller's identifier with a space
  (`ExecutionRuns.SpacedRecordIsUnreadable`).
- The comment at `internal/vcp/operations.go:196` promises growth after each failure. The delay after one
  more attempt is longer if and only if the backoff is exponential, the attempts before it fill whole
  cycles of eight, and the delay is below the maximum; the retry is due later if, moreover, the provider does
  not ask for more than the longer delay (`RetrySchedule.NextFailureGrowsIff`); the second
  failure never changes it (`RetrySchedule.SecondFailureKeepsDelay`). Without router tools it never grows
  (`RetrySchedule.PlainRetriesNeverBackOff`), and a multiplier of one jumps to the maximum
  (`RetrySchedule.UnitMultiplierJumps`).
- A granted retry of a provider task that failed to start is scheduled if and only if the session was handed
  a running or a waiting record (`Executor.TaskRetryIsTakenIff`); for an accepted one the store refuses the
  schedule and the session is aborted (`ExecutionRuns.GrantedTaskRetryAborts`).
- A delete of a dynamic provider forgets its tombstones (`DynamicCatalog.DeleteForgetsTombstones`), and a
  refresh that was read before it and commits later forgets what others have published since
  (`DynamicCatalog.OlderCommitForgets`). From one delete or plain save to the next nothing is forgotten as
  long as commits come from later reads (`DynamicCatalog.NothingPublishedIsForgotten`).
- A refresh whose failure code is only white space counts as one outcome with its candidate and then keeps the
  old content, stale without a code, which the snapshot validator refuses: the status agrees with the code if
  and only if the source is unmodified or the code is empty or not blank
  (`DynamicCatalog.StatusIsConsistentIff`).
- The limiter reads the clock before it takes the lock. With ordered times any minute admits at most twice
  the limit; without, this holds for every run only up to a limit of one (`AccessLimiter.UnorderedBoundIff`).
- The replay loop reads the status after the log, so one connection may end before the last event
  (`EventReplay.TerminalCheckDropsTail`). It delivers all the rest if and only if its writes go through and
  the last log that it reads is the whole one (`EventReplay.ConnectionCompletesIff`).

## Model

| member | source | states |
|---|---|---|
| RouterHistory.RecoveryRestoresLiveIff | internal/execution/router_tools.go:343-416 | crash recovery, exactly: for every admitted context and every log of committed calls within the ceilings, the counts and seen identifiers read from the durable record equal those of the log if and only if the identifiers are trimmed, none returned, and no caller result answers one of them |
| RouterHistory.RestoresIfUnambiguous | internal/execution/router_tools.go:363-414 | under that condition every reserved call of the context is a committed one, answered by exactly its own result, within its ceiling |
| RouterHistory.UnambiguousIfRestored | internal/execution/router_tools.go:363-414 | the converse: a context from which exactly the committed identifiers come back has trimmed identifiers without repeats and no foreign answer |
| RouterHistory.RestoredCounts | internal/execution/router_tools.go:404-415 | whatever the identifiers look like, a history that can be read has counted every committed call, and has seen each trimmed identifier |
| RouterHistory.CallsOfInjected | internal/execution/router_tools.go:1131-1138 | since callers cannot pose as router calls, the reserved calls of a parent context are exactly the committed ones, in order |
| RouterHistory.LogIsBounded | internal/execution/router_tools.go:463-476 | a log within the ceiling of each binding is no longer than the ceilings of the plan add up to |
| RouterRounds.RouterToolHistory | internal/execution/router_tools.go:343-416 | the three loops over the context, with calls taken from the map in any order, decide restorability and return its counters |
| RouterRounds.CollectCalls | internal/execution/router_tools.go:363-389 | the first pass accepts exactly the contexts whose reserved calls are all committed with identifiers of their own |
| RouterRounds.CollectResults | internal/execution/router_tools.go:390-403 | the second pass refuses exactly when a collected call is answered twice, and otherwise finds every answer |
| RouterRounds.CountCalls | internal/execution/router_tools.go:404-415 | the counting pass accepts exactly when each call has its one paired answer and no ceiling is passed, whatever the order |
| RouterRounds.WhitespaceBreaksRecovery | internal/execution/router_tools.go:380-402 | a context that passes the conversation validator and whose history cannot be read |
| RouterRounds.TrimmedContextsAreUnambiguous | internal/execution/router_tools.go:1044-1073 | with trimmed identifiers on both sides a context that passes the validator is always restorable: only white space breaks recovery |
| RouterRounds.RouterToolCalls | internal/execution/router_tools.go:306-335 | refuses exactly the results with a planned call that is incomplete or unnamed or with a reserved one that is not planned; otherwise the selected calls are, one for one and in order, the call items with planned names, each with the identifier and name of its item and the binding planned for that name |
| RouterHistory.PlannedIffOffered | internal/execution/router_tools.go:307-317 | the plan enables exactly the functions of its router entries; no two kinds share a function name |
| RouterHistory.LastEntryDecides | internal/execution/router_tools.go:307-317 | of several entries of one kind the last decides the binding |
| RouterRounds.MaximumRouterToolCalls | internal/execution/router_tools.go:463-476 | the sum of the ceilings of all bindings of the plan |
| RouterHistory.BindingsArePicked | internal/execution/router_tools.go:463-476 | the bindings that the ceilings are added up over are those of the router entries, one for one and in order |
| RouterRounds.AdmitCalls | internal/execution/service.go:854-868 | a batch passes exactly when no identifier returns, in the batch or before, and no binding is called more often than its ceiling, counting the batch up to each call; the counters grow by the batch |
| RouterRounds.AppendRouterToolResult | internal/execution/router_tools.go:1044-1073 | the injected pair carries the call, the child and item identifiers of its own under the first sequence number above all of the context, and is written only if the validator accepts the longer conversation |
| RouterRounds.NextSequenceIsFirstFree | internal/execution/router_tools.go:1050-1055 | the next sequence number is one, or one more than the largest of the context |
| RouterRounds.InjectResults | internal/execution/service.go:884-935 | all results of a round are injected in call order on a candidate, or none |
| RouterRounds.EntriesSucceed | internal/execution/service.go:884-935 | a round is injected when all children succeeded and the validator takes what it is shown, and not when a child failed |
| RouterRounds.AdmittedKeepsLog | internal/execution/service.go:854-868 | what the live loop admits keeps every ceiling whatever it has seen, keeps identifiers from returning where it has seen all of them, and its counters count the longer log |
| RouterRounds.RoundOutcome | internal/execution/service.go:853-940 | a finished round leaves a record and counters that account for the longer log, and still track its identifiers if they did before |
| RouterRounds.ParentLoop.constructor | internal/execution/service.go:735-748 | before the history is read a session has empty counters and the completed rounds of its record |
| RouterRounds.ParentLoop.Resume | internal/execution/service.go:739-751 | a session takes its counters from the record alone; they account for every committed call whenever the history can be read, and track the identifiers if and only if these are unambiguous and did not return |
| RouterRounds.ParentLoop.CommitRound | internal/execution/service.go:853-940 | in any session that accounts for the log, a round commits exactly when its calls are admitted, all children and injections succeed and the write wins; then the conversation has the injected pairs behind it, round and revision are one more, and counters and record account for the longer log; otherwise the record is untouched |
| RouterRuns.RoundsAreBounded | internal/execution/service.go:735-940 | from admission, over every run of starts from any stored version, rounds, other writes, foreign writes and crashes, and for any identifiers: the committed calls of each binding stay within its ceiling, the completed rounds within the sum of all ceilings, and the conversation is the caller's with the committed calls behind it |
| RouterRuns.ResumesExactlyIff | internal/execution/service.go:739-751 | in every run, from every stored version, a session resumes with exactly the counts and identifiers of the committed calls if and only if the identifiers are unambiguous |
| RouterRuns.TrimmedRunsResumeExactly | internal/execution/router_tools.go:343-416 | where caller and provider trim their identifiers and the validator accepts the conversations, no committed identifier ever returns and every resume of every run is exact |
| RouterRuns.StepKeepsInvariant | internal/execution/service.go:735-940 | each start, round, write and crash keeps every version and the session in accord with the committed calls |
| RouterRuns.EntriesAreAccepted | internal/execution/router_tools.go:1068-1071 | the last injection of a round has shown the validator the whole new conversation |
| RouterRounds.PreimageInjective | internal/execution/router_tools.go:1113-1116 | execution, call and round can be read back from the digest input even when the call identifier contains NUL |
| RouterRounds.ChildIdentifiersDiffer | internal/execution/router_tools.go:1113-1116 | without digest collisions child identifiers are equal exactly for the same execution, call and round |
| RouterChildren.OneChildPerCall | internal/execution/router_tools.go:621-628 | two children in the store are the same execution exactly when they answer the same call of the same round of the same parent |
| RouterChildren.ReplayedCallFindsItsChild | internal/execution/router_tools.go:531-552 | replaying a call after any interleaving of store operations finds the first child, or conflicts if the request hash differs, and never creates a second |
| RouterChildren.DispatchKeyNamesRound | internal/execution/service.go:2480-2485 | two dispatches of an execution carry the same idempotency key exactly when they belong to the same round |
| WorkerPool.PoolRefinesSequential | internal/execution/router_tools.go:591-617 | for every schedule the pool ends after exactly 2 * calls + workers + 1 moves, runs each index once, and its results equal the sequential ones position by position |
| WorkerPool.AtMostFourAtOnce | internal/execution/router_tools.go:596-610 | at every moment of every schedule at most four calls run, each of them an index that is not finished |
| WorkerPool.NoDeadlock | internal/execution/router_tools.go:601-616 | until the batch returns some move is possible |
| WorkerPool.RunKeeps | internal/execution/router_tools.go:601-616 | every index that was handed out is with exactly one worker or finished, and only finished positions are written |
| WorkerPool.MovesAreCounted | internal/execution/router_tools.go:601-616 | every move brings the end exactly one move closer |
| WorkerPool.ExecuteSequentially | internal/execution/router_tools.go:592-597 | the sequential path computes the reference results in order |
| Lifecycle.GuardedRunsHaveOneOutcome | internal/execution/service.go:3048-3107 | in every state of every interleaving in which no running record is handed to a streaming session after a success, the log announces at most one outcome and it is the stored status; starts from records that are stale otherwise are included |
| Lifecycle.OneOutcomeIffNoRepeat | internal/execution/service.go:3048-3107 | in every state of every run the log announces exactly the stored outcome if and only if no success was accepted before from a record that had succeeded |
| Lifecycle.GuardIsNeeded | internal/execution/service.go:2177-2197 | in any run with one outcome so far, every start that the guard refuses leads in four steps to an outcome announced twice |
| Lifecycle.SuccessKeepsOutcomeIff | internal/execution/service.go:3048-3107 | an accepted success keeps the outcome unique exactly when the record it was made from had not succeeded already |
| Lifecycle.LastEventKeepsOutcomeIff | internal/execution/service.go:2990-3020 | a write that announces an outcome keeps it unique exactly when the record was not terminal |
| Lifecycle.CancelKeepsOutcome | internal/execution/service.go:581-655 | a cancellation that wins its race announces the only outcome |
| Lifecycle.HoldersDoNotSucceed | internal/execution/service.go:581-655 | for synchronous executions no writer outside the lease turns a record into a success |
| Lifecycle.StaleStartRepeatsOutcome | internal/execution/service.go:2177-2197 | from every state with a record that succeeded, fully or partially, and an older running version there are four steps to a second announcement of the same success |
| Lifecycle.UnguardedRunHasTwoOutcomes | internal/execution/service.go:753-767 | every admitted streaming request has an eight-step run whose log announces two successes |
| Lifecycle.StaleWriteLoses | internal/execution/store.go:163-201 | a write goes through only from the current version; every other writer changes nothing |
| Lifecycle.StepKeepsInvariant | internal/execution/service.go:2990-3020 | each step of each writer keeps versions, hands, session and outcome consistent |
| Lifecycle.RunsKeepVersions | internal/execution/store.go:163-201 | in every run the revision counts the stored versions and each version follows its predecessor along a lifecycle edge |
| Lifecycle.RunsOnlyAppend | internal/execution/store.go:195-201 | earlier logs and versions are prefixes of later ones |
| Lifecycle.TerminalForever | internal/execution/types.go:90-113 | no run ever leaves a terminal status |
| Executor.ExecuteSynchronous | internal/execution/service.go:735-969 | one session, handed any stored version: it dispatches exactly if an attempt is left in that version and its router history can be read, first to the target of that version and then to the targets that the replies lead to, and each reply is the provider's. On the record that it reads back: no failed pair that the record names is tried again, every target has the first subject, only the last dispatch is public, attempt i within the room of the version it was handed says target, public output and success of reply i, the record shows exactly the rounds that went on, and what is logged comes from the last dispatch. Without contention it follows every reply that leads on while there is room: a failure of which nothing is public, on an execution that is not pinned, goes to the accepted target of the same subject that the resolver gives for the same credential without the failed endpoints, or for any credential but the failed ones, as the failure asks; and it ends in success exactly after a complete, imported result, with a retry exactly when one is granted, out of room exactly after a round, and in failure otherwise |
| Executor.SessionIsLed | internal/execution/service.go:784-796 | every dispatch goes where the reply before it leads, and a session that stops only for a reason has followed every reply that leads on: said with the failed credentials and endpoints alone, and without the loop's own lists |
| Executor.SpentAreExcluded | internal/execution/service.go:2705-2711 | the exclusion lists of a session are the failed credentials, and the endpoints that failed since the credential changed last, each once and in order |
| Executor.EarnedMeans | internal/execution/service.go:942-967 | reply by reply, how the last one decides an uncontended session |
| Executor.WritesAreNextVersions | internal/execution/service.go:2728-2745 | every write of a session is the next revision of the same execution and passes the record validator |
| Executor.RoundsAreCounted | internal/execution/service.go:884-940 | the completed rounds of a session are its dispatches with admitted calls and all results, one by one |
| Executor.ConversationIsLast | internal/execution/service.go:884-940 | the conversation of a session is that of its last round, or the one it was handed |
| Executor.CurrentStartKeepsAll | internal/execution/service.go:763-767 | a session that was handed the stored work did all that on the record it was handed, and every dispatch went where the record says |
| Executor.DispatchOnce | internal/execution/service.go:749-967 | one turn of the loop dispatches to the current target, takes the provider's reply and, when it streams, reads the record back; it goes on exactly to the target that this leads to, only with an attempt left or after a round, or ends the session in one of the admitted ways |
| Executor.AfterFault | internal/execution/service.go:770-816 | a failed dispatch fails over exactly when the resolver offers another target and one is left; its attempt says whether anything was public; otherwise, without contention, it is scheduled exactly when a retry is granted and the store takes a waiting record, is aborted when the store refuses it, and fails when none is granted |
| Executor.AfterRouterCalls | internal/execution/service.go:839-940 | a round goes on only if its calls were admitted and its results injected; it then has an attempt of its own, and its conversation is the one the next dispatch sees; a failed child is announced before the execution fails |
| Executor.AfterRejection | internal/execution/service.go:818-838 | a rejected result records its attempt and fails the execution |
| Executor.AfterCompletion | internal/execution/service.go:942-967 | a complete result succeeds exactly when its resources were imported, after the success of a retry is announced, and stores what the sink has not |
| Executor.ResolveRetryTarget | internal/execution/service.go:2699-2724 | nothing for an unclassified, public or pinned failure or one that asks for no other target; otherwise exactly what the resolver gives for the same credential with the current endpoint among the excluded ones, or with the current credential among the excluded ones and any endpoint, if it has the same subject and is accepted; the new target differs from every failed pair |
| Executor.FreshPair | internal/execution/service.go:2705-2715 | the two exclusion lists together keep every failed pair out |
| Executor.MaximumSynchronousCycleAttempts | internal/execution/service.go:2811-2822 | the largest number of further attempts that stay within eight and the caller's limit, each raised by the router ceilings |
| Executor.MaximumCycleAttempts | internal/execution/service.go:2796-2807 | the largest number of further attempts that stay within eight and the caller's limit |
| Executor.StartTask | internal/execution/service.go:2073-2147 | starting provider tasks dispatches exactly if an attempt is left under the plain limit and the caller's task limit, to the targets that the provider's replies lead to and with the same failover discipline and attempts; without contention it follows every failure to the target that it asks for while there is room, ends as started exactly when the last start was accepted, and reschedules exactly if the last start failed, nothing could follow it, a retry is granted and the store takes a waiting record from the status it was handed |
| Executor.TaskOnce | internal/execution/service.go:2097-2147 | one start of a task goes on exactly to the target that the reply leads to, while one is left, or ends the session, rescheduled exactly under that condition |
| Executor.TaskRoomFits | internal/execution/service.go:2081-2091 | starting tasks has room for exactly the attempts that stay within eight, the caller's attempt limit and its task limit |
| Executor.TaskRetryIsTakenIff | internal/execution/service.go:2826-2884 | a granted retry of a task start is scheduled if and only if the session was handed a running or a waiting record; otherwise the session is aborted |
| Executor.AppendUnique | internal/execution/service.go:2934-2941 | the value joins the list unless it is there |
| Executor.Fail | internal/execution/service.go:3397-3455 | an execution that is not terminal fails if its writes win, after the end of its retries is announced; a failed one stays as it is |
| AttemptRuns.AttemptsStayWithinCap | internal/execution/service.go:2811-2822 | over every interleaving of sessions handed any stored version, crashes and other writers, attempts never exceed the cap while each streaming session that is handed a running record is handed the attempts of the stored one |
| AttemptRuns.RefusedStartPassesCap | internal/execution/service.go:763-767 | in any run every other start can be continued until the attempts of the stored record exceed the cap |
| AttemptRuns.StreamingRequestsMayPassCap | internal/execution/service.go:735-767 | every admitted streaming request with room for a dispatch has a run in which its attempts exceed the cap |
| AttemptRuns.EveryUseHasAnAttempt | internal/execution/types.go:1241-1254 | in every run, guarded or not, attempts are numbered in order and keep the first subject, and each retry cycle and each completed round has an attempt of its own |
| AttemptRuns.ReschedulesAreCounted | internal/execution/service.go:2872-2882 | the retry cycles of the record count the reschedules of the run, which never outnumber its attempts |
| AttemptRuns.SchedulerIsBounded | internal/execution/service.go:2826-2884 | a guarded run reschedules no more often than the attempt cap, which only the admitted request and plan determine |
| AttemptRuns.WorkRunsAreRuns | internal/execution/service.go:735-969 | these runs are runs of Lifecycle, whose laws hold of them |
| ExecutionRuns.OmittedLimitDispatchesIff | internal/execution/service.go:738-747 | with the attempt limit omitted a session dispatches if and only if fewer attempts are recorded than eight plus the router ceilings and its router history can be read |
| ExecutionRuns.ExhaustedRetryFailsUndispatched | internal/execution/service.go:744-747 | at that number a retry is still scheduled before expiry, and its session fails the execution without a dispatch |
| ExecutionRuns.ExhaustedRecordIsDue | internal/execution/service.go:2826-2884 | a concrete record of eight failed attempts, one hour before expiry, for which this happens |
| ExecutionRuns.UnreadableRetryFailsUndispatched | internal/execution/service.go:739-743 | a session that cannot read its router history fails without a dispatch, however few attempts there are |
| ExecutionRuns.SpacedRecordIsUnreadable | internal/execution/router_tools.go:380-402 | a concrete valid record of one attempt under a cap of nine for which this happens |
| ExecutionRuns.GrantedTaskRetryAborts | internal/execution/service.go:2826-2884 | a concrete accepted deferred task: its first start fails, a retry is granted, and the session is aborted |
| ExecutionRuns.AcceptedTaskIsValid | internal/execution/types.go:1225-1254 | that task is a valid record, and its surroundings meet all that starting tasks asks of them |
| ExecutionRuns.StaleStartRepeatsPair | internal/execution/service.go:763-767 | a streaming session that reads back another target than it dispatched to can go back to the pair that has just failed |
| ExecutionRuns.WaitingLogsNothing | internal/execution/service.go:2826-2829 | a session that waits for a retry has made nothing public |
| ExecutionRuns.OneAttemptSpeaks | internal/execution/service.go:769-790 | over all sessions of a crash-free run everything logged comes from one dispatch |
| ExecutionRuns.RunLogsHistoryIff | internal/execution/service.go:961-967 | when a crash-free run succeeds its log holds every event of the validated history exactly once if and only if everything streamed belongs to it, and in order if and only if the stream was a prefix |
| EventSink.StreamedPlusPendingIff | internal/execution/event_sink.go:197-207 | streamed and pending events are the history as a bag if and only if every streamed event is in it |
| EventSink.StreamedIsInOrder | internal/execution/event_sink.go:106-158 | the streamed events are the first stored one of every identifier, as it was emitted and in the order of the calls |
| EventSink.StreamedInOrderIff | internal/execution/event_sink.go:197-207 | the streamed events, in the order of the stream, and the pending ones are the history itself if and only if the stream was a prefix of it |
| EventSink.DurableEventSink.constructor | internal/execution/event_sink.go:53-55 | a new sink has emitted nothing |
| EventSink.DurableEventSink.Call | internal/execution/event_sink.go:106-158 | the log grows at its end by exactly a stored event whose identifier it does not hold yet; a repeated event is accepted and not stored again, and neither a refused one nor progress leaves an event |
| EventSink.DurableEventSink.EmittedCount | internal/execution/event_sink.go:189-193 | positive exactly when something of the dispatch was stored |
| EventSink.DurableEventSink.FilterPending | internal/execution/event_sink.go:197-207 | the rest of the history in order |
| EventSink.PendingShape | internal/execution/event_sink.go:197-207 | pending is exactly the part of the history whose identifiers were not emitted |
| EventSink.PendingIsInOrder | internal/execution/event_sink.go:197-207 | the pending events are those of the history that were not emitted, in the order of the history, whatever was emitted |
| RetrySchedule.ScheduledRetryIsSound | internal/execution/service.go:2836-2876 | a scheduled time is not before the provider's retry time or the first delay, and strictly before expiry and both deadlines; the waiting record is valid exactly when retry cycles are fewer than attempts |
| RetrySchedule.NextRetry | internal/execution/service.go:2826-2866 | a retry is granted exactly for a deferred request with attempts left, a classified and transient failure and nothing public, at the first moment that neither the backoff after the attempts so far, in whole cycles of eight, nor the provider forbids, if that is before expiry, budget and the ceiling for router parents |
| RetrySchedule.RetryDelay | internal/execution/service.go:2839-2853 | the loop with its early exits computes the iterated delay |
| RetrySchedule.DelayIsGeometric | internal/execution/service.go:2841-2851 | for a whole multiplier of at least two the delay is min(maximum, initial * multiplier ^ cycles) |
| RetrySchedule.DelayIsMonotone | internal/execution/service.go:2841-2853 | the delay never decreases with the cycles and never exceeds the maximum |
| RetrySchedule.DelayReachesMaximum | internal/execution/service.go:2841-2851 | exponential growth reaches the maximum in finitely many cycles for every multiplier |
| RetrySchedule.UnitMultiplierJumps | internal/execution/service.go:2843-2847 | a multiplier of one gives the maximum from the first failure cycle on |
| RetrySchedule.NextFailureGrowsIff | internal/execution/service.go:2839-2857 | after one more recorded attempt the retry is due later if and only if the backoff is exponential, the attempts before it are a multiple of eight, the delay is below the maximum and the provider does not ask for more than the longer delay |
| RetrySchedule.OmittedPolicyDoubles | internal/execution/service.go:2770-2790 | without a policy the delay is five seconds, doubled after every cycle, up to half an hour |
| RetrySchedule.ConfiguredDelay | internal/execution/service.go:2770-2790 | a complete policy with a whole multiplier: a fixed delay stays the same, any other grows by the multiplier after every cycle, in milliseconds and up to the maximum |
| RetrySchedule.DelayGrowsIff | internal/execution/service.go:2839-2853 | a scheduled delay exceeds the first one if and only if the backoff is exponential, more than eight attempts are recorded and the first delay is below the maximum |
| RetrySchedule.SecondFailureKeepsDelay | internal/execution/service.go:2839 | the failing case of growth after each failure: the second failure is due after the same delay as the first |
| RetrySchedule.PlainRetriesNeverBackOff | internal/execution/service.go:2839 | without router tools the attempt cap keeps every delay at the first one |
| RetrySchedule.FailureCyclesAreBounded | internal/execution/service.go:2839 | the exponent grows by at most one for every eight router calls that the plan allows |
| ExecutionStore.RunKeepsStore | internal/execution/store.go:107-201 | every interleaving of creates and saves keeps logs gap-free and append-only, revisions rising, and each owner and key bound to one execution for good |
| ExecutionStore.OneExecutionPerKey | internal/execution/store.go:118-131 | an owner and key name at most one execution |
| ExecutionStore.CreateReplaysExactly | internal/execution/store.go:118-130 | a bound key replays its execution when the hashes agree and conflicts when they differ, without a change |
| ExecutionStore.CreateTwiceAdmitsOnce | internal/execution/store.go:107-144 | re-creating what was admitted, after saves that keep its key and hash, replays it |
| ExecutionStore.FreshCreateIsAdmitted | internal/execution/store.go:131-144 | a valid create with a new identifier, and without a key or with one under which its owner has created nothing, is admitted and stored with its first event |
| ExecutionStore.CreateKeepsIndexIff | internal/execution/store.go:131-136 | admission keeps the index exact if and only if it does not bring a new key with a taken identifier |
| ExecutionStore.RefusedCreateBindsKey | internal/execution/store.go:131-136 | the refused create leaves its key behind, and later creates under it meet the other execution |
| ExecutionStore.SaveKeepsIndex | internal/execution/store.go:163-201 | saves that keep the key keep the index exact |
| ExecutionStore.SaveIsCompareAndSwap | internal/execution/store.go:163-201 | an accepted write moves the revision by one along an edge and only appends; a losing one changes nothing; other executions are untouched |
| ExecutionStore.EventsAfterIsSlice | internal/execution/store.go:205-216 | on a gap-free log the slice from the cursor is the selection by sequence number |
| ExecutionStore.MemoryStore.Create | internal/execution/store.go:109-144 | the map updates in the order of the code, the index before the identifier check; a valid create with a new identifier and an unbound or no key is stored with its first event |
| ExecutionStore.MemoryStore.Save | internal/execution/store.go:163-201 | the write is accepted exactly for a valid record of the same owner, one revision after the expected and stored one, along a lifecycle edge, with valid events that continue the log; then the record is replaced and the events appended, otherwise nothing changes, and a stale revision is a conflict |
| ExecutionStore.MemoryStore.LookupIdempotency | internal/execution/store.go:86-105 | finds nothing exactly when no execution of the owner has the key, and conflicts only on another hash |
| ExecutionStore.MemoryStore.ListEvents | internal/execution/store.go:205-216 | the events of an owned execution with sequence numbers above the cursor |
| ExecutionStore.MemoryStore.Get | internal/execution/store.go:148-159 | an execution is visible to its owner only |
| ExecutionStore.MemoryStore.constructor | internal/execution/store.go:80-82 | the empty store meets all invariants |
| EventReplay.ReconnectsDeliverPrefix | internal/httpapi/executions.go:179-232 | over any reconnects, at any growth of the log and broken off anywhere, a client has received a prefix of the log |
| EventReplay.ServedIsSlice | internal/httpapi/executions.go:179-232 | one connection sends a gap-free piece of the log that starts right after its cursor |
| EventReplay.ConnectionCompletesIff | internal/httpapi/executions.go:179-232 | one connection delivers all the rest of the log if and only if its writes for it go through and the log it reads last, at the first terminal status or at the end, is the whole one |
| EventReplay.ReconnectCompletesIff | internal/httpapi/executions.go:179-232 | a client that lacks something has the whole log after one more connection exactly under that condition |
| EventReplay.TerminalCheckDropsTail | internal/httpapi/executions.go:180-195 | a record that becomes terminal between the two reads ends the connection before the last event |
| EventReplay.Serve | internal/httpapi/executions.go:145-232 | refuses invalid cursors and otherwise sends what the reads and the writes allow |
| EventReplay.ParseInvertsFormat | internal/httpapi/executions.go:244-260 | the cursor parser inverts the event identifier format for every positive sequence number |
| EventReplay.ParseKeepsExecutionsApart | internal/httpapi/executions.go:244-260 | it accepts an event identifier of another execution exactly when both agree after the first four characters |
| EventReplay.ParseLastEventId | internal/httpapi/executions.go:244-260 | no identifier means the start; otherwise exactly the prefix of the execution followed by the digits of a positive 64-bit decimal gives its value, and everything else is refused |
| Projection.MutationOrderIsNotObservable | internal/catalog/validation.go:866-909 | for every accepted projection and requested modes, the reasoning mutations in any order, anywhere among the additional ones, and each additional list in any order, give the tree that the program computes |
| Projection.ReasoningMayStandAnywhere | internal/catalog/validation.go:69-73 | for an offering of a validated snapshot the reasoning mutations may stand anywhere among all others, the provider's included, with every list in any order: the request is the one that the program computes |
| Projection.Validate | internal/catalog/validation.go:866-909 | the loops accept exactly the projections with plain paths, no overlap inside a list or rule, and no overlap between effort, summary and additional |
| Projection.ValidateReasoningRules | internal/catalog/validation.go:952-998 | accepts exactly distinct trimmed values with conflict-free mutations, and returns the paths that the rules own |
| Projection.ValidateRule | internal/catalog/validation.go:966-995 | one rule: at least one mutation, all paths plain, no two of its paths overlap |
| Projection.ValidatePayloadParameters | internal/catalog/validation.go:1002-1024 | accepts exactly valid values at plain paths that overlap neither each other nor an owned path |
| Projection.ValidateFilters | internal/catalog/validation.go:891-908 | the same for deletions, together with the paths seen before |
| Projection.ValidateReasoningPaths | internal/catalog/validation.go:69-73 | accepts exactly the offerings none of whose reasoning paths overlaps a path of the provider's additional rules, in any order of the paths |
| Projection.RulesPaths | internal/catalog/validation.go:920-933 | collects exactly the paths that the rules set or delete |
| Projection.DottedPrefixIff | internal/catalog/validation.go:1028-1035 | the dotted-prefix test on strings is the proper-prefix test on segments, for all strings |
| Projection.ConflictIff | internal/catalog/validation.go:1028-1035 | two paths conflict exactly when one leads through the other |
| Projection.AcceptedIsIndependent | internal/catalog/validation.go:866-909 | acceptance makes every pair of mutations whose order the program leaves open incomparable |
| Projection.ApplyRequestProjections | internal/provider/request_projection.go:21-70 | the loops apply provider rules first and the model's in their order, or fail as a whole. In the request every filtered path holds nothing, every override is what its path holds unless it is filtered, a default fills what the body left open and never changes what it holds, all unless something later comes near, which for the model's lists nothing does; a requested mode has a rule, which sets and deletes what it says; and everything apart from all these paths is as in the body, the protected protocol fields always |
| Projection.ProjectedHolds | internal/provider/request_projection.go:74-102 | the same path by path, from the order of the mutations and the conflict rules of the validator |
| Projection.SomeProjectionIsAccepted | internal/catalog/validation.go:866-909 | the validator accepts a projection with a default, an override and a filter |
| Projection.ApplyReasoningRule | internal/provider/request_projection.go:105-128 | the first rule of the requested value is applied; a value without a rule is an error |
| Json.MutationShows | internal/provider/request_projection.go:74-102 | after a set the path holds the value, after a default what it held or else the value, after a delete nothing, and every incomparable path what it held, on every tree |
| Json.SetFailsIff | internal/provider/request_projection.go:84-93 | a set fails exactly when its path leads through an array |
| Json.BlockDecides | internal/provider/request_projection.go:40-69 | the last mutation at a path decides what is there; a default also needs that nothing before it comes near |
| Json.OrderIsNotObservable | internal/catalog/validation.go:1026-1035 | any two orders of mutations at pairwise incomparable paths give the same tree, errors included |
| Json.MutationsCommute | internal/catalog/validation.go:1026-1035 | set, set-if-missing and delete at incomparable paths commute on every tree |
| Json.NestedMutationsDoNotCommute | internal/catalog/validation.go:1026-1035 | the condition is needed: a set below a path and a delete of it do not commute |
| CatalogStore.RunKeepsConsistent | internal/catalog/store.go:57-99 | every run of saves and deletes numbers its changes without a gap, only appends, lets revisions rise between deletes, and folds to the stored revisions |
| CatalogStore.RunKeepsLog | internal/catalog/store.go:71-99 | in every run the last change of each provider shows what is stored: an upsert with revision, time and tombstones of the stored snapshot exactly while there is one |
| CatalogStore.PagingDeliversSlice | internal/catalog/store.go:103-128 | from any cursor, with any limits and writes in between, a replica receives each later change once and in order |
| CatalogStore.ShortPageMeansCaughtUp | internal/catalog/store.go:103-128 | after a short page a replica has the whole log, and folding it gives exactly the store's revisions |
| CatalogStore.PageIsSlice | internal/catalog/store.go:114-126 | the filtering loop returns a slice of the log |
| CatalogStore.MemoryStore.Save | internal/catalog/store.go:57-78 | a valid snapshot with a higher revision replaces the stored one and logs one change with its revision, time and tombstones; anything else changes nothing |
| CatalogStore.MemoryStore.Delete | internal/catalog/store.go:82-99 | removes a stored snapshot and logs its last revision |
| CatalogStore.MemoryStore.ListChanges | internal/catalog/store.go:103-128 | the page after a cursor, for limits from 1 to 1000 |
| CatalogStore.MemoryStore.Get | internal/catalog/store.go:132-146 | the stored snapshot, if there is one |
| DynamicCatalog.NothingPublishedIsForgotten | internal/catalog/dynamic.go:45-110 | over every run of concurrent refreshers, deletes and other saves: what was listed since the last delete or plain save is listed or buried, and no tombstone since then is lost, changed or doubled, as long as commits come from reads since then |
| DynamicCatalog.RefreshersStayInTheirEra | internal/catalog/dynamic.go:45-110 | without deletes and plain saves every commit of every run meets that condition |
| DynamicCatalog.DeleteForgetsTombstones | internal/catalog/store.go:82-99 | after a delete the next refresh starts without a tombstone |
| DynamicCatalog.OlderCommitForgets | internal/catalog/store.go:69-71 | a commit from a read before a delete forgets what only later versions have listed |
| DynamicCatalog.OneOfTwoCommits | internal/catalog/store.go:69-71 | of two refreshers that have read the same version at most one commits, whatever has happened since |
| DynamicCatalog.CommitNeedsCurrent | internal/catalog/store.go:69-71 | a refresh commits only from the current version |
| DynamicCatalog.StepKeepsTombstones | internal/catalog/dynamic.go:45-110 | each read, commit, own or foreign write keeps every pair of versions since the last delete or plain save remembered |
| DynamicCatalog.DynamicTombstones | internal/catalog/dynamic.go:114-143 | earlier tombstones stay in front, exactly the removed models and services follow, nothing is doubled |
| DynamicCatalog.Bury | internal/catalog/dynamic.go:147-154 | buries what is gone and not buried yet, with the time of this refresh |
| DynamicCatalog.Prepare | internal/catalog/dynamic.go:45-103 | a refresh is prepared exactly when it has one outcome with its metadata and, if it keeps content, a last-good snapshot. Field by field: a failure keeps content, times, etag, source and tombstones and marks them stale with its trimmed code; an unmodified source is fresh without a code under the new times, and with a new etag only if one is given; a candidate brings its own content under the authority, trimmed source revision and etag and times of the refresh, fresh, with the conserved tombstones |
| DynamicCatalog.ApplyDynamicRefresh | internal/catalog/dynamic.go:45-110 | stores what was prepared from what was read, with the same outcome field by field, or changes nothing; it fails only if nothing can be prepared or the store refuses it |
| DynamicCatalog.StaleIffLastRefreshFailed | internal/catalog/dynamic.go:66-85 | over every run of concurrent refreshers the stored catalog is stale, with the trimmed code, if and only if the last committed refresh brought a failure code and no unmodified source |
| DynamicCatalog.StatusIsConsistentIff | internal/catalog/dynamic.go:61-85 | what is prepared names a failure exactly when it is stale, unless the code is only white space and the source not unmodified: the exact condition |
| DynamicCatalog.ReturningIdStaysBuried | internal/catalog/dynamic.go:117-123 | an identifier that returns is live and buried at once |
| PolicyValidation.Validate | internal/catalog/validation.go:51-248 | the loops and counters accept exactly the snapshots whose references resolve, whose policies and profiles fit, and whose published offerings have one default |
| PolicyValidation.ValidatePolicies | internal/catalog/validation.go:86-123 | exactly valid, resolving policies with distinct identifiers and subjects; the counters count them |
| PolicyValidation.ValidateProfiles | internal/catalog/validation.go:159-213 | exactly resolving profiles, each model profile with a supported policy once there are policies, no two defaults of one subject |
| PolicyValidation.ValidatePublication | internal/catalog/validation.go:221-242 | the counters answer the quantifiers: the offering has a policy, each supported one a profile, and a default if any is supported |
| PolicyValidation.UnpublishedHasNoDefault | internal/catalog/validation.go:240-242 | the last refusal can never be reached |
| PolicyValidation.ValidateOfferings | internal/catalog/validation.go:65-85 | exactly valid offerings of known models with distinct identifiers |
| PolicyValidation.ValidateModels | internal/catalog/validation.go:51-64 | exactly valid models of this provider with distinct identifiers |
| AccessLimiter.SlidingWindowBound | internal/access/access.go:265-283 | with ordered times every half-open minute admits at most twice the request limit |
| AccessLimiter.UnorderedBoundIff | internal/access/access.go:269-270 | without that order the bound holds for all runs if and only if the limit is at most one |
| AccessLimiter.LateRequestsPileUp | internal/access/access.go:269-274 | late requests let one minute admit any number |
| AccessLimiter.RunsKeepWindows | internal/access/access.go:271-283 | whatever the clock does, windows start at least a minute apart and each admits at most the limit |
| AccessLimiter.RunsAreExact | internal/access/access.go:265-296 | active requests equal the unreleased ones and stay within the limit, for every project in every run |
| AccessLimiter.RefusedIffFull | internal/access/access.go:271-283 | in every run a request is refused if and only if its window has admitted as many as the request limit or as many closures as the concurrency limit have not been called; a refused one changes nothing, any other gets a closure |
| AccessLimiter.WindowIsLast | internal/access/access.go:271-278 | the window of a project is the one that counted its last admitted request |
| AccessLimiter.ReleaseAlwaysReturnsSlot | internal/access/access.go:285-296 | the guard never suppresses a decrement, and a second release changes nothing |
| AccessLimiter.ProjectsAreIndependent | internal/access/access.go:271-283 | a project sees exactly what it would see alone |
| AccessLimiter.LocalController.constructor | internal/access/access.go:236-241 | a new controller has counted nothing |
| AccessLimiter.LocalController.Acquire | internal/access/access.go:265-284 | denies invalid principals and otherwise admits exactly under both limits; a refused request stores nothing |
| AccessLimiter.LocalController.Release | internal/access/access.go:285-296 | a closure returns its slot once |
| AccessLimiter.LocalController.Record | internal/access/access.go:300-315 | an event with a known outcome joins the audit, which keeps at most the configured number of latest events |
| AccessLimiter.AuditHoldsTheLatest | internal/access/access.go:311-314 | trimming after every event holds exactly the latest of all events with known outcomes |
| Text.JoinedInjective | internal/execution/store.go:287-289 | NUL-joined keys are equal exactly for equal parts as long as the left parts hold no NUL |
| Text.JoinedCollision | internal/execution/store.go:287-289 | a left part with NUL collides with another pair |

## Left out

- RouterRounds.AppendRouterToolResult: the reset of a required tool choice and the call fields that are copied unchanged are left out.
- Executor.AfterRouterCalls: whether the calls of a round are admitted and the conversation after it come with the reply; RouterRounds computes both.
- Executor.ExecuteSynchronous: rounds appear as an outcome with the new conversation; their contents are in RouterRounds, and the two are not one method.
- Executor.StartTask: ends when the provider has accepted the task; polling, cancelling and applying task results appear only as writes in Lifecycle.
- EventSink.DurableEventSink.Call: takes the joint verdict of the event reducer and of the compare-and-swap retry loop; the loop, its cached sequence number and its liveness under foreign writers are not modelled beyond the sink writes of Lifecycle.
- EventReplay.Serve: the wait between polls, heartbeats and the distributed waiter are a sequence of reads; frames and headers are left out.
- PolicyValidation.Validate: path conflicts with the provider's rules enter as a verdict here and are modelled in Projection; service offerings enter with the operation of their service, and validators of single records as a verdict; entitlements are left out.
- Projection.ApplyRequestProjections: objects are maps, so member order and repeated members are not visible; the JSON editing library is modelled by its documented effect on object paths.
- RetrySchedule.RetryDelay: the multiplier is a real number with floor instead of a 64-bit float, and durations do not overflow.
- AccessLimiter.LocalController.Acquire: contexts and principal validation are one verdict; metrics and authorization are left out.
- Sequence numbers, revisions and counters are unbounded; the 64-bit limit appears only in the cursor parser.
- Leases are abstract: one session at a time holds an execution; heartbeats, expiry and process-local cancellation handles are left out. A session that lost its lease and goes on beside the next one is therefore no part of a run. That a provider is called at most once is not claimed.
- Input materialization, prepared workflows and continuations appear as the flag that pins a target; the conversation validator as its identity and relation rules.
- Resolver, provider, clock, resource import and binding load are parameters; the resolver is assumed to honour exclusions and requirements, writers outside the lease to leave attempts, rounds and retry cycles alone.
- The digest of identifiers is a function without collisions; canonical hashing of requests is a field of the record.
- Deep copies, listing orders, event times, diagnostics, preflight, HTTP handlers, identity provider, bootstrap tables and process wiring are left out.
- Tool definitions, argument decoding, media withholding and result serialization of router calls are left out.
- Capability, parameter, service and model-tool validators would only add finite case checks.
