/** The durable execution record, its lifecycle graph, and the typed events of its log. */
module ExecutionTypes {
  import opened Text

  datatype Status =
    | Accepted
    | PreparingInputs
    | Queued
    | Running
    | WaitingRetry
    | Succeeded
    | PartiallySucceeded
    | Failed
    | Cancelled
    | Expired
  {
    predicate IsTerminal() {
      Succeeded? || PartiallySucceeded? || Failed? || Cancelled? || Expired?
    }

    /** The two outcomes that only a provider result can produce. */
    predicate IsSuccess() {
      Succeeded? || PartiallySucceeded?
    }
  }

  /** One edge of the closed lifecycle graph. */
  predicate ValidTransition(current: Status, next: Status) {
    match current
    case Accepted =>
      || next.PreparingInputs? || next.Queued? || next.Running?
      || next.Failed? || next.Cancelled? || next.Expired?
    case PreparingInputs =>
      next.Queued? || next.Running? || next.Failed? || next.Cancelled? || next.Expired?
    case Queued => next.Running? || next.Failed? || next.Cancelled? || next.Expired?
    case Running =>
      || next.Succeeded? || next.PartiallySucceeded? || next.WaitingRetry?
      || next.Failed? || next.Cancelled? || next.Expired?
    case WaitingRetry =>
      || next.PreparingInputs? || next.Queued? || next.Running?
      || next.Failed? || next.Cancelled? || next.Expired?
    case _ => false
  }

  // ----- targets --------------------------------------------------------------------------

  /** The routing coordinates that failover may not change. */
  datatype Subject = Subject(
    definition: string, instance: string, channel: string, kind: string,
    model: string, service: string, offering: string, serviceOffering: string,
    operation: string, actionBinding: string, profile: string,
    upstreamModel: string, upstreamService: string)

  datatype Target = Target(subject: Subject, credential: string, endpoint: string, region: string)

  // ----- the frozen model-tool plan -------------------------------------------------------

  datatype StandardKind = WebSearch | WebExtractor

  datatype ExtensionKind =
    | ImageUnderstanding | AudioUnderstanding | VideoUnderstanding
    | ImageGeneration | VideoGeneration | SpeechGeneration | SpeechTranscription

  datatype ToolMode = Disabled | Native | Router

  datatype Binding = Binding(id: string, maximumCalls: nat)

  datatype StandardEntry = StandardEntry(kind: StandardKind, mode: ToolMode, binding: Option<Binding>)

  datatype ExtensionEntry = ExtensionEntry(kind: ExtensionKind, binding: Option<Binding>)

  datatype Plan = Plan(standard: seq<StandardEntry>, extensions: seq<ExtensionEntry>)

  // ----- conversation context -------------------------------------------------------------

  datatype ContextItem =
    | ToolCall(itemId: string, sequence: nat, parentItemId: string, delegationId: string,
               callId: string, namespace: string, name: string, completed: bool)
    | ToolResult(itemId: string, sequence: nat, parentItemId: string, delegationId: string,
                 callId: string)
    | Other(itemId: string, sequence: nat, parentItemId: string)

  // ----- requests and records -------------------------------------------------------------

  datatype Backoff = Fixed | Exponential

  datatype RetryPolicy = RetryPolicy(
    backoff: Option<Backoff>, initialDelay: Option<nat>, maximumDelay: Option<nat>,
    multiplier: Option<real>, maxAttempts: Option<nat>)

  datatype Request = Request(
    stream: bool, deferred: bool, continuation: bool,
    retryPolicy: Option<RetryPolicy>, maxExecution: Option<nat>,
    conversation: Option<seq<ContextItem>>)

  datatype Attempt = Attempt(sequence: nat, target: Target, semanticOutput: bool, succeeded: bool)

  datatype RetryState = RetryState(
    consecutiveFailures: nat, nextRetryAt: int, maxAttempts: Option<nat>)

  /** One durable execution. `otherwiseValid` stands for the validator's verdict on the fields
      that are not part of this model. */
  datatype Record = Record(
    id: string, owner: string, requestHash: string, idempotencyKey: string,
    request: Request, target: Target, plan: Plan,
    status: Status, revision: nat,
    attempts: seq<Attempt>, retryCycles: nat, completedRounds: nat,
    retry: Option<RetryState>, hasFailure: bool, hasResult: bool,
    createdAt: int, expiresAt: int, otherwiseValid: bool)

  predicate RecordValid(r: Record) {
    && !Blank(r.id) && !Blank(r.owner) && !Blank(r.requestHash)
    && r.createdAt < r.expiresAt && r.revision != 0
    && (r.status == Failed <==> r.hasFailure)
    && (r.status.IsSuccess() <==> r.hasResult)
    && (r.status == WaitingRetry <==> r.retry.Some?)
    && (r.retry.Some? ==>
          && r.request.deferred
          && r.retry.value.consecutiveFailures != 0
          && r.createdAt <= r.retry.value.nextRetryAt
          && (r.retry.value.maxAttempts.Some? ==> |r.attempts| < r.retry.value.maxAttempts.value))
    && r.retryCycles <= |r.attempts|
    && (forall i | 0 <= i < |r.attempts| :: r.attempts[i].sequence == i + 1)
    && r.otherwiseValid
  }

  // ----- events ---------------------------------------------------------------------------

  datatype LifecycleKind =
    | ExecutionAccepted
    | MaterializationStarted
    | MaterializationCompleted
    | ExecutionQueued
    | ExecutionRunning
    | ExecutionSucceeded
    | ExecutionPartiallySucceeded
    | ExecutionFailed
    | ExecutionCancelled
    | ExecutionExpired
    | CancellationRequested

  datatype RetryKind = RetryScheduled | RetryStarted | RetrySucceeded | RetryAborted

  datatype ProviderEvent = ProviderEvent(eventId: string, body: string)

  datatype Payload =
    | Lifecycle(kind: LifecycleKind, status: Status, hasFailure: bool)
    | AttemptCompleted(attempt: nat)
    | Retry(retryKind: RetryKind, nextAttempt: nat, nextRetryAt: Option<int>)
    | ProviderSemantic(event: ProviderEvent)
    | ModelTool(toolId: string, stage: string, toolCallId: string, round: nat)
    | ResourcePartial(outputId: string, partialBytes: nat)
    | TypedResult(body: string)

  datatype Event = Event(executionId: string, sequence: nat, payload: Payload)

  predicate LifecycleMatches(kind: LifecycleKind, status: Status) {
    match kind
    case ExecutionAccepted => status == Accepted
    case MaterializationStarted => status == PreparingInputs
    case MaterializationCompleted => status == PreparingInputs
    case ExecutionQueued => status == Queued
    case ExecutionRunning => status == Running
    case ExecutionSucceeded => status == Succeeded
    case ExecutionPartiallySucceeded => status == PartiallySucceeded
    case ExecutionFailed => status == Failed
    case ExecutionCancelled => status == Cancelled
    case ExecutionExpired => status == Expired
    case CancellationRequested => status == Queued || status == Running
  }

  predicate PayloadValid(p: Payload) {
    match p
    case Lifecycle(kind, status, hasFailure) =>
      LifecycleMatches(kind, status) && (kind == ExecutionFailed <==> hasFailure)
    case AttemptCompleted(attempt) => attempt != 0
    case Retry(kind, attempt, nextRetryAt) =>
      attempt != 0 && (kind == RetryScheduled <==> nextRetryAt.Some?)
    case _ => true
  }

  predicate EventValid(e: Event) {
    !Blank(e.executionId) && e.sequence != 0 && PayloadValid(e.payload)
  }

  /** A terminal lifecycle event: the outcome a client of the log waits for. */
  predicate IsOutcome(e: Event) {
    e.payload.Lifecycle? && e.payload.status.IsTerminal()
  }

  /** The events appended by one write that starts at sequence `first`. */
  function Numbered(id: string, first: nat, payloads: seq<Payload>): (es: seq<Event>)
    ensures |es| == |payloads|
    ensures forall i | 0 <= i < |es| :: es[i] == Event(id, first + i, payloads[i])
  {
    seq(|payloads|, i requires 0 <= i < |payloads| => Event(id, first + i, payloads[i]))
  }

  /** `log` numbers its events 1, 2, 3, ... and every event belongs to `id`. */
  ghost predicate Contiguous(id: string, log: seq<Event>) {
    forall i | 0 <= i < |log| :: log[i].executionId == id && log[i].sequence == i + 1
  }
}
