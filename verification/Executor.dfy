/** One session of the execution loop: dispatches, failover inside the provider, router rounds, the
    retry schedule and the success that ends it. */
module Executor {
  import opened Text
  import opened ExecutionTypes
  import opened RouterHistory
  import opened RetrySchedule
  import opened EventSink
  import RouterRounds

  // ----- what the loop asks its surroundings ----------------------------------------------

  datatype ResolveRequest = ResolveRequest(
    excludedCredentials: seq<string>, requiredCredential: string, excludedEndpoints: seq<string>)

  /** The result of a dispatch, as the loop classifies it. The calls of a round are admitted or not,
      and a round that succeeds carries the conversation with their results. */
  datatype Outcome =
    | Fault(classified: Option<Classified>, cancelled: bool)
    | Rejected
    | Round(admitted: bool, context: Option<seq<ContextItem>>)
    | Completed(history: seq<ProviderEvent>, imported: bool)

  datatype Reply = Reply(calls: seq<SinkCall>, semantic: bool, outcome: Outcome)

  /** Everything that the loop does not decide itself, numbered by dispatch or by write. */
  datatype World = World(
    provider: (nat, Target) -> Reply,
    resolver: (nat, ResolveRequest) -> Option<Target>,
    accepts: (nat, Target) -> bool,
    loads: nat -> bool,
    saved: nat -> bool,
    refreshed: (nat, Record) -> Record,
    clock: nat -> int)

  predicate HonoursRequest(target: Target, request: ResolveRequest) {
    && target.credential != ""
    && target.credential !in request.excludedCredentials
    && target.endpoint !in request.excludedEndpoints
    && (request.requiredCredential != "" ==> target.credential == request.requiredCredential)
  }

  /** The contract of the target resolver. */
  ghost predicate Honours(w: World) {
    forall n, request :: w.resolver(n, request).Some? ==>
      HonoursRequest(w.resolver(n, request).value, request)
  }

  /** Other writers leave the work of the lease holder alone. */
  predicate SameWork(a: Record, b: Record) {
    && a.attempts == b.attempts && a.target == b.target && a.retryCycles == b.retryCycles
    && a.completedRounds == b.completedRounds && a.request == b.request && a.plan == b.plan
    && a.createdAt == b.createdAt && a.expiresAt == b.expiresAt
  }

  /** The store looks at the lifecycle edge of a write only when the status changes. */
  predicate StoreTakes(current: Status, next: Status) {
    current == next || ValidTransition(current, next)
  }

  /** What no writer ever changes, and that a target has a credential. */
  predicate SameRequest(a: Record, b: Record) {
    && a.request == b.request && a.plan == b.plan
    && a.createdAt == b.createdAt && a.expiresAt == b.expiresAt
    && a.target.subject == b.target.subject && (a.target.credential != "" ==> b.target.credential != "")
  }

  /** What a streaming session reads back. One session at a time holds the lease: the first read may find
      the work of earlier sessions, if the record that was handed over is not the stored one; every later
      read finds the session's own work. */
  ghost predicate Rereads(w: World) {
    forall n, r :: SameRequest(r, w.refreshed(n, r)) && (n > 0 ==> SameWork(r, w.refreshed(n, r)))
  }

  // ----- failover -------------------------------------------------------------------------

  /** `sent` is where it went, `target` what the record in hand names once the reply is there: something
      else only when a streaming session reads back a record with other work than it was handed. */
  datatype Dispatch = Dispatch(sent: Target, target: Target, reply: Reply)

  predicate Streams(r: Record) {
    r.request.stream && !HasRouterTools(r.plan)
  }

  predicate Semantic(reply: Reply, streaming: bool) {
    reply.semantic || (streaming && Emitted(reply.calls))
  }

  function WithUnique(values: seq<string>, value: string): seq<string> {
    if value in values then values else values + [value]
  }

  method AppendUnique(values: seq<string>, value: string) returns (r: seq<string>)
    ensures r == WithUnique(values, value)
  {
    for i := 0 to |values|
      invariant value !in values[..i]
    {
      if values[i] == value {
        return values;
      }
    }
    return values + [value];
  }

  /** The lists keep every failed pair out: its credential is excluded, or it is the current
      credential and the endpoint is excluded. */
  ghost predicate KeepsOut(dispatches: seq<Dispatch>, credentials: seq<string>, endpoints: seq<string>,
                           current: Target)
  {
    && current.credential !in credentials && current.endpoint !in endpoints
    && forall d <- dispatches :: d.reply.outcome.Fault? ==>
         PairKeptOut(d.target, credentials, endpoints, current)
  }

  predicate PairKeptOut(failed: Target, credentials: seq<string>, endpoints: seq<string>,
                        current: Target)
  {
    || failed.credential in credentials
    || (failed.credential == current.credential && failed.endpoint in endpoints)
  }

  /** A failed dispatch may be followed by another one only if nothing of it is public and nothing
      ties the execution to its target. */
  predicate MayFailOver(classified: Option<Classified>, semantic: bool, pinned: bool) {
    classified.Some? && !semantic && !pinned && classified.value.action != NoFailover
  }

  /** The request for another target, after the failed one joined the exclusions. */
  function RetryRequest(action: RetryAction, current: Target, credentials: seq<string>,
                        endpoints: seq<string>): ResolveRequest
  {
    match action
    case OtherEndpoint => ResolveRequest([], current.credential, WithUnique(endpoints, current.endpoint))
    case _ => ResolveRequest(WithUnique(credentials, current.credential), "", [])
  }

  /** An offered target, if it serves the same subject and is accepted. */
  function UsableTarget(w: World, n: nat, current: Target, offered: Option<Target>): Option<Target> {
    if offered.Some? && offered.value.subject == current.subject && w.accepts(n, offered.value) then offered else None
  }

  /** The target to go on with, if there is one. */
  function FailoverTarget(n: nat, w: World, current: Target, classified: Option<Classified>, semantic: bool,
                          pinned: bool, credentials: seq<string>, endpoints: seq<string>): Option<Target>
  {
    if !MayFailOver(classified, semantic, pinned) then None
    else
      var t := w.resolver(n, RetryRequest(classified.value.action, current, credentials, endpoints));
      if t.None? || t.value.subject != current.subject || !w.accepts(n, t.value) then None else t
  }

  /** The exclusion lists after a failure that may be followed by another dispatch. */
  function WithFailure(credentials: seq<string>, endpoints: seq<string>, d: Dispatch): (seq<string>, seq<string>) {
    if d.reply.outcome.Fault? && d.reply.outcome.classified.Some? then
      match d.reply.outcome.classified.value.action
      case OtherCredential => (WithUnique(credentials, d.target.credential), [])
      case OtherEndpoint => (credentials, WithUnique(endpoints, d.target.endpoint))
      case NoFailover => (credentials, endpoints)
    else (credentials, endpoints)
  }

  method ResolveRetryTarget(n: nat, w: World, current: Target, classified: Option<Classified>,
                            semantic: bool, pinned: bool, credentials0: seq<string>,
                            endpoints0: seq<string>, ghost before: seq<Dispatch>, ghost failed: Dispatch)
    returns (next: Option<Target>, credentials: seq<string>, endpoints: seq<string>)
    requires Honours(w) && current.credential != ""
    requires KeepsOut(before, credentials0, endpoints0, current) && failed.target == current
    requires failed.reply.outcome.Fault? && failed.reply.outcome.classified == classified
    ensures next == FailoverTarget(n, w, current, classified, semantic, pinned, credentials0, endpoints0)
    ensures classified.None? || semantic || pinned || classified.value.action == NoFailover ==> next == None
    ensures classified.Some? && !semantic && !pinned && classified.value.action == OtherEndpoint ==>
              var offered := w.resolver(n, ResolveRequest([], current.credential, endpoints0 + [current.endpoint]));
              && next == UsableTarget(w, n, current, offered)
              && (next.Some? ==> credentials == credentials0 && endpoints == endpoints0 + [current.endpoint])
    ensures classified.Some? && !semantic && !pinned && classified.value.action == OtherCredential ==>
              var offered := w.resolver(n, ResolveRequest(credentials0 + [current.credential], "", []));
              && next == UsableTarget(w, n, current, offered)
              && (next.Some? ==> credentials == credentials0 + [current.credential] && endpoints == [])
    ensures next.Some? ==> MayFailOver(classified, semantic, pinned)
    ensures next.Some? ==> next.value.subject == current.subject && next.value.credential != ""
    ensures next.Some? ==> KeepsOut(before + [failed], credentials, endpoints, next.value)
    ensures next.Some? ==> (credentials, endpoints) == WithFailure(credentials0, endpoints0, failed)
  {
    credentials, endpoints := credentials0, endpoints0;
    if classified.None? || semantic || pinned {
      return None, credentials, endpoints;
    }
    var request;
    match classified.value.action {
      case OtherCredential =>
        credentials := AppendUnique(credentials, current.credential);
        endpoints := [];
        request := ResolveRequest(credentials, "", []);
      case OtherEndpoint =>
        endpoints := AppendUnique(endpoints, current.endpoint);
        request := ResolveRequest([], current.credential, endpoints);
      case NoFailover =>
        return None, credentials, endpoints;
    }
    next := w.resolver(n, request);
    if next.None? || next.value.subject != current.subject || !w.accepts(n, next.value) {
      return None, credentials, endpoints;
    }
    assert HonoursRequest(next.value, request);
  }

  /** No pair of a credential and an endpoint is dispatched again after it failed. */
  ghost predicate NoFailedPairAgain(dispatches: seq<Dispatch>) {
    forall i, j | 0 <= i < j < |dispatches| :: dispatches[i].reply.outcome.Fault? ==>
      DifferentPair(dispatches[i].target, dispatches[j].target)
  }

  predicate DifferentPair(a: Target, b: Target) {
    a.credential != b.credential || a.endpoint != b.endpoint
  }

  lemma {:induction false} FreshPair(dispatches: seq<Dispatch>, d: Dispatch, credentials: seq<string>,
                                     endpoints: seq<string>)
    requires NoFailedPairAgain(dispatches) && KeepsOut(dispatches, credentials, endpoints, d.target)
    ensures NoFailedPairAgain(dispatches + [d])
  {
    forall i | 0 <= i < |dispatches| && dispatches[i].reply.outcome.Fault?
      ensures DifferentPair(dispatches[i].target, d.target)
    {
      assert dispatches[i] in dispatches;
      assert PairKeptOut(dispatches[i].target, credentials, endpoints, d.target);
    }
  }

  // ----- the record -----------------------------------------------------------------------

  /** persistAttempt, with the next target if there is one. */
  function Recorded(r: Record, attempt: Attempt, next: Option<Target>): Record {
    r.(attempts := r.attempts + [attempt], revision := r.revision + 1,
       target := if next.Some? then next.value else r.target)
  }

  function AfterRound(r: Record, context: seq<ContextItem>): Record {
    r.(request := r.request.(conversation := Some(context)),
       completedRounds := r.completedRounds + 1, revision := r.revision + 1)
  }

  function Ended(r: Record, status: Status): Record {
    r.(status := status, hasFailure := status == Failed, hasResult := status.IsSuccess(),
       retry := None, revision := r.revision + 1)
  }

  /** A write that adds an event and leaves everything else. */
  function Noted(r: Record): Record {
    r.(revision := r.revision + 1)
  }

  /** What every version of an execution has in common. */
  predicate SameExecution(a: Record, b: Record) {
    && a.id == b.id && a.owner == b.owner && a.requestHash == b.requestHash && a.idempotencyKey == b.idempotencyKey
    && a.request == b.request.(conversation := a.request.conversation) && a.plan == b.plan
    && a.createdAt == b.createdAt && a.expiresAt == b.expiresAt
  }

  predicate NextVersion(r: Record, t: Record) {
    RecordValid(t) && t.revision == r.revision + 1 && SameExecution(r, t)
  }

  /** Every write of a session is the next version of a running record, and the store's validator takes it. */
  lemma {:induction false} WritesAreNextVersions(r: Record, attempt: Attempt, next: Option<Target>,
                                                 context: seq<ContextItem>, at: int)
    requires RecordValid(r) && r.status == Running && attempt.sequence == |r.attempts| + 1
    ensures NextVersion(r, Recorded(r, attempt, next)) && NextVersion(r, AfterRound(r, context))
    ensures NextVersion(r, Noted(r)) && NextVersion(r, Ended(r, Succeeded)) && NextVersion(r, Ended(r, Failed))
    ensures Waiting(r, at).revision == r.revision + 1 && SameExecution(r, Waiting(r, at))
    ensures Recorded(r, attempt, next).attempts == r.attempts + [attempt]
    ensures Recorded(r, attempt, next).status == Running
    ensures AfterRound(r, context).status == Running && Noted(r) == r.(revision := r.revision + 1)
    ensures Ended(r, Succeeded).status == Succeeded && Ended(r, Failed).status == Failed
  {
  }

  /** So many more attempts stay within eight and the caller's limit, each raised by `extra`. */
  predicate Fits(r: Record, more: nat, extra: nat) {
    && |r.attempts| + more <= MAXIMUM_ATTEMPTS + extra
    && (r.request.retryPolicy.Some? && r.request.retryPolicy.value.maxAttempts.Some? ==>
          |r.attempts| + more <= r.request.retryPolicy.value.maxAttempts.value + extra)
  }

  method MaximumSynchronousCycleAttempts(r: Record) returns (n: nat)
    ensures n == Room(r, AttemptCap(r))
    ensures forall more: nat | more > 0 :: more <= n <==> Fits(r, more, Ceilings(Bindings(r.plan)))
  {
    hide Ceilings, Bindings;
    var maximum := MAXIMUM_ATTEMPTS;
    var policy := PolicyOf(r.request);
    if policy.maxAttempts.Some? && policy.maxAttempts.value < maximum {
      maximum := policy.maxAttempts.value;
    }
    maximum := maximum + Ceilings(Bindings(r.plan));
    if |r.attempts| >= maximum {
      return 0;
    }
    return maximum - |r.attempts|;
  }

  /** How the work in `after` grew out of `before`: attempts are only added, up to `room`; every
      completed round and every retry cycle has an attempt of its own; failover keeps the subject. */
  ghost predicate Grew(before: Record, room: nat, after: Record) {
    && after.plan == before.plan && after.createdAt == before.createdAt && after.expiresAt == before.expiresAt
    && after.request == before.request.(conversation := after.request.conversation)
    && before.attempts <= after.attempts
    && |after.attempts| <= |before.attempts| + room
    && before.completedRounds <= after.completedRounds
    && before.retryCycles <= after.retryCycles
    && after.completedRounds - before.completedRounds <= |after.attempts| - |before.attempts|
    && after.retryCycles - before.retryCycles <= |after.attempts| - |before.attempts|
    && after.retryCycles <= before.retryCycles + 1
    && after.target.subject == before.target.subject
    && forall i | |before.attempts| <= i < |after.attempts| ::
         && after.attempts[i].target.subject == before.target.subject
         && after.attempts[i].sequence == i + 1
  }

  // ----- the loop -------------------------------------------------------------------------

  datatype End =
    | EndSucceeded
    | EndFailed
    | EndScheduled(at: int)
    | EndCancelled(found: Record)   // the stored record, which another writer has cancelled
    | EndStarted     // the provider has accepted a task, which recovery polls from now on
    | EndLimit       // no dispatch is left, the record is unchanged
    | EndAborted     // a write lost the race or a read failed

  /** The dispatches of a session before the last one: router rounds, or failures of which nothing is
      public, on an execution that may change its target. */
  ghost predicate OnlyLastIsPublic(dispatches: seq<Dispatch>, streaming: bool, pinned: bool) {
    forall i | 0 <= i < |dispatches| - 1 :: Continues(dispatches[i].reply, streaming, pinned)
  }

  /** A round whose calls were admitted and whose results are all there. */
  predicate AddsRound(reply: Reply) {
    reply.outcome.Round? && reply.outcome.admitted && reply.outcome.context.Some?
  }

  predicate Continues(reply: Reply, streaming: bool, pinned: bool) {
    || AddsRound(reply)
    || (reply.outcome.Fault? && MayFailOver(reply.outcome.classified, Semantic(reply, streaming), pinned))
  }

  /** The provider events that a dispatch leaves in the log. */
  function Logged(reply: Reply, streaming: bool, succeeded: bool): seq<ProviderEvent> {
    var streamed := if streaming then Streamed(reply.calls) else [];
    streamed + if succeeded && reply.outcome.Completed?
               then Pending(reply.outcome.history, Ids(streamed)) else []
  }

  /** Calls are admitted only under a plan that allows them (see RouterRounds.Admitted). */
  ghost predicate RoundsNeedTools(w: World, plan: Plan) {
    forall n, t :: w.provider(n, t).outcome.Round? && w.provider(n, t).outcome.admitted ==>
      HasRouterTools(plan)
  }

  /** What an attempt says of its dispatch: where it went, whether anything of it is public, and whether the
      provider gave a result. */
  predicate Tells(attempt: Attempt, d: Dispatch, streaming: bool) {
    && attempt.target == d.target
    && (attempt.semanticOutput <==>
          d.reply.semantic || (streaming && exists call <- d.reply.calls :: call.stored))
    && (attempt.succeeded <==> d.reply.outcome.Round? || d.reply.outcome.Completed?)
  }

  /** Every recorded attempt of the session is one of its dispatches, in order. */
  ghost predicate AttemptsAre(before: Record, after: Record, dispatches: seq<Dispatch>) {
    && |before.attempts| <= |after.attempts| <= |before.attempts| + |dispatches|
    && forall i | |before.attempts| <= i < |after.attempts| ::
         Tells(after.attempts[i], dispatches[i - |before.attempts|], Streams(before))
  }

  ghost predicate SameSubject(dispatches: seq<Dispatch>, subject: Subject) {
    forall d <- dispatches :: d.target.subject == subject
  }

  /** What holds of the dispatches of one session. */
  ghost predicate Disciplined(before: Record, dispatches: seq<Dispatch>, pinned: bool) {
    && NoFailedPairAgain(dispatches)
    && SameSubject(dispatches, before.target.subject)
    && OnlyLastIsPublic(dispatches, Streams(before), pinned)
  }

  function Rounds(dispatches: seq<Dispatch>): (n: nat)
    ensures n <= |dispatches|
  {
    if dispatches == [] then 0
    else
      Rounds(dispatches[..|dispatches| - 1]) + if AddsRound(dispatches[|dispatches| - 1].reply) then 1 else 0
  }

  /** The parent conversation after these dispatches. */
  function Conversation(before: Record, dispatches: seq<Dispatch>): Option<seq<ContextItem>> {
    if dispatches == [] then before.request.conversation
    else if AddsRound(dispatches[|dispatches| - 1].reply) then dispatches[|dispatches| - 1].reply.outcome.context
    else Conversation(before, dispatches[..|dispatches| - 1])
  }

  function RoundsAt(dispatches: seq<Dispatch>): set<int> {
    set i | 0 <= i < |dispatches| && AddsRound(dispatches[i].reply)
  }

  lemma {:induction false} RoundsAtLast(earlier: seq<Dispatch>, d: Dispatch)
    ensures RoundsAt(earlier + [d]) == RoundsAt(earlier) + if AddsRound(d.reply) then {|earlier|} else {}
    ensures |earlier| !in RoundsAt(earlier)
  {
    hide AddsRound;
    assert forall i | 0 <= i < |earlier| :: (earlier + [d])[i] == earlier[i];
  }

  /** Rounds are counted one by one. */
  lemma {:induction false} RoundsAreCounted(dispatches: seq<Dispatch>)
    ensures Rounds(dispatches) == |RoundsAt(dispatches)|
  {
    hide AddsRound;
    if dispatches != [] {
      var n := |dispatches| - 1;
      RoundsAreCounted(dispatches[..n]);
      assert dispatches[..n] + [dispatches[n]] == dispatches;
      RoundsAtLast(dispatches[..n], dispatches[n]);
    }
  }

  /** The conversation is the one of the last round. */
  lemma {:induction false} ConversationIsLast(before: Record, dispatches: seq<Dispatch>, n: nat)
    requires n <= |dispatches| && forall i | n <= i < |dispatches| :: !AddsRound(dispatches[i].reply)
    ensures n > 0 && AddsRound(dispatches[n - 1].reply) ==>
              Conversation(before, dispatches) == dispatches[n - 1].reply.outcome.context
    ensures n == 0 ==> Conversation(before, dispatches) == before.request.conversation
  {
    hide AddsRound;
    if n < |dispatches| {
      ConversationIsLast(before, dispatches[..|dispatches| - 1], n);
    }
  }

  /** The record shows exactly the rounds of these dispatches. */
  ghost predicate Progressed(before: Record, r: Record, dispatches: seq<Dispatch>) {
    && r.completedRounds == before.completedRounds + Rounds(dispatches)
    && r.request.conversation == Conversation(before, dispatches)
  }

  /** The dispatches whose work is behind a session: the last one is not, unless the loop ran out. */
  function Finished(end: End, dispatches: seq<Dispatch>): seq<Dispatch> {
    if end == EndLimit || dispatches == [] then dispatches else dispatches[..|dispatches| - 1]
  }

  /** The state between two dispatches. */
  ghost predicate Between(before: Record, room: nat, r: Record, dispatches: seq<Dispatch>, pinned: bool,
                          credentials: seq<string>, endpoints: seq<string>)
  {
    && Grew(before, room, r) && r.retryCycles == before.retryCycles
    && |r.attempts| == |before.attempts| + |dispatches| && AttemptsAre(before, r, dispatches)
    && r.target.credential != "" && KeepsOut(dispatches, credentials, endpoints, r.target)
    && Disciplined(before, dispatches, pinned) && Progressed(before, r, dispatches)
    && (dispatches != [] ==>
          && Continues(dispatches[|dispatches| - 1].reply, Streams(before), pinned)
          && Logged(dispatches[|dispatches| - 1].reply, Streams(before), false) == [])
  }

  /** The state after the last of `dispatches`, whose attempt may or may not be recorded. */
  ghost predicate During(before: Record, room: nat, r: Record, dispatches: seq<Dispatch>, pinned: bool) {
    && dispatches != [] && r.target == dispatches[|dispatches| - 1].target
    && Grew(before, room, r) && r.retryCycles == before.retryCycles
    && |dispatches| <= room
    && |r.attempts| + 1 >= |before.attempts| + |dispatches| && AttemptsAre(before, r, dispatches)
    && Disciplined(before, dispatches, pinned)
    && Progressed(before, r, dispatches[..|dispatches| - 1])
  }

  ghost predicate Unrecorded(before: Record, r: Record, dispatches: seq<Dispatch>) {
    |r.attempts| + 1 == |before.attempts| + |dispatches|
  }

  /** How a session may end after its last dispatch. */
  ghost predicate EndsWith(before: Record, room: nat, end: End, after: Record, dispatches: seq<Dispatch>,
                           logged: seq<ProviderEvent>, pinned: bool)
  {
    && Grew(before, room, after) && AttemptsAre(before, after, dispatches)
    && Disciplined(before, dispatches, pinned) && Progressed(before, after, Finished(end, dispatches))
    && (dispatches == [] ==> logged == [] && end != EndSucceeded && !end.EndScheduled?)
    && (dispatches != [] ==>
          logged == Logged(dispatches[|dispatches| - 1].reply, Streams(before), end == EndSucceeded))
    && (end == EndSucceeded ==>
          after.status == Succeeded && dispatches[|dispatches| - 1].reply.outcome.Completed?)
    && (end.EndScheduled? ==> Schedules(before, end.at, after, dispatches))
    && (!end.EndScheduled? ==> after.retryCycles == before.retryCycles)
  }

  /** A retry is scheduled only after a failure of which nothing is public, and counted. */
  ghost predicate Schedules(before: Record, at: int, after: Record, dispatches: seq<Dispatch>)
    requires dispatches != []
  {
    var last := dispatches[|dispatches| - 1].reply;
    && last.outcome.Fault? && !Semantic(last, Streams(before))
    && |after.attempts| == |before.attempts| + |dispatches|
    && after.retryCycles == before.retryCycles + 1 && after.status == WaitingRetry
    && after.retry.Some? && after.retry.value.nextRetryAt == at
  }

  // ----- where the dispatches come from ---------------------------------------------------

  /** The exclusion lists after these dispatches. */
  function Excluded(dispatches: seq<Dispatch>): (seq<string>, seq<string>) {
    if dispatches == [] then ([], [])
    else
      var earlier := Excluded(dispatches[..|dispatches| - 1]);
      WithFailure(earlier.0, earlier.1, dispatches[|dispatches| - 1])
  }

  /** The target after dispatch `n`: the same one after a round, another one after a failure that allows
      it, none otherwise. */
  function Follow(w: World, n: nat, d: Dispatch, credentials: seq<string>, endpoints: seq<string>,
                  streaming: bool, pinned: bool): Option<Target>
  {
    if AddsRound(d.reply) then Some(d.target)
    else if d.reply.outcome.Fault? then
      FailoverTarget(n, w, d.target, d.reply.outcome.classified, Semantic(d.reply, streaming), pinned,
                     credentials, endpoints)
    else None
  }

  function Upcoming(w: World, first: Target, dispatches: seq<Dispatch>, streaming: bool, pinned: bool)
    : Option<Target>
  {
    if dispatches == [] then Some(first)
    else
      var n := |dispatches| - 1;
      var excluded := Excluded(dispatches[..n]);
      Follow(w, n, dispatches[n], excluded.0, excluded.1, streaming, pinned)
  }

  /** Every dispatch goes to the target that the ones before it lead to, and carries the provider's
      reply to it. Only the first may find another target in the record afterwards. */
  predicate Chained(w: World, first: Target, dispatches: seq<Dispatch>, streaming: bool, pinned: bool) {
    forall i | 0 <= i < |dispatches| ::
      && dispatches[i].reply == w.provider(i, dispatches[i].sent)
      && Upcoming(w, first, dispatches[..i], streaming, pinned) == Some(dispatches[i].sent)
      && (i > 0 ==> dispatches[i].sent == dispatches[i].target)
  }

  /** The record that the dispatches of a session work on: the stored one, once it was read back. */
  function BaseOf(w: World, before: Record, dispatches: seq<Dispatch>): Record {
    if dispatches != [] && Streams(before) then w.refreshed(0, before) else before
  }

  /** The dispatches of one session with this room: they start at the target of the record, there are none
      exactly when there is no room or the router history cannot be read, and the loop runs out only
      after a round that went on. */
  ghost predicate Dispatched(before: Record, end: End, dispatches: seq<Dispatch>, pinned: bool, w: World,
                             room: nat, readable: bool)
  {
    && Chained(w, before.target, dispatches, Streams(before), pinned)
    && (dispatches == [] <==> room == 0 || !readable)
    && |dispatches| <= room
    && (dispatches != [] ==> dispatches[0].target == BaseOf(w, before, dispatches).target)
    && (end == EndLimit ==>
          |dispatches| == room && dispatches != [] && AddsRound(dispatches[|dispatches| - 1].reply))
    && (dispatches == [] ==> end == EndFailed || end == EndAborted)
  }

  lemma {:induction false} ChainGrows(w: World, first: Target, dispatches: seq<Dispatch>, d: Dispatch,
                                      streaming: bool, pinned: bool)
    requires Chained(w, first, dispatches, streaming, pinned)
    requires Upcoming(w, first, dispatches, streaming, pinned) == Some(d.sent)
    requires d.reply == w.provider(|dispatches|, d.sent)
    requires dispatches != [] ==> d.sent == d.target
    ensures Chained(w, first, dispatches + [d], streaming, pinned)
    ensures var (credentials, endpoints) := Excluded(dispatches);
            && Upcoming(w, first, dispatches + [d], streaming, pinned)
               == Follow(w, |dispatches|, d, credentials, endpoints, streaming, pinned)
            && Excluded(dispatches + [d]) == WithFailure(credentials, endpoints, d)
  {
    hide Upcoming, Follow, WithFailure, Excluded;
    var all := dispatches + [d];
    assert all[..|dispatches|] == dispatches;
    forall i | 0 <= i < |all|
      ensures all[i].reply == w.provider(i, all[i].sent)
      ensures Upcoming(w, first, all[..i], streaming, pinned) == Some(all[i].sent)
      ensures i > 0 ==> all[i].sent == all[i].target
    {
      if i < |dispatches| {
        assert all[..i] == dispatches[..i] && all[i] == dispatches[i];
      }
    }
    LastDispatch(w, first, dispatches, d, streaming, pinned);
  }

  lemma {:induction false} LastDispatch(w: World, first: Target, dispatches: seq<Dispatch>, d: Dispatch,
                                        streaming: bool, pinned: bool)
    ensures var (credentials, endpoints) := Excluded(dispatches);
            && Upcoming(w, first, dispatches + [d], streaming, pinned)
               == Follow(w, |dispatches|, d, credentials, endpoints, streaming, pinned)
            && Excluded(dispatches + [d]) == WithFailure(credentials, endpoints, d)
  {
    hide Follow, WithFailure;
    assert (dispatches + [d])[..|dispatches|] == dispatches;
  }

  lemma {:induction false} ChainStarts(w: World, first: Target, streaming: bool, pinned: bool)
    ensures Chained(w, first, [], streaming, pinned) && Excluded([]) == ([], [])
    ensures Upcoming(w, first, [], streaming, pinned) == Some(first)
  {
  }

  // ----- where a reply leads, said once more without the loop -----------------------------

  predicate Asks(d: Dispatch, action: RetryAction) {
    && d.reply.outcome.Fault? && d.reply.outcome.classified.Some?
    && d.reply.outcome.classified.value.action == action
  }

  /** The credentials that failed, in order. */
  function SpentCredentials(dispatches: seq<Dispatch>): seq<string> {
    if dispatches == [] then []
    else
      var last := dispatches[|dispatches| - 1];
      SpentCredentials(dispatches[..|dispatches| - 1])
      + if Asks(last, OtherCredential) then [last.target.credential] else []
  }

  /** The endpoints that failed since the credential changed last, in order. */
  function SpentEndpoints(dispatches: seq<Dispatch>): seq<string> {
    if dispatches == [] then []
    else
      var last := dispatches[|dispatches| - 1];
      if Asks(last, OtherCredential) then []
      else
        SpentEndpoints(dispatches[..|dispatches| - 1])
        + if Asks(last, OtherEndpoint) then [last.target.endpoint] else []
  }

  /** The target that the resolver gives for what a failure asks: another endpoint under the same credential,
      or another credential with any endpoint. */
  function AskedFor(w: World, earlier: seq<Dispatch>, d: Dispatch): Option<Target> {
    if Asks(d, OtherEndpoint) then
      w.resolver(|earlier|,
                 ResolveRequest([], d.target.credential, SpentEndpoints(earlier) + [d.target.endpoint]))
    else if Asks(d, OtherCredential) then
      w.resolver(|earlier|, ResolveRequest(SpentCredentials(earlier) + [d.target.credential], "", []))
    else None
  }

  /** A round with all its results leads to the target that it came from; a failure of which nothing is
      public leads to the accepted target of the same subject that it asks for, unless the execution is
      pinned; nothing else leads anywhere. */
  ghost predicate LeadsTo(w: World, earlier: seq<Dispatch>, d: Dispatch, streaming: bool, pinned: bool, t: Target) {
    var outcome := d.reply.outcome;
    || (outcome.Round? && outcome.admitted && outcome.context.Some? && t == d.target)
    || (&& !pinned && !d.reply.semantic && (streaming ==> forall call <- d.reply.calls :: !call.stored)
        && AskedFor(w, earlier, d) == Some(t) && t.subject == d.target.subject && w.accepts(|earlier|, t))
  }

  /** Every dispatch goes where the reply before it leads. */
  ghost predicate IsLed(w: World, dispatches: seq<Dispatch>, streaming: bool, pinned: bool) {
    forall i | 0 <= i < |dispatches| - 1 ::
      LeadsTo(w, dispatches[..i], dispatches[i], streaming, pinned, dispatches[i + 1].sent)
  }

  /** A reply that leads on is followed, as long as there is room and, after a failure, the next binding can be
      loaded. */
  ghost predicate FollowsOn(w: World, dispatches: seq<Dispatch>, streaming: bool, pinned: bool, room: nat) {
    forall i, t | 0 <= i < |dispatches| && LeadsTo(w, dispatches[..i], dispatches[i], streaming, pinned, t) ::
      i + 1 < room && (dispatches[i].reply.outcome.Fault? ==> w.loads(i)) ==>
        i + 1 < |dispatches| && dispatches[i + 1].sent == t
  }

  /** While the current pair is not among the excluded ones, the lists of the loop are the failed ones. */
  lemma {:induction false} SpentGrow(earlier: seq<Dispatch>, d: Dispatch, credentials: seq<string>,
                                     endpoints: seq<string>)
    requires credentials == SpentCredentials(earlier) && endpoints == SpentEndpoints(earlier)
    requires d.target.credential !in credentials && d.target.endpoint !in endpoints
    ensures WithFailure(credentials, endpoints, d)
            == (SpentCredentials(earlier + [d]), SpentEndpoints(earlier + [d]))
  {
    var all := earlier + [d];
    assert all[..|earlier|] == earlier && all[|earlier|] == d;
    assert SpentCredentials(all) == credentials + if Asks(d, OtherCredential) then [d.target.credential] else [];
    assert credentials + [] == credentials && endpoints + [] == endpoints;
  }

  lemma {:induction false} FollowMeans(w: World, earlier: seq<Dispatch>, d: Dispatch, streaming: bool, pinned: bool,
                                       t: Target)
    requires d.target.credential !in SpentCredentials(earlier) && d.target.endpoint !in SpentEndpoints(earlier)
    ensures Follow(w, |earlier|, d, SpentCredentials(earlier), SpentEndpoints(earlier), streaming, pinned) == Some(t)
            <==> LeadsTo(w, earlier, d, streaming, pinned, t)
  {
    hide SpentCredentials, SpentEndpoints;
  }

  lemma {:induction false} UpcomingMeans(w: World, first: Target, dispatches: seq<Dispatch>, streaming: bool,
                                         pinned: bool, t: Target)
    requires dispatches != []
    requires var n := |dispatches| - 1;
             && Excluded(dispatches[..n]) == (SpentCredentials(dispatches[..n]), SpentEndpoints(dispatches[..n]))
             && dispatches[n].target.credential !in SpentCredentials(dispatches[..n])
             && dispatches[n].target.endpoint !in SpentEndpoints(dispatches[..n])
    ensures var n := |dispatches| - 1;
            Upcoming(w, first, dispatches, streaming, pinned) == Some(t) <==>
            LeadsTo(w, dispatches[..n], dispatches[n], streaming, pinned, t)
  {
    hide LeadsTo, Follow, Excluded, SpentCredentials, SpentEndpoints;
    var n := |dispatches| - 1;
    FollowMeans(w, dispatches[..n], dispatches[n], streaming, pinned, t);
  }

  /** Where a reply leads, nothing is excluded. */
  lemma {:induction false} LedAway(w: World, earlier: seq<Dispatch>, d: Dispatch, streaming: bool, pinned: bool,
                                   t: Target)
    requires Honours(w) && d.target.credential != ""
    requires d.target.credential !in SpentCredentials(earlier) && d.target.endpoint !in SpentEndpoints(earlier)
    requires LeadsTo(w, earlier, d, streaming, pinned, t)
    ensures t.credential != ""
    ensures t.credential !in SpentCredentials(earlier + [d]) && t.endpoint !in SpentEndpoints(earlier + [d])
  {
    assert (earlier + [d])[..|earlier|] == earlier;
    if Asks(d, OtherEndpoint) {
      assert HonoursRequest(t, ResolveRequest([], d.target.credential, SpentEndpoints(earlier) + [d.target.endpoint]));
    } else if Asks(d, OtherCredential) {
      assert HonoursRequest(t, ResolveRequest(SpentCredentials(earlier) + [d.target.credential], "", []));
    }
  }

  lemma {:induction false} ChainBefore(w: World, first: Target, dispatches: seq<Dispatch>, n: nat, streaming: bool,
                                       pinned: bool)
    requires Chained(w, first, dispatches, streaming, pinned) && n < |dispatches|
    ensures Chained(w, first, dispatches[..n], streaming, pinned)
    ensures Upcoming(w, first, dispatches[..n], streaming, pinned) == Some(dispatches[n].sent)
    ensures n > 0 ==> dispatches[n].sent == dispatches[n].target
  {
    hide Upcoming;
    forall i | 0 <= i < n ensures dispatches[..n][..i] == dispatches[..i] {
    }
  }

  /** The exclusions are the failed credentials and endpoints, and nothing goes to what is excluded. */
  lemma {:induction false} SpentAreExcluded(w: World, first: Target, dispatches: seq<Dispatch>, streaming: bool,
                                            pinned: bool)
    requires Honours(w) && Chained(w, first, dispatches, streaming, pinned)
    requires dispatches != [] ==> dispatches[0].target.credential != ""
    ensures Excluded(dispatches) == (SpentCredentials(dispatches), SpentEndpoints(dispatches))
    ensures dispatches != [] ==>
              var n := |dispatches| - 1;
              && Excluded(dispatches[..n]) == (SpentCredentials(dispatches[..n]), SpentEndpoints(dispatches[..n]))
              && dispatches[n].target.credential != ""
              && dispatches[n].target.credential !in SpentCredentials(dispatches[..n])
              && dispatches[n].target.endpoint !in SpentEndpoints(dispatches[..n])
  {
    hide Upcoming, WithFailure, LeadsTo, Honours, Chained;
    if dispatches != [] {
      var n := |dispatches| - 1;
      var earlier, last := dispatches[..n], dispatches[n];
      ChainBefore(w, first, dispatches, n, streaming, pinned);
      SpentAreExcluded(w, first, earlier, streaming, pinned);
      if n > 0 {
        UpcomingMeans(w, first, earlier, streaming, pinned, last.target);
        LedAway(w, earlier[..n - 1], earlier[n - 1], streaming, pinned, last.target);
        assert earlier[..n - 1] + [earlier[n - 1]] == earlier;
      }
      assert earlier + [last] == dispatches;
      SpentGrow(earlier, last, SpentCredentials(earlier), SpentEndpoints(earlier));
    }
  }

  lemma {:induction false} LeadsOn(w: World, first: Target, dispatches: seq<Dispatch>, streaming: bool, pinned: bool,
                                   t: Target)
    requires Honours(w) && Chained(w, first, dispatches, streaming, pinned)
    requires dispatches != [] && dispatches[0].target.credential != ""
    ensures Upcoming(w, first, dispatches, streaming, pinned) == Some(t) <==>
            LeadsTo(w, dispatches[..|dispatches| - 1], dispatches[|dispatches| - 1], streaming, pinned, t)
  {
    hide Upcoming, LeadsTo, Honours, Chained, Excluded, SpentCredentials, SpentEndpoints;
    SpentAreExcluded(w, first, dispatches, streaming, pinned);
    UpcomingMeans(w, first, dispatches, streaming, pinned, t);
  }

  /** What the chain of a session means, and that a session which stops for a reason leaves nothing out. */
  lemma {:induction false} SessionIsLed(w: World, first: Target, dispatches: seq<Dispatch>, streaming: bool,
                                        pinned: bool, room: nat)
    requires Honours(w) && Chained(w, first, dispatches, streaming, pinned) && |dispatches| <= room
    requires dispatches != [] ==> dispatches[0].target.credential != ""
    ensures IsLed(w, dispatches, streaming, pinned)
    ensures (dispatches != [] && |dispatches| < room ==>
               Stops(w, |dispatches| - 1, dispatches[|dispatches| - 1].reply,
                     Upcoming(w, first, dispatches, streaming, pinned), true)) ==>
            FollowsOn(w, dispatches, streaming, pinned, room)
  {
    hide LeadsTo, Upcoming, Honours, Chained;
    forall i, t | 0 <= i < |dispatches| - 1
      ensures LeadsTo(w, dispatches[..i], dispatches[i], streaming, pinned, t) <==> t == dispatches[i + 1].sent
    {
      ChainBefore(w, first, dispatches, i + 1, streaming, pinned);
      assert dispatches[..i + 1][..i] == dispatches[..i];
      LeadsOn(w, first, dispatches[..i + 1], streaming, pinned, t);
    }
    var n := |dispatches| - 1;
    if dispatches != [] && |dispatches| < room ==>
         Stops(w, n, dispatches[n].reply, Upcoming(w, first, dispatches, streaming, pinned), true)
    {
      forall i, t | 0 <= i < |dispatches| && LeadsTo(w, dispatches[..i], dispatches[i], streaming, pinned, t)
        ensures i + 1 < room && (dispatches[i].reply.outcome.Fault? ==> w.loads(i)) ==>
                  i + 1 < |dispatches| && dispatches[i + 1].sent == t
      {
        if i == n {
          LeadsOn(w, first, dispatches, streaming, pinned, t);
        }
      }
    }
  }

  // ----- the end that a session deserves --------------------------------------------------

  /** No write loses a race and no other writer changes the status. */
  ghost predicate Uncontended(w: World) {
    (forall k :: w.saved(k)) && (forall n, r :: w.refreshed(n, r).status == r.status)
  }

  /** The retry that the schedule grants after the failure of dispatch `n`. */
  ghost predicate RetryGranted(w: World, n: nat, after: Record, classified: Option<Classified>, semantic: bool) {
    && after.attempts != [] && MayRetry(after, classified, semantic)
    && InTime(after, DueAt(after, classified.value, w.clock(n)))
  }

  /** What becomes of a failure that nothing follows, when no write loses a race: it is scheduled if and
      only if a retry is granted and the store takes a waiting record from this status. */
  ghost predicate Rescheduled(w: World, n: nat, end: End, after: Record, status: Status,
                              classified: Option<Classified>, semantic: bool)
  {
    var granted := RetryGranted(w, n, after, classified, semantic);
    && (end.EndScheduled? <==> granted && StoreTakes(status, WaitingRetry))
    && (granted && !StoreTakes(status, WaitingRetry) ==> end == EndAborted)
    && (!granted && !status.IsTerminal() ==> end == EndFailed)
  }

  /** Scheduling looks at nothing that the writes of an end change. */
  lemma {:induction false} GrantedAfter(w: World, n: nat, recorded: Record, after: Record,
                                        classified: Option<Classified>, semantic: bool, at: Option<int>)
    requires SameWork(recorded, after) || (at.Some? && after == Waiting(recorded, at.value))
    ensures RetryGranted(w, n, recorded, classified, semantic) == RetryGranted(w, n, after, classified, semantic)
  {
    hide Ceilings, Bindings, Delay, PolicyOf, Transient;
  }

  /** The end that the last reply deserves. */
  ghost predicate Earned(w: World, n: nat, end: End, after: Record, reply: Reply, streaming: bool) {
    match reply.outcome
    case Fault(classified, _) =>
      var granted := RetryGranted(w, n, after, classified, Semantic(reply, streaming));
      || (granted && end == EndScheduled(DueAt(after, classified.value, w.clock(n))))
      || (end == EndFailed && (!w.loads(n) || !granted))
    case Rejected => end == EndFailed
    case Round(admitted, context) => end == EndFailed && !(admitted && context.Some?)
    case Completed(_, imported) => end == if imported then EndSucceeded else EndFailed
  }

  /** Why a session whose writes go through stops after dispatch `n`: nothing follows, or a failure is
      the last attempt or leads to a binding that cannot be loaded. */
  predicate Stops(w: World, n: nat, last: Reply, upcoming: Option<Target>, more: bool) {
    upcoming.None? || (last.outcome.Fault? && (!more || !w.loads(n)))
  }

  /** The same, reply by reply: success exactly after a complete result whose resources were imported, a
      session that runs out exactly after a round that went on, a retry exactly when it is granted, and
      failure otherwise. */
  ghost predicate EndsByLastReply(w: World, end: End, after: Record, dispatches: seq<Dispatch>, streaming: bool)
    requires dispatches != []
  {
    var n := |dispatches| - 1;
    var reply := dispatches[n].reply;
    var public := reply.semantic || (streaming && exists call <- reply.calls :: call.stored);
    && (end == EndSucceeded <==> reply.outcome.Completed? && reply.outcome.imported)
    && (end == EndLimit <==> AddsRound(reply))
    && (end.EndScheduled? ==>
          && reply.outcome.Fault? && RetryGranted(w, n, after, reply.outcome.classified, public)
          && end.at == DueAt(after, reply.outcome.classified.value, w.clock(n)))
    && (reply.outcome.Fault? && w.loads(n) && RetryGranted(w, n, after, reply.outcome.classified, public) ==>
          end.EndScheduled?)
    && (end == EndSucceeded || end == EndLimit || end.EndScheduled? || end == EndFailed)
  }

  lemma {:induction false} EarnedMeans(w: World, before: Record, end: End, after: Record, dispatches: seq<Dispatch>,
                                       pinned: bool, room: nat)
    requires Settled(before, end, after, dispatches, pinned, w, room) && dispatches != []
    ensures EndsByLastReply(w, end, after, dispatches, Streams(before))
  {
    hide HasRouterTools, RetryGranted, Upcoming;
  }

  // ----- steps of the loop, on values -----------------------------------------------------

  lemma {:induction false} StartsBetween(r: Record, room: nat, pinned: bool)
    requires r.target.credential != ""
    ensures Between(r, room, r, [], pinned, [], [])
  {
  }

  lemma {:induction false} DispatchBegins(before: Record, room: nat, r: Record, earlier: seq<Dispatch>, d: Dispatch,
                                          pinned: bool, credentials: seq<string>, endpoints: seq<string>)
    requires Between(before, room, r, earlier, pinned, credentials, endpoints) && d.target == r.target
    requires |earlier| < room
    ensures During(before, room, r, earlier + [d], pinned) && Unrecorded(before, r, earlier + [d])
  {
    hide HasRouterTools, MayFailOver, Semantic, AttemptCap, PairKeptOut;
    FreshPair(earlier, d, credentials, endpoints);
    var all := earlier + [d];
    assert all[..|all| - 1] == earlier;
    forall i | 0 <= i < |all| - 1 ensures Continues(all[i].reply, Streams(before), pinned) {
      assert all[i] == earlier[i];
    }
  }

  lemma {:induction false} RefreshKeeps(before: Record, room: nat, r: Record, latest: Record,
                                        dispatches: seq<Dispatch>, pinned: bool, credentials: seq<string>,
                                        endpoints: seq<string>)
    requires Between(before, room, r, dispatches, pinned, credentials, endpoints) && SameWork(r, latest)
    ensures Between(before, room, latest, dispatches, pinned, credentials, endpoints)
    ensures latest.target == r.target
  {
    hide HasRouterTools, Disciplined, KeepsOut;
  }

  lemma {:induction false} RecordingKeeps(before: Record, room: nat, r: Record, dispatches: seq<Dispatch>, pinned: bool,
                                          attempt: Attempt)
    requires During(before, room, r, dispatches, pinned) && Unrecorded(before, r, dispatches)
    requires Tells(attempt, dispatches[|dispatches| - 1], Streams(before)) && attempt.sequence == |r.attempts| + 1
    ensures var t := Recorded(r, attempt, None);
            && During(before, room, t, dispatches, pinned)
            && |t.attempts| == |before.attempts| + |dispatches|
            && t.target == r.target && t.completedRounds == r.completedRounds
  {
    hide HasRouterTools, Disciplined, AttemptCap;
  }

  lemma {:induction false} FailoverContinues(before: Record, room: nat, r: Record, dispatches: seq<Dispatch>,
          pinned: bool, attempt: Attempt, next: Target, credentials: seq<string>, endpoints: seq<string>)
    requires During(before, room, r, dispatches, pinned) && Unrecorded(before, r, dispatches)
    requires Tells(attempt, dispatches[|dispatches| - 1], Streams(before)) && attempt.sequence == |r.attempts| + 1
    requires next.subject == r.target.subject && next.credential != ""
    requires KeepsOut(dispatches, credentials, endpoints, next)
    requires dispatches[|dispatches| - 1].reply.outcome.Fault?
    requires Continues(dispatches[|dispatches| - 1].reply, Streams(before), pinned)
    requires Logged(dispatches[|dispatches| - 1].reply, Streams(before), false) == []
    ensures Between(before, room, Recorded(r, attempt, Some(next)), dispatches, pinned, credentials, endpoints)
  {
    hide HasRouterTools, Disciplined, AttemptCap, KeepsOut;
  }

  lemma {:induction false} RoundContinues(before: Record, room: nat, r: Record, dispatches: seq<Dispatch>, pinned: bool,
                                          context: seq<ContextItem>, credentials: seq<string>,
                                          endpoints: seq<string>)
    requires During(before, room, r, dispatches, pinned)
    requires |r.attempts| == |before.attempts| + |dispatches|
    requires var reply := dispatches[|dispatches| - 1].reply;
             AddsRound(reply) && reply.outcome.context == Some(context)
    requires r.target.credential != "" && KeepsOut(dispatches, credentials, endpoints, r.target)
    requires Continues(dispatches[|dispatches| - 1].reply, Streams(before), pinned)
    requires Logged(dispatches[|dispatches| - 1].reply, Streams(before), false) == []
    ensures Between(before, room, AfterRound(r, context), dispatches, pinned, credentials, endpoints)
  {
    hide HasRouterTools, Disciplined, AttemptCap, KeepsOut;
  }

  lemma {:induction false} KeepsOutRound(dispatches: seq<Dispatch>, d: Dispatch, credentials: seq<string>,
                                         endpoints: seq<string>, current: Target)
    requires KeepsOut(dispatches, credentials, endpoints, current) && !d.reply.outcome.Fault?
    ensures KeepsOut(dispatches + [d], credentials, endpoints, current)
  {
  }

  /** Every end but success and schedule: the attempt is recorded or not, and what is not work of the
      session may change. */
  lemma {:induction false} EndsPlainly(before: Record, room: nat, end: End, r: Record, after: Record,
                                       dispatches: seq<Dispatch>, logged: seq<ProviderEvent>, pinned: bool)
    requires During(before, room, r, dispatches, pinned)
    requires end != EndSucceeded && !end.EndScheduled? && end != EndLimit
    requires logged == Logged(dispatches[|dispatches| - 1].reply, Streams(before), false)
    requires SameWork(r, after)
    ensures EndsWith(before, room, end, after, dispatches, logged, pinned)
  {
    hide HasRouterTools, Disciplined, AttemptCap, Logged;
  }

  lemma {:induction false} EndsInSuccess(before: Record, room: nat, r: Record, dispatches: seq<Dispatch>,
                                         logged: seq<ProviderEvent>, pinned: bool)
    requires During(before, room, r, dispatches, pinned)
    requires dispatches[|dispatches| - 1].reply.outcome.Completed?
    requires logged == Logged(dispatches[|dispatches| - 1].reply, Streams(before), true)
    ensures EndsWith(before, room, EndSucceeded, Ended(Noted(r), Succeeded), dispatches, logged, pinned)
    ensures EndsWith(before, room, EndSucceeded, Ended(r, Succeeded), dispatches, logged, pinned)
  {
    hide HasRouterTools, Disciplined, AttemptCap, Logged;
  }

  lemma {:induction false} EndsWaiting(before: Record, room: nat, r: Record, at: int, dispatches: seq<Dispatch>,
                                       logged: seq<ProviderEvent>, pinned: bool)
    requires During(before, room, r, dispatches, pinned)
    requires |r.attempts| == |before.attempts| + |dispatches|
    requires var last := dispatches[|dispatches| - 1].reply;
             && last.outcome.Fault? && !Semantic(last, Streams(before))
             && logged == Logged(last, Streams(before), false)
    ensures EndsWith(before, room, EndScheduled(at), Waiting(r, at), dispatches, logged, pinned)
  {
    hide HasRouterTools, Disciplined, AttemptCap, Logged, Semantic;
  }

  lemma {:induction false} BetweenMeans(before: Record, room: nat, r: Record, earlier: seq<Dispatch>, pinned: bool,
                                        credentials: seq<string>, endpoints: seq<string>)
    requires Between(before, room, r, earlier, pinned, credentials, endpoints)
    ensures KeepsOut(earlier, credentials, endpoints, r.target) && r.target.credential != ""
    ensures Streams(r) == Streams(before) && r.plan == before.plan
    ensures |r.attempts| == |before.attempts| + |earlier|
  {
    hide Disciplined, AttemptCap, KeepsOut;
  }

  lemma {:induction false} ReadsBack(w: World, n: nat, r: Record)
    requires Rereads(w)
    ensures SameRequest(r, w.refreshed(n, r)) && Streams(w.refreshed(n, r)) == Streams(r)
    ensures w.refreshed(n, r).plan == r.plan
    ensures r.target.credential != "" ==> w.refreshed(n, r).target.credential != ""
    ensures n > 0 ==> SameWork(r, w.refreshed(n, r))
  {
    hide HasRouterTools;
  }

  // ----- the loop -------------------------------------------------------------------------

  method Drive(calls: seq<SinkCall>) returns (sink: DurableEventSink)
    ensures fresh(sink) && sink.Valid() && sink.calls == calls && sink.log == Streamed(calls)
  {
    sink := new DurableEventSink();
    for i := 0 to |calls|
      invariant fresh(sink) && sink.Valid() && sink.calls == calls[..i]
    {
      sink.Call(calls[i]);
      assert calls[..i + 1] == calls[..i] + [calls[i]];
    }
  }

  /** What a failure leaves: a retry sequence is closed first, with a write of its own. */
  function Aborted(r: Record): Record {
    if r.retryCycles == 0 then r else Noted(r)
  }

  /** fail: the terminal transition, which other writers may have made impossible. `stored` says whether
      `after` is in the store. */
  method Fail(r: Record, w: World, writes0: nat)
    returns (end: End, after: Record, writes: nat, stored: bool)
    ensures end == EndFailed || end == EndAborted
    ensures end == EndFailed ==>
              after == if r.status == Failed then Aborted(r) else Ended(Aborted(r), Failed)
    ensures end == EndFailed ==> after.status == Failed
    ensures end == EndAborted ==> after == r || after == Aborted(r)
    ensures SameWork(r, after) && (!stored ==> after == r)
    ensures (forall k :: w.saved(k)) && !r.status.IsTerminal() ==> end == EndFailed && stored
  {
    after, writes, stored := r, writes0, false;
    if r.retryCycles != 0 {
      writes := writes + 1;
      if !w.saved(writes0) {
        return EndAborted, r, writes, false;
      }
      after, stored := Noted(r), true;
    }
    if after.status == Failed {
      return EndFailed, after, writes, stored;
    }
    writes := writes + 1;
    if !ValidTransition(after.status, Failed) || !w.saved(writes - 1) {
      return EndAborted, after, writes, stored;
    }
    return EndFailed, Ended(after, Failed), writes, true;
  }

  lemma {:induction false} NothingPublic(reply: Reply, streaming: bool)
    requires !Semantic(reply, streaming) || (!streaming && !reply.outcome.Completed?)
    ensures Logged(reply, streaming, false) == []
  {
    hide Streamed;
    StreamedIsEmitted(reply.calls);
  }

  lemma {:induction false} FailoverGoesOn(dispatches: seq<Dispatch>, streaming: bool, pinned: bool)
    requires dispatches != []
    requires var reply := dispatches[|dispatches| - 1].reply;
             reply.outcome.Fault? && MayFailOver(reply.outcome.classified, Semantic(reply, streaming), pinned)
    ensures Continues(dispatches[|dispatches| - 1].reply, streaming, pinned)
    ensures Logged(dispatches[|dispatches| - 1].reply, streaming, false) == []
  {
    hide Streamed;
    NothingPublic(dispatches[|dispatches| - 1].reply, streaming);
  }

  lemma {:induction false} EarnedFault(w: World, n: nat, recorded: Record, end: End, after: Record, reply: Reply,
                                       streaming: bool, at: Option<int>)
    requires reply.outcome.Fault? && recorded.attempts != []
    requires var classified := reply.outcome.classified;
             && (at.Some? <==> MayRetry(recorded, classified, Semantic(reply, streaming))
                               && InTime(recorded, DueAt(recorded, classified.value, w.clock(n))))
             && (at.Some? ==> at.value == DueAt(recorded, classified.value, w.clock(n)))
    requires if at.Some? then end == EndScheduled(at.value) && after == Waiting(recorded, at.value)
             else end == EndFailed && SameWork(recorded, after)
    ensures Earned(w, n, end, after, reply, streaming)
  {
    hide Ceilings, Bindings, HasRouterTools, PolicyOf, Delay, Semantic, Transient;
  }

  lemma {:induction false} EarnedFailure(w: World, n: nat, after: Record, reply: Reply, streaming: bool)
    requires match reply.outcome
             case Fault(_, _) => !w.loads(n)
             case Rejected => true
             case Round(admitted, context) => !(admitted && context.Some?)
             case Completed(_, imported) => !imported
    ensures Earned(w, n, EndFailed, after, reply, streaming)
  {
  }

  lemma {:induction false} EarnedSuccess(w: World, n: nat, after: Record, reply: Reply, streaming: bool)
    requires reply.outcome.Completed? && reply.outcome.imported
    ensures Earned(w, n, EndSucceeded, after, reply, streaming)
  {
  }

  lemma {:induction false} SomeDispatch(before: Record, room: nat, r: Record, dispatches: seq<Dispatch>, pinned: bool)
    requires During(before, room, r, dispatches, pinned)
    ensures dispatches != []
  {
  }

  lemma {:induction false} RunningAfter(r: Record, attempt: Attempt, next: Option<Target>, context: seq<ContextItem>)
    ensures Recorded(r, attempt, next).status == r.status && Recorded(r, attempt, next).attempts != []
    ensures |Recorded(r, attempt, next).attempts| == |r.attempts| + 1
    ensures Recorded(r, attempt, next).target == if next.Some? then next.value else r.target
    ensures AfterRound(r, context).status == r.status && AfterRound(r, context).target == r.target
  {
  }

  lemma {:induction false} SameWorkItself(r: Record, status: Status)
    ensures SameWork(r, r) && SameWork(r, Noted(r)) && SameWork(r, Ended(r, status))
    ensures SameWork(r, Ended(Noted(r), status)) && Noted(r).status == r.status
    ensures !Running.IsTerminal() && StoreTakes(Running, WaitingRetry) && StoreTakes(Running, Succeeded)
  {
  }

  lemma {:induction false} SameWorkChain(a: Record, b: Record, c: Record)
    requires SameWork(a, b) && SameWork(b, c)
    ensures SameWork(a, c)
  {
  }

  lemma {:induction false} WorldIsQuiet(w: World, n: nat, r: Record)
    requires Uncontended(w)
    ensures w.refreshed(n, r).status == r.status && forall k :: w.saved(k)
  {
  }

  lemma {:induction false} RetryIsQuiet(r: Record, classified: Option<Classified>, semantic: bool)
    ensures MayRetry(r, classified, semantic) ==> !semantic
  {
  }

  lemma {:induction false} AttemptTells(attempt: Attempt, d: Dispatch, streaming: bool)
    requires attempt.target == d.target && attempt.semanticOutput == Semantic(d.reply, streaming)
    requires attempt.succeeded == (d.reply.outcome.Round? || d.reply.outcome.Completed?)
    ensures Tells(attempt, d, streaming)
  {
  }

  /** A failed dispatch: fail over, or record the attempt and schedule, or give up. */
  method AfterFault(ghost before: Record, ghost room: nat, r0: Record, ghost earlier: seq<Dispatch>, d: Dispatch,
                    n: nat, more: bool, pinned: bool, w: World, credentials0: seq<string>, endpoints0: seq<string>,
                    writes0: nat, semantic: bool, ghost logged: seq<ProviderEvent>)
    returns (end: Option<End>, r: Record, credentials: seq<string>, endpoints: seq<string>, writes: nat)
    requires Honours(w) && d.reply.outcome.Fault? && d.target == r0.target
    requires During(before, room, r0, earlier + [d], pinned) && Unrecorded(before, r0, earlier + [d])
    requires KeepsOut(earlier, credentials0, endpoints0, r0.target) && r0.target.credential != ""
    requires semantic == Semantic(d.reply, Streams(before))
    requires logged == Logged(d.reply, Streams(before), false)
    ensures end.None? ==>
              Between(before, room, r, earlier + [d], pinned, credentials, endpoints) && logged == []
    ensures end.Some? ==> EndsWith(before, room, end.value, r, earlier + [d], logged, pinned)
    ensures end.Some? ==> end.value != EndLimit && end.value != EndStarted
    ensures Uncontended(w) && r0.status == Running ==>
              if end.None? then r.status == Running else Earned(w, n, end.value, r, d.reply, Streams(before))
    ensures end.None? ==>
              && Follow(w, n, d, credentials0, endpoints0, Streams(before), pinned) == Some(r.target)
              && (credentials, endpoints) == WithFailure(credentials0, endpoints0, d)
    ensures Uncontended(w) && (r0.status == Running || !d.reply.outcome.cancelled) && end.Some? ==>
              Stops(w, n, d.reply, Follow(w, n, d, credentials0, endpoints0, Streams(before), pinned), more)
    ensures Uncontended(w) && end.None? ==> r.status == r0.status
    ensures end.None? ==> more
    ensures end.Some? && end.value.EndCancelled? ==> end.value.found.status == Cancelled
    ensures var next := Follow(w, n, d, credentials0, endpoints0, Streams(before), pinned);
            Uncontended(w) && !d.reply.outcome.cancelled ==>
              if next.None? || !more then
                && end.Some? && |r.attempts| == |r0.attempts| + 1
                && Rescheduled(w, n, end.value, r, r0.status, d.reply.outcome.classified, semantic)
              else end.Some? ==> !end.value.EndScheduled?
  {
    hide *;
    ghost var all := earlier + [d];
    if Uncontended(w) {
      WorldIsQuiet(w, n, r0);
    }
    var classified := d.reply.outcome.classified;
    r, credentials, endpoints, writes := r0, credentials0, endpoints0, writes0;
    FollowsFault(w, n, d, credentials, endpoints, Streams(before), pinned);
    SameWorkItself(r, Failed);
    if d.reply.outcome.cancelled {
      var stored := w.refreshed(n, r);
      if stored.status == Cancelled {
        EndsPlainly(before, room, EndCancelled(stored), r, r, all, logged, pinned);
        return Some(EndCancelled(stored)), r, credentials, endpoints, writes;
      }
    }
    var attempt := Attempt(|r.attempts| + 1, r.target, semantic, false);
    AttemptTells(attempt, d, Streams(before));
    var next;
    next, credentials, endpoints :=
      ResolveRetryTarget(n, w, r.target, classified, semantic, pinned, credentials, endpoints, earlier, d);
    EndsPlainly(before, room, EndAborted, r, r, all, logged, pinned);
    if !w.saved(writes) {
      return Some(EndAborted), r, credentials, endpoints, writes + 1;
    }
    writes := writes + 1;
    if next.Some? && more {
      FailoverGoesOn(all, Streams(before), pinned);
      FailoverContinues(before, room, r, all, pinned, attempt, next.value, credentials, endpoints);
      RunningAfter(r, attempt, next, []);
      r := Recorded(r, attempt, next);
      if w.loads(n) {
        return None, r, credentials, endpoints, writes;
      }
      var failed, stored;
      failed, r, writes, stored := Fail(r, w, writes);
      MovedEnds(before, room, failed, r0, attempt, next.value, r, all, logged, pinned);
      EarnedFailure(w, n, r, d.reply, Streams(before));
      return Some(failed), r, credentials, endpoints, writes;
    }
    RecordingKeeps(before, room, r, all, pinned, attempt);
    RunningAfter(r, attempt, None, []);
    r := Recorded(r, attempt, None);
    ghost var recorded := r;
    var at := NextRetry(r, classified, semantic, w.clock(n));
    if at.Some? {
      RetryIsQuiet(r, classified, semantic);
      if !StoreTakes(r.status, WaitingRetry) || !w.saved(writes) {
        SameWorkItself(r, Failed);
        EndsPlainly(before, room, EndAborted, r, r, all, logged, pinned);
        if Uncontended(w) {
          EndsRescheduled(w, n, EndAborted, recorded, r, r.status, classified, semantic, at);
        }
        return Some(EndAborted), r, credentials, endpoints, writes + 1;
      }
      EndsWaiting(before, room, r, at.value, all, logged, pinned);
      EndsRescheduled(w, n, EndScheduled(at.value), recorded, Waiting(r, at.value), r.status, classified, semantic,
                      at);
      r := Waiting(r, at.value);
      EarnedFault(w, n, recorded, EndScheduled(at.value), r, d.reply, Streams(before), at);
      return Some(EndScheduled(at.value)), r, credentials, endpoints, writes + 1;
    }
    var failed, stored;
    failed, r, writes, stored := Fail(r, w, writes);
    EndsPlainly(before, room, failed, recorded, r, all, logged, pinned);
    if Uncontended(w) {
      EndsRescheduled(w, n, failed, recorded, r, recorded.status, classified, semantic, at);
    }
    if failed == EndFailed {
      EarnedFault(w, n, recorded, failed, r, d.reply, Streams(before), at);
    }
    return Some(failed), r, credentials, endpoints, writes;
  }

  lemma {:induction false} EndsRescheduled(w: World, n: nat, end: End, recorded: Record, after: Record,
                                           status: Status, classified: Option<Classified>, semantic: bool,
                                           at: Option<int>)
    requires recorded.attempts != []
    requires at.Some? <==> MayRetry(recorded, classified, semantic)
                           && InTime(recorded, DueAt(recorded, classified.value, w.clock(n)))
    requires SameWork(recorded, after) || (at.Some? && after == Waiting(recorded, at.value))
    requires end.EndScheduled? <==> at.Some? && StoreTakes(status, WaitingRetry)
    requires at.Some? && !StoreTakes(status, WaitingRetry) ==> end == EndAborted
    requires at.None? && !status.IsTerminal() ==> end == EndFailed
    ensures Rescheduled(w, n, end, after, status, classified, semantic)
    ensures |after.attempts| == |recorded.attempts|
  {
    hide Ceilings, Bindings, Delay, PolicyOf, Transient, StoreTakes;
    GrantedAfter(w, n, recorded, after, classified, semantic, at);
  }

  lemma {:induction false} FollowsFault(w: World, n: nat, d: Dispatch, credentials: seq<string>,
                                        endpoints: seq<string>, streaming: bool, pinned: bool)
    requires d.reply.outcome.Fault?
    ensures var next := FailoverTarget(n, w, d.target, d.reply.outcome.classified, Semantic(d.reply, streaming),
                                       pinned, credentials, endpoints);
            && Follow(w, n, d, credentials, endpoints, streaming, pinned) == next
            && forall more :: Stops(w, n, d.reply, next, more) <==> next.None? || !more || !w.loads(n)
  {
    hide FailoverTarget, Semantic;
  }

  /** Failover has moved the target already when the next binding cannot be loaded. */
  lemma {:induction false} MovedEnds(before: Record, room: nat, end: End, r: Record, attempt: Attempt, next: Target,
                                     after: Record, dispatches: seq<Dispatch>, logged: seq<ProviderEvent>,
                                     pinned: bool)
    requires During(before, room, r, dispatches, pinned) && Unrecorded(before, r, dispatches)
    requires Tells(attempt, dispatches[|dispatches| - 1], Streams(before)) && attempt.sequence == |r.attempts| + 1
    requires SameWork(Recorded(r, attempt, Some(next)), after)
    requires next.subject == r.target.subject
    requires end == EndFailed || end == EndAborted
    requires logged == Logged(dispatches[|dispatches| - 1].reply, Streams(before), false)
    ensures EndsWith(before, room, end, after, dispatches, logged, pinned)
  {
    hide HasRouterTools, Disciplined, AttemptCap, Logged;
  }

  /** A rejected result: the attempt is recorded and the execution fails. */
  method AfterRejection(ghost before: Record, ghost room: nat, r0: Record, ghost dispatches: seq<Dispatch>,
                        attempt: Attempt, ghost n: nat, pinned: bool, w: World, writes: nat,
                        ghost logged: seq<ProviderEvent>)
    returns (end: End, r: Record)
    requires During(before, room, r0, dispatches, pinned) && Unrecorded(before, r0, dispatches)
    requires Tells(attempt, dispatches[|dispatches| - 1], Streams(before)) && attempt.sequence == |r0.attempts| + 1
    requires logged == Logged(dispatches[|dispatches| - 1].reply, Streams(before), false)
    requires dispatches[|dispatches| - 1].reply.outcome.Rejected?
    ensures EndsWith(before, room, end, r, dispatches, logged, pinned) && (end == EndFailed || end == EndAborted)
    ensures Uncontended(w) && r0.status == Running ==>
              Earned(w, n, end, r, dispatches[|dispatches| - 1].reply, Streams(before))
  {
    hide *;
    if Uncontended(w) {
      WorldIsQuiet(w, n, r0);
    }
    SameWorkItself(r0, Failed);
    EndsPlainly(before, room, EndAborted, r0, r0, dispatches, logged, pinned);
    if !w.saved(writes) {
      return EndAborted, r0;
    }
    RecordingKeeps(before, room, r0, dispatches, pinned, attempt);
    RunningAfter(r0, attempt, None, []);
    var recorded := Recorded(r0, attempt, None);
    var failed, after, _, _ := Fail(recorded, w, writes + 1);
    end, r := failed, after;
    EndsPlainly(before, room, end, recorded, r, dispatches, logged, pinned);
    SomeDispatch(before, room, r0, dispatches, pinned);
    EarnedFailure(w, n, r, dispatches[|dispatches| - 1].reply, Streams(before));
  }

  lemma {:induction false} RoundGoesOn(w: World, n: nat, before: Record, dispatches: seq<Dispatch>, pinned: bool)
    requires RoundsNeedTools(w, before.plan) && dispatches != []
    requires var d := dispatches[|dispatches| - 1];
             && d.reply == w.provider(n, d.sent) && d.reply.outcome.Round?
             && d.reply.outcome.admitted
    ensures var reply := dispatches[|dispatches| - 1].reply;
            reply.outcome.context.Some? ==> AddsRound(reply) && Continues(reply, Streams(before), pinned)
    ensures Logged(dispatches[|dispatches| - 1].reply, Streams(before), false) == []
  {
    hide Streamed;
  }

  lemma {:induction false} RoundIs(reply: Reply)
    requires reply.outcome.Round?
    ensures AddsRound(reply) <==> reply.outcome.admitted && reply.outcome.context.Some?
  {
  }

  /** Router calls: a call that is not admitted fails the execution before anything of the round is
      written; then the start of the calls and the finished round are written. */
  method AfterRouterCalls(ghost before: Record, ghost room: nat, r0: Record, ghost earlier: seq<Dispatch>,
                          d: Dispatch, n: nat, pinned: bool, w: World, ghost credentials: seq<string>,
                          ghost endpoints: seq<string>, writes0: nat, attempt: Attempt,
                          ghost logged: seq<ProviderEvent>)
    returns (end: Option<End>, r: Record, writes: nat)
    requires RoundsNeedTools(w, before.plan)
    requires d.reply.outcome.Round? && d.target == r0.target && d.reply == w.provider(n, d.sent)
    requires During(before, room, r0, earlier + [d], pinned) && Unrecorded(before, r0, earlier + [d])
    requires KeepsOut(earlier, credentials, endpoints, r0.target) && r0.target.credential != ""
    requires Tells(attempt, d, Streams(before)) && attempt.sequence == |r0.attempts| + 1
    requires logged == Logged(d.reply, Streams(before), false)
    ensures end.None? ==>
              Between(before, room, r, earlier + [d], pinned, credentials, endpoints) && logged == []
    ensures end.Some? ==> EndsWith(before, room, end.value, r, earlier + [d], logged, pinned) && end.value != EndLimit
    ensures end.None? ==> AddsRound(d.reply) && r.target == d.target
    ensures end.Some? ==> end.value == EndFailed || end.value == EndAborted
    ensures Uncontended(w) && r0.status == Running ==>
              if end.None? then r.status == Running else Earned(w, n, end.value, r, d.reply, Streams(before))
    ensures Uncontended(w) && r0.status == Running && end.Some? ==> !AddsRound(d.reply)
  {
    hide *;
    ghost var all := earlier + [d];
    if Uncontended(w) {
      WorldIsQuiet(w, n, r0);
    }
    r, writes := Recorded(r0, attempt, None), writes0 + 1;
    ghost var recorded := r;
    RunningAfter(r0, attempt, None, []);
    RecordingKeeps(before, room, r0, all, pinned, attempt);
    SameWorkItself(r0, Failed);
    SameWorkItself(r, Failed);
    EndsPlainly(before, room, EndAborted, r0, r0, all, logged, pinned);
    EndsPlainly(before, room, EndFailed, r0, r0, all, logged, pinned);
    EndsPlainly(before, room, EndAborted, r, r, all, logged, pinned);
    RoundIs(d.reply);
    if !d.reply.outcome.admitted {
      var failed, after, stored;
      failed, after, writes, stored := Fail(r, w, writes0);
      EndsPlainly(before, room, failed, recorded, after, all, logged, pinned);
      r := if stored then after else r0;
      EarnedFailure(w, n, r, d.reply, Streams(before));
      return Some(failed), r, writes;
    }
    RoundGoesOn(w, n, before, all, pinned);
    if !w.saved(writes0) {
      return Some(EndAborted), r0, writes;
    }
    if d.reply.outcome.context.None? {
      // The events of the children come first, in a write of their own.
      if !w.saved(writes) {
        return Some(EndAborted), r, writes + 1;
      }
      var failed, after, stored;
      failed, after, writes, stored := Fail(Noted(r), w, writes + 1);
      SameWorkChain(recorded, Noted(recorded), after);
      EndsPlainly(before, room, failed, recorded, after, all, logged, pinned);
      EarnedFailure(w, n, after, d.reply, Streams(before));
      return Some(failed), after, writes;
    }
    if !w.saved(writes) {
      return Some(EndAborted), r, writes + 1;
    }
    KeepsOutRound(earlier, d, credentials, endpoints, r.target);
    RunningAfter(r, attempt, None, d.reply.outcome.context.value);
    RoundContinues(before, room, r, all, pinned, d.reply.outcome.context.value, credentials, endpoints);
    return None, AfterRound(r, d.reply.outcome.context.value), writes + 1;
  }

  lemma {:induction false} LoggedAtEnd(reply: Reply, streaming: bool)
    ensures streaming ==> Logged(reply, streaming, false) == Streamed(reply.calls)
    ensures !streaming ==> Logged(reply, streaming, false) == []
    ensures reply.outcome.Completed? && streaming ==>
              Logged(reply, streaming, true)
              == Streamed(reply.calls) + Pending(reply.outcome.history, Ids(Streamed(reply.calls)))
    ensures reply.outcome.Completed? && !streaming ==>
              Logged(reply, streaming, true) == reply.outcome.history
  {
    hide Streamed;
    if reply.outcome.Completed? {
      NothingFiltered(reply.outcome.history);
      assert [] + reply.outcome.history == reply.outcome.history;
    }
  }

  lemma {:induction false} NothingFiltered(history: seq<ProviderEvent>)
    ensures Pending(history, Ids([])) == history
  {
    if history != [] {
      NothingFiltered(history[..|history| - 1]);
    }
  }

  /** A complete result: its resources are imported, then one write stores what the sink has not
      stored yet together with the success. `filtered` is that rest. */
  method AfterCompletion(ghost before: Record, ghost room: nat, r0: Record, ghost dispatches: seq<Dispatch>,
                         attempt: Attempt, imported: bool, ghost n: nat, pinned: bool, w: World, writes0: nat,
                         streamed: seq<ProviderEvent>, filtered: seq<ProviderEvent>)
    returns (end: End, r: Record, logged: seq<ProviderEvent>)
    requires During(before, room, r0, dispatches, pinned) && Unrecorded(before, r0, dispatches)
    requires Tells(attempt, dispatches[|dispatches| - 1], Streams(before)) && attempt.sequence == |r0.attempts| + 1
    requires var outcome := dispatches[|dispatches| - 1].reply.outcome;
             outcome.Completed? && outcome.imported == imported
    requires streamed == Logged(dispatches[|dispatches| - 1].reply, Streams(before), false)
    requires streamed + filtered == Logged(dispatches[|dispatches| - 1].reply, Streams(before), true)
    ensures EndsWith(before, room, end, r, dispatches, logged, pinned)
    ensures end == EndSucceeded || end == EndFailed || end == EndAborted
    ensures Uncontended(w) && r0.status == Running ==>
              Earned(w, n, end, r, dispatches[|dispatches| - 1].reply, Streams(before))
  {
    hide *;
    if Uncontended(w) {
      WorldIsQuiet(w, n, r0);
    }
    SomeDispatch(before, room, r0, dispatches, pinned);
    RunningAfter(r0, attempt, None, []);
    var recorded := Recorded(r0, attempt, None);
    var writes := writes0;
    r, logged := r0, streamed;
    RecordingKeeps(before, room, r0, dispatches, pinned, attempt);
    SameWorkItself(r0, Failed);
    SameWorkItself(recorded, Failed);
    EndsPlainly(before, room, EndAborted, r0, r0, dispatches, logged, pinned);
    EndsPlainly(before, room, EndFailed, r0, r0, dispatches, logged, pinned);
    if !imported {
      var failed, after, _, stored := Fail(recorded, w, writes);
      EndsPlainly(before, room, failed, recorded, after, dispatches, logged, pinned);
      r := if stored then after else r0;
      EarnedFailure(w, n, r, dispatches[|dispatches| - 1].reply, Streams(before));
      return failed, r, logged;
    }
    EndsInSuccess(before, room, recorded, dispatches, streamed + filtered, pinned);
    if recorded.retryCycles > 0 {
      // The end of the retry sequence is announced first, in a write of its own.
      if !w.saved(writes) {
        return EndAborted, r0, logged;
      }
      EndsPlainly(before, room, EndAborted, recorded, Noted(recorded), dispatches, logged, pinned);
      r, recorded, writes := Noted(recorded), Noted(recorded), writes + 1;
    }
    if !StoreTakes(recorded.status, Succeeded) || !w.saved(writes) {
      return EndAborted, r, logged;
    }
    EarnedSuccess(w, n, Ended(recorded, Succeeded), dispatches[|dispatches| - 1].reply, Streams(before));
    return EndSucceeded, Ended(recorded, Succeeded), streamed + filtered;
  }

  lemma {:induction false} FollowsOther(w: World, n: nat, d: Dispatch, credentials: seq<string>,
                                        endpoints: seq<string>, streaming: bool, pinned: bool)
    ensures !d.reply.outcome.Fault? ==>
              && Follow(w, n, d, credentials, endpoints, streaming, pinned)
                 == (if AddsRound(d.reply) then Some(d.target) else None)
              && WithFailure(credentials, endpoints, d) == (credentials, endpoints)
              && forall more, next: Option<Target> :: next.None? ==> Stops(w, n, d.reply, next, more)
    ensures !d.reply.outcome.Round? ==> !AddsRound(d.reply)
  {
  }

  /** One dispatch and what follows it. Without an end the loop goes on. `base` is the record that the
      session works on from here: a streaming session reads it back after its first dispatch. */
  method DispatchOnce(ghost before: Record, ghost room: nat, r0: Record, ghost earlier: seq<Dispatch>, n: nat,
                      more: bool, pinned: bool, w: World, credentials0: seq<string>, endpoints0: seq<string>,
                      writes0: nat)
    returns (end: Option<End>, r: Record, d: Dispatch, logged: seq<ProviderEvent>,
             credentials: seq<string>, endpoints: seq<string>, writes: nat, ghost base: Record)
    requires Honours(w) && Rereads(w) && RoundsNeedTools(w, before.plan)
    requires Between(before, room, r0, earlier, pinned, credentials0, endpoints0)
    requires n == |earlier| < room
    requires earlier == [] ==> r0 == before && credentials0 == [] && endpoints0 == []
    ensures base == if earlier == [] && Streams(before) then w.refreshed(n, r0) else before
    ensures Streams(base) == Streams(before) && base.plan == before.plan
    ensures end.None? ==>
              Between(base, room, r, earlier + [d], pinned, credentials, endpoints) && logged == []
    ensures end.Some? ==>
              EndsWith(base, room, end.value, r, earlier + [d], logged, pinned) && end.value != EndLimit
    ensures d.sent == r0.target && d.reply == w.provider(n, d.sent)
    ensures d.target == if earlier == [] then base.target else d.sent
    ensures end.None? ==>
              && Follow(w, n, d, credentials0, endpoints0, Streams(before), pinned) == Some(r.target)
              && (credentials, endpoints) == WithFailure(credentials0, endpoints0, d)
    ensures end.None? ==> more || AddsRound(d.reply)
    ensures end.Some? && end.value.EndCancelled? ==> end.value.found.status == Cancelled
    ensures Uncontended(w) && r0.status == Running ==>
              if end.None? then r.status == Running
              else
                && Earned(w, n, end.value, r, d.reply, Streams(before))
                && Stops(w, n, d.reply, Follow(w, n, d, credentials0, endpoints0, Streams(before), pinned), more)
  {
    hide *;
    if Uncontended(w) {
      WorldIsQuiet(w, n, r0);
    }
    credentials, endpoints, writes := credentials0, endpoints0, writes0;
    var reply := w.provider(n, r0.target);
    r, base := r0, before;
    BetweenMeans(before, room, r, earlier, pinned, credentials, endpoints);
    var streaming, emitted := Streams(r), false;
    var filtered: seq<ProviderEvent> := if reply.outcome.Completed? then reply.outcome.history else [];
    logged := [];
    if streaming {
      var sink := Drive(reply.calls);
      ReadsBack(w, n, r);
      r := w.refreshed(n, r);
      if earlier == [] {
        base := r;
        StartsBetween(base, room, pinned);
      } else {
        RefreshKeeps(before, room, r0, r, earlier, pinned, credentials, endpoints);
      }
      var count := sink.EmittedCount();
      emitted, logged := count > 0, sink.log;
      filtered := sink.FilterPending(filtered);
    }
    d := Dispatch(r0.target, r.target, reply);
    FollowsOther(w, n, d, credentials, endpoints, Streams(base), pinned);
    ghost var all := earlier + [d];
    BetweenMeans(base, room, r, earlier, pinned, credentials, endpoints);
    DispatchBegins(base, room, r, earlier, d, pinned, credentials, endpoints);
    LoggedAtEnd(reply, Streams(base));
    var semantic := reply.semantic || emitted;
    SemanticIs(reply, streaming, emitted);
    var attempt := Attempt(|r.attempts| + 1, r.target, semantic, reply.outcome.Round? || reply.outcome.Completed?);
    AttemptTells(attempt, d, Streams(base));
    match reply.outcome {
      case Fault(_, _) =>
        end, r, credentials, endpoints, writes :=
          AfterFault(base, room, r, earlier, d, n, more, pinned, w, credentials, endpoints, writes, semantic, logged);
      case Rejected =>
        var rejected;
        rejected, r := AfterRejection(base, room, r, all, attempt, n, pinned, w, writes, logged);
        end := Some(rejected);
      case Round(_, _) =>
        end, r, writes := AfterRouterCalls(base, room, r, earlier, d, n, pinned, w, credentials, endpoints, writes,
                                           attempt, logged);
      case Completed(_, imported) =>
        var completed;
        completed, r, logged := AfterCompletion(base, room, r, all, attempt, imported, n, pinned, w, writes, logged,
                                                filtered);
        end := Some(completed);
    }
  }

  lemma {:induction false} SemanticIs(reply: Reply, streaming: bool, emitted: bool)
    requires streaming ==> emitted == Emitted(reply.calls)
    requires !streaming ==> !emitted
    ensures Semantic(reply, streaming) == (reply.semantic || emitted)
  {
  }

  lemma {:induction false} NoDispatch(before: Record, room: nat, end: End, r: Record, pinned: bool)
    requires (end == EndFailed || end == EndAborted) && SameWork(before, r)
    ensures EndsWith(before, room, end, r, [], [], pinned)
  {
  }

  lemma {:induction false} RunsOut(before: Record, room: nat, r: Record, dispatches: seq<Dispatch>, pinned: bool,
                                   credentials: seq<string>, endpoints: seq<string>)
    requires Between(before, room, r, dispatches, pinned, credentials, endpoints) && dispatches != []
    ensures EndsWith(before, room, EndLimit, r, dispatches, [], pinned)
  {
  }

  /** executeSynchronous, from the first dispatch to the end of the session. `record` is the last
      version that this session stored or read back. The session may have been handed any stored version:
      what it does is stated about the record that it reads back. */
  method ExecuteSynchronous(record0: Record, pinned: bool, w: World)
    returns (end: End, record: Record, dispatches: seq<Dispatch>, logged: seq<ProviderEvent>)
    requires Honours(w) && Rereads(w) && RoundsNeedTools(w, record0.plan) && PlanValid(record0.plan)
    requires record0.target.credential != ""
    ensures EndsWith(BaseOf(w, record0, dispatches), Room(record0, AttemptCap(record0)), end, record, dispatches,
                     logged, pinned)
    ensures Dispatched(record0, end, dispatches, pinned, w, Room(record0, AttemptCap(record0)),
                       Restored(record0).Ok?)
    ensures dispatches == [] <==> |record0.attempts| >= AttemptCap(record0) || Restored(record0).Err?
    ensures dispatches != [] ==> dispatches[0].sent == record0.target
    ensures forall i | 0 <= i < |dispatches| :: dispatches[i].reply == w.provider(i, dispatches[i].sent)
    ensures end.EndCancelled? ==> end.found.status == Cancelled
    ensures Uncontended(w) && record0.status == Running ==>
              Settled(record0, end, record, dispatches, pinned, w, Room(record0, AttemptCap(record0)))
    ensures IsLed(w, dispatches, Streams(record0), pinned)
    ensures Uncontended(w) && record0.status == Running ==>
              FollowsOn(w, dispatches, Streams(record0), pinned, Room(record0, AttemptCap(record0)))
    ensures Uncontended(w) && record0.status == Running && dispatches != [] ==>
              EndsByLastReply(w, end, record, dispatches, Streams(record0))
  {
    hide *;
    if Uncontended(w) {
      WorldIsQuiet(w, 0, record0);
    }
    record, dispatches, logged := record0, [], [];
    var credentials: seq<string>, endpoints: seq<string>, writes := [], [], 0;
    var cycleAttempts := MaximumSynchronousCycleAttempts(record);
    var history := RouterRounds.RouterToolHistory(record);
    ghost var room := Room(record0, AttemptCap(record0));
    RoomIs(record0, AttemptCap(record0));
    ChainStarts(w, record.target, Streams(record), pinned);
    BaseAtStart(w, record0);
    SameWorkItself(record, Failed);
    if history.Err? || cycleAttempts == 0 {
      var failed, after, _, _ := Fail(record, w, writes);
      end, record := failed, after;
      NoDispatch(record0, room, end, record, pinned);
      SessionDispatches(record0, end, record, dispatches, pinned, w, room, history.Ok?);
      SessionIsLed(w, record0.target, dispatches, Streams(record0), pinned, room);
      return;
    }
    StartsBetween(record0, room, pinned);
    ghost var base := record0;
    for attemptIndex := 0 to cycleAttempts
      invariant |dispatches| == attemptIndex && logged == []
      invariant attemptIndex == 0 ==> record == record0 && credentials == [] && endpoints == []
      invariant base == BaseOf(w, record0, dispatches)
      invariant Streams(base) == Streams(record0) && base.plan == record0.plan
      invariant Uncontended(w) && record0.status == Running ==> record.status == Running
      invariant Between(base, room, record, dispatches, pinned, credentials, endpoints)
      invariant Chained(w, record0.target, dispatches, Streams(record0), pinned)
      invariant Upcoming(w, record0.target, dispatches, Streams(record0), pinned) == Some(record.target)
      invariant Excluded(dispatches) == (credentials, endpoints)
      invariant dispatches != [] ==> dispatches[0].target == base.target && base.target.credential != ""
      invariant attemptIndex == cycleAttempts ==> AddsRound(dispatches[attemptIndex - 1].reply)
    {
      var ended, d;
      ghost var base0, earlier := base, dispatches;
      ended, record, d, logged, credentials, endpoints, writes, base :=
        DispatchOnce(base, room, record, dispatches, attemptIndex, attemptIndex + 1 < cycleAttempts, pinned, w,
                     credentials, endpoints, writes);
      ChainGrows(w, record0.target, dispatches, d, Streams(record0), pinned);
      dispatches := dispatches + [d];
      BaseAfter(w, record0, base0, earlier, d);
      BaseHasCredential(w, record0, dispatches);
      if ended.Some? {
        SessionDispatches(record0, ended.value, record, dispatches, pinned, w, room, true);
        SessionIsLed(w, record0.target, dispatches, Streams(record0), pinned, room);
        if Uncontended(w) && record0.status == Running {
          EarnedMeans(w, record0, ended.value, record, dispatches, pinned, room);
        }
        return ended.value, record, dispatches, logged;
      }
    }
    RunsOut(base, room, record, dispatches, pinned, credentials, endpoints);
    end := EndLimit;
    SessionDispatches(record0, end, record, dispatches, pinned, w, room, true);
    SessionIsLed(w, record0.target, dispatches, Streams(record0), pinned, room);
    if Uncontended(w) && record0.status == Running {
      EarnedMeans(w, record0, end, record, dispatches, pinned, room);
    }
  }

  lemma {:induction false} RoomIs(r: Record, cap: nat)
    ensures Room(r, cap) == if |r.attempts| >= cap then 0 else cap - |r.attempts|
  {
  }

  lemma {:induction false} BaseAtStart(w: World, before: Record)
    ensures BaseOf(w, before, []) == before
  {
  }

  lemma {:induction false} BaseAfter(w: World, before: Record, base: Record, earlier: seq<Dispatch>, d: Dispatch)
    requires base == BaseOf(w, before, earlier) && Streams(base) == Streams(before)
    ensures BaseOf(w, before, earlier + [d]) ==
            if earlier == [] && Streams(before) then w.refreshed(0, before) else base
  {
    hide HasRouterTools;
  }

  lemma {:induction false} BaseHasCredential(w: World, before: Record, dispatches: seq<Dispatch>)
    requires Rereads(w) && before.target.credential != ""
    ensures BaseOf(w, before, dispatches).target.credential != ""
  {
    hide HasRouterTools;
  }

  /** A session that was handed the stored work did all this on the record that it was handed. */
  lemma {:induction false} CurrentStartKeepsAll(w: World, before: Record, room: nat, end: End, after: Record,
                                                dispatches: seq<Dispatch>, logged: seq<ProviderEvent>, pinned: bool)
    requires EndsWith(BaseOf(w, before, dispatches), room, end, after, dispatches, logged, pinned)
    requires Dispatched(before, end, dispatches, pinned, w, room, true)
    requires SameWork(before, BaseOf(w, before, dispatches))
    ensures EndsWith(before, room, end, after, dispatches, logged, pinned)
    ensures forall d <- dispatches :: d.sent == d.target
  {
    hide HasRouterTools, Logged, Upcoming, NoFailedPairAgain, Excluded;
    var base := BaseOf(w, before, dispatches);
    SameConversation(before, base, Finished(end, dispatches));
    if dispatches != [] {
      assert dispatches[..0] == [];
      FirstIsSent(w, before, dispatches, pinned);
    }
  }

  lemma {:induction false} FirstIsSent(w: World, before: Record, dispatches: seq<Dispatch>, pinned: bool)
    requires Chained(w, before.target, dispatches, Streams(before), pinned) && dispatches != []
    ensures dispatches[0].sent == before.target
  {
    hide Excluded, Follow, HasRouterTools;
    assert dispatches[..0] == [];
  }

  lemma {:induction false} SameConversation(a: Record, b: Record, dispatches: seq<Dispatch>)
    requires a.request == b.request
    ensures Conversation(a, dispatches) == Conversation(b, dispatches)
  {
    if dispatches != [] {
      SameConversation(a, b, dispatches[..|dispatches| - 1]);
    }
  }

  /** How a session ends when nothing contends: without dispatches it fails, the loop runs out after a round
      that went on, or the last reply decides and nothing that could follow it was left out. */
  ghost predicate Settled(before: Record, end: End, after: Record, dispatches: seq<Dispatch>, pinned: bool,
                          w: World, room: nat)
  {
    if dispatches == [] then end == EndFailed && after.status == Failed
    else
      var n := |dispatches| - 1;
      || (end == EndLimit && |dispatches| == room && AddsRound(dispatches[n].reply))
      || (&& Earned(w, n, end, after, dispatches[n].reply, Streams(before))
          && Stops(w, n, dispatches[n].reply,
                   Upcoming(w, before.target, dispatches, Streams(before), pinned), |dispatches| < room))
  }

  lemma {:induction false} SessionDispatches(before: Record, end: End, after: Record, dispatches: seq<Dispatch>,
                                             pinned: bool, w: World, room: nat, readable: bool)
    requires Chained(w, before.target, dispatches, Streams(before), pinned)
    requires dispatches == [] <==> room == 0 || !readable
    requires |dispatches| <= room
    requires dispatches != [] ==> dispatches[0].target == BaseOf(w, before, dispatches).target
    requires end == EndLimit ==>
               |dispatches| == room && dispatches != [] && AddsRound(dispatches[|dispatches| - 1].reply)
    requires dispatches == [] ==> end == EndFailed || end == EndAborted
    ensures Dispatched(before, end, dispatches, pinned, w, room, readable)
    ensures dispatches != [] ==> dispatches[0].sent == before.target
    ensures forall i | 0 <= i < |dispatches| :: dispatches[i].reply == w.provider(i, dispatches[i].sent)
    ensures Settled(before, end, after, dispatches, pinned, w, room) <==>
              if dispatches == [] then end == EndFailed && after.status == Failed
              else
                var n := |dispatches| - 1;
                || end == EndLimit
                || (&& Earned(w, n, end, after, dispatches[n].reply, Streams(before))
                    && Stops(w, n, dispatches[n].reply,
                             Upcoming(w, before.target, dispatches, Streams(before), pinned),
                             |dispatches| < room))
  {
    hide Earned, Stops, Excluded, Follow, HasRouterTools;
    if dispatches != [] {
      assert dispatches[..0] == [];
    }
  }

  // ----- provider tasks -------------------------------------------------------------------

  method MaximumCycleAttempts(r: Record) returns (n: nat)
    ensures n == Room(r, PlainAttempts(r))
    ensures forall more: nat | more > 0 :: more <= n <==> Fits(r, more, 0)
  {
    var maximum := MAXIMUM_ATTEMPTS;
    var policy := PolicyOf(r.request);
    if policy.maxAttempts.Some? && policy.maxAttempts.value < maximum {
      maximum := policy.maxAttempts.value;
    }
    if |r.attempts| >= maximum {
      return 0;
    }
    return maximum - |r.attempts|;
  }

  /** Starting a task fails, is rejected or is accepted, which is written as a completion without
      events; nothing is streamed. */
  ghost predicate TaskReplies(w: World) {
    forall n, t ::
      && w.provider(n, t).calls == [] && !w.provider(n, t).outcome.Round?
      && (w.provider(n, t).outcome.Fault? ==> !w.provider(n, t).outcome.cancelled)
      && (w.provider(n, t).outcome.Completed? ==> w.provider(n, t).outcome.history == [])
  }

  lemma {:induction false} TaskReply(w: World, n: nat, t: Target, streaming: bool)
    requires TaskReplies(w)
    ensures var reply := w.provider(n, t);
            && !reply.outcome.Round? && (reply.outcome.Fault? ==> !reply.outcome.cancelled)
            && Semantic(reply, streaming) == reply.semantic && Logged(reply, streaming, false) == []
  {
  }

  /** The attempts that starting provider tasks may use. */
  function TaskCap(r: Record, maxProviderTasks: Option<nat>): nat {
    if maxProviderTasks.Some? && maxProviderTasks.value < PlainAttempts(r) then maxProviderTasks.value
    else PlainAttempts(r)
  }

  /** A start of tasks has room for exactly the attempts that fit both limits. */
  lemma {:induction false} TaskRoomFits(r: Record, maxProviderTasks: Option<nat>, more: nat)
    requires more > 0
    ensures more <= Room(r, TaskCap(r, maxProviderTasks)) <==>
            && Fits(r, more, 0)
            && (maxProviderTasks.Some? ==> |r.attempts| + more <= maxProviderTasks.value)
  {
  }

  /** Whether a session that starts tasks reschedules, when no write loses a race: exactly if its last start
      failed, nothing could follow it, a retry is granted, and the store takes a waiting record from the
      status of the record that it was handed. */
  ghost predicate TaskReschedules(before: Record, end: End, after: Record, dispatches: seq<Dispatch>, pinned: bool,
                                  w: World, room: nat)
  {
    if dispatches == [] then !end.EndScheduled?
    else
      var n := |dispatches| - 1;
      var last := dispatches[n].reply;
      var next := Upcoming(w, before.target, dispatches, Streams(before), pinned);
      if last.outcome.Fault? && (next.None? || |dispatches| == room)
      then
        && |after.attempts| == |before.attempts| + |dispatches|
        && Rescheduled(w, n, end, after, before.status, last.outcome.classified, last.semantic)
      else !end.EndScheduled?
  }

  /** startTask: the same failover and schedule, under the plain attempt limit and the caller's limit on
      provider tasks. The record has not been moved to running. */
  method StartTask(record0: Record, pinned: bool, w: World, maxProviderTasks: Option<nat>)
    returns (end: End, record: Record, dispatches: seq<Dispatch>)
    requires Honours(w) && TaskReplies(w)
    requires record0.target.credential != ""
    ensures EndsWith(record0, Room(record0, TaskCap(record0, maxProviderTasks)), end, record, dispatches, [], pinned)
    ensures TaskDispatched(record0, end, dispatches, pinned, w, Room(record0, TaskCap(record0, maxProviderTasks)))
    ensures dispatches == [] <==> |record0.attempts| >= TaskCap(record0, maxProviderTasks)
    ensures dispatches != [] ==> dispatches[0].sent == record0.target
    ensures forall i | 0 <= i < |dispatches| :: dispatches[i].reply == w.provider(i, dispatches[i].sent)
    ensures end != EndLimit
    ensures end == EndStarted ==>
              dispatches != [] && dispatches[|dispatches| - 1].reply.outcome.Completed?
              && |record.attempts| == |record0.attempts| + |dispatches|
    ensures Uncontended(w) ==>
              TaskReschedules(record0, end, record, dispatches, pinned, w,
                              Room(record0, TaskCap(record0, maxProviderTasks)))
    ensures IsLed(w, dispatches, Streams(record0), pinned)
    ensures Uncontended(w) ==>
              FollowsOn(w, dispatches, Streams(record0), pinned, Room(record0, TaskCap(record0, maxProviderTasks)))
    ensures Uncontended(w) && dispatches != [] ==>
              (end == EndStarted <==> dispatches[|dispatches| - 1].reply.outcome.Completed?)
  {
    hide *;
    record, dispatches := record0, [];
    var credentials: seq<string>, endpoints: seq<string>, writes := [], [], 0;
    var cycleAttempts := MaximumCycleAttempts(record);
    if maxProviderTasks.Some? && maxProviderTasks.value - |record.attempts| < cycleAttempts {
      cycleAttempts := if maxProviderTasks.value <= |record.attempts| then 0
                       else maxProviderTasks.value - |record.attempts|;
    }
    TaskCapIs(record, maxProviderTasks);
    ghost var room := Room(record, TaskCap(record, maxProviderTasks));
    RoomIs(record, TaskCap(record, maxProviderTasks));
    RoomIs(record, PlainAttempts(record));
    ChainStarts(w, record.target, Streams(record), pinned);
    SameWorkItself(record, Failed);
    if cycleAttempts == 0 {
      var failed, after, _, _ := Fail(record, w, writes);
      end, record := failed, after;
      NoDispatch(record0, room, end, record, pinned);
      TaskSession(record0, end, record, dispatches, pinned, w, room);
      SessionIsLed(w, record0.target, dispatches, Streams(record0), pinned, room);
      return;
    }
    StartsBetween(record0, room, pinned);
    for attemptIndex := 0 to cycleAttempts
      invariant |dispatches| == attemptIndex
      invariant Uncontended(w) ==> record.status == record0.status
      invariant Between(record0, room, record, dispatches, pinned, credentials, endpoints)
      invariant Chained(w, record0.target, dispatches, Streams(record0), pinned)
      invariant Upcoming(w, record0.target, dispatches, Streams(record0), pinned) == Some(record.target)
      invariant Excluded(dispatches) == (credentials, endpoints)
      invariant attemptIndex < cycleAttempts && forall d <- dispatches :: d.sent == d.target
      invariant dispatches != [] ==> dispatches[0].target == record0.target
    {
      var reply := w.provider(attemptIndex, record.target);
      var d := Dispatch(record.target, record.target, reply);
      TaskReply(w, attemptIndex, record.target, Streams(record0));
      BetweenMeans(record0, room, record, dispatches, pinned, credentials, endpoints);
      DispatchBegins(record0, room, record, dispatches, d, pinned, credentials, endpoints);
      ChainGrows(w, record0.target, dispatches, d, Streams(record0), pinned);
      ghost var earlier := dispatches;
      dispatches := dispatches + [d];
      var ended;
      ended, record, credentials, endpoints, writes :=
        TaskOnce(record0, room, record, earlier, d, attemptIndex, attemptIndex + 1 < cycleAttempts, pinned, w,
                 credentials, endpoints, writes);
      if ended.Some? {
        TaskSession(record0, ended.value, record, dispatches, pinned, w, room);
        SessionIsLed(w, record0.target, dispatches, Streams(record0), pinned, room);
        return ended.value, record, dispatches;
      }
    }
    assert false;
  }

  /** The starts of tasks in one session: they begin at the target of the record, and there are none exactly
      when there is no room. */
  ghost predicate TaskDispatched(before: Record, end: End, dispatches: seq<Dispatch>, pinned: bool, w: World,
                                 room: nat)
  {
    && Chained(w, before.target, dispatches, Streams(before), pinned)
    && (dispatches == [] <==> room == 0) && |dispatches| <= room
    && (forall d <- dispatches :: d.sent == d.target)
    && (dispatches == [] ==> end == EndFailed || end == EndAborted)
  }

  lemma {:induction false} TaskSession(before: Record, end: End, after: Record, dispatches: seq<Dispatch>,
                                       pinned: bool, w: World, room: nat)
    requires Chained(w, before.target, dispatches, Streams(before), pinned)
    requires (dispatches == [] <==> room == 0) && |dispatches| <= room
    requires forall d <- dispatches :: d.sent == d.target
    requires dispatches == [] ==> end == EndFailed || end == EndAborted
    ensures TaskDispatched(before, end, dispatches, pinned, w, room)
    ensures dispatches != [] ==> dispatches[0].sent == before.target
    ensures forall i | 0 <= i < |dispatches| :: dispatches[i].reply == w.provider(i, dispatches[i].sent)
    ensures TaskReschedules(before, end, after, dispatches, pinned, w, room) <==>
              if dispatches == [] then !end.EndScheduled?
              else
                var n := |dispatches| - 1;
                var last := dispatches[n].reply;
                var next := Upcoming(w, before.target, dispatches, Streams(before), pinned);
                if last.outcome.Fault? && (next.None? || |dispatches| == room)
                then
                  && |after.attempts| == |before.attempts| + |dispatches|
                  && Rescheduled(w, n, end, after, before.status, last.outcome.classified, last.semantic)
                else !end.EndScheduled?
  {
    hide Excluded, Follow, HasRouterTools, Rescheduled;
    if dispatches != [] {
      assert dispatches[..0] == [];
    }
  }

  lemma {:induction false} TaskCapIs(r: Record, maxProviderTasks: Option<nat>)
    ensures TaskCap(r, maxProviderTasks) <= AttemptCap(r)
    ensures TaskCap(r, maxProviderTasks) ==
            if maxProviderTasks.Some? && maxProviderTasks.value < PlainAttempts(r) then maxProviderTasks.value
            else PlainAttempts(r)
  {
    hide Ceilings, Bindings;
  }

  /** What follows one attempt to start a task. */
  method TaskOnce(ghost before: Record, ghost room: nat, r0: Record, ghost earlier: seq<Dispatch>, d: Dispatch,
                  n: nat, more: bool, pinned: bool, w: World, credentials0: seq<string>, endpoints0: seq<string>,
                  writes0: nat)
    returns (end: Option<End>, r: Record, credentials: seq<string>, endpoints: seq<string>, writes: nat)
    requires Honours(w) && TaskReplies(w)
    requires d.target == d.sent == r0.target && d.reply == w.provider(n, d.sent)
    requires During(before, room, r0, earlier + [d], pinned) && Unrecorded(before, r0, earlier + [d])
    requires KeepsOut(earlier, credentials0, endpoints0, r0.target) && r0.target.credential != ""
    ensures end.None? ==> Between(before, room, r, earlier + [d], pinned, credentials, endpoints)
    ensures end.Some? ==> EndsWith(before, room, end.value, r, earlier + [d], [], pinned) && end.value != EndLimit
    ensures end.None? ==>
              && Follow(w, n, d, credentials0, endpoints0, Streams(before), pinned) == Some(r.target)
              && (credentials, endpoints) == WithFailure(credentials0, endpoints0, d)
    ensures end == Some(EndStarted) ==>
              d.reply.outcome.Completed? && |r.attempts| == |before.attempts| + |earlier| + 1
    ensures Uncontended(w) && d.reply.outcome.Completed? ==> end == Some(EndStarted)
    ensures Uncontended(w) && end.Some? ==>
              Stops(w, n, d.reply, Follow(w, n, d, credentials0, endpoints0, Streams(before), pinned), more)
    ensures Uncontended(w) && end.None? ==> r.status == r0.status
    ensures end.None? ==> more
    ensures var next := Follow(w, n, d, credentials0, endpoints0, Streams(before), pinned);
            Uncontended(w) && end.Some? ==>
              if d.reply.outcome.Fault? && (next.None? || !more)
              then
                && |r.attempts| == |r0.attempts| + 1
                && Rescheduled(w, n, end.value, r, r0.status, d.reply.outcome.classified, d.reply.semantic)
              else !end.value.EndScheduled?
  {
    hide *;
    ghost var all := earlier + [d];
    var reply := d.reply;
    TaskReply(w, n, d.target, Streams(before));
    FollowsOther(w, n, d, credentials0, endpoints0, Streams(before), pinned);
    if Uncontended(w) {
      WorldIsQuiet(w, n, r0);
    }
    r, credentials, endpoints, writes := r0, credentials0, endpoints0, writes0;
    var attempt := Attempt(|r.attempts| + 1, r.target, reply.semantic, reply.outcome.Completed?);
    AttemptTells(attempt, d, Streams(before));
    if reply.outcome.Fault? {
      end, r, credentials, endpoints, writes :=
        AfterFault(before, room, r, earlier, d, n, more, pinned, w, credentials, endpoints, writes, reply.semantic, []);
      return;
    }
    if reply.outcome.Rejected? {
      var rejected;
      rejected, r := AfterRejection(before, room, r, all, attempt, n, pinned, w, writes, []);
      end := Some(rejected);
      return;
    }
    SameWorkItself(r, Failed);
    EndsPlainly(before, room, EndAborted, r, r, all, [], pinned);
    writes := writes + 1;
    if !w.saved(writes0) {
      return Some(EndAborted), r, credentials, endpoints, writes;
    }
    RecordingKeeps(before, room, r, all, pinned, attempt);
    r := Recorded(r, attempt, None);
    SameWorkItself(r, Failed);
    EndsPlainly(before, room, EndStarted, r, r, all, [], pinned);
    return Some(EndStarted), r, credentials, endpoints, writes;
  }

  /** The store takes a waiting record exactly from running or from waiting. */
  lemma {:induction false} WaitingIsTakenIff(status: Status)
    ensures StoreTakes(status, WaitingRetry) <==> status == Running || status == WaitingRetry
  {
  }

  /** A granted retry of a task start is scheduled if and only if the session was handed a running or a
      waiting record; otherwise the session ends with a write that the store refuses. */
  lemma {:induction false} TaskRetryIsTakenIff(before: Record, end: End, after: Record, dispatches: seq<Dispatch>,
                                               pinned: bool, w: World, room: nat)
    requires TaskReschedules(before, end, after, dispatches, pinned, w, room)
    requires dispatches != [] && dispatches[|dispatches| - 1].reply.outcome.Fault?
    requires Upcoming(w, before.target, dispatches, Streams(before), pinned).None? || |dispatches| == room
    requires var last := dispatches[|dispatches| - 1].reply;
             RetryGranted(w, |dispatches| - 1, after, last.outcome.classified, last.semantic)
    ensures end.EndScheduled? <==> before.status == Running || before.status == WaitingRetry
    ensures !end.EndScheduled? ==> end == EndAborted
  {
    hide Upcoming, RetryGranted, HasRouterTools;
    WaitingIsTakenIff(before.status);
  }
}
