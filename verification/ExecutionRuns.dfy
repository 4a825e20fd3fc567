/** Whole runs of one execution: sessions after sessions, what they log, and where they stop. */
module ExecutionRuns {
  import opened Text
  import opened ExecutionTypes
  import opened RouterHistory
  import opened RetrySchedule
  import opened EventSink
  import opened Executor
  import opened RouterRounds

  // ----- an omitted attempt limit ---------------------------------------------------------

  predicate LimitOmitted(r: Record) {
    PolicyOf(r.request).maxAttempts.None?
  }

  /** Without a limit of the caller, a session dispatches if and only if fewer attempts are recorded than
      eight and the router ceilings, and its router history can be read: not until expiry. */
  lemma {:induction false} OmittedLimitDispatchesIff(before: Record, end: End, dispatches: seq<Dispatch>,
                                                     pinned: bool, w: World)
    requires LimitOmitted(before)
    requires Dispatched(before, end, dispatches, pinned, w, Room(before, AttemptCap(before)), Restored(before).Ok?)
    ensures dispatches != [] <==>
            |before.attempts| < MAXIMUM_ATTEMPTS + Ceilings(Bindings(before.plan)) && Restored(before).Ok?
  {
    hide Chained, Ceilings, Bindings, Restored;
  }

  /** What ExecuteSynchronous promises of a session that was handed `before`. */
  ghost predicate SessionEnds(before: Record, end: End, after: Record, dispatches: seq<Dispatch>, pinned: bool,
                              w: World)
  {
    && Dispatched(before, end, dispatches, pinned, w, Room(before, AttemptCap(before)), Restored(before).Ok?)
    && (Uncontended(w) && before.status == Running ==>
          Settled(before, end, after, dispatches, pinned, w, Room(before, AttemptCap(before))))
  }

  /** The record with which recovery starts the session of a due retry: the start is announced and the
      execution is running again. */
  function Resumed(r: Record): Record {
    r.(status := Running, retry := None, revision := r.revision + 2)
  }

  /** The promise fails at every record whose attempts are used up: the schedule still grants a retry
      before expiry, the store takes the waiting record, and the session of that retry fails the
      execution without a dispatch. */
  lemma {:induction false} ExhaustedRetryFailsUndispatched(
      r: Record, classified: Classified, now: int, end: End, after: Record, dispatches: seq<Dispatch>,
      pinned: bool, w: World)
    requires LimitOmitted(r) && |r.attempts| == AttemptCap(r)
    requires RecordValid(r) && r.status == Running && r.retryCycles < |r.attempts| && r.createdAt <= now
    requires MayRetry(r, Some(classified), false) && InTime(r, DueAt(r, classified, now))
    requires SessionEnds(Resumed(Waiting(r, DueAt(r, classified, now))), end, after, dispatches, pinned, w)
    ensures RecordValid(Waiting(r, DueAt(r, classified, now))) && DueAt(r, classified, now) < r.expiresAt
    ensures dispatches == []
    ensures Uncontended(w) ==> end == EndFailed && after.status == Failed
  {
    hide Chained, Earned, Stops, Upcoming, Ceilings, Bindings, MayRetry, InTime, RecordValid, Restored;
    var at := DueAt(r, classified, now);
    ScheduledRetryIsSound(r, classified, now);
    assert AttemptCap(Resumed(Waiting(r, at))) == AttemptCap(r);
  }

  /** Eight failed attempts of a deferred request without a retry policy, one hour before expiry. */
  function ExhaustedRecord(): Record {
    Record("exe_1", "owner", "hash", "",
           Request(false, true, false, None, None, None), PLACE, Plan([], []), Running, 1,
           seq(8, i requires 0 <= i < 8 => Attempt(i + 1, PLACE, false, false)), 0, 0, None, false, false,
           0, 60 * MINUTE, true)
  }

  lemma {:induction false} ExhaustedRecordIsDue()
    ensures var r, classified := ExhaustedRecord(), Classified(NetworkUnavailable, NoFailover, None);
            && RecordValid(r) && r.status == Running && LimitOmitted(r)
            && |r.attempts| == AttemptCap(r) == 8 && r.retryCycles < |r.attempts|
            && MayRetry(r, Some(classified), false)
            && DueAt(r, classified, MINUTE) == MINUTE + 5 * SECOND
            && InTime(r, DueAt(r, classified, MINUTE))
  {
    var r := ExhaustedRecord();
    assert Bindings(r.plan) == [] && Ceilings([]) == 0;
    assert r.id[0] == 'e' && r.owner[0] == 'o' && r.requestHash[0] == 'h';
    assert FailureCycles(r) == 0 && Grown(PolicyOf(r.request), 0) == 5 * SECOND;
  }

  /** The other way to fail undispatched, however few attempts there are: a router history that cannot be
      read. */
  lemma {:induction false} UnreadableRetryFailsUndispatched(
      r: Record, end: End, after: Record, dispatches: seq<Dispatch>, pinned: bool, w: World)
    requires LimitOmitted(r) && Restored(r).Err? && r.status == Running
    requires SessionEnds(r, end, after, dispatches, pinned, w)
    ensures dispatches == []
    ensures Uncontended(w) ==> end == EndFailed && after.status == Failed
  {
    hide Chained, Earned, Stops, Upcoming, Ceilings, Bindings, Restored;
  }

  const PLACE := Target(Subject("", "", "", "", "", "", "", "", "", "", "", "", ""), "credential", "endpoint", "")

  /** One round is done; the caller's own call identifier ends with a space. */
  function SpacedRecord(): Record {
    Record("exe_1", "owner", "hash", "",
           Request(false, true, false, None, None, Some(SPACED_CONTEXT + Injected([PlainEntry()]))), PLACE,
           SearchPlan(), Running, 1, [Attempt(1, PLACE, false, true)], 0, 1, None, false, false,
           0, 60 * MINUTE, true)
  }

  lemma {:induction false} SpacedRecordIsUnreadable()
    ensures var r := SpacedRecord();
            && RecordValid(r) && PlanValid(r.plan) && LimitOmitted(r) && r.status == Running
            && |r.attempts| == 1 && AttemptCap(r) == 9 && Restored(r).Err?
  {
    hide PlanValid, Restored, Injected, Ceilings, Bindings, RecordValid;
    var r := SpacedRecord();
    SpacedRecordIsValid();
    WhitespaceBreaksRecovery(r);
    SearchPlanBindings();
    OneCeilingIs(Binding("b", 1));
  }

  lemma {:induction false} SpacedRecordIsValid()
    ensures RecordValid(SpacedRecord())
  {
    hide Injected;
    var r := SpacedRecord();
    assert r.id[0] == 'e' && r.owner[0] == 'o' && r.requestHash[0] == 'h';
  }

  lemma {:induction false} OneCeilingIs(b: Binding)
    ensures Ceilings([b]) == b.maximumCalls
  {
    assert [b][..0] == [];
  }

  // ----- a provider task that fails to start ----------------------------------------------

  /** Every start fails with a transient error, and no write is contended. */
  function UnreachableProvider(): World {
    World((n, t) => Reply([], false, Fault(Some(Classified(NetworkUnavailable, NoFailover, None)), false)),
          (n, request) => None, (n, t) => true, n => true, n => true, (n, r) => r, n => MINUTE)
  }

  function AcceptedTask(): Record {
    Record("exe_1", "owner", "hash", "", Request(false, true, false, None, None, None), PLACE, Plan([], []),
           Accepted, 1, [], 0, 0, None, false, false, 0, 60 * MINUTE, true)
  }

  /** The first start fails and nothing can follow it. */
  lemma {:induction false} OneStart(end: End, dispatches: seq<Dispatch>, pinned: bool)
    requires TaskDispatched(AcceptedTask(), end, dispatches, pinned, UnreachableProvider(),
                            Room(AcceptedTask(), TaskCap(AcceptedTask(), None)))
    ensures |dispatches| == 1
    ensures dispatches[0].reply == UnreachableProvider().provider(0, dispatches[0].sent)
    ensures Upcoming(UnreachableProvider(), AcceptedTask().target, dispatches, Streams(AcceptedTask()), pinned).None?
  {
    hide Streams;
    var r, w := AcceptedTask(), UnreachableProvider();
    assert Room(r, TaskCap(r, None)) == 8;
    assert dispatches[0].reply == w.provider(0, dispatches[0].sent);
    assert FailoverTarget(0, w, dispatches[0].target, dispatches[0].reply.outcome.classified, false, pinned, [], [])
           == None;
    assert dispatches[..1][0] == dispatches[0] && dispatches[..1][..0] == [];
  }

  lemma {:induction false} AcceptedTaskIsDue(after: Record)
    requires after.request == AcceptedTask().request && after.plan == AcceptedTask().plan
    requires after.createdAt == 0 && after.expiresAt == 60 * MINUTE && |after.attempts| == 1
    ensures RetryGranted(UnreachableProvider(), 0, after,
                         Some(Classified(NetworkUnavailable, NoFailover, None)), false)
  {
    assert Bindings(after.plan) == [] && Ceilings([]) == 0;
    assert Grown(PolicyOf(after.request), 0) == 5 * SECOND && FailureCycles(after) == 0;
  }

  /** The task meets all that StartTask asks of it and of its surroundings. */
  lemma {:induction false} AcceptedTaskIsValid()
    ensures RecordValid(AcceptedTask()) && AcceptedTask().target.credential != ""
    ensures Honours(UnreachableProvider()) && TaskReplies(UnreachableProvider()) && Uncontended(UnreachableProvider())
  {
    var r := AcceptedTask();
    assert r.id[0] == 'e' && r.owner[0] == 'o' && r.requestHash[0] == 'h';
  }

  /** The failing case: an accepted deferred task whose first start fails is granted a retry, which the
      store refuses, and the session is aborted. */
  lemma {:induction false} GrantedTaskRetryAborts(end: End, after: Record, dispatches: seq<Dispatch>, pinned: bool)
    requires EndsWith(AcceptedTask(), Room(AcceptedTask(), TaskCap(AcceptedTask(), None)), end, after, dispatches,
                      [], pinned)
    requires TaskDispatched(AcceptedTask(), end, dispatches, pinned, UnreachableProvider(),
                            Room(AcceptedTask(), TaskCap(AcceptedTask(), None)))
    requires TaskReschedules(AcceptedTask(), end, after, dispatches, pinned, UnreachableProvider(),
                             Room(AcceptedTask(), TaskCap(AcceptedTask(), None)))
    ensures |dispatches| == 1 && dispatches[0].reply.outcome.Fault?
    ensures RetryGranted(UnreachableProvider(), 0, after, dispatches[0].reply.outcome.classified, false)
    ensures end == EndAborted
  {
    hide Upcoming, Streams, RetryGranted, RecordValid, Uncontended, Honours, TaskReplies, Chained,
      Disciplined, Room, TaskCap, Logged;
    var r, w := AcceptedTask(), UnreachableProvider();
    OneStart(end, dispatches, pinned);
    NoRounds(r, dispatches);
    assert after.request == r.request;
    AcceptedTaskIsDue(after);
    TaskRetryIsTakenIff(r, end, after, dispatches, pinned, w, Room(r, TaskCap(r, None)));
  }

  lemma {:induction false} NoRounds(before: Record, dispatches: seq<Dispatch>)
    requires |dispatches| == 1
    ensures Conversation(before, dispatches[..0]) == before.request.conversation
    ensures !AddsRound(dispatches[0].reply) ==> Conversation(before, dispatches) == before.request.conversation
  {
    assert dispatches[..0] == [];
  }

  // ----- a session that was handed a record with other work -------------------------------

  /** An earlier session has failed over since the record was listed. */
  function FailedOver(r: Record): Record {
    r.(attempts := r.attempts + [Attempt(|r.attempts| + 1, r.target, false, false)],
       target := r.target.(credential := "other"), revision := r.revision + 1)
  }

  /** Every dispatch fails over to another credential, and the resolver offers the first one unless it is
      excluded. */
  function StaleWorld(): World {
    World((n, t) => Reply([], false, Fault(Some(Classified(NetworkUnavailable, OtherCredential, None)), false)),
          (n, request) => if HonoursRequest(PLACE, request) then Some(PLACE) else None,
          (n, t) => true, n => true, n => true, (n, r) => if n == 0 then FailedOver(r) else r, n => MINUTE)
  }

  lemma {:induction false} StaleWorldIsOrderly()
    ensures Honours(StaleWorld()) && Rereads(StaleWorld())
  {
  }

  /** The exclusions name what the record that was read back names, not what was dispatched: such a session
      can go back to the very pair that has just failed. */
  lemma {:induction false} StaleStartRepeatsPair(r: Record, end: End, dispatches: seq<Dispatch>, room: nat)
    requires Streams(r) && r.target == PLACE && |dispatches| >= 2
    requires Dispatched(r, end, dispatches, false, StaleWorld(), room, true)
    ensures Honours(StaleWorld()) && Rereads(StaleWorld())
    ensures dispatches[0].reply.outcome.Fault? && dispatches[1].sent == dispatches[0].sent == PLACE
    ensures !SameWork(r, BaseOf(StaleWorld(), r, dispatches))
  {
    hide Streams, Honours, Rereads;
    var w := StaleWorld();
    StaleWorldIsOrderly();
    FirstIsSent(w, r, dispatches, false);
    assert dispatches[..1][0] == dispatches[0] && dispatches[..1][..0] == [];
    assert dispatches[0].reply == w.provider(0, dispatches[0].sent);
    assert "other"[0] == 'o' && "credential"[0] == 'c';
    assert FailoverTarget(0, w, dispatches[0].target, dispatches[0].reply.outcome.classified, false, false, [], [])
           == Some(PLACE);
    assert Upcoming(w, r.target, dispatches[..1], Streams(r), false) == Some(dispatches[1].sent);
  }

  // ----- the semantic events of a run -----------------------------------------------------

  /** A finished session and what it left; `before` is the record that it worked on. */
  datatype Session = Session(before: Record, room: nat, end: End, after: Record, dispatches: seq<Dispatch>,
                             logged: seq<ProviderEvent>, pinned: bool)

  ghost predicate Holds(s: Session) {
    EndsWith(s.before, s.room, s.end, s.after, s.dispatches, s.logged, s.pinned)
  }

  /** Sessions without a crash: each one but the last scheduled the next. */
  ghost predicate CrashFree(sessions: seq<Session>) {
    && sessions != []
    && (forall i | 0 <= i < |sessions| :: Holds(sessions[i]))
    && (forall i | 0 <= i < |sessions| - 1 ::
          sessions[i].end.EndScheduled? && SameWork(sessions[i].after, sessions[i + 1].before))
  }

  function AllLogged(sessions: seq<Session>): seq<ProviderEvent> {
    if sessions == [] then []
    else AllLogged(sessions[..|sessions| - 1]) + sessions[|sessions| - 1].logged
  }

  /** A session that waits for a retry has made nothing public. */
  lemma {:induction false} WaitingLogsNothing(s: Session)
    requires Holds(s) && s.end.EndScheduled?
    ensures s.logged == []
  {
    hide Grew, AttemptsAre, Disciplined, Logged, Streams;
    NothingPublic(s.dispatches[|s.dispatches| - 1].reply, Streams(s.before));
  }

  lemma {:induction false} OnlyTheLastLogs(sessions: seq<Session>)
    requires CrashFree(sessions)
    ensures AllLogged(sessions) == sessions[|sessions| - 1].logged
  {
    hide Holds;
    NothingBefore(sessions, |sessions| - 1);
    assert [] + sessions[|sessions| - 1].logged == sessions[|sessions| - 1].logged;
  }

  lemma {:induction false} NothingBefore(sessions: seq<Session>, n: nat)
    requires CrashFree(sessions) && n < |sessions|
    ensures AllLogged(sessions[..n]) == []
  {
    hide Holds;
    if n > 0 {
      NothingBefore(sessions, n - 1);
      assert sessions[..n][..n - 1] == sessions[..n - 1];
      WaitingLogsNothing(sessions[n - 1]);
    }
  }

  /** All semantic events come from one attempt: whatever the run logged, a dispatch before the last
      one of the last session contributed nothing. */
  lemma {:induction false} OneAttemptSpeaks(sessions: seq<Session>)
    requires CrashFree(sessions)
    ensures var last := sessions[|sessions| - 1];
            && (last.dispatches == [] ==> AllLogged(sessions) == [])
            && (last.dispatches != [] ==>
                  AllLogged(sessions) == Logged(last.dispatches[|last.dispatches| - 1].reply,
                                                Streams(last.before), last.end == EndSucceeded))
  {
    hide Grew, AttemptsAre, Disciplined, Logged, Streams, AllLogged;
    OnlyTheLastLogs(sessions);
    assert Holds(sessions[|sessions| - 1]);
  }

  /** Exactly-once streaming over a whole run: when the last session succeeds, the log of the run holds
      the validated history, every event once, if and only if everything that was streamed belongs to
      it; and in the order of the history if and only if the stream was a prefix of it. */
  lemma {:induction false} RunLogsHistoryIff(sessions: seq<Session>, history: seq<ProviderEvent>)
    requires CrashFree(sessions) && sessions[|sessions| - 1].end == EndSucceeded
    requires var last := sessions[|sessions| - 1];
             last.dispatches != [] ==>
               && last.dispatches[|last.dispatches| - 1].reply.outcome.Completed?
               && last.dispatches[|last.dispatches| - 1].reply.outcome.history == history
    requires DistinctEvents(history)
    ensures var last := sessions[|sessions| - 1]; last.dispatches != []
    ensures var last := sessions[|sessions| - 1];
            var streamed := Streamed(last.dispatches[|last.dispatches| - 1].reply.calls);
            && (multiset(AllLogged(sessions)) == multiset(history) <==>
                  (Streams(last.before) ==> forall e <- streamed :: e in history))
            && (AllLogged(sessions) == history <==> (Streams(last.before) ==> streamed <= history))
  {
    hide Grew, AttemptsAre, Disciplined, Streams, AllLogged, Streamed, Pending, Logged, DistinctEvents;
    OneAttemptSpeaks(sessions);
    var last := sessions[|sessions| - 1];
    assert Holds(last);
    var reply := last.dispatches[|last.dispatches| - 1].reply;
    LoggedAtEnd(reply, Streams(last.before));
    StreamedPlusPendingIff(reply.calls, history);
    StreamedInOrderIff(reply.calls, history);
  }
}
