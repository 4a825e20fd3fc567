/** All writers of one execution, interleaved: the session that holds the execution lease, any
    number of cancellations, streaming sinks and provider-task observers. Each one reads a version
    of the record, decides, and tries one compare-and-swap write. */
module Lifecycle {
  import opened Text
  import opened ExecutionTypes
  import opened ExecutionStore

  /** How the execution is dispatched: synchronously, with or without a streaming sink, or as a
      provider task that recovery polls. */
  datatype Mode = Synchronous(streaming: bool) | ProviderTask

  /** The stored record and its log. */
  datatype Cell = Cell(record: Record, log: seq<Event>)

  /** The lease holder: it may still be preparing from the record it was handed, or it is past
      the transition to running. */
  datatype Session = NoSession | Preparing(base: Record) | Dispatching(base: Record)

  /** `versions` is every record that was ever stored, in order. `holders` are the records that
      the writers outside the lease have read. */
  datatype System = System(
    mode: Mode, cell: Cell, versions: seq<Record>, session: Session, holders: map<nat, Record>)

  // ----- the writes -----------------------------------------------------------------------

  predicate Advances(base: Record, next: Record) {
    && next.id == base.id && next.owner == base.owner
    && next.revision == base.revision + 1
  }

  /** transition: one validated edge with its lifecycle event. */
  predicate TransitionWrite(base: Record, next: Record, payloads: seq<Payload>) {
    && Advances(base, next)
    && next.status != base.status && ValidTransition(base.status, next.status)
    && !next.status.IsSuccess()
    && |payloads| == 1 && payloads[0].Lifecycle? && payloads[0].status == next.status
  }

  /** scheduleRetry: the record waits, and only a retry event says so. */
  predicate ScheduleWrite(base: Record, next: Record, payloads: seq<Payload>) {
    && Advances(base, next) && next.status == WaitingRetry
    && |payloads| == 1 && payloads[0].Retry?
  }

  predicate QuietPayload(p: Payload) {
    || p.AttemptCompleted? || p.Retry? || p.ModelTool?
    || (p.Lifecycle? && (p.kind == MaterializationCompleted || p.kind == CancellationRequested))
  }

  /** persistAttempt, appendRetryEvent, appendModelToolEvents, persistRouterToolRound,
      appendLifecycle, saveTaskObservation: the status stays what the writer read. */
  predicate QuietWrite(base: Record, next: Record, payloads: seq<Payload>) {
    && Advances(base, next) && next.status == base.status
    && forall p <- payloads :: QuietPayload(p)
  }

  /** succeedWithStatus: the result events and one terminal event. It looks at no status. */
  predicate SuccessWrite(base: Record, next: Record, payloads: seq<Payload>) {
    && Advances(base, next) && next.status.IsSuccess()
    && payloads != []
    && payloads[|payloads| - 1] == SuccessPayload(next.status)
    && forall i | 0 <= i < |payloads| - 1 :: payloads[i].ProviderSemantic? || payloads[i].TypedResult?
  }

  function SuccessPayload(status: Status): Payload {
    Lifecycle(if status == Succeeded then ExecutionSucceeded else ExecutionPartiallySucceeded,
              status, false)
  }

  /** Cancel before or during local execution. */
  predicate CancelWrite(base: Record, next: Record, payloads: seq<Payload>) {
    && Advances(base, next) && next.status == Cancelled
    && payloads == [Lifecycle(ExecutionCancelled, Cancelled, false)]
  }

  /** The streaming sink: one provider event or one resource observation. */
  predicate SinkWrite(base: Record, next: Record, payloads: seq<Payload>) {
    && Advances(base, next) && next.status == base.status
    && |payloads| == 1 && (payloads[0].ProviderSemantic? || payloads[0].ResourcePartial?)
  }

  /** updateContinuationState touches a finished record and logs nothing. */
  predicate ContinuationWrite(base: Record, next: Record, payloads: seq<Payload>) {
    Advances(base, next) && next.status == base.status && payloads == []
  }

  predicate SessionWrites(mode: Mode, dispatching: bool, base: Record, next: Record,
                          payloads: seq<Payload>)
  {
    || TransitionWrite(base, next, payloads)
    || ScheduleWrite(base, next, payloads)
    || QuietWrite(base, next, payloads)
    || ((dispatching || mode.ProviderTask?) && SuccessWrite(base, next, payloads))
  }

  predicate HolderWrites(mode: Mode, base: Record, next: Record, payloads: seq<Payload>) {
    || ContinuationWrite(base, next, payloads)
    || (!base.status.IsTerminal() &&
          (|| TransitionWrite(base, next, payloads)
           || QuietWrite(base, next, payloads)
           || CancelWrite(base, next, payloads)
           || SinkWrite(base, next, payloads)
           || (mode.ProviderTask? && SuccessWrite(base, next, payloads))))
  }

  // ----- the steps ------------------------------------------------------------------------

  /** `first` is the sequence number the writer believes to be next; it may be stale. */
  datatype Step =
    | Begin(version: nat)
    | EnterRunning
    | Refresh
    | SessionWrite(next: Record, first: nat, payloads: seq<Payload>)
    | EndSession
    | HolderRead(holder: nat)
    | HolderWrite(holder: nat, next: Record, first: nat, payloads: seq<Payload>)

  ghost predicate Enabled(s: System, step: Step) {
    match step
    case Begin(version) =>
      // The record that recovery listed, or that admission returned: any version, not the latest.
      && s.session.NoSession? && version < |s.versions|
      && !s.versions[version].status.IsTerminal()
    case EnterRunning =>
      // transition to running does nothing when the record in hand already says running.
      s.session.Preparing? && s.session.base.status == Running && s.mode.Synchronous?
    case Refresh =>
      s.session.Dispatching? && s.mode == Synchronous(true)
    case SessionWrite(next, _, payloads) =>
      && !s.session.NoSession?
      && SessionWrites(s.mode, s.session.Dispatching?, s.session.base, next, payloads)
    case EndSession => true
    case HolderRead(_) => true
    case HolderWrite(holder, next, _, payloads) =>
      holder in s.holders && HolderWrites(s.mode, s.holders[holder], next, payloads)
  }

  ghost predicate Accepted(s: System, base: Record, next: Record, first: nat, payloads: seq<Payload>) {
    SaveAccepted(s.cell.record, s.cell.log, next, base.revision, Numbered(next.id, first, payloads))
  }

  /** The store after a compare-and-swap write from `base`. */
  ghost function Written(s: System, base: Record, next: Record, first: nat, payloads: seq<Payload>)
    : System
  {
    if Accepted(s, base, next, first, payloads) then
      s.(cell := Cell(next, s.cell.log + Numbered(next.id, first, payloads)),
         versions := s.versions + [next])
    else s
  }

  /** The session after an accepted write: it ends with the success write, and a session that dispatches
      ends with every change of the status. */
  function Continued(session: Session, next: Record, succeeded: bool): Session
    requires !session.NoSession?
  {
    if session.Preparing? then (if next.status.IsTerminal() then NoSession else Preparing(next))
    else if next.status != session.base.status || succeeded then NoSession
    else Dispatching(next)
  }

  ghost function Take(s: System, step: Step): System
    requires Enabled(s, step)
  {
    match step
    case Begin(version) => s.(session := Preparing(s.versions[version]))
    case EnterRunning => s.(session := Dispatching(s.session.base))
    case Refresh => s.(session := Dispatching(s.cell.record))
    case SessionWrite(next, first, payloads) =>
      var base := s.session.base;
      Written(s, base, next, first, payloads).(
        session := if Accepted(s, base, next, first, payloads)
                   then Continued(s.session, next, SuccessWrite(base, next, payloads)) else NoSession)
    case EndSession => s.(session := NoSession)
    case HolderRead(holder) => s.(holders := s.holders[holder := s.cell.record])
    case HolderWrite(holder, next, first, payloads) =>
      var base := s.holders[holder];
      var t := Written(s, base, next, first, payloads);
      if Accepted(s, base, next, first, payloads) then t.(holders := s.holders[holder := next]) else t
  }

  ghost predicate Initial(s: System) {
    && RecordValid(s.cell.record) && s.cell.record.status == Status.Accepted
    && s.cell.record.revision == 1
    && s.cell.log == [Event(s.cell.record.id, 1, Lifecycle(ExecutionAccepted, Status.Accepted, false))]
    && s.versions == [s.cell.record] && s.session == NoSession && s.holders == map[]
  }

  // ----- what every interleaving keeps ----------------------------------------------------

  /** The terminal lifecycle events of a log, in order. */
  function Outcomes(log: seq<Event>): seq<Status> {
    if log == [] then []
    else Outcomes(log[..|log| - 1])
         + (if IsOutcome(log[|log| - 1]) then [log[|log| - 1].payload.status] else [])
  }

  /** The log announces an outcome exactly when the record is terminal, once, and the same one. */
  predicate OneOutcome(cell: Cell) {
    Outcomes(cell.log) == if cell.record.status.IsTerminal() then [cell.record.status] else []
  }

  /** `r` is a version that was stored. */
  ghost predicate Known(versions: seq<Record>, r: Record) {
    1 <= r.revision <= |versions| && versions[r.revision - 1] == r
  }

  predicate Follows(earlier: Record, later: Record) {
    && later.id == earlier.id && later.owner == earlier.owner
    && (later.status == earlier.status || ValidTransition(earlier.status, later.status))
  }

  /** Version i + 1 carries revision i + 1 and follows its predecessor along an edge. */
  ghost predicate HistoryOk(versions: seq<Record>) {
    && (forall i | 0 <= i < |versions| :: versions[i].revision == i + 1)
    && (forall i | 0 <= i < |versions| - 1 :: Follows(versions[i], versions[i + 1]))
  }

  ghost predicate HandsKnown(s: System) {
    && (s.session.NoSession? || Known(s.versions, s.session.base))
    && (forall h | h in s.holders :: Known(s.versions, s.holders[h]))
  }

  ghost predicate VersionsOk(s: System) {
    && s.versions != [] && s.versions[|s.versions| - 1] == s.cell.record
    && HistoryOk(s.versions)
    && HandsKnown(s)
    && Contiguous(s.cell.record.id, s.cell.log)
  }

  /** What the lease holder may assume. The last clause is the one that a stale start breaks. */
  ghost predicate SessionOk(s: System) {
    && (s.session.Preparing? ==> !s.session.base.status.IsTerminal())
    && (s.session.Dispatching? ==>
          s.mode.Synchronous? && !s.session.base.status.IsSuccess())
    && (s.mode == Synchronous(true) && RunningInHand(s.session) ==>
          !s.cell.record.status.IsSuccess())
  }

  predicate RunningInHand(session: Session) {
    session.Dispatching? || (session.Preparing? && session.base.status == Running)
  }

  ghost predicate Invariant(s: System) {
    VersionsOk(s) && SessionOk(s) && OneOutcome(s.cell)
  }

  /** The guard: when a session of a streaming execution is handed a running record, the stored
      one has not succeeded. The record in hand may be stale for any other reason. */
  ghost predicate Guarded(s: System, step: Step) {
    step.Begin? && step.version < |s.versions| && s.mode == Synchronous(true)
    && s.versions[step.version].status == Running
    ==> !s.cell.record.status.IsSuccess()
  }

  lemma {:induction false} VersionsAreKnown(s: System, version: nat)
    requires VersionsOk(s) && version < |s.versions|
    ensures Known(s.versions, s.versions[version]) && Known(s.versions, s.cell.record)
  {
    hide Follows, Contiguous, HandsKnown;
    assert Known(s.versions, s.versions[|s.versions| - 1]);
  }

  lemma {:induction false} OutcomesConcat(a: seq<Event>, b: seq<Event>)
    ensures Outcomes(a + b) == Outcomes(a) + Outcomes(b)
    decreases |b|
  {
    if b == [] {
      assert a + b == a;
    } else {
      OutcomesConcat(a, b[..|b| - 1]);
      assert (a + b)[..|a + b| - 1] == a + b[..|b| - 1];
    }
  }

  lemma {:induction false} NoOutcomes(es: seq<Event>)
    requires forall i | 0 <= i < |es| :: !IsOutcome(es[i])
    ensures Outcomes(es) == []
  {
    if es != [] {
      NoOutcomes(es[..|es| - 1]);
    }
  }

  lemma {:induction false} OutcomesOfLast(es: seq<Event>)
    requires es != [] && forall i | 0 <= i < |es| - 1 :: !IsOutcome(es[i])
    ensures Outcomes(es) == if IsOutcome(es[|es| - 1]) then [es[|es| - 1].payload.status] else []
  {
    NoOutcomes(es[..|es| - 1]);
  }

  /** Revisions identify versions: a write goes through only from the current record, so a writer
      that lost the race changes nothing at all. */
  lemma {:induction false} StaleWriteLoses(s: System, base: Record, next: Record, first: nat, payloads: seq<Payload>)
    requires VersionsOk(s) && Known(s.versions, base)
    ensures Accepted(s, base, next, first, payloads) ==>
              base == s.cell.record && Follows(base, next)
    ensures base != s.cell.record ==> Written(s, base, next, first, payloads) == s
  {
  }

  lemma {:induction false} AcceptedEvents(s: System, base: Record, next: Record, first: nat, payloads: seq<Payload>)
    requires Accepted(s, base, next, first, payloads)
    ensures forall i | 0 <= i < |payloads| :: PayloadValid(payloads[i])
    ensures Contiguous(s.cell.record.id, s.cell.log) ==>
              Contiguous(next.id, s.cell.log + Numbered(next.id, first, payloads))
  {
    var es := Numbered(next.id, first, payloads);
    assert forall i | 0 <= i < |es| :: EventValid(es[i]);
  }

  /** An accepted write extends the versions by one along an edge and the log without a gap. */
  lemma {:induction false} WriteKeepsVersions(s: System, base: Record, next: Record, first: nat, payloads: seq<Payload>)
    requires VersionsOk(s) && Known(s.versions, base) && Advances(base, next)
    requires Accepted(s, base, next, first, payloads)
    ensures VersionsOk(Written(s, base, next, first, payloads).(session := NoSession))
    ensures Known(Written(s, base, next, first, payloads).versions, next)
    ensures s.session.NoSession?
            || Known(Written(s, base, next, first, payloads).versions, s.session.base)
  {
    StaleWriteLoses(s, base, next, first, payloads);
    AcceptedEvents(s, base, next, first, payloads);
  }

  /** Events that announce no outcome leave the outcome where it was. */
  lemma {:induction false} QuietEventsKeepOutcome(cell: Cell, next: Record, first: nat, payloads: seq<Payload>)
    requires OneOutcome(cell) && next.status.IsTerminal() == cell.record.status.IsTerminal()
    requires next.status.IsTerminal() ==> next.status == cell.record.status
    requires forall i | 0 <= i < |payloads| ::
               payloads[i].Lifecycle? ==> !payloads[i].status.IsTerminal()
    ensures OneOutcome(Cell(next, cell.log + Numbered(next.id, first, payloads)))
  {
    var es := Numbered(next.id, first, payloads);
    OutcomesConcat(cell.log, es);
    NoOutcomes(es);
  }

  /** One lifecycle event for the new status, after quiet ones: the outcome is unique afterwards
      exactly when there was none before. */
  lemma {:induction false} LastEventKeepsOutcomeIff(cell: Cell, next: Record, first: nat, payloads: seq<Payload>)
    requires OneOutcome(cell)
    requires payloads != [] && payloads[|payloads| - 1].Lifecycle?
    requires payloads[|payloads| - 1].status == next.status
    requires forall i | 0 <= i < |payloads| - 1 :: !payloads[i].Lifecycle?
    requires next.status.IsTerminal()
    ensures OneOutcome(Cell(next, cell.log + Numbered(next.id, first, payloads))) <==>
            !cell.record.status.IsTerminal()
  {
    var es := Numbered(next.id, first, payloads);
    OutcomesConcat(cell.log, es);
    OutcomesOfLast(es);
  }

  /** A success that the store accepts keeps the outcome unique exactly when the record it was
      made from had not already succeeded. */
  lemma {:induction false} SuccessKeepsOutcomeIff(s: System, base: Record, next: Record, first: nat,
                               payloads: seq<Payload>)
    requires VersionsOk(s) && Known(s.versions, base) && OneOutcome(s.cell)
    requires SuccessWrite(base, next, payloads) && Accepted(s, base, next, first, payloads)
    ensures OneOutcome(Written(s, base, next, first, payloads).cell) <==> !base.status.IsSuccess()
  {
    hide RecordValid, HistoryOk, HandsKnown, Contiguous, Outcomes, Appendable;
    StaleWriteLoses(s, base, next, first, payloads);
    LastEventKeepsOutcomeIff(s.cell, next, first, payloads);
  }

  lemma {:induction false} TransitionKeepsOutcome(s: System, base: Record, next: Record, first: nat,
                               payloads: seq<Payload>)
    requires VersionsOk(s) && Known(s.versions, base) && OneOutcome(s.cell)
    requires TransitionWrite(base, next, payloads) && Accepted(s, base, next, first, payloads)
    ensures OneOutcome(Written(s, base, next, first, payloads).cell)
  {
    hide RecordValid, HistoryOk, HandsKnown, Contiguous, Outcomes, Appendable;
    StaleWriteLoses(s, base, next, first, payloads);
    if next.status.IsTerminal() {
      LastEventKeepsOutcomeIff(s.cell, next, first, payloads);
    } else {
      QuietEventsKeepOutcome(s.cell, next, first, payloads);
    }
  }

  lemma {:induction false} CancelKeepsOutcome(s: System, base: Record, next: Record, first: nat,
                           payloads: seq<Payload>)
    requires VersionsOk(s) && Known(s.versions, base) && OneOutcome(s.cell)
    requires CancelWrite(base, next, payloads) && !base.status.IsTerminal()
    requires Accepted(s, base, next, first, payloads)
    ensures OneOutcome(Written(s, base, next, first, payloads).cell)
  {
    hide RecordValid, HistoryOk, HandsKnown, Contiguous, Outcomes, Appendable;
    StaleWriteLoses(s, base, next, first, payloads);
    LastEventKeepsOutcomeIff(s.cell, next, first, payloads);
  }

  lemma {:induction false} QuietWriteKeepsOutcome(s: System, base: Record, next: Record, first: nat,
                               payloads: seq<Payload>)
    requires VersionsOk(s) && Known(s.versions, base) && OneOutcome(s.cell)
    requires ScheduleWrite(base, next, payloads) || QuietWrite(base, next, payloads)
             || SinkWrite(base, next, payloads) || ContinuationWrite(base, next, payloads)
    requires Accepted(s, base, next, first, payloads)
    ensures OneOutcome(Written(s, base, next, first, payloads).cell)
  {
    hide RecordValid, HistoryOk, HandsKnown, Contiguous, Outcomes, SaveAccepted;
    StaleWriteLoses(s, base, next, first, payloads);
    AcceptedEvents(s, base, next, first, payloads);
    forall i | 0 <= i < |payloads|
      ensures payloads[i].Lifecycle? ==> !payloads[i].status.IsTerminal()
    {
      assert payloads[i] in payloads;
    }
    QuietEventsKeepOutcome(s.cell, next, first, payloads);
  }

  lemma {:induction false} SessionWriteKeepsOutcome(s: System, next: Record, first: nat, payloads: seq<Payload>)
    requires VersionsOk(s) && !s.session.NoSession? && OneOutcome(s.cell)
    requires SuccessWrite(s.session.base, next, payloads) ==> !s.session.base.status.IsSuccess()
    requires SessionWrites(s.mode, s.session.Dispatching?, s.session.base, next, payloads)
    requires Accepted(s, s.session.base, next, first, payloads)
    ensures OneOutcome(Written(s, s.session.base, next, first, payloads).cell)
  {
    hide RecordValid, HistoryOk, Contiguous, SaveAccepted, OneOutcome;
    var base := s.session.base;
    if SuccessWrite(base, next, payloads) {
      SuccessKeepsOutcomeIff(s, base, next, first, payloads);
    } else if TransitionWrite(base, next, payloads) {
      TransitionKeepsOutcome(s, base, next, first, payloads);
    } else {
      QuietWriteKeepsOutcome(s, base, next, first, payloads);
    }
  }

  lemma {:induction false} SessionWriteKeeps(s: System, next: Record, first: nat, payloads: seq<Payload>)
    requires Invariant(s) && Enabled(s, SessionWrite(next, first, payloads))
    requires Accepted(s, s.session.base, next, first, payloads)
    ensures Invariant(Take(s, SessionWrite(next, first, payloads)))
  {
    hide RecordValid, HistoryOk, Contiguous, SaveAccepted, OneOutcome;
    var base := s.session.base;
    assert Advances(base, next);
    SessionWriteKeepsVersions(s, next, first, payloads);
    SessionWriteKeepsOutcome(s, next, first, payloads);
  }

  lemma {:induction false} HolderWriteKeepsOutcome(s: System, base: Record, next: Record, first: nat,
                                payloads: seq<Payload>)
    requires VersionsOk(s) && Known(s.versions, base) && OneOutcome(s.cell)
    requires HolderWrites(s.mode, base, next, payloads) && Accepted(s, base, next, first, payloads)
    ensures OneOutcome(Written(s, base, next, first, payloads).cell)
  {
    if ContinuationWrite(base, next, payloads) || QuietWrite(base, next, payloads)
       || SinkWrite(base, next, payloads)
    {
      QuietWriteKeepsOutcome(s, base, next, first, payloads);
    } else if SuccessWrite(base, next, payloads) {
      SuccessKeepsOutcomeIff(s, base, next, first, payloads);
    } else if TransitionWrite(base, next, payloads) {
      TransitionKeepsOutcome(s, base, next, first, payloads);
    } else {
      CancelKeepsOutcome(s, base, next, first, payloads);
    }
  }

  /** Outside the lease only a provider task can turn a record into a success. */
  lemma {:induction false} HoldersDoNotSucceed(s: System, base: Record, next: Record, first: nat,
                               payloads: seq<Payload>)
    requires VersionsOk(s) && Known(s.versions, base)
    requires HolderWrites(s.mode, base, next, payloads) && Accepted(s, base, next, first, payloads)
    requires s.mode.Synchronous?
    ensures next.status.IsSuccess() ==> s.cell.record.status.IsSuccess()
  {
    StaleWriteLoses(s, base, next, first, payloads);
  }

  lemma {:induction false} HolderWriteKeeps(s: System, holder: nat, next: Record, first: nat, payloads: seq<Payload>)
    requires Invariant(s) && Enabled(s, HolderWrite(holder, next, first, payloads))
    requires Accepted(s, s.holders[holder], next, first, payloads)
    ensures Invariant(Take(s, HolderWrite(holder, next, first, payloads)))
  {
    hide RecordValid, HistoryOk, Contiguous, SaveAccepted, OneOutcome;
    var base := s.holders[holder];
    assert Advances(base, next);
    HolderWriteKeepsVersions(s, holder, next, first, payloads);
    HolderWriteKeepsOutcome(s, base, next, first, payloads);
    if s.mode.Synchronous? {
      HoldersDoNotSucceed(s, base, next, first, payloads);
    }
  }

  lemma {:induction false} StepKeepsInvariant(s: System, step: Step)
    requires Invariant(s) && Enabled(s, step) && Guarded(s, step)
    ensures Invariant(Take(s, step))
  {
    hide RecordValid, HistoryOk, Contiguous, SaveAccepted, SessionWrites, HolderWrites;
    match step
    case Begin(version) => VersionsAreKnown(s, version);
    case SessionWrite(next, first, payloads) =>
      if Accepted(s, s.session.base, next, first, payloads) {
        SessionWriteKeeps(s, next, first, payloads);
      }
    case HolderWrite(holder, next, first, payloads) =>
      if Accepted(s, s.holders[holder], next, first, payloads) {
        HolderWriteKeeps(s, holder, next, first, payloads);
      }
    case _ => VersionsAreKnown(s, 0);
  }

  // ----- whole runs -----------------------------------------------------------------------

  ghost predicate Moves(s: System, step: Step, t: System) {
    Enabled(s, step) && t == Take(s, step)
  }

  /** `states` are the states passed through under `steps`. */
  ghost predicate IsPath(states: seq<System>, steps: seq<Step>) {
    && |states| == |steps| + 1
    && forall i | 0 <= i < |steps| :: Moves(states[i], steps[i], states[i + 1])
  }

  /** `states` is a run of the system from its admission. */
  ghost predicate IsRun(states: seq<System>, steps: seq<Step>) {
    IsPath(states, steps) && Initial(states[0])
  }

  ghost predicate GuardedRun(states: seq<System>, steps: seq<Step>)
    requires |states| == |steps| + 1
  {
    forall i | 0 <= i < |steps| :: Guarded(states[i], steps[i])
  }

  /** Safety over every interleaving: in each state of each guarded run, whatever the
      cancellations and sinks do before or after a start, the log holds at most one outcome, and
      it is the stored one. */
  lemma {:induction false} GuardedRunsHaveOneOutcome(states: seq<System>, steps: seq<Step>, n: nat)
    requires IsRun(states, steps) && GuardedRun(states, steps) && n < |states|
    ensures Invariant(states[n])
  {
    hide RecordValid, Take, Enabled, Outcomes, OneOutcome, Guarded;
    if n == 0 {
      FirstOutcome(states[0]);
    } else {
      GuardedRunsHaveOneOutcome(states, steps, n - 1);
      assert Moves(states[n - 1], steps[n - 1], states[n]);
      StepKeepsInvariant(states[n - 1], steps[n - 1]);
    }
  }

  lemma {:induction false} RunsKeepVersions(states: seq<System>, steps: seq<Step>, n: nat)
    requires IsRun(states, steps) && n < |states|
    ensures VersionsOk(states[n])
    ensures states[n].cell.record.revision == |states[n].versions|
  {
    hide RecordValid, Take, Enabled, Follows;
    if n > 0 {
      RunsKeepVersions(states, steps, n - 1);
      assert Moves(states[n - 1], steps[n - 1], states[n]);
      StepKeepsVersions(states[n - 1], steps[n - 1]);
    }
  }

  lemma {:induction false} SessionWriteKeepsVersions(s: System, next: Record, first: nat, payloads: seq<Payload>)
    requires VersionsOk(s) && Enabled(s, SessionWrite(next, first, payloads))
    requires Accepted(s, s.session.base, next, first, payloads)
    ensures VersionsOk(Take(s, SessionWrite(next, first, payloads)))
  {
    hide RecordValid, HistoryOk, Contiguous, SaveAccepted;
    assert Advances(s.session.base, next);
    WriteKeepsVersions(s, s.session.base, next, first, payloads);
  }

  lemma {:induction false} HolderWriteKeepsVersions(s: System, holder: nat, next: Record, first: nat,
                                payloads: seq<Payload>)
    requires VersionsOk(s) && Enabled(s, HolderWrite(holder, next, first, payloads))
    requires Accepted(s, s.holders[holder], next, first, payloads)
    ensures VersionsOk(Take(s, HolderWrite(holder, next, first, payloads)))
  {
    hide RecordValid, HistoryOk, Contiguous, SaveAccepted;
    assert Advances(s.holders[holder], next);
    WriteKeepsVersions(s, s.holders[holder], next, first, payloads);
  }

  lemma {:induction false} StepKeepsVersions(s: System, step: Step)
    requires VersionsOk(s) && Enabled(s, step)
    ensures VersionsOk(Take(s, step))
  {
    hide RecordValid, HistoryOk, Contiguous, SaveAccepted, SessionWrites, HolderWrites;
    match step
    case Begin(version) => VersionsAreKnown(s, version);
    case SessionWrite(next, first, payloads) =>
      if Accepted(s, s.session.base, next, first, payloads) {
        SessionWriteKeepsVersions(s, next, first, payloads);
      }
    case HolderWrite(holder, next, first, payloads) =>
      if Accepted(s, s.holders[holder], next, first, payloads) {
        HolderWriteKeepsVersions(s, holder, next, first, payloads);
      }
    case _ => VersionsAreKnown(s, 0);
  }

  /** Guarded or not, a run only ever appends: the earlier log and the earlier versions are
      prefixes of the later ones. */
  lemma {:induction false} RunsOnlyAppend(states: seq<System>, steps: seq<Step>, m: nat, n: nat)
    requires IsRun(states, steps) && m <= n < |states|
    ensures states[m].cell.log <= states[n].cell.log
    ensures states[m].versions <= states[n].versions
    decreases n
  {
    hide Take, Enabled;
    if m < n {
      RunsOnlyAppend(states, steps, m, n - 1);
      assert Moves(states[n - 1], steps[n - 1], states[n]);
      StepOnlyAppends(states[n - 1], steps[n - 1]);
    }
  }

  lemma {:induction false} StepOnlyAppends(s: System, step: Step)
    requires Enabled(s, step)
    ensures s.versions <= Take(s, step).versions && s.cell.log <= Take(s, step).cell.log
  {
    hide Accepted, SessionWrites, HolderWrites;
  }

  /** A terminal status is never left again, in any run. */
  lemma {:induction false} TerminalForever(states: seq<System>, steps: seq<Step>, m: nat, n: nat)
    requires IsRun(states, steps) && m <= n < |states|
    requires states[m].cell.record.status.IsTerminal()
    ensures states[n].cell.record.status == states[m].cell.record.status
  {
    hide IsRun, Contiguous, HandsKnown;
    RunsOnlyAppend(states, steps, m, n);
    RunsKeepVersions(states, steps, m);
    RunsKeepVersions(states, steps, n);
    TerminalIsLast(states[n].versions, |states[m].versions| - 1);
  }

  lemma {:induction false} TerminalIsLast(versions: seq<Record>, i: nat)
    requires HistoryOk(versions) && i < |versions| && versions[i].status.IsTerminal()
    ensures versions[|versions| - 1].status == versions[i].status
    decreases |versions| - i
  {
    if i + 1 < |versions| {
      assert Follows(versions[i], versions[i + 1]);
      TerminalIsLast(versions, i + 1);
    }
  }

  // ----- exactly when a run has one outcome -----------------------------------------------

  /** The record that a write is made from. */
  function BaseOf(s: System, step: Step): (base: Record)
    requires step.SessionWrite? || step.HolderWrite?
    requires step.SessionWrite? ==> !s.session.NoSession?
    requires step.HolderWrite? ==> step.holder in s.holders
  {
    if step.SessionWrite? then s.session.base else s.holders[step.holder]
  }

  /** The store accepts a success that was made from a record that had succeeded. */
  ghost predicate RepeatsSuccess(s: System, step: Step) {
    && Enabled(s, step) && (step.SessionWrite? || step.HolderWrite?)
    && SuccessWrite(BaseOf(s, step), step.next, step.payloads)
    && Accepted(s, BaseOf(s, step), step.next, step.first, step.payloads)
    && BaseOf(s, step).status.IsSuccess()
  }

  ghost predicate NoRepeat(states: seq<System>, steps: seq<Step>, n: nat)
    requires n <= |states| && n <= |steps|
  {
    forall i | 0 <= i < n :: !RepeatsSuccess(states[i], steps[i])
  }

  lemma {:induction false} LongerLogsHaveMoreOutcomes(a: seq<Event>, b: seq<Event>)
    requires a <= b
    ensures |Outcomes(a)| <= |Outcomes(b)|
  {
    assert b == a + b[|a|..];
    OutcomesConcat(a, b[|a|..]);
  }

  lemma {:induction false} RepeatAddsOutcome(s: System, step: Step)
    requires VersionsOk(s) && OneOutcome(s.cell) && RepeatsSuccess(s, step)
    ensures |Outcomes(Take(s, step).cell.log)| == 2
  {
    hide RecordValid, VersionsOk, Accepted, ValidTransition, Enabled, Outcomes;
    BaseIsCurrent(s, step);
    var es := Numbered(step.next.id, step.first, step.payloads);
    OutcomesConcat(s.cell.log, es);
    OutcomesOfLast(es);
    WriteAppends(s, step);
  }

  lemma {:induction false} BaseIsCurrent(s: System, step: Step)
    requires VersionsOk(s) && RepeatsSuccess(s, step)
    ensures BaseOf(s, step) == s.cell.record
  {
    hide RecordValid, ValidTransition, Contiguous, SessionWrites, HolderWrites, SuccessWrite;
    StaleWriteLoses(s, BaseOf(s, step), step.next, step.first, step.payloads);
  }

  lemma {:induction false} WriteAppends(s: System, step: Step)
    requires Enabled(s, step) && (step.SessionWrite? || step.HolderWrite?)
    requires Accepted(s, BaseOf(s, step), step.next, step.first, step.payloads)
    ensures Take(s, step).cell ==
            Cell(step.next, s.cell.log + Numbered(step.next.id, step.first, step.payloads))
  {
    hide RecordValid, SaveAccepted, SessionWrites, HolderWrites;
  }

  lemma {:induction false} OtherStepsKeepOutcome(s: System, step: Step)
    requires VersionsOk(s) && OneOutcome(s.cell) && Enabled(s, step) && !RepeatsSuccess(s, step)
    ensures OneOutcome(Take(s, step).cell)
  {
    hide RecordValid, VersionsOk, OneOutcome, SaveAccepted, SuccessWrite, SessionWrites, HolderWrites;
    match step
    case SessionWrite(next, first, payloads) =>
      if Accepted(s, s.session.base, next, first, payloads) {
        SessionWriteKeepsOutcome(s, next, first, payloads);
      }
    case HolderWrite(holder, next, first, payloads) =>
      if Accepted(s, s.holders[holder], next, first, payloads) {
        HoldersAreKnown(s, holder);
        HolderWriteKeepsOutcome(s, s.holders[holder], next, first, payloads);
      }
    case _ =>
  }

  lemma {:induction false} HoldersAreKnown(s: System, holder: nat)
    requires VersionsOk(s) && holder in s.holders
    ensures Known(s.versions, s.holders[holder])
  {
    hide HistoryOk, Contiguous;
  }

  /** The exact condition, over all runs, guarded or not: the log announces the stored outcome
      and no other one if and only if no success was accepted from a record that had succeeded. */
  lemma {:induction false} OneOutcomeIffNoRepeat(states: seq<System>, steps: seq<Step>, n: nat)
    requires IsRun(states, steps) && n < |states|
    ensures OneOutcome(states[n].cell) <==> NoRepeat(states, steps, n)
    ensures !NoRepeat(states, steps, n) ==> |Outcomes(states[n].cell.log)| >= 2
  {
    hide Enabled, Take, OneOutcome, RepeatsSuccess, VersionsOk, Outcomes;
    if n == 0 {
      FirstOutcome(states[0]);
    } else {
      OneOutcomeIffNoRepeat(states, steps, n - 1);
      RunsKeepVersions(states, steps, n - 1);
      var s, step := states[n - 1], steps[n - 1];
      assert Moves(s, step, states[n]);
      StepOnlyAppends(s, step);
      LongerLogsHaveMoreOutcomes(s.cell.log, states[n].cell.log);
      if NoRepeat(states, steps, n - 1) {
        if RepeatsSuccess(s, step) {
          RepeatAddsOutcome(s, step);
        } else {
          OtherStepsKeepOutcome(s, step);
        }
      }
      OneOutcomeIsAtMostOne(states[n].cell);
    }
  }

  lemma {:induction false} FirstOutcome(s: System)
    requires Initial(s)
    ensures OneOutcome(s.cell)
  {
    hide RecordValid;
    OutcomesOfLast(s.cell.log);
  }

  lemma {:induction false} OneOutcomeIsAtMostOne(cell: Cell)
    ensures OneOutcome(cell) ==> |Outcomes(cell.log)| <= 1
  {
    hide Outcomes;
  }

  // ----- the guard is needed wherever it fails --------------------------------------------

  /** The success write carries the attempt that succeeded. */
  function Succeeding(r: Record): Record {
    r.(revision := r.revision + 1, attempts := r.attempts + [Attempt(|r.attempts| + 1, r.target, true, true)],
       status := if r.status.IsSuccess() then r.status else Succeeded, hasResult := true)
  }

  /** The success write of a session that holds the current record. */
  function SuccessStep(s: System): Step {
    SessionWrite(Succeeding(s.cell.record), |s.cell.log| + 1,
                 [SuccessPayload(Succeeding(s.cell.record).status)])
  }

  lemma {:induction false} SucceedingIsValid(r: Record)
    requires RecordValid(r) && (r.status == Running || r.status.IsSuccess())
    ensures RecordValid(Succeeding(r))
  {
  }

  /** A valid successor with one valid event is accepted from the current record. */
  lemma {:induction false} NextIsAccepted(s: System, next: Record, payload: Payload)
    requires RecordValid(next) && Advances(s.cell.record, next) && PayloadValid(payload)
    requires Follows(s.cell.record, next)
    ensures Accepted(s, s.cell.record, next, |s.cell.log| + 1, [payload])
    ensures Outcomes(s.cell.log + Numbered(next.id, |s.cell.log| + 1, [payload])) ==
            Outcomes(s.cell.log)
            + if payload.Lifecycle? && payload.status.IsTerminal() then [payload.status] else []
  {
    hide ValidTransition, PayloadValid;
    var es := Numbered(next.id, |s.cell.log| + 1, [payload]);
    assert Appendable(next, s.cell.log, es);
    OutcomesConcat(s.cell.log, es);
    OutcomesOfLast(es);
  }

  /** The store accepts it from a running record, and from one that has succeeded already. */
  lemma {:induction false} SuccessStepAccepted(s: System)
    requires RecordValid(s.cell.record) && s.session == Dispatching(s.cell.record)
    requires s.cell.record.status == Running || s.cell.record.status.IsSuccess()
    ensures Moves(s, SuccessStep(s), Take(s, SuccessStep(s)))
    ensures var t := Take(s, SuccessStep(s));
            && t.cell.record == Succeeding(s.cell.record) && RecordValid(t.cell.record)
            && t.versions == s.versions + [t.cell.record] && t.session == NoSession
            && t.mode == s.mode
            && Outcomes(t.cell.log) == Outcomes(s.cell.log) + [t.cell.record.status]
  {
    hide RecordValid, Outcomes, SaveAccepted;
    var next := Succeeding(s.cell.record);
    SucceedingIsValid(s.cell.record);
    NextIsAccepted(s, next, SuccessPayload(next.status));
    assert SuccessWrite(s.cell.record, next, [SuccessPayload(next.status)]);
  }

  lemma {:induction false} PathOfFour(states: seq<System>, steps: seq<Step>)
    requires |states| == 5 && |steps| == 4
    requires Moves(states[0], steps[0], states[1]) && Moves(states[1], steps[1], states[2])
    requires Moves(states[2], steps[2], states[3]) && Moves(states[3], steps[3], states[4])
    ensures IsPath(states, steps)
  {
    hide Moves;
  }

  /** A session that is handed a running record dispatches without a write. */
  lemma {:induction false} BeginsRunning(s: System, version: nat)
    requires s.session.NoSession? && s.mode.Synchronous?
    requires version < |s.versions| && s.versions[version].status == Running
    ensures Moves(s, Begin(version), s.(session := Preparing(s.versions[version])))
    ensures Moves(s.(session := Preparing(s.versions[version])), EnterRunning,
                  s.(session := Dispatching(s.versions[version])))
  {
    hide SessionWrites, HolderWrites;
  }

  /** The unguarded start, in every state that has it: recovery is handed a listed record that
      still says running although the stream has succeeded since. It dispatches without a write,
      reads the succeeded record back, and announces the success a second time. */
  lemma {:induction false} StaleStartRepeatsOutcome(s: System, version: nat)
    returns (states: seq<System>, steps: seq<Step>)
    requires RecordValid(s.cell.record) && OneOutcome(s.cell)
    requires s.mode == Synchronous(true) && s.session.NoSession?
    requires s.cell.record.status.IsSuccess()
    requires version < |s.versions| && s.versions[version].status == Running
    ensures IsPath(states, steps) && |steps| == 4 && states[0] == s && steps[0] == Begin(version)
    ensures Outcomes(states[4].cell.log) == [s.cell.record.status, s.cell.record.status]
  {
    hide RecordValid, Take, Enabled, Outcomes, SuccessStep, IsPath;
    BeginsRunning(s, version);
    var s1 := s.(session := Preparing(s.versions[version]));
    var s2 := s.(session := Dispatching(s.versions[version]));
    var s3 := s.(session := Dispatching(s.cell.record));
    Refreshes(s2);
    SuccessStepAccepted(s3);
    states := [s, s1, s2, s3, Take(s3, SuccessStep(s3))];
    steps := [Begin(version), EnterRunning, Refresh, SuccessStep(s3)];
    PathOfFour(states, steps);
  }

  lemma {:induction false} Refreshes(s: System)
    requires s.session.Dispatching? && s.mode == Synchronous(true)
    ensures Moves(s, Refresh, s.(session := Dispatching(s.cell.record)))
  {
    hide SessionWrites, HolderWrites;
  }

  lemma {:induction false} RunsKeepRecordsValid(states: seq<System>, steps: seq<Step>, n: nat)
    requires IsRun(states, steps) && n < |states|
    ensures RecordValid(states[n].cell.record)
  {
    hide RecordValid;
    if n > 0 {
      RunsKeepRecordsValid(states, steps, n - 1);
      assert Moves(states[n - 1], steps[n - 1], states[n]);
    }
  }

  /** The guard is exact: in a run with one outcome so far, every start that it refuses leads in
      four steps to a log that announces the outcome twice. */
  lemma {:induction false} GuardIsNeeded(states: seq<System>, steps: seq<Step>, version: nat)
    returns (longer: seq<System>, more: seq<Step>)
    requires IsRun(states, steps)
    requires OneOutcome(states[|steps|].cell)
    requires Enabled(states[|steps|], Begin(version)) && !Guarded(states[|steps|], Begin(version))
    ensures IsRun(longer, steps + more) && longer[..|steps|] == states[..|steps|]
    ensures longer[|steps|] == states[|steps|] && |more| == 4 && more[0] == Begin(version)
    ensures !OneOutcome(longer[|steps| + 4].cell)
    ensures |Outcomes(longer[|steps| + 4].cell.log)| == 2
  {
    hide RecordValid, Outcomes, Take, SessionWrites, HolderWrites;
    var s := states[|steps|];
    RunsKeepRecordsValid(states, steps, |steps|);
    var after, rest := StaleStartRepeatsOutcome(s, version);
    PathsConcat(states, steps, after, rest);
    longer, more := states[..|steps|] + after, rest;
    assert longer[|steps| + 4] == after[4];
  }

  function RunningStep(s: System): Step {
    SessionWrite(s.cell.record.(revision := s.cell.record.revision + 1, status := Running),
                 |s.cell.log| + 1, [Lifecycle(ExecutionRunning, Running, false)])
  }

  lemma {:induction false} RunningIsValid(r: Record)
    requires RecordValid(r) && r.status == Status.Accepted
    ensures RecordValid(r.(revision := r.revision + 1, status := Running))
  {
  }

  lemma {:induction false} RunningStepAccepted(s: System)
    requires RecordValid(s.cell.record) && s.session == Preparing(s.cell.record)
    requires s.cell.record.status == Status.Accepted
    ensures Moves(s, RunningStep(s), Take(s, RunningStep(s)))
    ensures var t := Take(s, RunningStep(s)); var next := RunningStep(s).next;
            && t.cell.record == next && RecordValid(next) && next.status == Running
            && t.versions == s.versions + [next] && t.session == Preparing(next)
            && t.mode == s.mode
            && Outcomes(t.cell.log) == Outcomes(s.cell.log)
  {
    hide RecordValid, Outcomes, SaveAccepted;
    var next, payloads := RunningStep(s).next, RunningStep(s).payloads;
    RunningIsValid(s.cell.record);
    NextIsAccepted(s, next, payloads[0]);
    assert payloads == [payloads[0]];
    assert TransitionWrite(s.cell.record, next, payloads);
  }

  lemma {:induction false} PathsConcat(states1: seq<System>, steps1: seq<Step>, states2: seq<System>, steps2: seq<Step>)
    requires IsPath(states1, steps1) && IsPath(states2, steps2)
    requires states1[|steps1|] == states2[0]
    ensures IsPath(states1[..|steps1|] + states2, steps1 + steps2)
  {
    hide Moves;
    var states, steps := states1[..|steps1|] + states2, steps1 + steps2;
    forall i | 0 <= i < |steps| ensures Moves(states[i], steps[i], states[i + 1]) {
      if i < |steps1| {
        assert Moves(states1[i], steps1[i], states1[i + 1]);
      } else {
        assert Moves(states2[i - |steps1|], steps2[i - |steps1|], states2[i - |steps1| + 1]);
      }
    }
  }

  /** The first start of an admitted request. */
  lemma {:induction false} FirstStart(s: System)
    requires Initial(s)
    ensures Moves(s, Begin(0), s.(session := Preparing(s.cell.record)))
    ensures Outcomes(s.cell.log) == []
  {
    hide RecordValid, SessionWrites, HolderWrites;
    assert s.cell.log[..0] == [];
  }

  /** An admitted synchronous request runs and succeeds in four steps. */
  lemma {:induction false} RunsAndSucceeds(s: System) returns (states: seq<System>, steps: seq<Step>)
    requires Initial(s) && s.mode.Synchronous?
    ensures IsPath(states, steps) && states[0] == s && |steps| == 4
    ensures steps == [Begin(0), RunningStep(states[1]), EnterRunning, SuccessStep(states[3])]
    ensures var t := states[4];
            && t.mode == s.mode && t.session.NoSession? && t.cell.record.status == Succeeded
            && Outcomes(t.cell.log) == [Succeeded]
            && |t.versions| == 3 && t.versions[1].status == Running
  {
    hide RecordValid, Take, Enabled, Outcomes, IsPath;
    FirstStart(s);
    var s1 := s.(session := Preparing(s.cell.record));
    RunningStepAccepted(s1);
    var s2 := Take(s1, RunningStep(s1));
    var s3 := s2.(session := Dispatching(s2.cell.record));
    EntersRunning(s2);
    SuccessStepAccepted(s3);
    states := [s, s1, s2, s3, Take(s3, SuccessStep(s3))];
    steps := [Begin(0), RunningStep(s1), EnterRunning, SuccessStep(s3)];
    PathOfFour(states, steps);
  }

  lemma {:induction false} EntersRunning(s: System)
    requires s.session.Preparing? && s.session.base.status == Running && s.mode.Synchronous?
    ensures Moves(s, EnterRunning, s.(session := Dispatching(s.session.base)))
  {
    hide SessionWrites, HolderWrites;
  }

  /** The unguarded start is reached, too: every admitted streaming request has a run of eight
      steps after which its log announces two outcomes. */
  lemma {:induction false} UnguardedRunHasTwoOutcomes(s: System) returns (states: seq<System>, steps: seq<Step>)
    requires Initial(s) && s.mode == Synchronous(true)
    ensures IsRun(states, steps) && states[0] == s && |steps| == 8
    ensures Outcomes(states[8].cell.log) == [Succeeded, Succeeded]
  {
    hide RecordValid, Outcomes, Moves;
    var states1, steps1 := RunsAndSucceeds(s);
    RunsKeepRecordsValid(states1, steps1, 4);
    var states2, steps2 := StaleStartRepeatsOutcome(states1[4], 1);
    PathsConcat(states1, steps1, states2, steps2);
    states, steps := states1[..4] + states2, steps1 + steps2;
  }
}
