/** The attempt budget over the interleavings of `Lifecycle`: what sessions, handed any stored version,
    add to the work of an execution. */
module AttemptRuns {
  import opened Text
  import opened ExecutionTypes
  import opened ExecutionStore
  import opened RouterHistory
  import opened RetrySchedule
  import opened L = Lifecycle

  // ----- what a write does to the work ----------------------------------------------------

  /** The dispatches that all sessions together are meant to make. */
  function Cap(mode: Mode, r: Record): nat {
    if mode.ProviderTask? then PlainAttempts(r) else AttemptCap(r)
  }

  predicate SameAdmission(a: Record, b: Record) {
    a.plan == b.plan && a.request.retryPolicy == b.request.retryPolicy && a.target.subject == b.target.subject
  }

  /** Transitions, events, outcomes, cancellations and everything that sinks and observers write. */
  predicate KeepsWork(base: Record, next: Record) {
    && SameAdmission(base, next) && next.attempts == base.attempts
    && next.retryCycles == base.retryCycles && next.completedRounds == base.completedRounds
  }

  /** The write that records a dispatch. Failover may move the target with it. */
  predicate AddsAttempt(base: Record, next: Record) {
    && SameAdmission(base, next)
    && |next.attempts| == |base.attempts| + 1 && base.attempts <= next.attempts
    && next.attempts[|base.attempts|].target == base.target
    && next.retryCycles == base.retryCycles && next.completedRounds == base.completedRounds
  }

  /** The end of a router round, or the schedule of a retry. */
  predicate UsesAttempt(base: Record, next: Record, payloads: seq<Payload>) {
    && SameAdmission(base, next) && next.attempts == base.attempts
    && (|| (next.retryCycles == base.retryCycles && next.completedRounds == base.completedRounds + 1)
        || (&& next.retryCycles == base.retryCycles + 1 && next.completedRounds == base.completedRounds
            && ScheduleWrite(base, next, payloads)))
  }

  /** What the session in the lease may still do: dispatches that are left to it, and whether its last
      attempt has not been used by a round or a retry cycle. */
  datatype Ledger = Ledger(left: nat, open: bool)

  datatype Working = Working(system: System, ledger: Ledger)

  /** The session loop: an attempt for each dispatch it has room for, a round or a schedule only after an
      attempt of its own. Nobody else touches the work. */
  ghost predicate Works(s: System, step: Step, l: Ledger) {
    match step
    case SessionWrite(next, _, payloads) =>
      && !s.session.NoSession?
      && var base := s.session.base;
         || KeepsWork(base, next)
         || (AddsAttempt(base, next) && l.left > 0 && (s.session.Dispatching? || s.mode.ProviderTask?))
         || (UsesAttempt(base, next, payloads) && l.open)
    case HolderWrite(holder, next, _, _) => holder in s.holders && KeepsWork(s.holders[holder], next)
    case _ => true
  }

  /** The ledger afterwards. A session computes its room from the record that it was handed. */
  ghost function Booked(s: System, step: Step, l: Ledger): Ledger
    requires Enabled(s, step)
  {
    match step
    case Begin(version) => Ledger(Room(s.versions[version], Cap(s.mode, s.versions[version])), false)
    case SessionWrite(next, first, payloads) =>
      var base := s.session.base;
      if !L.Accepted(s, base, next, first, payloads) then Ledger(0, false)
      else if AddsAttempt(base, next) then Ledger(if l.left > 0 then l.left - 1 else 0, true)
      else if UsesAttempt(base, next, payloads) then Ledger(l.left, false)
      else l
    case _ => l
  }

  ghost predicate WorkMoves(a: Working, step: Step, b: Working) {
    && Moves(a.system, step, b.system) && Works(a.system, step, a.ledger)
    && b.ledger == Booked(a.system, step, a.ledger)
  }

  ghost predicate IsWorkPath(run: seq<Working>, steps: seq<Step>) {
    && |run| == |steps| + 1
    && forall i | 0 <= i < |steps| :: WorkMoves(run[i], steps[i], run[i + 1])
  }

  predicate NothingDone(r: Record) {
    r.attempts == [] && r.retryCycles == 0 && r.completedRounds == 0
  }

  /** A run from admission. */
  ghost predicate IsWorkRun(run: seq<Working>, steps: seq<Step>) {
    && IsWorkPath(run, steps) && Initial(run[0].system)
    && NothingDone(run[0].system.cell.record) && run[0].ledger == Ledger(0, false)
  }

  function Systems(run: seq<Working>): (systems: seq<System>)
    ensures |systems| == |run| && forall i | 0 <= i < |run| :: systems[i] == run[i].system
  {
    seq(|run|, i requires 0 <= i < |run| => run[i].system)
  }

  lemma {:induction false} WorkRunsAreRuns(run: seq<Working>, steps: seq<Step>)
    requires IsWorkRun(run, steps)
    ensures IsRun(Systems(run), steps)
  {
    hide Moves, Initial, Works, Booked;
    forall i | 0 <= i < |steps| ensures Moves(Systems(run)[i], steps[i], Systems(run)[i + 1]) {
      assert WorkMoves(run[i], steps[i], run[i + 1]);
    }
  }

  // ----- every use has an attempt of its own ----------------------------------------------

  function Uses(r: Record): nat {
    r.retryCycles + r.completedRounds
  }

  /** What a version keeps of the record that was admitted. */
  ghost predicate Grounded(first: Record, r: Record) {
    && SameAdmission(first, r) && Uses(r) <= |r.attempts|
    && forall a <- r.attempts :: a.target.subject == first.target.subject
  }

  ghost predicate WorkOk(w: Working, first: Record) {
    var s := w.system;
    && VersionsOk(s)
    && (forall v <- s.versions :: Grounded(first, v) && v.attempts <= s.cell.record.attempts)
    && (w.ledger.open && !s.session.NoSession? ==>
          Uses(s.session.base) < |s.session.base.attempts| && Uses(s.cell.record) < |s.cell.record.attempts|)
  }

  lemma {:induction false} CellIsGrounded(w: Working, first: Record)
    requires WorkOk(w, first)
    ensures Grounded(first, w.system.cell.record)
  {
    hide Grounded, HistoryOk, HandsKnown, Contiguous;
    assert w.system.cell.record in w.system.versions;
  }

  lemma {:induction false} WriteIsGrounded(first: Record, base: Record, next: Record)
    requires Grounded(first, base)
    ensures KeepsWork(base, next) || AddsAttempt(base, next) ==> Grounded(first, next)
    ensures KeepsWork(base, next) || AddsAttempt(base, next) ==> base.attempts <= next.attempts
    ensures AddsAttempt(base, next) ==> Uses(next) < |next.attempts|
    ensures KeepsWork(base, next) ==> Uses(next) == Uses(base) && next.attempts == base.attempts
  {
    if AddsAttempt(base, next) {
      forall a <- next.attempts ensures a.target.subject == first.target.subject {
        var i :| 0 <= i < |next.attempts| && next.attempts[i] == a;
        if i < |base.attempts| {
          assert base.attempts[i] in base.attempts;
        }
      }
    }
  }

  lemma {:induction false} UseIsGrounded(first: Record, base: Record, next: Record, payloads: seq<Payload>)
    requires Grounded(first, base) && UsesAttempt(base, next, payloads) && Uses(base) < |base.attempts|
    ensures Grounded(first, next) && next.attempts == base.attempts && Uses(next) == Uses(base) + 1
  {
    hide ScheduleWrite;
  }

  lemma {:induction false} SessionWriteKeepsWork(w: Working, step: Step, first: Record)
    requires WorkOk(w, first) && step.SessionWrite? && Enabled(w.system, step)
    requires Works(w.system, step, w.ledger)
    requires L.Accepted(w.system, w.system.session.base, step.next, step.first, step.payloads)
    ensures WorkOk(Working(Take(w.system, step), Booked(w.system, step, w.ledger)), first)
  {
    hide Grounded, RecordValid, SaveAccepted, HistoryOk, HandsKnown, Contiguous, SessionWrites, HolderWrites,
      KeepsWork, AddsAttempt, UsesAttempt, Uses;
    var s, next := w.system, step.next;
    var base := s.session.base;
    StepKeepsVersions(s, step);
    SessionBaseIsKnown(s);
    StaleWriteLoses(s, base, next, step.first, step.payloads);
    CellIsGrounded(w, first);
    WriteIsGrounded(first, base, next);
    if UsesAttempt(base, next, step.payloads) && w.ledger.open {
      UseIsGrounded(first, base, next, step.payloads);
    }
    KindsDiffer(base, next, step.payloads);
  }

  lemma {:induction false} KindsDiffer(base: Record, next: Record, payloads: seq<Payload>)
    ensures !(AddsAttempt(base, next) && UsesAttempt(base, next, payloads))
    ensures !(AddsAttempt(base, next) && KeepsWork(base, next))
    ensures !(UsesAttempt(base, next, payloads) && KeepsWork(base, next))
  {
    hide ScheduleWrite;
  }

  lemma {:induction false} SessionBaseIsKnown(s: System)
    requires VersionsOk(s) && !s.session.NoSession?
    ensures Known(s.versions, s.session.base)
  {
    hide HistoryOk, Contiguous;
  }

  lemma {:induction false} HolderWriteKeepsWork(w: Working, step: Step, first: Record)
    requires WorkOk(w, first) && step.HolderWrite? && Enabled(w.system, step)
    requires Works(w.system, step, w.ledger)
    requires L.Accepted(w.system, w.system.holders[step.holder], step.next, step.first, step.payloads)
    ensures WorkOk(Working(Take(w.system, step), w.ledger), first)
  {
    hide Grounded, RecordValid, SaveAccepted, HistoryOk, HandsKnown, Contiguous, SessionWrites, HolderWrites,
      KeepsWork, Uses;
    var s, next := w.system, step.next;
    var base := s.holders[step.holder];
    StepKeepsVersions(s, step);
    HoldersAreKnown(s, step.holder);
    StaleWriteLoses(s, base, next, step.first, step.payloads);
    CellIsGrounded(w, first);
    WriteIsGrounded(first, base, next);
  }

  lemma {:induction false} StepKeepsWork(a: Working, step: Step, b: Working, first: Record)
    requires WorkOk(a, first) && WorkMoves(a, step, b)
    ensures WorkOk(b, first)
  {
    hide Grounded, RecordValid, SaveAccepted, HistoryOk, HandsKnown, Contiguous, SessionWrites, HolderWrites,
      KeepsWork, AddsAttempt, UsesAttempt, Uses, Room, Cap;
    StepKeepsVersions(a.system, step);
    if step.SessionWrite? {
      if L.Accepted(a.system, a.system.session.base, step.next, step.first, step.payloads) {
        SessionWriteKeepsWork(a, step, first);
      }
    } else if step.HolderWrite? {
      if L.Accepted(a.system, a.system.holders[step.holder], step.next, step.first, step.payloads) {
        HolderWriteKeepsWork(a, step, first);
      }
    }
  }

  lemma {:induction false} RunsKeepWork(run: seq<Working>, steps: seq<Step>, n: nat)
    requires IsWorkRun(run, steps) && n < |run|
    ensures WorkOk(run[n], run[0].system.cell.record)
    ensures run[n].system.mode == run[0].system.mode
  {
    hide WorkOk, WorkMoves, Initial;
    if n == 0 {
      StartsGrounded(run, steps);
    } else {
      RunsKeepWork(run, steps, n - 1);
      assert WorkMoves(run[n - 1], steps[n - 1], run[n]);
      StepKeepsWork(run[n - 1], steps[n - 1], run[n], run[0].system.cell.record);
      StepKeepsMode(run[n - 1], steps[n - 1], run[n]);
    }
  }

  lemma {:induction false} StartsGrounded(run: seq<Working>, steps: seq<Step>)
    requires IsWorkRun(run, steps)
    ensures WorkOk(run[0], run[0].system.cell.record)
  {
    hide RecordValid, WorkMoves;
  }

  lemma {:induction false} StepKeepsMode(a: Working, step: Step, b: Working)
    requires WorkMoves(a, step, b)
    ensures b.system.mode == a.system.mode
  {
    hide L.Accepted, SessionWrites, HolderWrites, Works, Booked;
  }

  /** Over every interleaving, stale starts included: attempts are numbered and keep the subject of the
      first target, and every retry cycle and every completed round has an attempt of its own. */
  lemma {:induction false} EveryUseHasAnAttempt(run: seq<Working>, steps: seq<Step>, n: nat)
    requires IsWorkRun(run, steps) && n < |run|
    ensures var (first, r) := (run[0].system.cell.record, run[n].system.cell.record);
            && r.plan == first.plan && r.request.retryPolicy == first.request.retryPolicy
            && r.target.subject == first.target.subject
            && r.retryCycles + r.completedRounds <= |r.attempts|
            && (forall i | 0 <= i < |r.attempts| ::
                  r.attempts[i].target.subject == first.target.subject && r.attempts[i].sequence == i + 1)
  {
    hide IsRun, WorkOk, IsWorkRun;
    var first, r := run[0].system.cell.record, run[n].system.cell.record;
    RunsKeepWork(run, steps, n);
    CellIsGrounded(run[n], first);
    WorkRunsAreRuns(run, steps);
    RunsKeepRecordsValid(Systems(run), steps, n);
    forall i | 0 <= i < |r.attempts| ensures r.attempts[i].target.subject == first.target.subject {
      assert r.attempts[i] in r.attempts;
    }
  }

  /** How often the run put the execution back on the schedule. */
  function Reschedules(run: seq<Working>): nat {
    if |run| < 2 then 0
    else
      var a, b := run[|run| - 2].system.cell.record, run[|run| - 1].system.cell.record;
      Reschedules(run[..|run| - 1]) + if b.retryCycles > a.retryCycles then 1 else 0
  }

  lemma {:induction false} StepReschedulesOnce(a: Working, step: Step, b: Working, first: Record)
    requires WorkOk(a, first) && WorkMoves(a, step, b)
    ensures a.system.cell.record.retryCycles <= b.system.cell.record.retryCycles
            <= a.system.cell.record.retryCycles + 1
  {
    hide Grounded, RecordValid, SaveAccepted, HistoryOk, HandsKnown, Contiguous, SessionWrites, HolderWrites, Booked;
    if step.SessionWrite? {
      SessionBaseIsKnown(a.system);
      StaleWriteLoses(a.system, a.system.session.base, step.next, step.first, step.payloads);
    } else if step.HolderWrite? {
      HoldersAreKnown(a.system, step.holder);
      StaleWriteLoses(a.system, a.system.holders[step.holder], step.next, step.first, step.payloads);
    }
  }

  /** The retry cycles of the record count the reschedules, so no run reschedules more often than it
      dispatches. */
  lemma {:induction false} ReschedulesAreCounted(run: seq<Working>, steps: seq<Step>)
    requires IsWorkRun(run, steps)
    ensures Reschedules(run) == run[|run| - 1].system.cell.record.retryCycles
    ensures Reschedules(run) <= |run[|run| - 1].system.cell.record.attempts|
  {
    hide WorkOk, WorkMoves, Initial;
    if steps != [] {
      var n := |steps| - 1;
      ShorterRun(run, steps);
      ReschedulesAreCounted(run[..n + 1], steps[..n]);
      RunsKeepWork(run, steps, n);
      assert WorkMoves(run[n], steps[n], run[n + 1]);
      StepReschedulesOnce(run[n], steps[n], run[n + 1], run[0].system.cell.record);
    }
    EveryUseHasAnAttempt(run, steps, |steps|);
  }

  lemma {:induction false} ShorterRun(run: seq<Working>, steps: seq<Step>)
    requires IsWorkRun(run, steps) && steps != []
    ensures IsWorkRun(run[..|run| - 1], steps[..|steps| - 1])
  {
    hide WorkMoves, Initial;
    var shorter, fewer := run[..|run| - 1], steps[..|steps| - 1];
    forall i | 0 <= i < |fewer| ensures WorkMoves(shorter[i], fewer[i], shorter[i + 1]) {
      assert WorkMoves(run[i], steps[i], run[i + 1]);
    }
  }

  // ----- the cap --------------------------------------------------------------------------

  /** The guard: a streaming session that is handed a running record is handed the attempts of the stored
      one. */
  ghost predicate HandsAttempts(s: System, step: Step) {
    step.Begin? && step.version < |s.versions| && s.mode == Synchronous(true)
    && s.versions[step.version].status == Running
    ==> |s.versions[step.version].attempts| == |s.cell.record.attempts|
  }

  /** Whatever a session may still write stays within the cap. */
  ghost predicate WithinCap(w: Working, cap: nat) {
    var s := w.system;
    && (forall v <- s.versions :: |v.attempts| <= cap && Cap(s.mode, v) == cap)
    && (!s.session.NoSession? ==> |s.session.base.attempts| + w.ledger.left <= cap)
    && (s.mode == Synchronous(true) && RunningInHand(s.session) ==>
          |s.cell.record.attempts| + w.ledger.left <= cap)
  }

  lemma {:induction false} SameCap(mode: Mode, a: Record, b: Record)
    requires SameAdmission(a, b)
    ensures Cap(mode, a) == Cap(mode, b)
  {
    hide Ceilings, Bindings;
  }

  lemma {:induction false} WriteStaysWithin(base: Record, next: Record, payloads: seq<Payload>, mode: Mode)
    requires KeepsWork(base, next) || AddsAttempt(base, next) || UsesAttempt(base, next, payloads)
    ensures Cap(mode, next) == Cap(mode, base)
    ensures |next.attempts| == |base.attempts| + if AddsAttempt(base, next) then 1 else 0
  {
    hide ScheduleWrite, Cap;
    SameCap(mode, base, next);
  }

  lemma {:induction false} SessionStaysWithin(w: Working, step: Step, first: Record, cap: nat)
    requires WorkOk(w, first) && WithinCap(w, cap) && step.SessionWrite? && Enabled(w.system, step)
    requires Works(w.system, step, w.ledger)
    requires L.Accepted(w.system, w.system.session.base, step.next, step.first, step.payloads)
    ensures WithinCap(Working(Take(w.system, step), Booked(w.system, step, w.ledger)), cap)
  {
    hide Grounded, RecordValid, SaveAccepted, HistoryOk, HandsKnown, Contiguous, SessionWrites, HolderWrites,
      KeepsWork, AddsAttempt, UsesAttempt, Cap, Room;
    var s := w.system;
    SessionBaseIsKnown(s);
    StaleWriteLoses(s, s.session.base, step.next, step.first, step.payloads);
    assert s.cell.record in s.versions;
    WriteStaysWithin(s.session.base, step.next, step.payloads, s.mode);
    KindsDiffer(s.session.base, step.next, step.payloads);
  }

  lemma {:induction false} HolderStaysWithin(w: Working, step: Step, first: Record, cap: nat)
    requires WorkOk(w, first) && WithinCap(w, cap) && step.HolderWrite? && Enabled(w.system, step)
    requires Works(w.system, step, w.ledger)
    requires L.Accepted(w.system, w.system.holders[step.holder], step.next, step.first, step.payloads)
    ensures WithinCap(Working(Take(w.system, step), w.ledger), cap)
  {
    hide Grounded, RecordValid, SaveAccepted, HistoryOk, HandsKnown, Contiguous, SessionWrites, HolderWrites,
      Cap, Room;
    var s := w.system;
    HoldersAreKnown(s, step.holder);
    StaleWriteLoses(s, s.holders[step.holder], step.next, step.first, step.payloads);
    assert s.cell.record in s.versions;
    SameCap(s.mode, s.holders[step.holder], step.next);
  }

  lemma {:induction false} BeginStaysWithin(w: Working, version: nat, first: Record, cap: nat)
    requires WorkOk(w, first) && WithinCap(w, cap) && Enabled(w.system, Begin(version))
    requires HandsAttempts(w.system, Begin(version))
    ensures WithinCap(Working(Take(w.system, Begin(version)), Booked(w.system, Begin(version), w.ledger)), cap)
  {
    hide Grounded, HistoryOk, HandsKnown, Contiguous, SessionWrites, HolderWrites, Cap;
    assert w.system.versions[version] in w.system.versions;
  }

  lemma {:induction false} RefreshStaysWithin(w: Working, first: Record, cap: nat)
    requires WorkOk(w, first) && WithinCap(w, cap) && Enabled(w.system, Refresh)
    ensures WithinCap(Working(Take(w.system, Refresh), w.ledger), cap)
  {
    hide Grounded, HistoryOk, HandsKnown, Contiguous, SessionWrites, HolderWrites, Cap;
  }

  lemma {:induction false} StepStaysWithin(a: Working, step: Step, b: Working, first: Record, cap: nat)
    requires WorkOk(a, first) && WithinCap(a, cap) && WorkMoves(a, step, b) && HandsAttempts(a.system, step)
    ensures WithinCap(b, cap)
  {
    hide WorkOk, L.Accepted, SessionWrites, HolderWrites, KeepsWork, AddsAttempt, UsesAttempt, Cap, Room,
      HandsAttempts;
    match step
    case Begin(version) => BeginStaysWithin(a, version, first, cap);
    case Refresh => RefreshStaysWithin(a, first, cap);
    case SessionWrite(next, f, payloads) =>
      if L.Accepted(a.system, a.system.session.base, next, f, payloads) {
        SessionStaysWithin(a, step, first, cap);
      }
    case HolderWrite(holder, next, f, payloads) =>
      if L.Accepted(a.system, a.system.holders[holder], next, f, payloads) {
        HolderStaysWithin(a, step, first, cap);
      }
    case _ =>
  }

  /** Safety over all guarded interleavings, with crashes and recoveries from any other stale record:
      attempts never pass the cap, which only the admitted request and plan determine. */
  lemma {:induction false} AttemptsStayWithinCap(run: seq<Working>, steps: seq<Step>, n: nat)
    requires IsWorkRun(run, steps) && n < |run|
    requires forall i | 0 <= i < |steps| :: HandsAttempts(run[i].system, steps[i])
    ensures WithinCap(run[n], Cap(run[0].system.mode, run[0].system.cell.record))
    ensures |run[n].system.cell.record.attempts| <= Cap(run[0].system.mode, run[0].system.cell.record)
  {
    hide WorkOk, WorkMoves, Cap, HandsAttempts, RecordValid;
    var first := run[0].system.cell.record;
    var cap := Cap(run[0].system.mode, first);
    if n > 0 {
      AttemptsStayWithinCap(run, steps, n - 1);
      RunsKeepWork(run, steps, n - 1);
      assert WorkMoves(run[n - 1], steps[n - 1], run[n]);
      StepStaysWithin(run[n - 1], steps[n - 1], run[n], first, cap);
    }
    RunsKeepWork(run, steps, n);
    CellIsAVersion(run[n], first);
  }

  lemma {:induction false} CellIsAVersion(w: Working, first: Record)
    requires WorkOk(w, first)
    ensures w.system.cell.record in w.system.versions
  {
    hide Grounded, HistoryOk, HandsKnown, Contiguous;
  }

  /** So a guarded run reschedules no more often than the cap allows. */
  lemma {:induction false} SchedulerIsBounded(run: seq<Working>, steps: seq<Step>)
    requires IsWorkRun(run, steps)
    requires forall i | 0 <= i < |steps| :: HandsAttempts(run[i].system, steps[i])
    ensures Reschedules(run) <= Cap(run[0].system.mode, run[0].system.cell.record)
  {
    hide IsWorkRun, HandsAttempts, WithinCap, Cap;
    WorkRunHasStates(run, steps);
    ReschedulesAreCounted(run, steps);
    AttemptsStayWithinCap(run, steps, |steps|);
  }

  lemma {:induction false} WorkRunHasStates(run: seq<Working>, steps: seq<Step>)
    requires IsWorkRun(run, steps)
    ensures |run| == |steps| + 1
  {
    hide WorkMoves, Initial;
  }

  // ----- the guard is needed wherever it fails --------------------------------------------

  lemma {:induction false} PathsJoin(run1: seq<Working>, steps1: seq<Step>, run2: seq<Working>, steps2: seq<Step>)
    requires IsWorkPath(run1, steps1) && IsWorkPath(run2, steps2) && run1[|steps1|] == run2[0]
    ensures IsWorkPath(run1[..|steps1|] + run2, steps1 + steps2)
  {
    hide WorkMoves;
    var run, steps := run1[..|steps1|] + run2, steps1 + steps2;
    forall i | 0 <= i < |steps| ensures WorkMoves(run[i], steps[i], run[i + 1]) {
      if i < |steps1| {
        assert WorkMoves(run1[i], steps1[i], run1[i + 1]);
      } else {
        assert WorkMoves(run2[i - |steps1|], steps2[i - |steps1|], run2[i - |steps1| + 1]);
      }
    }
  }

  /** persistAttempt: a failed dispatch that failover follows. */
  function Tried(r: Record): Record {
    r.(revision := r.revision + 1, attempts := r.attempts + [Attempt(|r.attempts| + 1, r.target, false, false)])
  }

  function TryStep(s: System): Step {
    SessionWrite(Tried(s.cell.record), |s.cell.log| + 1, [AttemptCompleted(|s.cell.record.attempts| + 1)])
  }

  lemma {:induction false} TriedIsValid(r: Record)
    requires RecordValid(r) && r.status != WaitingRetry
    ensures RecordValid(Tried(r))
  {
  }

  /** The store takes the attempt whatever the status says, unless the record waits. */
  lemma {:induction false} TryIsAccepted(w: Working)
    requires RecordValid(w.system.cell.record) && w.system.cell.record.status != WaitingRetry
    requires w.system.session == Dispatching(w.system.cell.record) && w.ledger.left > 0
    ensures Enabled(w.system, TryStep(w.system))
    ensures var next := Tried(w.system.cell.record);
            var after := Working(Take(w.system, TryStep(w.system)), Ledger(w.ledger.left - 1, true));
            && WorkMoves(w, TryStep(w.system), after)
            && RecordValid(next) && after.system.cell.record == next
            && after.system.session == Dispatching(next)
  {
    hide RecordValid, SaveAccepted, Outcomes;
    var s := w.system;
    var base, next, payload := s.cell.record, Tried(s.cell.record), AttemptCompleted(|s.cell.record.attempts| + 1);
    TriedIsValid(base);
    NextIsAccepted(s, next, payload);
    assert QuietWrite(base, next, [payload]);
    assert AddsAttempt(base, next);
    TryIsNoUse(base, next, payload);
  }

  lemma {:induction false} TryIsNoUse(base: Record, next: Record, payload: Payload)
    requires payload.AttemptCompleted?
    ensures !SuccessWrite(base, next, [payload])
  {
    assert [payload][0] == payload;
  }

  /** A session with room for `k` dispatches can record `k` attempts. */
  lemma {:induction false} Tries(w: Working, k: nat) returns (path: seq<Working>, steps: seq<Step>)
    requires RecordValid(w.system.cell.record) && w.system.cell.record.status != WaitingRetry
    requires w.system.session == Dispatching(w.system.cell.record) && k <= w.ledger.left
    ensures IsWorkPath(path, steps) && |steps| == k && path[0] == w
    ensures |path[k].system.cell.record.attempts| == |w.system.cell.record.attempts| + k
    decreases k
  {
    hide RecordValid, Take, Enabled, WorkMoves;
    if k == 0 {
      path, steps := [w], [];
    } else {
      TryIsAccepted(w);
      var after := Working(Take(w.system, TryStep(w.system)), Ledger(w.ledger.left - 1, true));
      var rest, more := Tries(after, k - 1);
      path, steps := [w] + rest, [TryStep(w.system)] + more;
      OneMore(w, TryStep(w.system), rest, more);
    }
  }

  lemma {:induction false} OneMore(w: Working, step: Step, rest: seq<Working>, more: seq<Step>)
    requires IsWorkPath(rest, more) && WorkMoves(w, step, rest[0])
    ensures IsWorkPath([w] + rest, [step] + more)
  {
    hide WorkMoves;
    var path, steps := [w] + rest, [step] + more;
    forall i | 0 <= i < |steps| ensures WorkMoves(path[i], steps[i], path[i + 1]) {
      if i > 0 {
        assert WorkMoves(rest[i - 1], more[i - 1], rest[i - 1 + 1]);
      }
    }
  }

  function Cancelling(r: Record): Record {
    r.(revision := r.revision + 1, status := Cancelled, retry := None)
  }

  function CancelStep(s: System): Step {
    HolderWrite(0, Cancelling(s.cell.record), |s.cell.log| + 1, [Lifecycle(ExecutionCancelled, Cancelled, false)])
  }

  lemma {:induction false} CancellingIsValid(r: Record)
    requires RecordValid(r) && r.status == WaitingRetry
    ensures RecordValid(Cancelling(r))
  {
  }

  /** The caller cancels a waiting execution while a session is under way. */
  lemma {:induction false} Cancels(w: Working) returns (path: seq<Working>, steps: seq<Step>)
    requires RecordValid(w.system.cell.record) && w.system.cell.record.status == WaitingRetry
    ensures IsWorkPath(path, steps) && path[0] == w
    ensures var t := path[|steps|];
            && t.ledger == w.ledger && t.system.session == w.system.session && t.system.mode == w.system.mode
            && t.system.cell.record == Cancelling(w.system.cell.record) && RecordValid(t.system.cell.record)
  {
    hide RecordValid, SaveAccepted, Outcomes, SessionWrites;
    var s := w.system;
    var base, next := s.cell.record, Cancelling(s.cell.record);
    var payload := Lifecycle(ExecutionCancelled, Cancelled, false);
    var s1 := s.(holders := s.holders[0 := base]);
    CancellingIsValid(base);
    NextIsAccepted(s1, next, payload);
    assert CancelWrite(base, next, [payload]);
    var w1 := Working(s1, w.ledger);
    var w2 := Working(Take(s1, CancelStep(s1)), w.ledger);
    assert WorkMoves(w, HolderRead(0), w1);
    assert WorkMoves(w1, CancelStep(s1), w2);
    path, steps := [w, w1, w2], [HolderRead(0), CancelStep(s1)];
  }

  /** The session that recovery starts from the stale running record: its room is that of the record in
      hand, and it finds itself working on the stored one. */
  lemma {:induction false} StaleSession(w: Working, version: nat) returns (path: seq<Working>, steps: seq<Step>)
    requires RecordValid(w.system.cell.record) && w.system.mode == Synchronous(true)
    requires w.system.session.NoSession? && version < |w.system.versions|
    requires w.system.versions[version].status == Running
    ensures IsWorkPath(path, steps) && path[0] == w && steps != [] && steps[0] == Begin(version)
    ensures var t := path[|steps|];
            && RecordValid(t.system.cell.record) && t.system.cell.record.status != WaitingRetry
            && t.system.cell.record.attempts == w.system.cell.record.attempts
            && t.system.session == Dispatching(t.system.cell.record)
            && t.ledger.left == Room(w.system.versions[version], AttemptCap(w.system.versions[version]))
  {
    hide RecordValid, Take, Enabled, Room, AttemptCap;
    var s := w.system;
    BeginsRunning(s, version);
    var base := s.versions[version];
    var l := Ledger(Room(base, AttemptCap(base)), false);
    var w1 := Working(s.(session := Preparing(base)), l);
    var w2 := Working(s.(session := Dispatching(base)), l);
    path, steps := [w, w1, w2], [Begin(version), EnterRunning];
    assert WorkMoves(w, Begin(version), w1);
    assert WorkMoves(w1, EnterRunning, w2);
    TwoMoves(w, Begin(version), w1, EnterRunning, w2);
    var last := w2;
    if s.cell.record.status == WaitingRetry {
      var more, others := Cancels(w2);
      PathsJoin(path, steps, more, others);
      path, steps, last := path[..2] + more, steps + others, more[|others|];
    }
    Refreshes(last.system);
    var refreshed := Working(last.system.(session := Dispatching(last.system.cell.record)), last.ledger);
    assert WorkMoves(last, Refresh, refreshed);
    SingleMove(last, Refresh, refreshed);
    PathsJoin(path, steps, [last, refreshed], [Refresh]);
    path, steps := path[..|steps|] + [last, refreshed], steps + [Refresh];
  }

  lemma {:induction false} SingleMove(a: Working, step: Step, b: Working)
    requires WorkMoves(a, step, b)
    ensures IsWorkPath([a, b], [step])
  {
    hide WorkMoves;
  }

  lemma {:induction false} TwoMoves(a: Working, step1: Step, b: Working, step2: Step, c: Working)
    requires WorkMoves(a, step1, b) && WorkMoves(b, step2, c)
    ensures IsWorkPath([a, b, c], [step1, step2])
  {
    hide WorkMoves;
  }

  lemma {:induction false} StaleVersion(w: Working, version: nat, first: Record)
    requires WorkOk(w, first) && version < |w.system.versions|
    requires |w.system.versions[version].attempts| != |w.system.cell.record.attempts|
    ensures |w.system.versions[version].attempts| < |w.system.cell.record.attempts|
    ensures AttemptCap(w.system.versions[version]) == AttemptCap(first)
  {
    hide HistoryOk, HandsKnown, Contiguous, Ceilings, Bindings;
    assert w.system.versions[version] in w.system.versions;
  }

  /** The guard is exact: in any run, every start that it refuses leads to a stored record whose attempts
      pass the cap, whatever the status of the record is. */
  lemma {:induction false} RefusedStartPassesCap(run: seq<Working>, steps: seq<Step>, version: nat)
    returns (longer: seq<Working>, more: seq<Step>)
    requires IsWorkRun(run, steps)
    requires Enabled(run[|steps|].system, Begin(version)) && !HandsAttempts(run[|steps|].system, Begin(version))
    ensures IsWorkRun(longer, steps + more) && more != [] && more[0] == Begin(version)
    ensures longer[..|steps|] == run[..|steps|] && longer[|steps|] == run[|steps|]
    ensures |longer[|steps + more|].system.cell.record.attempts|
            > Cap(run[0].system.mode, run[0].system.cell.record)
  {
    hide RecordValid, WorkMoves, Take, Grounded, Ceilings, Bindings;
    var w := run[|steps|];
    var first, base := run[0].system.cell.record, w.system.versions[version];
    WorkRunHasStates(run, steps);
    RunsKeepWork(run, steps, |steps|);
    WorkRunsAreRuns(run, steps);
    RunsKeepRecordsValid(Systems(run), steps, |steps|);
    StaleVersion(w, version, first);
    var path, others := StaleSession(w, version);
    var t := path[|others|];
    var cap := AttemptCap(first);
    var k := if |t.system.cell.record.attempts| > cap then 0 else cap + 1 - |t.system.cell.record.attempts|;
    var tail, tries := Tries(t, k);
    PathsJoin(path, others, tail, tries);
    PathsJoin(run, steps, path[..|others|] + tail, others + tries);
    longer, more := run[..|steps|] + (path[..|others|] + tail), others + tries;
  }

  lemma {:induction false} BeginsWork(w: Working)
    requires Initial(w.system) && NothingDone(w.system.cell.record) && w.system.mode.Synchronous?
    ensures WorkMoves(w, Begin(0), Working(w.system.(session := Preparing(w.system.cell.record)),
                                           Ledger(AttemptCap(w.system.cell.record), false)))
  {
    hide RecordValid, Ceilings, Bindings, SessionWrites, HolderWrites;
    FirstStart(w.system);
  }

  lemma {:induction false} RunningKeepsWork(w: Working)
    requires RecordValid(w.system.cell.record) && w.system.session == Preparing(w.system.cell.record)
    requires w.system.cell.record.status == Status.Accepted
    requires Enabled(w.system, RunningStep(w.system))
    ensures WorkMoves(w, RunningStep(w.system), Working(Take(w.system, RunningStep(w.system)), w.ledger))
  {
    hide RecordValid, SaveAccepted, Outcomes, SessionWrites, HolderWrites;
    RunningStepAccepted(w.system);
    KindsDiffer(w.system.cell.record, RunningStep(w.system).next, RunningStep(w.system).payloads);
  }

  lemma {:induction false} SuccessAddsAttempt(w: Working)
    requires RecordValid(w.system.cell.record) && w.system.session == Dispatching(w.system.cell.record)
    requires w.system.cell.record.status == Running && w.ledger.left > 0
    requires Enabled(w.system, SuccessStep(w.system))
    ensures WorkMoves(w, SuccessStep(w.system),
                      Working(Take(w.system, SuccessStep(w.system)), Ledger(w.ledger.left - 1, true)))
  {
    hide RecordValid, SaveAccepted, Outcomes, SessionWrites, HolderWrites;
    SuccessStepAccepted(w.system);
    assert AddsAttempt(w.system.cell.record, Succeeding(w.system.cell.record));
  }

  /** An admitted streaming request runs and succeeds with its first dispatch. */
  lemma {:induction false} FirstDispatchSucceeds(w: Working) returns (run: seq<Working>, steps: seq<Step>)
    requires Initial(w.system) && w.system.mode == Synchronous(true) && NothingDone(w.system.cell.record)
    requires w.ledger == Ledger(0, false) && AttemptCap(w.system.cell.record) >= 1
    ensures IsWorkRun(run, steps) && run[0] == w && |steps| == 4
    ensures var t := run[4].system;
            && t.session.NoSession? && t.mode == Synchronous(true) && |t.versions| == 3
            && t.versions[1].status == Running && t.versions[1].attempts == [] && |t.cell.record.attempts| == 1
  {
    hide RecordValid, SaveAccepted, AttemptCap, Outcomes, Enabled, Take;
    var s := w.system;
    FirstStart(s);
    var s1 := s.(session := Preparing(s.cell.record));
    RunningStepAccepted(s1);
    var s2 := Take(s1, RunningStep(s1));
    var s3 := s2.(session := Dispatching(s2.cell.record));
    EntersRunning(s2);
    SuccessStepAccepted(s3);
    var s4 := Take(s3, SuccessStep(s3));
    var l := Ledger(AttemptCap(s.cell.record), false);
    run := [w, Working(s1, l), Working(s2, l), Working(s3, l), Working(s4, Ledger(l.left - 1, true))];
    steps := [Begin(0), RunningStep(s1), EnterRunning, SuccessStep(s3)];
    BeginsWork(w);
    RunningKeepsWork(Working(s1, l));
    SuccessAddsAttempt(Working(s3, l));
    assert WorkMoves(run[2], steps[2], run[3]);
    TwoMoves(run[0], steps[0], run[1], steps[1], run[2]);
    TwoMoves(run[2], steps[2], run[3], steps[3], run[4]);
    PathsJoin([run[0], run[1], run[2]], [steps[0], steps[1]], [run[2], run[3], run[4]], [steps[2], steps[3]]);
    assert [run[0], run[1], run[2]][..2] + [run[2], run[3], run[4]] == run;
  }

  /** The failing input: every admitted streaming request with room for a dispatch has a run in which its
      attempts pass the cap, so one that allows a single attempt ends with two. */
  lemma {:induction false} StreamingRequestsMayPassCap(w: Working) returns (run: seq<Working>, steps: seq<Step>)
    requires Initial(w.system) && w.system.mode == Synchronous(true) && NothingDone(w.system.cell.record)
    requires w.ledger == Ledger(0, false) && AttemptCap(w.system.cell.record) >= 1
    ensures IsWorkRun(run, steps) && run[0] == w
    ensures |run[|steps|].system.cell.record.attempts| > AttemptCap(w.system.cell.record)
  {
    hide IsWorkRun, AttemptCap, Initial, Take;
    var once, first := FirstDispatchSucceeds(w);
    WorkRunHasStates(once, first);
    BeginEnabled(once[4].system, 1);
    var longer, more := RefusedStartPassesCap(once, first, 1);
    WorkRunHasStates(longer, first + more);
    run, steps := longer, first + more;
    assert run[0] == longer[..4][0] == once[..4][0];
  }

  lemma {:induction false} BeginEnabled(s: System, version: nat)
    requires s.session.NoSession? && version < |s.versions| && s.versions[version].status == Running
    ensures Enabled(s, Begin(version))
  {
    hide SessionWrites, HolderWrites;
  }
}
