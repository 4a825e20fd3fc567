/** Router tool rounds over the whole life of an execution: sessions start from stored versions,
    commit rounds, write and die, and writers outside the lease write in between, in any order. */
module RouterRuns {
  import opened Text
  import opened ExecutionTypes
  import opened RouterHistory
  import opened RouterRounds

  /** A stored version of the record, with the calls that were committed up to it. */
  datatype Version = Version(record: Record, log: seq<Entry>)

  /** A session and the log of the version that it holds. */
  datatype Session = Session(live: Live, log: seq<Entry>)

  datatype System = System(versions: seq<Version>, session: Option<Session>)

  /** `Work` is any other write of the session, `Foreign` one of a writer outside the lease. */
  datatype Step =
    | Start(version: nat)
    | Round(calls: seq<RouterCall>, results: seq<ChildResult>)
    | Work(next: Record)
    | Foreign(next: Record)
    | Crash

  function Latest(s: System): Version
    requires s.versions != []
  {
    s.versions[|s.versions| - 1]
  }

  /** Attempts, schedules, transitions, cancellations and outcomes leave this part alone. */
  predicate Continues(base: Record, next: Record) {
    && next.revision == base.revision + 1 && next.plan == base.plan
    && next.request.conversation == base.request.conversation
    && next.completedRounds == base.completedRounds
  }

  ghost predicate Enabled(s: System, step: Step) {
    && s.versions != []
    && match step
       // The record that admission returned or that recovery listed: any version, not the latest.
       case Start(version) => s.session.None? && version < |s.versions|
       case Round(calls, results) =>
         && s.session.Some? && calls != []
         && Executed(calls, results, Planned(s.session.value.live.record.plan))
       case Work(next) => s.session.Some? && Continues(s.session.value.live.record, next)
       // From any other version the write would lose and change nothing.
       case Foreign(next) => Continues(Latest(s).record, next)
       case Crash => true
  }

  /** The compare-and-swap write of the session goes through. */
  predicate Current(s: System, session: Session)
    requires s.versions != []
  {
    session.live.record.revision == Latest(s).record.revision
  }

  ghost function Started(v: Version): Option<Session> {
    var restored := Restored(v.record);
    if restored.Ok? then
      Some(Session(Live(v.record, restored.value.counts, restored.value.seen, v.record.completedRounds), v.log))
    else None
  }

  /** What ParentLoop.CommitRound commits, if it does. */
  function RoundEntries(s: System, session: Session, calls: seq<RouterCall>, results: seq<ChildResult>,
                        env: Surroundings)
    : (r: Option<seq<Entry>>)
    requires s.versions != [] && |results| == |calls|
  {
    var live := session.live;
    if live.record.request.conversation.Some? && Current(s, session)
       && Admitted(live.counts, live.seen, calls, |calls|)
    then Entries(live.record.request.conversation.value, calls, results, |calls|, live.round + 1, env)
    else None
  }

  function RoundTaken(s: System, session: Session, calls: seq<RouterCall>, added: seq<Entry>): System
    requires session.live.record.request.conversation.Some?
  {
    System(s.versions + [Version(RoundRecord(session.live.record, added), session.log + added)],
           Some(Session(AfterRound(session.live, calls, added), session.log + added)))
  }

  ghost function Take(s: System, step: Step, env: Surroundings): System
    requires Enabled(s, step)
  {
    match step
    case Start(version) => s.(session := Started(s.versions[version]))
    case Round(calls, results) =>
      var added := RoundEntries(s, s.session.value, calls, results, env);
      if added.Some? then RoundTaken(s, s.session.value, calls, added.value) else s.(session := None)
    case Work(next) =>
      var session := s.session.value;
      if Current(s, session)
      then System(s.versions + [Version(next, session.log)],
                  Some(session.(live := session.live.(record := next))))
      else s.(session := None)
    case Foreign(next) => s.(versions := s.versions + [Version(next, Latest(s).log)])
    case Crash => s.(session := None)
  }

  /** An admitted execution. One without a conversation has no router rounds. */
  ghost predicate Initial(s: System, context: seq<ContextItem>) {
    && |s.versions| == 1 && s.session == None
    && var v := s.versions[0];
    && v.log == [] && v.record.revision == 1 && v.record.completedRounds == 0
    && PlanValid(v.record.plan) && Admissible(context)
    && (v.record.request.conversation == Some(context) || v.record.request.conversation == None)
  }

  ghost predicate Moves(s: System, step: Step, t: System, env: Surroundings) {
    Enabled(s, step) && t == Take(s, step, env)
  }

  ghost predicate IsRun(states: seq<System>, steps: seq<Step>, context: seq<ContextItem>, env: Surroundings) {
    && |states| == |steps| + 1 && Initial(states[0], context)
    && forall i | 0 <= i < |steps| :: Moves(states[i], steps[i], states[i + 1], env)
  }

  // ----- what every step keeps ------------------------------------------------------------

  /** A version holds the caller's context and its log, which is within the ceilings and repeats
      no identifier unless one of them carries white space. */
  ghost predicate Sound(v: Version, context: seq<ContextItem>) {
    && PlanValid(v.record.plan)
    && (if v.record.request.conversation.Some? then Stores(v.record, context, v.log)
        else v.log == [] && v.record.completedRounds == 0)
    && (AllTrimmed(v.log) ==> NoRepeat(v.log))
  }

  ghost predicate SessionSound(s: System, session: Session, context: seq<ContextItem>) {
    && 1 <= session.live.record.revision <= |s.versions|
    && s.versions[session.live.record.revision - 1] == Version(session.live.record, session.log)
    && (session.live.record.request.conversation.Some? ==> Accounts(session.live, context, session.log))
    && (AllTrimmed(session.log) ==> session.live.seen == LogIds(session.log))
  }

  ghost predicate Invariant(s: System, context: seq<ContextItem>) {
    && s.versions != []
    && (forall i | 0 <= i < |s.versions| ::
          && s.versions[i].record.revision == i + 1 && Sound(s.versions[i], context)
          && s.versions[i].record.plan == s.versions[0].record.plan)
    && (s.session.Some? ==> SessionSound(s, s.session.value, context))
  }

  lemma {:induction false} ContinuedIsSound(v: Version, next: Record, context: seq<ContextItem>)
    requires Sound(v, context) && Continues(v.record, next)
    ensures Sound(Version(next, v.log), context)
  {
    hide PlanValid, Capped, Identified, Admissible, AllTrimmed, NoRepeat, Planned, Injected;
  }

  lemma {:induction false} StartedIsSound(s: System, version: nat, context: seq<ContextItem>)
    requires Invariant(s, context) && version < |s.versions| && Started(s.versions[version]).Some?
    ensures SessionSound(s.(session := Started(s.versions[version])), Started(s.versions[version]).value, context)
  {
    hide PlanValid, Stores, Restored, AllTrimmed, NoRepeat, LogIds, LogCounts;
    var v := s.versions[version];
    if v.record.request.conversation.Some? {
      StoresRestores(v.record, context, v.log);
    } else {
      NoConversation(v.record);
    }
  }

  lemma {:induction false} NoConversation(record: Record)
    requires record.request.conversation.None? && Restored(record).Ok?
    ensures Restored(record).value.seen == LogIds([])
  {
    hide Restorable, Ceilings;
  }

  lemma {:induction false} TrimmedPrefix(log: seq<Entry>, added: seq<Entry>)
    requires AllTrimmed(log + added)
    ensures AllTrimmed(log)
  {
    hide Trimmed;
    forall e <- log ensures Trimmed(e.callId) {
      assert e in log + added;
    }
  }

  /** The session holds the latest version when its write goes through. */
  lemma {:induction false} CurrentIsLatest(s: System, context: seq<ContextItem>)
    requires Invariant(s, context) && s.session.Some? && Current(s, s.session.value)
    ensures Latest(s) == Version(s.session.value.live.record, s.session.value.log)
  {
    hide Sound, Accounts, AllTrimmed, LogIds;
  }

  lemma {:induction false} RoundIsSound(live: Live, log: seq<Entry>, calls: seq<RouterCall>,
                                        results: seq<ChildResult>, added: seq<Entry>,
                                        context: seq<ContextItem>, env: Surroundings)
    requires Accounts(live, context, log) && calls != []
    requires Executed(calls, results, Planned(live.record.plan))
    requires Admitted(live.counts, live.seen, calls, |calls|)
    requires Entries(context + Injected(log), calls, results, |calls|, live.round + 1, env) == Some(added)
    requires AllTrimmed(log) ==> NoRepeat(log) && live.seen == LogIds(log)
    requires live.record.request.conversation.Some?
    ensures var after := AfterRound(live, calls, added);
            && Accounts(after, context, log + added)
            && (AllTrimmed(log + added) ==> NoRepeat(log + added) && after.seen == LogIds(log + added))
  {
    hide *;
    RoundOutcome(live, context, log, calls, results, env, added);
    if AllTrimmed(log + added) {
      TrimmedPrefix(log, added);
      StaysTracked(live, context, log);
      StaysTracked(AfterRound(live, calls, added), context, log + added);
    }
  }

  lemma {:induction false} AccountsRecord(live: Live, context: seq<ContextItem>, log: seq<Entry>)
    requires Accounts(live, context, log)
    ensures Stores(live.record, context, log) && PlanValid(live.record.plan)
    ensures live.record.request.conversation == Some(context + Injected(log))
  {
    hide PlanValid, Capped, Identified, Admissible;
  }

  lemma {:induction false} RoundKeeps(s: System, calls: seq<RouterCall>, results: seq<ChildResult>,
                                      context: seq<ContextItem>, env: Surroundings)
    requires Invariant(s, context) && Enabled(s, Round(calls, results)) && |results| == |calls|
    requires RoundEntries(s, s.session.value, calls, results, env).Some?
    ensures Invariant(Take(s, Round(calls, results), env), context)
  {
    hide PlanValid, Stores, Accounts, Admitted, Entries, AllTrimmed, NoRepeat, LogIds, Executed, CallBag, IdsOf;
    var session := s.session.value;
    var added := RoundEntries(s, session, calls, results, env).value;
    CurrentIsLatest(s, context);
    AccountsRecord(session.live, context, session.log);
    RoundIsSound(session.live, session.log, calls, results, added, context, env);
    AccountsRecord(AfterRound(session.live, calls, added), context, session.log + added);
  }

  lemma {:induction false} WorkKeeps(s: System, next: Record, context: seq<ContextItem>, env: Surroundings)
    requires Invariant(s, context) && Enabled(s, Work(next))
    ensures Invariant(Take(s, Work(next), env), context)
  {
    hide Sound, AllTrimmed, LogIds;
    var session := s.session.value;
    if Current(s, session) {
      CurrentIsLatest(s, context);
      ContinuedIsSound(Latest(s), next, context);
      ContinuedAccounts(session.live, next, context, session.log);
    }
  }

  lemma {:induction false} ContinuedAccounts(live: Live, next: Record, context: seq<ContextItem>, log: seq<Entry>)
    requires Continues(live.record, next)
    ensures Accounts(live, context, log) ==> Accounts(live.(record := next), context, log)
  {
    hide PlanValid, Capped, Identified, Admissible;
  }

  lemma {:induction false} ForeignKeeps(s: System, next: Record, context: seq<ContextItem>, env: Surroundings)
    requires Invariant(s, context) && Enabled(s, Foreign(next))
    ensures Invariant(Take(s, Foreign(next), env), context)
  {
    hide Sound, AllTrimmed, LogIds, Accounts;
    ContinuedIsSound(Latest(s), next, context);
  }

  lemma {:induction false} StepKeepsInvariant(s: System, step: Step, context: seq<ContextItem>, env: Surroundings)
    requires Invariant(s, context) && Enabled(s, step)
    ensures Invariant(Take(s, step, env), context)
  {
    hide Sound, SessionSound;
    match step
    case Start(version) =>
      if Started(s.versions[version]).Some? {
        StartedIsSound(s, version, context);
      }
    case Round(calls, results) =>
      if RoundEntries(s, s.session.value, calls, results, env).Some? {
        RoundKeeps(s, calls, results, context, env);
      }
    case Work(next) => WorkKeeps(s, next, context, env);
    case Foreign(next) => ForeignKeeps(s, next, context, env);
    case Crash =>
  }

  lemma {:induction false} InitialIsSound(s: System, context: seq<ContextItem>)
    requires Initial(s, context)
    ensures Invariant(s, context)
  {
    hide PlanValid, Admissible, Planned;
    assert context + Injected([]) == context;
  }

  lemma {:induction false} RunsKeepInvariant(states: seq<System>, steps: seq<Step>,
                                             context: seq<ContextItem>, env: Surroundings, n: nat)
    requires IsRun(states, steps, context, env) && n < |states|
    ensures Invariant(states[n], context)
    ensures states[n].versions[0].record.plan == states[0].versions[0].record.plan
  {
    hide Initial, Invariant, Enabled, Take;
    if n == 0 {
      InitialIsSound(states[0], context);
      HasVersions(states[0], context);
    } else {
      RunsKeepInvariant(states, steps, context, env, n - 1);
      assert Moves(states[n - 1], steps[n - 1], states[n], env);
      StepKeepsInvariant(states[n - 1], steps[n - 1], context, env);
      HasVersions(states[n - 1], context);
      FirstVersionStays(states[n - 1], steps[n - 1], env);
      HasVersions(states[n], context);
    }
  }

  lemma {:induction false} HasVersions(s: System, context: seq<ContextItem>)
    requires Invariant(s, context)
    ensures s.versions != []
  {
    hide Sound, SessionSound;
  }

  lemma {:induction false} FirstVersionStays(s: System, step: Step, env: Surroundings)
    requires Enabled(s, step)
    ensures Take(s, step, env).versions != [] && Take(s, step, env).versions[0] == s.versions[0]
  {
    hide Executed, Started, RoundEntries, Continues;
  }

  // ----- what holds of every run ----------------------------------------------------------

  /** Whatever the identifiers look like, and however often sessions die and resume: every version
      that is ever stored holds the caller's context and the committed calls; those calls stay
      within the ceiling of each binding, and the rounds within the sum of all ceilings. */
  lemma {:induction false} RoundsAreBounded(states: seq<System>, steps: seq<Step>, context: seq<ContextItem>,
                                            env: Surroundings, n: nat, i: nat)
    requires IsRun(states, steps, context, env) && n < |states| && i < |states[n].versions|
    ensures var (v, plan) := (states[n].versions[i], states[0].versions[0].record.plan);
            && v.record.plan == plan
            && v.record.completedRounds <= |v.log| <= Ceilings(Bindings(plan))
            && WithinCeilings(LogCounts(v.log, Planned(plan)), Planned(plan))
            && (v.record.request.conversation.Some? ==>
                  v.record.request.conversation == Some(context + Injected(v.log)))
  {
    hide IsRun, Initial, SessionSound, PlanValid;
    RunsKeepInvariant(states, steps, context, env, n);
    var v := states[n].versions[i];
    assert Sound(v, context);
    LogIsBounded(v.log, v.record.plan);
  }

  /** In every run, from every version: a session resumes with exactly the counters and identifiers
      of the committed calls if and only if the identifiers are unambiguous. */
  lemma {:induction false} ResumesExactlyIff(states: seq<System>, steps: seq<Step>, context: seq<ContextItem>,
                                             env: Surroundings, n: nat, i: nat)
    requires IsRun(states, steps, context, env) && n < |states| && i < |states[n].versions|
    requires states[n].versions[i].record.request.conversation.Some?
    ensures var v := states[n].versions[i];
            Restored(v.record) == Ok(History(LogCounts(v.log, Planned(v.record.plan)), LogIds(v.log))) <==>
            Unambiguous(context, v.log)
  {
    hide IsRun, Initial, SessionSound, PlanValid, Stores, NoRepeat, Restored, LogCounts, LogIds;
    RunsKeepInvariant(states, steps, context, env, n);
    var v := states[n].versions[i];
    assert Sound(v, context);
    StoresRestores(v.record, context, v.log);
  }

  // ----- trimmed identifiers --------------------------------------------------------------

  /** The request validator is at least the one of conversations. */
  ghost predicate Validates(env: Surroundings) {
    forall items: seq<ContextItem> :: env.accepts(items) ==> ContextValid(items)
  }

  ghost predicate ConversationValid(r: Record) {
    r.request.conversation.Some? ==> ContextValid(r.request.conversation.value)
  }

  /** The last injection of a round shows the validator the whole new conversation. */
  lemma {:induction false} EntriesAreAccepted(context: seq<ContextItem>, calls: seq<RouterCall>,
                                              results: seq<ChildResult>, n: nat, round: nat, env: Surroundings)
    requires 0 < n <= |results| == |calls|
    requires Entries(context, calls, results, n, round, env).Some?
    ensures env.accepts(context + Injected(Entries(context, calls, results, n, round, env).value))
  {
    hide Injected, NewEntry, CallItem, ResultItem;
    EntriesStep(context, calls, results, n - 1, round, env);
    var before := Entries(context, calls, results, n - 1, round, env).value;
    var e := NewEntry(context + Injected(before), calls[n - 1], results[n - 1].id, round, env);
    InjectedAppend(before, e);
    assert context + Injected(before) + [CallItem(e), ResultItem(e)] ==
           context + (Injected(before) + [CallItem(e), ResultItem(e)]);
  }

  lemma {:induction false} StepKeepsValid(s: System, step: Step, env: Surroundings)
    requires Validates(env) && Enabled(s, step)
    requires forall v <- s.versions :: ConversationValid(v.record)
    requires s.session.Some? ==> ConversationValid(s.session.value.live.record)
    ensures var t := Take(s, step, env);
            && (forall v <- t.versions :: ConversationValid(v.record))
            && (t.session.Some? ==> ConversationValid(t.session.value.live.record))
  {
    hide ContextValid, Admitted, Entries, Injected, Restored, Executed, CallBag, IdsOf;
    if step.Round? {
      ExecutedResults(step.calls, step.results, Planned(s.session.value.live.record.plan));
      RoundIsValid(s, step.calls, step.results, env);
    }
  }

  lemma {:induction false} RoundIsValid(s: System, calls: seq<RouterCall>, results: seq<ChildResult>,
                                        env: Surroundings)
    requires Validates(env) && Enabled(s, Round(calls, results))
    requires |results| == |calls|
    ensures var added := RoundEntries(s, s.session.value, calls, results, env);
            added.Some? ==> ConversationValid(RoundRecord(s.session.value.live.record, added.value))
  {
    hide ContextValid, Admitted, Entries, Injected, Executed;
    var live := s.session.value.live;
    var added := RoundEntries(s, s.session.value, calls, results, env);
    if added.Some? {
      EntriesAreAccepted(live.record.request.conversation.value, calls, results, |calls|, live.round + 1, env);
    }
  }

  lemma {:induction false} RunsStayValid(states: seq<System>, steps: seq<Step>, context: seq<ContextItem>,
                                         env: Surroundings, n: nat)
    requires IsRun(states, steps, context, env) && n < |states|
    requires Validates(env) && ContextValid(context)
    ensures forall v <- states[n].versions :: ConversationValid(v.record)
    ensures states[n].session.Some? ==> ConversationValid(states[n].session.value.live.record)
  {
    hide ContextValid, Enabled, Take, Validates, PlanValid, Admissible;
    if n > 0 {
      RunsStayValid(states, steps, context, env, n - 1);
      assert Moves(states[n - 1], steps[n - 1], states[n], env);
      StepKeepsValid(states[n - 1], steps[n - 1], env);
    }
  }

  /** White space is the only thing that can go wrong: when caller and provider trim their call
      identifiers, no committed identifier ever returns and every resume of every run is exact. */
  lemma {:induction false} TrimmedRunsResumeExactly(states: seq<System>, steps: seq<Step>,
                                                    context: seq<ContextItem>, env: Surroundings, n: nat, i: nat)
    requires IsRun(states, steps, context, env) && n < |states| && i < |states[n].versions|
    requires Validates(env) && ContextValid(context)
    requires forall item <- context :: item.ToolCall? ==> Trimmed(item.callId)
    requires states[n].versions[i].record.request.conversation.Some? && AllTrimmed(states[n].versions[i].log)
    ensures var v := states[n].versions[i];
            && NoRepeat(v.log)
            && Restored(v.record) == Ok(History(LogCounts(v.log, Planned(v.record.plan)), LogIds(v.log)))
  {
    hide IsRun, Validates, ContextValid, SessionSound, PlanValid, Restored, NoRepeat, LogCounts, LogIds, Trimmed,
      Unambiguous;
    var v := states[n].versions[i];
    RunsKeepInvariant(states, steps, context, env, n);
    assert Sound(v, context);
    RunsStayValid(states, steps, context, env, n);
    assert v in states[n].versions;
    TrimmedContextsAreUnambiguous(context, v.log);
    ResumesExactlyIff(states, steps, context, env, n, i);
  }
}
