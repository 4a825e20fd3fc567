/** The per-project limiter: a fixed request window and a counter of concurrent requests, with
    release closures that work once. Times are seconds; any unit will do. */
module AccessLimiter {
  import opened Text

  const WINDOW := 60

  datatype Limits = Limits(requestsPerMinute: nat, concurrentRequests: nat, auditEntries: nat)

  datatype Project = Project(windowStart: Option<int>, requests: nat, active: nat)

  /** The counters, and for each project the release closures handed out: true once called. */
  datatype State = State(projects: map<string, Project>, closures: map<string, seq<bool>>)

  datatype Acquisition = Denied | RateLimited | Granted(closure: nat)

  function ProjectOf(s: State, project: string): Project {
    if project in s.projects then s.projects[project] else Project(None, 0, 0)
  }

  function ClosuresOf(s: State, project: string): seq<bool> {
    if project in s.closures then s.closures[project] else []
  }

  /** The counters as a request at `now` sees them. */
  function Windowed(p: Project, now: int): Project {
    if p.windowStart.None? || now >= p.windowStart.value + WINDOW then Project(Some(now), 0, p.active) else p
  }

  predicate Admits(limits: Limits, p: Project) {
    p.requests < limits.requestsPerMinute && p.active < limits.concurrentRequests
  }

  /** Only an admitted request stores what it saw. */
  function Acquired(s: State, limits: Limits, project: string, now: int): State {
    var p := Windowed(ProjectOf(s, project), now);
    if !Admits(limits, p) then s
    else
      State(s.projects[project := p.(requests := p.requests + 1, active := p.active + 1)],
            s.closures[project := ClosuresOf(s, project) + [false]])
  }

  function Released(s: State, project: string, closure: nat): State {
    var closures := ClosuresOf(s, project);
    if closure >= |closures| || closures[closure] then s
    else
      var p := ProjectOf(s, project);
      State(s.projects[project := p.(active := if p.active > 0 then p.active - 1 else p.active)],
            s.closures[project := closures[closure := true]])
  }

  /** An audit event; only those with one of the four outcomes are kept. */
  datatype AuditEvent = AuditEvent(knownOutcome: bool, content: string)

  function Latest(events: seq<AuditEvent>, n: nat): seq<AuditEvent> {
    if |events| <= n then events else events[|events| - n..]
  }

  class LocalController {
    const limits: Limits
    var projects: map<string, Project>
    var closures: map<string, seq<bool>>
    var audit: seq<AuditEvent>

    function Value(): State
      reads this
    {
      State(projects, closures)
    }

    constructor (limits: Limits)
      ensures Value() == State(map[], map[]) && audit == [] && this.limits == limits
    {
      this.limits := limits;
      projects, closures, audit := map[], map[], [];
    }

    method Acquire(principalValid: bool, project: string, now: int) returns (r: Acquisition)
      modifies this`projects, this`closures
      ensures !principalValid ==> r == Denied && Value() == old(Value())
      ensures principalValid ==> Value() == Acquired(old(Value()), limits, project, now)
      ensures principalValid ==>
                r == if Admits(limits, Windowed(ProjectOf(old(Value()), project), now))
                     then Granted(|ClosuresOf(old(Value()), project)|) else RateLimited
    {
      if !principalValid {
        return Denied;
      }
      var state := if project in projects then projects[project] else Project(None, 0, 0);
      if state.windowStart.None? || !(now < state.windowStart.value + WINDOW) {
        state := state.(windowStart := Some(now), requests := 0);
      }
      if state.requests >= limits.requestsPerMinute || state.active >= limits.concurrentRequests {
        return RateLimited;
      }
      state := state.(requests := state.requests + 1, active := state.active + 1);
      projects := projects[project := state];
      var mine := if project in closures then closures[project] else [];
      closures := closures[project := mine + [false]];
      return Granted(|mine|);
    }

    /** Calling a release closure: the second call and every later one do nothing. */
    method Release(project: string, closure: nat)
      modifies this`projects, this`closures
      ensures Value() == Released(old(Value()), project, closure)
    {
      var mine := if project in closures then closures[project] else [];
      if closure >= |mine| || mine[closure] {
        return;
      }
      var current := if project in projects then projects[project] else Project(None, 0, 0);
      if current.active > 0 {
        current := current.(active := current.active - 1);
      }
      projects := projects[project := current];
      closures := closures[project := mine[closure := true]];
    }

    method Record(event: AuditEvent)
      modifies this`audit
      ensures audit == if event.knownOutcome then Latest(old(audit) + [event], limits.auditEntries) else old(audit)
      ensures event.knownOutcome ==>
                var all := old(audit) + [event];
                && |audit| == (if |all| <= limits.auditEntries then |all| else limits.auditEntries)
                && audit == all[|all| - |audit|..]
    {
      if !event.knownOutcome {
        return;
      }
      audit := audit + [event];
      if |audit| > limits.auditEntries {
        audit := audit[|audit| - limits.auditEntries..];
      }
    }
  }

  function Recorded(limits: Limits, events: seq<AuditEvent>): seq<AuditEvent> {
    if events == [] then []
    else
      var earlier, last := Recorded(limits, events[..|events| - 1]), events[|events| - 1];
      if last.knownOutcome then Latest(earlier + [last], limits.auditEntries) else earlier
  }

  function Kept(events: seq<AuditEvent>): seq<AuditEvent> {
    if events == [] then []
    else Kept(events[..|events| - 1]) + if events[|events| - 1].knownOutcome then [events[|events| - 1]] else []
  }

  /** Trimming after every event loses nothing of what one trim at the end would keep. */
  lemma {:induction false} AuditHoldsTheLatest(limits: Limits, events: seq<AuditEvent>)
    ensures Recorded(limits, events) == Latest(Kept(events), limits.auditEntries)
  {
    if events != [] {
      AuditHoldsTheLatest(limits, events[..|events| - 1]);
    }
  }

  // ----- runs -----------------------------------------------------------------------------

  /** The steps in the order in which they took the lock. `now` was read before the lock. */
  datatype Step = Acquire(project: string, now: int) | Release(project: string, closure: nat)

  function Take(s: State, limits: Limits, step: Step): State {
    match step
    case Acquire(project, now) => Acquired(s, limits, project, now)
    case Release(project, closure) => Released(s, project, closure)
  }

  function Run(limits: Limits, steps: seq<Step>): State {
    if steps == [] then State(map[], map[])
    else Take(Run(limits, steps[..|steps| - 1]), limits, steps[|steps| - 1])
  }

  /** How many closures have not been called. */
  function Outstanding(closures: seq<bool>): nat {
    if closures == [] then 0
    else Outstanding(closures[..|closures| - 1]) + if closures[|closures| - 1] then 0 else 1
  }

  lemma {:induction false} OutstandingUpdate(closures: seq<bool>, k: nat)
    requires k < |closures| && !closures[k]
    ensures Outstanding(closures) > 0
    ensures Outstanding(closures[k := true]) == Outstanding(closures) - 1
  {
    var n, changed := |closures| - 1, closures[k := true];
    if k == n {
      assert changed[..n] == closures[..n];
    } else {
      OutstandingUpdate(closures[..n], k);
      assert changed[..n] == closures[..n][k := true];
    }
  }

  /** Every counter is exact: active requests are the closures that were not called. */
  ghost predicate Exact(s: State, limits: Limits) {
    forall p :: ProjectExact(s, limits, p)
  }

  predicate ProjectExact(s: State, limits: Limits, project: string) {
    && ProjectOf(s, project).active == Outstanding(ClosuresOf(s, project)) <= limits.concurrentRequests
    && ProjectOf(s, project).requests <= limits.requestsPerMinute
  }

  lemma {:induction false} StepKeepsExact(s: State, limits: Limits, step: Step)
    requires Exact(s, limits)
    ensures Exact(Take(s, limits, step), limits)
  {
    hide Acquired, Released, ProjectExact;
    forall p ensures ProjectExact(Take(s, limits, step), limits, p) {
      assert ProjectExact(s, limits, p);
      match step
      case Acquire(project, now) => AcquireKeepsExact(s, limits, project, now, p);
      case Release(project, closure) => ReleaseKeepsExact(s, limits, project, closure, p);
    }
  }

  lemma {:induction false} AcquireKeepsExact(s: State, limits: Limits, project: string, now: int, p: string)
    requires ProjectExact(s, limits, p)
    ensures ProjectExact(Acquired(s, limits, project, now), limits, p)
  {
    var closures := ClosuresOf(s, p);
    assert (closures + [false])[..|closures|] == closures;
  }

  lemma {:induction false} ReleaseKeepsExact(s: State, limits: Limits, project: string, closure: nat, p: string)
    requires ProjectExact(s, limits, p)
    ensures ProjectExact(Released(s, project, closure), limits, p)
  {
    var closures := ClosuresOf(s, p);
    if p == project && closure < |closures| && !closures[closure] {
      OutstandingUpdate(closures, closure);
    }
  }

  /** Over every run, for every project: active requests equal the unreleased ones and stay within the
      concurrency limit, and the window counter stays within the request limit. */
  lemma {:induction false} RunsAreExact(limits: Limits, steps: seq<Step>)
    ensures Exact(Run(limits, steps), limits)
  {
    hide Take;
    if steps != [] {
      RunsAreExact(limits, steps[..|steps| - 1]);
      StepKeepsExact(Run(limits, steps[..|steps| - 1]), limits, steps[|steps| - 1]);
    }
  }

  /** The guard in the closure is never the reason that a slot is not returned: whenever a closure is
      called for the first time, the counter is positive and goes down by one. */
  lemma {:induction false} ReleaseAlwaysReturnsSlot(limits: Limits, steps: seq<Step>, project: string, closure: nat)
    requires var closures := ClosuresOf(Run(limits, steps), project);
             closure < |closures| && !closures[closure]
    ensures var s := Run(limits, steps);
            && ProjectOf(s, project).active > 0
            && ProjectOf(Released(s, project, closure), project).active == ProjectOf(s, project).active - 1
            && Released(Released(s, project, closure), project, closure) == Released(s, project, closure)
  {
    var s := Run(limits, steps);
    RunsAreExact(limits, steps);
    assert ProjectExact(s, limits, project);
    OutstandingUpdate(ClosuresOf(s, project), closure);
  }

  // ----- projects do not interfere --------------------------------------------------------

  function OnlyProject(steps: seq<Step>, project: string): seq<Step> {
    if steps == [] then []
    else
      OnlyProject(steps[..|steps| - 1], project)
      + if steps[|steps| - 1].project == project then [steps[|steps| - 1]] else []
  }

  predicate SameView(s: State, t: State, project: string) {
    ProjectOf(s, project) == ProjectOf(t, project) && ClosuresOf(s, project) == ClosuresOf(t, project)
  }

  lemma {:induction false} StepView(s: State, t: State, limits: Limits, step: Step, project: string)
    requires SameView(s, t, project)
    ensures step.project == project ==> SameView(Take(s, limits, step), Take(t, limits, step), project)
    ensures step.project != project ==> SameView(Take(s, limits, step), t, project)
  {
  }

  /** What a project sees of the limiter is what it would see if it were alone. */
  lemma {:induction false} ProjectsAreIndependent(limits: Limits, steps: seq<Step>, project: string)
    ensures SameView(Run(limits, steps), Run(limits, OnlyProject(steps, project)), project)
  {
    if steps != [] {
      var shorter, last := steps[..|steps| - 1], steps[|steps| - 1];
      ProjectsAreIndependent(limits, shorter, project);
      var alone := OnlyProject(shorter, project);
      StepView(Run(limits, shorter), Run(limits, alone), limits, last, project);
      assert (alone + [last])[..|alone|] == alone && alone + [] == alone;
    }
  }

  // ----- the windows ----------------------------------------------------------------------

  /** An admitted request, with the start of the window that counted it. */
  datatype Admission = Admission(project: string, time: int, window: int)

  function Admissions(limits: Limits, steps: seq<Step>): seq<Admission> {
    if steps == [] then []
    else
      var s, last := Run(limits, steps[..|steps| - 1]), steps[|steps| - 1];
      Admissions(limits, steps[..|steps| - 1])
      + if last.Acquire? && Admits(limits, Windowed(ProjectOf(s, last.project), last.now))
        then [Admission(last.project, last.now, Windowed(ProjectOf(s, last.project), last.now).windowStart.value)]
        else []
  }

  function CountWindow(log: seq<Admission>, project: string, window: int): nat {
    if log == [] then 0
    else
      var last := log[|log| - 1];
      CountWindow(log[..|log| - 1], project, window)
      + if last.project == project && last.window == window then 1 else 0
  }

  /** Window starts of one project are equal or at least a minute apart. */
  predicate SpacedPair(a: Admission, b: Admission) {
    a.project == b.project ==> a.window == b.window || a.window + WINDOW <= b.window || b.window + WINDOW <= a.window
  }

  ghost predicate WindowsOk(log: seq<Admission>, s: State, limits: Limits) {
    && (forall i, j | 0 <= i < |log| && 0 <= j < |log| :: SpacedPair(log[i], log[j]))
    && (forall i | 0 <= i < |log| :: log[i].time < log[i].window + WINDOW)
    && (forall p, w :: CountWindow(log, p, w) <= limits.requestsPerMinute)
    && (forall i | 0 <= i < |log| :: Current(log[i], s))
    && (forall p :: CurrentCount(log, s, p))
  }

  /** An admission belongs to its project's current window, or to one that began a minute before it. */
  predicate Current(a: Admission, s: State) {
    var start := ProjectOf(s, a.project).windowStart;
    start.Some? && (a.window == start.value || a.window + WINDOW <= start.value)
  }

  predicate CurrentCount(log: seq<Admission>, s: State, p: string) {
    ProjectOf(s, p).windowStart.Some? ==>
      CountWindow(log, p, ProjectOf(s, p).windowStart.value) == ProjectOf(s, p).requests
  }

  lemma {:induction false} NoneInLaterWindow(log: seq<Admission>, project: string, window: int)
    requires forall i | 0 <= i < |log| && log[i].project == project :: log[i].window < window
    ensures CountWindow(log, project, window) == 0
  {
    if log != [] {
      NoneInLaterWindow(log[..|log| - 1], project, window);
    }
  }

  lemma {:induction false} AdmissionKeepsWindows(log: seq<Admission>, s: State, limits: Limits, project: string,
                                                 now: int)
    requires WindowsOk(log, s, limits) && Exact(s, limits)
    requires Admits(limits, Windowed(ProjectOf(s, project), now))
    ensures var a := Admission(project, now, Windowed(ProjectOf(s, project), now).windowStart.value);
            WindowsOk(log + [a], Acquired(s, limits, project, now), limits)
  {
    var a := Admission(project, now, Windowed(ProjectOf(s, project), now).windowStart.value);
    var t := Acquired(s, limits, project, now);
    AdmissionIsSpaced(log, s, limits, project, now);
    forall r ensures CurrentCount(log + [a], t, r) {
      AdmissionIsCounted(log, s, limits, project, now, r);
    }
    forall r, w ensures CountWindow(log + [a], r, w) <= limits.requestsPerMinute {
      assert (log + [a])[..|log|] == log;
      if r == project && w == a.window {
        AdmissionIsCounted(log, s, limits, project, now, r);
      }
    }
  }

  lemma {:induction false} AdmissionIsSpaced(log: seq<Admission>, s: State, limits: Limits, project: string,
                                             now: int)
    requires WindowsOk(log, s, limits)
    requires Admits(limits, Windowed(ProjectOf(s, project), now))
    ensures var a := Admission(project, now, Windowed(ProjectOf(s, project), now).windowStart.value);
            var t := Acquired(s, limits, project, now);
            && Current(a, t) && a.time < a.window + WINDOW
            && forall i | 0 <= i < |log| :: Current(log[i], t) && SpacedPair(log[i], a) && SpacedPair(a, log[i])
  {
    hide CountWindow, CurrentCount;
    forall i | 0 <= i < |log| ensures Current(log[i], s) {
    }
  }

  lemma {:induction false} AdmissionIsCounted(log: seq<Admission>, s: State, limits: Limits, project: string,
                                              now: int, r: string)
    requires WindowsOk(log, s, limits) && Exact(s, limits)
    requires Admits(limits, Windowed(ProjectOf(s, project), now))
    ensures var a := Admission(project, now, Windowed(ProjectOf(s, project), now).windowStart.value);
            var t := Acquired(s, limits, project, now);
            && CurrentCount(log + [a], t, r)
            && CountWindow(log + [a], project, a.window) == ProjectOf(t, project).requests <= limits.requestsPerMinute
  {
    hide SpacedPair, Exact;
    var p, q := ProjectOf(s, project), Windowed(ProjectOf(s, project), now);
    var a := Admission(project, now, q.windowStart.value);
    assert (log + [a])[..|log|] == log;
    assert CurrentCount(log, s, project) && CurrentCount(log, s, r);
    if q != p {
      forall i | 0 <= i < |log| && log[i].project == project ensures log[i].window < now {
        assert Current(log[i], s);
      }
      NoneInLaterWindow(log, project, now);
    }
  }

  lemma {:induction false} ReleaseKeepsWindows(log: seq<Admission>, s: State, limits: Limits, project: string,
                                               closure: nat)
    requires WindowsOk(log, s, limits)
    ensures WindowsOk(log, Released(s, project, closure), limits)
  {
    hide SpacedPair;
    var t := Released(s, project, closure);
    forall p ensures ProjectOf(t, p).windowStart == ProjectOf(s, p).windowStart
    ensures ProjectOf(t, p).requests == ProjectOf(s, p).requests {
    }
    forall i | 0 <= i < |log| ensures Current(log[i], t) {
      assert Current(log[i], s);
    }
    forall p ensures CurrentCount(log, t, p) {
      assert CurrentCount(log, s, p);
    }
  }

  /** Whatever the clock does: windows start at least a minute apart, every window admits at most the
      request limit, and a request is counted by a window that it does not outlive. */
  lemma {:induction false} RunsKeepWindows(limits: Limits, steps: seq<Step>)
    ensures WindowsOk(Admissions(limits, steps), Run(limits, steps), limits)
  {
    hide WindowsOk, Exact, Released;
    if steps == [] {
      NothingAdmitted(limits);
    } else {
      var shorter, last := steps[..|steps| - 1], steps[|steps| - 1];
      RunsKeepWindows(limits, shorter);
      RunsAreExact(limits, shorter);
      var s, log := Run(limits, shorter), Admissions(limits, shorter);
      if last.Release? {
        ReleaseKeepsWindows(log, s, limits, last.project, last.closure);
        assert log + [] == log;
      } else if Admits(limits, Windowed(ProjectOf(s, last.project), last.now)) {
        AdmissionKeepsWindows(log, s, limits, last.project, last.now);
      } else {
        assert log + [] == log;
      }
    }
  }

  lemma {:induction false} NothingAdmitted(limits: Limits)
    ensures WindowsOk([], State(map[], map[]), limits)
  {
  }

  // ----- who is refused -------------------------------------------------------------------

  /** The window of a project: the one that counted its last admitted request. */
  function LastWindow(log: seq<Admission>, project: string): Option<int> {
    if log == [] then None
    else if log[|log| - 1].project == project then Some(log[|log| - 1].window)
    else LastWindow(log[..|log| - 1], project)
  }

  lemma {:induction false} WindowIsLast(limits: Limits, steps: seq<Step>, project: string)
    ensures ProjectOf(Run(limits, steps), project).windowStart == LastWindow(Admissions(limits, steps), project)
  {
    if steps != [] {
      var shorter, last := steps[..|steps| - 1], steps[|steps| - 1];
      WindowIsLast(limits, shorter, project);
      var log := Admissions(limits, shorter);
      assert log + [] == log;
      if last.Acquire? && Admits(limits, Windowed(ProjectOf(Run(limits, shorter), last.project), last.now)) {
        assert Admissions(limits, steps)[..|log|] == log;
      }
    }
  }

  /** The admitted requests of the window that a request at `now` belongs to. */
  function AlreadyAdmitted(log: seq<Admission>, project: string, now: int): nat {
    var window := LastWindow(log, project);
    if window.None? || now >= window.value + 60 then 0 else CountWindow(log, project, window.value)
  }

  /** In every run a request is refused if and only if its window is full or as many closures of its project
      as the concurrency limit have not been called; a refused request changes nothing, and any other one
      gets a closure of its own. */
  lemma {:induction false} RefusedIffFull(limits: Limits, steps: seq<Step>, project: string, now: int)
    ensures var s, t := Run(limits, steps), Run(limits, steps + [Acquire(project, now)]);
            var closures := ClosuresOf(s, project);
            if AlreadyAdmitted(Admissions(limits, steps), project, now) >= limits.requestsPerMinute
               || Outstanding(closures) >= limits.concurrentRequests
            then t == s
            else ClosuresOf(t, project) == closures + [false]
  {
    hide Run, Admissions, CountWindow, Outstanding;
    var s, log := Run(limits, steps), Admissions(limits, steps);
    OneMoreStep(limits, steps, Acquire(project, now));
    RunsAreExact(limits, steps);
    RunsKeepWindows(limits, steps);
    WindowIsLast(limits, steps, project);
    assert ProjectExact(s, limits, project) && CurrentCount(log, s, project);
  }

  // ----- the sliding window ---------------------------------------------------------------

  /** The admissions of a project in the minute that starts at `from`. */
  function CountSpan(log: seq<Admission>, project: string, from: int): nat {
    if log == [] then 0
    else
      var last := log[|log| - 1];
      CountSpan(log[..|log| - 1], project, from) + if InSpan(last, project, from) then 1 else 0
  }

  predicate InSpan(a: Admission, project: string, from: int) {
    a.project == project && from <= a.time < from + WINDOW
  }

  /** Two windows that hold all admissions of a span. */
  ghost predicate Covers(log: seq<Admission>, project: string, from: int, w1: int, w2: int) {
    forall i | 0 <= i < |log| && InSpan(log[i], project, from) :: log[i].window == w1 || log[i].window == w2
  }

  lemma {:induction false} CoveredSpan(log: seq<Admission>, project: string, from: int, w1: int, w2: int)
    requires Covers(log, project, from, w1, w2)
    ensures CountSpan(log, project, from) <= CountWindow(log, project, w1) + CountWindow(log, project, w2)
  {
    if log != [] {
      CoveredSpan(log[..|log| - 1], project, from, w1, w2);
    }
  }

  /** A request is not timed before its window: what a clock gives that never goes back. */
  ghost predicate InWindow(log: seq<Admission>) {
    forall i | 0 <= i < |log| :: log[i].window <= log[i].time < log[i].window + WINDOW
  }

  /** A minute meets at most two windows. */
  lemma {:induction false} TwoWindowsCover(log: seq<Admission>, project: string, from: int)
    returns (w1: int, w2: int)
    requires InWindow(log)
    requires forall i, j | 0 <= i < |log| && 0 <= j < |log| :: SpacedPair(log[i], log[j])
    ensures Covers(log, project, from, w1, w2)
  {
    w1, w2 := 0, 0;
    if i :| 0 <= i < |log| && InSpan(log[i], project, from) {
      w1, w2 := log[i].window, log[i].window;
      if j :| 0 <= j < |log| && InSpan(log[j], project, from) && log[j].window != w1 {
        w2 := log[j].window;
        forall k | 0 <= k < |log| && InSpan(log[k], project, from)
          ensures log[k].window == w1 || log[k].window == w2
        {
          assert SpacedPair(log[i], log[j]) && SpacedPair(log[i], log[k]) && SpacedPair(log[j], log[k]);
        }
      }
    }
  }

  /** The times of a project's requests never decrease in the order in which they took the lock. */
  predicate Monotone(steps: seq<Step>) {
    forall i, j | 0 <= i < j < |steps| && steps[i].Acquire? && steps[j].Acquire?
                  && steps[i].project == steps[j].project :: steps[i].now <= steps[j].now
  }

  /** Every stored window start was the time of an earlier request. */
  ghost predicate StartsAreTimes(s: State, steps: seq<Step>) {
    forall p :: StartIsTime(s, steps, p)
  }

  ghost predicate StartIsTime(s: State, steps: seq<Step>, p: string) {
    ProjectOf(s, p).windowStart.Some? ==>
      exists i | 0 <= i < |steps| :: steps[i] == Acquire(p, ProjectOf(s, p).windowStart.value)
  }

  lemma {:induction false} RunsStartAtTimes(limits: Limits, steps: seq<Step>)
    ensures StartsAreTimes(Run(limits, steps), steps)
  {
    if steps != [] {
      var shorter, last := steps[..|steps| - 1], steps[|steps| - 1];
      RunsStartAtTimes(limits, shorter);
      forall p ensures StartIsTime(Run(limits, steps), steps, p) {
        StepStartsAtTime(limits, steps, p);
      }
    }
  }

  lemma {:induction false} StepStartsAtTime(limits: Limits, steps: seq<Step>, p: string)
    requires steps != [] && StartIsTime(Run(limits, steps[..|steps| - 1]), steps[..|steps| - 1], p)
    ensures StartIsTime(Run(limits, steps), steps, p)
  {
    var shorter, last := steps[..|steps| - 1], steps[|steps| - 1];
    var before, after := ProjectOf(Run(limits, shorter), p), ProjectOf(Run(limits, steps), p);
    if after.windowStart == before.windowStart {
      if before.windowStart.Some? {
        var i :| 0 <= i < |shorter| && shorter[i] == Acquire(p, before.windowStart.value);
        assert steps[i] == shorter[i];
      }
    } else {
      assert last == Acquire(p, after.windowStart.value) && steps[|steps| - 1] == last;
    }
  }

  lemma {:induction false} MonotoneStaysInWindow(limits: Limits, steps: seq<Step>)
    requires Monotone(steps)
    ensures InWindow(Admissions(limits, steps))
  {
    hide Run;
    if steps != [] {
      var shorter, last := steps[..|steps| - 1], steps[|steps| - 1];
      MonotoneStaysInWindow(limits, shorter);
      RunsStartAtTimes(limits, shorter);
      var s := Run(limits, shorter);
      assert StartIsTime(s, shorter, last.project);
    }
  }

  /** With a clock that does not go back, any minute, wherever it starts, admits at most twice the
      request limit. */
  lemma {:induction false} SlidingWindowBound(limits: Limits, steps: seq<Step>, project: string, from: int)
    requires Monotone(steps)
    ensures CountSpan(Admissions(limits, steps), project, from) <= 2 * limits.requestsPerMinute
  {
    hide Admissions, Run, CountWindow, CountSpan;
    var log := Admissions(limits, steps);
    RunsKeepWindows(limits, steps);
    MonotoneStaysInWindow(limits, steps);
    var w1, w2 := TwoWindowsCover(log, project, from);
    CoveredSpan(log, project, from, w1, w2);
  }

  // ----- without a monotone clock ---------------------------------------------------------

  lemma {:induction false} OneMoreStep(limits: Limits, steps: seq<Step>, step: Step)
    ensures Run(limits, steps + [step]) == Take(Run(limits, steps), limits, step)
    ensures step.Release? ==> Admissions(limits, steps + [step]) == Admissions(limits, steps)
    ensures step.Acquire? && Admits(limits, Windowed(ProjectOf(Run(limits, steps), step.project), step.now)) ==>
              Admissions(limits, steps + [step]) ==
              Admissions(limits, steps)
              + [Admission(step.project, step.now,
                           Windowed(ProjectOf(Run(limits, steps), step.project), step.now).windowStart.value)]
  {
    assert (steps + [step])[..|steps|] == steps;
  }

  /** A request that is admitted and released at once. */
  lemma {:induction false} BriefRequest(limits: Limits, steps: seq<Step>, project: string, now: int)
    returns (longer: seq<Step>)
    requires ProjectOf(Run(limits, steps), project).active == 0 && limits.concurrentRequests >= 1
    requires Windowed(ProjectOf(Run(limits, steps), project), now).requests < limits.requestsPerMinute
    ensures var p, q := Windowed(ProjectOf(Run(limits, steps), project), now), ProjectOf(Run(limits, longer), project);
            q.windowStart == p.windowStart && q.requests == p.requests + 1 && q.active == 0
    ensures CountSpan(Admissions(limits, longer), project, 0)
            == CountSpan(Admissions(limits, steps), project, 0) + if 0 <= now < WINDOW then 1 else 0
  {
    hide Run, Admissions, Exact, Outstanding;
    var acquire := Acquire(project, now);
    var release := Release(project, |ClosuresOf(Run(limits, steps), project)|);
    OneMoreStep(limits, steps, acquire);
    OneMoreStep(limits, steps + [acquire], release);
    longer := steps + [acquire] + [release];
    var log := Admissions(limits, steps);
    assert Admissions(limits, longer)[..|log|] == log;
  }

  /** Requests that read the clock long before they take the lock are counted by later windows: one
      minute can then admit any number of requests. */
  lemma {:induction false} LateRequestsPileUp(limits: Limits, project: string, n: nat) returns (steps: seq<Step>)
    requires limits.requestsPerMinute >= 2 && limits.concurrentRequests >= 1
    ensures ProjectOf(Run(limits, steps), project).active == 0
    ensures var start := ProjectOf(Run(limits, steps), project).windowStart;
            start.Some? ==> start.value >= WINDOW
    ensures CountSpan(Admissions(limits, steps), project, 0) == n
  {
    hide Run, Admissions, CountSpan;
    if n == 0 {
      steps := [];
      NothingHappened(limits, project);
    } else {
      var earlier := LateRequestsPileUp(limits, project, n - 1);
      var start := ProjectOf(Run(limits, earlier), project).windowStart;
      var next := if start.Some? then start.value + WINDOW else WINDOW;
      var onTime := BriefRequest(limits, earlier, project, next);
      steps := BriefRequest(limits, onTime, project, 0);
    }
  }

  lemma {:induction false} NothingHappened(limits: Limits, project: string)
    ensures ProjectOf(Run(limits, []), project) == Project(None, 0, 0)
    ensures CountSpan(Admissions(limits, []), project, 0) == 0
  {
  }

  lemma {:induction false} StartedIsCounted(limits: Limits, steps: seq<Step>, project: string)
    ensures var p := ProjectOf(Run(limits, steps), project); p.windowStart.Some? ==> p.requests >= 1
  {
    if steps != [] {
      StartedIsCounted(limits, steps[..|steps| - 1], project);
    }
  }

  lemma {:induction false} SingleRequestsOpenWindows(limits: Limits, steps: seq<Step>)
    requires limits.requestsPerMinute <= 1
    ensures InWindow(Admissions(limits, steps))
  {
    hide Run;
    if steps != [] {
      var shorter, last := steps[..|steps| - 1], steps[|steps| - 1];
      SingleRequestsOpenWindows(limits, shorter);
      StartedIsCounted(limits, shorter, last.project);
    }
  }

  ghost predicate Bounded(limits: Limits) {
    forall steps, project, from :: SpanBounded(limits, steps, project, from)
  }

  ghost predicate SpanBounded(limits: Limits, steps: seq<Step>, project: string, from: int) {
    CountSpan(Admissions(limits, steps), project, from) <= 2 * limits.requestsPerMinute
  }

  /** The clock is read before the lock is taken, so nothing orders the times. Then the bound holds for
      every run exactly when the limit is at most one request a minute. */
  lemma {:induction false} UnorderedBoundIff(limits: Limits)
    requires limits.concurrentRequests >= 1
    ensures Bounded(limits) <==> limits.requestsPerMinute <= 1
  {
    hide Admissions, Run, CountWindow, CountSpan;
    if limits.requestsPerMinute <= 1 {
      forall steps, project, from ensures SpanBounded(limits, steps, project, from) {
        var log := Admissions(limits, steps);
        RunsKeepWindows(limits, steps);
        SingleRequestsOpenWindows(limits, steps);
        var w1, w2 := TwoWindowsCover(log, project, from);
        CoveredSpan(log, project, from, w1, w2);
      }
    } else {
      var steps := LateRequestsPileUp(limits, "p", 2 * limits.requestsPerMinute + 1);
      assert !SpanBounded(limits, steps, "p", 0);
    }
  }
}
