/** The durable retry schedule: when a deferred execution that failed is tried again. Times and
    delays are nanoseconds. */
module RetrySchedule {
  import opened Text
  import opened ExecutionTypes
  import opened RouterHistory

  const MAXIMUM_ATTEMPTS := 8
  const MILLISECOND := 1_000_000
  const SECOND := 1000 * MILLISECOND
  const MINUTE := 60 * SECOND

  datatype RetryAction = OtherCredential | OtherEndpoint | NoFailover

  datatype FailureCategory = NetworkUnavailable | TransientUpstream | QuotaExhausted | OtherFailure

  /** What the provider adapter says about a failed dispatch. */
  datatype Classified = Classified(
    category: FailureCategory, action: RetryAction, retryAt: Option<int>)

  datatype Policy = Policy(
    backoff: Backoff, initial: nat, maximum: nat, multiplier: real, maxAttempts: Option<nat>)

  function PolicyOf(request: Request): Policy {
    match request.retryPolicy
    case None => Policy(Exponential, 5 * SECOND, 30 * MINUTE, 2.0, None)
    case Some(p) =>
      Policy(if p.backoff.Some? then p.backoff.value else Exponential,
             if p.initialDelay.Some? then p.initialDelay.value * MILLISECOND else 5 * SECOND,
             if p.maximumDelay.Some? then p.maximumDelay.value * MILLISECOND else 30 * MINUTE,
             if p.multiplier.Some? then p.multiplier.value else 2.0,
             p.maxAttempts)
  }

  // ----- the delay ------------------------------------------------------------------------

  /** The product as the loop forms it, cut to whole nanoseconds. */
  function Product(delay: nat, multiplier: real): int {
    (delay as real * multiplier).Floor
  }

  /** One failure cycle: a product that does not grow, or grows too far, becomes the maximum. */
  function Grow(policy: Policy, delay: nat): nat {
    if delay >= policy.maximum then delay
    else
      var next := Product(delay, policy.multiplier);
      if next <= delay || next > policy.maximum then policy.maximum else next
  }

  function Grown(policy: Policy, cycles: nat): nat {
    if cycles == 0 then policy.initial else Grow(policy, Grown(policy, cycles - 1))
  }

  function Delay(policy: Policy, cycles: nat): nat {
    var delay := if policy.backoff == Exponential then Grown(policy, cycles) else policy.initial;
    if delay > policy.maximum then policy.maximum else delay
  }

  method RetryDelay(policy: Policy, failureCycles: nat) returns (delay: nat)
    ensures delay == Delay(policy, failureCycles)
  {
    delay := policy.initial;
    if policy.backoff == Exponential {
      var cycle := 0;
      while cycle < failureCycles && delay < policy.maximum
        invariant 0 <= cycle <= failureCycles && delay == Grown(policy, cycle)
        decreases failureCycles - cycle
      {
        var next := Product(delay, policy.multiplier);
        cycle := cycle + 1;
        if next <= delay || next > policy.maximum {
          delay := policy.maximum;
          break;
        }
        delay := next;
      }
      MaximumStays(policy, cycle, failureCycles);
    }
    if delay > policy.maximum {
      delay := policy.maximum;
    }
  }

  lemma {:induction false} MaximumStays(policy: Policy, m: nat, n: nat)
    requires m <= n && (Grown(policy, m) >= policy.maximum || m == n)
    ensures Grown(policy, n) == Grown(policy, m)
    decreases n
  {
    if m < n {
      MaximumStays(policy, m, n - 1);
    }
  }

  /** The delay never exceeds the maximum and never decreases as failure cycles grow. */
  lemma {:induction false} DelayIsMonotone(policy: Policy, m: nat, n: nat)
    requires m <= n
    ensures Delay(policy, m) <= Delay(policy, n) <= policy.maximum
    decreases n
  {
    if m < n {
      DelayIsMonotone(policy, m, n - 1);
    }
  }

  lemma {:induction false} GrownAtLeast(policy: Policy, n: nat)
    ensures Grown(policy, n) >= policy.maximum || Grown(policy, n) >= policy.initial + n
  {
    if n > 0 {
      GrownAtLeast(policy, n - 1);
    }
  }

  /** Exponential growth reaches the maximum in finitely many cycles, whatever the multiplier:
      each cycle that does not jump adds at least a nanosecond. */
  lemma {:induction false} DelayReachesMaximum(policy: Policy, n: nat)
    requires policy.backoff == Exponential && n + policy.initial >= policy.maximum
    ensures Delay(policy, n) == policy.maximum
  {
    GrownAtLeast(policy, n);
  }

  function Minimum(a: nat, b: nat): nat {
    if a <= b then a else b
  }

  /** `initial * k ^ n`. */
  function Compounded(initial: nat, k: nat, n: nat): nat {
    if n == 0 then initial else k * Compounded(initial, k, n - 1)
  }

  lemma {:induction false} WholeProduct(delay: nat, k: nat)
    ensures Product(delay, k as real) == k * delay
  {
    assert delay as real * k as real == (k * delay) as real;
  }

  lemma {:induction false} WholeGrowth(policy: Policy, k: nat, delay: nat)
    requires policy.multiplier == k as real && k >= 2 && delay >= 1
    ensures k * delay > delay
    ensures k * delay <= policy.maximum ==> Grow(policy, delay) == k * delay
    ensures delay <= policy.maximum < k * delay ==> Grow(policy, delay) == policy.maximum
  {
    WholeProduct(delay, k);
    assert k * delay >= 2 * delay;
  }

  /** The textbook schedule: for a whole multiplier of at least two the loop computes
      min(maximum, initial * multiplier ^ cycles). */
  lemma {:induction false} DelayIsGeometric(policy: Policy, k: nat, n: nat)
    requires policy.backoff == Exponential && policy.multiplier == k as real && k >= 2
    requires 0 < policy.initial
    ensures Delay(policy, n) == Minimum(policy.maximum, Compounded(policy.initial, k, n))
  {
    GeometricGrowth(policy, k, n);
  }

  lemma {:induction false} GeometricGrowth(policy: Policy, k: nat, n: nat)
    requires policy.multiplier == k as real && k >= 2 && 0 < policy.initial
    ensures var whole := Compounded(policy.initial, k, n);
            && whole >= 1
            && (if whole <= policy.maximum then Grown(policy, n) == whole
                else Grown(policy, n) >= policy.maximum)
  {
    hide Product, Grow;
    if n > 0 {
      GeometricGrowth(policy, k, n - 1);
      WholeGrowth(policy, k, Compounded(policy.initial, k, n - 1));
      GrowKeepsMaximum(policy, Grown(policy, n - 1));
    }
  }

  lemma {:induction false} GrowKeepsMaximum(policy: Policy, delay: nat)
    ensures delay >= policy.maximum ==> Grow(policy, delay) == delay
  {
  }

  /** A multiplier of one does not mean a fixed delay: the first failure cycle jumps to the
      maximum. */
  lemma {:induction false} UnitMultiplierJumps(policy: Policy, n: nat)
    requires policy.backoff == Exponential && policy.multiplier == 1.0 && n > 0
    ensures Delay(policy, n) == policy.maximum
  {
    var before := Grown(policy, n - 1);
    WholeProduct(before, 1);
  }

  // ----- when the next attempt is due -----------------------------------------------------

  /** hasRouterToolPlan: the plan allows at least one router call. */
  predicate HasRouterTools(plan: Plan) {
    Ceilings(Bindings(plan)) > 0
  }

  /** The earlier of the caller's budget and the ceiling for parents of router calls. */
  function Deadline(r: Record): Option<int> {
    var budget := if r.request.maxExecution.Some?
                  then Some(r.createdAt + r.request.maxExecution.value * MILLISECOND) else None;
    if HasRouterTools(r.plan) && (budget.None? || r.createdAt + 15 * MINUTE < budget.value)
    then Some(r.createdAt + 15 * MINUTE) else budget
  }

  /** Failures that a later attempt may cure. */
  predicate Transient(classified: Classified) {
    match classified.category
    case OtherFailure => false
    case _ => true
  }

  predicate AttemptsLeft(r: Record) {
    var maximum := PolicyOf(r.request).maxAttempts;
    maximum.Some? ==> |r.attempts| < maximum.value
  }

  function FailureCycles(r: Record): nat
    requires r.attempts != []
  {
    (|r.attempts| - 1) / MAXIMUM_ATTEMPTS
  }

  /** The earliest moment that both the backoff and the provider allow. */
  function DueAt(r: Record, classified: Classified, now: int): int
    requires r.attempts != []
  {
    var backedOff := now + Delay(PolicyOf(r.request), FailureCycles(r));
    if classified.retryAt.Some? && classified.retryAt.value > backedOff
    then classified.retryAt.value else backedOff
  }

  predicate InTime(r: Record, at: int) {
    at < r.expiresAt && (Deadline(r).Some? ==> at < Deadline(r).value)
  }

  predicate MayRetry(r: Record, classified: Option<Classified>, semanticOutput: bool) {
    && r.request.deferred && classified.Some? && !semanticOutput
    && Transient(classified.value) && AttemptsLeft(r)
  }

  /** The first moment that is neither before the backoff of the attempts recorded so far, in whole cycles of
      eight, nor before the provider allows it. */
  predicate FirstMoment(r: Record, classified: Classified, now: int, at: int)
    requires r.attempts != []
  {
    var backedOff := now + Delay(PolicyOf(r.request), (|r.attempts| - 1) / 8);
    && at >= backedOff && (classified.retryAt.Some? ==> at >= classified.retryAt.value)
    && (at == backedOff || classified.retryAt == Some(at))
  }

  predicate BeforeDeadlines(r: Record, at: int) {
    && at < r.expiresAt
    && (r.request.maxExecution.Some? ==> at < r.createdAt + r.request.maxExecution.value * MILLISECOND)
    && (HasRouterTools(r.plan) ==> at < r.createdAt + 15 * MINUTE)
  }

  predicate CallerAllowsRetry(r: Record) {
    && r.request.deferred
    && (r.request.retryPolicy.Some? && r.request.retryPolicy.value.maxAttempts.Some? ==>
          |r.attempts| < r.request.retryPolicy.value.maxAttempts.value)
  }

  /** The decision of scheduleRetry. The attempt that failed has been recorded before. */
  method NextRetry(r: Record, classified: Option<Classified>, semanticOutput: bool, now: int)
    returns (at: Option<int>)
    requires r.attempts != []
    ensures at.Some? <==>
              MayRetry(r, classified, semanticOutput) && InTime(r, DueAt(r, classified.value, now))
    ensures at.Some? ==> at.value == DueAt(r, classified.value, now)
    ensures forall t :: at == Some(t) <==>
              && CallerAllowsRetry(r) && classified.Some? && !semanticOutput
              && classified.value.category != OtherFailure
              && FirstMoment(r, classified.value, now, t) && BeforeDeadlines(r, t)
  {
    hide Delay, Ceilings, Bindings;
    if !r.request.deferred || classified.None? || semanticOutput {
      return None;
    }
    match classified.value.category {
      case NetworkUnavailable =>
      case TransientUpstream =>
      case QuotaExhausted =>
      case OtherFailure => return None;
    }
    var policy := PolicyOf(r.request);
    if policy.maxAttempts.Some? && |r.attempts| >= policy.maxAttempts.value {
      return None;
    }
    var failureCycles := (|r.attempts| - 1) / MAXIMUM_ATTEMPTS;
    var delay := RetryDelay(policy, failureCycles);
    var due := now + delay;
    if classified.value.retryAt.Some? && classified.value.retryAt.value > due {
      due := classified.value.retryAt.value;
    }
    if !(due < r.expiresAt) {
      return None;
    }
    var deadline := Deadline(r);
    if deadline.Some? && !(due < deadline.value) {
      return None;
    }
    return Some(due);
  }

  /** The record that waits for the scheduled time. */
  function Waiting(r: Record, at: int): Record {
    r.(status := WaitingRetry, hasFailure := false, retryCycles := r.retryCycles + 1,
       retry := Some(RetryState(|r.attempts|, at, PolicyOf(r.request).maxAttempts)),
       revision := r.revision + 1)
  }

  /** A scheduled retry keeps every promise at once: not before the provider allows it, not before
      the first delay has passed, before expiry and deadline, and on a record that the validator
      accepts as long as an attempt was made since the last retry cycle. */
  lemma {:induction false} ScheduledRetryIsSound(r: Record, classified: Classified, now: int)
    requires RecordValid(r) && r.status == Running && r.attempts != [] && r.createdAt <= now
    requires MayRetry(r, Some(classified), false) && InTime(r, DueAt(r, classified, now))
    ensures var at := DueAt(r, classified, now);
            && (classified.retryAt.Some? ==> at >= classified.retryAt.value)
            && at >= now + Delay(PolicyOf(r.request), 0)
            && at < r.expiresAt
            && (r.request.maxExecution.Some? ==>
                  at < r.createdAt + r.request.maxExecution.value * MILLISECOND)
            && (HasRouterTools(r.plan) ==> at < r.createdAt + 15 * MINUTE)
            && (RecordValid(Waiting(r, at)) <==> r.retryCycles < |r.attempts|)
  {
    DelayIsMonotone(PolicyOf(r.request), 0, FailureCycles(r));
  }

  // ----- the attempt budget ---------------------------------------------------------------

  /** The immediate attempts of one execution: at most eight, and no more than the caller allows. */
  function PlainAttempts(r: Record): nat {
    var maximum := PolicyOf(r.request).maxAttempts;
    if maximum.Some? && maximum.value < MAXIMUM_ATTEMPTS then maximum.value else MAXIMUM_ATTEMPTS
  }

  /** All parent dispatches of one execution: router rounds have a budget of their own. */
  function AttemptCap(r: Record): nat {
    PlainAttempts(r) + Ceilings(Bindings(r.plan))
  }

  /** The dispatches that a session handed `r` may make under a cap. */
  function Room(r: Record, cap: nat): nat {
    if |r.attempts| >= cap then 0 else cap - |r.attempts|
  }

  /** Without router tools the attempt cap keeps the exponent at zero: however a policy is set,
      every scheduled delay is the first one. */
  lemma {:induction false} PlainRetriesNeverBackOff(r: Record)
    requires !HasRouterTools(r.plan) && 0 < |r.attempts| <= AttemptCap(r)
    ensures FailureCycles(r) == 0
    ensures Delay(PolicyOf(r.request), FailureCycles(r)) ==
            Minimum(PolicyOf(r.request).initial, PolicyOf(r.request).maximum)
  {
  }

  lemma {:induction false} FirstGrowth(policy: Policy)
    ensures policy.initial < policy.maximum ==> Grown(policy, 1) > policy.initial
    ensures Grown(policy, 0) == policy.initial
  {
    assert Grown(policy, 1) == Grow(policy, Grown(policy, 0));
  }

  /** When a scheduled delay exceeds the first one, exactly: not after each failure, but after more than
      eight recorded attempts, under exponential backoff that has room to grow. */
  lemma {:induction false} DelayGrowsIff(r: Record)
    requires r.attempts != []
    ensures var policy := PolicyOf(r.request);
            Delay(policy, FailureCycles(r)) > Delay(policy, 0) <==>
            policy.backoff == Exponential && |r.attempts| > MAXIMUM_ATTEMPTS && policy.initial < policy.maximum
  {
    hide PolicyOf, Grow;
    var policy := PolicyOf(r.request);
    FirstGrowth(policy);
    if FailureCycles(r) > 0 {
      DelayIsMonotone(policy, 1, FailureCycles(r));
    }
  }

  lemma {:induction false} NextGrowth(policy: Policy, cycles: nat)
    ensures Delay(policy, cycles + 1) > Delay(policy, cycles) <==>
            policy.backoff == Exponential && Delay(policy, cycles) < policy.maximum
  {
    hide Product;
  }

  /** Growth from failure to failure, exactly: after one more recorded attempt the retry is due later if and
      only if the backoff is exponential, the attempts before it fill whole cycles of eight, the delay has
      not reached the maximum, and the provider does not ask for more than the longer delay. */
  lemma {:induction false} NextFailureGrowsIff(first: Record, second: Record, classified: Classified, now: int)
    requires first.attempts != [] && |second.attempts| == |first.attempts| + 1 && first.request == second.request
    ensures var policy := PolicyOf(first.request);
            var delay := Delay(policy, FailureCycles(first));
            && (delay < Delay(policy, FailureCycles(second)) <==>
                  policy.backoff == Exponential && |first.attempts| % MAXIMUM_ATTEMPTS == 0 && delay < policy.maximum)
            && (DueAt(first, classified, now) < DueAt(second, classified, now) <==>
                  && policy.backoff == Exponential && |first.attempts| % MAXIMUM_ATTEMPTS == 0
                  && delay < policy.maximum
                  && (classified.retryAt.Some? ==>
                        classified.retryAt.value < now + Delay(policy, FailureCycles(second))))
  {
    hide PolicyOf, Delay;
    NextGrowth(PolicyOf(first.request), FailureCycles(first));
    NextCycle(|first.attempts|);
  }

  /** A request without a policy waits five seconds, twice as long after every cycle, up to half an hour. */
  lemma {:induction false} OmittedPolicyDoubles(request: Request, n: nat)
    requires request.retryPolicy.None?
    ensures Delay(PolicyOf(request), n) == Minimum(30 * 60 * SECOND, Compounded(5 * SECOND, 2, n))
  {
    hide Delay;
    DelayIsGeometric(PolicyOf(request), 2, n);
  }

  /** A complete policy counts in milliseconds: a fixed delay stays, any other is multiplied after every
      cycle, up to the maximum. */
  lemma {:induction false} ConfiguredDelay(request: Request, p: RetryPolicy, k: nat, n: nat)
    requires request.retryPolicy == Some(p) && k >= 2 && p.multiplier == Some(k as real)
    requires p.initialDelay.Some? && p.initialDelay.value > 0 && p.maximumDelay.Some?
    ensures var first, maximum := p.initialDelay.value * 1_000_000, p.maximumDelay.value * 1_000_000;
            Delay(PolicyOf(request), n) ==
            if p.backoff == Some(Fixed) then Minimum(first, maximum)
            else Minimum(maximum, Compounded(first, k, n))
  {
    if p.backoff != Some(Fixed) {
      hide Delay;
      DelayIsGeometric(PolicyOf(request), k, n);
    }
  }

  lemma {:induction false} NextCycle(n: nat)
    requires n > 0
    ensures n / MAXIMUM_ATTEMPTS == (n - 1) / MAXIMUM_ATTEMPTS + if n % MAXIMUM_ATTEMPTS == 0 then 1 else 0
  {
  }

  /** A second failure does not multiply the delay, whatever the policy says. */
  lemma {:induction false} SecondFailureKeepsDelay(first: Record, second: Record, classified: Classified, now: int)
    requires |first.attempts| == 1 && |second.attempts| == 2 && first.request == second.request
    ensures DueAt(first, classified, now) == DueAt(second, classified, now)
  {
    assert FailureCycles(first) == 0 && FailureCycles(second) == 0;
  }

  /** With them it can grow, but never beyond one cycle for every eight router calls. */
  lemma {:induction false} FailureCyclesAreBounded(r: Record)
    requires 0 < |r.attempts| <= AttemptCap(r)
    ensures FailureCycles(r) <= (MAXIMUM_ATTEMPTS - 1 + Ceilings(Bindings(r.plan))) / MAXIMUM_ATTEMPTS
  {
  }
}
