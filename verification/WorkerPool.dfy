/** The batch of router calls of one round: one after the other, or by a pool of workers that take
    indices from a channel without a buffer. */
module WorkerPool {
  import opened Text

  const MAXIMUM_WORKERS := 4

  /** What one call after the other computes. */
  function Sequential<C, R>(calls: seq<C>, execute: (nat, C) -> R): seq<R> {
    seq(|calls|, i requires 0 <= i < |calls| => execute(i, calls[i]))
  }

  method ExecuteSequentially<C, R>(calls: seq<C>, execute: (nat, C) -> R) returns (results: seq<R>)
    ensures results == Sequential(calls, execute)
  {
    results := [];
    for i := 0 to |calls|
      invariant results == Sequential(calls, execute)[..i]
    {
      results := results + [execute(i, calls[i])];
    }
  }

  // ----- the pool -------------------------------------------------------------------------

  datatype Worker = Idle | Busy(index: nat) | Exited

  /** `next` is the index the feeder hands out next; `finished` lists the executions in the order in
      which they ended. */
  datatype Pool<R> = Pool(
    next: nat, closed: bool, workers: seq<Worker>, results: seq<Option<R>>, finished: seq<nat>)

  /** The schedule: which worker moves. Handing out is a rendezvous of the feeder and a worker. */
  datatype Move = Hand(worker: nat) | Finish(worker: nat) | Close | Exit(worker: nat)

  predicate Enabled<R>(p: Pool<R>, n: nat, m: Move) {
    match m
    case Hand(w) => w < |p.workers| && p.workers[w].Idle? && p.next < n
    case Finish(w) => w < |p.workers| && p.workers[w].Busy? && p.workers[w].index < n == |p.results|
    case Close => p.next == n && !p.closed
    case Exit(w) => w < |p.workers| && p.workers[w].Idle? && p.closed
  }

  function Take<C, R>(p: Pool<R>, calls: seq<C>, execute: (nat, C) -> R, m: Move): Pool<R>
    requires Enabled(p, |calls|, m)
  {
    match m
    case Hand(w) => p.(workers := p.workers[w := Busy(p.next)], next := p.next + 1)
    case Finish(w) =>
      var i := p.workers[w].index;
      p.(workers := p.workers[w := Idle], results := p.results[i := Some(execute(i, calls[i]))],
         finished := p.finished + [i])
    case Close => p.(closed := true)
    case Exit(w) => p.(workers := p.workers[w := Exited])
  }

  /** A pool starts for at least two calls, with as many workers as calls, but no more than four. */
  predicate Initial<R>(p: Pool<R>, n: nat) {
    && p.next == 0 && !p.closed && p.finished == []
    && |p.workers| == (if n < MAXIMUM_WORKERS then n else MAXIMUM_WORKERS)
    && (forall w | 0 <= w < |p.workers| :: p.workers[w].Idle?)
    && |p.results| == n && (forall i | 0 <= i < n :: p.results[i].None?)
  }

  /** All workers are gone: the batch returns. */
  predicate Done<R>(p: Pool<R>) {
    forall w | 0 <= w < |p.workers| :: p.workers[w].Exited?
  }

  ghost predicate IsRun<C, R>(states: seq<Pool<R>>, calls: seq<C>, execute: (nat, C) -> R, moves: seq<Move>) {
    && |states| == |moves| + 1 && Initial(states[0], |calls|)
    && forall k | 0 <= k < |moves| ::
         Enabled(states[k], |calls|, moves[k]) && states[k + 1] == Take(states[k], calls, execute, moves[k])
  }

  // ----- what every schedule keeps --------------------------------------------------------

  predicate Works<R>(p: Pool<R>, w: nat, i: nat) {
    w < |p.workers| && p.workers[w] == Busy(i)
  }

  predicate Distinct(s: seq<nat>) {
    forall i, j | 0 <= i < j < |s| :: s[i] != s[j]
  }

  /** No index is with two workers, or with a worker and finished at once. */
  ghost predicate Exclusive<R>(p: Pool<R>) {
    && (forall v: nat, w: nat, i: nat :: Works(p, v, i) && Works(p, w, i) ==> v == w)
    && (forall w: nat, i: nat :: Works(p, w, i) ==> i < p.next && i !in p.finished)
    && Distinct(p.finished)
  }

  /** Every index that was handed out is with a worker or finished, and only those. */
  ghost predicate Accounted<R>(p: Pool<R>) {
    && (forall i <- p.finished :: i < p.next)
    && (forall i: nat | i < p.next :: i in p.finished || exists w :: Works(p, w, i))
  }

  ghost predicate Correct<C, R>(p: Pool<R>, calls: seq<C>, execute: (nat, C) -> R) {
    && |p.results| == |calls| && p.next <= |calls|
    && forall i | 0 <= i < |calls| ::
         p.results[i] == if i in p.finished then Some(execute(i, calls[i])) else None
  }

  ghost predicate Closing<R>(p: Pool<R>, n: nat) {
    && (p.closed ==> p.next == n)
    && (forall w | 0 <= w < |p.workers| :: p.workers[w].Exited? ==> p.closed)
    && |p.workers| == (if n < MAXIMUM_WORKERS then n else MAXIMUM_WORKERS)
  }

  ghost predicate Invariant<C, R>(p: Pool<R>, calls: seq<C>, execute: (nat, C) -> R) {
    Exclusive(p) && Accounted(p) && Correct(p, calls, execute) && Closing(p, |calls|)
  }

  lemma {:induction false} HandKeeps<C, R>(p: Pool<R>, calls: seq<C>, execute: (nat, C) -> R, w: nat)
    requires Invariant(p, calls, execute) && Enabled(p, |calls|, Hand(w))
    ensures Invariant(Take(p, calls, execute, Hand(w)), calls, execute)
  {
    var q := Take(p, calls, execute, Hand(w));
    forall v: nat, i: nat ensures Works(q, v, i) <==> if v == w then i == p.next else Works(p, v, i) {
    }
    assert Works(q, w, p.next);
    forall i: nat | i < p.next && i !in p.finished ensures exists v :: Works(q, v, i) {
      var v :| Works(p, v, i);
      assert Works(q, v, i);
    }
  }

  lemma {:induction false} FinishKeeps<C, R>(p: Pool<R>, calls: seq<C>, execute: (nat, C) -> R, w: nat)
    requires Invariant(p, calls, execute) && Enabled(p, |calls|, Finish(w))
    ensures Invariant(Take(p, calls, execute, Finish(w)), calls, execute)
  {
    var q, done := Take(p, calls, execute, Finish(w)), p.workers[w].index;
    assert Works(p, w, done);
    forall v: nat, i: nat ensures Works(q, v, i) <==> v != w && Works(p, v, i) {
    }
    assert forall i :: i in q.finished <==> i in p.finished || i == done;
    forall i: nat | i < p.next && i !in q.finished ensures exists v :: Works(q, v, i) {
      var v :| Works(p, v, i);
      assert Works(q, v, i);
    }
  }

  lemma {:induction false} LeaveKeeps<C, R>(p: Pool<R>, calls: seq<C>, execute: (nat, C) -> R, m: Move)
    requires Invariant(p, calls, execute) && Enabled(p, |calls|, m) && (m.Close? || m.Exit?)
    ensures Invariant(Take(p, calls, execute, m), calls, execute)
  {
    var q := Take(p, calls, execute, m);
    forall v: nat, i: nat ensures Works(q, v, i) <==> Works(p, v, i) {
    }
    forall i: nat | i < p.next && i !in p.finished ensures exists v :: Works(q, v, i) {
      var v :| Works(p, v, i);
      assert Works(q, v, i);
    }
  }

  lemma {:induction false} RunKeeps<C, R>(states: seq<Pool<R>>, calls: seq<C>, execute: (nat, C) -> R,
                                          moves: seq<Move>, k: nat)
    requires IsRun(states, calls, execute, moves) && k <= |moves|
    ensures Invariant(states[k], calls, execute)
  {
    if k > 0 {
      RunKeeps(states, calls, execute, moves, k - 1);
      match moves[k - 1] {
        case Hand(w) => HandKeeps(states[k - 1], calls, execute, w);
        case Finish(w) => FinishKeeps(states[k - 1], calls, execute, w);
        case _ => LeaveKeeps(states[k - 1], calls, execute, moves[k - 1]);
      }
    }
  }

  // ----- termination ----------------------------------------------------------------------

  function Weight(workers: seq<Worker>): nat {
    if workers == [] then 0
    else
      var last := workers[|workers| - 1];
      Weight(workers[..|workers| - 1]) + WorkerWeight(last)
  }

  function WorkerWeight(worker: Worker): nat {
    match worker case Idle => 1 case Busy(_) => 2 case Exited => 0
  }

  lemma {:induction false} WeightUpdate(workers: seq<Worker>, w: nat, worker: Worker)
    requires w < |workers|
    ensures Weight(workers[w := worker]) + WorkerWeight(workers[w]) == Weight(workers) + WorkerWeight(worker)
  {
    var changed, n := workers[w := worker], |workers| - 1;
    if w == n {
      assert changed[..n] == workers[..n];
    } else {
      WeightUpdate(workers[..n], w, worker);
      assert changed[..n] == workers[..n][w := worker];
    }
  }

  lemma {:induction false} WeightIsZeroIff(workers: seq<Worker>)
    ensures Weight(workers) == 0 <==> forall w | 0 <= w < |workers| :: workers[w].Exited?
  {
    if workers != [] {
      WeightIsZeroIff(workers[..|workers| - 1]);
      assert workers == workers[..|workers| - 1] + [workers[|workers| - 1]];
    }
  }

  lemma {:induction false} IdleWeight(workers: seq<Worker>)
    requires forall w | 0 <= w < |workers| :: workers[w].Idle?
    ensures Weight(workers) == |workers|
  {
    if workers != [] {
      IdleWeight(workers[..|workers| - 1]);
    }
  }

  /** The moves that are still to come. */
  function Remaining<R>(p: Pool<R>, n: nat): int {
    2 * (n - p.next) + Weight(p.workers) + if p.closed then 0 else 1
  }

  lemma {:induction false} MoveCounts<C, R>(p: Pool<R>, calls: seq<C>, execute: (nat, C) -> R, m: Move)
    requires Enabled(p, |calls|, m)
    ensures Remaining(Take(p, calls, execute, m), |calls|) == Remaining(p, |calls|) - 1
  {
    match m {
      case Hand(w) => WeightUpdate(p.workers, w, Busy(p.next));
      case Finish(w) => WeightUpdate(p.workers, w, Idle);
      case Close =>
      case Exit(w) => WeightUpdate(p.workers, w, Exited);
    }
  }

  lemma {:induction false} MovesAreCounted<C, R>(states: seq<Pool<R>>, calls: seq<C>, execute: (nat, C) -> R,
                                                 moves: seq<Move>, k: nat)
    requires IsRun(states, calls, execute, moves) && k <= |moves|
    ensures Remaining(states[k], |calls|) == 2 * |calls| + |states[0].workers| + 1 - k
  {
    hide Remaining, Initial, Take, Enabled;
    if k == 0 {
      StartCount(states[0], |calls|);
    } else {
      MovesAreCounted(states, calls, execute, moves, k - 1);
      MoveCounts(states[k - 1], calls, execute, moves[k - 1]);
    }
  }

  lemma {:induction false} StartCount<R>(p: Pool<R>, n: nat)
    requires Initial(p, n)
    ensures Remaining(p, n) == 2 * n + |p.workers| + 1
  {
    IdleWeight(p.workers);
  }

  /** As long as the batch has not returned, some move is possible: the pool cannot deadlock. */
  lemma {:induction false} NoDeadlock<C, R>(p: Pool<R>, calls: seq<C>, execute: (nat, C) -> R) returns (m: Move)
    requires Invariant(p, calls, execute) && !Done(p)
    ensures Enabled(p, |calls|, m)
  {
    var w :| 0 <= w < |p.workers| && !p.workers[w].Exited?;
    if p.workers[w].Busy? {
      assert Works(p, w, p.workers[w].index);
      m := Finish(w);
    } else if p.next < |calls| {
      m := Hand(w);
    } else if !p.closed {
      m := Close;
    } else {
      m := Exit(w);
    }
  }

  // ----- the refinement -------------------------------------------------------------------

  function Values<R>(results: seq<Option<R>>): seq<R>
    requires forall r <- results :: r.Some?
  {
    seq(|results|, i requires 0 <= i < |results| => assert results[i] in results; results[i].value)
  }

  /** When the batch returns, every index was executed exactly once. */
  lemma {:induction false} EachIndexOnce<C, R>(p: Pool<R>, calls: seq<C>, execute: (nat, C) -> R)
    requires Invariant(p, calls, execute) && Done(p) && calls != []
    ensures Distinct(p.finished) && forall i: nat :: i in p.finished <==> i < |calls|
  {
    assert p.workers[0].Exited?;
    assert forall w: nat, i: nat :: !Works(p, w, i);
  }

  /** Whatever the schedule of the workers: it is over after exactly 2 * calls + workers + 1 moves, at
      most four calls ever run at once, each index runs exactly once, and the slice equals the
      sequential one position by position. */
  lemma {:induction false} PoolRefinesSequential<C, R>(states: seq<Pool<R>>, calls: seq<C>,
                                                       execute: (nat, C) -> R, moves: seq<Move>)
    requires IsRun(states, calls, execute, moves) && |calls| >= 2
    ensures |moves| <= 2 * |calls| + |states[0].workers| + 1
    ensures Done(states[|moves|]) <==> |moves| == 2 * |calls| + |states[0].workers| + 1
    ensures Done(states[|moves|]) ==>
              var last := states[|moves|];
              && (forall r <- last.results :: r.Some?)
              && Values(last.results) == Sequential(calls, execute)
              && Distinct(last.finished) && (forall i: nat :: i in last.finished <==> i < |calls|)
  {
    var last := states[|moves|];
    RunKeeps(states, calls, execute, moves, |moves|);
    MovesAreCounted(states, calls, execute, moves, |moves|);
    DoneIffNothingRemains(last, calls, execute);
    if Done(last) {
      EachIndexOnce(last, calls, execute);
      ResultsAreSequential(last, calls, execute);
    }
  }

  lemma {:induction false} DoneIffNothingRemains<C, R>(p: Pool<R>, calls: seq<C>, execute: (nat, C) -> R)
    requires Invariant(p, calls, execute) && calls != []
    ensures Remaining(p, |calls|) >= 0
    ensures Done(p) <==> Remaining(p, |calls|) == 0
  {
    WeightIsZeroIff(p.workers);
    if Done(p) {
      assert p.workers[0].Exited?;
    }
  }

  lemma {:induction false} ResultsAreSequential<C, R>(p: Pool<R>, calls: seq<C>, execute: (nat, C) -> R)
    requires Correct(p, calls, execute) && forall i: nat :: i in p.finished <==> i < |calls|
    ensures forall r <- p.results :: r.Some?
    ensures Values(p.results) == Sequential(calls, execute)
  {
    forall r <- p.results ensures r.Some? {
      var i :| 0 <= i < |p.results| && p.results[i] == r;
    }
  }

  /** The calls that run at a moment: distinct, and no more than four. */
  function Running(workers: seq<Worker>): seq<nat> {
    if workers == [] then []
    else
      var last := workers[|workers| - 1];
      Running(workers[..|workers| - 1]) + if last.Busy? then [last.index] else []
  }

  lemma {:induction false} RunningIsBounded(workers: seq<Worker>)
    ensures |Running(workers)| <= |workers|
    ensures forall i :: i in Running(workers) <==> exists w | 0 <= w < |workers| :: workers[w] == Busy(i)
  {
    if workers != [] {
      RunningIsBounded(workers[..|workers| - 1]);
      assert workers == workers[..|workers| - 1] + [workers[|workers| - 1]];
    }
  }

  lemma {:induction false} AtMostFourAtOnce<C, R>(states: seq<Pool<R>>, calls: seq<C>, execute: (nat, C) -> R,
                                                  moves: seq<Move>, k: nat)
    requires IsRun(states, calls, execute, moves) && k <= |moves|
    ensures |Running(states[k].workers)| <= MAXIMUM_WORKERS
    ensures forall i :: i in Running(states[k].workers) ==> i < |calls| && i !in states[k].finished
  {
    RunKeeps(states, calls, execute, moves, k);
    RunningIsBounded(states[k].workers);
    forall i | i in Running(states[k].workers) ensures i < |calls| && i !in states[k].finished {
      var w :| 0 <= w < |states[k].workers| && states[k].workers[w] == Busy(i);
      assert Works(states[k], w, i);
    }
  }
}
