/** The retry schedule under a single retry worker: how often a row is executed, how far apart, and that it ends. Anchor
    workers and crashes may interleave freely. */
module RetryBackoff {
  import opened Common
  import opened AnchorTables
  import opened AnchorWorkers
  import opened AnchorProofs

  // ----- the delays -----

  lemma {:induction false} Pow2Grows(m: nat, n: nat)
    requires m <= n
    ensures Pow2(m) <= Pow2(n)
  {
    if m < n {
      Pow2Grows(m, n - 1);
    }
  }

  /** The wait doubles from one minute and is cut at an hour exactly from the seventh failure on. */
  lemma DelayIsCappedFromTheSeventh(n: nat)
    requires n >= 1
    ensures Delay(n) == MAX_DELAY_MS <==> n >= 7
    ensures n <= 6 ==> Delay(n) == BASE_DELAY_MS * Pow2(n - 1)
  {
    assert Pow2(5) == 32 && Pow2(6) == 64;
    if n >= 7 {
      Pow2Grows(6, n - 1);
    } else {
      Pow2Grows(n - 1, 5);
    }
  }

  function TotalDelay(m: nat): nat {
    if m == 0 then 0 else TotalDelay(m - 1) + Delay(m)
  }

  // ----- one row and its tries -----

  /** The (i+1)-th execution waited for the i-th delay after the i-th failure. */
  predicate Waited(starts: seq<int>, failures: seq<int>, i: nat)
    requires 1 <= i < |starts| && i <= |failures|
  {
    failures[i - 1] + Delay(i) <= starts[i]
  }

  ghost predicate Spaced(t: Tries, clock: int) {
    && |t.failures| <= |t.starts| <= |t.failures| + 1
    && (forall i :: 0 <= i < |t.starts| ==> t.starts[i] <= clock)
    && (forall i :: 0 <= i < |t.failures| ==> t.starts[i] <= t.failures[i] <= clock)
    && (forall i: nat :: 1 <= i < |t.starts| ==> Waited(t.starts, t.failures, i))
  }

  predicate StatusFits(p: Pending, t: Tries) {
    match p.status
    case PENDING => p.attemptCount == 0 && p.nextRetryAt == None && t == Tries([], [])
    case FAILED =>
      && 1 <= p.attemptCount == |t.failures| == |t.starts| < p.maxAttempts
      && p.nextRetryAt == Some(t.failures[|t.failures| - 1] + Delay(|t.failures|))
    case PROCESSING => p.attemptCount == |t.failures| == |t.starts| - 1 < p.maxAttempts
    case SUCCESS => p.attemptCount == |t.starts| == |t.failures| + 1 <= p.maxAttempts
    case DLQ => p.attemptCount == |t.starts| == |t.failures| <= p.maxAttempts
  }

  ghost predicate RowFits(p: Pending, t: Tries, clock: int) {
    p.maxAttempts >= 1 && (p.isDlq <==> p.status.DLQ?) && StatusFits(p, t) && Spaced(t, clock)
  }

  lemma LockFits(p: Pending, t: Tries, clock: int)
    requires RowFits(p, t, clock) && Due(p, clock)
    ensures RowFits(Lock(p), t.(starts := t.starts + [clock]), clock)
  {
    var starts := t.starts + [clock];
    forall i: nat | 1 <= i < |starts| ensures Waited(starts, t.failures, i) {
      assert i < |t.starts| ==> Waited(t.starts, t.failures, i);
    }
  }

  lemma FailFits(p: Pending, t: Tries, snapshot: Pending, critical: bool, clock: int)
    requires RowFits(p, t, clock) && p.status.PROCESSING? && p == Lock(snapshot)
    ensures RowFits(Fail(p, snapshot, critical, clock), t.(failures := t.failures + [clock]), clock)
  {
    var failures := t.failures + [clock];
    forall i: nat | 1 <= i < |t.starts| ensures Waited(t.starts, failures, i) {
      assert Waited(t.starts, t.failures, i);
    }
  }

  lemma SucceedFits(p: Pending, t: Tries, snapshot: Pending, clock: int)
    requires RowFits(p, t, clock) && p.status.PROCESSING? && p == Lock(snapshot)
    ensures RowFits(Succeed(p, snapshot), t, clock)
  {
  }

  // ----- the table and the worker -----

  ghost predicate RowsFit(pending: seq<Pending>, tries: seq<Tries>, clock: int) {
    |tries| == |pending| && forall id :: 0 <= id < |pending| ==> RowFits(pending[id], tries[id], clock)
  }

  /** What the worker fetched is still what the table holds, but for the row it has locked. */
  ghost predicate WorkerFits(worker: RetryWorker, pending: seq<Pending>, clock: int) {
    && (forall i, j :: 0 <= i < j < |worker.todo| ==> worker.todo[i].id != worker.todo[j].id)
    && (forall i :: 0 <= i < |worker.todo| ==>
          && worker.todo[i].id < |pending|
          && Due(worker.todo[i].row, clock)
          && pending[worker.todo[i].id] == if i == 0 && worker.running then Lock(worker.todo[i].row)
             else worker.todo[i].row)
  }

  ghost predicate Fit(s: State, r: nat) {
    && RowsFit(s.tables.pending, s.tries, s.clock)
    && (forall q :: q in s.retriers ==> q == r && WorkerFits(s.retriers[q], s.tables.pending, s.clock))
  }

  predicate BelongsTo(step: Step, r: nat) {
    match step
    case Fetch(q, _, _) => q == r
    case TryLock(q) => q == r
    case Finish(q, _) => q == r
    case CrashRetry(q) => q == r
    case _ => true
  }

  lemma ClockKeepsFit(s: State, r: nat, now: int)
    requires Fit(s, r) && s.clock <= now
    ensures RowsFit(s.tables.pending, s.tries, now)
    ensures r in s.retriers ==> WorkerFits(s.retriers[r], s.tables.pending, now)
  {
  }

  lemma NewRowKeepsFit(s: State, r: nat, p: Pending)
    requires Fit(s, r) && p.maxAttempts >= 1 && !p.isDlq && StatusFits(p, Tries([], [])) && p.status.PENDING?
    ensures RowsFit(s.tables.pending + [p], s.tries + [Tries([], [])], s.clock)
    ensures r in s.retriers ==> WorkerFits(s.retriers[r], s.tables.pending + [p], s.clock)
  {
  }

  lemma FetchKeepsFit(s: State, r: nat, step: Step)
    requires Fit(s, r) && Enabled(s, step) && step.Fetch? && BelongsTo(step, r)
    ensures Fit(Apply(s, step), r)
  {
    var s' := Apply(s, step);
    assert s' == s.(retriers := RetriersAfter(s, step));
    var todo := s'.retriers[r].todo;
    forall i, j | 0 <= i < j < |todo| ensures todo[i].id != todo[j].id {
      assert step.rows[i] != step.rows[j];
    }
  }

  lemma TryLockKeepsFit(s: State, r: nat, step: Step)
    requires Fit(s, r) && Enabled(s, step) && step.TryLock? && BelongsTo(step, r)
    ensures IsLocked(s, step) && Fit(Apply(s, step), r)
  {
    var tx := s.retriers[r].todo[0];
    var p, t := s.tables.pending[tx.id], s.tries[tx.id];
    LockFits(p, t, s.clock);
    var s' := Apply(s, step);
    assert s'.tables.pending == s.tables.pending[tx.id := Lock(p)];
    assert s'.tries == s.tries[tx.id := t.(starts := t.starts + [s.clock])];
    assert s'.retriers == s.retriers[r := s.retriers[r].(running := true)];
  }

  lemma FinishKeepsFit(s: State, r: nat, step: Step)
    requires Fit(s, r) && Enabled(s, step) && step.Finish? && BelongsTo(step, r)
    ensures Fit(Apply(s, step), r)
  {
    var worker := s.retriers[r];
    var tx := worker.todo[0];
    var p, t := s.tables.pending[tx.id], s.tries[tx.id];
    var s' := Apply(s, step);
    SettledFits(s.tables.events, p, t, tx.row, step.outcome, s.clock);
    assert s'.tables.pending == s.tables.pending[tx.id := Settled(s.tables.events, p, tx.row, step.outcome, s.clock)];
    assert s'.retriers == s.retriers[r := NextRow(worker)];
    forall i | 0 <= i < |worker.todo| - 1 ensures worker.todo[1..][i] == worker.todo[i + 1]
        && worker.todo[i + 1].id != tx.id {
    }
  }

  lemma SettledFits(events: map<string, Event>, p: Pending, t: Tries, snapshot: Pending, outcome: Outcome, clock: int)
    requires RowFits(p, t, clock) && p.status.PROCESSING? && p == Lock(snapshot)
    ensures var t' := if outcome.Succeeded? && !SuccessThrows(events, snapshot, outcome.txId) then t
            else t.(failures := t.failures + [clock]);
            RowFits(Settled(events, p, snapshot, outcome, clock), t', clock)
  {
    match outcome
    case Succeeded(txId) => if SuccessThrows(events, snapshot, txId) { FailFits(p, t, snapshot, false, clock); }
      else { SucceedFits(p, t, snapshot, clock); }
    case Failed(message) => FailFits(p, t, snapshot, IsCriticalError(message), clock);
    case Threw(_) => FailFits(p, t, snapshot, false, clock);
  }

  lemma StepKeepsFit(s: State, r: nat, step: Step)
    requires Fit(s, r) && Enabled(s, step) && BelongsTo(step, r)
    ensures Fit(Apply(s, step), r)
  {
    match step {
      case Tick(now) => ClockKeepsFit(s, r, now);
      case Enqueue(tenant, txRef, txType, chain) => NewRowKeepsFit(s, r, NewPending(tenant, txRef, txType, chain));
      case WriteQueued(_, _) => NewRowKeepsFit(s, r, PendingAfter(s, step)[|s.tables.pending|]);
      case Fetch(_, _, _) => FetchKeepsFit(s, r, step);
      case TryLock(_) => TryLockKeepsFit(s, r, step);
      case Finish(_, _) => FinishKeepsFit(s, r, step);
      case _ =>
    }
  }

  /** A start: nobody at work, and every row as `enqueue` leaves it, with any limit of at least one attempt. */
  ghost predicate Untried(s: State) {
    && s.retriers == map[]
    && |s.tries| == |s.tables.pending|
    && (forall id :: 0 <= id < |s.tries| ==> s.tries[id] == Tries([], []))
    && (forall id :: 0 <= id < |s.tables.pending| ==>
          var p := s.tables.pending[id];
          p.status.PENDING? && p.attemptCount == 0 && p.nextRetryAt == None && !p.isDlq && p.maxAttempts >= 1)
  }

  ghost predicate OneRetrier(s: State, steps: seq<Step>, r: nat) {
    Untried(s) && Possible(s, steps) && forall i :: 0 <= i < |steps| ==> BelongsTo(steps[i], r)
  }

  lemma {:induction false} RunKeepsFit(s: State, steps: seq<Step>, r: nat)
    requires OneRetrier(s, steps, r)
    ensures Fit(After(s, steps), r)
  {
    if steps == [] {
    } else {
      RunKeepsFit(s, steps[..|steps| - 1], r);
      StepKeepsFit(After(s, steps[..|steps| - 1]), r, steps[|steps| - 1]);
    }
  }

  // ----- what a single retry worker guarantees -----

  /** A row is executed at most `maxAttempts` times; while it is open it has attempts left; only failures count before
      it closes, and a closed row counts every execution. */
  lemma AttemptsAreBounded(s: State, steps: seq<Step>, r: nat, id: nat)
    requires OneRetrier(s, steps, r) && id < |After(s, steps).tables.pending|
    ensures var now := After(s, steps);
            && id < |now.tries|
            && var p, t := now.tables.pending[id], now.tries[id];
               && |t.starts| <= p.maxAttempts
               && p.attemptCount == (if IsClosed(p.status) then |t.starts| else |t.failures|)
               && (!IsClosed(p.status) ==> p.attemptCount < p.maxAttempts)
  {
    RunKeepsFit(s, steps, r);
    assert RowFits(After(s, steps).tables.pending[id], After(s, steps).tries[id], After(s, steps).clock);
  }

  lemma {:induction false} SpacedAdds(t: Tries, clock: int, m: nat)
    requires Spaced(t, clock) && 1 <= m < |t.starts|
    ensures t.failures[0] + TotalDelay(m) <= t.starts[m]
  {
    assert Waited(t.starts, t.failures, m);
    if m > 1 {
      SpacedAdds(t, clock, m - 1);
    } else {
      assert TotalDelay(0) == 0;
    }
  }

  /** Execution m + 1 starts no earlier than the first failure plus the first m delays. */
  lemma ExecutionsAreSpaced(s: State, steps: seq<Step>, r: nat, id: nat, m: nat)
    requires OneRetrier(s, steps, r)
    requires id < |After(s, steps).tries| && 1 <= m < |After(s, steps).tries[id].starts|
    ensures var t := After(s, steps).tries[id];
            m <= |t.failures| && t.failures[0] + TotalDelay(m) <= t.starts[m]
  {
    RunKeepsFit(s, steps, r);
    var now := After(s, steps);
    assert RowFits(now.tables.pending[id], now.tries[id], now.clock);
    SpacedAdds(now.tries[id], now.clock, m);
  }

  /** With the default of five attempts the longest wait ever scheduled is eight minutes: the fifth delay is never
      used. */
  lemma FiveAttemptsWaitAtMostEightMinutes(s: State, steps: seq<Step>, r: nat, id: nat)
    requires OneRetrier(s, steps, r) && id < |After(s, steps).tables.pending|
    requires var p := After(s, steps).tables.pending[id]; p.maxAttempts == DEFAULT_MAX_ATTEMPTS && p.status.FAILED?
    ensures var now := After(s, steps);
            && id < |now.tries| && now.tries[id].failures != [] && now.tables.pending[id].nextRetryAt.Some?
            && now.tables.pending[id].nextRetryAt.value <= now.tries[id].failures[|now.tries[id].failures| - 1] + 480000
  {
    RunKeepsFit(s, steps, r);
    var now := After(s, steps);
    assert RowFits(now.tables.pending[id], now.tries[id], now.clock);
    var n := |now.tries[id].failures|;
    DelayIsCappedFromTheSeventh(n);
    Pow2Grows(n - 1, 3);
    assert Pow2(3) == 8;
  }

  // ----- it ends -----

  /** Attempts a row may still take. */
  function Remaining(p: Pending): int {
    if IsClosed(p.status) then 0 else p.maxAttempts - p.attemptCount
  }

  function Work(pending: seq<Pending>): int {
    Sum(pending, (p: Pending) => Remaining(p))
  }

  lemma WorkAppend(pending: seq<Pending>, p: Pending)
    ensures Work(pending + [p]) == Work(pending) + Remaining(p)
  {
    SumAppend(pending, p, (p: Pending) => Remaining(p));
  }

  lemma WorkUpdate(pending: seq<Pending>, id: nat, p: Pending)
    requires id < |pending|
    ensures Work(pending[id := p]) == Work(pending) - Remaining(pending[id]) + Remaining(p)
  {
    var f := (p: Pending) => Remaining(p);
    var before, after := pending[..id], pending[id + 1..];
    assert pending == before + [pending[id]] + after;
    assert pending[id := p] == before + [p] + after;
    SumConcat(before + [pending[id]], after, f);
    SumConcat(before + [p], after, f);
    SumAppend(before, pending[id], f);
    SumAppend(before, p, f);
  }

  function Finishes(steps: seq<Step>): nat {
    if steps == [] then 0 else Finishes(steps[..|steps| - 1]) + if steps[|steps| - 1].Finish? then 1 else 0
  }

  function Enqueues(steps: seq<Step>): nat {
    if steps == [] then 0
    else Enqueues(steps[..|steps| - 1]) + if steps[|steps| - 1].Enqueue?
      || steps[|steps| - 1].WriteQueued? then 1 else 0
  }

  lemma FinishLowersWork(s: State, r: nat, outcome: Outcome)
    requires Fit(s, r) && Enabled(s, Finish(r, outcome))
    ensures Work(PendingAfter(s, Finish(r, outcome))) < Work(s.tables.pending)
  {
    var tx := s.retriers[r].todo[0];
    assert RowFits(s.tables.pending[tx.id], s.tries[tx.id], s.clock);
    WorkUpdate(s.tables.pending, tx.id, Settled(s.tables.events, s.tables.pending[tx.id], tx.row, outcome, s.clock));
  }

  /** Every finished execution uses up remaining attempts; only a new row adds any. */
  lemma StepLowersWork(s: State, r: nat, step: Step)
    requires Fit(s, r) && Enabled(s, step) && BelongsTo(step, r)
    ensures var work, work' := Work(s.tables.pending), Work(PendingAfter(s, step));
            if step.Finish? then work' < work
            else if step.Enqueue? || step.WriteQueued? then work' == work + DEFAULT_MAX_ATTEMPTS
            else work' == work
  {
    var pending := s.tables.pending;
    match step {
      case Enqueue(tenant, txRef, txType, chain) => WorkAppend(pending, NewPending(tenant, txRef, txType, chain));
      case WriteQueued(_, _) => WorkAppend(pending, PendingAfter(s, step)[|pending|]);
      case TryLock(_) => WorkUpdate(pending, s.retriers[r].todo[0].id, Lock(pending[s.retriers[r].todo[0].id]));
      case Finish(_, outcome) => FinishLowersWork(s, r, outcome);
      case _ =>
    }
  }

  lemma {:induction false} WorkIsNat(pending: seq<Pending>, tries: seq<Tries>, clock: int)
    requires RowsFit(pending, tries, clock)
    ensures Work(pending) >= 0
  {
    if pending == [] {
    } else {
      var n := |pending| - 1;
      assert RowFits(pending[n], tries[n], clock);
      WorkIsNat(pending[..n], tries[..n], clock);
    }
  }

  /** Retrying ends: with new rows kept out, no more executions finish than there were attempts to spend. */
  lemma {:induction false} RetryingEnds(s: State, steps: seq<Step>, r: nat)
    requires OneRetrier(s, steps, r)
    ensures 0 <= Work(After(s, steps).tables.pending)
    ensures Finishes(steps) + Work(After(s, steps).tables.pending) <= Work(s.tables.pending)
            + DEFAULT_MAX_ATTEMPTS * Enqueues(steps)
  {
    RunKeepsFit(s, steps, r);
    WorkIsNat(After(s, steps).tables.pending, After(s, steps).tries, After(s, steps).clock);
    if steps == [] {
    } else {
      var before := steps[..|steps| - 1];
      RetryingEnds(s, before, r);
      RunKeepsFit(s, before, r);
      StepLowersWork(After(s, before), r, steps[|steps| - 1]);
    }
  }
}
