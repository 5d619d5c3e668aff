/** When the attempt limit of a pending transaction holds, with any number of retry workers. */
module RetryLimit {
  import opened Common
  import opened AnchorTables
  import opened AnchorWorkers
  import opened AnchorProofs
  import opened AnchorRewrites
  import opened RetryBackoff

  // ----- a limit of one -----

  /** A row with a single attempt is never up for a second one. */
  predicate Once(p: Pending, t: Tries) {
    p.maxAttempts == 1 ==> !p.status.FAILED? && |t.starts| == if p.status.PENDING? then 0 else 1
  }

  ghost predicate AllOnce(pending: seq<Pending>, tries: seq<Tries>) {
    |tries| == |pending| && forall i :: 0 <= i < |pending| ==> Once(pending[i], tries[i])
  }

  lemma StepKeepsOnce(s: State, step: Step)
    requires Enabled(s, step) && AllOnce(s.tables.pending, s.tries)
    requires RunApart(s.tables.pending, s.retriers) && RowsKeepTheirJob(s.tables.pending, s.retriers)
    ensures AllOnce(PendingAfter(s, step), TriesAfter(s, step))
  {
    var pending', tries' := PendingAfter(s, step), TriesAfter(s, step);
    if step.Finish? {
      var tx := s.retriers[step.r].todo[0];
      assert SameJob(s.tables.pending, tx) && Executes(s.retriers, step.r, tx.id);
      assert Once(s.tables.pending[tx.id], s.tries[tx.id]);
      assert Once(pending'[tx.id], tries'[tx.id]);
    }
    forall i | 0 <= i < |pending'| ensures Once(pending'[i], tries'[i]) {
      assert i < |s.tables.pending| ==> Once(s.tables.pending[i], s.tries[i]);
    }
  }

  lemma {:induction false} RunKeepsOnce(s: State, steps: seq<Step>)
    requires Untried(s) && Possible(s, steps)
    ensures var now := After(s, steps);
            && AllOnce(now.tables.pending, now.tries)
            && RunApart(now.tables.pending, now.retriers) && RowsKeepTheirJob(now.tables.pending, now.retriers)
  {
    if steps == [] {
    } else {
      var before := steps[..|steps| - 1];
      RunKeepsOnce(s, before);
      StepKeepsOnce(After(s, before), steps[|steps| - 1]);
      StepRunsApart(After(s, before), steps[|steps| - 1]);
      StepKeepsRows(After(s, before), steps[|steps| - 1]);
    }
  }

  // ----- two workers -----

  /** One row with the given limit, not yet tried. */
  function OneRow(limit: int): State {
    State(Tables(map[], [FreshRow().(maxAttempts := limit)]), map[], map[], [Tries([], [])], 0)
  }

  /** The row has failed `count` times by its own counting, and has been executed `total` times. */
  predicate Counts(s: State, limit: int, count: nat, total: nat) {
    && |s.tables.pending| == |s.tries| == 1
    && var p := s.tables.pending[0];
       && Lockable(p.status) && !p.isDlq && p.attemptCount == count && p.maxAttempts == limit
       && |s.tries[0].starts| == total
  }

  predicate Idle(s: State, r: nat) {
    r in s.retriers ==> s.retriers[r] == RetryWorker([], false)
  }

  /** Worker b still has the fresh row in hand. */
  predicate HasFresh(s: State, b: nat, limit: int) {
    b in s.retriers && s.retriers[b] == RetryWorker([Fetched(0, FreshRow().(maxAttempts := limit))], false)
  }

  predicate UsesOnly(steps: seq<Step>, workers: set<nat>) {
    forall i :: 0 <= i < |steps| ==> StepOf(steps[i], workers)
  }

  predicate StepOf(step: Step, workers: set<nat>) {
    match step
    case Fetch(r, _, _) => r in workers
    case TryLock(r) => r in workers
    case Finish(r, _) => r in workers
    case CrashRetry(r) => r in workers
    case _ => true
  }

  lemma FetchesAndLocks(s: State, r: nat, limit: int, count: nat, total: nat) returns (steps: seq<Step>, s': State)
    requires Counts(s, limit, count, total) && Idle(s, r) && Due(s.tables.pending[0], s.clock)
    ensures Possible(s, steps) && After(s, steps) == s' && UsesOnly(steps, {r})
    ensures |s'.tables.pending| == |s'.tries| == 1 && |s'.tries[0].starts| == total + 1
    ensures s'.tables.pending[0] == Lock(s.tables.pending[0])
    ensures s'.retriers == s.retriers[r := RetryWorker([Fetched(0, s.tables.pending[0])], true)]
  {
    var fetched := FetchAlone(s, r, 0);
    OneStep(s, Fetch(r, s.clock, [0]));
    s' := LockAlone(fetched, r, 0, s.tables.pending[0]);
    Extends(s, [Fetch(r, s.clock, [0])], fetched, TryLock(r), s');
    steps := [Fetch(r, s.clock, [0])] + [TryLock(r)];
  }

  /** Worker r waits until the row is due, fetches and locks it. */
  lemma Takes(s: State, r: nat, limit: int, count: nat, total: nat) returns (steps: seq<Step>, s': State)
    requires Counts(s, limit, count, total) && Idle(s, r)
    ensures Possible(s, steps) && After(s, steps) == s' && UsesOnly(steps, {r})
    ensures |s'.tables.pending| == |s'.tries| == 1 && |s'.tries[0].starts| == total + 1
    ensures s'.tables.pending[0] == Lock(s.tables.pending[0])
    ensures s'.retriers == s.retriers[r := RetryWorker([Fetched(0, s.tables.pending[0])], true)]
  {
    var p := s.tables.pending[0];
    var now := if p.nextRetryAt.Some? && p.nextRetryAt.value > s.clock then p.nextRetryAt.value else s.clock;
    OneStep(s, Tick(now));
    var later := Apply(s, Tick(now));
    assert later == s.(clock := now);
    var more;
    more, s' := FetchesAndLocks(later, r, limit, count, total);
    RunsJoin(s, [Tick(now)], more);
    steps := [Tick(now)] + more;
  }

  /** The execution worker r is at fails, with attempts left by its own snapshot. */
  lemma Fails(s: State, r: nat, row: Pending) returns (step: Step, s': State)
    requires r in s.retriers && s.retriers[r] == RetryWorker([Fetched(0, row)], true)
    requires |s.tables.pending| == |s.tries| == 1
    requires !s.tables.pending[0].isDlq && s.tables.pending[0].maxAttempts == row.maxAttempts
             && row.attemptCount + 1 < row.maxAttempts
    ensures Enabled(s, step) && Apply(s, step) == s' && StepOf(step, {r})
    ensures Counts(s', row.maxAttempts, row.attemptCount + 1, |s.tries[0].starts|)
    ensures s'.retriers == s.retriers[r := RetryWorker([], false)]
  {
    step := Finish(r, Threw("no adapter"));
    s' := Apply(s, step);
    assert [Fetched(0, row)][1..] == [];
  }

  /** Worker a fails `times` times while worker b sits on its snapshot. */
  lemma {:induction false} FailsOften(limit: int, a: nat, b: nat, s: State, times: nat) returns (steps: seq<Step>)
    requires a != b && Counts(s, limit, 0, 0) && Idle(s, a) && HasFresh(s, b, limit) && times < limit
    ensures Possible(s, steps) && UsesOnly(steps, {a})
    ensures var now := After(s, steps); Counts(now, limit, times, times) && Idle(now, a) && HasFresh(now, b, limit)
  {
    if times == 0 {
      steps := [];
    } else {
      var before := FailsOften(limit, a, b, s, times - 1);
      var now := After(s, before);
      var taken, locked := Takes(now, a, limit, times - 1, times - 1);
      RunsJoin(s, before, taken);
      var step, failed := Fails(locked, a, now.tables.pending[0]);
      Extends(s, before + taken, locked, step, failed);
      steps := before + taken + [step];
    }
  }

  lemma BothFetch(limit: int, b: nat) returns (steps: seq<Step>)
    ensures Possible(OneRow(limit), steps) && UsesOnly(steps, {b})
    ensures var now := After(OneRow(limit), steps);
            Counts(now, limit, 0, 0) && HasFresh(now, b, limit) && forall a :: a != b ==> Idle(now, a)
  {
    var fetched := FetchAlone(OneRow(limit), b, 0);
    OneStep(OneRow(limit), Fetch(b, 0, [0]));
    steps := [Fetch(b, 0, [0])];
  }

  /** Worker b executes the row from its old snapshot, which sets the count back to one. */
  lemma StaleExecution(limit: int, s: State, a: nat, b: nat, count: nat, total: nat) returns (steps: seq<Step>)
    requires limit >= 2 && a != b && Counts(s, limit, count, total) && HasFresh(s, b, limit) && Idle(s, a)
    ensures Possible(s, steps) && UsesOnly(steps, {b})
    ensures Counts(After(s, steps), limit, 1, total + 1) && Idle(After(s, steps), a)
  {
    var row := FreshRow().(maxAttempts := limit);
    var locked := LockAlone(s, b, 0, row);
    OneStep(s, TryLock(b));
    var step, failed := Fails(locked, b, row);
    Extends(s, [TryLock(b)], locked, step, failed);
    steps := [TryLock(b)] + [step];
  }

  lemma UsesBoth(steps: seq<Step>, more: seq<Step>, workers: set<nat>, others: set<nat>)
    requires UsesOnly(steps, workers) && UsesOnly(more, others)
    ensures UsesOnly(steps + more, workers + others)
  {
    forall i | 0 <= i < |steps + more| ensures StepOf((steps + more)[i], workers + others) {
      assert i < |steps| ==> StepOf(steps[i], workers);
      assert i >= |steps| ==> StepOf(more[i - |steps|], others);
    }
  }

  lemma StaleRun(limit: int, a: nat, b: nat) returns (steps: seq<Step>)
    requires limit >= 2 && a != b
    ensures Possible(OneRow(limit), steps) && UsesOnly(steps, {b} + {a} + {b})
    ensures Counts(After(OneRow(limit), steps), limit, 1, limit) && Idle(After(OneRow(limit), steps), a)
  {
    var s := OneRow(limit);
    var fetch := BothFetch(limit, b);
    var most := FailsOften(limit, a, b, After(s, fetch), limit - 1);
    RunsJoin(s, fetch, most);
    UsesBoth(fetch, most, {b}, {a});
    var stale := StaleExecution(limit, After(s, fetch + most), a, b, limit - 1, limit - 1);
    RunsJoin(s, fetch + most, stale);
    UsesBoth(fetch + most, stale, {b} + {a}, {b});
    steps := fetch + most + stale;
  }

  /** Two workers: one fails all but the last attempt, the other then executes from its old snapshot, which sets the
      count back to one, and the first executes again. */
  lemma TwoRetriersExceedTheLimit(limit: int, a: nat, b: nat) returns (steps: seq<Step>)
    requires limit >= 2 && a != b
    ensures Untried(OneRow(limit)) && Possible(OneRow(limit), steps) && UsesOnly(steps, {a, b})
    ensures var now := After(OneRow(limit), steps);
            |now.tries| == |now.tables.pending| == 1 && now.tables.pending[0].maxAttempts == limit
              && |now.tries[0].starts| == limit + 1
  {
    var s := OneRow(limit);
    var stale := StaleRun(limit, a, b);
    var taken, last := Takes(After(s, stale), a, limit, 1, limit);
    RunsJoin(s, stale, taken);
    UsesBoth(stale, taken, {b} + {a} + {b}, {a});
    assert {b} + {a} + {b} + {a} == {a, b};
    steps := stale + taken;
  }

  // ----- exactly when -----

  /** A run of these workers from untried rows. */
  ghost predicate RunOf(s: State, steps: seq<Step>, workers: set<nat>) {
    Untried(s) && Possible(s, steps) && UsesOnly(steps, workers)
  }

  predicate WithinLimit(s: State, limit: int) {
    |s.tries| == |s.tables.pending|
    && forall id :: 0 <= id < |s.tries| ==> (s.tables.pending[id].maxAttempts == limit ==>
       |s.tries[id].starts| <= limit)
  }

  ghost predicate LimitHolds(limit: int, workers: set<nat>) {
    forall s, steps :: RunOf(s, steps, workers) ==> WithinLimit(After(s, steps), limit)
  }

  lemma OneWorkerKeepsTheLimit(s: State, steps: seq<Step>, workers: set<nat>, r: nat, limit: int)
    requires RunOf(s, steps, workers) && workers <= {r}
    ensures WithinLimit(After(s, steps), limit)
  {
    assert forall i :: 0 <= i < |steps| ==> StepOf(steps[i], workers);
    RunKeepsFit(s, steps, r);
    var now := After(s, steps);
    forall id | 0 <= id < |now.tries| ensures |now.tries[id].starts| <= now.tables.pending[id].maxAttempts {
      AttemptsAreBounded(s, steps, r, id);
    }
  }

  /** No row is ever executed more often than its limit, in any run of these workers, if and only if the limit is one or
      at most one worker retries. */
  lemma LimitHoldsIff(limit: int, workers: set<nat>)
    requires limit >= 1
    ensures LimitHolds(limit, workers) <==> limit == 1 || |workers| <= 1
  {
    if limit == 1 {
      forall s, steps | RunOf(s, steps, workers) ensures WithinLimit(After(s, steps), limit) {
        RunKeepsOnce(s, steps);
        var now := After(s, steps);
        assert forall id :: 0 <= id < |now.tries| ==> Once(now.tables.pending[id], now.tries[id]);
      }
    } else if |workers| <= 1 {
      var r := TheOnly(workers);
      forall s, steps | RunOf(s, steps, workers) ensures WithinLimit(After(s, steps), limit) {
        OneWorkerKeepsTheLimit(s, steps, workers, r, limit);
      }
    } else {
      var a, b := TwoOf(workers);
      var steps := TwoRetriersExceedTheLimit(limit, a, b);
      assert forall i :: 0 <= i < |steps| ==> StepOf(steps[i], {a, b});
      assert RunOf(OneRow(limit), steps, workers);
      assert !WithinLimit(After(OneRow(limit), steps), limit);
    }
  }

  lemma TwoOf(workers: set<nat>) returns (a: nat, b: nat)
    requires |workers| >= 2
    ensures a in workers && b in workers && a != b
  {
    a :| a in workers;
    var others := workers - {a};
    assert workers == others + {a};
    b :| b in others;
  }

  lemma TheOnly(workers: set<nat>) returns (r: nat)
    requires |workers| <= 1
    ensures workers <= {r}
  {
    if workers == {} {
      r := 0;
    } else {
      r :| r in workers;
      assert |workers - {r}| == 0;
    }
  }

  // ----- executions grow with the workers -----

  function FreshRow(): Pending {
    NewPending("t", "x", TRANSFER, "STELLAR")
  }

  /** The fresh row after failed attempts that all counted from the same snapshot. */
  function CountedOnce(k: nat): Pending {
    if k == 0 then FreshRow() else FreshRow().(status := FAILED, attemptCount := 1, nextRetryAt := Some(BASE_DELAY_MS))
  }

  /** n workers that fetched the fresh row, of which the first k have executed it. */
  function Fetchers(n: nat, k: nat): map<nat, RetryWorker> {
    map r <- Below(n) :: RetryWorker(if r < k then [] else [Fetched(0, FreshRow())], false)
  }

  function Below(n: nat): (r: set<nat>)
    ensures forall i: nat :: i in r <==> i < n
  {
    if n == 0 then {} else Below(n - 1) + {n - 1}
  }

  function Zeros(k: nat): seq<int> {
    seq(k, _ => 0)
  }

  function Crowd(n: nat, k: nat): State {
    State(Tables(map[], [CountedOnce(k)]), map[], Fetchers(n, k), [Tries(Zeros(k), Zeros(k))], 0)
  }

  lemma OneFetches(n: nat)
    ensures Enabled(Crowd(n, 0), Fetch(n, 0, [0])) && Apply(Crowd(n, 0), Fetch(n, 0, [0])) == Crowd(n + 1, 0)
  {
    var step := Fetch(n, 0, [0]);
    assert RetriersAfter(Crowd(n, 0), step)[n].todo == [Fetched(0, FreshRow())];
    assert RetriersAfter(Crowd(n, 0), step) == Fetchers(n + 1, 0);
  }

  lemma {:induction false} CrowdFetches(n: nat) returns (steps: seq<Step>)
    ensures Possible(Crowd(0, 0), steps) && After(Crowd(0, 0), steps) == Crowd(n, 0)
  {
    steps := [];
    if n == 0 {
    } else {
      var before := CrowdFetches(n - 1);
      OneFetches(n - 1);
      Extends(Crowd(0, 0), before, Crowd(n - 1, 0), Fetch(n - 1, 0, [0]), Crowd(n, 0));
      steps := before + [Fetch(n - 1, 0, [0])];
    }
  }

  /** Worker k has locked the row. */
  function CrowdLocked(n: nat, k: nat): State {
    State(Tables(map[], [Lock(CountedOnce(k))]), map[], Fetchers(n,
      k)[k := RetryWorker([Fetched(0, FreshRow())], true)],
          [Tries(Zeros(k) + [0], Zeros(k))], 0)
  }

  lemma OneLocks(n: nat, k: nat)
    requires k < n
    ensures Enabled(Crowd(n, k), TryLock(k)) && Apply(Crowd(n, k), TryLock(k)) == CrowdLocked(n, k)
  {
    assert Apply(Crowd(n, k), TryLock(k)).retriers == CrowdLocked(n, k).retriers;
  }

  lemma OneFinishes(n: nat, k: nat)
    requires k < n
    ensures Enabled(CrowdLocked(n, k), Finish(k, Threw("no adapter")))
    ensures Apply(CrowdLocked(n, k), Finish(k, Threw("no adapter"))) == Crowd(n, k + 1)
  {
    var end := Apply(CrowdLocked(n, k), Finish(k, Threw("no adapter")));
    assert Zeros(k) + [0] == Zeros(k + 1);
    assert Pow2(0) == 1;
    assert Fail(Lock(CountedOnce(k)), FreshRow(), false, 0) == CountedOnce(k + 1);
    assert end.tables.pending == [CountedOnce(k + 1)];
    assert [Fetched(0, FreshRow())][1..] == [];
    assert end.retriers == Fetchers(n, k + 1);
    assert end.tries == [Tries(Zeros(k + 1), Zeros(k + 1))];
  }

  /** Worker k takes its turn after a run that left k workers done. */
  lemma CrowdTurn(n: nat, k: nat, before: seq<Step>) returns (steps: seq<Step>)
    requires k < n && Possible(Crowd(0, 0), before) && After(Crowd(0, 0), before) == Crowd(n, k)
    ensures Possible(Crowd(0, 0), steps) && After(Crowd(0, 0), steps) == Crowd(n, k + 1)
  {
    OneLocks(n, k);
    Extends(Crowd(0, 0), before, Crowd(n, k), TryLock(k), CrowdLocked(n, k));
    OneFinishes(n, k);
    var locked := before + [TryLock(k)];
    Extends(Crowd(0, 0), locked, CrowdLocked(n, k), Finish(k, Threw("no adapter")), Crowd(n, k + 1));
    steps := locked + [Finish(k, Threw("no adapter"))];
  }

  lemma {:induction false} CrowdExecutes(n: nat, k: nat) returns (steps: seq<Step>)
    requires k <= n
    ensures Possible(Crowd(0, 0), steps) && After(Crowd(0, 0), steps) == Crowd(n, k)
  {
    if k == 0 {
      steps := CrowdFetches(n);
    } else {
      var before := CrowdExecutes(n, k - 1);
      steps := CrowdTurn(n, k - 1, before);
    }
  }

  /** Attempts are counted from the snapshot, so n workers that fetched the same fresh row execute it n times, one after
      the other, and it still counts one attempt: no number of executions is out of reach. */
  lemma NWorkersExecuteNTimes(n: nat) returns (s: State, steps: seq<Step>)
    requires n >= 1
    ensures Untried(s) && |s.tables.pending| == 1 && Possible(s, steps)
    ensures var now := After(s, steps);
            && |now.tries| == |now.tables.pending| == 1 && |now.tries[0].starts| == n
            && now.tables.pending[0].attemptCount == 1 && now.tables.pending[0].maxAttempts == DEFAULT_MAX_ATTEMPTS
            && Lockable(now.tables.pending[0].status)
  {
    s := Crowd(0, 0);
    steps := CrowdExecutes(n, n);
  }
}
