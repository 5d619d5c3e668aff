/** When the transaction id of an anchored event can still be replaced. */
module AnchorRewrites {
  import opened Common
  import opened AnchorTables
  import opened AnchorWorkers
  import opened AnchorProofs

  // ----- who can still write an event -----

  /** The worker holds the event and has not yet given it up to the retry worker. */
  predicate MayAnchor(anchors: map<nat, AnchorWorker>, w: nat, id: string) {
    Holds(anchors, w, id) && !(anchors[w].queued && anchors[w].todo[0] == id)
  }

  predicate RowOf(p: Pending, id: string) {
    p.txType.ANCHOR? && p.txRef == id
  }

  predicate ExecutesRowOf(pending: seq<Pending>, retriers: map<nat, RetryWorker>, r: nat, id: string) {
    Running(retriers, r) && retriers[r].todo[0].id < |pending| && RowOf(pending[retriers[r].todo[0].id], id)
  }

  /** An anchor worker may still anchor the event, or a retry row of it is open, or one is being executed. */
  ghost predicate MayBeRewritten(s: State, id: string) {
    || (exists w :: MayAnchor(s.anchors, w, id))
    || (exists i ::
        0 <= i < |s.tables.pending| && RowOf(s.tables.pending[i], id)
        && Lockable(s.tables.pending[i].status))
    || (exists r :: ExecutesRowOf(s.tables.pending, s.retriers, r, id))
  }

  // ----- what every reachable state keeps -----

  /** A fetched row still has the type and reference it was fetched with, and only dead letters carry the DLQ flag. */
  ghost predicate RowsKeepTheirJob(pending: seq<Pending>, retriers: map<nat, RetryWorker>) {
    && (forall r, i :: r in retriers && 0 <= i < |retriers[r].todo| ==> SameJob(pending, retriers[r].todo[i]))
    && (forall i :: 0 <= i < |pending| ==> (pending[i].isDlq ==> pending[i].status.DLQ?))
  }

  predicate SameJob(pending: seq<Pending>, tx: Fetched) {
    && tx.id < |pending| && pending[tx.id].txType == tx.row.txType && pending[tx.id].txRef == tx.row.txRef
    && pending[tx.id].maxAttempts == tx.row.maxAttempts
  }

  ghost predicate Consistent(s: State) {
    && HeldApart(s.tables.events, s.anchors)
    && RunApart(s.tables.pending, s.retriers)
    && RowsKeepTheirJob(s.tables.pending, s.retriers)
    && |s.tries| == |s.tables.pending|
  }

  /** Rows are only added, and keep their type, reference and limit. */
  lemma StepKeepsJobs(s: State, step: Step)
    requires Enabled(s, step)
    ensures |s.tables.pending| <= |PendingAfter(s, step)|
    ensures forall i :: 0 <= i < |s.tables.pending| ==>
              && PendingAfter(s, step)[i].txType == s.tables.pending[i].txType
              && PendingAfter(s, step)[i].txRef == s.tables.pending[i].txRef
              && PendingAfter(s, step)[i].maxAttempts == s.tables.pending[i].maxAttempts
  {
  }

  lemma StepKeepsRows(s: State, step: Step)
    requires Enabled(s, step)
    requires RunApart(s.tables.pending, s.retriers) && RowsKeepTheirJob(s.tables.pending, s.retriers)
    ensures RowsKeepTheirJob(PendingAfter(s, step), RetriersAfter(s, step))
  {
    var pending, pending', retriers' := s.tables.pending, PendingAfter(s, step), RetriersAfter(s, step);
    StepKeepsJobs(s, step);
    forall r, i | r in retriers' && 0 <= i < |retriers'[r].todo| ensures SameJob(pending', retriers'[r].todo[i]) {
      if r in s.retriers && retriers'[r].todo == s.retriers[r].todo {
        assert SameJob(pending, s.retriers[r].todo[i]);
      } else if step.Fetch? && step.r == r {
        assert Due(pending[step.rows[i]], step.now);
      } else if retriers'[r].todo != [] {
        assert SameJob(pending, s.retriers[r].todo[i + 1]);
      }
    }
    if step.Finish? {
      assert Executes(s.retriers, step.r, s.retriers[step.r].todo[0].id);
    }
  }

  lemma {:induction false} ReachableIsConsistent(events: map<string, Event>, steps: seq<Step>)
    requires Possible(Initial(events), steps)
    ensures Consistent(After(Initial(events), steps))
  {
    RunHoldsApart(Initial(events), steps);
    RunRunsApart(Initial(events), steps);
    if steps == [] {
    } else {
      ReachableIsConsistent(events, steps[..|steps| - 1]);
      StepKeepsRows(After(Initial(events), steps[..|steps| - 1]), steps[|steps| - 1]);
    }
  }

  // ----- nobody left: the id stands -----

  /** The step is a foreign request to retry the anchoring of this event. */
  predicate RequestsRetryOf(step: Step, id: string) {
    step.Enqueue? && step.txType.ANCHOR? && step.txRef == id
  }

  ghost predicate NoRequest(steps: seq<Step>, id: string) {
    forall i :: 0 <= i < |steps| ==> !RequestsRetryOf(steps[i], id)
  }

  lemma NobodyNewAnchors(s: State, step: Step, id: string)
    requires Enabled(s, step) && id in s.tables.events && Anchored(s.tables.events[id])
    requires HeldApart(s.tables.events, s.anchors)
    requires forall w :: !MayAnchor(s.anchors, w, id)
    ensures forall w :: !MayAnchor(AnchorsAfter(s, step), w, id)
  {
    forall w | MayAnchor(AnchorsAfter(s, step), w, id) ensures false {
      if w in s.anchors && s.anchors[w].todo != [] && AnchorsAfter(s, step)[w].todo == s.anchors[w].todo[1..] {
        var i :| 0 <= i < |s.anchors[w].todo[1..]| && s.anchors[w].todo[1..][i] == id;
        assert s.anchors[w].todo[i + 1] == id != s.anchors[w].todo[0];
      }
      assert MayAnchor(s.anchors, w, id);
    }
  }

  lemma NoRowReopens(s: State, step: Step, id: string)
    requires Enabled(s, step) && Consistent(s) && !RequestsRetryOf(step, id)
    requires !MayBeRewritten(s, id)
    ensures forall i :: 0 <= i < |PendingAfter(s, step)| && RowOf(PendingAfter(s, step)[i], id) ==>
            !Lockable(PendingAfter(s, step)[i].status)
  {
    var pending' := PendingAfter(s, step);
    StepKeepsJobs(s, step);
    forall i | 0 <= i < |pending'| && RowOf(pending'[i], id) ensures !Lockable(pending'[i].status) {
      if i < |s.tables.pending| {
        if step.Finish? && i == s.retriers[step.r].todo[0].id {
          assert ExecutesRowOf(s.tables.pending, s.retriers, step.r, id);
        }
      } else if step.WriteQueued? {
        assert MayAnchor(s.anchors, step.w, s.anchors[step.w].todo[0]);
      }
    }
  }

  lemma NobodyNewExecutes(s: State, step: Step, id: string)
    requires Enabled(s, step) && Consistent(s) && !MayBeRewritten(s, id)
    ensures forall r :: !ExecutesRowOf(PendingAfter(s, step), RetriersAfter(s, step), r, id)
  {
    StepKeepsJobs(s, step);
    forall r | ExecutesRowOf(PendingAfter(s, step), RetriersAfter(s, step), r, id) ensures false {
      if !(step.TryLock? && step.r == r) {
        assert Executes(s.retriers, r, s.retriers[r].todo[0].id);
        assert ExecutesRowOf(s.tables.pending, s.retriers, r, id);
      }
    }
  }

  lemma StepLeavesTxId(s: State, step: Step, id: string)
    requires Enabled(s, step) && Consistent(s) && !RequestsRetryOf(step, id)
    requires id in s.tables.events && Anchored(s.tables.events[id]) && !MayBeRewritten(s, id)
    ensures !MayBeRewritten(Apply(s, step), id)
    ensures id in EventsAfter(s, step) && EventsAfter(s, step)[id].dltTxId == s.tables.events[id].dltTxId
  {
    NobodyNewAnchors(s, step, id);
    NoRowReopens(s, step, id);
    NobodyNewExecutes(s, step, id);
    match step {
      case WriteAnchored(w, _) => assert s.anchors[w].todo[0] == id ==> MayAnchor(s.anchors, w, id);
      case Finish(r, _) =>
        assert SameJob(s.tables.pending, s.retriers[r].todo[0]);
        assert !ExecutesRowOf(s.tables.pending, s.retriers, r, id);
      case _ =>
    }
  }

  // ----- somebody left: the id can change -----

  /** A continuation without any new retry request for the event replaces its transaction id. */
  ghost predicate Rewrites(s: State, more: seq<Step>, id: string) {
    && Possible(s, more) && NoRequest(more, id)
    && id in s.tables.events && id in After(s, more).tables.events
    && After(s, more).tables.events[id].dltTxId != s.tables.events[id].dltTxId
  }

  function OtherId(mark: Option<string>): (r: string)
    ensures ChainId(r) && r != "" && Some(r) != mark
  {
    if mark == Some("0x1") then "0x2" else "0x1"
  }

  lemma RewritesAfter(s: State, step: Step, more: seq<Step>, id: string)
    requires Enabled(s, step) && !RequestsRetryOf(step, id) && Rewrites(Apply(s, step), more, id)
    requires id in s.tables.events && EventsAfter(s, step)[id].dltTxId == s.tables.events[id].dltTxId
    ensures Rewrites(s, [step] + more, id)
  {
    OneStep(s, step);
    RunsJoin(s, [step], more);
  }

  /** The worker gives up the events before this one and then anchors it. */
  lemma {:induction false} AnchorWorkerRewrites(s: State, w: nat, id: string) returns (more: seq<Step>)
    requires MayAnchor(s.anchors, w, id) && id in s.tables.events && Anchored(s.tables.events[id])
    ensures Rewrites(s, more, id)
    decreases if w in s.anchors then |s.anchors[w].todo| else 0
  {
    var worker := s.anchors[w];
    if worker.todo[0] == id {
      var step := WriteAnchored(w, OtherId(s.tables.events[id].dltTxId));
      OneStep(s, step);
      more := [step];
    } else {
      var step := if worker.queued then WriteMarked(w) else WriteReturned(w);
      var next := Apply(s, step);
      assert next.anchors == s.anchors[w := NextEvent(worker)];
      assert id in worker.todo[1..];
      assert next.tables.events[id] == s.tables.events[id];
      var rest := AnchorWorkerRewrites(next, w, id);
      RewritesAfter(s, step, rest, id);
      more := [step] + rest;
    }
  }

  lemma ExecutionRewrites(s: State, r: nat, id: string) returns (more: seq<Step>)
    requires ExecutesRowOf(s.tables.pending, s.retriers, r, id) && SameJob(s.tables.pending, s.retriers[r].todo[0])
    requires id in s.tables.events && Anchored(s.tables.events[id])
    ensures Rewrites(s, more, id)
  {
    var step := Finish(r, Succeeded(OtherId(s.tables.events[id].dltTxId)));
    OneStep(s, step);
    more := [step];
  }

  lemma {:induction false} AboveAll(ids: set<nat>) returns (bound: nat)
    ensures forall id <- ids :: id < bound
  {
    if ids == {} {
      bound := 0;
    } else {
      var id :| id in ids;
      var rest := AboveAll(ids - {id});
      bound := if rest <= id then id + 1 else rest;
      assert forall x <- ids :: x == id || x in ids - {id};
    }
  }

  /** A retry worker of its own fetches, locks and executes the open row. */
  lemma OpenRowRewrites(s: State, i: nat, id: string) returns (more: seq<Step>)
    requires i < |s.tables.pending| && RowOf(s.tables.pending[i], id) && Lockable(s.tables.pending[i].status)
    requires !s.tables.pending[i].isDlq && id in s.tables.events && Anchored(s.tables.events[id])
    requires |s.tries| == |s.tables.pending|
    ensures Rewrites(s, more, id)
  {
    var r := AboveAll(s.retriers.Keys);
    var p := s.tables.pending[i];
    var now := if p.nextRetryAt.Some? && p.nextRetryAt.value > s.clock then p.nextRetryAt.value else s.clock;
    var later := Apply(s, Tick(now));
    var fetched := FetchAlone(later, r, i);
    var locked := LockAlone(fetched, r, i, p);
    var rest := ExecutionRewrites(locked, r, id);
    RewritesAfter(fetched, TryLock(r), rest, id);
    RewritesAfter(later, Fetch(r, now, [i]), [TryLock(r)] + rest, id);
    RewritesAfter(s, Tick(now), [Fetch(r, now, [i])] + ([TryLock(r)] + rest), id);
    more := [Tick(now)] + ([Fetch(r, now, [i])] + ([TryLock(r)] + rest));
  }

  lemma FetchAlone(s: State, r: nat, i: nat) returns (s': State)
    requires (r in s.retriers ==> s.retriers[r].todo == []) && i < |s.tables.pending|
             && Due(s.tables.pending[i], s.clock)
    ensures Enabled(s, Fetch(r, s.clock, [i])) && s' == Apply(s, Fetch(r, s.clock, [i]))
    ensures s' == s.(retriers := s.retriers[r := RetryWorker([Fetched(i, s.tables.pending[i])], false)])
  {
    s' := Apply(s, Fetch(r, s.clock, [i]));
    assert s'.retriers[r].todo == [Fetched(i, s.tables.pending[i])];
  }

  lemma LockAlone(s: State, r: nat, i: nat, row: Pending) returns (s': State)
    requires r in s.retriers && i < |s.tables.pending| == |s.tries|
    requires s.retriers[r] == RetryWorker([Fetched(i, row)], false) && Lockable(s.tables.pending[i].status)
    ensures Enabled(s, TryLock(r)) && s' == Apply(s, TryLock(r))
    ensures s'.tables == Tables(s.tables.events, s.tables.pending[i := Lock(s.tables.pending[i])])
    ensures s'.retriers == s.retriers[r := RetryWorker([Fetched(i, row)], true)] && s'.clock == s.clock
    ensures s'.tries == s.tries[i := s.tries[i].(starts := s.tries[i].starts + [s.clock])]
  {
    s' := Apply(s, TryLock(r));
  }

  // ----- exactly when -----

  lemma {:induction false} NobodyLeft(s: State, more: seq<Step>, id: string)
    requires Consistent(s) && id in s.tables.events && Anchored(s.tables.events[id]) && !MayBeRewritten(s, id)
    requires Possible(s, more) && NoRequest(more, id)
    ensures var s' := After(s, more);
            && Consistent(s') && !MayBeRewritten(s', id)
            && id in s'.tables.events && s'.tables.events[id].dltTxId == s.tables.events[id].dltTxId
  {
    if more == [] {
    } else {
      var before := more[..|more| - 1];
      NobodyLeft(s, before, id);
      var step := more[|more| - 1];
      assert !RequestsRetryOf(step, id);
      StepHoldsApart(After(s, before), step);
      StepRunsApart(After(s, before), step);
      StepKeepsRows(After(s, before), step);
      StepLeavesTxId(After(s, before), step, id);
    }
  }

  lemma SomebodyLeft(s: State, id: string) returns (more: seq<Step>)
    requires Consistent(s) && id in s.tables.events && Anchored(s.tables.events[id]) && MayBeRewritten(s, id)
    ensures Rewrites(s, more, id)
  {
    if w :| MayAnchor(s.anchors, w, id) {
      more := AnchorWorkerRewrites(s, w, id);
    } else if r :| ExecutesRowOf(s.tables.pending, s.retriers, r, id) {
      assert SameJob(s.tables.pending, s.retriers[r].todo[0]);
      more := ExecutionRewrites(s, r, id);
    } else {
      var i :| 0 <= i < |s.tables.pending| && RowOf(s.tables.pending[i], id) && Lockable(s.tables.pending[i].status);
      more := OpenRowRewrites(s, i, id);
    }
  }

  /** An event anchored in any reachable state can get another transaction id, without a new request to retry it, if and
      only if an anchor worker holds it that has not yet marked it for retry, or a retry row of it is open or
      executing. */
  lemma TxIdCanChangeIff(events: map<string, Event>, steps: seq<Step>, id: string)
    requires Possible(Initial(events), steps)
    requires var s := After(Initial(events), steps); id in s.tables.events && Anchored(s.tables.events[id])
    ensures var s := After(Initial(events), steps);
            (exists more :: Rewrites(s, more, id)) <==> MayBeRewritten(s, id)
  {
    var s := After(Initial(events), steps);
    ReachableIsConsistent(events, steps);
    if MayBeRewritten(s, id) {
      var more := SomebodyLeft(s, id);
    } else {
      forall more | Possible(s, more) && NoRequest(more, id) ensures !Rewrites(s, more, id) {
        NobodyLeft(s, more, id);
      }
    }
  }

  // ----- two runs that anchor an event twice -----

  predicate AnchoredAs(s: State, id: string, txId: string) {
    id in s.tables.events && s.tables.events[id].dltTxId == Some(txId)
  }

  function OneEvent(mark: Option<string>): map<string, Event> {
    map["e" := Event("t", "a", APPROVED, Some("h"), mark)]
  }

  function RetryRow(): Pending {
    NewPending("t", "e", ANCHOR, "STELLAR")
  }

  /** Worker 0 has claimed the event. */
  function Claimed0(): State {
    State(Tables(OneEvent(Some(PROCESSING_MARK)), []), map[0 := AnchorWorker(["e"], false)], map[], [], 0)
  }

  /** It failed to anchor it, wrote the retry row and marked the event. */
  function Marked0(): State {
    State(Tables(OneEvent(Some(RETRY_MARK)), [RetryRow()]), map[0 := AnchorWorker([], false)], map[], [Tries([], [])],
      0)
  }

  /** Retry worker 0 has fetched and locked the row. */
  function Locked0(): State {
    State(Tables(OneEvent(Some(RETRY_MARK)), [Lock(RetryRow())]), map[0 := AnchorWorker([], false)],
          map[0 := RetryWorker([Fetched(0, RetryRow())], true)], [Tries([0], [])], 0)
  }

  lemma ClaimingLeads()
    ensures Enabled(Initial(OneEvent(None)), ClaimBatch(0, ["e"]))
    ensures Apply(Initial(OneEvent(None)), ClaimBatch(0, ["e"])) == Claimed0()
  {
  }

  lemma QueueingLeads() returns (queued: State)
    ensures Enabled(Claimed0(), WriteQueued(0, "STELLAR")) && queued == Apply(Claimed0(), WriteQueued(0, "STELLAR"))
    ensures queued == State(Tables(OneEvent(Some(PROCESSING_MARK)), [RetryRow()]), map[0 := AnchorWorker(["e"], true)],
            map[], [Tries([], [])], 0)
  {
    queued := Apply(Claimed0(), WriteQueued(0, "STELLAR"));
  }

  lemma MarkingLeads(queued: State)
    requires queued == State(Tables(OneEvent(Some(PROCESSING_MARK)), [RetryRow()]),
             map[0 := AnchorWorker(["e"], true)], map[], [Tries([], [])], 0)
    ensures Enabled(queued, WriteMarked(0)) && Apply(queued, WriteMarked(0)) == Marked0()
  {
    assert ["e"][1..] == [];
    assert AnchorsAfter(queued, WriteMarked(0)) == map[0 := AnchorWorker([], false)];
  }

  lemma FetchingLeads() returns (fetched: State)
    ensures Enabled(Marked0(), Fetch(0, 0, [0])) && fetched == Apply(Marked0(), Fetch(0, 0, [0]))
    ensures fetched == Marked0().(retriers := map[0 := RetryWorker([Fetched(0, RetryRow())], false)])
  {
    fetched := Apply(Marked0(), Fetch(0, 0, [0]));
    assert RetriersAfter(Marked0(), Fetch(0, 0, [0]))[0].todo == [Fetched(0, RetryRow())];
  }

  lemma LockingLeads(fetched: State)
    requires fetched == Marked0().(retriers := map[0 := RetryWorker([Fetched(0, RetryRow())], false)])
    ensures Enabled(fetched, TryLock(0)) && Apply(fetched, TryLock(0)) == Locked0()
  {
    assert PendingAfter(fetched, TryLock(0)) == [Lock(RetryRow())];
    assert fetched.tries[0].starts + [0] == [0];
    assert TriesAfter(fetched, TryLock(0)) == [Tries([0], [])];
    assert RetriersAfter(fetched, TryLock(0)) == map[0 := RetryWorker([Fetched(0, RetryRow())], true)];
  }

  lemma {:induction false} MarkedRun() returns (steps: seq<Step>)
    ensures |steps| == 3 && Possible(Initial(OneEvent(None)), steps)
            && After(Initial(OneEvent(None)), steps) == Marked0()
  {
    var s := Initial(OneEvent(None));
    ClaimingLeads();
    Extends(s, [], s, ClaimBatch(0, ["e"]), Claimed0());
    var queued := QueueingLeads();
    var one := [] + [ClaimBatch(0, ["e"])];
    Extends(s, one, Claimed0(), WriteQueued(0, "STELLAR"), queued);
    var two := one + [WriteQueued(0, "STELLAR")];
    MarkingLeads(queued);
    Extends(s, two, queued, WriteMarked(0), Marked0());
    steps := two + [WriteMarked(0)];
  }

  lemma {:induction false} LockedRun() returns (steps: seq<Step>)
    ensures |steps| == 5 && Possible(Initial(OneEvent(None)), steps)
            && After(Initial(OneEvent(None)), steps) == Locked0()
  {
    var s := Initial(OneEvent(None));
    var three := MarkedRun();
    var fetched := FetchingLeads();
    Extends(s, three, Marked0(), Fetch(0, 0, [0]), fetched);
    var four := three + [Fetch(0, 0, [0])];
    LockingLeads(fetched);
    Extends(s, four, fetched, TryLock(0), Locked0());
    steps := four + [TryLock(0)];
  }

  /** Meanwhile anchor worker 1 claims the marked event. */
  lemma ReclaimingLeads() returns (claimed: State)
    ensures Enabled(Locked0(), ClaimBatch(1, ["e"])) && claimed == Apply(Locked0(), ClaimBatch(1, ["e"]))
    ensures 1 in claimed.anchors && claimed.anchors[1] == AnchorWorker(["e"], false)
    ensures claimed.retriers == Locked0().retriers && "e" in claimed.tables.events
  {
    claimed := Apply(Locked0(), ClaimBatch(1, ["e"]));
  }

  /** The retry succeeds, and then so does worker 1. */
  lemma BothSucceed(claimed: State, first: string, second: string) returns (retried: State, both: State)
    requires ChainId(first) && ChainId(second) && first != ""
    requires 1 in claimed.anchors && claimed.anchors[1] == AnchorWorker(["e"], false)
    requires claimed.retriers == map[0 := RetryWorker([Fetched(0, RetryRow())], true)] && "e" in claimed.tables.events
    ensures Enabled(claimed, Finish(0, Succeeded(first))) && retried == Apply(claimed, Finish(0, Succeeded(first)))
    ensures Enabled(retried, WriteAnchored(1, second)) && both == Apply(retried, WriteAnchored(1, second))
    ensures AnchoredAs(retried, "e", first) && AnchoredAs(both, "e", second)
  {
    retried := Apply(claimed, Finish(0, Succeeded(first)));
    assert retried.anchors == claimed.anchors;
    both := Apply(retried, WriteAnchored(1, second));
  }

  /** Both kinds of worker may pick up an event marked for retry: a run in which it is anchored as `first`, then as
      `second`. */
  lemma {:induction false} AnchoredTwice(first: string, second: string) returns (steps: seq<Step>)
    requires ChainId(first) && ChainId(second) && first != second && first != ""
    ensures var s := Initial(OneEvent(None));
            && Possible(s, steps) && |steps| == 8
            && AnchoredAs(After(s, steps[..7]), "e", first) && AnchoredAs(After(s, steps), "e", second)
  {
    var s := Initial(OneEvent(None));
    var five := LockedRun();
    var claimed := ReclaimingLeads();
    var retried, both := BothSucceed(claimed, first, second);
    Extends(s, five, Locked0(), ClaimBatch(1, ["e"]), claimed);
    var six := five + [ClaimBatch(1, ["e"])];
    Extends(s, six, claimed, Finish(0, Succeeded(first)), retried);
    var seven := six + [Finish(0, Succeeded(first))];
    Extends(s, seven, retried, WriteAnchored(1, second), both);
    steps := seven + [WriteAnchored(1, second)];
    assert steps[..7] == seven;
  }

  /** Worker 0 claims the marked event again, fails again and writes a second retry row. */
  function MarkedTwice(): State {
    State(Tables(OneEvent(Some(RETRY_MARK)), [RetryRow(), RetryRow()]), map[0 := AnchorWorker([], false)], map[],
          [Tries([], []), Tries([], [])], 0)
  }

  lemma ClaimingAgainLeads() returns (claimed: State)
    ensures Enabled(Marked0(), ClaimBatch(0, ["e"])) && claimed == Apply(Marked0(), ClaimBatch(0, ["e"]))
    ensures claimed == Marked0().(tables := Tables(OneEvent(Some(PROCESSING_MARK)), [RetryRow()]),
                                  anchors := map[0 := AnchorWorker(["e"], false)])
  {
    claimed := Apply(Marked0(), ClaimBatch(0, ["e"]));
    assert claimed.tables.events == OneEvent(Some(PROCESSING_MARK));
  }

  lemma MarkingAgainLeads(claimed: State) returns (queued: State)
    requires claimed == Marked0().(tables := Tables(OneEvent(Some(PROCESSING_MARK)), [RetryRow()]),
                                   anchors := map[0 := AnchorWorker(["e"], false)])
    ensures Enabled(claimed, WriteQueued(0, "STELLAR")) && queued == Apply(claimed, WriteQueued(0, "STELLAR"))
    ensures Enabled(queued, WriteMarked(0)) && Apply(queued, WriteMarked(0)) == MarkedTwice()
  {
    queued := Apply(claimed, WriteQueued(0, "STELLAR"));
    assert queued.tables == Tables(OneEvent(Some(PROCESSING_MARK)), [RetryRow(), RetryRow()]);
    assert queued.anchors == map[0 := AnchorWorker(["e"], true)];
    assert queued.tries == [Tries([], []), Tries([], [])];
    assert ["e"][1..] == [];
    assert AnchorsAfter(queued, WriteMarked(0)) == map[0 := AnchorWorker([], false)];
  }

  lemma MarkedTwiceRun() returns (steps: seq<Step>)
    ensures |steps| == 6 && Possible(Initial(OneEvent(None)), steps)
            && After(Initial(OneEvent(None)), steps) == MarkedTwice()
  {
    var s := Initial(OneEvent(None));
    var three := MarkedRun();
    var claimed := ClaimingAgainLeads();
    var queued := MarkingAgainLeads(claimed);
    Extends(s, three, Marked0(), ClaimBatch(0, ["e"]), claimed);
    var four := three + [ClaimBatch(0, ["e"])];
    Extends(s, four, claimed, WriteQueued(0, "STELLAR"), queued);
    var five := four + [WriteQueued(0, "STELLAR")];
    Extends(s, five, queued, WriteMarked(0), MarkedTwice());
    steps := five + [WriteMarked(0)];
  }

  lemma FetchingBothLeads() returns (fetched: State)
    ensures Enabled(MarkedTwice(), Fetch(0, 0, [0, 1])) && fetched == Apply(MarkedTwice(), Fetch(0, 0, [0, 1]))
    ensures fetched.tables == MarkedTwice().tables && 0 in fetched.retriers
    ensures fetched.retriers[0] == RetryWorker([Fetched(0, RetryRow()), Fetched(1, RetryRow())], false)
  {
    fetched := Apply(MarkedTwice(), Fetch(0, 0, [0, 1]));
    assert fetched.retriers[0].todo == [Fetched(0, RetryRow()), Fetched(1, RetryRow())];
  }

  /** One turn of retry worker 0: lock and execute the next row, which anchors the event as `txId`. */
  lemma TurnAnchors(s: State, i: nat, txId: string) returns (locked: State, anchored: State)
    requires 0 in s.retriers && s.retriers[0].todo != [] && !s.retriers[0].running
             && s.retriers[0].todo[0] == Fetched(i, RetryRow())
    requires i < |s.tables.pending| && s.tables.pending[i] == RetryRow() && "e" in s.tables.events
    requires ChainId(txId) && txId != ""
    ensures Enabled(s, TryLock(0)) && locked == Apply(s, TryLock(0))
    ensures Enabled(locked, Finish(0, Succeeded(txId))) && anchored == Apply(locked, Finish(0, Succeeded(txId)))
    ensures AnchoredAs(anchored, "e", txId) && |anchored.tables.pending| == |s.tables.pending|
    ensures forall j :: 0 <= j < |s.tables.pending| && j != i ==> anchored.tables.pending[j] == s.tables.pending[j]
    ensures 0 in anchored.retriers && anchored.retriers[0] == RetryWorker(s.retriers[0].todo[1..], false)
  {
    locked := Apply(s, TryLock(0));
    assert locked.retriers[0] == s.retriers[0].(running := true);
    anchored := Apply(locked, Finish(0, Succeeded(txId)));
  }

  /** One retry worker suffices: an event that failed to anchor twice has two retry rows, and they are both executed. */
  lemma AnchoredTwiceByOneRetrier(first: string, second: string) returns (steps: seq<Step>)
    requires ChainId(first) && ChainId(second) && first != second && first != "" && second != ""
    ensures var s := Initial(OneEvent(None));
            && Possible(s, steps) && |steps| == 11
            && AnchoredAs(After(s, steps[..9]), "e", first) && AnchoredAs(After(s, steps), "e", second)
  {
    var s := Initial(OneEvent(None));
    var six := MarkedTwiceRun();
    var fetched := FetchingBothLeads();
    Extends(s, six, MarkedTwice(), Fetch(0, 0, [0, 1]), fetched);
    var seven := six + [Fetch(0, 0, [0, 1])];
    var nine := TurnExtends(s, seven, fetched, 0, first);
    steps := TurnExtends(s, nine, After(s, nine), 1, second);
    assert steps[..9] == nine;
  }

  lemma TurnExtends(s: State, steps: seq<Step>, now: State, i: nat, txId: string) returns (longer: seq<Step>)
    requires Possible(s, steps) && After(s, steps) == now
    requires 0 in now.retriers && now.retriers[0].todo != [] && !now.retriers[0].running
    requires now.retriers[0].todo[0] == Fetched(i, RetryRow())
    requires i < |now.tables.pending| && now.tables.pending[i] == RetryRow() && "e" in now.tables.events
    requires ChainId(txId) && txId != ""
    ensures Possible(s, longer) && |longer| == |steps| + 2 && longer[..|steps|] == steps
    ensures var after := After(s, longer);
            && AnchoredAs(after, "e", txId) && |after.tables.pending| == |now.tables.pending|
            && (forall j :: 0 <= j < |now.tables.pending| && j != i ==>
                after.tables.pending[j] == now.tables.pending[j])
            && 0 in after.retriers && after.retriers[0] == RetryWorker(now.retriers[0].todo[1..], false)
  {
    var locked, anchored := TurnAnchors(now, i, txId);
    Extends(s, steps, now, TryLock(0), locked);
    var more := steps + [TryLock(0)];
    Extends(s, more, locked, Finish(0, Succeeded(txId)), anchored);
    longer := more + [Finish(0, Succeeded(txId))];
  }
}
