/** What holds under every interleaving of anchor-queue workers and retry workers, crashes included. */
module AnchorProofs {
  import opened Common
  import opened AnchorTables
  import opened AnchorWorkers

  // ----- anchored is forever -----

  lemma StepKeepsAnchored(s: State, step: Step, id: string)
    requires Enabled(s, step) && id in s.tables.events && Anchored(s.tables.events[id])
    ensures id in EventsAfter(s, step) && Anchored(EventsAfter(s, step)[id])
  {
  }

  /** Once an event carries a chain's transaction id it never again carries none, nor one of the two markers. */
  lemma {:induction false} AnchoredIsForever(s: State, steps: seq<Step>, m: nat, id: string)
    requires Possible(s, steps) && m <= |steps|
    requires id in After(s, steps[..m]).tables.events && Anchored(After(s, steps[..m]).tables.events[id])
    ensures id in After(s, steps).tables.events && Anchored(After(s, steps).tables.events[id])
  {
    if m == |steps| {
      assert steps[..m] == steps;
    } else {
      var before := steps[..|steps| - 1];
      assert before[..m] == steps[..m];
      AnchoredIsForever(s, before, m, id);
      StepKeepsAnchored(After(s, before), steps[|steps| - 1], id);
    }
  }

  // ----- an event is held by at most one anchor-queue worker -----

  /** Between its claim and the write of its outcome. */
  predicate Holds(anchors: map<nat, AnchorWorker>, w: nat, id: string) {
    w in anchors && id in anchors[w].todo
  }

  ghost predicate HeldApart(events: map<string, Event>, anchors: map<nat, AnchorWorker>) {
    && (forall w :: w in anchors ==> NoRepeats(anchors[w].todo))
    && (forall w, id :: Holds(anchors, w, id) ==> id in events && !Unclaimed(events[id]))
    && (forall w, w', id :: Holds(anchors, w, id) && Holds(anchors, w', id) ==> w == w')
  }

  /** A write that hands no event back to the queue. */
  lemma KeepsClaims(events: map<string, Event>, events': map<string, Event>, anchors: map<nat, AnchorWorker>)
    requires HeldApart(events, anchors)
    requires forall id :: id in events && !Unclaimed(events[id]) ==> id in events' && !Unclaimed(events'[id])
    ensures HeldApart(events', anchors)
  {
  }

  /** A worker that drops its first events, or all of them. */
  lemma DropsEvents(events: map<string, Event>, anchors: map<nat, AnchorWorker>, w: nat, k: nat, queued: bool)
    requires HeldApart(events, anchors) && w in anchors && k <= |anchors[w].todo|
    ensures HeldApart(events, anchors[w := AnchorWorker(anchors[w].todo[k..], queued)])
  {
    var anchors' := anchors[w := AnchorWorker(anchors[w].todo[k..], queued)];
    assert forall v, id :: Holds(anchors', v, id) ==> Holds(anchors, v, id);
  }

  /** The worker on an event may hand it back together with moving on. */
  lemma HandsBack(events: map<string, Event>, e: Event, anchors: map<nat, AnchorWorker>, w: nat)
    requires HeldApart(events, anchors) && w in anchors && anchors[w].todo != []
    ensures HeldApart(events[anchors[w].todo[0] := e], anchors[w := NextEvent(anchors[w])])
  {
    var id := anchors[w].todo[0];
    var anchors' := anchors[w := NextEvent(anchors[w])];
    assert forall i :: 0 <= i < |anchors[w].todo| - 1 ==> anchors[w].todo[1..][i] == anchors[w].todo[i + 1];
    DropsEvents(events, anchors, w, 1, false);
    assert Holds(anchors, w, id);
    forall v | Holds(anchors', v, id) ensures false {
      if v != w {
        assert Holds(anchors, v, id);
      }
    }
  }

  lemma ClaimHoldsApart(events: map<string, Event>, anchors: map<nat, AnchorWorker>, w: nat, ids: seq<string>)
    requires HeldApart(events, anchors) && (w in anchors ==> anchors[w].todo == []) && NoRepeats(ids)
    requires forall i :: 0 <= i < |ids| ==> ids[i] in events && Claimable(events[ids[i]])
    ensures HeldApart(Claim(events, set id <- ids), anchors[w := AnchorWorker(ids, false)])
  {
    var anchors' := anchors[w := AnchorWorker(ids, false)];
    var events' := Claim(events, set id <- ids);
    assert forall v, id :: v != w && Holds(anchors', v, id) ==> Holds(anchors, v, id);
    assert forall id :: id in ids ==> Claimable(events[id]) && events'[id].dltTxId == Some(PROCESSING_MARK);
    assert forall id :: id in events && !Unclaimed(events[id]) ==> events'[id] == events[id];
  }

  lemma StepHoldsApart(s: State, step: Step)
    requires Enabled(s, step) && HeldApart(s.tables.events, s.anchors)
    ensures HeldApart(EventsAfter(s, step), AnchorsAfter(s, step))
  {
    var events, anchors := s.tables.events, s.anchors;
    var events', anchors' := EventsAfter(s, step), AnchorsAfter(s, step);
    match step {
      case ClaimBatch(w, ids) => ClaimHoldsApart(events, anchors, w, ids);
      case WriteAnchored(w, txId) =>
        assert Holds(anchors, w, anchors[w].todo[0]);
        HandsBack(events, events[anchors[w].todo[0]].(dltTxId := Some(txId)), anchors, w);
      case WriteReturned(w) => HandBackStep(events, events', anchors, w);
      case WriteMarked(w) => HandBackStep(events, events', anchors, w);
      case WriteQueued(w, _) => DropsEvents(events, anchors, w, 0, true);
      case CrashAnchor(w) =>
        assert anchors[w].todo[|anchors[w].todo|..] == [];
        DropsEvents(events, anchors, w, |anchors[w].todo|, false);
      case _ => KeepsClaims(events, events', anchors);
    }
  }

  lemma HandBackStep(events: map<string, Event>, events': map<string, Event>, anchors: map<nat, AnchorWorker>, w: nat)
    requires HeldApart(events, anchors) && w in anchors && anchors[w].todo != []
    requires events' == ReturnForFunds(events, anchors[w].todo[0])
             || events' == MarkForRetry(events, anchors[w].todo[0])
    ensures HeldApart(events', anchors[w := NextEvent(anchors[w])])
  {
    var id := anchors[w].todo[0];
    assert Holds(anchors, w, id);
    assert events' == events[id := events'[id]];
    HandsBack(events, events'[id], anchors, w);
  }

  lemma {:induction false} RunHoldsApart(s: State, steps: seq<Step>)
    requires s.anchors == map[] && Possible(s, steps)
    ensures HeldApart(After(s, steps).tables.events, After(s, steps).anchors)
  {
    if steps == [] {
    } else {
      RunHoldsApart(s, steps[..|steps| - 1]);
      StepHoldsApart(After(s, steps[..|steps| - 1]), steps[|steps| - 1]);
    }
  }

  /** An event is held by at most one anchor-queue worker, once, and until its outcome is written nobody can claim
      it. */
  lemma EventsAreHeldByOneWorker(s: State, steps: seq<Step>, w: nat, id: string)
    requires s.anchors == map[] && Possible(s, steps) && Holds(After(s, steps).anchors, w, id)
    ensures var now := After(s, steps);
            && id in now.tables.events && !Claimable(now.tables.events[id])
            && NoRepeats(now.anchors[w].todo)
            && forall w' :: Holds(now.anchors, w', id) ==> w' == w
  {
    RunHoldsApart(s, steps);
  }

  // ----- a pending transaction is executed by at most one retry worker -----

  predicate Executes(retriers: map<nat, RetryWorker>, r: nat, id: nat) {
    Running(retriers, r) && retriers[r].todo[0].id == id
  }

  ghost predicate RunApart(pending: seq<Pending>, retriers: map<nat, RetryWorker>) {
    && (forall r, tx :: r in retriers && tx in retriers[r].todo ==> tx.id < |pending|)
    && (forall r: nat, id: nat :: Executes(retriers, r, id) ==> id < |pending| && pending[id].status == PROCESSING)
    && (forall r: nat, r': nat, id: nat :: Executes(retriers, r, id) && Executes(retriers, r', id) ==> r == r')
  }

  lemma StepRunsApart(s: State, step: Step)
    requires Enabled(s, step) && RunApart(s.tables.pending, s.retriers)
    ensures RunApart(PendingAfter(s, step), RetriersAfter(s, step))
  {
    var retriers, retriers' := s.retriers, RetriersAfter(s, step);
    match step {
      case TryLock(r) =>
        assert forall q, id :: q != r && Executes(retriers', q, id) ==> Executes(retriers, q, id);
        assert retriers[r].todo[0] in retriers[r].todo;
      case Finish(r, _) =>
        assert Executes(retriers, r, retriers[r].todo[0].id);
        assert forall q, id :: Executes(retriers', q, id) ==> q != r && Executes(retriers, q, id);
      case Fetch(r, _, _) =>
        assert forall q, id :: Executes(retriers', q, id) ==> q != r && Executes(retriers, q, id);
      case CrashRetry(r) =>
        assert forall q, id :: Executes(retriers', q, id) ==> q != r && Executes(retriers, q, id);
      case _ =>
    }
  }

  lemma {:induction false} RunRunsApart(s: State, steps: seq<Step>)
    requires s.retriers == map[] && Possible(s, steps)
    ensures RunApart(After(s, steps).tables.pending, After(s, steps).retriers)
  {
    if steps == [] {
    } else {
      RunRunsApart(s, steps[..|steps| - 1]);
      StepRunsApart(After(s, steps[..|steps| - 1]), steps[|steps| - 1]);
    }
  }

  /** A pending transaction is being executed by at most one retry worker, and is then locked against the others. */
  lemma RowsAreExecutedByOneWorker(s: State, steps: seq<Step>, r: nat, id: nat)
    requires s.retriers == map[] && Possible(s, steps) && Executes(After(s, steps).retriers, r, id)
    ensures var now := After(s, steps);
            && id < |now.tables.pending| && !Lockable(now.tables.pending[id].status)
            && forall r' :: Executes(now.retriers, r', id) ==> r' == r
  {
    RunRunsApart(s, steps);
    var now := After(s, steps);
    assert now.retriers[r].todo[0] in now.retriers[r].todo;
  }

  predicate IsClosed(status: TxStatus) {
    status.SUCCESS? || status.DLQ?
  }

  lemma StepKeepsClosed(s: State, step: Step, id: nat)
    requires Enabled(s, step) && RunApart(s.tables.pending, s.retriers)
    requires id < |s.tables.pending| && IsClosed(s.tables.pending[id].status)
    ensures id < |PendingAfter(s, step)| && PendingAfter(s, step)[id] == s.tables.pending[id]
  {
    if step.Finish? {
      assert Executes(s.retriers, step.r, s.retriers[step.r].todo[0].id);
    }
  }

  /** SUCCESS and DLQ are final, whatever the workers do. */
  lemma {:induction false} ClosedRowsStayAsTheyAre(s: State, steps: seq<Step>, m: nat, id: nat)
    requires s.retriers == map[] && Possible(s, steps) && m <= |steps|
    requires id < |After(s, steps[..m]).tables.pending| && IsClosed(After(s, steps[..m]).tables.pending[id].status)
    ensures id < |After(s, steps).tables.pending| && After(s, steps).tables.pending[id]
            == After(s, steps[..m]).tables.pending[id]
  {
    if m == |steps| {
      assert steps[..m] == steps;
    } else {
      var before := steps[..|steps| - 1];
      assert before[..m] == steps[..m];
      ClosedRowsStayAsTheyAre(s, before, m, id);
      RunRunsApart(s, before);
      StepKeepsClosed(After(s, before), steps[|steps| - 1], id);
    }
  }

  // ----- putting runs together -----

  lemma OneMore(s: State, steps: seq<Step>, step: Step)
    requires Possible(s, steps) && Enabled(After(s, steps), step)
    ensures Possible(s, steps + [step]) && After(s, steps + [step]) == Apply(After(s, steps), step)
  {
    assert (steps + [step])[..|steps|] == steps;
  }

  lemma Extends(s: State, steps: seq<Step>, a: State, step: Step, b: State)
    requires Possible(s, steps) && After(s, steps) == a && Enabled(a, step) && Apply(a, step) == b
    ensures Possible(s, steps + [step]) && After(s, steps + [step]) == b
  {
    OneMore(s, steps, step);
  }

  lemma {:induction false} RunsJoin(s: State, steps: seq<Step>, more: seq<Step>)
    requires Possible(s, steps) && Possible(After(s, steps), more)
    ensures Possible(s, steps + more) && After(s, steps + more) == After(After(s, steps), more)
    decreases |more|
  {
    if more == [] {
      assert steps + more == steps;
    } else {
      var n := |more| - 1;
      RunsJoin(s, steps, more[..n]);
      assert (steps + more)[..|steps| + n] == steps + more[..n];
      assert (steps + more)[|steps| + n] == more[n];
    }
  }

  lemma OneStep(s: State, step: Step)
    requires Enabled(s, step)
    ensures Possible(s, [step]) && After(s, [step]) == Apply(s, step)
  {
    OneMore(s, [], step);
    assert [] + [step] == [step];
  }
}
