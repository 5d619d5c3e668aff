/** Any number of anchor-queue workers and retry workers over the same two tables, one database access at a time.
    A worker may crash between any two of its accesses. */
module AnchorWorkers {
  import opened Common
  import opened AnchorTables

  /** The rest of a claimed batch, the event being worked on first; `queued` once its retry row is written. */
  datatype AnchorWorker = AnchorWorker(todo: seq<string>, queued: bool)

  datatype Fetched = Fetched(id: nat, row: Pending)

  /** The rest of a fetched batch; `running` while the first row is locked and being executed. */
  datatype RetryWorker = RetryWorker(todo: seq<Fetched>, running: bool)

  /** When the executions of a row started and when they failed. Bookkeeping of the model, read by no step. */
  datatype Tries = Tries(starts: seq<int>, failures: seq<int>)

  datatype Outcome = Succeeded(txId: string) | Failed(message: string) | Threw(message: string)

  datatype State = State(
    tables: Tables,
    anchors: map<nat, AnchorWorker>,
    retriers: map<nat, RetryWorker>,
    tries: seq<Tries>,
    clock: int
  )

  datatype Step =
    | Tick(now: int)
    | CreateEvent(id: string, event: Event)
    | Review(id: string, status: EventStatus)
    | Enqueue(tenant: string, txRef: string, txType: TxType, chain: string)
    | ClaimBatch(w: nat, ids: seq<string>)
    | WriteAnchored(w: nat, txId: string)
    | WriteReturned(w: nat)
    | WriteQueued(w: nat, chain: string)
    | WriteMarked(w: nat)
    | CrashAnchor(w: nat)
    | Fetch(r: nat, now: int, rows: seq<nat>)
    | TryLock(r: nat)
    | Finish(r: nat, outcome: Outcome)
    | CrashRetry(r: nat)

  predicate NoRepeats<T(==)>(xs: seq<T>) {
    forall i, j :: 0 <= i < j < |xs| ==> xs[i] != xs[j]
  }

  /** The worker is on an event whose retry row is, or is not yet, written. */
  predicate Working(anchors: map<nat, AnchorWorker>, w: nat, queued: bool) {
    w in anchors && anchors[w].todo != [] && anchors[w].queued == queued
  }

  predicate Running(retriers: map<nat, RetryWorker>, r: nat) {
    r in retriers && retriers[r].todo != [] && retriers[r].running
  }

  predicate Enabled(s: State, step: Step) {
    match step
    case Tick(now) => s.clock <= now
    case CreateEvent(id, event) => id !in s.tables.events && event.dltTxId == None
    case Review(id, _) => id in s.tables.events
    case Enqueue(_, _, _, _) => true
    case ClaimBatch(w, ids) =>
      && (w in s.anchors ==> s.anchors[w].todo == [])
      && NoRepeats(ids)
      && forall i :: 0 <= i < |ids| ==> ids[i] in s.tables.events && Claimable(s.tables.events[ids[i]])
    case WriteAnchored(w, txId) => Working(s.anchors, w, false) && ChainId(txId)
    case WriteReturned(w) => Working(s.anchors, w, false)
    case WriteQueued(w, _) => Working(s.anchors, w, false)
    case WriteMarked(w) => Working(s.anchors, w, true)
    case CrashAnchor(w) => w in s.anchors
    case Fetch(r, now, rows) =>
      && (r in s.retriers ==> s.retriers[r].todo == [])
      && now <= s.clock && NoRepeats(rows)
      && forall i :: 0 <= i < |rows| ==> rows[i] < |s.tables.pending| && Due(s.tables.pending[rows[i]], now)
    case TryLock(r) => r in s.retriers && s.retriers[r].todo != [] && !s.retriers[r].running
    case Finish(r, outcome) => Running(s.retriers, r) && (outcome.Succeeded? ==> ChainId(outcome.txId))
    case CrashRetry(r) => r in s.retriers
  }

  function NextEvent(w: AnchorWorker): AnchorWorker
    requires w.todo != []
  {
    AnchorWorker(w.todo[1..], false)
  }

  function NextRow(r: RetryWorker): RetryWorker
    requires r.todo != []
  {
    RetryWorker(r.todo[1..], false)
  }

  function EventsAfter(s: State, step: Step): map<string, Event>
    requires Enabled(s, step)
  {
    var events := s.tables.events;
    match step
    case CreateEvent(id, event) => events[id := event]
    case Review(id, status) => events[id := events[id].(status := status)]
    case ClaimBatch(_, ids) => Claim(events, set id <- ids)
    case WriteAnchored(w, txId) => if s.anchors[w].todo[0] in events then WriteTxId(events, s.anchors[w].todo[0], txId)
      else events
    case WriteReturned(w) => ReturnForFunds(events, s.anchors[w].todo[0])
    case WriteMarked(w) => MarkForRetry(events, s.anchors[w].todo[0])
    case Finish(r, outcome) =>
      var p := s.retriers[r].todo[0].row;
      if outcome.Succeeded? && !SuccessThrows(events, p, outcome.txId) then EventsAfterSuccess(events, p, outcome.txId)
          else events
    case _ => events
  }

  function AnchorsAfter(s: State, step: Step): map<nat, AnchorWorker>
    requires Enabled(s, step)
  {
    match step
    case ClaimBatch(w, ids) => s.anchors[w := AnchorWorker(ids, false)]
    case WriteAnchored(w, _) => s.anchors[w := NextEvent(s.anchors[w])]
    case WriteReturned(w) => s.anchors[w := NextEvent(s.anchors[w])]
    case WriteQueued(w, _) => s.anchors[w := s.anchors[w].(queued := true)]
    case WriteMarked(w) => s.anchors[w := NextEvent(s.anchors[w])]
    case CrashAnchor(w) => s.anchors[w := AnchorWorker([], false)]
    case _ => s.anchors
  }

  /** How an execution left its row: it succeeded, or `handleFailure` dealt with it. */
  function Settled(events: map<string, Event>, p: Pending, snapshot: Pending, outcome: Outcome, now: int): Pending {
    match outcome
    case Succeeded(txId) => if SuccessThrows(events, snapshot, txId) then Fail(p, snapshot, false, now)
      else Succeed(p, snapshot)
    case Failed(message) => Fail(p, snapshot, IsCriticalError(message), now)
    case Threw(_) => Fail(p, snapshot, false, now)
  }

  predicate IsLocked(s: State, step: Step)
    requires Enabled(s, step) && step.TryLock?
  {
    var id := s.retriers[step.r].todo[0].id;
    id < |s.tables.pending| && Lockable(s.tables.pending[id].status)
  }

  function PendingAfter(s: State, step: Step): seq<Pending>
    requires Enabled(s, step)
  {
    var pending := s.tables.pending;
    match step
    case Enqueue(tenant, txRef, txType, chain) => pending + [NewPending(tenant, txRef, txType, chain)]
    case WriteQueued(w, chain) =>
      var id := s.anchors[w].todo[0];
      pending + [NewPending(if id in s.tables.events then s.tables.events[id].tenantId else "", id, ANCHOR, chain)]
    case TryLock(r) => if IsLocked(s, step) then var id := s.retriers[r].todo[0].id; pending[id := Lock(pending[id])]
      else pending
    case Finish(r, outcome) =>
      var tx := s.retriers[r].todo[0];
      if tx.id < |pending| then pending[tx.id := Settled(s.tables.events, pending[tx.id], tx.row, outcome, s.clock)]
          else pending
    case _ => pending
  }

  function RetriersAfter(s: State, step: Step): map<nat, RetryWorker>
    requires Enabled(s, step)
  {
    match step
    case Fetch(r, _, rows) =>
      s.retriers[r := RetryWorker(seq(|rows|, i requires 0 <= i < |rows| => Fetched(rows[i],
        s.tables.pending[rows[i]])), false)]
    case TryLock(r) => s.retriers[r := if IsLocked(s, step) then s.retriers[r].(running := true)
      else NextRow(s.retriers[r])]
    case Finish(r, _) => s.retriers[r := NextRow(s.retriers[r])]
    case CrashRetry(r) => s.retriers[r := RetryWorker([], false)]
    case _ => s.retriers
  }

  function TriesAfter(s: State, step: Step): seq<Tries>
    requires Enabled(s, step)
  {
    match step
    case Enqueue(_, _, _, _) => s.tries + [Tries([], [])]
    case WriteQueued(_, _) => s.tries + [Tries([], [])]
    case TryLock(r) =>
      var id := s.retriers[r].todo[0].id;
      if IsLocked(s, step) && id < |s.tries| then s.tries[id := s.tries[id].(starts := s.tries[id].starts + [s.clock])]
          else s.tries
    case Finish(r, outcome) =>
      var tx := s.retriers[r].todo[0];
      if tx.id < |s.tries| && (outcome.Succeeded? ==> SuccessThrows(s.tables.events, tx.row, outcome.txId)) then
        s.tries[tx.id := s.tries[tx.id].(failures := s.tries[tx.id].failures + [s.clock])]
      else s.tries
    case _ => s.tries
  }

  function Apply(s: State, step: Step): State
    requires Enabled(s, step)
  {
    State(Tables(EventsAfter(s, step), PendingAfter(s, step)), AnchorsAfter(s, step), RetriersAfter(s, step),
      TriesAfter(s, step),
          if step.Tick? then step.now else s.clock)
  }

  function Initial(events: map<string, Event>): State {
    State(Tables(events, []), map[], map[], [], 0)
  }

  predicate Possible(s: State, steps: seq<Step>) {
    steps == [] || (Possible(s, steps[..|steps| - 1]) && Enabled(After(s, steps[..|steps| - 1]), steps[|steps| - 1]))
  }

  /** Where a run leads; only the possible ones matter. */
  function After(s: State, steps: seq<Step>): State {
    if steps == [] then s
    else
      var before := After(s, steps[..|steps| - 1]);
      if Enabled(before, steps[|steps| - 1]) then Apply(before, steps[|steps| - 1]) else before
  }
}
